/** The lifecycle events tell an observer exactly who is connected and who owns what. */
module BrokerLifecycle {
  import opened Order
  import opened Results
  import opened Protocol
  import opened BrokerState
  import opened BrokerSteps
  import opened BrokerBudgets

  /** What an observer of lifecycle events knows; `highest` is the largest peer id it has heard of. */
  datatype Observed = Observed(peers: set<PeerId>, namespaces: map<Namespace, PeerId>, highest: nat)

  function OwnerIn(namespaces: map<Namespace, PeerId>, n: Namespace): Option<PeerId>
  {
    if n in namespaces then Some(namespaces[n]) else None
  }

  /** One event, or nothing when it does not fit what was heard before. */
  function Hear(v: Observed, e: LifecycleEvent): Option<Observed>
  {
    match e
    case PeerConnected(p) =>
      if p <= v.highest then None else Some(v.(peers := v.peers + {p}, highest := p))
    case PeerDisconnected(p) =>
      if p !in v.peers || p in v.namespaces.Values then None else Some(v.(peers := v.peers - {p}))
    case NamespaceOwnerChanged(n, previous, current) =>
      if previous != OwnerIn(v.namespaces, n) || previous == current || (current.Some? && current.value !in v.peers)
      then None
      else Some(v.(namespaces := if current.Some? then v.namespaces[n := current.value] else v.namespaces - {n}))
  }

  function Replay(v: Observed, events: seq<LifecycleEvent>): Option<Observed>
    decreases |events|
  {
    if events == [] then Some(v)
    else match Hear(v, events[0]) case None => None case Some(next) => Replay(next, events[1..])
  }

  lemma {:induction false} ReplayConcat(v: Observed, a: seq<LifecycleEvent>, b: seq<LifecycleEvent>)
    ensures Replay(v, a + b) == match Replay(v, a) case None => None case Some(next) => Replay(next, b)
    decreases |a|
  {
    if a == [] {
      assert a + b == b;
    } else {
      assert (a + b)[1..] == a[1..] + b;
      if Hear(v, a[0]).Some? {
        ReplayConcat(Hear(v, a[0]).value, a[1..], b);
      }
    }
  }

  function Actual(s: State): Observed
    requires s.nextPeer >= 1
  {
    Observed(s.peers.Keys, s.namespaces, s.nextPeer - 1)
  }

  /** The events a call adds. */
  function NewEvents(s: State, t: State): seq<LifecycleEvent>
  {
    if |s.events| <= |t.events| then t.events[|s.events|..] else []
  }

  lemma {:induction false} ReleasesReplay(v: Observed, released: set<Namespace>, peer: PeerId)
    requires forall n :: n in released ==> n in v.namespaces && v.namespaces[n] == peer
    ensures Replay(v, ReleaseEvents(released, peer)) == Some(v.(namespaces := v.namespaces - released))
    decreases |released|
  {
    hide IsMin;
    if released == {} {
      assert v.namespaces - released == v.namespaces;
    } else {
      var n := Min(released);
      var next := v.(namespaces := v.namespaces - {n});
      var e := NamespaceOwnerChanged(n, Some(peer), None);
      assert Hear(v, e) == Some(next);
      ReleasesReplay(next, released - {n}, peer);
      assert v.namespaces - {n} - (released - {n}) == v.namespaces - released;
      assert ReleaseEvents(released, peer) == [e] + ReleaseEvents(released - {n}, peer);
      assert ([e] + ReleaseEvents(released - {n}, peer))[1..] == ReleaseEvents(released - {n}, peer);
    }
  }

  /** What a disconnect leaves of the peers and namespaces. */
  lemma DisconnectLeaves(s: State, peer: PeerId)
    requires s.nextPeer >= 1 && peer in s.peers
    ensures var t := Disconnect(s, peer).state; var left := s.namespaces - OwnedNamespaces(s, peer);
      && t.events == s.events + (ReleaseEvents(OwnedNamespaces(s, peer), peer) + [PeerDisconnected(peer)])
      && t.nextPeer == s.nextPeer && t.namespaces == left
      && t.peers.Keys == s.peers.Keys - {peer} && peer !in left.Values
  {
    hide ReleaseEvents, Reports, Affected, WithoutSubscriber;
    var t := Disconnect(s, peer).state;
    assert t.namespaces == s.namespaces - OwnedNamespaces(s, peer);
  }

  lemma DisconnectReplays(s: State, peer: PeerId)
    requires s.nextPeer >= 1 && peer in s.peers
    ensures var t := Disconnect(s, peer).state;
      Replay(Actual(s), ReleaseEvents(OwnedNamespaces(s, peer), peer) + [PeerDisconnected(peer)]) == Some(Actual(t))
  {
    hide ReleaseEvents, Replay, Disconnect, OwnedNamespaces;
    DisconnectLeaves(s, peer);
    var owned := OwnedNamespaces(s, peer);
    ReplayConcat(Actual(s), ReleaseEvents(owned, peer), [PeerDisconnected(peer)]);
    OwnedAreOwned(s, peer);
    ReleasesReplay(Actual(s), owned, peer);
    ReplayOne(Actual(s).(namespaces := s.namespaces - owned), PeerDisconnected(peer));
  }

  lemma OwnedAreOwned(s: State, peer: PeerId)
    ensures forall n :: n in OwnedNamespaces(s, peer) ==> n in s.namespaces && s.namespaces[n] == peer
  {
  }

  lemma ReplayOne(v: Observed, e: LifecycleEvent)
    ensures Replay(v, [e]) == Hear(v, e)
  {
  }

  /** The events added between two states turn what was true before into what is true after. */
  predicate Told(s: State, t: State)
  {
    && s.nextPeer >= 1 && t.nextPeer >= 1
    && t.events == s.events + NewEvents(s, t)
    && Replay(Actual(s), NewEvents(s, t)) == Some(Actual(t))
  }

  lemma ToldByOne(s: State, t: State, e: LifecycleEvent)
    requires s.nextPeer >= 1 && t.nextPeer >= 1 && t.events == s.events + [e]
    requires Hear(Actual(s), e) == Some(Actual(t))
    ensures Told(s, t)
  {
    hide Hear, Replay;
    assert NewEvents(s, t) == [e];
    ReplayOne(Actual(s), e);
  }

  lemma ToldNothing(s: State, t: State)
    requires s.nextPeer >= 1 && t.nextPeer == s.nextPeer && t.peers.Keys == s.peers.Keys
    requires t.namespaces == s.namespaces && t.events == s.events
    ensures Told(s, t)
  {
    assert NewEvents(s, t) == [];
  }

  lemma ConnectTells(c: Config, s: State, credentials: Credentials, hello: ClientHello)
    requires s.nextPeer >= 1
    ensures Told(s, ConnectSession(c, s, credentials, hello).state)
  {
    hide CheckHeaders, Told;
    var t := ConnectSession(c, s, credentials, hello).state;
    if t == s {
      ToldNothing(s, t);
    } else {
      assert t.peers.Keys == s.peers.Keys + {s.nextPeer};
      ToldByOne(s, t, PeerConnected(s.nextPeer));
    }
  }

  lemma ClaimTells(c: Config, s: State, peer: PeerId, n: Namespace)
    requires s.nextPeer >= 1
    ensures Told(s, ClaimStep(c, s, peer, n).state)
  {
    hide OwnedNamespaces, Told;
    var t := ClaimStep(c, s, peer, n).state;
    if t == s {
      ToldNothing(s, t);
    } else {
      ToldByOne(s, t, NamespaceOwnerChanged(n, None, Some(peer)));
    }
  }

  lemma DisconnectTells(s: State, peer: PeerId)
    requires s.nextPeer >= 1
    ensures Told(s, Disconnect(s, peer).state)
  {
    hide RemovePeer, Replay;
    var t := Disconnect(s, peer).state;
    if peer in s.peers {
      DisconnectLeaves(s, peer);
      DisconnectReplays(s, peer);
      assert NewEvents(s, t) == ReleaseEvents(OwnedNamespaces(s, peer), peer) + [PeerDisconnected(peer)];
    } else {
      ToldNothing(s, t);
    }
  }

  lemma CallTells(c: Config, s: State, call: Call)
    requires s.nextPeer >= 1 && !call.CallDrain?
    ensures Told(s, Apply(c, s, call).state)
  {
    hide Told, ConnectSession, ClaimStep, BeginDelivery, AcknowledgeStep, TickStep, Disconnect, Authorize, ValidDbusName,
         SubscribersOf, SubscribedChannels;
    var t := Apply(c, s, call).state;
    match call
    case CallConnect(credentials, hello) => ConnectTells(c, s, credentials, hello);
    case CallClaim(peer, n) => ClaimTells(c, s, peer, n);
    case CallDisconnect(peer) => DisconnectTells(s, peer);
    case CallBegin(p, frame, now) => BeginTouchesDeliveries(c, s, p, frame, now); ToldNothing(s, t);
    case CallAcknowledge(p, id, policy) => AcknowledgeTouchesDeliveries(c, s, p, id, policy); ToldNothing(s, t);
    case CallTick(now) => TickTouchesDeliveries(s, now); ToldNothing(s, t);
    case _ => ToldNothing(s, t);
  }

  lemma ReplayNothing(v: Observed)
    ensures Replay(v, []) == Some(v)
  {
  }

  /** Every event of a run in order: those drained so far, then those still held. */
  function AllEvents(c: Config, calls: seq<Call>): seq<LifecycleEvent>
  {
    Drained(c, calls) + Run(c, calls).events
  }

  function Drained(c: Config, calls: seq<Call>): seq<LifecycleEvent>
    decreases |calls|
  {
    if calls == [] then []
    else
      var before := calls[..|calls| - 1];
      Drained(c, before) + if calls[|calls| - 1].CallDrain? then Run(c, before).events else []
  }

  /**
   Replaying every event ever emitted from nothing gives the connected peers and
   the namespace owners. As each connection must announce a larger id than all
   before it, no peer id is issued twice.
   */
  lemma {:induction false} RunReplays(c: Config, calls: seq<Call>)
    ensures Run(c, calls).nextPeer >= 1
    ensures Replay(Observed({}, map[], 0), AllEvents(c, calls)) == Some(Actual(Run(c, calls)))
    decreases |calls|
  {
    hide Apply, Replay;
    if calls == [] {
      assert AllEvents(c, calls) == [] && Initial().peers.Keys == {};
      ReplayNothing(Observed({}, map[], 0));
    } else {
      var before, call := calls[..|calls| - 1], calls[|calls| - 1];
      var s := Run(c, before);
      RunReplays(c, before);
      if call.CallDrain? {
        DrainOnlyDrains(c, s);
        assert AllEvents(c, calls) == AllEvents(c, before);
      } else {
        CallTells(c, s, call);
        var added := NewEvents(s, Run(c, calls));
        assert AllEvents(c, calls) == AllEvents(c, before) + added;
        ReplayConcat(Observed({}, map[], 0), AllEvents(c, before), added);
      }
    }
  }

  lemma DrainOnlyDrains(c: Config, s: State)
    ensures Apply(c, s, CallDrain).state == s.(events := [])
  {
  }
}
