/**
 Reconnection: a new session in which the record is replayed call by call, with
 any calls of others in between.
 */
module Restoring {
  import opened Results
  import opened Protocol
  import opened BrokerState
  import opened BrokerSteps
  import opened BrokerInvariants
  import opened Reconnecting

  /** The calls of others that come before each replayed call. */
  type Interference = nat -> seq<Call>

  /** No calls of others. */
  function Quietly(): Interference { _ => [] }

  function Among(c: Config, s: State, calls: seq<Call>): State
    decreases |calls|
  {
    if calls == [] then s else Apply(c, Among(c, s, calls[..|calls| - 1]), calls[|calls| - 1]).state
  }

  /** Claims in order until one is refused; `others(i)` comes before claim `i`. */
  function ReplayClaims(c: Config, s: State, peer: PeerId, claims: seq<NamespaceClaim>, others: Interference)
    : (State, Result<(), ClientError>)
  {
    if claims == [] then (s, Ok(()))
    else
      var n := |claims| - 1;
      var (s1, r) := ReplayClaims(c, s, peer, claims[..n], others);
      if r.Err? then (s1, r) else ClaimCallStep(c, Among(c, s1, others(n)), peer, claims[n])
  }

  /** Subscriptions in order until one is refused; `others(from + i)` comes before subscription `i`. */
  function ReplaySubscriptions(c: Config, s: State, peer: PeerId, subs: seq<Subscription>, from: nat, others: Interference)
    : (State, Result<(), ClientError>)
  {
    if subs == [] then (s, Ok(()))
    else
      var n := |subs| - 1;
      var (s1, r) := ReplaySubscriptions(c, s, peer, subs[..n], from, others);
      if r.Err? then (s1, r) else SubscribeCallStep(c, Among(c, s1, others(from + n)), peer, subs[n])
  }

  /** A new session with everything on record; the client keeps its old one unless all of it succeeds. */
  function DoReconnect(c: Config, who: Identity, w: World, others: Interference): (World, Result<PeerId, ClientError>)
  {
    var connected := ConnectSession(c, w.broker, who.credentials, who.hello);
    if connected.result.Err? then (World(connected.state, w.client), Err(Refused(connected.result.error)))
    else
      var id := connected.result.value;
      var (s1, r1) := ReplayClaims(c, connected.state, id, w.client.claims, others);
      if r1.Err? then (World(s1, w.client), Err(r1.error))
      else
        var (s2, r2) := ReplaySubscriptions(c, s1, id, w.client.subscriptions, |w.client.claims|, others);
        if r2.Err? then (World(s2, w.client), Err(r2.error))
        else (World(s2, w.client.(peer := id)), Ok(id))
  }

  // ---------- Others in between ----------

  /** None of the others' calls is a control call of this peer; its session may end. */
  ghost predicate AllForeign(others: Interference, peer: PeerId)
  {
    forall i: nat, call :: call in others(i) ==> Foreign(call, peer)
  }

  lemma {:induction false} AmongOthers(c: Config, s: State, calls: seq<Call>, peer: PeerId)
    requires peer < s.nextPeer && forall call :: call in calls ==> Foreign(call, peer)
    ensures Undisturbed(s, Among(c, s, calls), peer)
    decreases |calls|
  {
    hide HeldFor, Apply, Foreign;
    if calls != [] {
      var fewer, last := calls[..|calls| - 1], calls[|calls| - 1];
      AmongOthers(c, s, fewer, peer);
      OthersKeepHoldings(c, Among(c, s, fewer), last, peer);
    }
  }

  lemma {:induction false} AmongKeeps(c: Config, s: State, calls: seq<Call>)
    requires Inv(c, s)
    ensures Inv(c, Among(c, s, calls))
    decreases |calls|
  {
    hide Inv, Apply;
    if calls != [] {
      var fewer, last := calls[..|calls| - 1], calls[|calls| - 1];
      AmongKeeps(c, s, fewer);
      ApplyKeeps(c, Among(c, s, fewer), last);
    }
  }

  // ---------- The session that is being restored ----------

  /** The state in which claim `i` is replayed. */
  function ClaimTurn(c: Config, s: State, peer: PeerId, claims: seq<NamespaceClaim>, others: Interference, i: nat): State
    requires i < |claims|
  {
    Among(c, ReplayClaims(c, s, peer, claims[..i], others).0, others(i))
  }

  /** When its turn comes the session is there and the namespace is free. */
  predicate Claimable(t: State, peer: PeerId, claim: NamespaceClaim)
  {
    peer in t.peers && claim.namespace !in t.namespaces
  }

  ghost predicate EachClaimable(c: Config, s: State, peer: PeerId, claims: seq<NamespaceClaim>, others: Interference)
  {
    forall i :: 0 <= i < |claims| ==> Claimable(ClaimTurn(c, s, peer, claims, others, i), peer, claims[i])
  }

  function SubscribeTurn(c: Config, s: State, peer: PeerId, subs: seq<Subscription>, from: nat, others: Interference, i: nat)
    : State
    requires i < |subs|
  {
    Among(c, ReplaySubscriptions(c, s, peer, subs[..i], from, others).0, others(from + i))
  }

  ghost predicate StaysConnected(c: Config, s: State, peer: PeerId, subs: seq<Subscription>, from: nat, others: Interference)
  {
    forall i :: 0 <= i < |subs| ==> peer in SubscribeTurn(c, s, peer, subs, from, others, i).peers
  }

  /** The session is that of `who` and holds exactly this. */
  ghost predicate Holding(who: Identity, s: State, peer: PeerId, held: Holdings)
  {
    peer < s.nextPeer && ConnectedAs(who, s, peer) && HeldFor(s, peer) == held
  }

  lemma HoldingAmong(c: Config, who: Identity, s: State, peer: PeerId, held: Holdings, others: Interference, i: nat)
    requires Holding(who, s, peer, held) && AllForeign(others, peer)
    ensures var t := Among(c, s, others(i)); s.nextPeer <= t.nextPeer && (peer in t.peers ==> Holding(who, t, peer, held))
  {
    hide HeldFor, Among, Foreign;
    AmongOthers(c, s, others(i), peer);
  }

  lemma ClaimAtTurn(c: Config, who: Identity, t: State, peer: PeerId, held: Holdings, claim: NamespaceClaim)
    requires peer in t.peers ==> Holding(who, t, peer, held)
    requires claim.headers == map[] && MayClaim(c, who, claim.namespace)
    requires |held.namespaces| < c.limits.maximumNamespaceClaims
    ensures var (s1, r) := ClaimCallStep(c, t, peer, claim);
      && (r.Ok? <==> Claimable(t, peer, claim))
      && (r.Ok? ==> Holding(who, s1, peer, held.(namespaces := held.namespaces + {claim.namespace})))
  {
    hide HeldFor, MayClaim, ClaimStep;
    StrangersClaimNothing(c, t, peer, claim.namespace);
    if peer in t.peers {
      hide ClaimCallStep;
      ClaimHolds(c, who, t, peer, claim);
    }
  }

  /** Claims that were granted once are granted again exactly when each is free at its turn and the session still there. */
  lemma {:induction false} ReplayClaimsHolds(c: Config, who: Identity, s: State, peer: PeerId, claims: seq<NamespaceClaim>,
                                             others: Interference, filters: map<Channel, seq<HeaderFilter>>)
    requires Holding(who, s, peer, Holdings({}, filters)) && ClaimsOk(c, who, claims) && AllForeign(others, peer)
    ensures var (s1, r) := ReplayClaims(c, s, peer, claims, others);
      && (r.Ok? <==> EachClaimable(c, s, peer, claims, others))
      && (r.Ok? ==> Holding(who, s1, peer, Holdings(Names(claims), filters)))
    decreases |claims|
  {
    hide ClaimCallStep, MayClaim, ClaimsOk, Names, Holding, AllForeign, Among, EachClaimable, Claimable;
    if claims == [] {
      NoNames();
      NoTurns(c, s, peer, others);
    } else {
      var n := |claims| - 1;
      var fewer, last := claims[..n], claims[n];
      ClaimsSplit(c, who, claims);
      ReplayClaimsHolds(c, who, s, peer, fewer, others, filters);
      TurnsSplit(c, s, peer, claims, others);
      var (s1, r) := ReplayClaims(c, s, peer, fewer, others);
      if r.Ok? {
        HoldingAmong(c, who, s1, peer, Holdings(Names(fewer), filters), others, n);
        ClaimAtTurn(c, who, Among(c, s1, others(n)), peer, Holdings(Names(fewer), filters), last);
      }
    }
  }

  lemma NoTurns(c: Config, s: State, peer: PeerId, others: Interference)
    ensures EachClaimable(c, s, peer, [], others)
  {
  }

  lemma TurnsSplit(c: Config, s: State, peer: PeerId, claims: seq<NamespaceClaim>, others: Interference)
    requires claims != []
    ensures var n := |claims| - 1;
      EachClaimable(c, s, peer, claims, others)
      <==> EachClaimable(c, s, peer, claims[..n], others)
           && Claimable(Among(c, ReplayClaims(c, s, peer, claims[..n], others).0, others(n)), peer, claims[n])
  {
    hide ReplayClaims, Among, Claimable;
    var n := |claims| - 1;
    var fewer := claims[..n];
    forall i | 0 <= i < n
      ensures ClaimTurn(c, s, peer, fewer, others, i) == ClaimTurn(c, s, peer, claims, others, i)
    {
      assert fewer[..i] == claims[..i];
    }
    assert ClaimTurn(c, s, peer, claims, others, n) == Among(c, ReplayClaims(c, s, peer, fewer, others).0, others(n));
    assert EachClaimable(c, s, peer, claims, others) ==> forall i :: 0 <= i < n ==> fewer[i] == claims[i];
  }

  lemma NoNames()
    ensures Names([]) == {}
  {
  }

  lemma ClaimsSplit(c: Config, who: Identity, claims: seq<NamespaceClaim>)
    requires ClaimsOk(c, who, claims) && claims != []
    ensures var fewer, last := claims[..|claims| - 1], claims[|claims| - 1];
      && ClaimsOk(c, who, fewer) && last.headers == map[] && MayClaim(c, who, last.namespace)
      && Names(claims) == Names(fewer) + {last.namespace} && last.namespace !in Names(fewer)
      && |Names(fewer)| < c.limits.maximumNamespaceClaims
  {
    hide MayClaim;
    NamesAtMost(claims[..|claims| - 1]);
  }

  lemma SubscribeAtTurn(c: Config, who: Identity, t: State, peer: PeerId, held: Holdings, sub: Subscription)
    requires peer in t.peers ==> Holding(who, t, peer, held)
    requires MaySubscribe(c, who, sub.channel)
    requires sub.channel in held.filters || |held.filters| < c.limits.maximumSubscriptions
    ensures var (s1, r) := SubscribeCallStep(c, t, peer, sub);
      && (r.Ok? <==> peer in t.peers)
      && (r.Ok? ==> Holding(who, s1, peer, held.(filters := held.filters[sub.channel := sub.filters])))
  {
    hide HeldFor, MaySubscribe, SubscribeStep;
    StrangersSubscribeToNothing(c, t, peer, sub);
    if peer in t.peers {
      hide SubscribeCallStep;
      SubscribeHolds(c, who, t, peer, sub);
    }
  }

  /** Subscriptions that were granted once are granted again exactly while the session is still there. */
  lemma {:induction false} ReplaySubscriptionsHolds(c: Config, who: Identity, s: State, peer: PeerId, subs: seq<Subscription>,
                                                    from: nat, others: Interference, names: set<Namespace>)
    requires Holding(who, s, peer, Holdings(names, map[])) && SubscribedOk(c, who, subs) && AllForeign(others, peer)
    ensures var (s1, r) := ReplaySubscriptions(c, s, peer, subs, from, others);
      && (r.Ok? <==> StaysConnected(c, s, peer, subs, from, others))
      && (r.Ok? ==> Holding(who, s1, peer, Holdings(names, LastFilters(subs))))
    decreases |subs|
  {
    hide SubscribeCallStep, MaySubscribe, SubscribedOk, LastFilters, Holding, AllForeign, Among, StaysConnected;
    if subs == [] {
      NoFilters();
      NoSubscribeTurns(c, s, peer, from, others);
    } else {
      var n := |subs| - 1;
      var fewer, last := subs[..n], subs[n];
      SubscribedSplit(c, who, subs);
      ReplaySubscriptionsHolds(c, who, s, peer, fewer, from, others, names);
      SubscribeTurnsSplit(c, s, peer, subs, from, others);
      var (s1, r) := ReplaySubscriptions(c, s, peer, fewer, from, others);
      if r.Ok? {
        HoldingAmong(c, who, s1, peer, Holdings(names, LastFilters(fewer)), others, from + n);
        SubscribeAtTurn(c, who, Among(c, s1, others(from + n)), peer, Holdings(names, LastFilters(fewer)), last);
      }
    }
  }

  lemma NoFilters()
    ensures LastFilters([]) == map[]
  {
  }

  lemma NoSubscribeTurns(c: Config, s: State, peer: PeerId, from: nat, others: Interference)
    ensures StaysConnected(c, s, peer, [], from, others)
  {
  }

  lemma SubscribeTurnsSplit(c: Config, s: State, peer: PeerId, subs: seq<Subscription>, from: nat, others: Interference)
    requires subs != []
    ensures var n := |subs| - 1;
      StaysConnected(c, s, peer, subs, from, others)
      <==> StaysConnected(c, s, peer, subs[..n], from, others)
           && peer in Among(c, ReplaySubscriptions(c, s, peer, subs[..n], from, others).0, others(from + n)).peers
  {
    hide ReplaySubscriptions, Among;
    var n := |subs| - 1;
    var fewer := subs[..n];
    forall i | 0 <= i < n
      ensures SubscribeTurn(c, s, peer, fewer, from, others, i) == SubscribeTurn(c, s, peer, subs, from, others, i)
    {
      assert fewer[..i] == subs[..i];
    }
    assert SubscribeTurn(c, s, peer, subs, from, others, n)
        == Among(c, ReplaySubscriptions(c, s, peer, fewer, from, others).0, others(from + n));
  }

  lemma SubscribedSplit(c: Config, who: Identity, subs: seq<Subscription>)
    requires SubscribedOk(c, who, subs) && subs != []
    ensures var fewer, last := subs[..|subs| - 1], subs[|subs| - 1];
      && SubscribedOk(c, who, fewer) && MaySubscribe(c, who, last.channel)
      && LastFilters(subs) == LastFilters(fewer)[last.channel := last.filters]
      && (last.channel in LastFilters(fewer) || |LastFilters(fewer)| < c.limits.maximumSubscriptions)
  {
    hide MaySubscribe;
    var fewer, last := subs[..|subs| - 1], subs[|subs| - 1];
    assert LastFilters(subs).Keys == LastFilters(fewer).Keys + {last.channel};
  }

  // ---------- Reconnecting ----------

  /** A peer that is not connected holds nothing. */
  lemma StrangersHoldNothing(c: Config, s: State, peer: PeerId)
    requires Registered(c, s) && peer !in s.peers
    ensures HeldFor(s, peer) == Holdings({}, map[])
  {
    hide PeersOk, DbusNamesOk;
    assert OwnedNamespaces(s, peer) == {};
    assert FiltersHeld(s.subscriptions, peer) == map[] by {
      forall ch | ch in s.subscriptions ensures peer !in s.subscriptions[ch] {
        assert SubscribersOk(c, s.peers, ch, s.subscriptions[ch]);
      }
    }
  }

  /** A session as `who` starts while identities last, under a new identity and with nothing held. */
  lemma ConnectHolds(c: Config, who: Identity, s: State)
    requires Inv(c, s) && ReservedNames(who.hello.headers) == {}
    requires c.permits(who.credentials, who.hello.clientId, who.hello.headers, Connect)
    ensures var step := ConnectSession(c, s, who.credentials, who.hello);
      && (step.result.Ok? <==> s.nextPeer < U64_MAX)
      && (step.result.Ok? ==>
            && step.result.value == s.nextPeer && s.nextPeer !in s.peers && step.state.namespaces == s.namespaces
            && Holding(who, step.state, s.nextPeer, Holdings({}, map[])))
  {
    hide ReservedNames, HeldFor, NamespacesOk, DbusNamesOk, SubscriptionsOk, PendingsOk;
    var s1 := ConnectSession(c, s, who.credentials, who.hello).state;
    StrangersHoldNothing(c, s, s.nextPeer);
    SameHoldings(s, s1, s.nextPeer);
  }

  /** An identity is left, and at its turn every claim is free and the new session still there. */
  ghost predicate Restorable(c: Config, who: Identity, w: World, others: Interference)
  {
    && w.broker.nextPeer < U64_MAX
    && var s, id, k := ConnectSession(c, w.broker, who.credentials, who.hello).state, w.broker.nextPeer, w.client;
    && EachClaimable(c, s, id, k.claims, others)
    && StaysConnected(c, ReplayClaims(c, s, id, k.claims, others).0, id, k.subscriptions, |k.claims|, others)
  }

  /**
   Whatever broker the client comes back to and whatever others do in between:
   reconnecting succeeds exactly when an identity is left, every namespace on
   record is free at its turn and nobody ends the new session, and then the
   broker holds for the new session exactly what is on record.
   */
  lemma ReconnectRestores(c: Config, who: Identity, w: World, others: Interference)
    requires Inv(c, w.broker) && RecordOk(c, who, w.client) && AllForeign(others, w.broker.nextPeer)
    ensures var (w1, r) := DoReconnect(c, who, w, others);
      && (r.Ok? <==> Restorable(c, who, w, others))
      && (r.Err? ==> w1.client == w.client)
      && (r.Ok? ==>
            && r.value == w.broker.nextPeer && r.value !in w.broker.peers
            && w1.client == w.client.(peer := r.value)
            && Holding(who, w1.broker, r.value, OnRecord(w.client)))
  {
    hide Inv, ClaimsOk, SubscribedOk, ReservedNames, Holding, ConnectSession, Names, LastFilters, ReplayClaims,
         ReplaySubscriptions, AllForeign, EachClaimable, StaysConnected;
    var s, k := w.broker, w.client;
    ConnectHolds(c, who, s);
    var connected := ConnectSession(c, s, who.credentials, who.hello);
    if connected.result.Ok? {
      var id := connected.result.value;
      ReplayClaimsHolds(c, who, connected.state, id, k.claims, others, map[]);
      var (s1, r1) := ReplayClaims(c, connected.state, id, k.claims, others);
      if r1.Ok? {
        ReplaySubscriptionsHolds(c, who, s1, id, k.subscriptions, |k.claims|, others, Names(k.claims));
        var (s2, r2) := ReplaySubscriptions(c, s1, id, k.subscriptions, |k.claims|, others);
        assert DoReconnect(c, who, w, others).1.Ok? <==> r2.Ok?;
        assert Restorable(c, who, w, others) <==> StaysConnected(c, s1, id, k.subscriptions, |k.claims|, others);
      }
    }
  }

  // ---------- Nobody in between ----------

  predicate Free(s: State, names: set<Namespace>)
  {
    forall n :: n in names ==> n !in s.namespaces
  }

  lemma {:induction false} QuietClaims(c: Config, who: Identity, s: State, peer: PeerId, claims: seq<NamespaceClaim>)
    requires Holding(who, s, peer, Holdings({}, map[])) && ClaimsOk(c, who, claims)
    ensures var (s1, r) := ReplayClaims(c, s, peer, claims, Quietly());
      && (r.Ok? <==> Free(s, Names(claims)))
      && (r.Ok? ==> s1.peers == s.peers && s1.namespaces.Keys == s.namespaces.Keys + Names(claims))
    decreases |claims|
  {
    hide ClaimCallStep, MayClaim, ClaimsOk, Names, HeldFor;
    if claims == [] {
      NoNames();
    } else {
      var n := |claims| - 1;
      var fewer, last := claims[..n], claims[n];
      ClaimsSplit(c, who, claims);
      QuietClaims(c, who, s, peer, fewer);
      ReplayClaimsHolds(c, who, s, peer, fewer, Quietly(), map[]);
      var (s1, r) := ReplayClaims(c, s, peer, fewer, Quietly());
      if r.Ok? {
        assert Among(c, s1, Quietly()(n)) == s1;
        ClaimHolds(c, who, s1, peer, last);
        KeysOneMore(s.namespaces, s1.namespaces, Names(fewer), last.namespace, peer);
      }
    }
  }

  lemma KeysOneMore(a: map<Namespace, PeerId>, b: map<Namespace, PeerId>, names: set<Namespace>, n: Namespace, p: PeerId)
    requires b.Keys == a.Keys + names && n !in names
    ensures b[n := p].Keys == a.Keys + (names + {n})
    ensures n in b <==> n in a
  {
  }

  lemma {:induction false} QuietSubscriptions(c: Config, s: State, peer: PeerId, subs: seq<Subscription>, from: nat)
    ensures ReplaySubscriptions(c, s, peer, subs, from, Quietly()).0.peers == s.peers
    decreases |subs|
  {
    hide Authorize, SubscribedChannels, SubscribersOf;
    if subs != [] {
      QuietSubscriptions(c, s, peer, subs[..|subs| - 1], from);
    }
  }

  /** With nobody in between, reconnecting succeeds exactly when an identity is left and all namespaces on record are free. */
  lemma QuietReconnectNeedsFreeNames(c: Config, who: Identity, w: World)
    requires Inv(c, w.broker) && RecordOk(c, who, w.client)
    ensures Restorable(c, who, w, Quietly()) <==> w.broker.nextPeer < U64_MAX && Free(w.broker, Names(w.client.claims))
  {
    hide Inv, ClaimsOk, SubscribedOk, ReservedNames, HeldFor, ConnectSession, Names, ReplayClaims, EachClaimable,
         ReplaySubscriptions;
    var s, k := w.broker, w.client;
    ConnectHolds(c, who, s);
    var connected := ConnectSession(c, s, who.credentials, who.hello);
    if connected.result.Ok? {
      var id := connected.result.value;
      QuietClaims(c, who, connected.state, id, k.claims);
      ReplayClaimsHolds(c, who, connected.state, id, k.claims, Quietly(), map[]);
      var s1 := ReplayClaims(c, connected.state, id, k.claims, Quietly()).0;
      forall i | 0 <= i < |k.subscriptions| {
        QuietSubscriptions(c, s1, id, k.subscriptions[..i], |k.claims|);
      }
    }
  }

  /** A client with claims cannot reconnect while its old session is still registered when the first is replayed. */
  lemma OldSessionIsInTheWay(c: Config, who: Identity, w: World, others: Interference)
    requires WorldOk(c, who, w) && w.client.claims != []
    requires AllForeign(others, w.broker.nextPeer) && AllForeign(others, w.client.peer)
    requires w.client.peer
          in Among(c, ConnectSession(c, w.broker, who.credentials, who.hello).state, others(0)).peers
    ensures DoReconnect(c, who, w, others).1.Err?
  {
    hide Inv, ReservedNames, SubscribedOk, DoReconnect, ConnectSession, Among, FiltersHeld, LastFilters, Foreign,
         StaysConnected;
    var k, s := w.client, ConnectSession(c, w.broker, who.credentials, who.hello).state;
    JoiningOthers(c, w.broker, who.credentials, who.hello, k.peer);
    AmongOthers(c, s, others(0), k.peer);
    var t := Among(c, s, others(0));
    assert k.claims[0].namespace in Names(k.claims) by { FirstName(k.claims); }
    assert k.claims[0].namespace in OwnedNamespaces(t, k.peer);
    assert k.claims[..0] == [];
    assert ClaimTurn(c, s, w.broker.nextPeer, k.claims, others, 0) == t;
    assert !Claimable(t, w.broker.nextPeer, k.claims[0]);
    ReconnectRestores(c, who, w, others);
  }

  lemma {:induction false} FirstName(claims: seq<NamespaceClaim>)
    requires claims != []
    ensures claims[0].namespace in Names(claims)
  {
    if |claims| > 1 {
      FirstName(claims[..|claims| - 1]);
    }
  }

  // ---------- Reconnecting leaves the others alone ----------

  lemma AmongAside(c: Config, s: State, others: Interference, i: nat, peer: PeerId)
    requires AllForeign(others, peer) && peer < s.nextPeer && Inv(c, s)
    ensures Undisturbed(s, Among(c, s, others(i)), peer) && Inv(c, Among(c, s, others(i)))
  {
    hide Inv, Among, Foreign, Undisturbed;
    AmongOthers(c, s, others(i), peer);
    AmongKeeps(c, s, others(i));
  }

  lemma ClaimAside(c: Config, s: State, id: PeerId, claim: NamespaceClaim, peer: PeerId)
    requires id != peer && Inv(c, s)
    ensures var s1 := ClaimCallStep(c, s, id, claim).0; Undisturbed(s, s1, peer) && Inv(c, s1)
  {
    hide HeldFor, Inv, ClaimStep, Disconnect;
    ClaimsOfOthers(c, s, id, claim.namespace, peer);
    ClaimKeeps(c, s, id, claim.namespace);
    LeavingOthers(s, id, peer);
    DisconnectKeeps(c, s, id);
  }

  lemma {:induction false} ReplayClaimsAside(c: Config, s: State, id: PeerId, claims: seq<NamespaceClaim>,
                                             others: Interference, peer: PeerId)
    requires id != peer && peer < s.nextPeer && Inv(c, s) && AllForeign(others, peer)
    ensures var s1 := ReplayClaims(c, s, id, claims, others).0; Undisturbed(s, s1, peer) && Inv(c, s1)
    decreases |claims|
  {
    hide HeldFor, Inv, ClaimCallStep, Among, AllForeign;
    if claims != [] {
      var n := |claims| - 1;
      ReplayClaimsAside(c, s, id, claims[..n], others, peer);
      var s1 := ReplayClaims(c, s, id, claims[..n], others).0;
      AmongAside(c, s1, others, n, peer);
      ClaimAside(c, Among(c, s1, others(n)), id, claims[n], peer);
    }
  }

  lemma SubscribeAside(c: Config, s: State, id: PeerId, sub: Subscription, peer: PeerId)
    requires id != peer && Inv(c, s)
    ensures var s1 := SubscribeCallStep(c, s, id, sub).0; Undisturbed(s, s1, peer) && Inv(c, s1)
  {
    hide HeldFor, Inv, SubscribeStep;
    SubscriptionsOfOthers(c, s, id, sub.channel, sub.filters, peer);
    SubscribeKeeps(c, s, id, sub.channel, sub.filters);
  }

  lemma {:induction false} ReplaySubscriptionsAside(c: Config, s: State, id: PeerId, subs: seq<Subscription>, from: nat,
                                                    others: Interference, peer: PeerId)
    requires id != peer && peer < s.nextPeer && Inv(c, s) && AllForeign(others, peer)
    ensures var s1 := ReplaySubscriptions(c, s, id, subs, from, others).0; Undisturbed(s, s1, peer) && Inv(c, s1)
    decreases |subs|
  {
    hide HeldFor, Inv, SubscribeCallStep, Among, AllForeign;
    if subs != [] {
      var n := |subs| - 1;
      ReplaySubscriptionsAside(c, s, id, subs[..n], from, others, peer);
      var s1 := ReplaySubscriptions(c, s, id, subs[..n], from, others).0;
      AmongAside(c, s1, others, from + n, peer);
      SubscribeAside(c, Among(c, s1, others(from + n)), id, subs[n], peer);
    }
  }

  /**
   Reconnecting, whether it succeeds or fails, changes nothing for any earlier
   peer but what that peer's own control calls do.
   */
  lemma ReconnectLeavesOthers(c: Config, who: Identity, w: World, others: Interference, peer: PeerId)
    requires Inv(c, w.broker) && RecordOk(c, who, w.client) && peer < w.broker.nextPeer && AllForeign(others, peer)
    ensures var s1 := DoReconnect(c, who, w, others).0.broker; Undisturbed(w.broker, s1, peer) && Inv(c, s1)
  {
    hide Inv, ClaimsOk, SubscribedOk, ReservedNames, HeldFor, ConnectSession, ReplayClaims, ReplaySubscriptions,
         AllForeign;
    var s, k := w.broker, w.client;
    ConnectHolds(c, who, s);
    ConnectKeeps(c, s, who.credentials, who.hello);
    JoiningOthers(c, s, who.credentials, who.hello, peer);
    var connected := ConnectSession(c, s, who.credentials, who.hello);
    if connected.result.Ok? {
      var id := connected.result.value;
      ReplayClaimsAside(c, connected.state, id, k.claims, others, peer);
      var s1 := ReplayClaims(c, connected.state, id, k.claims, others).0;
      ReplaySubscriptionsAside(c, s1, id, k.subscriptions, |k.claims|, others, peer);
    }
  }

  // ---------- Every run of a client among others ----------

  datatype ClientStep =
    | Claims(claim: NamespaceClaim)
    | Subscribes(sub: Subscription)
    | Unsubscribes(channel: Channel)
    | Reconnects(others: Interference)
    | Others(call: Call)

  /** Anything but the client's own control calls may come in between, the end of its sessions included. */
  ghost predicate Possible(w: World, step: ClientStep)
  {
    match step
    case Others(call) => Foreign(call, w.client.peer)
    case Reconnects(others) => AllForeign(others, w.client.peer) && AllForeign(others, w.broker.nextPeer)
    case _ => true
  }

  function Advance(c: Config, who: Identity, w: World, step: ClientStep): World
  {
    match step
    case Claims(claim) => DoClaim(c, w, claim).0
    case Subscribes(sub) => DoSubscribe(c, w, sub).0
    case Unsubscribes(channel) => DoUnsubscribe(w, channel).0
    case Reconnects(others) => DoReconnect(c, who, w, others).0
    case Others(call) => w.(broker := Apply(c, w.broker, call).state)
  }

  lemma AdvanceKeepsWorld(c: Config, who: Identity, w: World, step: ClientStep)
    requires WorldOk(c, who, w) && Possible(w, step)
    ensures WorldOk(c, who, Advance(c, who, w, step))
  {
    hide WorldOk, DoClaim, DoSubscribe, DoUnsubscribe, DoReconnect, Apply, AllForeign;
    match step
    case Claims(claim) => ClaimKeepsWorld(c, who, w, claim);
    case Subscribes(sub) => SubscribeKeepsWorld(c, who, w, sub);
    case Unsubscribes(channel) => UnsubscribeKeepsWorld(c, who, w, channel);
    case Reconnects(others) => ReconnectKeepsWorld(c, who, w, others);
    case Others(call) => OthersKeepWorld(c, who, w, call);
  }

  lemma ReconnectKeepsWorld(c: Config, who: Identity, w: World, others: Interference)
    requires WorldOk(c, who, w) && AllForeign(others, w.client.peer) && AllForeign(others, w.broker.nextPeer)
    ensures WorldOk(c, who, DoReconnect(c, who, w, others).0)
  {
    hide Inv, ClaimsOk, SubscribedOk, ReservedNames, HeldFor, DoReconnect, OnRecord, Restorable, AllForeign;
    ReconnectRestores(c, who, w, others);
    ReconnectLeavesOthers(c, who, w, others, w.client.peer);
    SameRecord(w.client, DoReconnect(c, who, w, others).0.client.peer);
  }

  lemma SameRecord(k: Client, peer: PeerId)
    ensures OnRecord(k.(peer := peer)) == OnRecord(k)
  {
  }

  lemma OthersKeepWorld(c: Config, who: Identity, w: World, call: Call)
    requires WorldOk(c, who, w) && Foreign(call, w.client.peer)
    ensures WorldOk(c, who, w.(broker := Apply(c, w.broker, call).state))
  {
    hide Inv, RecordOk, HeldFor, Apply, OnRecord;
    ApplyKeeps(c, w.broker, call);
    OthersKeepHoldings(c, w.broker, call, w.client.peer);
  }

  /** A client that connects to a broker with any history, then acts among any calls of others. */
  ghost predicate IsClientRun(c: Config, who: Identity, history: seq<Call>, steps: seq<ClientStep>, worlds: seq<World>)
  {
    && |worlds| == |steps| + 1
    && var connected := ConnectSession(c, Run(c, history), who.credentials, who.hello);
    && connected.result.Ok?
    && worlds[0] == World(connected.state, Client(connected.result.value, [], []))
    && forall i :: 0 <= i < |steps| ==> Possible(worlds[i], steps[i]) && worlds[i + 1] == Advance(c, who, worlds[i], steps[i])
  }

  /** In every such run the record describes what the broker holds for the session. */
  lemma {:induction false} RecordDescribesSession(c: Config, who: Identity, history: seq<Call>, steps: seq<ClientStep>,
                                                  worlds: seq<World>, i: nat)
    requires IsClientRun(c, who, history, steps, worlds) && i <= |steps|
    ensures WorldOk(c, who, worlds[i])
  {
    hide WorldOk, Advance, ConnectSession, Run, Possible;
    if i == 0 {
      RunKeeps(c, history);
      FirstWorld(c, who, Run(c, history));
    } else {
      RecordDescribesSession(c, who, history, steps, worlds, i - 1);
      AdvanceKeepsWorld(c, who, worlds[i - 1], steps[i - 1]);
    }
  }

  lemma FirstWorld(c: Config, who: Identity, s: State)
    requires Inv(c, s) && ConnectSession(c, s, who.credentials, who.hello).result.Ok?
    ensures var connected := ConnectSession(c, s, who.credentials, who.hello);
      WorldOk(c, who, World(connected.state, Client(connected.result.value, [], [])))
  {
    hide Inv, HeldFor;
    ConnectKeeps(c, s, who.credentials, who.hello);
    ConnectHolds(c, who, s);
  }

  /**
   Whatever a client did, whatever happened at the broker it returns to and
   whatever others do meanwhile, its record is what it gets back.
   */
  lemma EveryRecordIsRestored(c: Config, who: Identity, history: seq<Call>, steps: seq<ClientStep>, worlds: seq<World>,
                              i: nat, elsewhere: seq<Call>, others: Interference)
    requires IsClientRun(c, who, history, steps, worlds) && i <= |steps|
    requires AllForeign(others, Run(c, elsewhere).nextPeer)
    ensures var k := worlds[i].client; var w := World(Run(c, elsewhere), k); var (w1, r) := DoReconnect(c, who, w, others);
      && (r.Ok? <==> Restorable(c, who, w, others))
      && (r.Ok? ==> w1.client == k.(peer := r.value) && Holding(who, w1.broker, r.value, OnRecord(w1.client)))
  {
    hide Inv, RecordOk, Describes, Holding, Run, DoReconnect, OnRecord, Restorable, AllForeign, Possible, Advance, ConnectSession;
    var w := World(Run(c, elsewhere), worlds[i].client);
    RecordDescribesSession(c, who, history, steps, worlds, i);
    RunKeeps(c, elsewhere);
    ReconnectRestores(c, who, w, others);
    SameRecord(w.client, DoReconnect(c, who, w, others).0.client.peer);
  }
}
