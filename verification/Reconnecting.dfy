/**
 The client that records its claims and subscriptions and replays them in a new
 session. A control call is one step of the broker, answered by the broker.
 */
module Reconnecting {
  import opened Results
  import opened Protocol
  import opened BrokerState
  import opened BrokerSteps
  import opened BrokerInvariants
  import opened BrokerBudgets

  datatype NamespaceClaim = NamespaceClaim(namespace: Namespace, headers: Headers)
  datatype Subscription = Subscription(channel: Channel, filters: seq<HeaderFilter>)

  /** Who connects: what the broker learns of the process, and its options. */
  datatype Identity = Identity(credentials: Credentials, hello: ClientHello)

  datatype Client = Client(peer: PeerId, claims: seq<NamespaceClaim>, subscriptions: seq<Subscription>)

  datatype World = World(broker: State, client: Client)

  datatype ClientError = Refused(error: BrokerError) | SessionClosed

  /** What a broker holds for a peer, and what a client has on record. */
  datatype Holdings = Holdings(namespaces: set<Namespace>, filters: map<Channel, seq<HeaderFilter>>)

  function FiltersHeld(subscriptions: map<Channel, Subscribers>, peer: PeerId): map<Channel, seq<HeaderFilter>>
  {
    map ch | ch in subscriptions && peer in subscriptions[ch] :: subscriptions[ch][peer]
  }

  function HeldFor(s: State, peer: PeerId): Holdings
  {
    Holdings(OwnedNamespaces(s, peer), FiltersHeld(s.subscriptions, peer))
  }

  function Names(claims: seq<NamespaceClaim>): set<Namespace>
  {
    if claims == [] then {} else Names(claims[..|claims| - 1]) + {claims[|claims| - 1].namespace}
  }

  /** The last filters recorded for each channel. */
  function LastFilters(subscriptions: seq<Subscription>): map<Channel, seq<HeaderFilter>>
  {
    if subscriptions == [] then map[]
    else
      var last := subscriptions[|subscriptions| - 1];
      LastFilters(subscriptions[..|subscriptions| - 1])[last.channel := last.filters]
  }

  function OnRecord(k: Client): Holdings { Holdings(Names(k.claims), LastFilters(k.subscriptions)) }

  // ---------- Control calls ----------

  /** The daemon closes the session of a client that claims with headers. */
  function ClaimCallStep(c: Config, s: State, peer: PeerId, claim: NamespaceClaim): (State, Result<(), ClientError>)
  {
    if claim.headers != map[] then (Disconnect(s, peer).state, Err(SessionClosed))
    else
      var step := ClaimStep(c, s, peer, claim.namespace);
      (step.state, if step.result.Ok? then Ok(()) else Err(Refused(step.result.error)))
  }

  function DoClaim(c: Config, w: World, claim: NamespaceClaim): (World, Result<(), ClientError>)
  {
    var (s, r) := ClaimCallStep(c, w.broker, w.client.peer, claim);
    (World(s, if r.Ok? then w.client.(claims := w.client.claims + [claim]) else w.client), r)
  }

  function SubscribeCallStep(c: Config, s: State, peer: PeerId, sub: Subscription): (State, Result<(), ClientError>)
  {
    var step := SubscribeStep(c, s, peer, sub.channel, sub.filters);
    (step.state, if step.result.Ok? then Ok(()) else Err(Refused(step.result.error)))
  }

  function DoSubscribe(c: Config, w: World, sub: Subscription): (World, Result<(), ClientError>)
  {
    var (s, r) := SubscribeCallStep(c, w.broker, w.client.peer, sub);
    (World(s, if r.Ok? then w.client.(subscriptions := w.client.subscriptions + [sub]) else w.client), r)
  }

  /** The record without a channel. */
  function Without(subscriptions: seq<Subscription>, channel: Channel): seq<Subscription>
  {
    if subscriptions == [] then []
    else
      var last := subscriptions[|subscriptions| - 1];
      Without(subscriptions[..|subscriptions| - 1], channel) + if last.channel == channel then [] else [last]
  }

  function DoUnsubscribe(w: World, channel: Channel): (World, Result<(), ClientError>)
  {
    var step := UnsubscribeStep(w.broker, w.client.peer, channel);
    if step.result.Ok? then
      (World(step.state, w.client.(subscriptions := Without(w.client.subscriptions, channel))), Ok(()))
    else (World(step.state, w.client), Err(Refused(step.result.error)))
  }

  // ---------- What a control call does to what the broker holds ----------

  predicate MayClaim(c: Config, who: Identity, namespace: Namespace)
  {
    c.permits(who.credentials, who.hello.clientId, who.hello.headers, ClaimNamespace(namespace))
  }

  predicate MaySubscribe(c: Config, who: Identity, channel: Channel)
  {
    c.permits(who.credentials, who.hello.clientId, who.hello.headers, SubscribeTo(channel))
  }

  /** The peer is connected as `who`. */
  predicate ConnectedAs(who: Identity, s: State, peer: PeerId)
  {
    peer in s.peers && s.peers[peer].credentials == who.credentials && s.peers[peer].hello == who.hello
  }

  lemma ClaimHolds(c: Config, who: Identity, s: State, peer: PeerId, claim: NamespaceClaim)
    requires ConnectedAs(who, s, peer) && claim.headers == map[]
    ensures var (s1, r) := ClaimCallStep(c, s, peer, claim); var held := HeldFor(s, peer);
      && (r.Ok? <==> MayClaim(c, who, claim.namespace) && claim.namespace !in s.namespaces
                     && |held.namespaces| < c.limits.maximumNamespaceClaims)
      && (r.Err? ==> s1 == s)
      && (r.Ok? ==> && s1.peers == s.peers && s1.nextPeer == s.nextPeer
                    && s1.namespaces == s.namespaces[claim.namespace := peer]
                    && claim.namespace !in held.namespaces
                    && HeldFor(s1, peer) == held.(namespaces := held.namespaces + {claim.namespace}))
  {
    hide FiltersHeld;
    var s1 := s.(namespaces := s.namespaces[claim.namespace := peer]);
    assert claim.namespace !in s.namespaces ==>
      OwnedNamespaces(s1, peer) == OwnedNamespaces(s, peer) + {claim.namespace};
  }

  lemma SubscribeHolds(c: Config, who: Identity, s: State, peer: PeerId, sub: Subscription)
    requires ConnectedAs(who, s, peer)
    ensures var (s1, r) := SubscribeCallStep(c, s, peer, sub); var held := HeldFor(s, peer);
      && (r.Ok? <==> MaySubscribe(c, who, sub.channel)
                     && (sub.channel in held.filters || |held.filters| < c.limits.maximumSubscriptions))
      && (r.Err? ==> s1 == s)
      && (r.Ok? ==> && s1.peers == s.peers && s1.nextPeer == s.nextPeer && s1.namespaces == s.namespaces
                    && HeldFor(s1, peer) == held.(filters := held.filters[sub.channel := sub.filters]))
  {
    ChannelsHeld(s, peer);
    var (s1, r) := SubscribeCallStep(c, s, peer, sub);
    hide SubscribedChannels;
    if r.Ok? {
      assert OwnedNamespaces(s1, peer) == OwnedNamespaces(s, peer);
      assert FiltersHeld(s1.subscriptions, peer) == FiltersHeld(s.subscriptions, peer)[sub.channel := sub.filters];
    }
  }

  lemma ChannelsHeld(s: State, peer: PeerId)
    ensures SubscribedChannels(s, peer) == FiltersHeld(s.subscriptions, peer).Keys
    ensures |SubscribedChannels(s, peer)| == |FiltersHeld(s.subscriptions, peer)|
  {
    assert SubscribedChannels(s, peer) == FiltersHeld(s.subscriptions, peer).Keys;
  }

  lemma UnsubscribeHolds(s: State, peer: PeerId, channel: Channel)
    requires peer in s.peers
    ensures var step := UnsubscribeStep(s, peer, channel); var held := HeldFor(s, peer);
      && step.result.Ok? && step.state.peers == s.peers && step.state.nextPeer == s.nextPeer
      && HeldFor(step.state, peer) == held.(filters := held.filters - {channel})
  {
    var s1 := UnsubscribeStep(s, peer, channel).state;
    assert OwnedNamespaces(s1, peer) == OwnedNamespaces(s, peer);
    assert FiltersHeld(s1.subscriptions, peer) == FiltersHeld(s.subscriptions, peer) - {channel};
  }

  // ---------- What others do ----------

  /** A call that is not one of this peer's own control calls. */
  predicate Foreign(call: Call, peer: PeerId)
  {
    match call
    case CallClaim(p, _) => p != peer
    case CallSubscribe(p, _, _) => p != peer
    case CallUnsubscribe(p, _) => p != peer
    case _ => true
  }

  /** What a peer holds is not touched from `s` to `s1`, unless it leaves. */
  ghost predicate Undisturbed(s: State, s1: State, peer: PeerId)
  {
    && s.nextPeer <= s1.nextPeer
    && (peer in s1.peers ==> peer in s.peers && s1.peers[peer] == s.peers[peer] && HeldFor(s1, peer) == HeldFor(s, peer))
  }

  /** Only a peer's own control calls, or its leaving, change what the broker holds for it. */
  lemma OthersKeepHoldings(c: Config, s: State, call: Call, peer: PeerId)
    requires Foreign(call, peer) && peer < s.nextPeer
    ensures Undisturbed(s, Apply(c, s, call).state, peer)
  {
    hide Undisturbed, BeginDelivery, AcknowledgeStep, TickStep, Disconnect, ClaimStep, SubscribeStep, UnsubscribeStep,
         ConnectSession, RegisterDbusNameStep;
    match call
    case CallBegin(p, frame, now) =>
      BeginTouchesDeliveries(c, s, p, frame, now);
      RegistryUndisturbed(s, BeginDelivery(c, s, p, frame, now).state, peer);
    case CallAcknowledge(p, m, policy) =>
      AcknowledgeTouchesDeliveries(c, s, p, m, policy);
      RegistryUndisturbed(s, AcknowledgeStep(c, s, p, m, policy).state, peer);
    case CallTick(now) =>
      TickTouchesDeliveries(s, now);
      RegistryUndisturbed(s, TickStep(s, now).state, peer);
    case CallClaim(p, n) =>
      ClaimsOfOthers(c, s, p, n, peer);
      UndisturbedIf(s, ClaimStep(c, s, p, n).state, peer);
    case CallSubscribe(p, ch, filters) =>
      SubscriptionsOfOthers(c, s, p, ch, filters, peer);
      UndisturbedIf(s, SubscribeStep(c, s, p, ch, filters).state, peer);
    case CallUnsubscribe(p, ch) =>
      UnsubscribingOthers(s, p, ch, peer);
      UndisturbedIf(s, UnsubscribeStep(s, p, ch).state, peer);
    case CallDisconnect(p) =>
      LeavingOthers(s, p, peer);
      UndisturbedIf(s, Disconnect(s, p).state, peer);
    case CallConnect(credentials, hello) => JoiningOthers(c, s, credentials, hello, peer);
    case CallRegister(p, name) => NamingOthers(c, s, p, name, peer);
    case CallDrain => RegistryUndisturbed(s, s.(events := []), peer);
  }

  lemma UndisturbedIf(s: State, s1: State, peer: PeerId)
    requires s.nextPeer <= s1.nextPeer
    requires peer in s1.peers ==> peer in s.peers && s1.peers[peer] == s.peers[peer] && HeldFor(s1, peer) == HeldFor(s, peer)
    ensures Undisturbed(s, s1, peer)
  {
  }

  lemma RegistryUndisturbed(s: State, s1: State, peer: PeerId)
    requires s1.nextPeer == s.nextPeer && s1.peers == s.peers
    requires s1.namespaces == s.namespaces && s1.subscriptions == s.subscriptions
    ensures Undisturbed(s, s1, peer)
  {
    hide HeldFor;
    SameHoldings(s, s1, peer);
  }

  lemma JoiningOthers(c: Config, s: State, credentials: Credentials, hello: ClientHello, peer: PeerId)
    requires peer < s.nextPeer
    ensures Undisturbed(s, ConnectSession(c, s, credentials, hello).state, peer)
  {
    hide HeldFor, CheckHeaders;
    SameHoldings(s, ConnectSession(c, s, credentials, hello).state, peer);
  }

  lemma NamingOthers(c: Config, s: State, p: PeerId, name: Text, peer: PeerId)
    ensures Undisturbed(s, RegisterDbusNameStep(c, s, p, name).state, peer)
  {
    hide HeldFor, Authorize, ValidDbusName;
    SameHoldings(s, RegisterDbusNameStep(c, s, p, name).state, peer);
  }

  lemma SameHoldings(s: State, s1: State, peer: PeerId)
    requires s1.namespaces == s.namespaces && s1.subscriptions == s.subscriptions
    ensures HeldFor(s1, peer) == HeldFor(s, peer)
  {
  }

  lemma ClaimsOfOthers(c: Config, s: State, p: PeerId, n: Namespace, peer: PeerId)
    requires p != peer
    ensures var s1 := ClaimStep(c, s, p, n).state;
      s1.peers == s.peers && s1.nextPeer == s.nextPeer && HeldFor(s1, peer) == HeldFor(s, peer)
  {
    hide FiltersHeld, Authorize;
    var s1 := ClaimStep(c, s, p, n).state;
    assert OwnedNamespaces(s1, peer) == OwnedNamespaces(s, peer);
  }

  lemma SubscriptionsOfOthers(c: Config, s: State, p: PeerId, ch: Channel, filters: seq<HeaderFilter>, peer: PeerId)
    requires p != peer
    ensures var s1 := SubscribeStep(c, s, p, ch, filters).state;
      s1.peers == s.peers && s1.nextPeer == s.nextPeer && HeldFor(s1, peer) == HeldFor(s, peer)
  {
    hide SubscribedChannels, Authorize, FiltersHeld;
    var s1 := SubscribeStep(c, s, p, ch, filters).state;
    assert OwnedNamespaces(s1, peer) == OwnedNamespaces(s, peer);
    FiltersOfOthers(s.subscriptions, ch, SubscribersOf(s, ch)[p := filters], peer);
  }

  lemma FiltersOfOthers(subscriptions: map<Channel, Subscribers>, ch: Channel, of: Subscribers, peer: PeerId)
    requires
      if ch in subscriptions && peer in subscriptions[ch] then peer in of && of[peer] == subscriptions[ch][peer]
      else peer !in of
    ensures FiltersHeld(subscriptions[ch := of], peer) == FiltersHeld(subscriptions, peer)
  {
  }

  lemma OneFewer(subscribers: Subscribers, p: PeerId, peer: PeerId)
    requires p != peer
    ensures peer in subscribers <==> peer in subscribers - {p}
    ensures peer in subscribers ==> subscribers - {p} != map[] && (subscribers - {p})[peer] == subscribers[peer]
  {
  }

  lemma UnsubscribingOthers(s: State, p: PeerId, ch: Channel, peer: PeerId)
    requires p != peer
    ensures var s1 := UnsubscribeStep(s, p, ch).state;
      s1.peers == s.peers && s1.nextPeer == s.nextPeer && HeldFor(s1, peer) == HeldFor(s, peer)
  {
    var s1 := UnsubscribeStep(s, p, ch).state;
    assert OwnedNamespaces(s1, peer) == OwnedNamespaces(s, peer);
    if ch in s.subscriptions {
      OneFewer(s.subscriptions[ch], p, peer);
    }
    assert FiltersHeld(s1.subscriptions, peer) == FiltersHeld(s.subscriptions, peer);
  }

  lemma LeavingOthers(s: State, p: PeerId, peer: PeerId)
    ensures var s1 := Disconnect(s, p).state;
      && s1.nextPeer == s.nextPeer
      && (peer in s1.peers <==> peer in s.peers && p != peer)
      && (peer in s1.peers ==> s1.peers[peer] == s.peers[peer] && HeldFor(s1, peer) == HeldFor(s, peer))
  {
    hide Affected, Reports, ReleaseEvents, OwnedNamespaces, FiltersHeld, WithoutOwner, WithoutSubscriber;
    var s1 := Disconnect(s, p).state;
    if p in s.peers && p != peer {
      OwnedWithoutOther(s, s1, p, peer);
      FiltersWithoutOther(s.subscriptions, p, peer);
    }
  }

  lemma OwnedWithoutOther(s: State, s1: State, p: PeerId, peer: PeerId)
    requires p != peer && s1.namespaces == WithoutOwner(s.namespaces, p)
    ensures OwnedNamespaces(s1, peer) == OwnedNamespaces(s, peer)
  {
  }

  lemma FiltersWithoutOther(subscriptions: map<Channel, Subscribers>, p: PeerId, peer: PeerId)
    requires p != peer
    ensures FiltersHeld(WithoutSubscriber(subscriptions, p), peer) == FiltersHeld(subscriptions, peer)
  {
    var left := WithoutSubscriber(subscriptions, p);
    forall ch | ch in subscriptions
      ensures peer in subscriptions[ch] <==> ch in left && peer in left[ch]
      ensures peer in subscriptions[ch] ==> left[ch][peer] == subscriptions[ch][peer]
    {
      OneFewer(subscriptions[ch], p, peer);
    }
  }

  // ---------- The record and the session ----------

  /** Everything on record was granted once: it is permitted, within the limits, and claimed once each. */
  ghost predicate RecordOk(c: Config, who: Identity, k: Client)
  {
    && ReservedNames(who.hello.headers) == {}
    && c.permits(who.credentials, who.hello.clientId, who.hello.headers, Connect)
    && ClaimsOk(c, who, k.claims)
    && SubscribedOk(c, who, k.subscriptions)
  }

  ghost predicate ClaimsOk(c: Config, who: Identity, claims: seq<NamespaceClaim>)
  {
    && |Names(claims)| == |claims| <= c.limits.maximumNamespaceClaims
    && forall x :: x in claims ==> x.headers == map[] && MayClaim(c, who, x.namespace)
  }

  ghost predicate SubscribedOk(c: Config, who: Identity, subs: seq<Subscription>)
  {
    && |LastFilters(subs)| <= c.limits.maximumSubscriptions
    && forall x :: x in subs ==> MaySubscribe(c, who, x.channel)
  }

  /** While the session lasts, the broker holds for it exactly what is on record. */
  ghost predicate Describes(who: Identity, s: State, k: Client)
  {
    && k.peer < s.nextPeer
    && (k.peer in s.peers ==> ConnectedAs(who, s, k.peer) && HeldFor(s, k.peer) == OnRecord(k))
  }

  ghost predicate WorldOk(c: Config, who: Identity, w: World)
  {
    Inv(c, w.broker) && RecordOk(c, who, w.client) && Describes(who, w.broker, w.client)
  }

  lemma {:induction false} NamesAtMost(claims: seq<NamespaceClaim>)
    ensures |Names(claims)| <= |claims|
  {
    if claims != [] {
      NamesAtMost(claims[..|claims| - 1]);
    }
  }

  lemma NamesExtend(claims: seq<NamespaceClaim>, claim: NamespaceClaim)
    ensures Names(claims + [claim]) == Names(claims) + {claim.namespace}
  {
    assert (claims + [claim])[..|claims|] == claims;
  }

  lemma FiltersExtend(subs: seq<Subscription>, sub: Subscription)
    ensures LastFilters(subs + [sub]) == LastFilters(subs)[sub.channel := sub.filters]
  {
    assert (subs + [sub])[..|subs|] == subs;
  }

  /** Dropping a channel from the record drops it from what the record says, and nothing else. */
  lemma {:induction false} FiltersWithout(subs: seq<Subscription>, channel: Channel)
    ensures LastFilters(Without(subs, channel)) == LastFilters(subs) - {channel}
  {
    hide LastFilters;
    if subs == [] {
      assert LastFilters([]) - {channel} == LastFilters([]) by { NothingFiltered(); }
    } else {
      var fewer, last := subs[..|subs| - 1], subs[|subs| - 1];
      FiltersWithout(fewer, channel);
      assert fewer + [last] == subs;
      FiltersExtend(fewer, last);
      RemoveAfterUpdate(LastFilters(fewer), last.channel, last.filters, channel);
      if last.channel != channel {
        FiltersExtend(Without(fewer, channel), last);
      } else {
        assert Without(subs, channel) == Without(fewer, channel);
      }
    }
  }

  lemma NothingFiltered()
    ensures LastFilters([]) == map[]
  {
  }

  lemma RemoveAfterUpdate(f: map<Channel, seq<HeaderFilter>>, ch: Channel, filters: seq<HeaderFilter>, channel: Channel)
    ensures f[ch := filters] - {channel} == if ch == channel then f - {channel} else (f - {channel})[ch := filters]
  {
  }

  lemma {:induction false} WithoutIsPart(subs: seq<Subscription>, channel: Channel)
    ensures forall x :: x in Without(subs, channel) ==> x in subs
  {
    if subs != [] {
      WithoutIsPart(subs[..|subs| - 1], channel);
    }
  }

  lemma ClaimKeepsWorld(c: Config, who: Identity, w: World, claim: NamespaceClaim)
    requires WorldOk(c, who, w)
    ensures WorldOk(c, who, DoClaim(c, w, claim).0)
  {
    hide Inv, SubscribedOk, ReservedNames, HeldFor, ClaimStep, Disconnect, Names, LastFilters;
    var s, k := w.broker, w.client;
    ClaimKeeps(c, s, k.peer, claim.namespace);
    DisconnectKeeps(c, s, k.peer);
    LeavingOthers(s, k.peer, k.peer);
    StrangersClaimNothing(c, s, k.peer, claim.namespace);
    if claim.headers == map[] && k.peer in s.peers {
      ClaimHolds(c, who, s, k.peer, claim);
      NamesExtend(k.claims, claim);
    }
  }

  lemma StrangersClaimNothing(c: Config, s: State, peer: PeerId, namespace: Namespace)
    ensures peer !in s.peers ==> ClaimStep(c, s, peer, namespace) == Step(s, Err(UnknownPeer(peer)))
  {
  }

  lemma SubscribeKeepsWorld(c: Config, who: Identity, w: World, sub: Subscription)
    requires WorldOk(c, who, w)
    ensures WorldOk(c, who, DoSubscribe(c, w, sub).0)
  {
    hide Inv, ClaimsOk, ReservedNames, HeldFor, SubscribeStep, Names, LastFilters;
    var s, k := w.broker, w.client;
    SubscribeKeeps(c, s, k.peer, sub.channel, sub.filters);
    StrangersSubscribeToNothing(c, s, k.peer, sub);
    if k.peer in s.peers {
      SubscribeHolds(c, who, s, k.peer, sub);
      FiltersExtend(k.subscriptions, sub);
      var filters := LastFilters(k.subscriptions);
      assert filters[sub.channel := sub.filters].Keys == filters.Keys + {sub.channel};
    }
  }

  lemma StrangersSubscribeToNothing(c: Config, s: State, peer: PeerId, sub: Subscription)
    ensures peer !in s.peers ==> SubscribeStep(c, s, peer, sub.channel, sub.filters) == Step(s, Err(UnknownPeer(peer)))
  {
  }

  lemma UnsubscribeKeepsWorld(c: Config, who: Identity, w: World, channel: Channel)
    requires WorldOk(c, who, w)
    ensures WorldOk(c, who, DoUnsubscribe(w, channel).0)
  {
    hide Inv, ClaimsOk, ReservedNames, HeldFor, Names, LastFilters, Without;
    var s, k := w.broker, w.client;
    UnsubscribeKeeps(c, s, k.peer, channel);
    if k.peer in s.peers {
      UnsubscribeHolds(s, k.peer, channel);
      FiltersWithout(k.subscriptions, channel);
      WithoutIsPart(k.subscriptions, channel);
      var filters := LastFilters(k.subscriptions);
      assert (filters - {channel}).Keys == filters.Keys - {channel};
    }
  }
}
