/** What every broker call keeps: the registry, the shape of deliveries, and errors without effect. */
module BrokerInvariants {
  import opened Protocol
  import opened BrokerState
  import opened BrokerSteps

  predicate Permitted(c: Config, p: Peer, action: Action)
  {
    c.permits(p.credentials, p.hello.clientId, p.hello.headers, action)
  }

  ghost predicate PeersOk(c: Config, nextPeer: u64, peers: map<PeerId, Peer>)
  {
    && 1 <= nextPeer
    && forall p :: p in peers ==>
         && 1 <= p < nextPeer
         && Permitted(c, peers[p], Connect)
         && ReservedNames(peers[p].hello.headers) == {}
         && peers[p].capabilities == c.capabilities * peers[p].hello.capabilities
  }

  ghost predicate NamespacesOk(c: Config, peers: map<PeerId, Peer>, namespaces: map<Namespace, PeerId>)
  {
    forall n :: n in namespaces ==>
      namespaces[n] in peers && Permitted(c, peers[namespaces[n]], ClaimNamespace(n))
  }

  ghost predicate DbusNamesOk(c: Config, peers: map<PeerId, Peer>, names: map<Text, PeerId>)
  {
    forall n :: n in names ==>
      ValidDbusName(n) && names[n] in peers && Permitted(c, peers[names[n]], RegisterDbusName(n))
  }

  predicate SubscribersOk(c: Config, peers: map<PeerId, Peer>, channel: Channel, subscribers: Subscribers)
  {
    && subscribers != map[]
    && forall p :: p in subscribers ==> p in peers && Permitted(c, peers[p], SubscribeTo(channel))
  }

  ghost predicate SubscriptionsOk(c: Config, peers: map<PeerId, Peer>, subscriptions: map<Channel, Subscribers>)
  {
    forall ch :: ch in subscriptions ==> SubscribersOk(c, peers, ch, subscriptions[ch])
  }

  /** Owners, registrants and subscribers are connected peers the policy permits. */
  ghost predicate Registered(c: Config, s: State)
  {
    && PeersOk(c, s.nextPeer, s.peers)
    && NamespacesOk(c, s.peers, s.namespaces)
    && DbusNamesOk(c, s.peers, s.dbusNames)
    && SubscriptionsOk(c, s.peers, s.subscriptions)
  }

  /** A delivery in flight has connected recipients, and only they acknowledged or responded. */
  predicate PendingOk(peers: set<PeerId>, id: MessageId, p: Pending)
  {
    && p.message.id == id && p.message.kind != Response && IsTracked(p.message)
    && p.recipients != {} && p.recipients <= peers
    && p.acknowledgements <= p.recipients && p.responses.Keys <= p.recipients
    && (p.message.kind != Request ==> p.responses == map[])
    && (forall r :: r in p.responses ==> p.responses[r].correlationId == id)
    && RequirementPossible(p.message.ackRequirement, |p.recipients|)
    && 1 <= p.attempts && p.priority <= 7
  }

  ghost predicate PendingsOk(peers: set<PeerId>, d: Deliveries)
  {
    forall id :: id in d ==> PendingOk(peers, id, d[id])
  }

  ghost predicate Inv(c: Config, s: State)
  {
    Registered(c, s) && PendingsOk(s.peers.Keys, s.deliveries)
  }

  // ---------- Each call keeps the invariant ----------

  /** More peers, the known ones unchanged: registrations and deliveries stay in order. */
  lemma PeersGrow(c: Config, s: State, peers: map<PeerId, Peer>)
    requires NamespacesOk(c, s.peers, s.namespaces) && DbusNamesOk(c, s.peers, s.dbusNames)
    requires SubscriptionsOk(c, s.peers, s.subscriptions) && PendingsOk(s.peers.Keys, s.deliveries)
    requires forall p :: p in s.peers ==> p in peers && peers[p] == s.peers[p]
    ensures NamespacesOk(c, peers, s.namespaces) && DbusNamesOk(c, peers, s.dbusNames)
    ensures SubscriptionsOk(c, peers, s.subscriptions) && PendingsOk(peers.Keys, s.deliveries)
  {
    hide ValidDbusName, Permitted, IsTracked, RequirementPossible;
  }

  lemma ConnectKeeps(c: Config, s: State, credentials: Credentials, hello: ClientHello)
    requires Inv(c, s)
    ensures Inv(c, ConnectSession(c, s, credentials, hello).state)
  {
    hide ReservedNames, NamespacesOk, DbusNamesOk, SubscriptionsOk, PendingsOk;
    PeersGrow(c, s, ConnectSession(c, s, credentials, hello).state.peers);
  }

  lemma ClaimKeeps(c: Config, s: State, peer: PeerId, namespace: Namespace)
    requires Inv(c, s)
    ensures Inv(c, ClaimStep(c, s, peer, namespace).state)
  {
    hide PeersOk, DbusNamesOk, SubscriptionsOk, PendingsOk, OwnedNamespaces;
  }

  lemma SubscribeKeeps(c: Config, s: State, peer: PeerId, channel: Channel, filters: seq<HeaderFilter>)
    requires Inv(c, s)
    ensures Inv(c, SubscribeStep(c, s, peer, channel, filters).state)
  {
    hide PeersOk, NamespacesOk, DbusNamesOk, PendingsOk, SubscribedChannels;
    var subscribers := SubscribersOf(s, channel)[peer := filters];
    if Authorize(c, s, peer, SubscribeTo(channel)).Ok? {
      assert peer in subscribers;
      assert SubscribersOk(c, s.peers, channel, subscribers);
    }
  }

  lemma UnsubscribeKeeps(c: Config, s: State, peer: PeerId, channel: Channel)
    requires Inv(c, s)
    ensures Inv(c, UnsubscribeStep(s, peer, channel).state)
  {
    hide PeersOk, NamespacesOk, DbusNamesOk, PendingsOk;
    if channel in s.subscriptions {
      var left := s.subscriptions[channel] - {peer};
      assert left != map[] ==> SubscribersOk(c, s.peers, channel, left);
    }
  }

  lemma RegisterKeeps(c: Config, s: State, peer: PeerId, name: Text)
    requires Inv(c, s)
    ensures Inv(c, RegisterDbusNameStep(c, s, peer, name).state)
  {
    hide PeersOk, NamespacesOk, SubscriptionsOk, PendingsOk, ValidDbusName;
  }

  lemma DisconnectKeeps(c: Config, s: State, peer: PeerId)
    requires Inv(c, s)
    ensures Inv(c, Disconnect(s, peer).state)
  {
    hide ReleaseEvents, Reports, PendingOk, SubscribersOk, ValidDbusName, ReservedNames, Permitted;
    if peer in s.peers {
      var s1 := Disconnect(s, peer).state;
      assert s1.peers == s.peers - {peer};
      assert s1.peers.Keys == s.peers.Keys - {peer};
      forall id | id in s1.deliveries ensures PendingOk(s1.peers.Keys, id, s1.deliveries[id]) {
        PendingSurvives(s.peers.Keys, id, s.deliveries[id], peer);
      }
      forall ch | ch in s1.subscriptions ensures SubscribersOk(c, s1.peers, ch, s1.subscriptions[ch]) {
        SubscribersLose(c, s.peers, ch, s.subscriptions[ch], peer);
      }
    }
  }

  lemma PendingSurvives(peers: set<PeerId>, id: MessageId, p: Pending, peer: PeerId)
    requires PendingOk(peers, id, p) && peer !in p.recipients
    ensures PendingOk(peers - {peer}, id, p)
  {
  }

  lemma SubscribersLose(c: Config, peers: map<PeerId, Peer>, channel: Channel, subscribers: Subscribers, peer: PeerId)
    requires SubscribersOk(c, peers, channel, subscribers) && subscribers - {peer} != map[]
    ensures SubscribersOk(c, peers - {peer}, channel, subscribers - {peer})
  {
  }

  /** Whatever a destination selects is connected. */
  lemma SelectedAreConnected(c: Config, s: State, sender: PeerId, d: Destination, h: Headers)
    requires Registered(c, s)
    ensures Selected(s, sender, d, h) <= s.peers.Keys
  {
    hide PeersOk, DbusNamesOk, FiltersMatch;
  }

  lemma BeginKeeps(c: Config, s: State, sender: PeerId, frame: Frame, now: u64)
    requires Inv(c, s)
    ensures Inv(c, BeginDelivery(c, s, sender, frame, now).state)
  {
    hide PeersOk, NamespacesOk, DbusNamesOk, SubscriptionsOk, PendingsOk, Accept, CompleteResponse,
         Selected, CheckHeaders, Authorize;
    if frame.MessageFrame? {
      var m := frame.message;
      if m.kind == Response {
        ResponseKeeps(s, sender, m);
      }
      var routed := Route(c, s, sender, m.destination, m.headers);
      var priority := MessagePriority(m.headers);
      if m.kind != Response && routed.Ok? && priority.Ok? {
        SelectedAreConnected(c, s, sender, m.destination, m.headers);
        AcceptKeeps(c, s, sender, m, routed.value, now, priority.value);
      }
    }
  }

  lemma AcceptKeeps(c: Config, s: State, sender: PeerId, m: Message, recipients: set<PeerId>, now: u64, priority: u8)
    requires PendingsOk(s.peers.Keys, s.deliveries) && recipients <= s.peers.Keys && priority <= 7
    requires m.kind != Response
    ensures var s1 := Accept(c, s, sender, m, recipients, now, priority).state;
      && s1 == s.(deliveries := s1.deliveries, metrics := s1.metrics)
      && PendingsOk(s.peers.Keys, s1.deliveries)
  {
    hide CheckCapacity, QueuedFor, RetryNext, AcceptedEvents, CountRouted;
  }

  lemma ResponseKeeps(s: State, sender: PeerId, m: Message)
    requires PendingsOk(s.peers.Keys, s.deliveries)
    ensures var s1 := CompleteResponse(s, sender, m).state;
      s1 == s.(deliveries := s1.deliveries) && PendingsOk(s.peers.Keys, s1.deliveries)
  {
    hide Completes, Forwarded;
  }

  lemma AcknowledgeKeeps(c: Config, s: State, peer: PeerId, id: MessageId, policy: AckPolicy)
    requires Inv(c, s)
    ensures Inv(c, AcknowledgeStep(c, s, peer, id, policy).state)
  {
    hide PeersOk, NamespacesOk, DbusNamesOk, SubscriptionsOk, RequirementMet, Authorize;
  }

  lemma TickKeeps(c: Config, s: State, now: u64)
    requires Inv(c, s)
    ensures Inv(c, TickStep(s, now).state)
  {
    hide PeersOk, NamespacesOk, DbusNamesOk, SubscriptionsOk, RetryNext, TickEvents;
  }

  lemma ApplyKeeps(c: Config, s: State, call: Call)
    requires Inv(c, s)
    ensures Inv(c, Apply(c, s, call).state)
  {
    hide Inv, ConnectSession, ClaimStep, SubscribeStep, UnsubscribeStep, RegisterDbusNameStep, BeginDelivery,
         AcknowledgeStep, TickStep, Disconnect;
    match call
    case CallConnect(credentials, hello) => ConnectKeeps(c, s, credentials, hello);
    case CallClaim(peer, namespace) => ClaimKeeps(c, s, peer, namespace);
    case CallSubscribe(peer, channel, filters) => SubscribeKeeps(c, s, peer, channel, filters);
    case CallUnsubscribe(peer, channel) => UnsubscribeKeeps(c, s, peer, channel);
    case CallRegister(peer, name) => RegisterKeeps(c, s, peer, name);
    case CallBegin(peer, frame, now) => BeginKeeps(c, s, peer, frame, now);
    case CallAcknowledge(peer, id, policy) => AcknowledgeKeeps(c, s, peer, id, policy);
    case CallTick(now) => TickKeeps(c, s, now);
    case CallDisconnect(peer) => DisconnectKeeps(c, s, peer);
    case CallDrain => DrainKeeps(c, s);
  }

  lemma DrainKeeps(c: Config, s: State)
    requires Inv(c, s)
    ensures Inv(c, s.(events := []))
  {
    hide PeersOk, NamespacesOk, DbusNamesOk, SubscriptionsOk, PendingsOk;
  }

  /** In every reachable state the registry and the deliveries are in order. */
  lemma {:induction false} RunKeeps(c: Config, calls: seq<Call>)
    ensures Inv(c, Run(c, calls))
    decreases |calls|
  {
    if calls != [] {
      RunKeeps(c, calls[..|calls| - 1]);
      ApplyKeeps(c, Run(c, calls[..|calls| - 1]), calls[|calls| - 1]);
    }
  }

  // ---------- Errors ----------

  lemma DeliveryErrorsChangeNothing(c: Config, s: State, peer: PeerId, frame: Frame, now: u64)
    requires BeginDelivery(c, s, peer, frame, now).result.Err?
    ensures var s1 := BeginDelivery(c, s, peer, frame, now).state; s1 == s.(metrics := s1.metrics)
  {
    hide CheckHeaders, MessagePriority, Route, CheckCapacity, CountRouted, Forwarded, Completes;
  }

  /** The branch that fails after the acknowledgement was recorded is never taken. */
  lemma AcknowledgeErrorsChangeNothing(c: Config, s: State, peer: PeerId, id: MessageId, policy: AckPolicy)
    requires AcknowledgeStep(c, s, peer, id, policy).result.Err?
    ensures AcknowledgeStep(c, s, peer, id, policy).state == s
  {
    hide Authorize, Acknowledged;
  }

  /** A call that fails changes nothing but the metrics. */
  lemma ErrorsChangeNothing(c: Config, s: State, call: Call)
    requires Apply(c, s, call).result.Err?
    ensures Apply(c, s, call).state == s.(metrics := Apply(c, s, call).state.metrics)
  {
    hide CheckHeaders, Authorize, BeginDelivery, AcknowledgeStep, TickEvents, ValidDbusName, Reports, RemovePeer;
    match call
    case CallBegin(peer, frame, now) => DeliveryErrorsChangeNothing(c, s, peer, frame, now);
    case CallAcknowledge(peer, id, policy) => AcknowledgeErrorsChangeNothing(c, s, peer, id, policy);
    case _ =>
  }
}
