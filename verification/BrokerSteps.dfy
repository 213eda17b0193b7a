/** What each broker call does to the state and what it answers. */
module BrokerSteps {
  import opened Order
  import opened Results
  import opened Protocol
  import opened Encoding
  import opened BrokerState

  datatype Step<+T> = Step(state: State, result: Result<T, BrokerError>)

  type Answer = Result<seq<DeliveryEvent>, BrokerError>

  // ---------- Sessions ----------

  function ConnectSession(c: Config, s: State, credentials: Credentials, hello: ClientHello): Step<PeerId>
  {
    var checked := CheckHeaders(hello.headers);
    if checked.Err? then Step(s, Err(checked.error))
    else if !c.permits(credentials, hello.clientId, hello.headers, Connect) then Step(s, Err(PolicyDenied(Connect)))
    else if s.nextPeer == U64_MAX then Step(s, Err(PeerIdExhausted))
    else
      var id := s.nextPeer;
      var peer := Peer(credentials, hello, c.capabilities * hello.capabilities);
      Step(s.(nextPeer := id + 1, peers := s.peers[id := peer], events := s.events + [PeerConnected(id)]), Ok(id))
  }

  function OwnedNamespaces(s: State, peer: PeerId): set<Namespace>
  {
    set n | n in s.namespaces && s.namespaces[n] == peer
  }

  /** One ownership event per released namespace, in ascending order. */
  function ReleaseEvents(released: set<Namespace>, peer: PeerId): seq<LifecycleEvent>
    decreases |released|
  {
    if released == {} then []
    else
      var n := Min(released);
      [NamespaceOwnerChanged(n, Some(peer), None)] + ReleaseEvents(released - {n}, peer)
  }

  function WithoutSubscriber(subscriptions: map<Channel, Subscribers>, peer: PeerId): map<Channel, Subscribers>
  {
    map ch | ch in subscriptions && subscriptions[ch] - {peer} != map[] :: subscriptions[ch] - {peer}
  }

  function WithoutOwner<K>(owners: map<K, PeerId>, peer: PeerId): map<K, PeerId>
  {
    map k | k in owners && owners[k] != peer :: owners[k]
  }

  function RemovePeer(s: State, peer: PeerId): State
  {
    s.(peers := s.peers - {peer},
       namespaces := WithoutOwner(s.namespaces, peer),
       dbusNames := WithoutOwner(s.dbusNames, peer),
       subscriptions := WithoutSubscriber(s.subscriptions, peer),
       events := s.events + ReleaseEvents(OwnedNamespaces(s, peer), peer) + [PeerDisconnected(peer)])
  }

  function Affected(d: Deliveries, peer: PeerId): set<MessageId>
  {
    set id | id in d && peer in d[id].recipients
  }

  /** One outcome per delivery in `ids`, in ascending order. */
  function Reports(d: Deliveries, ids: set<MessageId>, outcome: Outcome): seq<DeliveryEvent>
    requires ids <= d.Keys
    decreases |ids|
  {
    if ids == {} then []
    else
      var id := Min(ids);
      [Report(d[id].sender, id, outcome)] + Reports(d, ids - {id}, outcome)
  }

  function Disconnect(s: State, peer: PeerId): Step<seq<DeliveryEvent>>
  {
    if peer !in s.peers then Step(s, Err(UnknownPeer(peer)))
    else
      var affected := Affected(s.deliveries, peer);
      Step(RemovePeer(s, peer).(deliveries := s.deliveries - affected),
           Ok(Reports(s.deliveries, affected, RecipientDisconnected)))
  }

  // ---------- Registrations ----------

  function ClaimStep(c: Config, s: State, peer: PeerId, namespace: Namespace): Step<()>
  {
    var allowed := Authorize(c, s, peer, ClaimNamespace(namespace));
    if allowed.Err? then Step(s, Err(allowed.error))
    else if |OwnedNamespaces(s, peer)| >= c.limits.maximumNamespaceClaims then
      Step(s, Err(LimitReached(NamespaceClaims)))
    else if namespace in s.namespaces then
      Step(s, Err(NamespaceAlreadyOwned(namespace, s.namespaces[namespace])))
    else
      Step(s.(namespaces := s.namespaces[namespace := peer],
              events := s.events + [NamespaceOwnerChanged(namespace, None, Some(peer))]),
           Ok(()))
  }

  function SubscribedChannels(s: State, peer: PeerId): set<Channel>
  {
    set ch | ch in s.subscriptions && peer in s.subscriptions[ch]
  }

  function SubscribersOf(s: State, channel: Channel): Subscribers
  {
    if channel in s.subscriptions then s.subscriptions[channel] else map[]
  }

  function SubscribeStep(c: Config, s: State, peer: PeerId, channel: Channel, filters: seq<HeaderFilter>): Step<()>
  {
    var allowed := Authorize(c, s, peer, SubscribeTo(channel));
    if allowed.Err? then Step(s, Err(allowed.error))
    else if peer !in SubscribersOf(s, channel)
            && |SubscribedChannels(s, peer)| >= c.limits.maximumSubscriptions then
      Step(s, Err(LimitReached(Limit.Subscriptions)))
    else
      Step(s.(subscriptions := s.subscriptions[channel := SubscribersOf(s, channel)[peer := filters]]), Ok(()))
  }

  function UnsubscribeStep(s: State, peer: PeerId, channel: Channel): Step<()>
  {
    if peer !in s.peers then Step(s, Err(UnknownPeer(peer)))
    else if channel !in s.subscriptions then Step(s, Ok(()))
    else
      var left := s.subscriptions[channel] - {peer};
      Step(s.(subscriptions := if left == map[] then s.subscriptions - {channel}
                               else s.subscriptions[channel := left]),
           Ok(()))
  }

  function RegisterDbusNameStep(c: Config, s: State, peer: PeerId, name: Text): Step<()>
  {
    if !ValidDbusName(name) then Step(s, Err(InvalidDbusName(name)))
    else
      var allowed := Authorize(c, s, peer, RegisterDbusName(name));
      if allowed.Err? then Step(s, Err(allowed.error))
      else if name in s.dbusNames then Step(s, Err(DbusNameAlreadyOwned(name, s.dbusNames[name])))
      else Step(s.(dbusNames := s.dbusNames[name := peer]), Ok(()))
  }

  // ---------- Deliveries ----------

  /** Counts the selected recipients, whatever becomes of the message. */
  function CountRouted(m: Metrics, message: Message, recipients: nat): Metrics
  {
    m.(messagesRouted := SatAdd(m.messagesRouted, recipients),
       bytesRouted := SatAdd(m.bytesRouted, Saturated(|message.payload| * recipients)),
       droppedSignals := if recipients == 0 && message.kind == Signal then SatAdd(m.droppedSignals, 1)
                         else m.droppedSignals)
  }

  function NewPending(sender: PeerId, m: Message, recipients: set<PeerId>, now: u64, priority: u8): Pending
    requires now + m.deadline <= U64_MAX
  {
    Pending(sender, m, recipients, {}, map[], false, now + m.deadline, 1, RetryNext(m.retry, now, 1), priority)
  }

  /** The events of an accepted message: its delivery, then the broker's acceptance if asked for. */
  function AcceptedEvents(sender: PeerId, m: Message, recipients: set<PeerId>): seq<DeliveryEvent>
  {
    [Deliver(sender, recipients, m)]
    + if m.ackPolicy == AckPolicy.Accepted then [Report(sender, m.id, Outcome.Accepted)] else []
  }

  /** A message whose recipients were selected: answer it, and track it when it must be. */
  function Accept(c: Config, s: State, sender: PeerId, m: Message, recipients: set<PeerId>, now: u64, priority: u8)
    : Step<seq<DeliveryEvent>>
  {
    var s1 := s.(metrics := CountRouted(s.metrics, m, |recipients|));
    if (recipients == {} && IsTracked(m)) || !RequirementPossible(m.ackRequirement, |recipients|) then
      Step(s1, Ok([Report(sender, m.id, Outcome.NoRecipient)]))
    else if !IsTracked(m) then Step(s1, Ok(AcceptedEvents(sender, m, recipients)))
    else
      var room := CheckCapacity(c.limits, QueuedFor(s.deliveries, sender), m);
      if room.Err? then Step(s1, Err(room.error))
      else if now + m.deadline > U64_MAX then Step(s1, Err(DeadlineOverflow))
      else
        Step(s1.(deliveries := s.deliveries[m.id := NewPending(sender, m, recipients, now, priority)]),
             Ok(AcceptedEvents(sender, m, recipients)))
  }

  function BeginDelivery(c: Config, s: State, sender: PeerId, frame: Frame, now: u64): Step<seq<DeliveryEvent>>
  {
    if !frame.MessageFrame? then Step(s, Err(InvalidDelivery))
    else if sender !in s.peers then Step(s, Err(UnknownPeer(sender)))
    else
      var m := frame.message;
      var checked := CheckHeaders(m.headers);
      var priority := MessagePriority(m.headers);
      if checked.Err? then Step(s, Err(checked.error))
      else if priority.Err? then Step(s, Err(priority.error))
      else if m.kind == Response then CompleteResponse(s, sender, m)
      else if m.id in s.deliveries then Step(s, Err(DuplicateMessage(m.id)))
      else
        var routed := Route(c, s, sender, m.destination, m.headers);
        if routed == Err(NoEligibleRecipient) then Step(s, Ok([Report(sender, m.id, Outcome.NoRecipient)]))
        else if routed.Err? then Step(s, Err(routed.error))
        else Accept(c, s, sender, m, routed.value, now, priority.value)
  }

  function Respond(p: Pending, sender: PeerId, m: Message): Pending
  {
    p.(responses := p.responses[sender := m])
  }

  /** Whether a request with the responses in `p` is over once a response of this status arrived. */
  predicate Completes(p: Pending, status: Status)
  {
    match p.message.requestPolicy
    case Exact => true
    case First => true
    case FirstSuccess => status == Success || |p.responses| == |p.recipients|
    case AllResponses => |p.responses| == |p.recipients|
  }

  /** What is forwarded to the requester; `p` already holds the new response `m`. */
  function Forwarded(p: Pending, m: Message): (f: Option<Message>)
    requires p.responses != map[]
  {
    if p.message.requestPolicy != FirstSuccess || m.status == Success then Some(m)
    else if Completes(p, m.status) then Some(p.responses[Least(p.responses.Keys)])
    else None
  }

  function CompleteResponse(s: State, sender: PeerId, m: Message): Step<seq<DeliveryEvent>>
  {
    if m.correlationId !in s.deliveries then Step(s, Err(UnknownDelivery(m.correlationId)))
    else
      var p := s.deliveries[m.correlationId];
      if p.message.kind != Request || sender !in p.recipients || sender in p.responses then
        Step(s, Err(UnexpectedResponse(m.correlationId)))
      else
        var p1 := Respond(p, sender, m);
        assert sender in p1.responses;
        var forwarded := Forwarded(p1, m);
        Step(s.(deliveries := if Completes(p1, m.status) then s.deliveries - {m.correlationId}
                              else s.deliveries[m.correlationId := p1]),
             Ok(if forwarded.Some? then [Deliver(sender, {p.sender}, forwarded.value)] else []))
  }

  /** A delivery after one more recipient acknowledged it. */
  function Acknowledged(p: Pending, peer: PeerId): Pending
  {
    var acknowledgements := p.acknowledgements + {peer};
    p.(acknowledgements := acknowledgements,
       acknowledgementComplete := p.acknowledgementComplete
         || RequirementMet(p.message.ackRequirement, |acknowledgements|, |p.recipients|))
  }

  function AckOutcome(p: AckPolicy): Outcome
  {
    if p.Received? then Outcome.Received else Outcome.Processed
  }

  function AcknowledgeStep(c: Config, s: State, peer: PeerId, id: MessageId, policy: AckPolicy)
    : Step<seq<DeliveryEvent>>
  {
    var allowed := Authorize(c, s, peer, AcknowledgeMessage);
    if allowed.Err? then Step(s, Err(allowed.error))
    else if id !in s.deliveries then Step(s, Err(UnknownDelivery(id)))
    else
      var p := s.deliveries[id];
      if peer !in p.recipients || !AcknowledgementSatisfies(p.message.ackPolicy, policy) then
        Step(s, Err(UnexpectedAcknowledgement(id)))
      else
        var p1 := Acknowledged(p, peer);
        if !WantsAck(p.message.ackPolicy) then
          // The insertion has happened by the time the code takes this branch.
          Step(s.(deliveries := s.deliveries[id := p.(acknowledgements := p1.acknowledgements)]),
               Err(UnexpectedAcknowledgement(id)))
        else if p.acknowledgementComplete || !p1.acknowledgementComplete then
          Step(s.(deliveries := s.deliveries[id := p1]), Ok([]))
        else
          Step(s.(deliveries := if p.message.kind == Request then s.deliveries[id := p1] else s.deliveries - {id}),
               Ok([Report(p.sender, id, AckOutcome(p.message.ackPolicy))]))
  }

  // ---------- The clock ----------

  /** What the clock does to one delivery. */
  datatype Fate = Wait | Expire | GiveUp | Again(next: Pending)

  function FateOf(p: Pending, now: u64): Fate
  {
    if now >= p.deadline then Expire
    else if p.nextRetry.None? || now < p.nextRetry.value then Wait
    else
      match p.message.retry
      case NoRetry => Wait
      case Exponential(_, max) =>
        if p.attempts >= max then GiveUp
        else Again(p.(attempts := p.attempts + 1, nextRetry := RetryNext(p.message.retry, now, p.attempts + 1)))
  }

  predicate Ends(f: Fate) { f.Expire? || f.GiveUp? }

  function Outlived(p: Pending, now: u64): Pending
  {
    match FateOf(p, now) case Again(next) => next case _ => p
  }

  function TickDeliveries(d: Deliveries, now: u64): Deliveries
  {
    map id | id in d && !Ends(FateOf(d[id], now)) :: Outlived(d[id], now)
  }

  /** The outcomes of the deliveries that ended, in ascending order of message identifiers. */
  function TickReports(d: Deliveries, now: u64): seq<DeliveryEvent>
    decreases |d|
  {
    if d == map[] then []
    else
      var id := Min(d.Keys);
      ReportsOf(id, d[id], now) + TickReports(d - {id}, now)
  }

  function ReportsOf(id: MessageId, p: Pending, now: u64): seq<DeliveryEvent>
  {
    match FateOf(p, now)
    case Expire => [Report(p.sender, id, Timeout)]
    case GiveUp => [Report(p.sender, id, DeliveryFailed)]
    case _ => []
  }

  type Retry = (u8, DeliveryEvent)

  /** The repeated deliveries with their priorities, in ascending order of message identifiers. */
  function TickRetries(d: Deliveries, now: u64): seq<Retry>
    decreases |d|
  {
    if d == map[] then []
    else
      var id := Min(d.Keys);
      RetriesOf(d[id], now) + TickRetries(d - {id}, now)
  }

  function RetriesOf(p: Pending, now: u64): seq<Retry>
  {
    if FateOf(p, now).Again? then [(p.priority, Deliver(p.sender, p.recipients - p.acknowledgements, p.message))]
    else []
  }

  /** A stable sort by descending priority. */
  function SortByPriority(r: seq<Retry>): seq<Retry>
  {
    if r == [] then [] else InsertByPriority(r[0], SortByPriority(r[1..]))
  }

  function InsertByPriority(x: Retry, r: seq<Retry>): seq<Retry>
  {
    if r == [] || r[0].0 <= x.0 then [x] + r else [r[0]] + InsertByPriority(x, r[1..])
  }

  function EventsOf(r: seq<Retry>): seq<DeliveryEvent>
  {
    if r == [] then [] else [r[0].1] + EventsOf(r[1..])
  }

  function TickEvents(d: Deliveries, now: u64): seq<DeliveryEvent>
  {
    TickReports(d, now) + EventsOf(SortByPriority(TickRetries(d, now)))
  }

  function Expired(d: Deliveries, now: u64): set<MessageId>
  {
    set id | id in d && FateOf(d[id], now).Expire?
  }

  function Retried(d: Deliveries, now: u64): set<MessageId>
  {
    set id | id in d && FateOf(d[id], now).Again?
  }

  function TickStep(s: State, now: u64): Step<seq<DeliveryEvent>>
  {
    Step(s.(deliveries := TickDeliveries(s.deliveries, now),
            metrics := s.metrics.(timeouts := SatAdd(s.metrics.timeouts, |Expired(s.deliveries, now)|),
                                  retries := SatAdd(s.metrics.retries, |Retried(s.deliveries, now)|))),
         Ok(TickEvents(s.deliveries, now)))
  }

  // ---------- Runs ----------

  /** One call on the broker. */
  datatype Call =
    | CallConnect(credentials: Credentials, hello: ClientHello)
    | CallClaim(peer: PeerId, namespace: Namespace)
    | CallSubscribe(peer: PeerId, channel: Channel, filters: seq<HeaderFilter>)
    | CallUnsubscribe(peer: PeerId, channel: Channel)
    | CallRegister(peer: PeerId, name: Text)
    | CallBegin(peer: PeerId, frame: Frame, now: u64)
    | CallAcknowledge(peer: PeerId, id: MessageId, policy: AckPolicy)
    | CallTick(now: u64)
    | CallDisconnect(peer: PeerId)
    | CallDrain

  /** A call without delivery events to answer with. */
  function Quiet<T>(step: Step<T>): Step<seq<DeliveryEvent>>
  {
    Step(step.state, match step.result case Ok(_) => Ok([]) case Err(e) => Err(e))
  }

  function Apply(c: Config, s: State, call: Call): Step<seq<DeliveryEvent>>
  {
    match call
    case CallConnect(credentials, hello) => Quiet(ConnectSession(c, s, credentials, hello))
    case CallClaim(peer, namespace) => Quiet(ClaimStep(c, s, peer, namespace))
    case CallSubscribe(peer, channel, filters) => Quiet(SubscribeStep(c, s, peer, channel, filters))
    case CallUnsubscribe(peer, channel) => Quiet(UnsubscribeStep(s, peer, channel))
    case CallRegister(peer, name) => Quiet(RegisterDbusNameStep(c, s, peer, name))
    case CallBegin(peer, frame, now) => BeginDelivery(c, s, peer, frame, now)
    case CallAcknowledge(peer, id, policy) => AcknowledgeStep(c, s, peer, id, policy)
    case CallTick(now) => TickStep(s, now)
    case CallDisconnect(peer) => Disconnect(s, peer)
    case CallDrain => Step(s.(events := []), Ok([]))
  }

  /** The state after a whole run of calls on a new broker. */
  function Run(c: Config, calls: seq<Call>): State
    decreases |calls|
  {
    if calls == [] then Initial()
    else Apply(c, Run(c, calls[..|calls| - 1]), calls[|calls| - 1]).state
  }

  lemma RunExtends(c: Config, calls: seq<Call>, call: Call)
    ensures Run(c, calls + [call]) == Apply(c, Run(c, calls), call).state
  {
    hide Apply;
    assert (calls + [call])[..|calls|] == calls;
  }
}
