/** The broker's state, its vocabulary, and the pure decisions it takes. */
module BrokerState {
  import opened Order
  import opened Results
  import opened Protocol
  import opened Encoding

  type usize = x: int | 0 <= x <= U64_MAX
  const USIZE_MAX: int := U64_MAX

  datatype Credentials = Credentials(
    pid: u32, uid: u32, gid: u32,
    executable: Option<Text>, securityLabel: Option<Text>, cgroup: Option<Text>)

  datatype ClientHello = ClientHello(clientId: Option<ClientId>, headers: Headers, capabilities: Capabilities)

  /** A connected peer; its identity is its key in the broker's peer map. */
  datatype Peer = Peer(credentials: Credentials, hello: ClientHello, capabilities: Capabilities)

  datatype Action =
    | Connect
    | ClaimNamespace(namespace: Namespace)
    | SubscribeTo(channel: Channel)
    | Publish(channel: Channel)
    | SendPeer(peer: PeerId)
    | SendNamespace(namespace: Namespace)
    | SendClient(clientId: ClientId)
    | SendBroadcast
    | AcknowledgeMessage
    | RegisterDbusName(name: Text)

  datatype Limits = Limits(
    maximumQueuedBytes: usize,
    maximumQueuedMessages: usize,
    maximumInFlightRequests: usize,
    maximumSubscriptions: usize,
    maximumNamespaceClaims: usize)

  datatype Limit = QueuedBytes | QueuedMessages | InFlightRequests | Subscriptions | NamespaceClaims

  datatype BrokerError =
    | UnknownPeer(peer: PeerId)
    | NamespaceAlreadyOwned(namespace: Namespace, owner: PeerId)
    | DbusNameAlreadyOwned(name: Text, owner: PeerId)
    | InvalidDbusName(name: Text)
    | PolicyDenied(action: Action)
    | PeerIdExhausted
    | ReservedHeader(name: Text)
    | NoEligibleRecipient
    | InvalidDelivery
    | DuplicateMessage(id: MessageId)
    | UnknownDelivery(id: MessageId)
    | UnexpectedAcknowledgement(id: MessageId)
    | UnexpectedResponse(id: MessageId)
    | DeadlineOverflow
    | LimitReached(limit: Limit)
    | InvalidPriority

  /** What a broker is created with: a fixed policy, its limits and its capabilities. */
  datatype Config = Config(
    permits: (Credentials, Option<ClientId>, Headers, Action) -> bool,
    limits: Limits,
    capabilities: Capabilities)

  /** A reliable delivery in flight. */
  datatype Pending = Pending(
    sender: PeerId,
    message: Message,
    recipients: set<PeerId>,
    acknowledgements: set<PeerId>,
    responses: map<PeerId, Message>,
    acknowledgementComplete: bool,
    deadline: u64,
    attempts: u8,
    nextRetry: Option<u64>,
    priority: u8)

  /** Work for the daemon; recipients are listed once each in ascending order, so a set describes them. */
  datatype DeliveryEvent =
    | Deliver(sender: PeerId, recipients: set<PeerId>, message: Message)
    | Report(sender: PeerId, id: MessageId, outcome: Outcome)

  datatype LifecycleEvent =
    | PeerConnected(peer: PeerId)
    | PeerDisconnected(peer: PeerId)
    | NamespaceOwnerChanged(namespace: Namespace, previous: Option<PeerId>, current: Option<PeerId>)

  datatype Metrics = Metrics(
    messagesRouted: u64, bytesRouted: u64, timeouts: u64, retries: u64, droppedSignals: u64)

  type Deliveries = map<MessageId, Pending>
  type Subscribers = map<PeerId, seq<HeaderFilter>>

  datatype State = State(
    nextPeer: u64,
    peers: map<PeerId, Peer>,
    namespaces: map<Namespace, PeerId>,
    dbusNames: map<Text, PeerId>,
    subscriptions: map<Channel, Subscribers>,
    deliveries: Deliveries,
    events: seq<LifecycleEvent>,
    metrics: Metrics)

  function Initial(): State
  {
    State(1, map[], map[], map[], map[], map[], [], Metrics(0, 0, 0, 0, 0))
  }

  function SatAdd(a: u64, b: nat): u64
  {
    if a + b > U64_MAX then U64_MAX else a + b
  }

  // ---------- Authorization and header rules ----------

  function Authorize(c: Config, s: State, peer: PeerId, action: Action): Result<(), BrokerError>
  {
    if peer !in s.peers then Err(UnknownPeer(peer))
    else
      var p := s.peers[peer];
      if c.permits(p.credentials, p.hello.clientId, p.hello.headers, action) then Ok(())
      else Err(PolicyDenied(action))
  }

  predicate Reserved(name: Bytes)
  {
    Ascii("auth.") <= name || Ascii("broker.") <= name || Ascii("peer.") <= name
  }

  function ReservedNames(h: Headers): set<Text>
  {
    set name | name in h && Reserved(name)
  }

  /** Rejects the first header name reserved for the broker. */
  function CheckHeaders(h: Headers): Result<(), BrokerError>
  {
    var reserved := ReservedNames(h);
    if reserved == {} then Ok(()) else Err(ReservedHeader(Min(reserved)))
  }

  function PriorityName(): (name: Text)
  {
    NameIsText(Ascii("priority"));
    Ascii("priority")
  }

  function MessagePriority(h: Headers): (r: Result<u8, BrokerError>)
    ensures r.Ok? ==> r.value <= 7
  {
    if PriorityName() !in h then Ok(0)
    else if h[PriorityName()].UnsignedValue? && h[PriorityName()].number <= 7 then Ok(h[PriorityName()].number)
    else Err(InvalidPriority)
  }

  predicate NameStart(b: byte) { 0x41 <= b <= 0x5A || 0x61 <= b <= 0x7A || b == 0x5F }
  predicate NamePart(b: byte) { NameStart(b) || 0x30 <= b <= 0x39 }

  /** Dots only between components, and no component starting with a digit. */
  predicate DbusByte(name: Bytes, i: nat)
    requires i < |name|
  {
    if name[i] == 0x2E then 0 < i < |name| - 1 && name[i - 1] != 0x2E
    else if i == 0 || name[i - 1] == 0x2E then NameStart(name[i])
    else NamePart(name[i])
  }

  predicate ValidDbusName(name: Bytes)
  {
    0 < |name| <= 255 && forall i :: 0 <= i < |name| ==> DbusByte(name, i)
  }

  // ---------- Routing ----------

  predicate FilterMatches(f: HeaderFilter, h: Headers)
  {
    match f
    case Exists(name) => name in h
    case NotExists(name) => name !in h
    case Equal(name, value) => name in h && h[name] == value
    case NotEqual(name, value) => !(name in h && h[name] == value)
    case Prefix(name, value) =>
      && name in h
      && ((h[name].TextValue? && value.TextValue? && value.text <= h[name].text)
          || (h[name].BinaryValue? && value.BinaryValue? && value.data <= h[name].data))
  }

  predicate FiltersMatch(filters: seq<HeaderFilter>, h: Headers)
  {
    forall i :: 0 <= i < |filters| ==> FilterMatches(filters[i], h)
  }

  /** The action a sender must be permitted for a destination. */
  function SendAction(d: Destination): Option<Action>
  {
    match d
    case ToBroker => None
    case ToPeer(p) => Some(SendPeer(p))
    case ToNamespace(n) => Some(SendNamespace(n))
    case ToChannel(ch) => Some(Publish(ch))
    case ToClient(id, _) => Some(SendClient(id))
    case Broadcast => Some(SendBroadcast)
  }

  /** The connected peers a destination selects. */
  function Selected(s: State, sender: PeerId, d: Destination, h: Headers): set<PeerId>
  {
    match d
    case ToBroker => {}
    case ToPeer(p) => if p in s.peers then {p} else {}
    case ToNamespace(n) => if n in s.namespaces then {s.namespaces[n]} else {}
    case ToChannel(ch) =>
      if ch in s.subscriptions then
        set p | p in s.subscriptions[ch] && FiltersMatch(s.subscriptions[ch][p], h)
      else {}
    case ToClient(id, selection) =>
      var matching := set p | p in s.peers && s.peers[p].hello.clientId == Some(id);
      if matching == {} || selection == All then matching else {Least(matching)}
    case Broadcast => s.peers.Keys - {sender}
  }

  function Route(c: Config, s: State, sender: PeerId, d: Destination, h: Headers): Result<set<PeerId>, BrokerError>
  {
    if sender !in s.peers then Err(UnknownPeer(sender))
    else if SendAction(d).None? then Err(NoEligibleRecipient)
    else
      var _ :- Authorize(c, s, sender, SendAction(d).value);
      var selected := Selected(s, sender, d, h);
      if selected == {} && !d.ToChannel? && !d.Broadcast? then Err(NoEligibleRecipient) else Ok(selected)
  }

  // ---------- Acknowledgement requirements ----------

  predicate RequirementPossible(r: AckRequirement, recipients: nat)
  {
    match r
    case NoneRequired => true
    case AnyOne => recipients != 0
    case AllOf => recipients != 0
    case Minimum(n) => recipients >= n
  }

  predicate RequirementMet(r: AckRequirement, acknowledgements: nat, recipients: nat)
  {
    match r
    case NoneRequired => true
    case AnyOne => acknowledgements != 0
    case AllOf => acknowledgements == recipients
    case Minimum(n) => acknowledgements >= n
  }

  predicate AcknowledgementSatisfies(required: AckPolicy, actual: AckPolicy)
  {
    || (required.Received? && (actual.Received? || actual.Processed?))
    || (required.Processed? && actual.Processed?)
  }

  /** Messages the broker keeps until they complete. */
  predicate IsTracked(m: Message) { m.kind == Request || WantsAck(m.ackPolicy) }

  // ---------- Retry schedule ----------

  function Pow2(n: nat): (p: nat)
    ensures p >= 1
  {
    if n == 0 then 1 else 2 * Pow2(n - 1)
  }

  function SatMul(a: u64, b: u64): u64
  {
    if a * b > U64_MAX then U64_MAX else a * b
  }

  /** The delay after attempt number `attempts`, with the shift and the product capped. */
  function Backoff(initial: u32, attempts: u8): (delay: u64)
    ensures delay <= 60_000
  {
    var shift := if attempts == 0 then 0 else if attempts - 1 > 16 then 16 else attempts - 1;
    Pow2AtMost16(shift);
    var delay := SatMul(initial, Pow2(shift));
    if delay > 60_000 then 60_000 else delay
  }

  lemma {:induction false} Pow2AtMost16(n: nat)
    requires n <= 16
    ensures Pow2(n) <= 0x1_0000
  {
    Pow2Grows(n, 16);
    assert Pow2(4) == 16 && Pow2(8) == 16 * Pow2(4) && Pow2(12) == 16 * Pow2(8) && Pow2(16) == 16 * Pow2(12);
  }

  lemma {:induction false} Pow2Grows(m: nat, n: nat)
    requires m <= n
    ensures Pow2(m) <= Pow2(n)
    decreases n - m
  {
    if m < n {
      Pow2Grows(m + 1, n);
    }
  }

  /** When the next attempt is due after attempt number `attempts` made at `now`. */
  function RetryNext(retry: RetryPolicy, now: u64, attempts: u8): Option<u64>
  {
    match retry
    case NoRetry => None
    case Exponential(initial, max) =>
      if attempts >= max then Some(now) else Some(SatAdd(now, Backoff(initial, attempts)))
  }

  // ---------- Per-sender budgets ----------

  function ValueBytes(v: HeaderValue): nat
  {
    match v
    case TextValue(t) => |t|
    case UnsignedValue(_) => 8
    case BooleanValue(_) => 1
    case BinaryValue(d) => |d|
  }

  function HeaderBytes(h: Headers): nat
    decreases |h|
  {
    if h == map[] then 0
    else
      var name := Min(h.Keys);
      |name| + ValueBytes(h[name]) + HeaderBytes(h - {name})
  }

  function DeliveryBytes(m: Message): usize
  {
    if |m.payload| + HeaderBytes(m.headers) > USIZE_MAX then USIZE_MAX else |m.payload| + HeaderBytes(m.headers)
  }

  /** The deliveries a sender has in flight. */
  function QueuedFor(d: Deliveries, sender: PeerId): Deliveries
  {
    map id | id in d && d[id].sender == sender :: d[id]
  }

  function TotalBytes(d: Deliveries): nat
    decreases |d|
  {
    if d == map[] then 0
    else
      var id := Min(d.Keys);
      DeliveryBytes(d[id].message) + TotalBytes(d - {id})
  }

  function Requests(d: Deliveries): set<MessageId>
  {
    set id | id in d && d[id].message.kind == Request
  }

  /** Whether a sender whose deliveries in flight are `queued` may have one more. */
  function CheckCapacity(limits: Limits, queued: Deliveries, m: Message): Result<(), BrokerError>
  {
    if |queued| >= limits.maximumQueuedMessages then Err(LimitReached(QueuedMessages))
    else if Saturated(TotalBytes(queued) + DeliveryBytes(m)) > limits.maximumQueuedBytes then
      Err(LimitReached(QueuedBytes))
    else if m.kind == Request && |Requests(queued)| >= limits.maximumInFlightRequests then
      Err(LimitReached(InFlightRequests))
    else Ok(())
  }

  function Saturated(n: nat): usize { if n > USIZE_MAX then USIZE_MAX else n }
}
