/**
 What the BUS/1-preview encoder writes: for every piece of a frame either its
 bytes or the first error the encoder meets.
 */
module Encoding {
  import opened Order
  import opened Results
  import opened Protocol

  type Encoded = Result<Bytes, CodecError>

  // ---------- Integers, text and binary data ----------

  function U16(n: u16): Bytes { [n / 0x100, n % 0x100] }
  function U32(n: u32): Bytes { U16(n / 0x1_0000) + U16(n % 0x1_0000) }
  function U64(n: u64): Bytes { U32(n / 0x1_0000_0000) + U32(n % 0x1_0000_0000) }

  function EncText(s: Bytes): Encoded
  {
    if |s| > U16_MAX then Err(LimitExceededError("text length")) else Ok(U16(|s|) + s)
  }

  function EncName(s: Bytes): Encoded
  {
    if !ValidName(s) then Err(InvalidName(NameError.Invalid)) else EncText(s)
  }

  function EncBinary(s: Bytes): Encoded
  {
    if |s| > U32_MAX then Err(LimitExceededError("binary length")) else Ok(U32(|s|) + s)
  }

  // ---------- Headers, capabilities and filters ----------

  function EncValue(v: HeaderValue): Encoded
  {
    match v
    case TextValue(s) => var e :- EncText(s); Ok([0] + e)
    case UnsignedValue(n) => Ok([1] + U64(n))
    case BooleanValue(b) => Ok([2, if b then 1 else 0])
    case BinaryValue(s) => var e :- EncBinary(s); Ok([3] + e)
  }

  function EncEntry(name: Bytes, value: HeaderValue): Encoded
  {
    var n :- EncName(name);
    var v :- EncValue(value);
    Ok(n + v)
  }

  /** The entries of a header map in ascending order of their names. */
  function EncEntries(h: Headers): Encoded
    decreases |h|
  {
    if h == map[] then Ok([])
    else
      var name := Min(h.Keys);
      var first :- EncEntry(name, h[name]);
      var others :- EncEntries(h - {name});
      Ok(first + others)
  }

  function EncHeaders(h: Headers, limits: FrameLimits): Encoded
  {
    if |h| > limits.maximumHeaders || |h| > U16_MAX then Err(LimitExceededError("header count"))
    else
      var entries :- EncEntries(h);
      Ok(U16(|h|) + entries)
  }

  /** Names in ascending order. */
  function EncNames(s: Capabilities): Encoded
    decreases |s|
  {
    if s == {} then Ok([])
    else
      var first :- EncName(Min(s));
      var others :- EncNames(s - {Min(s)});
      Ok(first + others)
  }

  function EncCapabilities(s: Capabilities, limits: FrameLimits): Encoded
  {
    if |s| > limits.maximumCapabilities || |s| > U16_MAX then Err(LimitExceededError("capability count"))
    else
      var names :- EncNames(s);
      Ok(U16(|s|) + names)
  }

  function FilterTag(f: HeaderFilter): u8
  {
    match f
    case Exists(_) => 0
    case NotExists(_) => 1
    case Equal(_, _) => 2
    case NotEqual(_, _) => 3
    case Prefix(_, _) => 4
  }

  function EncFilter(f: HeaderFilter): Encoded
  {
    var n :- EncName(f.name);
    if f.Exists? || f.NotExists? then Ok([FilterTag(f)] + n)
    else
      var v :- EncValue(f.value);
      Ok([FilterTag(f)] + n + v)
  }

  function EncEach(filters: seq<HeaderFilter>): Result<seq<Bytes>, CodecError>
  {
    if filters == [] then Ok([])
    else
      var first :- EncFilter(filters[0]);
      var others :- EncEach(filters[1..]);
      Ok([first] + others)
  }

  predicate Increasing(items: seq<Bytes>)
  {
    forall i :: 0 <= i < |items| - 1 ==> Less(items[i], items[i + 1])
  }

  function Concat(items: seq<Bytes>): Bytes
  {
    if items == [] then [] else items[0] + Concat(items[1..])
  }

  function EncFilters(filters: seq<HeaderFilter>, limits: FrameLimits): Encoded
  {
    if |filters| > limits.maximumFilters then Err(LimitExceededError("filter count"))
    else
      var items :- EncEach(filters);
      if !Increasing(items) then Err(NonCanonicalError("filters"))
      else if |items| > U16_MAX then Err(LimitExceededError("filter count"))
      else Ok(U16(|items|) + Concat(items))
  }

  // ---------- Enumerations ----------

  function KindTag(k: MessageKind): u8
  {
    match k case Signal => 0 case Request => 1 case Response => 2
  }

  function AckPolicyTag(p: AckPolicy): u8
  {
    match p case NoAck => 0 case Accepted => 1 case Received => 2 case Processed => 3
  }

  function RequestPolicyTag(p: RequestPolicy): u8
  {
    match p case Exact => 0 case First => 1 case FirstSuccess => 2 case AllResponses => 3
  }

  function OutcomeTag(o: Outcome): u8
  {
    match o
    case Accepted => 0 case Received => 1 case Processed => 2 case Timeout => 3
    case NoRecipient => 4 case RecipientDisconnected => 5 case DeliveryFailed => 6
  }

  function StatusTag(s: Status): u8
  {
    match s
    case Success => 0 case Error => 1 case Unsupported => 2
    case Denied => 3 case Busy => 4 case NotFound => 5
  }

  function ErrorCodeTag(c: ErrorCode): u8
  {
    match c
    case MalformedFrame => 0 case UnsupportedVersion => 1 case UnknownFrameKind => 2
    case LimitExceeded => 3 case NonCanonical => 4 case InvalidState => 5 case NoRecipient => 6
  }

  function SelectionTag(s: ClientSelection): u8
  {
    match s case First => 0 case Any => 1 case All => 2
  }

  function OperationTag(o: ControlOperation): u8
  {
    match o case Claim => 0 case Subscribe => 1 case Unsubscribe => 2
  }

  // ---------- Message envelope ----------

  function EncAckRequirement(a: AckRequirement): Encoded
  {
    match a
    case NoneRequired => Ok([0])
    case AnyOne => Ok([1])
    case AllOf => Ok([2])
    case Minimum(n) => if n == 0 then Err(InvalidValue("acknowledgement minimum")) else Ok([3] + U16(n))
  }

  function EncRetry(r: RetryPolicy): Encoded
  {
    match r
    case NoRetry => Ok([0])
    case Exponential(initial, max) =>
      if initial == 0 || max < 2 then Err(InvalidValue("retry policy"))
      else Ok([1] + U32(initial) + [max])
  }

  function EncDestination(d: Destination): Encoded
  {
    match d
    case ToBroker => Ok([0])
    case ToPeer(p) => if p == 0 then Err(InvalidValue("peer ID")) else Ok([1] + U64(p))
    case ToNamespace(n) => var e :- EncText(n); Ok([2] + e)
    case ToChannel(c) => var e :- EncName(c); Ok([3] + e)
    case Broadcast => Ok([4])
    case ToClient(id, selection) => var e :- EncName(id); Ok([5] + e + [SelectionTag(selection)])
  }

  predicate WantsAck(p: AckPolicy) { p.Received? || p.Processed? }

  /** The first rule on acknowledgement, retry and deadline options that `m` breaks, if any. */
  function CheckOptions(m: Message): Option<CodecError>
  {
    if !WantsAck(m.ackPolicy) && m.ackRequirement != NoneRequired then
      Some(NonCanonicalError("acknowledgement requirement"))
    else if WantsAck(m.ackPolicy) && m.ackRequirement == NoneRequired then
      Some(InvalidValue("acknowledgement requirement"))
    else if WantsAck(m.ackPolicy) && m.deadline == 0 then
      Some(InvalidValue("acknowledgement deadline"))
    else if m.retry != NoRetry && m.kind != Request && !WantsAck(m.ackPolicy) then
      Some(InvalidValue("retry acknowledgement policy"))
    else if m.kind != Request && m.requestPolicy != Exact then
      Some(NonCanonicalError("non-request routing policy"))
    else if m.kind == Request && m.deadline == 0 then
      Some(InvalidValue("request deadline"))
    else if m.kind == Response && (m.deadline != 0 || m.retry != NoRetry) then
      Some(NonCanonicalError("response delivery options"))
    else None
  }

  /** The first rule on identifiers and status that `m` breaks, if any. */
  function CheckIdentity(m: Message): Option<CodecError>
  {
    if m.id == Absent() then Some(InvalidValue("message ID"))
    else if m.kind == Response then
      if m.correlationId == Absent() then Some(InvalidValue("response correlation ID")) else None
    else if m.correlationId != Absent() then Some(NonCanonicalError("non-response correlation ID"))
    else if m.status != Success then Some(InvalidValue("non-response status"))
    else None
  }

  /** Everything before the destination. */
  function EncOptions(m: Message): Encoded
  {
    var requirement :- EncAckRequirement(m.ackRequirement);
    var retry :- EncRetry(m.retry);
    Ok([KindTag(m.kind), AckPolicyTag(m.ackPolicy)] + requirement
       + [RequestPolicyTag(m.requestPolicy)] + U32(m.deadline) + retry)
  }

  /** Everything before the headers. */
  function EncEnvelope(m: Message): Encoded
  {
    var options :- EncOptions(m);
    var destination :- EncDestination(m.destination);
    Ok(options + destination + m.id + m.correlationId + [StatusTag(m.status)])
  }

  function EncMessage(m: Message, limits: FrameLimits): Encoded
  {
    if CheckOptions(m).Some? then Err(CheckOptions(m).value)
    else if CheckIdentity(m).Some? then Err(CheckIdentity(m).value)
    else
      var envelope :- EncEnvelope(m);
      var headers :- EncHeaders(m.headers, limits);
      var payload :- EncBinary(m.payload);
      Ok(envelope + headers + payload)
  }

  // ---------- Frames ----------

  function KindOf(f: Frame): u8
  {
    match f
    case Hello(_, _, _) => 1
    case Welcome(_, _) => 2
    case ClaimFrame(_, _) => 3
    case SubscribeFrame(_, _) => 4
    case UnsubscribeFrame(_) => 5
    case MessageFrame(_) => 6
    case ProtocolError(_, _) => 7
    case ControlResult(_) => 8
    case ResolveNamespace(_) => 9
    case NamespaceResolved(_, _) => 10
    case Acknowledge(_, _) => 11
    case DeliveryResult(_, _) => 12
  }

  function EncOptionalName(id: Option<ClientId>): Encoded
  {
    match id
    case None => Ok([0])
    case Some(name) => var e :- EncName(name); Ok([1] + e)
  }

  function EncOwner(owner: Option<PeerId>): Encoded
  {
    match owner
    case None => Ok([0])
    case Some(p) => if p == 0 then Err(InvalidValue("peer ID")) else Ok([1] + U64(p))
  }

  function EncBody(f: Frame, limits: FrameLimits): Encoded
  {
    match f
    case Hello(id, headers, capabilities) =>
      var i :- EncOptionalName(id);
      var h :- EncHeaders(headers, limits);
      var c :- EncCapabilities(capabilities, limits);
      Ok(i + h + c)
    case Welcome(peer, capabilities) =>
      if peer == 0 then Err(InvalidValue("peer ID"))
      else
        var c :- EncCapabilities(capabilities, limits);
        Ok(U64(peer) + c)
    case ClaimFrame(namespace, headers) =>
      var n :- EncText(namespace);
      var h :- EncHeaders(headers, limits);
      Ok(n + h)
    case SubscribeFrame(channel, filters) =>
      var n :- EncName(channel);
      var x :- EncFilters(filters, limits);
      Ok(n + x)
    case UnsubscribeFrame(channel) => EncName(channel)
    case MessageFrame(m) => EncMessage(m, limits)
    case ProtocolError(code, text) =>
      var t :- EncText(text);
      Ok([ErrorCodeTag(code)] + t)
    case ControlResult(operation) => Ok([OperationTag(operation)])
    case ResolveNamespace(namespace) => EncText(namespace)
    case NamespaceResolved(namespace, owner) =>
      var n :- EncText(namespace);
      var o :- EncOwner(owner);
      Ok(n + o)
    case Acknowledge(id, policy) =>
      if id == Absent() || !WantsAck(policy) then Err(InvalidValue("acknowledgement"))
      else Ok(id + [AckPolicyTag(policy)])
    case DeliveryResult(id, outcome) =>
      if id == Absent() then Err(InvalidValue("message ID"))
      else Ok(id + [OutcomeTag(outcome)])
  }

  const HEADER_SIZE := 12
  const VERSION: u8 := 3

  /** The 12-byte common header: magic `BUS1`, version, kind, zero flags, body length. */
  function CommonHeader(kind: u8, length: u32): (h: Bytes)
    ensures |h| == HEADER_SIZE
  {
    [0x42, 0x55, 0x53, 0x31, VERSION, kind, 0, 0] + U32(length)
  }

  /** The one complete packet of a frame, or why it has none under `limits`. */
  function Encode(f: Frame, limits: FrameLimits): Encoded
  {
    var body :- EncBody(f, limits);
    if HEADER_SIZE + |body| > limits.maximumFrameSize || |body| > U32_MAX then Err(FrameTooLarge)
    else Ok(CommonHeader(KindOf(f), |body|) + body)
  }
}
