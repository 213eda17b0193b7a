/** What the BUS/1-preview decoder reads from the bytes still unread. */
module Decoding {
  import opened Order
  import opened Results
  import opened Protocol
  import opened Encoding
  import Utf8

  /** A value together with the bytes left after it, or the error that stopped the reader. */
  datatype Parse<+T> = Done(value: T, rest: Bytes) | Fail(error: CodecError) {

    predicate IsFailure() { Fail? }

    function PropagateFailure<U>(): Parse<U>
      requires Fail?
    {
      Fail(error)
    }

    function Extract(): (T, Bytes)
      requires Done?
    {
      (value, rest)
    }
  }

  function Lift<T>(r: Result<T, CodecError>, rest: Bytes): Parse<T>
  {
    match r case Ok(v) => Done(v, rest) case Err(e) => Fail(e)
  }

  // ---------- Integers, text and binary data ----------

  function Take(b: Bytes, n: nat): Parse<Bytes>
  {
    if n <= |b| then Done(b[..n], b[n..]) else Fail(Truncated)
  }

  function ParseU8(b: Bytes): Parse<u8>
  {
    if |b| < 1 then Fail(Truncated) else Done(b[0], b[1..])
  }

  function ParseU16(b: Bytes): Parse<u16>
  {
    if |b| < 2 then Fail(Truncated) else Done(b[0] as int * 0x100 + b[1], b[2..])
  }

  function ParseU32(b: Bytes): Parse<u32>
  {
    var (high, b1) :- ParseU16(b);
    var (low, b2) :- ParseU16(b1);
    Done(high * 0x1_0000 + low, b2)
  }

  function ParseU64(b: Bytes): Parse<u64>
  {
    var (high, b1) :- ParseU32(b);
    var (low, b2) :- ParseU32(b1);
    Done(high * 0x1_0000_0000 + low, b2)
  }

  function ParseId(b: Bytes): Parse<MessageId>
  {
    if |b| < 16 then Fail(Truncated) else Done(b[..16], b[16..])
  }

  function ParseText(b: Bytes): Parse<Text>
  {
    var (n, b1) :- ParseU16(b);
    var (s, b2) :- Take(b1, n);
    if Utf8.Valid(s) then Done(s, b2) else Fail(InvalidUtf8)
  }

  function ParseName(b: Bytes): (p: Parse<Text>)
    ensures p.Done? ==> ValidName(p.value)
  {
    var (s, b1) :- ParseText(b);
    if ValidName(s) then Done(s, b1) else Fail(InvalidName(NameError.Invalid))
  }

  function ParseNamespace(b: Bytes): Parse<Namespace>
  {
    var (s, b1) :- ParseText(b);
    if !(Scheme() <= s) then Fail(InvalidName(MissingNamespaceScheme))
    else if !ValidName(s[|Scheme()|..]) then Fail(InvalidName(NameError.Invalid))
    else Done(s, b1)
  }

  function ParseBinary(b: Bytes): Parse<Bytes>
  {
    var (n, b1) :- ParseU32(b);
    Take(b1, n)
  }

  // ---------- Headers, capabilities and filters ----------

  function ParseValue(b: Bytes): Parse<HeaderValue>
  {
    var (tag, b1) :- ParseU8(b);
    match tag
    case 0 => var (s, b2) :- ParseText(b1); Done(TextValue(s), b2)
    case 1 => var (n, b2) :- ParseU64(b1); Done(UnsignedValue(n), b2)
    case 2 =>
      var (flag, b2) :- ParseU8(b1);
      if flag == 0 then Done(BooleanValue(false), b2)
      else if flag == 1 then Done(BooleanValue(true), b2)
      else Fail(InvalidValue("boolean"))
    case 3 => var (s, b2) :- ParseBinary(b1); Done(BinaryValue(s), b2)
    case _ => Fail(InvalidValue("header value tag"))
  }

  /** True when `name` does not come after the name read just before it. */
  predicate OutOfOrder(previous: Option<Bytes>, name: Bytes)
  {
    previous.Some? && !Less(previous.value, name)
  }

  function ParseEntry(previous: Option<Bytes>, b: Bytes): Parse<(Text, HeaderValue)>
  {
    var (name, b1) :- ParseName(b);
    if OutOfOrder(previous, name) then Fail(NonCanonicalError("headers"))
    else
      var (value, b2) :- ParseValue(b1);
      Done((name, value), b2)
  }

  function WithEntry(name: Text, value: HeaderValue, others: Headers): Headers
  {
    map[name := value] + others
  }

  function ParseEntries(n: nat, previous: Option<Bytes>, b: Bytes): Parse<Headers>
  {
    if n == 0 then Done(map[], b)
    else
      var (entry, b1) :- ParseEntry(previous, b);
      var (others, b2) :- ParseEntries(n - 1, Some(entry.0), b1);
      Done(WithEntry(entry.0, entry.1, others), b2)
  }

  function ParseHeaders(b: Bytes, limits: FrameLimits): Parse<Headers>
  {
    var (n, b1) :- ParseU16(b);
    if n > limits.maximumHeaders then Fail(LimitExceededError("header count"))
    else ParseEntries(n, None, b1)
  }

  function ParseNames(n: nat, previous: Option<Bytes>, b: Bytes): Parse<Capabilities>
  {
    if n == 0 then Done({}, b)
    else
      var (name, b1) :- ParseName(b);
      if OutOfOrder(previous, name) then Fail(NonCanonicalError("capabilities"))
      else
        var (others, b2) :- ParseNames(n - 1, Some(name), b1);
        Done({name} + others, b2)
  }

  function ParseCapabilities(b: Bytes, limits: FrameLimits): Parse<Capabilities>
  {
    var (n, b1) :- ParseU16(b);
    if n > limits.maximumCapabilities then Fail(LimitExceededError("capability count"))
    else ParseNames(n, None, b1)
  }

  function ParseFilter(b: Bytes): Parse<HeaderFilter>
  {
    var (tag, b1) :- ParseU8(b);
    var (name, b2) :- ParseName(b1);
    match tag
    case 0 => Done(Exists(name), b2)
    case 1 => Done(NotExists(name), b2)
    case 2 => var (v, b3) :- ParseValue(b2); Done(Equal(name, v), b3)
    case 3 => var (v, b3) :- ParseValue(b2); Done(NotEqual(name, v), b3)
    case 4 => var (v, b3) :- ParseValue(b2); Done(Prefix(name, v), b3)
    case _ => Fail(InvalidValue("filter tag"))
  }

  /** The bytes read between two reader positions. */
  function Consumed(b: Bytes, rest: Bytes): Bytes
  {
    if |rest| <= |b| then b[..|b| - |rest|] else []
  }

  /** One filter together with the bytes it was read from. */
  function ParseItem(previous: Option<Bytes>, b: Bytes): Parse<(HeaderFilter, Bytes)>
  {
    var (filter, b1) :- ParseFilter(b);
    var item := Consumed(b, b1);
    if OutOfOrder(previous, item) then Fail(NonCanonicalError("filters")) else Done((filter, item), b1)
  }

  function ParseFilterList(n: nat, previous: Option<Bytes>, b: Bytes): Parse<seq<HeaderFilter>>
  {
    if n == 0 then Done([], b)
    else
      var (item, b1) :- ParseItem(previous, b);
      var (others, b2) :- ParseFilterList(n - 1, Some(item.1), b1);
      Done([item.0] + others, b2)
  }

  function ParseFilters(b: Bytes, limits: FrameLimits): Parse<seq<HeaderFilter>>
  {
    var (n, b1) :- ParseU16(b);
    if n > limits.maximumFilters then Fail(LimitExceededError("filter count"))
    else ParseFilterList(n, None, b1)
  }

  // ---------- Enumerations ----------

  function DecodeKind(t: u8): Result<MessageKind, CodecError>
  {
    match t
    case 0 => Ok(Signal) case 1 => Ok(Request) case 2 => Ok(Response)
    case _ => Err(InvalidValue("message kind"))
  }

  function DecodeAckPolicy(t: u8): Result<AckPolicy, CodecError>
  {
    match t
    case 0 => Ok(NoAck) case 1 => Ok(AckPolicy.Accepted)
    case 2 => Ok(AckPolicy.Received) case 3 => Ok(AckPolicy.Processed)
    case _ => Err(InvalidValue("acknowledgement policy"))
  }

  function DecodeRequestPolicy(t: u8): Result<RequestPolicy, CodecError>
  {
    match t
    case 0 => Ok(Exact) case 1 => Ok(RequestPolicy.First)
    case 2 => Ok(FirstSuccess) case 3 => Ok(AllResponses)
    case _ => Err(InvalidValue("request routing policy"))
  }

  function DecodeOutcome(t: u8): Result<Outcome, CodecError>
  {
    match t
    case 0 => Ok(Outcome.Accepted) case 1 => Ok(Outcome.Received) case 2 => Ok(Outcome.Processed)
    case 3 => Ok(Timeout) case 4 => Ok(Outcome.NoRecipient)
    case 5 => Ok(RecipientDisconnected) case 6 => Ok(DeliveryFailed)
    case _ => Err(InvalidValue("delivery outcome"))
  }

  function DecodeStatus(t: u8): Result<Status, CodecError>
  {
    match t
    case 0 => Ok(Success) case 1 => Ok(Error) case 2 => Ok(Unsupported)
    case 3 => Ok(Denied) case 4 => Ok(Busy) case 5 => Ok(NotFound)
    case _ => Err(InvalidValue("status"))
  }

  function DecodeErrorCode(t: u8): Result<ErrorCode, CodecError>
  {
    match t
    case 0 => Ok(MalformedFrame) case 1 => Ok(UnsupportedVersion) case 2 => Ok(UnknownFrameKind)
    case 3 => Ok(LimitExceeded) case 4 => Ok(NonCanonical) case 5 => Ok(InvalidState)
    case 6 => Ok(ErrorCode.NoRecipient)
    case _ => Err(InvalidValue("protocol error code"))
  }

  function DecodeSelection(t: u8): Result<ClientSelection, CodecError>
  {
    match t
    case 0 => Ok(ClientSelection.First) case 1 => Ok(Any) case 2 => Ok(All)
    case _ => Err(InvalidValue("client selection"))
  }

  function DecodeOperation(t: u8): Result<ControlOperation, CodecError>
  {
    match t
    case 0 => Ok(Claim) case 1 => Ok(Subscribe) case 2 => Ok(Unsubscribe)
    case _ => Err(InvalidValue("control operation"))
  }

  // ---------- Message envelope ----------

  function ParseAckRequirement(b: Bytes): Parse<AckRequirement>
  {
    var (tag, b1) :- ParseU8(b);
    match tag
    case 0 => Done(NoneRequired, b1)
    case 1 => Done(AnyOne, b1)
    case 2 => Done(AllOf, b1)
    case 3 =>
      var (n, b2) :- ParseU16(b1);
      if n == 0 then Fail(InvalidValue("acknowledgement minimum")) else Done(Minimum(n), b2)
    case _ => Fail(InvalidValue("acknowledgement requirement"))
  }

  function ParseRetry(b: Bytes): Parse<RetryPolicy>
  {
    var (tag, b1) :- ParseU8(b);
    match tag
    case 0 => Done(NoRetry, b1)
    case 1 =>
      var (initial, b2) :- ParseU32(b1);
      var (max, b3) :- ParseU8(b2);
      if initial == 0 || max < 2 then Fail(InvalidValue("retry policy"))
      else Done(Exponential(initial, max), b3)
    case _ => Fail(InvalidValue("retry policy"))
  }

  function ParseDestination(b: Bytes): Parse<Destination>
  {
    var (tag, b1) :- ParseU8(b);
    match tag
    case 0 => Done(ToBroker, b1)
    case 1 =>
      var (p, b2) :- ParseU64(b1);
      if p == 0 then Fail(InvalidValue("peer ID")) else Done(ToPeer(p), b2)
    case 2 => var (n, b2) :- ParseNamespace(b1); Done(ToNamespace(n), b2)
    case 3 => var (c, b2) :- ParseName(b1); Done(ToChannel(c), b2)
    case 4 => Done(Broadcast, b1)
    case 5 =>
      var (id, b2) :- ParseName(b1);
      var (t, b3) :- ParseU8(b2);
      var (selection, b4) :- Lift(DecodeSelection(t), b3);
      Done(ToClient(id, selection), b4)
    case _ => Fail(InvalidValue("destination selector"))
  }

  /** Everything before the destination, as a message whose other fields are placeholders. */
  function ParseOptions(b: Bytes): Parse<Message>
  {
    var (t1, b1) :- ParseU8(b);
    var (kind, _) :- Lift(DecodeKind(t1), b1);
    var (t2, b2) :- ParseU8(b1);
    var (ackPolicy, _) :- Lift(DecodeAckPolicy(t2), b2);
    var (requirement, b3) :- ParseAckRequirement(b2);
    var (t4, b4) :- ParseU8(b3);
    var (requestPolicy, _) :- Lift(DecodeRequestPolicy(t4), b4);
    var (deadline, b5) :- ParseU32(b4);
    var (retry, b6) :- ParseRetry(b5);
    Done(Message(kind, ackPolicy, requirement, requestPolicy, deadline, retry,
                 ToBroker, Absent(), Absent(), Success, map[], []), b6)
  }

  /** Everything before the headers. */
  function ParseEnvelope(b: Bytes): Parse<Message>
  {
    var (options, b1) :- ParseOptions(b);
    var (destination, b2) :- ParseDestination(b1);
    var (id, b3) :- ParseId(b2);
    var (correlationId, b4) :- ParseId(b3);
    var (t, b5) :- ParseU8(b4);
    var (status, b6) :- Lift(DecodeStatus(t), b5);
    Done(options.(destination := destination, id := id, correlationId := correlationId, status := status), b6)
  }

  function ParseMessage(b: Bytes, limits: FrameLimits): Parse<Message>
  {
    var (m, b1) :- ParseEnvelope(b);
    if CheckOptions(m).Some? then Fail(CheckOptions(m).value)
    else if CheckIdentity(m).Some? then Fail(CheckIdentity(m).value)
    else
      var (headers, b2) :- ParseHeaders(b1, limits);
      var (payload, b3) :- ParseBinary(b2);
      Done(m.(headers := headers, payload := payload), b3)
  }

  // ---------- Frames ----------

  function ParseOptionalName(b: Bytes): Parse<Option<ClientId>>
  {
    var (marker, b1) :- ParseU8(b);
    if marker == 0 then Done(None, b1)
    else if marker == 1 then
      var (name, b2) :- ParseName(b1);
      Done(Some(name), b2)
    else Fail(InvalidValue("HELLO client ID marker"))
  }

  function ParseHello(b: Bytes, limits: FrameLimits): Parse<Frame>
  {
    var (id, b1) :- ParseOptionalName(b);
    var (headers, b2) :- ParseHeaders(b1, limits);
    var (capabilities, b3) :- ParseCapabilities(b2, limits);
    Done(Hello(id, headers, capabilities), b3)
  }

  function ParseWelcome(b: Bytes, limits: FrameLimits): Parse<Frame>
  {
    var (peer, b1) :- ParseU64(b);
    if peer == 0 then Fail(InvalidValue("peer ID"))
    else
      var (capabilities, b2) :- ParseCapabilities(b1, limits);
      Done(Welcome(peer, capabilities), b2)
  }

  function ParseNamespaceResolved(b: Bytes): Parse<Frame>
  {
    var (namespace, b1) :- ParseNamespace(b);
    var (marker, b2) :- ParseU8(b1);
    if marker == 0 then Done(NamespaceResolved(namespace, None), b2)
    else if marker == 1 then
      var (peer, b3) :- ParseU64(b2);
      if peer == 0 then Fail(InvalidValue("peer ID"))
      else Done(NamespaceResolved(namespace, Some(peer)), b3)
    else Fail(InvalidValue("namespace owner marker"))
  }

  function ParseAcknowledge(b: Bytes): Parse<Frame>
  {
    var (id, b1) :- ParseId(b);
    var (t, b2) :- ParseU8(b1);
    var (policy, _) :- Lift(DecodeAckPolicy(t), b2);
    if id == Absent() || !WantsAck(policy) then Fail(InvalidValue("acknowledgement"))
    else Done(Acknowledge(id, policy), b2)
  }

  function ParseDeliveryResult(b: Bytes): Parse<Frame>
  {
    var (id, b1) :- ParseId(b);
    if id == Absent() then Fail(InvalidValue("message ID"))
    else
      var (t, b2) :- ParseU8(b1);
      var (outcome, _) :- Lift(DecodeOutcome(t), b2);
      Done(DeliveryResult(id, outcome), b2)
  }

  function ParseBody(kind: u8, b: Bytes, limits: FrameLimits): Parse<Frame>
  {
    match kind
    case 1 => ParseHello(b, limits)
    case 2 => ParseWelcome(b, limits)
    case 3 =>
      var (namespace, b1) :- ParseNamespace(b);
      var (headers, b2) :- ParseHeaders(b1, limits);
      Done(ClaimFrame(namespace, headers), b2)
    case 4 =>
      var (channel, b1) :- ParseName(b);
      var (filters, b2) :- ParseFilters(b1, limits);
      Done(SubscribeFrame(channel, filters), b2)
    case 5 => var (channel, b1) :- ParseName(b); Done(UnsubscribeFrame(channel), b1)
    case 6 => var (m, b1) :- ParseMessage(b, limits); Done(MessageFrame(m), b1)
    case 7 =>
      var (t, b1) :- ParseU8(b);
      var (code, _) :- Lift(DecodeErrorCode(t), b1);
      var (text, b2) :- ParseText(b1);
      Done(ProtocolError(code, text), b2)
    case 8 =>
      var (t, b1) :- ParseU8(b);
      var (operation, _) :- Lift(DecodeOperation(t), b1);
      Done(ControlResult(operation), b1)
    case 9 => var (namespace, b1) :- ParseNamespace(b); Done(ResolveNamespace(namespace), b1)
    case 10 => ParseNamespaceResolved(b)
    case 11 => ParseAcknowledge(b)
    case 12 => ParseDeliveryResult(b)
    case _ => Fail(UnknownFrameKindError(kind))
  }

  /** The frame a complete packet stands for, or why it stands for none under `limits`. */
  function Decode(packet: Bytes, limits: FrameLimits): Result<Frame, CodecError>
  {
    if |packet| < HEADER_SIZE then Err(Truncated)
    else if packet[..4] != [0x42, 0x55, 0x53, 0x31] then Err(InvalidMagic)
    else if packet[4] != VERSION then Err(UnsupportedVersionError(packet[4]))
    else
      var flags := ParseU16(packet[6..8]).value;
      var length := ParseU32(packet[8..12]).value;
      if flags != 0 then Err(ReservedFlags(flags))
      else if HEADER_SIZE + length != |packet| then Err(LengthMismatch)
      else if HEADER_SIZE + length > limits.maximumFrameSize then Err(FrameTooLarge)
      else
        match ParseBody(packet[5], packet[HEADER_SIZE..], limits)
        case Fail(e) => Err(e)
        case Done(frame, rest) =>
          if rest != [] then Err(NonCanonicalError("trailing frame body")) else Ok(frame)
  }
}
