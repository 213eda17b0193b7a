/** The BUS/1-preview protocol vocabulary: names, headers, messages and frames. */
module Protocol {
  import opened Order
  import opened Results
  import Utf8

  const U8_MAX: int := 0xFF
  const U16_MAX: int := 0xFFFF
  const U32_MAX: int := 0xFFFF_FFFF
  const U64_MAX: int := 0xFFFF_FFFF_FFFF_FFFF

  type u8 = byte
  type u16 = x: int | 0 <= x <= U16_MAX
  type u32 = x: int | 0 <= x <= U32_MAX
  type u64 = x: int | 0 <= x <= U64_MAX

  /** Text held in a string: well-formed UTF-8 by construction. */
  type Text = s: Bytes | Utf8.Valid(s) witness []

  /** The bytes of an ASCII literal. */
  function Ascii(s: string): (b: Bytes)
    requires forall i :: 0 <= i < |s| ==> s[i] as int < 128
    ensures |b| == |s| && forall i :: 0 <= i < |s| ==> b[i] == s[i] as int
  {
    seq(|s|, i requires 0 <= i < |s| => s[i] as int)
  }

  const MAX_NAME_LENGTH := 255

  /** At most 255 visible ASCII characters other than `/`. */
  predicate ValidName(s: Bytes)
  {
    0 < |s| <= MAX_NAME_LENGTH && forall i :: 0 <= i < |s| ==> 0x21 <= s[i] <= 0x7E && s[i] != 0x2F
  }

  /** `bus://` followed by a name. */
  predicate ValidNamespace(s: Bytes)
  {
    Scheme() <= s && ValidName(s[|Scheme()|..])
  }

  function Scheme(): Bytes { Ascii("bus://") }

  type ClientId = s: Bytes | ValidName(s) witness [0x61]
  type Channel = s: Bytes | ValidName(s) witness [0x61]
  type Namespace = s: Bytes | ValidNamespace(s) witness Scheme() + [0x61]

  type PeerId = u64
  type MessageId = s: Bytes | |s| == 16 witness seq(16, _ => 0)

  function Absent(): MessageId { seq(16, _ => 0) }

  datatype HeaderValue =
    | TextValue(text: Text)
    | UnsignedValue(number: u64)
    | BooleanValue(flag: bool)
    | BinaryValue(data: Bytes)

  type Headers = map<Text, HeaderValue>
  type Capabilities = set<Text>

  datatype HeaderFilter =
    | Exists(name: Text)
    | NotExists(name: Text)
    | Equal(name: Text, value: HeaderValue)
    | NotEqual(name: Text, value: HeaderValue)
    | Prefix(name: Text, value: HeaderValue)

  datatype MessageKind = Signal | Request | Response
  datatype AckPolicy = NoAck | Accepted | Received | Processed
  datatype AckRequirement = NoneRequired | AnyOne | AllOf | Minimum(count: u16)
  datatype RequestPolicy = Exact | First | FirstSuccess | AllResponses
  datatype RetryPolicy = NoRetry | Exponential(initialBackoff: u32, maxAttempts: u8)
  datatype Outcome =
    | Accepted | Received | Processed | Timeout | NoRecipient | RecipientDisconnected | DeliveryFailed
  datatype ClientSelection = First | Any | All
  datatype Destination =
    | ToBroker
    | ToPeer(peer: PeerId)
    | ToNamespace(namespace: Namespace)
    | ToChannel(channel: Channel)
    | ToClient(clientId: ClientId, selection: ClientSelection)
    | Broadcast
  datatype ControlOperation = Claim | Subscribe | Unsubscribe
  datatype Status = Success | Error | Unsupported | Denied | Busy | NotFound
  datatype ErrorCode =
    | MalformedFrame | UnsupportedVersion | UnknownFrameKind | LimitExceeded
    | NonCanonical | InvalidState | NoRecipient

  /** The fields of a MESSAGE frame. */
  datatype Message = Message(
    kind: MessageKind,
    ackPolicy: AckPolicy,
    ackRequirement: AckRequirement,
    requestPolicy: RequestPolicy,
    deadline: u32,
    retry: RetryPolicy,
    destination: Destination,
    id: MessageId,
    correlationId: MessageId,
    status: Status,
    headers: Headers,
    payload: Bytes)

  datatype Frame =
    | Hello(clientId: Option<ClientId>, headers: Headers, capabilities: Capabilities)
    | Welcome(peer: PeerId, capabilities: Capabilities)
    | ClaimFrame(namespace: Namespace, headers: Headers)
    | SubscribeFrame(channel: Channel, filters: seq<HeaderFilter>)
    | UnsubscribeFrame(channel: Channel)
    | MessageFrame(message: Message)
    | ProtocolError(code: ErrorCode, text: Text)
    | ControlResult(operation: ControlOperation)
    | ResolveNamespace(namespace: Namespace)
    | NamespaceResolved(namespace: Namespace, owner: Option<PeerId>)
    | Acknowledge(id: MessageId, policy: AckPolicy)
    | DeliveryResult(id: MessageId, outcome: Outcome)

  datatype FrameLimits = FrameLimits(
    maximumFrameSize: nat,
    maximumHeaders: nat,
    maximumCapabilities: nat,
    maximumFilters: nat)

  datatype NameError = MissingNamespaceScheme | Invalid

  datatype CodecError =
    | Truncated
    | InvalidMagic
    | UnsupportedVersionError(version: u8)
    | UnknownFrameKindError(kind: u8)
    | ReservedFlags(flags: u16)
    | LengthMismatch
    | FrameTooLarge
    | LimitExceededError(what: string)
    | InvalidValue(what: string)
    | NonCanonicalError(what: string)
    | InvalidName(error: NameError)
    | InvalidUtf8

  /** Every name is text, so reading a name never fails on its UTF-8 check. */
  lemma NameIsText(s: Bytes)
    requires ValidName(s)
    ensures Utf8.Valid(s)
  {
    Utf8.AsciiIsValid(s);
  }

  lemma NamespaceIsText(s: Bytes)
    requires ValidNamespace(s)
    ensures Utf8.Valid(s)
  {
    forall i | 0 <= i < |s| ensures s[i] <= 0x7F {
      if i < |Scheme()| {
        assert s[i] == Scheme()[i];
      } else {
        assert s[i] == s[|Scheme()|..][i - |Scheme()|];
      }
    }
    Utf8.AsciiIsValid(s);
  }
}
