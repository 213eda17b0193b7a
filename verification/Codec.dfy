/** The codec as it runs: a reader that advances through a packet, and loops that append to an output. */
module Codec {
  import opened Order
  import opened Results
  import opened Protocol
  import opened Encoding
  import opened Decoding
  import RoundTrip
  import Layout
  import Utf8

  // ---------- Writing ----------

  /** The output buffer. */
  class Writer {
    var output: Bytes

    /** A write appended what was to be written to `before`, or failed with its error. */
    ghost predicate Wrote(r: Result<(), CodecError>, before: Bytes, e: Encoded)
      reads this
    {
      match r case Ok(_) => e.Ok? && output == before + e.value case Err(error) => e == Err(error)
    }

    constructor ()
      ensures output == []
    {
      output := [];
    }

    method PushByte(b: u8)
      modifies this
      ensures output == old(output) + [b]
    {
      output := output + [b];
    }

    method PushU16(n: u16)
      modifies this
      ensures output == old(output) + U16(n)
    {
      output := output + [n / 0x100, n % 0x100];
    }

    method PushU32(n: u32)
      modifies this
      ensures output == old(output) + U32(n)
    {
      PushU16(n / 0x1_0000);
      PushU16(n % 0x1_0000);
    }

    method PushU64(n: u64)
      modifies this
      ensures output == old(output) + U64(n)
    {
      hide U32;
      PushU32(n / 0x1_0000_0000);
      PushU32(n % 0x1_0000_0000);
    }

    method PushText(s: Bytes) returns (r: Result<(), CodecError>)
      modifies this
      ensures Wrote(r, old(output), EncText(s))
    {
      hide U16;
      if |s| > U16_MAX {
        return Err(LimitExceededError("text length"));
      }
      PushU16(|s|);
      output := output + s;
      r := Ok(());
    }

    method PushName(s: Bytes) returns (r: Result<(), CodecError>)
      modifies this
      ensures Wrote(r, old(output), EncName(s))
    {
      hide EncText, ValidName;
      if !ValidName(s) {
        return Err(InvalidName(NameError.Invalid));
      }
      r := PushText(s);
    }

    method PushBinary(s: Bytes) returns (r: Result<(), CodecError>)
      modifies this
      ensures Wrote(r, old(output), EncBinary(s))
    {
      hide U32;
      if |s| > U32_MAX {
        return Err(LimitExceededError("binary length"));
      }
      PushU32(|s|);
      output := output + s;
      r := Ok(());
    }

    method PushValue(v: HeaderValue) returns (r: Result<(), CodecError>)
      modifies this
      ensures Wrote(r, old(output), EncValue(v))
    {
      hide EncText, EncBinary, U64;
      match v {
        case TextValue(s) =>
          PushByte(0);
          r := PushText(s);
        case UnsignedValue(n) =>
          PushByte(1);
          PushU64(n);
          r := Ok(());
        case BooleanValue(flag) =>
          PushByte(2);
          PushByte(if flag then 1 else 0);
          r := Ok(());
        case BinaryValue(s) =>
          PushByte(3);
          r := PushBinary(s);
      }
    }

    method PushHeaders(headers: Headers, limits: FrameLimits) returns (r: Result<(), CodecError>)
      modifies this
      ensures Wrote(r, old(output), EncHeaders(headers, limits))
    {
      hide EncName, EncValue, U16, IsMin, Utf8.Valid;
      if |headers| > limits.maximumHeaders || |headers| > U16_MAX {
        return Err(LimitExceededError("header count"));
      }
      PushU16(|headers|);
      ghost var start := output;
      var rest := headers;
      while rest != map[]
        invariant Append(output, EncEntries(rest)) == Append(start, EncEntries(headers))
        decreases |rest|
      {
        ghost var before := output;
        var name: Text := Min(rest.Keys);
        var _ :- PushName(name);
        var _ :- PushValue(rest[name]);
        EntryAppended(before, output, name, rest[name], EncEntries(rest - {name}));
        rest := rest - {name};
      }
      assert output + [] == output;
      AppendMore(old(output), U16(|headers|), EncEntries(headers));
      r := Ok(());
    }

    method PushCapabilities(capabilities: Capabilities, limits: FrameLimits) returns (r: Result<(), CodecError>)
      modifies this
      ensures Wrote(r, old(output), EncCapabilities(capabilities, limits))
    {
      hide EncName, U16, IsMin, Utf8.Valid;
      if |capabilities| > limits.maximumCapabilities || |capabilities| > U16_MAX {
        return Err(LimitExceededError("capability count"));
      }
      PushU16(|capabilities|);
      ghost var start := output;
      var rest := capabilities;
      while rest != {}
        invariant Append(output, EncNames(rest)) == Append(start, EncNames(capabilities))
        decreases |rest|
      {
        ghost var before := output;
        var name: Text := Min(rest);
        var _ :- PushName(name);
        AppendMore(before, EncName(name).value, EncNames(rest - {name}));
        rest := rest - {name};
      }
      assert output + [] == output;
      AppendMore(old(output), U16(|capabilities|), EncNames(capabilities));
      r := Ok(());
    }

    method PushFilter(f: HeaderFilter) returns (r: Result<(), CodecError>)
      modifies this
      ensures Wrote(r, old(output), EncFilter(f))
    {
      hide EncName, EncValue, FilterTag, Utf8.Valid;
      PushByte(FilterTag(f));
      var _ :- PushName(f.name);
      if f.Equal? || f.NotEqual? || f.Prefix? {
        var _ :- PushValue(f.value);
      }
      r := Ok(());
    }

    method PushFilters(filters: seq<HeaderFilter>, limits: FrameLimits) returns (r: Result<(), CodecError>)
      modifies this
      ensures Wrote(r, old(output), EncFilters(filters, limits))
    {
      hide EncEach, U16, Less, Utf8.Valid;
      if |filters| > limits.maximumFilters {
        return Err(LimitExceededError("filter count"));
      }
      var items :- EncodeEach(filters);
      if exists i :: 0 <= i < |items| - 1 && !Less(items[i], items[i + 1]) {
        return Err(NonCanonicalError("filters"));
      }
      if |items| > U16_MAX {
        return Err(LimitExceededError("filter count"));
      }
      PushU16(|items|);
      var i := 0;
      while i < |items|
        invariant 0 <= i <= |items|
        invariant output == old(output) + (U16(|items|) + Concat(items[..i]))
      {
        assert items[..i + 1] == items[..i] + [items[i]];
        ConcatAppend(items[..i], items[i]);
        output := output + items[i];
        i := i + 1;
      }
      assert items[..|items|] == items;
      r := Ok(());
    }

    method PushAckRequirement(a: AckRequirement) returns (r: Result<(), CodecError>)
      modifies this
      ensures Wrote(r, old(output), EncAckRequirement(a))
    {
      hide U16;
      match a {
        case NoneRequired => PushByte(0);
        case AnyOne => PushByte(1);
        case AllOf => PushByte(2);
        case Minimum(n) =>
          if n == 0 {
            return Err(InvalidValue("acknowledgement minimum"));
          }
          PushByte(3);
          PushU16(n);
      }
      r := Ok(());
    }

    method PushRetry(retry: RetryPolicy) returns (r: Result<(), CodecError>)
      modifies this
      ensures Wrote(r, old(output), EncRetry(retry))
    {
      hide U32;
      match retry {
        case NoRetry => PushByte(0);
        case Exponential(initial, max) =>
          if initial == 0 || max < 2 {
            return Err(InvalidValue("retry policy"));
          }
          PushByte(1);
          PushU32(initial);
          PushByte(max);
      }
      r := Ok(());
    }

    method PushDestination(d: Destination) returns (r: Result<(), CodecError>)
      modifies this
      ensures Wrote(r, old(output), EncDestination(d))
    {
      hide EncText, EncName, U64, SelectionTag, ValidName, ValidNamespace;
      match d {
        case ToBroker => PushByte(0);
        case ToPeer(peer) =>
          if peer == 0 {
            return Err(InvalidValue("peer ID"));
          }
          PushByte(1);
          PushU64(peer);
        case ToNamespace(namespace) =>
          PushByte(2);
          var _ :- PushText(namespace);
        case ToChannel(channel) =>
          PushByte(3);
          var _ :- PushName(channel);
        case Broadcast => PushByte(4);
        case ToClient(id, selection) =>
          PushByte(5);
          var _ :- PushName(id);
          PushByte(SelectionTag(selection));
      }
      r := Ok(());
    }

    method PushOptions(m: Message) returns (r: Result<(), CodecError>)
      modifies this
      ensures Wrote(r, old(output), EncOptions(m))
    {
      hide EncAckRequirement, EncRetry, U32, KindTag, AckPolicyTag, RequestPolicyTag;
      PushByte(KindTag(m.kind));
      PushByte(AckPolicyTag(m.ackPolicy));
      var _ :- PushAckRequirement(m.ackRequirement);
      PushByte(RequestPolicyTag(m.requestPolicy));
      PushU32(m.deadline);
      var _ :- PushRetry(m.retry);
      r := Ok(());
    }

    method PushEnvelope(m: Message) returns (r: Result<(), CodecError>)
      modifies this
      ensures Wrote(r, old(output), EncEnvelope(m))
    {
      hide EncOptions, EncDestination, StatusTag;
      var _ :- PushOptions(m);
      var _ :- PushDestination(m.destination);
      output := output + m.id;
      output := output + m.correlationId;
      PushByte(StatusTag(m.status));
      r := Ok(());
    }

    method PushMessage(m: Message, limits: FrameLimits) returns (r: Result<(), CodecError>)
      modifies this
      ensures Wrote(r, old(output), EncMessage(m, limits))
    {
      hide EncEnvelope, EncHeaders, EncBinary, CheckOptions, CheckIdentity, Utf8.Valid;
      if CheckOptions(m).Some? {
        return Err(CheckOptions(m).value);
      }
      if CheckIdentity(m).Some? {
        return Err(CheckIdentity(m).value);
      }
      var _ :- PushEnvelope(m);
      var _ :- PushHeaders(m.headers, limits);
      var _ :- PushBinary(m.payload);
      r := Ok(());
    }

    method PushOptionalName(id: Option<ClientId>) returns (r: Result<(), CodecError>)
      modifies this
      ensures Wrote(r, old(output), EncOptionalName(id))
    {
      hide EncName, ValidName;
      match id {
        case None =>
          PushByte(0);
          r := Ok(());
        case Some(name) =>
          PushByte(1);
          r := PushName(name);
      }
    }

    method PushOwner(owner: Option<PeerId>) returns (r: Result<(), CodecError>)
      modifies this
      ensures Wrote(r, old(output), EncOwner(owner))
    {
      hide U64;
      match owner {
        case None => PushByte(0);
        case Some(peer) =>
          if peer == 0 {
            return Err(InvalidValue("peer ID"));
          }
          PushByte(1);
          PushU64(peer);
      }
      r := Ok(());
    }

    method PushCommonHeader(kind: u8, length: u32)
      modifies this
      ensures output == old(output) + CommonHeader(kind, length)
    {
      hide U32;
      output := output + [0x42, 0x55, 0x53, 0x31];
      PushByte(VERSION);
      PushByte(kind);
      PushU16(0);
      PushU32(length);
    }

    /** The frames that open a session or change its registrations. */
    method PushRegistration(f: Frame, limits: FrameLimits) returns (r: Result<(), CodecError>)
      requires f.Hello? || f.Welcome? || f.ClaimFrame? || f.SubscribeFrame? || f.UnsubscribeFrame?
      modifies this
      ensures Wrote(r, old(output), EncBody(f, limits))
    {
      hide EncHeaders, EncCapabilities, EncFilters, EncText, EncName, EncOptionalName, U64, ValidName, ValidNamespace,
           Utf8.Valid;
      match f {
        case Hello(id, headers, capabilities) =>
          var _ :- PushOptionalName(id);
          var _ :- PushHeaders(headers, limits);
          r := PushCapabilities(capabilities, limits);
        case Welcome(peer, capabilities) =>
          if peer == 0 {
            return Err(InvalidValue("peer ID"));
          }
          PushU64(peer);
          r := PushCapabilities(capabilities, limits);
        case ClaimFrame(namespace, headers) =>
          var _ :- PushText(namespace);
          r := PushHeaders(headers, limits);
        case SubscribeFrame(channel, filters) =>
          var _ :- PushName(channel);
          r := PushFilters(filters, limits);
        case UnsubscribeFrame(channel) => r := PushName(channel);
      }
    }

    method PushBody(f: Frame, limits: FrameLimits) returns (r: Result<(), CodecError>)
      modifies this
      ensures Wrote(r, old(output), EncBody(f, limits))
    {
      hide EncHeaders, EncCapabilities, EncFilters, EncMessage, EncText, EncName, EncOptionalName, EncOwner, U64,
           ErrorCodeTag, OperationTag, AckPolicyTag, OutcomeTag, ValidName, ValidNamespace, Utf8.Valid;
      match f {
        case MessageFrame(m) => r := PushMessage(m, limits);
        case ProtocolError(code, text) =>
          PushByte(ErrorCodeTag(code));
          r := PushText(text);
        case ControlResult(operation) =>
          PushByte(OperationTag(operation));
          r := Ok(());
        case ResolveNamespace(namespace) => r := PushText(namespace);
        case NamespaceResolved(namespace, owner) =>
          var _ :- PushText(namespace);
          r := PushOwner(owner);
        case Acknowledge(id, policy) =>
          if id == Absent() || !WantsAck(policy) {
            return Err(InvalidValue("acknowledgement"));
          }
          output := output + id;
          PushByte(AckPolicyTag(policy));
          r := Ok(());
        case DeliveryResult(id, outcome) =>
          if id == Absent() {
            return Err(InvalidValue("message ID"));
          }
          output := output + id;
          PushByte(OutcomeTag(outcome));
          r := Ok(());
        case _ => r := PushRegistration(f, limits);
      }
    }
  }

  function Append(output: Bytes, e: Encoded): Encoded
  {
    match e case Ok(b) => Ok(output + b) case Err(error) => Err(error)
  }

  /** Appending one piece and then the others is appending both together. */
  lemma AppendMore(output: Bytes, piece: Bytes, others: Encoded)
    ensures others.Ok? ==> output + (piece + others.value) == output + piece + others.value
  {
  }

  lemma EntryAppended(before: Bytes, after: Bytes, name: Text, value: HeaderValue, others: Encoded)
    requires EncName(name).Ok? && EncValue(value).Ok? && after == before + EncName(name).value + EncValue(value).value
    ensures EncEntry(name, value).Ok?
    ensures others.Ok? ==> before + (EncEntry(name, value).value + others.value) == after + others.value
  {
    hide EncName, EncValue, Utf8.Valid;
  }

  method EncodeEach(filters: seq<HeaderFilter>) returns (r: Result<seq<Bytes>, CodecError>)
    ensures r == EncEach(filters)
  {
    hide EncFilter, Utf8.Valid;
    var items := [];
    var i := 0;
    assert filters[0..] == filters;
    assert EncEach(filters).Ok? ==> [] + EncEach(filters).value == EncEach(filters).value;
    while i < |filters|
      invariant 0 <= i <= |filters|
      invariant EncEach(filters) == match EncEach(filters[i..])
                                    case Ok(others) => Ok(items + others)
                                    case Err(e) => Err(e)
    {
      assert filters[i..][1..] == filters[i + 1..];
      var value := new Writer();
      var _ :- value.PushFilter(filters[i]);
      var item := value.output;
      assert item == [] + EncFilter(filters[i]).value == EncFilter(filters[i]).value;
      assert EncEach(filters[i + 1..]).Ok? ==>
          items + ([item] + EncEach(filters[i + 1..]).value) == items + [item] + EncEach(filters[i + 1..]).value;
      items := items + [item];
      i := i + 1;
    }
    assert items + [] == items;
    r := Ok(items);
  }

  lemma {:induction false} ConcatAppend(a: seq<Bytes>, x: Bytes)
    ensures Concat(a + [x]) == Concat(a) + x
    decreases |a|
  {
    if a == [] {
      assert Concat([x]) == x + [];
    } else {
      assert (a + [x])[1..] == a[1..] + [x];
      ConcatAppend(a[1..], x);
    }
  }

  /** Writes the one packet laid out for a frame, if the frame is in order and fits; reading it gives the frame back. */
  method EncodeWithLimits(f: Frame, limits: FrameLimits) returns (r: Encoded)
    ensures r == Encode(f, limits)
    ensures r.Ok? ==> Decode(r.value, limits) == Ok(f)
    ensures forall p: Bytes ::
      r == Ok(p) <==> Layout.IsPacket(p, f) && Layout.FrameOk(f, limits) && |p| <= limits.maximumFrameSize
  {
    hide EncBody, Decode, CommonHeader, Layout.IsPacket, Layout.FrameOk;
    forall p: Bytes ensures Encode(f, limits) == Ok(p) <==>
      Layout.IsPacket(p, f) && Layout.FrameOk(f, limits) && |p| <= limits.maximumFrameSize
    {
      Layout.EncodedPackets(p, f, limits);
    }
    if Encode(f, limits).Ok? {
      RoundTrip.DecodeInvertsEncode(f, limits);
    }
    var body := new Writer();
    var _ :- body.PushBody(f, limits);
    assert body.output == [] + EncBody(f, limits).value == EncBody(f, limits).value;
    var length := |body.output|;
    if HEADER_SIZE + length > limits.maximumFrameSize || length > U32_MAX {
      return Err(FrameTooLarge);
    }
    var packet := new Writer();
    packet.PushCommonHeader(KindOf(f), length);
    assert packet.output == [] + CommonHeader(KindOf(f), length) == CommonHeader(KindOf(f), length);
    r := Ok(packet.output + body.output);
  }

  // ---------- Reading ----------

  class Reader {
    const bytes: Bytes
    var position: nat

    ghost predicate Valid()
      reads this
    {
      position <= |bytes|
    }

    ghost function Rest(): Bytes
      requires Valid()
      reads this
    {
      bytes[position..]
    }

    /** A read agrees with what the unread bytes stood for, and leaves the reader after them. */
    ghost predicate Read<T>(r: Result<T, CodecError>, p: Parse<T>)
      requires Valid()
      reads this
    {
      match r case Ok(v) => p == Done(v, Rest()) case Err(e) => p == Fail(e)
    }

    constructor (bytes: Bytes)
      ensures Valid() && this.bytes == bytes && Rest() == bytes
    {
      this.bytes := bytes;
      position := 0;
    }

    method TakeBytes(n: nat) returns (r: Result<Bytes, CodecError>)
      requires Valid()
      modifies this
      ensures Valid() && Read(r, Take(old(Rest()), n))
    {
      if position + n > |bytes| {
        return Err(Truncated);
      }
      assert Rest()[..n] == bytes[position..position + n];
      r := Ok(bytes[position..position + n]);
      position := position + n;
      assert old(Rest())[n..] == Rest();
    }

    method ReadU8() returns (r: Result<u8, CodecError>)
      requires Valid()
      modifies this
      ensures Valid() && Read(r, ParseU8(old(Rest())))
    {
      var b :- TakeBytes(1);
      r := Ok(b[0]);
    }

    method ReadU16() returns (r: Result<u16, CodecError>)
      requires Valid()
      modifies this
      ensures Valid() && Read(r, ParseU16(old(Rest())))
    {
      var b :- TakeBytes(2);
      r := Ok(b[0] as int * 0x100 + b[1]);
    }

    method ReadU32() returns (r: Result<u32, CodecError>)
      requires Valid()
      modifies this
      ensures Valid() && Read(r, ParseU32(old(Rest())))
    {
      var b :- TakeBytes(4);
      r := Ok(b[0] as int * 0x100_0000 + b[1] as int * 0x1_0000 + b[2] as int * 0x100 + b[3]);
    }

    method ReadU64() returns (r: Result<u64, CodecError>)
      requires Valid()
      modifies this
      ensures Valid() && Read(r, ParseU64(old(Rest())))
    {
      hide ParseU32;
      var high :- ReadU32();
      var low :- ReadU32();
      r := Ok(high as int * 0x1_0000_0000 + low);
    }

    method ReadId() returns (r: Result<MessageId, CodecError>)
      requires Valid()
      modifies this
      ensures Valid() && Read(r, ParseId(old(Rest())))
    {
      var b :- TakeBytes(16);
      r := Ok(b);
    }

    method ReadText() returns (r: Result<Text, CodecError>)
      requires Valid()
      modifies this
      ensures Valid() && Read(r, ParseText(old(Rest())))
    {
      hide ParseU16;
      var n :- ReadU16();
      var s :- TakeBytes(n);
      if !Utf8.Valid(s) {
        return Err(InvalidUtf8);
      }
      r := Ok(s);
    }

    method ReadName() returns (r: Result<Text, CodecError>)
      requires Valid()
      modifies this
      ensures Valid() && Read(r, ParseName(old(Rest()))) && (r.Ok? ==> ValidName(r.value))
    {
      hide ParseText, ValidName, Utf8.Valid;
      var s :- ReadText();
      if !ValidName(s) {
        return Err(InvalidName(NameError.Invalid));
      }
      r := Ok(s);
    }

    method ReadNamespace() returns (r: Result<Namespace, CodecError>)
      requires Valid()
      modifies this
      ensures Valid() && Read(r, ParseNamespace(old(Rest())))
    {
      hide ParseText, ValidName, Utf8.Valid;
      var s :- ReadText();
      if !(Scheme() <= s) {
        return Err(InvalidName(MissingNamespaceScheme));
      }
      if !ValidName(s[|Scheme()|..]) {
        return Err(InvalidName(NameError.Invalid));
      }
      r := Ok(s);
    }

    method ReadBinary() returns (r: Result<Bytes, CodecError>)
      requires Valid()
      modifies this
      ensures Valid() && Read(r, ParseBinary(old(Rest())))
    {
      hide ParseU32;
      var n :- ReadU32();
      r := TakeBytes(n);
    }

    method ReadValue() returns (r: Result<HeaderValue, CodecError>)
      requires Valid()
      modifies this
      ensures Valid() && Read(r, ParseValue(old(Rest())))
    {
      hide ParseText, ParseU64, ParseBinary, Utf8.Valid;
      var tag :- ReadU8();
      if tag == 0 {
        var s :- ReadText();
        r := Ok(TextValue(s));
      } else if tag == 1 {
        var n :- ReadU64();
        r := Ok(UnsignedValue(n));
      } else if tag == 2 {
        var flag :- ReadU8();
        r := if flag > 1 then Err(InvalidValue("boolean")) else Ok(BooleanValue(flag == 1));
      } else if tag == 3 {
        var s :- ReadBinary();
        r := Ok(BinaryValue(s));
      } else {
        r := Err(InvalidValue("header value tag"));
      }
    }

    method ReadHeaders(limits: FrameLimits) returns (r: Result<Headers, CodecError>)
      requires Valid()
      modifies this
      ensures Valid() && Read(r, ParseHeaders(old(Rest()), limits))
    {
      hide ParseU16, ParseName, ParseValue, Less, Utf8.Valid, ValidName;
      var count :- ReadU16();
      if count > limits.maximumHeaders {
        return Err(LimitExceededError("header count"));
      }
      ghost var b := Rest();
      var headers: Headers := map[];
      var previous: Option<Bytes> := None;
      var i := 0;
      EntriesStart(count, b);
      while i < count
        invariant Valid() && 0 <= i <= count
        invariant ParseEntries(count, None, b) == WithRead(headers, ParseEntries(count - i, previous, Rest()))
      {
        var name :- ReadName();
        if previous.Some? && !Less(previous.value, name) {
          return Err(NonCanonicalError("headers"));
        }
        var value :- ReadValue();
        EntryRead(headers, name, value, ParseEntries(count - i - 1, Some(name), Rest()));
        previous := Some(name);
        headers := headers[name := value];
        i := i + 1;
      }
      assert headers + map[] == headers;
      r := Ok(headers);
    }

    method ReadCapabilities(limits: FrameLimits) returns (r: Result<Capabilities, CodecError>)
      requires Valid()
      modifies this
      ensures Valid() && Read(r, ParseCapabilities(old(Rest()), limits))
    {
      hide ParseU16, ParseName, Less, Utf8.Valid, ValidName;
      var count :- ReadU16();
      if count > limits.maximumCapabilities {
        return Err(LimitExceededError("capability count"));
      }
      ghost var b := Rest();
      var capabilities: Capabilities := {};
      var previous: Option<Bytes> := None;
      var i := 0;
      assert ParseNames(count, None, b).Done? ==> {} + ParseNames(count, None, b).value == ParseNames(count, None, b).value;
      while i < count
        invariant Valid() && 0 <= i <= count
        invariant ParseNames(count, None, b) == match ParseNames(count - i, previous, Rest())
                                                case Done(s, rest) => Done(capabilities + s, rest)
                                                case Fail(e) => Fail(e)
      {
        var name :- ReadName();
        if previous.Some? && !Less(previous.value, name) {
          return Err(NonCanonicalError("capabilities"));
        }
        ghost var others := ParseNames(count - i - 1, Some(name), Rest());
        assert others.Done? ==> capabilities + ({name} + others.value) == capabilities + {name} + others.value;
        previous := Some(name);
        capabilities := capabilities + {name};
        i := i + 1;
      }
      r := Ok(capabilities);
    }

    method ReadFilter() returns (r: Result<HeaderFilter, CodecError>)
      requires Valid()
      modifies this
      ensures Valid() && Read(r, ParseFilter(old(Rest())))
    {
      hide ParseName, ParseValue, Utf8.Valid, ValidName;
      var tag :- ReadU8();
      var name :- ReadName();
      if tag == 0 {
        r := Ok(Exists(name));
      } else if tag == 1 {
        r := Ok(NotExists(name));
      } else if tag > 4 {
        r := Err(InvalidValue("filter tag"));
      } else {
        var value :- ReadValue();
        r := Ok(if tag == 2 then Equal(name, value) else if tag == 3 then NotEqual(name, value) else Prefix(name, value));
      }
    }

    /** One filter and the bytes it was read from, which must come after the previous ones. */
    method ReadItem(previous: Option<Bytes>) returns (r: Result<(HeaderFilter, Bytes), CodecError>)
      requires Valid()
      modifies this
      ensures Valid() && Read(r, ParseItem(previous, old(Rest())))
    {
      hide ParseFilter, EncFilter, Less, Utf8.Valid;
      var start := position;
      ghost var before := Rest();
      var filter :- ReadFilter();
      RoundTrip.FilterCanonical(before);
      var encoded := bytes[start..position];
      assert Consumed(before, Rest()) == encoded;
      if previous.Some? && !Less(previous.value, encoded) {
        return Err(NonCanonicalError("filters"));
      }
      r := Ok((filter, encoded));
    }

    method ReadFilters(limits: FrameLimits) returns (r: Result<seq<HeaderFilter>, CodecError>)
      requires Valid()
      modifies this
      ensures Valid() && Read(r, ParseFilters(old(Rest()), limits))
    {
      hide ParseU16, ParseItem, Utf8.Valid;
      var count :- ReadU16();
      if count > limits.maximumFilters {
        return Err(LimitExceededError("filter count"));
      }
      ghost var b := Rest();
      var filters: seq<HeaderFilter> := [];
      var previous: Option<Bytes> := None;
      var i := 0;
      FiltersStart(count, b);
      while i < count
        invariant Valid() && 0 <= i <= count
        invariant ParseFilterList(count, None, b) == WithFilters(filters, ParseFilterList(count - i, previous, Rest()))
      {
        var item :- ReadItem(previous);
        FilterRead(filters, item.0, ParseFilterList(count - i - 1, Some(item.1), Rest()));
        previous := Some(item.1);
        filters := filters + [item.0];
        i := i + 1;
      }
      assert filters + [] == filters;
      r := Ok(filters);
    }

    method ReadAckRequirement() returns (r: Result<AckRequirement, CodecError>)
      requires Valid()
      modifies this
      ensures Valid() && Read(r, ParseAckRequirement(old(Rest())))
    {
      hide ParseU16;
      var tag :- ReadU8();
      if tag == 3 {
        var n :- ReadU16();
        r := if n == 0 then Err(InvalidValue("acknowledgement minimum")) else Ok(Minimum(n));
      } else {
        r := if tag == 0 then Ok(NoneRequired) else if tag == 1 then Ok(AnyOne) else if tag == 2 then Ok(AllOf)
             else Err(InvalidValue("acknowledgement requirement"));
      }
    }

    method ReadRetry() returns (r: Result<RetryPolicy, CodecError>)
      requires Valid()
      modifies this
      ensures Valid() && Read(r, ParseRetry(old(Rest())))
    {
      hide ParseU32;
      var tag :- ReadU8();
      if tag == 0 {
        return Ok(NoRetry);
      }
      if tag != 1 {
        return Err(InvalidValue("retry policy"));
      }
      var initial :- ReadU32();
      var max :- ReadU8();
      r := if initial == 0 || max < 2 then Err(InvalidValue("retry policy")) else Ok(Exponential(initial, max));
    }

    method ReadDestination() returns (r: Result<Destination, CodecError>)
      requires Valid()
      modifies this
      ensures Valid() && Read(r, ParseDestination(old(Rest())))
    {
      hide ParseU64, ParseName, ParseNamespace, Utf8.Valid;
      var tag :- ReadU8();
      if tag == 0 {
        r := Ok(ToBroker);
      } else if tag == 1 {
        var peer :- ReadU64();
        r := if peer == 0 then Err(InvalidValue("peer ID")) else Ok(ToPeer(peer));
      } else if tag == 2 {
        var namespace :- ReadNamespace();
        r := Ok(ToNamespace(namespace));
      } else if tag == 3 {
        var channel :- ReadName();
        r := Ok(ToChannel(channel));
      } else if tag == 4 {
        r := Ok(Broadcast);
      } else if tag == 5 {
        var id :- ReadName();
        var t :- ReadU8();
        var selection :- DecodeSelection(t);
        r := Ok(ToClient(id, selection));
      } else {
        r := Err(InvalidValue("destination selector"));
      }
    }

    method ReadOptions() returns (r: Result<Message, CodecError>)
      requires Valid()
      modifies this
      ensures Valid() && Read(r, ParseOptions(old(Rest())))
    {
      hide ParseAckRequirement, ParseRetry, ParseU32;
      var t1 :- ReadU8();
      var kind :- DecodeKind(t1);
      var t2 :- ReadU8();
      var ackPolicy :- DecodeAckPolicy(t2);
      var requirement :- ReadAckRequirement();
      var t4 :- ReadU8();
      var requestPolicy :- DecodeRequestPolicy(t4);
      var deadline :- ReadU32();
      var retry :- ReadRetry();
      r := Ok(Message(kind, ackPolicy, requirement, requestPolicy, deadline, retry,
                      ToBroker, Absent(), Absent(), Success, map[], []));
    }

    method ReadEnvelope() returns (r: Result<Message, CodecError>)
      requires Valid()
      modifies this
      ensures Valid() && Read(r, ParseEnvelope(old(Rest())))
    {
      hide ParseOptions, ParseDestination;
      var options :- ReadOptions();
      var destination :- ReadDestination();
      var id :- ReadId();
      var correlationId :- ReadId();
      var t :- ReadU8();
      var status :- DecodeStatus(t);
      r := Ok(options.(destination := destination, id := id, correlationId := correlationId, status := status));
    }

    method ReadMessage(limits: FrameLimits) returns (r: Result<Message, CodecError>)
      requires Valid()
      modifies this
      ensures Valid() && Read(r, ParseMessage(old(Rest()), limits))
    {
      hide ParseEnvelope, ParseHeaders, ParseBinary, CheckOptions, CheckIdentity, Utf8.Valid;
      var m :- ReadEnvelope();
      if CheckOptions(m).Some? {
        return Err(CheckOptions(m).value);
      }
      if CheckIdentity(m).Some? {
        return Err(CheckIdentity(m).value);
      }
      var headers :- ReadHeaders(limits);
      var payload :- ReadBinary();
      r := Ok(m.(headers := headers, payload := payload));
    }

    // ---------- Frames ----------

    method ReadHello(limits: FrameLimits) returns (r: Result<Frame, CodecError>)
      requires Valid()
      modifies this
      ensures Valid() && Read(r, ParseHello(old(Rest()), limits))
    {
      hide ParseName, ParseHeaders, ParseCapabilities, Utf8.Valid;
      var marker :- ReadU8();
      var id: Option<ClientId> := None;
      if marker == 1 {
        var name :- ReadName();
        id := Some(name);
      } else if marker != 0 {
        return Err(InvalidValue("HELLO client ID marker"));
      }
      var headers :- ReadHeaders(limits);
      var capabilities :- ReadCapabilities(limits);
      r := Ok(Hello(id, headers, capabilities));
    }

    method ReadWelcome(limits: FrameLimits) returns (r: Result<Frame, CodecError>)
      requires Valid()
      modifies this
      ensures Valid() && Read(r, ParseWelcome(old(Rest()), limits))
    {
      hide ParseU64, ParseCapabilities;
      var peer :- ReadU64();
      if peer == 0 {
        return Err(InvalidValue("peer ID"));
      }
      var capabilities :- ReadCapabilities(limits);
      r := Ok(Welcome(peer, capabilities));
    }

    method ReadNamespaceResolved() returns (r: Result<Frame, CodecError>)
      requires Valid()
      modifies this
      ensures Valid() && Read(r, ParseNamespaceResolved(old(Rest())))
    {
      hide ParseU64, ParseNamespace;
      var namespace :- ReadNamespace();
      var marker :- ReadU8();
      if marker == 0 {
        return Ok(NamespaceResolved(namespace, None));
      }
      if marker != 1 {
        return Err(InvalidValue("namespace owner marker"));
      }
      var peer :- ReadU64();
      r := if peer == 0 then Err(InvalidValue("peer ID")) else Ok(NamespaceResolved(namespace, Some(peer)));
    }

    method ReadReport(kind: u8, limits: FrameLimits) returns (r: Result<Frame, CodecError>)
      requires Valid() && (kind == 11 || kind == 12)
      modifies this
      ensures Valid() && Read(r, ParseBody(kind, old(Rest()), limits))
    {
      hide ParseHello, ParseWelcome, ParseNamespace, ParseHeaders, ParseName, ParseFilters, ParseMessage, ParseText;
      var id :- ReadId();
      if kind == 12 && id == Absent() {
        return Err(InvalidValue("message ID"));
      }
      var t :- ReadU8();
      if kind == 12 {
        var outcome :- DecodeOutcome(t);
        return Ok(DeliveryResult(id, outcome));
      }
      var policy :- DecodeAckPolicy(t);
      r := if id == Absent() || !WantsAck(policy) then Err(InvalidValue("acknowledgement"))
           else Ok(Acknowledge(id, policy));
    }

    method ReadNamed(kind: u8, limits: FrameLimits) returns (r: Result<Frame, CodecError>)
      requires Valid() && (kind == 3 || kind == 4 || kind == 5 || kind == 9)
      modifies this
      ensures Valid() && Read(r, ParseBody(kind, old(Rest()), limits))
    {
      hide ParseHello, ParseWelcome, ParseNamespace, ParseHeaders, ParseName, ParseFilters, ParseMessage, ParseText,
           Utf8.Valid, ValidName, ValidNamespace;
      if kind == 3 || kind == 9 {
        var namespace :- ReadNamespace();
        if kind == 9 {
          return Ok(ResolveNamespace(namespace));
        }
        var headers :- ReadHeaders(limits);
        r := Ok(ClaimFrame(namespace, headers));
      } else {
        var channel :- ReadName();
        if kind == 5 {
          return Ok(UnsubscribeFrame(channel));
        }
        var filters :- ReadFilters(limits);
        r := Ok(SubscribeFrame(channel, filters));
      }
    }

    method ReadControl(kind: u8, limits: FrameLimits) returns (r: Result<Frame, CodecError>)
      requires Valid() && (kind == 7 || kind == 8)
      modifies this
      ensures Valid() && Read(r, ParseBody(kind, old(Rest()), limits))
    {
      hide ParseHello, ParseWelcome, ParseNamespace, ParseHeaders, ParseName, ParseFilters, ParseMessage, ParseText,
           Utf8.Valid;
      var t :- ReadU8();
      if kind == 8 {
        var operation :- DecodeOperation(t);
        return Ok(ControlResult(operation));
      }
      var code :- DecodeErrorCode(t);
      var text :- ReadText();
      r := Ok(ProtocolError(code, text));
    }

    method ReadBody(kind: u8, limits: FrameLimits) returns (r: Result<Frame, CodecError>)
      requires Valid()
      modifies this
      ensures Valid() && Read(r, ParseBody(kind, old(Rest()), limits))
    {
      hide ParseHello, ParseWelcome, ParseNamespace, ParseHeaders, ParseName, ParseFilters, ParseMessage, ParseText,
           ParseNamespaceResolved, ParseAcknowledge, ParseDeliveryResult, Utf8.Valid;
      if kind == 1 {
        r := ReadHello(limits);
      } else if kind == 2 {
        r := ReadWelcome(limits);
      } else if kind == 6 {
        var m :- ReadMessage(limits);
        r := Ok(MessageFrame(m));
      } else if kind == 10 {
        r := ReadNamespaceResolved();
      } else if kind == 7 || kind == 8 {
        r := ReadControl(kind, limits);
      } else if kind == 11 || kind == 12 {
        r := ReadReport(kind, limits);
      } else if kind == 3 || kind == 4 || kind == 5 || kind == 9 {
        r := ReadNamed(kind, limits);
      } else {
        r := Err(UnknownFrameKindError(kind));
      }
    }
  }

  /** Reads a packet; an accepted one is the one packet of the frame it gives. */
  method DecodeWithLimits(packet: Bytes, limits: FrameLimits) returns (r: Result<Frame, CodecError>)
    ensures r == Decode(packet, limits)
    ensures r.Ok? ==> Encode(r.value, limits) == Ok(packet)
    ensures forall f: Frame ::
      r == Ok(f) <==> Layout.IsPacket(packet, f) && Layout.FrameOk(f, limits) && |packet| <= limits.maximumFrameSize
  {
    hide ParseBody, ParseU32, Encode, Layout.IsPacket, Layout.FrameOk;
    forall f: Frame ensures Decode(packet, limits) == Ok(f) <==>
      Layout.IsPacket(packet, f) && Layout.FrameOk(f, limits) && |packet| <= limits.maximumFrameSize
    {
      Layout.DecodedPackets(packet, f, limits);
    }
    if Decode(packet, limits).Ok? {
      RoundTrip.EncodeInvertsDecode(packet, limits);
    }
    if |packet| < HEADER_SIZE {
      return Err(Truncated);
    }
    if packet[..4] != [0x42, 0x55, 0x53, 0x31] {
      return Err(InvalidMagic);
    }
    if packet[4] != VERSION {
      return Err(UnsupportedVersionError(packet[4]));
    }
    RoundTrip.U32Length(packet[8..12]);
    var flags := ParseU16(packet[6..8]).value;
    if flags != 0 {
      return Err(ReservedFlags(flags));
    }
    var length := ParseU32(packet[8..12]).value;
    if HEADER_SIZE + length != |packet| {
      return Err(LengthMismatch);
    }
    if HEADER_SIZE + length > limits.maximumFrameSize {
      return Err(FrameTooLarge);
    }
    var reader := new Reader(packet[HEADER_SIZE..]);
    var frame :- reader.ReadBody(packet[5], limits);
    if reader.position != |reader.bytes| {
      return Err(NonCanonicalError("trailing frame body"));
    }
    r := Ok(frame);
  }

  ghost function WithFilters(filters: seq<HeaderFilter>, p: Parse<seq<HeaderFilter>>): Parse<seq<HeaderFilter>>
  {
    match p case Done(f, rest) => Done(filters + f, rest) case Fail(e) => Fail(e)
  }

  lemma FiltersStart(n: nat, b: Bytes)
    ensures ParseFilterList(n, None, b) == WithFilters([], ParseFilterList(n, None, b))
  {
    hide ParseFilterList;
    var p := ParseFilterList(n, None, b);
    assert p.Done? ==> [] + p.value == p.value;
  }

  lemma FilterRead(filters: seq<HeaderFilter>, filter: HeaderFilter, p: Parse<seq<HeaderFilter>>)
    ensures p.Done? ==> filters + ([filter] + p.value) == filters + [filter] + p.value
  {
  }

  /** What is known of a header block: the entries read so far and what is still to come. */
  ghost function WithRead(headers: Headers, p: Parse<Headers>): Parse<Headers>
  {
    match p case Done(h, rest) => Done(headers + h, rest) case Fail(e) => Fail(e)
  }

  lemma EntriesStart(n: nat, b: Bytes)
    ensures ParseEntries(n, None, b) == WithRead(map[], ParseEntries(n, None, b))
  {
    hide ParseEntries;
    assert ParseEntries(n, None, b).Done? ==> map[] + ParseEntries(n, None, b).value == ParseEntries(n, None, b).value;
  }

  lemma EntryRead(headers: Headers, name: Text, value: HeaderValue, p: Parse<Headers>)
    ensures p.Done? ==> headers + WithEntry(name, value, p.value) == headers[name := value] + p.value
  {
  }
}
