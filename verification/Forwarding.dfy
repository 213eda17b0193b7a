/** How the daemon forwards what the broker decided to send. */
module Forwarding {
  import opened Order
  import opened Results
  import opened Protocol
  import opened Encoding
  import opened Decoding
  import opened RoundTrip
  import opened BrokerState
  import opened BrokerSteps
  import opened BrokerMessages

  function SenderName(): (name: Text)
    ensures ValidName(name) && |name| == 13
  {
    NameIsText(Ascii("broker.sender"));
    Ascii("broker.sender")
  }

  /** The message as recipients get it: stamped with the peer it came from. */
  function Stamped(m: Message, sender: PeerId): Message
  {
    m.(headers := m.headers[SenderName() := UnsignedValue(sender)])
  }

  const STAMP_SIZE := 24

  // ---------- The cost of one header ----------

  lemma StampSize(sender: PeerId)
    ensures EncEntry(SenderName(), UnsignedValue(sender)).Ok?
    ensures |EncEntry(SenderName(), UnsignedValue(sender)).value| == STAMP_SIZE
  {
    hide U64, U16, SenderName, ValidName;
    U64Size(sender);
    U16Size(13);
  }

  lemma U64Size(n: u64)
    ensures |U64(n)| == 8
  {
  }

  lemma U16Size(n: u16)
    ensures |U16(n)| == 2
  {
  }

  /** A new entry encodes wherever the order of names puts it, and costs its own length. */
  lemma {:induction false} EntryAdds(h: Headers, name: Text, value: HeaderValue)
    requires name !in h && EncEntry(name, value).Ok?
    ensures EncEntries(h[name := value]).Ok? <==> EncEntries(h).Ok?
    ensures EncEntries(h).Ok? ==>
      |EncEntries(h[name := value]).value| == |EncEntries(h).value| + |EncEntry(name, value).value|
    decreases |h|
  {
    hide EncEntry;
    var more := h[name := value];
    var first: Text := Min(more.Keys);
    assert more.Keys == h.Keys + {name};
    if first == name {
      assert more - {first} == h;
    } else {
      MinOf(h.Keys, first);
      assert more - {first} == (h - {first})[name := value];
      EntryAdds(h - {first}, name, value);
    }
  }

  /** Stamping adds one header and 24 bytes to an encodable header block, if the count still fits. */
  lemma StampedHeaders(h: Headers, sender: PeerId, limits: FrameLimits)
    requires SenderName() !in h && EncHeaders(h, limits).Ok?
    ensures var more := h[SenderName() := UnsignedValue(sender)];
      && |more| == |h| + 1
      && (EncHeaders(more, limits).Ok? <==> |h| + 1 <= limits.maximumHeaders && |h| + 1 <= U16_MAX)
      && (EncHeaders(more, limits).Ok? ==> |EncHeaders(more, limits).value| == |EncHeaders(h, limits).value| + STAMP_SIZE)
  {
    hide EncEntries, EncEntry, U16;
    StampSize(sender);
    EntryAdds(h, SenderName(), UnsignedValue(sender));
    U16Size(|h|);
    if |h| + 1 <= U16_MAX {
      U16Size(|h| + 1);
    }
  }

  // ---------- The cost of forwarding ----------

  lemma StampedBody(m: Message, sender: PeerId, limits: FrameLimits)
    requires SenderName() !in m.headers && EncMessage(m, limits).Ok?
    ensures var forwarded := EncMessage(Stamped(m, sender), limits);
      && (forwarded.Ok? <==> |m.headers| + 1 <= limits.maximumHeaders && |m.headers| + 1 <= U16_MAX)
      && (forwarded.Ok? ==> |forwarded.value| == |EncMessage(m, limits).value| + STAMP_SIZE)
  {
    hide EncHeaders, EncEnvelope, EncBinary, CheckOptions, CheckIdentity, SenderName;
    StampedHeaders(m.headers, sender, limits);
    HeadersAreApart(m, Stamped(m, sender).headers);
  }

  /** The checks and the envelope of a message do not look at its headers. */
  lemma HeadersAreApart(m: Message, h: Headers)
    ensures EncEnvelope(m.(headers := h)) == EncEnvelope(m)
    ensures CheckOptions(m.(headers := h)) == CheckOptions(m)
    ensures CheckIdentity(m.(headers := h)) == CheckIdentity(m)
  {
    hide EncDestination, EncRetry, EncAckRequirement, U32, KindTag, AckPolicyTag, RequestPolicyTag, StatusTag;
  }

  /** The room a packet must leave for its stamp. */
  predicate HasRoom(m: Message, size: nat, limits: FrameLimits)
  {
    && |m.headers| + 1 <= limits.maximumHeaders && |m.headers| + 1 <= U16_MAX
    && size + STAMP_SIZE <= limits.maximumFrameSize && size + STAMP_SIZE <= HEADER_SIZE + U32_MAX
  }

  /**
   Forwarding adds one header and 24 bytes. It can be encoded exactly when that
   room was left, and then the receiver decodes the message as sent plus the
   stamp, which names the sender; taking the stamp off gives the message back.
   */
  lemma ForwardingAddsTheStamp(m: Message, sender: PeerId, limits: FrameLimits)
    requires ReservedNames(m.headers) == {} && Encode(MessageFrame(m), limits).Ok?
    ensures SenderName() !in m.headers
    ensures var packet := Encode(MessageFrame(m), limits).value;
      var forwarded := Encode(MessageFrame(Stamped(m, sender)), limits);
      && (forwarded.Ok? <==> HasRoom(m, |packet|, limits))
      && (forwarded.Ok? ==>
            && |forwarded.value| == |packet| + STAMP_SIZE
            && Decode(forwarded.value, limits) == Ok(MessageFrame(Stamped(m, sender))))
    ensures SenderName() == Ascii("broker.sender") && Stamped(m, sender).headers[SenderName()] == UnsignedValue(sender)
    ensures |Stamped(m, sender).headers| == |m.headers| + 1
    ensures Stamped(m, sender).headers - {SenderName()} == m.headers
    ensures Stamped(m, sender).(headers := m.headers) == m
  {
    hide Decode, Encode, ReservedNames, SenderName, HasRoom;
    SenderIsNamed();
    SenderIsReserved(m.headers);
    StampedPacket(m, sender, limits);
    if Encode(MessageFrame(Stamped(m, sender)), limits).Ok? {
      DecodeInvertsEncode(MessageFrame(Stamped(m, sender)), limits);
    }
  }

  lemma StampedPacket(m: Message, sender: PeerId, limits: FrameLimits)
    requires SenderName() !in m.headers && Encode(MessageFrame(m), limits).Ok?
    ensures var packet := Encode(MessageFrame(m), limits).value;
      var forwarded := Encode(MessageFrame(Stamped(m, sender)), limits);
      && (forwarded.Ok? <==> HasRoom(m, |packet|, limits))
      && (forwarded.Ok? ==> |forwarded.value| == |packet| + STAMP_SIZE)
  {
    hide EncMessage, Stamped, Encode;
    MessagePacket(m, limits);
    StampedBody(m, sender, limits);
    MessagePacket(Stamped(m, sender), limits);
  }

  /** A message has a packet when its body encodes and is not too large for the limits or the length field. */
  lemma MessagePacket(m: Message, limits: FrameLimits)
    ensures var body, packet := EncMessage(m, limits), Encode(MessageFrame(m), limits);
      && (packet.Ok? <==>
            body.Ok? && HEADER_SIZE + |body.value| <= limits.maximumFrameSize && |body.value| <= U32_MAX)
      && (packet.Ok? ==> |packet.value| == HEADER_SIZE + |body.value|)
  {
    hide EncMessage, CommonHeader;
    assert EncBody(MessageFrame(m), limits) == EncMessage(m, limits);
  }

  lemma SenderIsNamed()
    ensures SenderName() == Ascii("broker.sender")
  {
  }

  lemma SenderIsReserved(h: Headers)
    requires ReservedNames(h) == {}
    ensures SenderName() !in h
  {
    assert Ascii("broker.") <= SenderName();
    assert Reserved(SenderName());
    assert SenderName() in h ==> SenderName() in ReservedNames(h);
  }

  // ---------- Over every run ----------

  /** A message that came in as a packet and passed the broker's header check. */
  predicate CameIn(m: Message, limits: FrameLimits)
  {
    ReservedNames(m.headers) == {} && Encode(MessageFrame(m), limits).Ok?
  }

  /** Every frame given to the broker was decoded from a packet. */
  ghost predicate FramesDecoded(calls: seq<Call>, limits: FrameLimits)
  {
    forall i :: 0 <= i < |calls| && calls[i].CallBegin? ==>
      exists packet: Bytes :: Decode(packet, limits) == Ok(calls[i].frame)
  }

  lemma DecodedCameIn(calls: seq<Call>, limits: FrameLimits, i: nat)
    requires FramesDecoded(calls, limits) && i < |calls|
    ensures BringsOnly(m => CameIn(m, limits), calls[i])
  {
    hide Encode, Decode, ReservedNames;
    if calls[i].CallBegin? {
      var packet: Bytes :| Decode(packet, limits) == Ok(calls[i].frame);
      EncodeInvertsDecode(packet, limits);
    }
  }

  /**
   Whatever the broker sends on, first or again, request or stored response,
   is a message that came in, so the forwarding law above applies to it.
   */
  lemma EverySentMessageCameIn(c: Config, calls: seq<Call>, call: Call, limits: FrameLimits)
    requires FramesDecoded(calls + [call], limits)
    ensures var answer := Apply(c, Run(c, calls), call).result;
      answer.Ok? ==> forall e :: e in answer.value && e.Deliver? ==> CameIn(e.message, limits)
  {
    hide Apply, Run, CameIn, FramesDecoded, BringsOnly;
    var P: Property := m => CameIn(m, limits);
    var all := calls + [call];
    forall i | 0 <= i < |all| ensures BringsOnly(P, all[i]) {
      DecodedCameIn(all, limits, i);
    }
    assert RunBringsOnly(P, calls) by {
      assert forall i :: 0 <= i < |calls| ==> all[i] == calls[i];
    }
    RunCarries(P, c, calls);
    assert all[|calls|] == call;
    CallCarries(P, c, Run(c, calls), call);
    var answer := Apply(c, Run(c, calls), call).result;
    if answer.Ok? {
      forall e | e in answer.value && e.Deliver? ensures CameIn(e.message, limits) {
        assert Carries(P, e);
      }
    }
  }

  // ---------- Dispatch ----------

  /** What happens to one send: done, skipped because the other end is gone, or failed; or its connection was not cloned. */
  datatype Sending = Sent | Skipped | Failed | NotCloned

  /** The sessions there are when an event's turn comes, and what happens to a send to each. */
  datatype Moment = Moment(sessions: set<PeerId>, sending: PeerId -> Sending)

  /** A packet and the sessions it was sent to. */
  datatype Output = Output(to: set<PeerId>, packet: Bytes)

  datatype DispatchError = Unencodable(error: CodecError) | Transport

  function Recipients(e: DeliveryEvent): set<PeerId>
  {
    if e.Deliver? then e.recipients else {e.sender}
  }

  function FrameOf(e: DeliveryEvent): Frame
  {
    match e
    case Deliver(sender, _, m) => MessageFrame(Stamped(m, sender))
    case Report(_, id, outcome) => DeliveryResult(id, outcome)
  }

  function Targets(e: DeliveryEvent, at: Moment): set<PeerId> { Recipients(e) * at.sessions }

  predicate Cloned(targets: set<PeerId>, at: Moment)
  {
    forall p :: p in targets ==> at.sending(p) != NotCloned
  }

  predicate Unfailing(targets: set<PeerId>, at: Moment)
  {
    forall p :: p in targets ==> at.sending(p) != Failed
  }

  /** The targets a packet gets to: those whose send is done, below the first that fails. */
  function Reached(targets: set<PeerId>, at: Moment): set<PeerId>
  {
    set p | p in targets && at.sending(p) == Sent && forall q :: q in targets && at.sending(q) == Failed ==> p < q
  }

  /** An event that does not stop the dispatch: it encodes, and no send of it fails. */
  predicate GoesOut(e: DeliveryEvent, at: Moment, limits: FrameLimits)
  {
    Encode(FrameOf(e), limits).Ok? && Cloned(Targets(e, at), at) && Unfailing(Targets(e, at), at)
  }

  /** Sends to the targets in ascending order until a send fails. */
  method SendEach(targets: set<PeerId>, at: Moment) returns (reached: set<PeerId>, ok: bool)
    ensures reached == Reached(targets, at)
    ensures ok <==> Unfailing(targets, at)
  {
    reached, ok := {}, true;
    var rest := targets;
    while rest != {}
      invariant rest <= targets
      invariant forall p, q :: p in targets && p !in rest && q in rest ==> p < q
      invariant forall p :: p in targets && p !in rest ==> at.sending(p) != Failed
      invariant reached == set p | p in targets && p !in rest && at.sending(p) == Sent
      decreases |rest|
    {
      var p: PeerId := Least(rest);
      assert forall q :: q in rest && q != p ==> p < q;
      if at.sending(p) == Failed {
        assert forall q :: q in Reached(targets, at) ==> q !in rest;
        assert forall q :: q in reached ==> q in Reached(targets, at);
        return reached, false;
      }
      if at.sending(p) == Sent {
        reached := reached + {p};
      }
      rest := rest - {p};
    }
  }

  /**
   What became of an event: its recipients read the message with the sender's
   stamp, and the sender of a delivery its outcome. It got to those that had a
   session and whose send was done, unless a send to a lower one had failed.
   */
  ghost predicate CarriedOut(e: DeliveryEvent, at: Moment, o: Output, limits: FrameLimits)
  {
    && (match e
        case Deliver(sender, _, m) =>
          Decode(o.packet, limits) == Ok(MessageFrame(m.(headers := m.headers[SenderName() := UnsignedValue(sender)])))
        case Report(_, id, outcome) => Decode(o.packet, limits) == Ok(DeliveryResult(id, outcome)))
    && forall p: PeerId :: p in o.to <==>
         Waiting(e, at, p) && at.sending(p) == Sent && forall q: PeerId :: q < p && Waiting(e, at, q) ==> at.sending(q) != Failed
  }

  /** The event is for this peer, and it has a session. */
  predicate Waiting(e: DeliveryEvent, at: Moment, p: PeerId)
  {
    p in at.sessions && match e case Deliver(_, recipients, _) => p in recipients case Report(sender, _, _) => p == sender
  }

  lemma ReachedMeaning(targets: set<PeerId>, at: Moment, p: PeerId)
    ensures p in Reached(targets, at) <==>
      p in targets && at.sending(p) == Sent && forall q: PeerId :: q < p && q in targets ==> at.sending(q) != Failed
  {
  }

  lemma WhatGoesOut(e: DeliveryEvent, at: Moment, o: Output, limits: FrameLimits)
    requires o.to == Reached(Targets(e, at), at) && Decode(o.packet, limits) == Ok(FrameOf(e))
    ensures CarriedOut(e, at, o, limits)
  {
    hide Decode, SenderName, Reached, Waiting, Targets;
    forall p: PeerId ensures p in Targets(e, at) <==> Waiting(e, at, p) {
      TargetsWait(e, at, p);
    }
    forall p: PeerId ensures p in o.to <==>
      Waiting(e, at, p) && at.sending(p) == Sent && forall q: PeerId :: q < p && Waiting(e, at, q) ==> at.sending(q) != Failed
    {
      ReachedMeaning(Targets(e, at), at, p);
    }
  }

  lemma TargetsWait(e: DeliveryEvent, at: Moment, p: PeerId)
    ensures p in Targets(e, at) <==> Waiting(e, at, p)
  {
  }

  /**
   Sends every event in order to those of its recipients that have a session
   when its turn comes, and stops at the first that cannot be encoded, cloned or
   sent; what was sent of that one before the failure stays sent.
   */
  method DispatchDeliveryEvents(events: seq<DeliveryEvent>, moments: seq<Moment>, limits: FrameLimits)
    returns (outputs: seq<Output>, result: Result<(), DispatchError>)
    requires |moments| == |events|
    ensures |outputs| <= |events|
    ensures forall i :: 0 <= i < |outputs| ==> CarriedOut(events[i], moments[i], outputs[i], limits)
    ensures forall i :: 0 <= i < |outputs| - 1 ==> GoesOut(events[i], moments[i], limits)
    ensures result.Ok? <==> forall i :: 0 <= i < |events| ==> GoesOut(events[i], moments[i], limits)
    ensures result.Ok? ==> |outputs| == |events|
    ensures result.Err? && (outputs == [] || GoesOut(events[|outputs| - 1], moments[|outputs| - 1], limits)) ==>
      && |outputs| < |events|
      && var e, at := events[|outputs|], moments[|outputs|];
      && match Encode(FrameOf(e), limits)
         case Err(error) => result.error == Unencodable(error)
         case Ok(_) => result.error == Transport && !Cloned(Targets(e, at), at)
  {
    hide Encode, Decode, FrameOf, Reached, Unfailing, CarriedOut;
    outputs := [];
    for n := 0 to |events|
      invariant |outputs| == n
      invariant forall i :: 0 <= i < n ==> GoesOut(events[i], moments[i], limits)
      invariant forall i :: 0 <= i < n ==> CarriedOut(events[i], moments[i], outputs[i], limits)
    {
      var packet := Encode(FrameOf(events[n]), limits);
      if packet.Err? {
        return outputs, Err(Unencodable(packet.error));
      }
      DecodeInvertsEncode(FrameOf(events[n]), limits);
      var targets := Targets(events[n], moments[n]);
      if !Cloned(targets, moments[n]) {
        return outputs, Err(Transport);
      }
      var reached, ok := SendEach(targets, moments[n]);
      outputs := outputs + [Output(reached, packet.value)];
      WhatGoesOut(events[n], moments[n], outputs[n], limits);
      if !ok {
        return outputs, Err(Transport);
      }
    }
    result := Ok(());
  }
}
