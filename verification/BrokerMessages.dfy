/**
 The broker makes up no messages: whatever holds of every message it accepts
 holds of every message it keeps and of every message it sends on.
 */
module BrokerMessages {
  import opened Order
  import opened Results
  import opened Protocol
  import opened Encoding
  import opened BrokerState
  import opened BrokerSteps
  import opened BrokerInvariants
  import opened BrokerTick

  type Property = Message -> bool

  ghost predicate KeepsOnly(P: Property, p: Pending)
  {
    P(p.message) && forall r :: r in p.responses ==> P(p.responses[r])
  }

  ghost predicate AllKept(P: Property, d: Deliveries)
  {
    forall id :: id in d ==> KeepsOnly(P, d[id])
  }

  predicate Carries(P: Property, e: DeliveryEvent) { e.Deliver? ==> P(e.message) }

  ghost predicate AllCarry(P: Property, events: seq<DeliveryEvent>)
  {
    forall e :: e in events ==> Carries(P, e)
  }

  /** The messages a call brings in, once the broker accepts their headers, have the property. */
  ghost predicate BringsOnly(P: Property, call: Call)
  {
    call.CallBegin? && call.frame.MessageFrame? && ReservedNames(call.frame.message.headers) == {} ==>
      P(call.frame.message)
  }

  // ---------- The clock and disconnection ----------

  lemma {:induction false} ReportsCarry(P: Property, d: Deliveries, ids: set<MessageId>, outcome: Outcome)
    requires ids <= d.Keys
    ensures AllCarry(P, Reports(d, ids, outcome))
    decreases |ids|
  {
    hide IsMin;
    if ids != {} {
      ReportsCarry(P, d, ids - {Min(ids)}, outcome);
    }
  }

  lemma {:induction false} TickReportsCarry(P: Property, d: Deliveries, now: u64)
    ensures AllCarry(P, TickReports(d, now))
    decreases |d|
  {
    hide IsMin, FateOf;
    if d != map[] {
      TickReportsCarry(P, d - {Min(d.Keys)}, now);
    }
  }

  ghost predicate RetriesCarry(P: Property, r: seq<Retry>)
  {
    forall x :: x in r ==> Carries(P, x.1)
  }

  lemma {:induction false} TickRetriesCarry(P: Property, d: Deliveries, now: u64)
    requires AllKept(P, d)
    ensures RetriesCarry(P, TickRetries(d, now))
    decreases |d|
  {
    hide IsMin, FateOf;
    if d != map[] {
      TickRetriesCarry(P, d - {Min(d.Keys)}, now);
    }
  }

  lemma {:induction false} InsertCarries(P: Property, x: Retry, r: seq<Retry>)
    requires Carries(P, x.1) && RetriesCarry(P, r)
    ensures RetriesCarry(P, InsertByPriority(x, r))
  {
    if r != [] && r[0].0 > x.0 {
      InsertCarries(P, x, r[1..]);
    }
  }

  lemma {:induction false} SortCarries(P: Property, r: seq<Retry>)
    requires RetriesCarry(P, r)
    ensures AllCarry(P, EventsOf(SortByPriority(r)))
  {
    SortKeeps(P, r);
    EventsCarry(P, SortByPriority(r));
  }

  lemma {:induction false} SortKeeps(P: Property, r: seq<Retry>)
    requires RetriesCarry(P, r)
    ensures RetriesCarry(P, SortByPriority(r))
  {
    if r != [] {
      SortKeeps(P, r[1..]);
      InsertCarries(P, r[0], SortByPriority(r[1..]));
    }
  }

  lemma {:induction false} EventsCarry(P: Property, r: seq<Retry>)
    requires RetriesCarry(P, r)
    ensures AllCarry(P, EventsOf(r))
  {
    if r != [] {
      EventsCarry(P, r[1..]);
    }
  }

  lemma TickCarries(P: Property, s: State, now: u64)
    requires AllKept(P, s.deliveries)
    ensures AllKept(P, TickStep(s, now).state.deliveries)
    ensures AllCarry(P, TickStep(s, now).result.value)
  {
    hide TickReports, TickRetries, SortByPriority, EventsOf, RetryNext;
    TickReportsCarry(P, s.deliveries, now);
    TickRetriesCarry(P, s.deliveries, now);
    SortCarries(P, TickRetries(s.deliveries, now));
  }

  // ---------- Messages and acknowledgements ----------

  lemma ResponseCarries(P: Property, s: State, sender: PeerId, m: Message)
    requires AllKept(P, s.deliveries) && P(m)
    ensures var step := CompleteResponse(s, sender, m);
      AllKept(P, step.state.deliveries) && (step.result.Ok? ==> AllCarry(P, step.result.value))
  {
    hide Completes;
  }

  lemma AcceptCarries(P: Property, c: Config, s: State, sender: PeerId, m: Message, recipients: set<PeerId>, now: u64, priority: u8)
    requires AllKept(P, s.deliveries) && P(m)
    ensures var step := Accept(c, s, sender, m, recipients, now, priority);
      AllKept(P, step.state.deliveries) && (step.result.Ok? ==> AllCarry(P, step.result.value))
  {
    hide CheckCapacity, QueuedFor, RetryNext, CountRouted, RequirementPossible, IsTracked;
  }

  lemma BeginCarries(P: Property, c: Config, s: State, sender: PeerId, frame: Frame, now: u64)
    requires AllKept(P, s.deliveries) && BringsOnly(P, CallBegin(sender, frame, now))
    ensures var step := BeginDelivery(c, s, sender, frame, now);
      AllKept(P, step.state.deliveries) && (step.result.Ok? ==> AllCarry(P, step.result.value))
  {
    hide Route, ReservedNames, CheckHeaders, MessagePriority, Accept, CompleteResponse, AllKept, AllCarry;
    if frame.MessageFrame? && CheckHeaders(frame.message.headers).Ok? {
      var m := frame.message;
      PlainHeaders(m.headers);
      ReportCarries(P, Report(sender, m.id, Outcome.NoRecipient));
      ResponseCarries(P, s, sender, m);
      var routed := Route(c, s, sender, m.destination, m.headers);
      var priority := MessagePriority(m.headers);
      if routed.Ok? && priority.Ok? {
        AcceptCarries(P, c, s, sender, m, routed.value, now, priority.value);
      }
    }
  }

  lemma PlainHeaders(h: Headers)
    requires CheckHeaders(h).Ok?
    ensures ReservedNames(h) == {}
  {
  }

  lemma ReportCarries(P: Property, e: DeliveryEvent)
    requires e.Report?
    ensures AllCarry(P, [e])
  {
  }

  lemma KeptUpdates(P: Property, d: Deliveries, id: MessageId, p: Pending)
    requires AllKept(P, d) && id in d && p.message == d[id].message && p.responses == d[id].responses
    ensures AllKept(P, d[id := p])
  {
  }

  lemma KeptRemoves(P: Property, d: Deliveries, id: MessageId)
    requires AllKept(P, d)
    ensures AllKept(P, d - {id})
  {
  }

  lemma AcknowledgeCarries(P: Property, c: Config, s: State, peer: PeerId, id: MessageId, policy: AckPolicy)
    requires AllKept(P, s.deliveries)
    ensures var step := AcknowledgeStep(c, s, peer, id, policy);
      AllKept(P, step.state.deliveries) && (step.result.Ok? ==> AllCarry(P, step.result.value))
  {
    hide Authorize, RequirementMet, AcknowledgementSatisfies, WantsAck, AllKept, AllCarry;
    NothingCarries(P);
    var d := s.deliveries;
    if id in d {
      var p := d[id];
      var p1 := Acknowledged(p, peer);
      ReportCarries(P, Report(p.sender, id, AckOutcome(p.message.ackPolicy)));
      KeptUpdates(P, d, id, p1);
      KeptUpdates(P, d, id, p.(acknowledgements := p1.acknowledgements));
      KeptRemoves(P, d, id);
    }
  }

  lemma DisconnectCarries(P: Property, s: State, peer: PeerId)
    requires AllKept(P, s.deliveries)
    ensures var step := Disconnect(s, peer);
      AllKept(P, step.state.deliveries) && (step.result.Ok? ==> AllCarry(P, step.result.value))
  {
    hide Reports, WithoutSubscriber, ReleaseEvents;
    ReportsCarry(P, s.deliveries, Affected(s.deliveries, peer), RecipientDisconnected);
  }

  /** Every call keeps and sends only messages with a property that all accepted ones have. */
  lemma CallCarries(P: Property, c: Config, s: State, call: Call)
    requires AllKept(P, s.deliveries) && BringsOnly(P, call)
    ensures var step := Apply(c, s, call);
      AllKept(P, step.state.deliveries) && (step.result.Ok? ==> AllCarry(P, step.result.value))
  {
    hide AllKept, AllCarry, BringsOnly, BeginDelivery, AcknowledgeStep, TickStep, Disconnect, Authorize, ValidDbusName,
         CheckHeaders;
    match call
    case CallBegin(peer, frame, now) => BeginCarries(P, c, s, peer, frame, now);
    case CallAcknowledge(peer, id, policy) => AcknowledgeCarries(P, c, s, peer, id, policy);
    case CallTick(now) => TickCarries(P, s, now); TickAnswers(s, now);
    case CallDisconnect(peer) => DisconnectCarries(P, s, peer);
    case _ => NothingCarries(P);
  }

  lemma TickAnswers(s: State, now: u64)
    ensures TickStep(s, now).result.Ok?
  {
  }

  lemma NothingCarries(P: Property)
    ensures AllCarry(P, [])
  {
  }

  ghost predicate RunBringsOnly(P: Property, calls: seq<Call>)
  {
    forall i :: 0 <= i < |calls| ==> BringsOnly(P, calls[i])
  }

  /** Over every run. */
  lemma {:induction false} RunCarries(P: Property, c: Config, calls: seq<Call>)
    requires RunBringsOnly(P, calls)
    ensures AllKept(P, Run(c, calls).deliveries)
    decreases |calls|
  {
    hide Apply, BringsOnly;
    if calls != [] {
      var before := calls[..|calls| - 1];
      RunCarries(P, c, before);
      CallCarries(P, c, Run(c, before), calls[|calls| - 1]);
    }
  }

  // ---------- The clock settles in every reachable state ----------

  /**
   Whatever run of codec-valid messages came before, two ticks at one reading
   settle the broker: a third says and changes nothing, and the second says
   only which deliveries the first sent for the last time.
   */
  lemma RunTickSettles(c: Config, calls: seq<Call>, now: u64)
    requires RunBringsOnly(CodecValid, calls)
    ensures var s := Run(c, calls); var s1 := TickStep(s, now).state; var s2 := TickStep(s1, now).state;
      && TickStep(s2, now) == Step(s2, Ok([]))
      && (forall id: MessageId :: For(id, TickStep(s1, now).result.value) == FailuresFor(s.deliveries, id, now))
  {
    hide Run, TickStep, CodecValid, For, Inv;
    RunCarries(CodecValid, c, calls);
    RunKeeps(c, calls);
    InvKeyed(c, Run(c, calls));
    TickSettles(Run(c, calls), now);
  }
}
