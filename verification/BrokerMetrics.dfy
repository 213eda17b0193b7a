/** What the broker's counters count. */
module BrokerMetrics {
  import opened Order
  import opened Protocol
  import opened BrokerState
  import opened BrokerSteps

  /** The recipients the broker selects for a message that passes its checks; none for any other call. */
  function SelectedBy(c: Config, s: State, call: Call): nat
  {
    if !call.CallBegin? || !call.frame.MessageFrame? then 0
    else
      var m := call.frame.message;
      if m.kind == Response || CheckHeaders(m.headers).Err? || MessagePriority(m.headers).Err? || m.id in s.deliveries
      then 0
      else
        match Route(c, s, call.peer, m.destination, m.headers)
        case Ok(recipients) => |recipients|
        case Err(_) => 0
  }

  function SelectedInRun(c: Config, calls: seq<Call>): nat
    decreases |calls|
  {
    if calls == [] then 0
    else
      var before, call := calls[..|calls| - 1], calls[|calls| - 1];
      SelectedInRun(c, before) + SelectedBy(c, Run(c, before), call)
  }

  lemma CallCountsSelected(c: Config, s: State, call: Call)
    ensures Apply(c, s, call).state.metrics.messagesRouted == SatAdd(s.metrics.messagesRouted, SelectedBy(c, s, call))
  {
    hide CheckHeaders, MessagePriority, Route, CheckCapacity, RequirementPossible, Forwarded, Completes, Authorize,
         Acknowledged, TickEvents, ValidDbusName, Reports, RetryNext, OwnedNamespaces, SubscribedChannels, IsTracked,
         ReleaseEvents, WithoutSubscriber;
    if call.CallBegin? && call.frame.MessageFrame? {
      NoRouteForStrangers(c, s, call.peer, call.frame.message);
    }
  }

  /** Over every run the count is the sum of all recipients ever selected, up to the largest the counter holds. */
  lemma {:induction false} RoutedIsSelected(c: Config, calls: seq<Call>)
    ensures Run(c, calls).metrics.messagesRouted == SatAdd(0, SelectedInRun(c, calls))
    decreases |calls|
  {
    hide Apply, SelectedBy;
    if calls != [] {
      var before, call := calls[..|calls| - 1], calls[|calls| - 1];
      RoutedIsSelected(c, before);
      CallCountsSelected(c, Run(c, before), call);
    }
  }

  /** The recipients a new message is sent to in answer to the call that brings it. */
  function DeliveredBy(call: Call, answer: Answer): nat
  {
    if && call.CallBegin? && call.frame.MessageFrame? && call.frame.message.kind != Response
       && answer.Ok? && answer.value != [] && answer.value[0].Deliver?
    then |answer.value[0].recipients|
    else 0
  }

  /** Recipients are selected, but too few for the requirement, or there is no room or no time for the message. */
  predicate SelectedInVain(c: Config, s: State, call: Call)
  {
    && SelectedBy(c, s, call) > 0
    && var m := call.frame.message;
    && (|| !RequirementPossible(m.ackRequirement, SelectedBy(c, s, call))
        || (IsTracked(m) && (CheckCapacity(c.limits, QueuedFor(s.deliveries, call.peer), m).Err?
                             || call.now + m.deadline > U64_MAX)))
  }

  /** One call counts the recipients it delivers to, except that those selected in vain count and get nothing. */
  lemma CountedIsDeliveredUnlessInVain(c: Config, s: State, call: Call)
    ensures var answer := Apply(c, s, call).result;
      DeliveredBy(call, answer) == if SelectedInVain(c, s, call) then 0 else SelectedBy(c, s, call)
  {
    hide CheckHeaders, MessagePriority, Route, CheckCapacity, QueuedFor, CountRouted, Forwarded, Completes, RetryNext,
         IsTracked;
    if call.CallBegin? && call.frame.MessageFrame? && call.frame.message.kind != Response {
      var m := call.frame.message;
      var routed := Route(c, s, call.peer, m.destination, m.headers);
      assert routed.Ok? ==> (routed.value == {} <==> |routed.value| == 0);
      NoRouteForStrangers(c, s, call.peer, m);
    }
  }

  lemma NoRouteForStrangers(c: Config, s: State, sender: PeerId, m: Message)
    ensures sender !in s.peers ==> Route(c, s, sender, m.destination, m.headers).Err?
  {
  }

  function DeliveredInRun(c: Config, calls: seq<Call>): nat
    decreases |calls|
  {
    if calls == [] then 0
    else
      var before, call := calls[..|calls| - 1], calls[|calls| - 1];
      DeliveredInRun(c, before) + DeliveredBy(call, Apply(c, Run(c, before), call).result)
  }

  /** Some call of the run selected recipients in vain. */
  ghost predicate AnyInVain(c: Config, calls: seq<Call>)
  {
    exists i :: 0 <= i < |calls| && SelectedInVain(c, Run(c, calls[..i]), calls[i])
  }

  /** So over a run as many are delivered to as were selected exactly if no call selected in vain. */
  lemma {:induction false} RoutedIsDelivered(c: Config, calls: seq<Call>)
    ensures DeliveredInRun(c, calls) <= SelectedInRun(c, calls)
    ensures DeliveredInRun(c, calls) == SelectedInRun(c, calls) <==> !AnyInVain(c, calls)
    decreases |calls|
  {
    hide Apply, Run, SelectedBy, DeliveredBy, SelectedInVain, AnyInVain;
    if calls == [] {
      NoneInVain(c);
    }
    if calls != [] {
      var n := |calls| - 1;
      var before, call := calls[..n], calls[n];
      var s := Run(c, before);
      RoutedIsDelivered(c, before);
      CountedIsDeliveredUnlessInVain(c, s, call);
      VainIsSome(c, s, call);
      VainSplits(c, calls);
    }
  }

  lemma VainSplits(c: Config, calls: seq<Call>)
    requires calls != []
    ensures var n := |calls| - 1;
      AnyInVain(c, calls) <==> AnyInVain(c, calls[..n]) || SelectedInVain(c, Run(c, calls[..n]), calls[n])
  {
    hide Run, SelectedInVain;
    var n := |calls| - 1;
    var before := calls[..n];
    assert forall i :: 0 <= i < n ==> before[..i] == calls[..i];
    if AnyInVain(c, before) {
      var i :| 0 <= i < n && SelectedInVain(c, Run(c, before[..i]), before[i]);
      assert SelectedInVain(c, Run(c, calls[..i]), calls[i]);
    }
    if AnyInVain(c, calls) {
      var i :| 0 <= i < |calls| && SelectedInVain(c, Run(c, calls[..i]), calls[i]);
      assert i < n ==> SelectedInVain(c, Run(c, before[..i]), before[i]);
    }
  }

  lemma VainIsSome(c: Config, s: State, call: Call)
    ensures SelectedInVain(c, s, call) ==> SelectedBy(c, s, call) > 0
  {
  }

  lemma NoneInVain(c: Config)
    ensures !AnyInVain(c, [])
  {
  }

  // ---------- The other counters ----------

  /** How often something was told, or how much. */
  datatype Tally = Tally(bytes: nat, timeouts: nat, retries: nat, dropped: nat)

  function Timeouts(events: seq<DeliveryEvent>): nat
  {
    if events == [] then 0
    else (if events[0].Report? && events[0].outcome == Timeout then 1 else 0) + Timeouts(events[1..])
  }

  function Sendings(events: seq<DeliveryEvent>): nat
  {
    if events == [] then 0 else (if events[0].Deliver? then 1 else 0) + Sendings(events[1..])
  }

  /** A signal that passes the checks and that nobody is there to get. */
  predicate Drops(c: Config, s: State, call: Call)
  {
    && call.CallBegin? && call.frame.MessageFrame?
    && var m := call.frame.message;
    && m.kind == Signal && CheckHeaders(m.headers).Ok? && MessagePriority(m.headers).Ok? && m.id !in s.deliveries
    && var routed := Route(c, s, call.peer, m.destination, m.headers);
    && routed.Ok? && routed.value == {}
  }

  /** What one call adds: payload bytes for each recipient selected, what the clock told, and dropped signals. */
  function TallyOf(c: Config, s: State, call: Call): Tally
  {
    var told := if call.CallTick? then TickEvents(s.deliveries, call.now) else [];
    Tally(BytesBy(c, s, call), Timeouts(told), Sendings(told), if Drops(c, s, call) then 1 else 0)
  }

  function BytesBy(c: Config, s: State, call: Call): nat
  {
    if call.CallBegin? && call.frame.MessageFrame?
    then Copies(|call.frame.message.payload|, SelectedBy(c, s, call))
    else 0
  }

  function Copies(size: nat, recipients: nat): nat { size * recipients }

  function TallyOfRun(c: Config, calls: seq<Call>): Tally
    decreases |calls|
  {
    if calls == [] then Tally(0, 0, 0, 0)
    else
      var before, call := calls[..|calls| - 1], calls[|calls| - 1];
      var t, one := TallyOfRun(c, before), TallyOf(c, Run(c, before), call);
      Tally(t.bytes + one.bytes, t.timeouts + one.timeouts, t.retries + one.retries, t.dropped + one.dropped)
  }

  ghost predicate Counts(m: Metrics, n: Metrics, t: Tally)
  {
    && n.bytesRouted == SatAdd(m.bytesRouted, t.bytes) && n.timeouts == SatAdd(m.timeouts, t.timeouts)
    && n.retries == SatAdd(m.retries, t.retries) && n.droppedSignals == SatAdd(m.droppedSignals, t.dropped)
  }

  lemma {:induction false} SendingsConcat(a: seq<DeliveryEvent>, b: seq<DeliveryEvent>)
    ensures Sendings(a + b) == Sendings(a) + Sendings(b) && Timeouts(a + b) == Timeouts(a) + Timeouts(b)
    decreases |a|
  {
    if a == [] {
      assert a + b == b;
    } else {
      assert (a + b)[1..] == a[1..] + b;
      SendingsConcat(a[1..], b);
    }
  }

  lemma {:induction false} ReportsTally(d: Deliveries, now: u64)
    ensures Timeouts(TickReports(d, now)) == |Expired(d, now)| && Sendings(TickReports(d, now)) == 0
    decreases |d|
  {
    hide IsMin, FateOf;
    if d == map[] {
      assert Expired(d, now) == {};
    } else {
      var id := Min(d.Keys);
      var rest := d - {id};
      ReportsTally(rest, now);
      SendingsConcat(ReportsOf(id, d[id], now), TickReports(rest, now));
      assert Expired(d, now) == Expired(rest, now) + if FateOf(d[id], now).Expire? then {id} else {};
      OneReport(id, d[id], now);
    }
  }

  lemma OneReport(id: MessageId, p: Pending, now: u64)
    ensures Timeouts(ReportsOf(id, p, now)) == (if FateOf(p, now).Expire? then 1 else 0)
    ensures Sendings(ReportsOf(id, p, now)) == 0
  {
    hide FateOf;
  }

  lemma {:induction false} RetriesTally(d: Deliveries, now: u64)
    ensures |TickRetries(d, now)| == |Retried(d, now)|
    ensures forall x :: x in TickRetries(d, now) ==> x.1.Deliver?
    decreases |d|
  {
    hide IsMin, FateOf;
    if d == map[] {
      assert Retried(d, now) == {};
    } else {
      var id := Min(d.Keys);
      var rest := d - {id};
      RetriesTally(rest, now);
      assert Retried(d, now) == Retried(rest, now) + if FateOf(d[id], now).Again? then {id} else {};
    }
  }

  lemma {:induction false} InsertTally(x: Retry, r: seq<Retry>)
    requires x.1.Deliver? && forall y :: y in r ==> y.1.Deliver?
    ensures |InsertByPriority(x, r)| == |r| + 1 && forall y :: y in InsertByPriority(x, r) ==> y.1.Deliver?
  {
    if r != [] && r[0].0 > x.0 {
      InsertTally(x, r[1..]);
    }
  }

  lemma {:induction false} SortTally(r: seq<Retry>)
    requires forall y :: y in r ==> y.1.Deliver?
    ensures |SortByPriority(r)| == |r| && forall y :: y in SortByPriority(r) ==> y.1.Deliver?
  {
    if r != [] {
      SortTally(r[1..]);
      InsertTally(r[0], SortByPriority(r[1..]));
    }
  }

  lemma {:induction false} SendingsTally(r: seq<Retry>)
    requires forall y :: y in r ==> y.1.Deliver?
    ensures Sendings(EventsOf(r)) == |r| && Timeouts(EventsOf(r)) == 0
  {
    if r != [] {
      SendingsTally(r[1..]);
      assert EventsOf(r)[1..] == EventsOf(r[1..]);
    }
  }

  lemma TickTally(d: Deliveries, now: u64)
    ensures Timeouts(TickEvents(d, now)) == |Expired(d, now)| && Sendings(TickEvents(d, now)) == |Retried(d, now)|
  {
    hide TickReports, TickRetries, SortByPriority, EventsOf, FateOf;
    ReportsTally(d, now);
    RetriesTally(d, now);
    SortTally(TickRetries(d, now));
    SendingsTally(SortByPriority(TickRetries(d, now)));
    SendingsConcat(TickReports(d, now), EventsOf(SortByPriority(TickRetries(d, now))));
  }

  lemma AcceptTally(c: Config, s: State, sender: PeerId, m: Message, to: set<PeerId>, now: u64, priority: u8)
    ensures var t := Tally(|m.payload| * |to|, 0, 0, if m.kind == Signal && to == {} then 1 else 0);
      Counts(s.metrics, Accept(c, s, sender, m, to, now, priority).state.metrics, t)
  {
    hide CheckCapacity, QueuedFor, RequirementPossible, IsTracked, RetryNext, AcceptedEvents, NewPending;
    assert to == {} <==> |to| == 0;
  }

  lemma BeginTally(c: Config, s: State, call: Call)
    requires call.CallBegin?
    ensures Counts(s.metrics, BeginDelivery(c, s, call.peer, call.frame, call.now).state.metrics, TallyOf(c, s, call))
  {
    hide CheckHeaders, MessagePriority, Route, Accept, CompleteResponse;
    if call.frame.MessageFrame? {
      var m := call.frame.message;
      NoRouteForStrangers(c, s, call.peer, m);
      SameMetrics(s, call.peer, m);
      var routed, priority := Route(c, s, call.peer, m.destination, m.headers), MessagePriority(m.headers);
      if routed.Ok? && priority.Ok? {
        AcceptTally(c, s, call.peer, m, routed.value, call.now, priority.value);
      }
    }
  }

  lemma SameMetrics(s: State, sender: PeerId, m: Message)
    ensures CompleteResponse(s, sender, m).state.metrics == s.metrics
  {
    hide Completes, Forwarded;
  }

  lemma CallTally(c: Config, s: State, call: Call)
    ensures Counts(s.metrics, Apply(c, s, call).state.metrics, TallyOf(c, s, call))
  {
    hide CheckHeaders, Authorize, BeginDelivery, Acknowledged, TickEvents, Expired, Retried, ValidDbusName, Reports,
         OwnedNamespaces, SubscribedChannels, ReleaseEvents, WithoutOwner, WithoutSubscriber, SelectedBy, Timeouts, Sendings;
    NothingTold();
    match call
    case CallBegin(_, _, _) => BeginTally(c, s, call);
    case CallTick(now) => TickTally(s.deliveries, now);
    case _ =>
  }

  lemma NothingTold()
    ensures Timeouts([]) == 0 && Sendings([]) == 0
  {
  }

  /**
   Over every run the counters are, up to the largest they hold: payload bytes
   for each recipient ever selected, timeouts told by the clock, deliveries the
   clock repeated, and signals nobody was there for.
   */
  lemma {:induction false} CountersAgree(c: Config, calls: seq<Call>)
    ensures var m, t := Run(c, calls).metrics, TallyOfRun(c, calls);
      && m.bytesRouted == SatAdd(0, t.bytes) && m.timeouts == SatAdd(0, t.timeouts)
      && m.retries == SatAdd(0, t.retries) && m.droppedSignals == SatAdd(0, t.dropped)
    decreases |calls|
  {
    hide Apply, TallyOf;
    if calls != [] {
      var before, call := calls[..|calls| - 1], calls[|calls| - 1];
      CountersAgree(c, before);
      CallTally(c, Run(c, before), call);
    }
  }
}
