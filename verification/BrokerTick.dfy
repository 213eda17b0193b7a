/** The clock treats every delivery on its own, in a fixed order, and settles at once. */
module BrokerTick {
  import opened Order
  import opened Results
  import opened Protocol
  import opened Encoding
  import opened Decoding
  import opened RoundTrip
  import opened BrokerState
  import opened BrokerSteps
  import opened BrokerInvariants

  /** The delivery an event is about. */
  function Target(e: DeliveryEvent): MessageId
  {
    match e
    case Report(_, id, _) => id
    case Deliver(_, _, m) => if m.kind == Response then m.correlationId else m.id
  }

  /** The events about one delivery, in order. */
  function For(id: MessageId, events: seq<DeliveryEvent>): seq<DeliveryEvent>
  {
    if events == [] then []
    else (if Target(events[0]) == id then [events[0]] else []) + For(id, events[1..])
  }

  lemma {:induction false} ForConcat(id: MessageId, a: seq<DeliveryEvent>, b: seq<DeliveryEvent>)
    ensures For(id, a + b) == For(id, a) + For(id, b)
    decreases |a|
  {
    if a == [] {
      assert a + b == b;
    } else {
      assert (a + b)[1..] == a[1..] + b;
      ForConcat(id, a[1..], b);
    }
  }

  /** Deliveries are kept under the identifier of their message. */
  ghost predicate Keyed(d: Deliveries)
  {
    forall id :: id in d ==> d[id].message.id == id && d[id].message.kind != Response
  }

  lemma InvKeyed(c: Config, s: State)
    requires Inv(c, s)
    ensures Keyed(s.deliveries)
  {
    hide Registered;
  }

  /** What the clock says about one delivery. */
  function EventsForOne(id: MessageId, p: Pending, now: u64): seq<DeliveryEvent>
  {
    ReportsOf(id, p, now) + EventsOf(RetriesOf(p, now))
  }

  // ---------- The events about one delivery ----------

  lemma {:induction false} ReportsFor(d: Deliveries, now: u64, id: MessageId)
    ensures For(id, TickReports(d, now)) == if id in d then ReportsOf(id, d[id], now) else []
    decreases |d|
  {
    hide IsMin, FateOf;
    if d != map[] {
      var first := Min(d.Keys);
      var others := d - {first};
      assert others.Keys == d.Keys - {first};
      ForConcat(id, ReportsOf(first, d[first], now), TickReports(others, now));
      ReportsFor(others, now, id);
    }
  }

  lemma EventsOfConcat(a: seq<Retry>, b: seq<Retry>)
    ensures EventsOf(a + b) == EventsOf(a) + EventsOf(b)
    decreases |a|
  {
    if a == [] {
      assert a + b == b;
    } else {
      assert (a + b)[1..] == a[1..] + b;
      EventsOfConcat(a[1..], b);
    }
  }

  lemma {:induction false} RetriesFor(d: Deliveries, now: u64, id: MessageId)
    requires Keyed(d)
    ensures For(id, EventsOf(TickRetries(d, now))) == if id in d then EventsOf(RetriesOf(d[id], now)) else []
    decreases |d|
  {
    hide IsMin, FateOf;
    if d != map[] {
      var first := Min(d.Keys);
      var others := d - {first};
      assert others.Keys == d.Keys - {first};
      EventsOfConcat(RetriesOf(d[first], now), TickRetries(others, now));
      ForConcat(id, EventsOf(RetriesOf(d[first], now)), EventsOf(TickRetries(others, now)));
      RetriesFor(others, now, id);
      RetryFor(first, d[first], now, id);
    }
  }

  lemma RetryFor(first: MessageId, p: Pending, now: u64, id: MessageId)
    requires p.message.id == first && p.message.kind != Response
    ensures For(id, EventsOf(RetriesOf(p, now))) == if id == first then EventsOf(RetriesOf(p, now)) else []
  {
    hide FateOf;
  }

  lemma {:induction false} ForInsert(id: MessageId, x: Retry, r: seq<Retry>)
    ensures Target(x.1) != id ==> For(id, EventsOf(InsertByPriority(x, r))) == For(id, EventsOf(r))
    ensures Target(x.1) == id && For(id, EventsOf(r)) == [] ==> For(id, EventsOf(InsertByPriority(x, r))) == [x.1]
    decreases |r|
  {
    hide Target;
    if r == [] || r[0].0 <= x.0 {
      assert InsertByPriority(x, r) == [x] + r;
      assert ([x] + r)[1..] == r;
      assert EventsOf([x] + r) == [x.1] + EventsOf(r);
      assert ([x.1] + EventsOf(r))[1..] == EventsOf(r);
    } else {
      var tail := InsertByPriority(x, r[1..]);
      assert ([r[0]] + tail)[1..] == tail;
      assert EventsOf([r[0]] + tail) == [r[0].1] + EventsOf(tail);
      assert ([r[0].1] + EventsOf(tail))[1..] == EventsOf(tail);
      assert EventsOf(r)[1..] == EventsOf(r[1..]);
      ForInsert(id, x, r[1..]);
    }
  }

  lemma {:induction false} ForSorted(id: MessageId, r: seq<Retry>)
    requires |For(id, EventsOf(r))| <= 1
    ensures For(id, EventsOf(SortByPriority(r))) == For(id, EventsOf(r))
    decreases |r|
  {
    hide Target;
    if r != [] {
      assert EventsOf(r)[1..] == EventsOf(r[1..]);
      ForSorted(id, r[1..]);
      ForInsert(id, r[0], SortByPriority(r[1..]));
    }
  }

  /** For each delivery the clock emits exactly what it says about that delivery alone. */
  lemma TickRefinesOne(d: Deliveries, now: u64, id: MessageId)
    requires Keyed(d)
    ensures For(id, TickEvents(d, now)) == if id in d then EventsForOne(id, d[id], now) else []
  {
    hide For, FateOf, SortByPriority, TickRetries, TickReports;
    var retries := TickRetries(d, now);
    ForConcat(id, TickReports(d, now), EventsOf(SortByPriority(retries)));
    ReportsFor(d, now, id);
    RetriesFor(d, now, id);
    ForSorted(id, retries);
  }

  /** No delivery past its deadline is left. */
  lemma TickExpires(d: Deliveries, now: u64)
    ensures forall id :: id in TickDeliveries(d, now) ==> now < TickDeliveries(d, now)[id].deadline
  {
    hide RetryNext;
  }

  // ---------- The order of the events ----------

  /** All about deliveries in `d`, in ascending order of message identifiers. */
  ghost predicate Ascending(d: Deliveries, events: seq<DeliveryEvent>)
  {
    && (forall i :: 0 <= i < |events| ==> Target(events[i]) in d)
    && (forall i, j :: 0 <= i < j < |events| ==> Less(Target(events[i]), Target(events[j])))
  }

  lemma AscendingFirst(d: Deliveries, events: seq<DeliveryEvent>, head: seq<DeliveryEvent>)
    requires d != map[] && Ascending(d - {Min(d.Keys)}, events) && |head| <= 1
    requires head != [] ==> Target(head[0]) == Min(d.Keys)
    ensures Ascending(d, head + events)
  {
    hide Target, Less;
    var first := Min(d.Keys);
    assert (d - {first}).Keys == d.Keys - {first};
  }

  lemma {:induction false} ReportsAscend(d: Deliveries, now: u64)
    ensures Ascending(d, TickReports(d, now))
    ensures forall e :: e in TickReports(d, now) ==> e.Report?
    decreases |d|
  {
    hide IsMin, FateOf, Ascending;
    if d == map[] {
      assert Ascending(d, []) by { EmptyAscends(d); }
    } else {
      var first := Min(d.Keys);
      assert (d - {first}).Keys == d.Keys - {first};
      ReportsAscend(d - {first}, now);
      AscendingFirst(d, TickReports(d - {first}, now), ReportsOf(first, d[first], now));
    }
  }

  lemma EmptyAscends(d: Deliveries)
    ensures Ascending(d, [])
  {
  }

  /** The repeated deliveries of `d` with their priorities, in ascending order of message identifiers. */
  ghost predicate AscendingRetries(d: Deliveries, r: seq<Retry>)
  {
    && (forall i :: 0 <= i < |r| ==> Target(r[i].1) in d && r[i].0 == d[Target(r[i].1)].priority && r[i].1.Deliver?)
    && (forall i, j :: 0 <= i < j < |r| ==> Less(Target(r[i].1), Target(r[j].1)))
  }

  lemma {:induction false} RetriesAscend(d: Deliveries, now: u64)
    requires Keyed(d)
    ensures AscendingRetries(d, TickRetries(d, now))
    decreases |d|
  {
    hide IsMin, FateOf, Less, AscendingRetries;
    if d == map[] {
      NoRetriesAscend(d);
    } else {
      var first := Min(d.Keys);
      var others := d - {first};
      assert others.Keys == d.Keys - {first};
      RetriesAscend(others, now);
      RetryGoesFirst(d, RetriesOf(d[first], now), TickRetries(others, now));
    }
  }

  lemma NoRetriesAscend(d: Deliveries)
    ensures AscendingRetries(d, [])
  {
  }

  lemma RetryGoesFirst(d: Deliveries, head: seq<Retry>, r: seq<Retry>)
    requires d != map[] && AscendingRetries(d - {Min(d.Keys)}, r) && |head| <= 1
    requires head != [] ==> && head[0].1.Deliver? && Target(head[0].1) == Min(d.Keys)
                            && head[0].0 == d[Min(d.Keys)].priority
    ensures AscendingRetries(d, head + r)
  {
    hide Target, Less;
    var first := Min(d.Keys);
    assert (d - {first}).Keys == d.Keys - {first};
  }

  /** Higher priorities come first; equal ones in ascending order of message identifiers. */
  predicate Before(a: Retry, b: Retry)
  {
    a.0 > b.0 || (a.0 == b.0 && Less(Target(a.1), Target(b.1)))
  }

  ghost predicate Prioritised(r: seq<Retry>)
  {
    forall i, j :: 0 <= i < j < |r| ==> Before(r[i], r[j])
  }

  lemma {:induction false} InsertKeepsOrder(x: Retry, r: seq<Retry>)
    requires Prioritised(r)
    requires forall i :: 0 <= i < |r| ==> Less(Target(x.1), Target(r[i].1))
    ensures Prioritised(InsertByPriority(x, r))
    ensures multiset(InsertByPriority(x, r)) == multiset{x} + multiset(r)
    decreases |r|
  {
    hide Target, Less;
    if r == [] || r[0].0 <= x.0 {
      assert forall i :: 0 <= i < |r| ==> i == 0 || Before(r[0], r[i]);
      assert InsertByPriority(x, r) == [x] + r;
    } else {
      var tail := InsertByPriority(x, r[1..]);
      assert r == [r[0]] + r[1..];
      InsertKeepsOrder(x, r[1..]);
      forall i | 0 <= i < |tail| ensures Before(r[0], tail[i]) {
        assert tail[i] in multiset(tail);
        assert tail[i] == x || tail[i] in r[1..];
      }
    }
  }

  lemma SameElements(a: seq<Retry>, b: seq<Retry>)
    requires multiset(a) == multiset(b)
    ensures forall x :: x in a ==> x in b
  {
    forall x | x in a ensures x in b {
      assert x in multiset(a);
    }
  }

  lemma {:induction false} SortOrders(r: seq<Retry>)
    requires forall i, j :: 0 <= i < j < |r| ==> Less(Target(r[i].1), Target(r[j].1))
    ensures Prioritised(SortByPriority(r))
    ensures multiset(SortByPriority(r)) == multiset(r)
    decreases |r|
  {
    hide Target, Less;
    if r != [] {
      var sorted := SortByPriority(r[1..]);
      SortOrders(r[1..]);
      SameElements(sorted, r[1..]);
      forall i | 0 <= i < |sorted| ensures Less(Target(r[0].1), Target(sorted[i].1)) {
        assert sorted[i] in r[1..];
      }
      hide SortByPriority;
      InsertKeepsOrder(r[0], sorted);
      assert r == [r[0]] + r[1..];
    }
  }

  lemma {:induction false} EventsOfAt(r: seq<Retry>)
    ensures |EventsOf(r)| == |r| && forall i :: 0 <= i < |r| ==> EventsOf(r)[i] == r[i].1
    decreases |r|
  {
    if r != [] {
      EventsOfAt(r[1..]);
    }
  }

  /**
   The outcomes come first, in ascending order of message identifiers; then the
   repeated deliveries, by descending priority and then by identifier.
   */
  lemma TickOrder(d: Deliveries, now: u64)
    requires Keyed(d)
    ensures var events := TickEvents(d, now); var k := |TickReports(d, now)|;
      && k <= |events|
      && (forall i :: 0 <= i < |events| ==> Target(events[i]) in d && (events[i].Report? <==> i < k))
      && (forall i, j :: 0 <= i < j < k ==> Less(Target(events[i]), Target(events[j])))
      && (forall i, j :: k <= i < j < |events| ==>
            Before((d[Target(events[i])].priority, events[i]), (d[Target(events[j])].priority, events[j])))
  {
    hide Target, Less, SortByPriority, TickReports, TickRetries;
    var reports, retries := TickReports(d, now), TickRetries(d, now);
    var sorted := SortByPriority(retries);
    ReportsAscend(d, now);
    RetriesAscend(d, now);
    SortOrders(retries);
    EventsOfAt(sorted);
    forall i | 0 <= i < |sorted|
      ensures sorted[i].1.Deliver? && Target(sorted[i].1) in d && sorted[i].0 == d[Target(sorted[i].1)].priority
    {
      assert sorted[i] in multiset(sorted);
      assert sorted[i] in retries;
    }
    var events, k := TickEvents(d, now), |reports|;
    forall i | k <= i < |events| ensures (d[Target(events[i])].priority, events[i]) == sorted[i - k] {
    }
  }

  // ---------- The clock settles ----------

  /** The delivery options the codec lets through. */
  predicate CodecValid(m: Message)
  {
    && CheckOptions(m).None? && CheckIdentity(m).None?
    && EncAckRequirement(m.ackRequirement).Ok? && EncRetry(m.retry).Ok?
  }

  /** Every message the decoder returns satisfies them. */
  lemma DecodedIsCodecValid(packet: Bytes, limits: FrameLimits)
    requires Decode(packet, limits).Ok? && Decode(packet, limits).value.MessageFrame?
    ensures CodecValid(Decode(packet, limits).value.message)
  {
    hide Decode, CheckOptions, CheckIdentity, EncAckRequirement, EncRetry, EncDestination, EncHeaders, EncBinary;
    EncodeInvertsDecode(packet, limits);
  }

  /** The clock sends this delivery now, for the last time. */
  predicate LastAttempt(p: Pending, now: u64)
  {
    && FateOf(p, now).Again?
    && p.message.retry.Exponential? && p.attempts + 1 == p.message.retry.maxAttempts
  }

  /** One delivery at one instant: it waits, or its last attempt is over at the next call, or it ends now. */
  lemma FateSettles(p: Pending, now: u64)
    requires CodecValid(p.message) && !Ends(FateOf(p, now))
    ensures var q := Outlived(p, now);
      && (FateOf(q, now).Wait? || FateOf(q, now).GiveUp?)
      && (FateOf(q, now).GiveUp? <==> LastAttempt(p, now))
  {
    hide CheckOptions, CheckIdentity, EncAckRequirement;
    if FateOf(p, now).Again? {
      BackoffIsPositive(p.message.retry.initialBackoff, p.attempts + 1);
    }
  }

  lemma BackoffIsPositive(initial: u32, attempts: u8)
    requires initial >= 1
    ensures Backoff(initial, attempts) >= 1
  {
    var shift := if attempts == 0 then 0 else if attempts - 1 > 16 then 16 else attempts - 1;
    assert initial * Pow2(shift) >= 1 by {
      Multiply(initial, Pow2(shift));
    }
  }

  lemma Multiply(a: nat, b: nat)
    requires a >= 1 && b >= 1
    ensures a * b >= a
  {
  }

  ghost predicate AllCodecValid(d: Deliveries)
  {
    forall id :: id in d ==> CodecValid(d[id].message)
  }

  /** Every delivery waits, so the clock says and changes nothing. */
  lemma {:induction false} AllWait(d: Deliveries, now: u64)
    requires forall id :: id in d ==> FateOf(d[id], now).Wait?
    ensures TickDeliveries(d, now) == d && TickReports(d, now) == [] && TickRetries(d, now) == []
    ensures Expired(d, now) == {} && Retried(d, now) == {}
    decreases |d|
  {
    hide IsMin, FateOf;
    if d != map[] {
      var first := Min(d.Keys);
      assert (d - {first}).Keys == d.Keys - {first};
      AllWait(d - {first}, now);
    }
  }

  /**
   After two calls at one instant a third says and changes nothing. The second
   call ends exactly the deliveries the first one sent for the last time, each
   with a failure report.
   */
  lemma TickSettles(s: State, now: u64)
    requires Keyed(s.deliveries) && AllCodecValid(s.deliveries)
    ensures var s1 := TickStep(s, now).state; var s2 := TickStep(s1, now).state;
      && TickStep(s2, now) == Step(s2, Ok([]))
      && (forall id: MessageId :: For(id, TickStep(s1, now).result.value) == FailuresFor(s.deliveries, id, now))
  {
    hide CodecValid, FateOf, LastAttempt, TickEvents, For;
    var d := s.deliveries;
    var d1 := TickDeliveries(d, now);
    var d2 := TickDeliveries(d1, now);
    forall id | id in d1
      ensures FateOf(d1[id], now).Wait? || FateOf(d1[id], now).GiveUp?
      ensures FateOf(d1[id], now).GiveUp? <==> LastAttempt(d[id], now)
    {
      FateSettles(d[id], now);
    }
    SecondTick(d, d1, now);
    AllWait(d2, now);
    NothingToSay(d2, now);
  }

  /** The failure report of a delivery that was sent for the last time. */
  function FailuresFor(d: Deliveries, id: MessageId, now: u64): seq<DeliveryEvent>
  {
    if id in d && LastAttempt(d[id], now) then [Report(d[id].sender, id, DeliveryFailed)] else []
  }

  lemma LastAttemptStays(d: Deliveries, now: u64, id: MessageId)
    requires id in d && LastAttempt(d[id], now)
    ensures id in TickDeliveries(d, now)
  {
    hide FateOf;
  }

  lemma NothingToSay(d: Deliveries, now: u64)
    requires TickReports(d, now) == [] && TickRetries(d, now) == []
    ensures TickEvents(d, now) == []
  {
  }

  lemma SecondTick(d: Deliveries, d1: Deliveries, now: u64)
    requires Keyed(d) && d1 == TickDeliveries(d, now)
    requires forall id :: id in d1 ==> FateOf(d1[id], now).Wait? || FateOf(d1[id], now).GiveUp?
    requires forall id :: id in d1 ==> (FateOf(d1[id], now).GiveUp? <==> LastAttempt(d[id], now))
    ensures forall id :: id in TickDeliveries(d1, now) ==> FateOf(TickDeliveries(d1, now)[id], now).Wait?
    ensures forall id: MessageId :: For(id, TickEvents(d1, now)) == FailuresFor(d, id, now)
  {
    hide TickEvents, For, FateOf, LastAttempt;
    OutlivedIsSame(d, now);
    forall id: MessageId
      ensures For(id, TickEvents(d1, now)) == FailuresFor(d, id, now)
    {
      TickRefinesOne(d1, now, id);
      if id in d && LastAttempt(d[id], now) {
        LastAttemptStays(d, now, id);
      }
    }
  }

  lemma OutlivedIsSame(d: Deliveries, now: u64)
    ensures forall id :: id in TickDeliveries(d, now) ==>
      && id in d
      && TickDeliveries(d, now)[id].sender == d[id].sender && TickDeliveries(d, now)[id].message == d[id].message
  {
    hide RetryNext;
  }
}
