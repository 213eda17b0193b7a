/**
 The life of every reliable delivery, as an observer of the broker's calls and
 answers sees it: its attempts, its acknowledgement reports, the responses to it
 and what ended it.
 */
module BrokerLives {
  import opened Order
  import opened Protocol
  import opened Encoding
  import opened BrokerState
  import opened BrokerSteps
  import opened BrokerTick

  /** One time a message was sent to recipients. */
  datatype Attempt = Attempt(time: u64, recipients: set<PeerId>, message: Message)

  /** What ended a delivery: its last forwarded response, or an outcome told to its sender and the call that brought it. */
  datatype Ending = ByResponse | ByOutcome(outcome: Outcome, cause: Call)

  /** What was observed of one delivery since its message was accepted. */
  datatype Life = Life(
    sender: PeerId,
    message: Message,
    recipients: set<PeerId>,
    attempts: seq<Attempt>,
    acks: map<PeerId, AckPolicy>,
    ackReports: nat,
    responders: seq<PeerId>,
    answers: map<PeerId, Message>,
    forwards: seq<DeliveryEvent>,
    endings: seq<Ending>)

  type Lives = map<MessageId, Life>

  // ---------- Observation ----------

  /** A forwarded response ends its request, except that under `All` only the last one does. */
  predicate FinalForward(l: Life)
  {
    l.message.requestPolicy == AllResponses ==> |l.forwards| == |l.recipients|
  }

  function Observe(l: Life, call: Call, e: DeliveryEvent): Life
  {
    match e
    case Deliver(from, r, m) =>
      if m.kind == Response then
        var l1 := l.(forwards := l.forwards + [e]);
        l1.(endings := l.endings + if FinalForward(l1) then [ByResponse] else [])
      else if from != l.sender then l
      else l.(attempts := l.attempts + [Attempt(TimeOf(call), r, m)])
    case Report(to, _, outcome) =>
      if to != l.sender then l
      else if outcome.Received? || outcome.Processed? then
        l.(ackReports := l.ackReports + 1,
           endings := l.endings + if l.message.kind == Request then [] else [ByOutcome(outcome, call)])
      else if outcome.Timeout? || outcome.DeliveryFailed? || outcome.RecipientDisconnected? then
        l.(endings := l.endings + [ByOutcome(outcome, call)])
      else l
  }

  function ObserveAll(l: Life, call: Call, events: seq<DeliveryEvent>): Life
    decreases |events|
  {
    if events == [] then l else ObserveAll(Observe(l, call, events[0]), call, events[1..])
  }

  function TimeOf(call: Call): u64
  {
    if call.CallBegin? || call.CallTick? then call.now else 0
  }

  function NewLife(sender: PeerId, m: Message, recipients: set<PeerId>): Life
  {
    Life(sender, m, recipients, [], map[], 0, [], map[], [], [])
  }

  function WithAnswer(l: Life, responder: PeerId, m: Message): Life
  {
    l.(responders := l.responders + [responder], answers := l.answers[responder := m])
  }

  function WithAck(l: Life, peer: PeerId, policy: AckPolicy): Life
  {
    l.(acks := l.acks[peer := policy])
  }

  /** Lives that a successful call starts, forgets, acknowledges or answers. */
  function Opened(lives: Lives, call: Call, events: seq<DeliveryEvent>): Lives
  {
    if call.CallAcknowledge? then
      if call.id in lives then lives[call.id := WithAck(lives[call.id], call.peer, call.policy)] else lives
    else if !call.CallBegin? || !call.frame.MessageFrame? then lives
    else
      var m := call.frame.message;
      if m.kind == Response then
        if m.correlationId in lives then
          lives[m.correlationId := WithAnswer(lives[m.correlationId], call.peer, m)]
        else lives
      else if IsTracked(m) && events != [] && events[0].Deliver? then
        lives[m.id := NewLife(call.peer, m, events[0].recipients)]
      else lives - {m.id}
  }

  function Watch(lives: Lives, call: Call, answer: Answer): Lives
  {
    if answer.Err? then lives
    else
      var known := Opened(lives, call, answer.value);
      map id | id in known :: ObserveAll(known[id], call, For(id, answer.value))
  }

  // ---------- What is true of a life ----------

  /** A requirement that nobody has met before the first acknowledgement. */
  predicate RealRequirement(m: Message)
  {
    WantsAck(m.ackPolicy) && m.ackRequirement != NoneRequired && m.ackRequirement != Minimum(0)
  }

  /** The same message each time, to fewer and fewer recipients, in time and no more often than allowed. */
  ghost predicate Paced(l: Life)
  {
    && (forall i :: 0 <= i < |l.attempts| ==>
          && l.attempts[i].message == l.message && l.attempts[i].recipients <= l.recipients
          && (l.message.kind != Request && RealRequirement(l.message) ==> l.attempts[i].recipients != {}))
    && (forall i, j :: 0 <= i < j < |l.attempts| ==> l.attempts[j].recipients <= l.attempts[i].recipients)
    && (forall k :: 1 <= k < |l.attempts| ==>
          l.attempts[k].time < l.attempts[0].time + l.message.deadline <= U64_MAX)
    && match l.message.retry
       case NoRetry => |l.attempts| <= 1
       case Exponential(initial, max) =>
         && (|l.attempts| <= 1 || |l.attempts| <= max)
         && forall k :: 1 <= k < |l.attempts| ==> Spaced(l.attempts, initial, k)
  }

  /** Attempt number `k + 1` came no earlier than the backoff after attempt number `k`. */
  predicate Spaced(attempts: seq<Attempt>, initial: u32, k: nat)
    requires 1 <= k < |attempts|
  {
    k <= U8_MAX && attempts[k].time >= SatAdd(attempts[k - 1].time, Backoff(initial, k))
  }

  /** There are recipients, and each answered at most once. */
  ghost predicate AnswersOk(l: Life)
  {
    && l.recipients != {}
    && |l.responders| == |l.answers|
    && (forall i :: 0 <= i < |l.responders| ==> l.responders[i] in l.answers)
    && (forall i, j :: 0 <= i < j < |l.responders| ==> l.responders[i] != l.responders[j])
    && l.answers.Keys <= l.recipients
    && (forall r :: r in l.answers ==> l.answers[r].kind == Response)
  }

  function Last(l: Life): PeerId
    requires l.responders != []
  {
    l.responders[|l.responders| - 1]
  }

  /** Whose frame the forward number `i` carries. */
  function Author(l: Life, i: nat): PeerId
    requires i < |l.responders| && l.answers != map[]
  {
    if l.message.requestPolicy != FirstSuccess then l.responders[i]
    else if Last(l) in l.answers && l.answers[Last(l)].status == Success then Last(l)
    else Least(l.answers.Keys)
  }

  /** How many responses have been forwarded. */
  function ForwardCount(l: Life): nat
  {
    if l.message.requestPolicy != FirstSuccess then |l.responders|
    else if l.responders != [] && ((Last(l) in l.answers && l.answers[Last(l)].status == Success)
                                   || |l.responders| == |l.recipients|) then 1
    else 0
  }

  /** Who a forward names as its origin: the peer whose response caused it. */
  function Label(l: Life, i: nat): PeerId
    requires i < |l.responders|
  {
    if l.message.requestPolicy != FirstSuccess then l.responders[i] else Last(l)
  }

  ghost predicate ForwardsOk(l: Life)
  {
    && |l.forwards| == ForwardCount(l)
    && (forall i :: 0 <= i < |l.forwards| ==>
          && i < |l.responders| && l.answers != map[] && Author(l, i) in l.answers
          && l.forwards[i] == Deliver(Label(l, i), {l.sender}, l.answers[Author(l, i)]))
    && (l.message.requestPolicy == Exact || l.message.requestPolicy == RequestPolicy.First ==> |l.responders| <= 1)
    && (l.message.requestPolicy == FirstSuccess ==>
          forall i :: 0 <= i < |l.responders| - 1 ==>
            l.responders[i] in l.answers && l.answers[l.responders[i]].status != Success)
  }

  /** A request is over once its responses meet its policy. */
  predicate Over(l: Life)
  {
    match l.message.requestPolicy
    case Exact => l.responders != []
    case First => l.responders != []
    case FirstSuccess => ForwardCount(l) == 1
    case AllResponses => |l.responders| == |l.recipients|
  }

  /** What an acknowledgement must say: that the message was processed, if that is wanted, and otherwise at least received. */
  predicate Suffices(wanted: AckPolicy, given: AckPolicy)
  {
    match wanted
    case Processed => given == AckPolicy.Processed
    case Received => given == AckPolicy.Received || given == AckPolicy.Processed
    case _ => false
  }

  /** Acknowledgement is reported once, and exactly when the recipients that acknowledged meet the requirement. */
  ghost predicate AcksTold(l: Life)
  {
    && l.acks.Keys <= l.recipients && l.ackReports <= 1
    && (forall p :: p in l.acks ==> Suffices(l.message.ackPolicy, l.acks[p]))
    && (RealRequirement(l.message) ==>
          (l.ackReports == 1 <==> RequirementMet(l.message.ackRequirement, |l.acks|, |l.recipients|)))
  }

  ghost predicate Sound(l: Life)
  {
    Paced(l) && AnswersOk(l) && ForwardsOk(l) && AcksTold(l)
  }

  /**
   An ending with its reason: a request's by its responses once they meet its
   policy and by nothing else after that, a timeout by the clock at the deadline,
   a failure by the clock before it and with no attempt left, an acknowledgement
   as it was asked for by a recipient that gave it, a loss by a recipient leaving.
   */
  predicate Rightly(l: Life, e: Ending)
  {
    match e
    case ByResponse => l.message.kind == Request && Over(l)
    case ByOutcome(outcome, cause) =>
      && (l.message.kind == Request ==> !Over(l))
      && l.attempts != []
      && match outcome
         case Timeout => cause.CallTick? && cause.now >= l.attempts[0].time + l.message.deadline
         case DeliveryFailed =>
           && l.message.retry.Exponential? && |l.attempts| >= l.message.retry.maxAttempts
           && cause.CallTick? && cause.now < l.attempts[0].time + l.message.deadline
         case Received => l.message.ackPolicy.Received? && Acknowledging(l, cause)
         case Processed => l.message.ackPolicy.Processed? && Acknowledging(l, cause)
         case RecipientDisconnected => cause.CallDisconnect? && cause.peer in l.recipients
         case _ => false
  }

  /** The call is the acknowledgement that completed a signal. */
  predicate Acknowledging(l: Life, call: Call)
  {
    && call.CallAcknowledge? && call.id == l.message.id && call.peer in l.acks && call.policy == l.acks[call.peer]
    && l.message.kind != Request && l.ackReports == 1
  }

  predicate EndedOnce(l: Life) { |l.endings| == 1 && Rightly(l, l.endings[0]) }

  // ---------- A life against the delivery in flight ----------

  ghost predicate SameDelivery(l: Life, p: Pending)
  {
    && l.sender == p.sender && l.message == p.message && l.recipients == p.recipients
    && l.endings == [] && l.answers == p.responses
    && (p.message.kind == Request ==> !Over(l))
  }

  ghost predicate OnSchedule(l: Life, p: Pending)
  {
    && |l.attempts| == p.attempts && |l.attempts| >= 1
    && p.deadline == l.attempts[0].time + p.message.deadline
    && p.nextRetry == RetryNext(p.message.retry, l.attempts[|l.attempts| - 1].time, p.attempts)
    && p.recipients - p.acknowledgements <= l.attempts[|l.attempts| - 1].recipients
  }

  ghost predicate AcksCounted(l: Life, p: Pending)
  {
    && l.acks.Keys == p.acknowledgements
    && l.ackReports == (if p.acknowledgementComplete then 1 else 0)
    && (p.message.kind != Request ==> !p.acknowledgementComplete)
    && (RealRequirement(p.message) ==>
          (p.acknowledgementComplete <==>
             RequirementMet(p.message.ackRequirement, |p.acknowledgements|, |p.recipients|)))
  }

  ghost predicate Live(l: Life, p: Pending)
  {
    SameDelivery(l, p) && OnSchedule(l, p) && AcksCounted(l, p)
  }

  /** A life in flight has not ended; any other has ended exactly once, and for its reason. */
  ghost predicate LifeOk(d: Deliveries, id: MessageId, l: Life)
  {
    Sound(l) && if id in d then Live(l, d[id]) else EndedOnce(l)
  }

  ghost predicate LivesOk(d: Deliveries, lives: Lives)
  {
    && (forall id :: id in d ==> id in lives)
    && (forall id :: id in lives ==> LifeOk(d, id, lives[id]))
  }

  // ---------- One delivery, one step ----------

  lemma LifeOpens(call: Call, sender: PeerId, m: Message, recipients: set<PeerId>, priority: u8)
    requires m.kind != Response && recipients != {} && TimeOf(call) + m.deadline <= U64_MAX
    requires RequirementPossible(m.ackRequirement, |recipients|)
    ensures var l := ObserveAll(NewLife(sender, m, recipients), call, AcceptedEvents(sender, m, recipients));
      Sound(l) && Live(l, NewPending(sender, m, recipients, TimeOf(call), priority))
  {
    hide RetryNext, ObserveAll;
    FirstAttempt(call, sender, m, recipients);
    assert recipients != {} ==> |recipients| != 0;
  }

  lemma FirstAttempt(call: Call, sender: PeerId, m: Message, recipients: set<PeerId>)
    requires m.kind != Response
    ensures ObserveAll(NewLife(sender, m, recipients), call, AcceptedEvents(sender, m, recipients))
         == NewLife(sender, m, recipients).(attempts := [Attempt(TimeOf(call), recipients, m)])
  {
    var l, events := NewLife(sender, m, recipients), AcceptedEvents(sender, m, recipients);
    var l1 := l.(attempts := [Attempt(TimeOf(call), recipients, m)]);
    assert Observe(l, call, events[0]) == l1;
    if |events| == 1 {
      ObserveOne(l, call, events[0]);
    } else {
      assert events[1..] == [events[1]];
      ObserveOne(l1, call, events[1]);
    }
  }

  lemma ObserveOne(l: Life, call: Call, e: DeliveryEvent)
    ensures ObserveAll(l, call, [e]) == Observe(l, call, e)
  {
    hide Observe;
    assert [e][1..] == [];
  }

  lemma LifeEnds(l: Life, call: Call, e: DeliveryEvent)
    requires Sound(l) && l.endings == [] && e.Report? && e.sender == l.sender
    requires e.outcome.Timeout? || e.outcome.DeliveryFailed? || e.outcome.RecipientDisconnected?
    requires Rightly(l, ByOutcome(e.outcome, call))
    ensures EndedOnce(ObserveAll(l, call, [e])) && Sound(ObserveAll(l, call, [e]))
  {
    hide Paced, AnswersOk, ForwardsOk, ObserveAll;
    ObserveOne(l, call, e);
    assert Observe(l, call, e) == l.(endings := [ByOutcome(e.outcome, call)]);
    SoundIgnoresEndings(l, Observe(l, call, e));
  }

  lemma SoundIgnoresEndings(l: Life, k: Life)
    requires Sound(l) && AcksTold(k)
    requires k == l.(endings := k.endings, acks := k.acks, ackReports := k.ackReports)
    ensures Sound(k)
  {
    assert forall i :: 0 <= i < |l.responders| && l.answers != map[] ==> Author(k, i) == Author(l, i);
  }

  lemma LifeRepeats(l: Life, p: Pending, now: u64)
    requires Sound(l) && Live(l, p) && FateOf(p, now).Again? && p.message.kind != Response
    requires p.recipients != {} && p.acknowledgements <= p.recipients
    requires RequirementPossible(p.message.ackRequirement, |p.recipients|)
    ensures var l1 := ObserveAll(l, CallTick(now), EventsOf(RetriesOf(p, now)));
      Sound(l1) && Live(l1, Outlived(p, now))
  {
    var e := Deliver(p.sender, p.recipients - p.acknowledgements, p.message);
    hide Paced, AnswersOk, ForwardsOk, Over, AcksCounted, RealRequirement, RequirementPossible, RetryNext, ObserveAll;
    assert EventsOf(RetriesOf(p, now)) == [e];
    ObserveOne(l, CallTick(now), e);
    if p.message.kind != Request && RealRequirement(p.message) {
      StillWaiting(l, p);
    }
    AttemptIsPaced(l, p, now);
    var l1 := ObserveAll(l, CallTick(now), [e]);
    SameAnswers(l, l1);
    SameAcks(l, p, l1, Outlived(p, now));
  }

  /** A signal in flight has a recipient that has not acknowledged it. */
  lemma StillWaiting(l: Life, p: Pending)
    requires AcksCounted(l, p) && p.message.kind != Request && RealRequirement(p.message)
    requires p.recipients != {} && p.acknowledgements <= p.recipients
    requires RequirementPossible(p.message.ackRequirement, |p.recipients|)
    ensures p.recipients - p.acknowledgements != {}
  {
    assert p.acknowledgements != p.recipients;
    var x :| x in p.recipients && x !in p.acknowledgements;
    assert x in p.recipients - p.acknowledgements;
  }

  lemma AttemptIsPaced(l: Life, p: Pending, now: u64)
    requires Paced(l) && SameDelivery(l, p) && OnSchedule(l, p) && FateOf(p, now).Again?
    requires p.message.kind != Request && RealRequirement(p.message) ==> p.recipients - p.acknowledgements != {}
    ensures Paced(l.(attempts := l.attempts + [Attempt(now, p.recipients - p.acknowledgements, p.message)]))
  {
    hide Backoff, SatAdd, Over;
    var l1 := l.(attempts := l.attempts + [Attempt(now, p.recipients - p.acknowledgements, p.message)]);
    var n := |l.attempts|;
    var initial := l.message.retry.initialBackoff;
    forall k | 1 <= k < |l1.attempts| ensures Spaced(l1.attempts, initial, k) {
      if k < n {
        assert Spaced(l.attempts, initial, k);
      }
    }
  }

  lemma SameAcks(l: Life, p: Pending, k: Life, q: Pending)
    requires AcksCounted(l, p) && k.ackReports == l.ackReports && k.acks == l.acks
    requires q == p.(attempts := q.attempts, nextRetry := q.nextRetry)
    ensures AcksCounted(k, q)
  {
  }

  lemma SameAnswers(l: Life, k: Life)
    requires AnswersOk(l) && ForwardsOk(l) && k == l.(attempts := k.attempts)
    ensures AnswersOk(k) && ForwardsOk(k) && (Over(l) <==> Over(k))
  {
    assert forall i :: 0 <= i < |l.responders| && l.answers != map[] ==> Author(k, i) == Author(l, i);
  }

  // ---------- Acknowledgements ----------

  lemma MoreAcks(p: Pending, peer: PeerId)
    requires peer in p.recipients && p.acknowledgements <= p.recipients
    requires RequirementMet(p.message.ackRequirement, |p.acknowledgements|, |p.recipients|)
    ensures RequirementMet(p.message.ackRequirement, |p.acknowledgements + {peer}|, |p.recipients|)
  {
    if p.message.ackRequirement == AllOf {
      SameSizeSubset(p.acknowledgements, p.recipients);
    }
    if peer in p.acknowledgements {
      assert p.acknowledgements + {peer} == p.acknowledgements;
    }
  }

  lemma SameSizeSubset<T>(a: set<T>, b: set<T>)
    requires a <= b && |a| == |b|
    ensures a == b
  {
    assert b == a + (b - a);
  }

  lemma LifeAcks(l: Life, p: Pending, id: MessageId, peer: PeerId, policy: AckPolicy)
    requires Sound(l) && Live(l, p) && WantsAck(p.message.ackPolicy) && p.message.id == id
    requires peer in p.recipients && p.acknowledgements <= p.recipients
    requires AcknowledgementSatisfies(p.message.ackPolicy, policy)
    ensures var p1 := Acknowledged(p, peer); var l0 := WithAck(l, peer, policy);
      if p.acknowledgementComplete || !p1.acknowledgementComplete then Sound(l0) && Live(l0, p1)
      else
        var l1 := ObserveAll(l0, CallAcknowledge(peer, id, policy), [Report(p.sender, id, AckOutcome(p.message.ackPolicy))]);
        Sound(l1) && if p.message.kind == Request then Live(l1, p1) else EndedOnce(l1)
  {
    hide Paced, AnswersOk, ForwardsOk, AcksTold, AcksCounted, OnSchedule, Over, Acknowledged, ObserveAll;
    var p1, l0, call := Acknowledged(p, peer), WithAck(l, peer, policy), CallAcknowledge(peer, id, policy);
    AckReports(l, p, peer);
    if !p.acknowledgementComplete && p1.acknowledgementComplete {
      var e := Report(p.sender, id, AckOutcome(p.message.ackPolicy));
      ObserveOne(l0, call, e);
      var l1 := ObserveAll(l0, call, [e]);
      AckCounts(l, p, peer, policy, l1);
      SoundIgnoresEndings(l, l1);
      SamePromises(l, p, l1, p1);
    } else {
      AckCounts(l, p, peer, policy, l0);
      SoundIgnoresEndings(l, l0);
      SamePromises(l, p, l0, p1);
    }
  }

  lemma AckReports(l: Life, p: Pending, peer: PeerId)
    requires AcksCounted(l, p)
    ensures l.ackReports == (if p.acknowledgementComplete then 1 else 0)
    ensures p.message.kind != Request ==> !p.acknowledgementComplete
    ensures var p1 := Acknowledged(p, peer);
      && p1 == p.(acknowledgements := p1.acknowledgements, acknowledgementComplete := p1.acknowledgementComplete)
      && p1.acknowledgements == p.acknowledgements + {peer} && (p.acknowledgementComplete ==> p1.acknowledgementComplete)
  {
    hide RequirementMet;
  }

  /** A life after one more sufficient acknowledgement, reported if it completed the requirement. */
  lemma AckCounts(l: Life, p: Pending, peer: PeerId, policy: AckPolicy, k: Life)
    requires AcksTold(l) && AcksCounted(l, p) && l.message == p.message && l.recipients == p.recipients
    requires peer in p.recipients && AcknowledgementSatisfies(p.message.ackPolicy, policy)
    requires k.message == l.message && k.recipients == l.recipients && k.acks == l.acks[peer := policy]
    requires k.ackReports == if Acknowledged(p, peer).acknowledgementComplete then 1 else 0
    ensures AcksTold(k)
    ensures var p1 := Acknowledged(p, peer); p.message.kind == Request || !p1.acknowledgementComplete ==> AcksCounted(k, p1)
  {
    hide RequirementMet;
    var p1 := Acknowledged(p, peer);
    assert k.acks.Keys == p1.acknowledgements;
    if RequirementMet(p.message.ackRequirement, |p.acknowledgements|, |p.recipients|) {
      MoreAcks(p, peer);
    }
  }

  lemma SamePromises(l: Life, p: Pending, k: Life, q: Pending)
    requires OnSchedule(l, p) && k == l.(endings := k.endings, acks := k.acks, ackReports := k.ackReports)
    requires q == p.(acknowledgements := q.acknowledgements, acknowledgementComplete := q.acknowledgementComplete)
    requires p.acknowledgements <= q.acknowledgements
    ensures OnSchedule(k, q) && l.attempts != [] && (Over(l) <==> Over(k))
  {
    hide RetryNext;
  }

  // ---------- Responses ----------

  lemma AnswerIsNew(l: Life, responder: PeerId, m: Message)
    requires AnswersOk(l) && responder in l.recipients && responder !in l.answers && m.kind == Response
    ensures AnswersOk(WithAnswer(l, responder, m))
  {
    var l1 := WithAnswer(l, responder, m);
    assert l1.answers.Keys == l.answers.Keys + {responder};
    assert |l1.answers| == |l.answers| + 1;
    NewResponder(l.responders, l.answers.Keys, responder);
    forall i | 0 <= i < |l1.responders| ensures l1.responders[i] in l1.answers {
      assert i < |l.responders| ==> l.responders[i] in l.answers;
    }
  }

  lemma NewResponder(responders: seq<PeerId>, answered: set<PeerId>, responder: PeerId)
    requires forall i :: 0 <= i < |responders| ==> responders[i] in answered
    requires responder !in answered && forall i, j :: 0 <= i < j < |responders| ==> responders[i] != responders[j]
    ensures var all := responders + [responder]; forall i, j :: 0 <= i < j < |all| ==> all[i] != all[j]
  {
  }

  /** The events a response causes. */
  function ResponseEvents(p: Pending, responder: PeerId, m: Message): seq<DeliveryEvent>
  {
    var p1 := Respond(p, responder, m);
    assert responder in p1.responses;
    if Forwarded(p1, m).Some? then [Deliver(responder, {p.sender}, Forwarded(p1, m).value)] else []
  }

  /** The life after an accepted response and the events it caused. */
  function Answered(l: Life, p: Pending, responder: PeerId, m: Message, call: Call): Life
  {
    ObserveAll(WithAnswer(l, responder, m), call, ResponseEvents(p, responder, m))
  }

  ghost predicate CanAnswer(l: Life, p: Pending, responder: PeerId, m: Message)
  {
    && Sound(l) && SameDelivery(l, p) && p.message.kind == Request && m.kind == Response
    && responder in p.recipients && responder !in p.responses
  }

  lemma AnsweredLife(l: Life, p: Pending, responder: PeerId, m: Message, call: Call)
    requires CanAnswer(l, p, responder, m)
    ensures var l1 := WithAnswer(l, responder, m); var events := ResponseEvents(p, responder, m);
      Answered(l, p, responder, m, call) ==
        l1.(forwards := l.forwards + events,
            endings := if events != [] && FinalForward(l1.(forwards := l.forwards + events)) then [ByResponse] else [])
  {
    hide Paced, ForwardsOk, Over, Completes;
    var l1, events := WithAnswer(l, responder, m), ResponseEvents(p, responder, m);
    if events != [] {
      assert events[0].message.kind == Response;
      ObserveOne(l1, call, events[0]);
      assert events == [events[0]];
    }
  }

  lemma AnsweredForwards(l: Life, p: Pending, responder: PeerId, m: Message, call: Call)
    requires CanAnswer(l, p, responder, m)
    ensures AnswersOk(Answered(l, p, responder, m, call)) && ForwardsOk(Answered(l, p, responder, m, call))
  {
    hide Answered, Paced;
    AnsweredLife(l, p, responder, m, call);
    AnswerIsNew(l, responder, m);
    var l1, l2 := WithAnswer(l, responder, m), Answered(l, p, responder, m, call);
    if l.message.requestPolicy == FirstSuccess {
      FirstSuccessForwards(l, p, responder, m, l2);
    } else {
      EachForwarded(l, p, responder, m, l2);
    }
  }

  /** Outside `FirstSuccess` every accepted response is forwarded under its own name. */
  lemma EachForwarded(l: Life, p: Pending, responder: PeerId, m: Message, l2: Life)
    requires CanAnswer(l, p, responder, m) && l.message.requestPolicy != FirstSuccess
    requires l2 == WithAnswer(l, responder, m).(forwards := l.forwards + ResponseEvents(p, responder, m),
                                               endings := l2.endings)
    ensures ForwardsOk(l2)
  {
    hide Paced, FinalForward, Completes;
    assert ResponseEvents(p, responder, m) == [Deliver(responder, {p.sender}, m)];
    assert responder in l2.answers;
    forall i | 0 <= i < |l2.forwards|
      ensures l2.forwards[i] == Deliver(Label(l2, i), {l2.sender}, l2.answers[Author(l2, i)])
    {
      if i < |l.forwards| {
        assert l.responders[i] in l.answers;
      }
    }
  }

  /** Under `FirstSuccess` nothing is forwarded before the response that decides the request. */
  lemma FirstSuccessForwards(l: Life, p: Pending, responder: PeerId, m: Message, l2: Life)
    requires CanAnswer(l, p, responder, m) && l.message.requestPolicy == FirstSuccess
    requires l2 == WithAnswer(l, responder, m).(forwards := l.forwards + ResponseEvents(p, responder, m),
                                               endings := l2.endings)
    ensures ForwardsOk(l2)
  {
    hide Paced, FinalForward;
    assert l.forwards == [];
    assert responder in l2.answers && Last(l2) == responder && l2.answers[responder] == m;
    assert l2.answers == Respond(p, responder, m).responses;
    forall i | 0 <= i < |l2.responders| - 1
      ensures l2.responders[i] in l2.answers && l2.answers[l2.responders[i]].status != Success
    {
      assert l.responders[i] in l.answers;
      if i == |l.responders| - 1 {
        assert l.responders[i] == Last(l);
      }
    }
  }

  lemma LifeResponds(l: Life, p: Pending, responder: PeerId, m: Message, call: Call)
    requires CanAnswer(l, p, responder, m) && Live(l, p)
    ensures var l1 := Answered(l, p, responder, m, call); var p1 := Respond(p, responder, m);
      Sound(l1) && if Completes(p1, m.status) then EndedOnce(l1) else Live(l1, p1)
  {
    hide Answered, RetryNext, AcksCounted, OnSchedule;
    AnsweredLife(l, p, responder, m, call);
    AnsweredForwards(l, p, responder, m, call);
    var l1, p1 := Answered(l, p, responder, m, call), Respond(p, responder, m);
    SamePace(l, l1);
    SamePlan(l, p, l1, p1);
    AnswersDecide(l, p, responder, m, l1);
  }

  lemma SamePace(l: Life, k: Life)
    requires Paced(l) && k == l.(responders := k.responders, answers := k.answers, forwards := k.forwards,
                                 endings := k.endings)
    ensures Paced(k)
  {
  }

  lemma SamePlan(l: Life, p: Pending, k: Life, q: Pending)
    requires OnSchedule(l, p) && AcksCounted(l, p) && q == p.(responses := q.responses)
    requires k.attempts == l.attempts && k.ackReports == l.ackReports && k.acks == l.acks
    ensures OnSchedule(k, q) && AcksCounted(k, q)
  {
  }

  lemma AnswersDecide(l: Life, p: Pending, responder: PeerId, m: Message, l1: Life)
    requires CanAnswer(l, p, responder, m) && AnswersOk(l1) && ForwardsOk(l1)
    requires var events := ResponseEvents(p, responder, m);
      l1 == WithAnswer(l, responder, m).(
              forwards := l.forwards + events,
              endings := if events != [] && FinalForward(WithAnswer(l, responder, m).(forwards := l.forwards + events))
                         then [ByResponse] else [])
    ensures var p1 := Respond(p, responder, m);
      if Completes(p1, m.status) then EndedOnce(l1) else SameDelivery(l1, p1)
  {
    hide Paced;
    var p1 := Respond(p, responder, m);
    assert l1.answers == p1.responses && |l1.responders| == |p1.responses|;
    assert Last(l1) == responder && l1.answers[responder] == m;
  }
}
