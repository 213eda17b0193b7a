/** What the broker promises about deliveries, read off the lives of a run. */
module BrokerPromises {
  import opened Order
  import opened Results
  import opened Protocol
  import opened Encoding
  import opened BrokerState
  import opened BrokerSteps
  import opened BrokerInvariants
  import opened BrokerBudgets
  import opened BrokerTick
  import opened BrokerLives
  import opened BrokerHistory

  // ---------- Endings ----------

  /** Every accepted delivery ends exactly once and for a reason, unless it is still in flight. */
  lemma DeliveriesEndOnce(c: Config, calls: seq<Call>, id: MessageId)
    ensures var d, h := Run(c, calls).deliveries, RunHistory(c, calls);
      && h.entered == h.ended + |d|
      && (id in d ==> id in h.lives)
      && (id in h.lives ==> if id in d then h.lives[id].endings == [] else EndedOnce(h.lives[id]))
  {
    hide Run, RunHistory, LivesOk;
    RunBalances(c, calls);
    LifeStatus(Run(c, calls).deliveries, RunHistory(c, calls).lives, id);
  }

  lemma LifeOfRun(c: Config, calls: seq<Call>, id: MessageId)
    requires id in RunHistory(c, calls).lives
    ensures LifeOk(Run(c, calls).deliveries, id, RunHistory(c, calls).lives[id])
  {
    hide Run, RunHistory, LifeOk;
    RunBalances(c, calls);
  }

  /** The peer whose leaving ended a delivery, if that is what ended it, has left. */
  ghost predicate LeaversGone(s: State, lives: Lives)
  {
    forall id, e :: id in lives && e in lives[id].endings && e.ByOutcome? && e.cause.CallDisconnect? ==>
      e.cause.peer < s.nextPeer && e.cause.peer !in s.peers
  }

  /** What a call adds to the endings of a life, it is the cause of. */
  lemma {:induction false} EndingsHaveTheirCause(l: Life, call: Call, events: seq<DeliveryEvent>)
    ensures forall e :: e in ObserveAll(l, call, events).endings ==> e in l.endings || e.ByResponse? || e.cause == call
    decreases |events|
  {
    if events != [] {
      EndingsHaveTheirCause(Observe(l, call, events[0]), call, events[1..]);
    }
  }

  /** Identities are not issued again, so who has left stays away. */
  lemma LeaversStayAway(c: Config, s: State, call: Call, p: PeerId)
    requires PeersOk(c, s.nextPeer, s.peers)
    ensures var s1 := Apply(c, s, call).state;
      && (p < s.nextPeer && p !in s.peers ==> p < s1.nextPeer && p !in s1.peers)
      && (call == CallDisconnect(p) && Apply(c, s, call).result.Ok? ==> p < s1.nextPeer && p !in s1.peers)
  {
    hide Authorize, CheckHeaders, BeginDelivery, AcknowledgeStep, TickStep, ValidDbusName, Reports, Affected,
         ReleaseEvents, SubscribedChannels, OwnedNamespaces, SubscribersOf, WithoutSubscriber;
    match call
    case CallBegin(q, frame, now) => BeginTouchesDeliveries(c, s, q, frame, now);
    case CallAcknowledge(q, id, policy) => AcknowledgeTouchesDeliveries(c, s, q, id, policy);
    case CallTick(now) => TickTouchesDeliveries(s, now);
    case _ =>
  }

  lemma CallKeepsLeaversGone(c: Config, s: State, lives: Lives, call: Call)
    requires Inv(c, s) && LeaversGone(s, lives)
    ensures var step := Apply(c, s, call); LeaversGone(step.state, Watch(lives, call, step.result))
  {
    hide Apply, ObserveAll, For, Opened, NamespacesOk, DbusNamesOk, SubscriptionsOk, PendingsOk, PeersOk;
    var step := Apply(c, s, call);
    var after := Watch(lives, call, step.result);
    forall id, e | id in after && e in after[id].endings && e.ByOutcome? && e.cause.CallDisconnect?
      ensures e.cause.peer < step.state.nextPeer && e.cause.peer !in step.state.peers
    {
      LeaversStayAway(c, s, call, e.cause.peer);
      if step.result.Ok? {
        var known := Opened(lives, call, step.result.value);
        EndingsHaveTheirCause(known[id], call, For(id, step.result.value));
        OpenedKeepsEndings(lives, call, step.result.value, id);
      }
    }
  }

  lemma OpenedKeepsEndings(lives: Lives, call: Call, events: seq<DeliveryEvent>, id: MessageId)
    ensures var known := Opened(lives, call, events);
      id in known ==> known[id].endings == [] || (id in lives && known[id].endings == lives[id].endings)
  {
    hide IsTracked;
  }

  lemma {:induction false} RunKeepsLeaversGone(c: Config, calls: seq<Call>)
    ensures LeaversGone(Run(c, calls), RunHistory(c, calls).lives)
    decreases |calls|
  {
    hide Inv, LeaversGone, Apply, Watch;
    if calls == [] {
      NobodyLeft();
    } else {
      var before, call := calls[..|calls| - 1], calls[|calls| - 1];
      RunKeepsLeaversGone(c, before);
      RunKeeps(c, before);
      CallKeepsLeaversGone(c, Run(c, before), RunHistory(c, before).lives, call);
      var answer := Apply(c, Run(c, before), call).result;
      if answer.Err? {
        WatchError(RunHistory(c, before).lives, call, answer);
      }
    }
  }

  lemma NobodyLeft()
    ensures LeaversGone(Initial(), map[])
  {
  }

  /** A delivery reported lost really lost a recipient: one of its own, who left the broker for good. */
  lemma LostRecipientsAreGone(c: Config, calls: seq<Call>, id: MessageId, e: Ending)
    requires id in RunHistory(c, calls).lives && e in RunHistory(c, calls).lives[id].endings
    requires e.ByOutcome? && e.outcome.RecipientDisconnected?
    ensures e.cause.CallDisconnect?
    ensures e.cause.peer in RunHistory(c, calls).lives[id].recipients && e.cause.peer !in Run(c, calls).peers
  {
    hide Run, RunHistory, Sound;
    LifeOfRun(c, calls, id);
    RunKeepsLeaversGone(c, calls);
  }

  // ---------- Retries ----------

  /** The doubling delay after attempt `k`, at most a minute. */
  function ExactBackoff(initial: u32, k: nat): nat
    requires k >= 1
  {
    if initial * Pow2(k - 1) > 60_000 then 60_000 else initial * Pow2(k - 1)
  }

  /** Neither the cap on the shift nor the saturating product is ever felt. */
  lemma BackoffIsExact(initial: u32, k: u8)
    requires k >= 1
    ensures Backoff(initial, k) == ExactBackoff(initial, k)
  {
    if k - 1 <= 16 {
      Pow2AtMost16(k - 1);
      MulBound(initial, U32_MAX, Pow2(k - 1), 0x1_0000);
    } else if initial >= 1 {
      Pow2Is16();
      Pow2Grows(16, k - 1);
      MulBound(1, initial, 0x1_0000, Pow2(k - 1));
      MulBound(1, initial, 0x1_0000, Pow2(16));
    }
  }

  lemma Pow2Is16()
    ensures Pow2(16) == 0x1_0000
  {
    assert Pow2(4) == 16;
    assert Pow2(8) == 16 * Pow2(4);
    assert Pow2(12) == 16 * Pow2(8);
    assert Pow2(16) == 16 * Pow2(12);
  }

  lemma MulBound(a: nat, b: nat, x: nat, y: nat)
    requires a <= b && x <= y
    ensures a * x <= b * y
  {
    assert a * x <= b * x <= b * y;
  }

  /**
   A codec-valid message is sent at most `maxAttempts` times, always the same and
   to a shrinking set of recipients, each attempt at least the doubling delay
   after the one before, and none at or after the deadline.
   */
  lemma RetriesArePaced(c: Config, calls: seq<Call>, id: MessageId)
    requires id in RunHistory(c, calls).lives && CodecValid(RunHistory(c, calls).lives[id].message)
    ensures var l := RunHistory(c, calls).lives[id]; var n := |l.attempts|;
      && n <= (if l.message.retry.Exponential? then l.message.retry.maxAttempts else 1)
      && (forall i :: 0 <= i < n ==> l.attempts[i].message == l.message)
      && (forall i, j :: 0 <= i < j < n ==> l.attempts[j].recipients <= l.attempts[i].recipients)
      && (forall k :: 1 <= k < n ==> l.attempts[k].time < l.attempts[0].time + l.message.deadline)
      && (l.message.retry.Exponential? ==>
            forall k :: 1 <= k < n ==>
              l.attempts[k].time >= l.attempts[k - 1].time + ExactBackoff(l.message.retry.initialBackoff, k))
  {
    hide Run, RunHistory, Live, AnswersOk, ForwardsOk, Backoff, CheckOptions, CheckIdentity, RealRequirement;
    LifeOfRun(c, calls, id);
    var l := RunHistory(c, calls).lives[id];
    if l.message.retry.Exponential? {
      forall k | 1 <= k < |l.attempts|
        ensures l.attempts[k].time >= l.attempts[k - 1].time + ExactBackoff(l.message.retry.initialBackoff, k)
      {
        assert Spaced(l.attempts, l.message.retry.initialBackoff, k);
        BackoffIsExact(l.message.retry.initialBackoff, k);
      }
    }
  }

  lemma SaidOfOne(id: MessageId, p: Pending, now: u64)
    ensures EventsForOne(id, p, now) == match FateOf(p, now)
                                        case Wait => []
                                        case Expire => [Report(p.sender, id, Timeout)]
                                        case GiveUp => [Report(p.sender, id, DeliveryFailed)]
                                        case Again(_) => [Deliver(p.sender, p.recipients - p.acknowledgements, p.message)]
  {
    hide FateOf;
    if FateOf(p, now).Again? {
      assert EventsOf(RetriesOf(p, now)) == [RetriesOf(p, now)[0].1];
    }
  }

  /**
   What the clock does to a delivery in flight, told by its life alone: it times
   out at the deadline; before that it is sent again exactly once the doubling
   delay after its last attempt is over, to those that have not acknowledged it;
   and it fails once no attempt is left.
   */
  lemma TheClockIsExact(c: Config, calls: seq<Call>, id: MessageId, now: u64)
    requires id in Run(c, calls).deliveries
    ensures id in RunHistory(c, calls).lives && RunHistory(c, calls).lives[id].attempts != []
    ensures var events, l := For(id, TickStep(Run(c, calls), now).result.value), RunHistory(c, calls).lives[id];
      var k := |l.attempts|; var last := l.attempts[k - 1].time;
      if now >= l.attempts[0].time + l.message.deadline then events == [Report(l.sender, id, Timeout)]
      else
        match l.message.retry
        case NoRetry => events == []
        case Exponential(initial, max) =>
          if k >= max then events == if now >= last then [Report(l.sender, id, DeliveryFailed)] else []
          else
            var due := last + ExactBackoff(initial, k);
            events == if now >= due
                      then [Deliver(l.sender, l.recipients - l.acks.Keys, l.message)] else []
  {
    hide Run, RunHistory, Sound, For, Backoff, Over, RequirementMet, TickEvents, Inv;
    DeliveriesEndOnce(c, calls, id);
    LifeOfRun(c, calls, id);
    RunKeeps(c, calls);
    InvKeyed(c, Run(c, calls));
    var d, l := Run(c, calls).deliveries, RunHistory(c, calls).lives[id];
    TickRefinesOne(d, now, id);
    var p := d[id];
    SaidOfOne(id, p, now);
    hide EventsForOne;
    if l.message.retry.Exponential? {
      BackoffIsExact(l.message.retry.initialBackoff, p.attempts);
    }
  }

  // ---------- Acknowledgements ----------

  lemma CodecRequirementIsReal(m: Message)
    requires CodecValid(m) && WantsAck(m.ackPolicy)
    ensures RealRequirement(m)
  {
  }

  /** Enough recipients have acknowledged. */
  predicate Enough(r: AckRequirement, acknowledged: set<PeerId>, recipients: set<PeerId>)
  {
    match r
    case NoneRequired => true
    case AnyOne => acknowledged != {}
    case AllOf => acknowledged == recipients
    case Minimum(n) => |acknowledged| >= n
  }

  lemma MetIsEnough(r: AckRequirement, acknowledged: set<PeerId>, recipients: set<PeerId>)
    requires acknowledged <= recipients
    ensures RequirementMet(r, |acknowledged|, |recipients|) <==> Enough(r, acknowledged, recipients)
  {
    if |acknowledged| == |recipients| {
      SameSizeSubset(acknowledged, recipients);
    }
  }

  /**
   A delivery is reported acknowledged once, and exactly when enough recipients
   have said what was asked for; while it is in flight the broker's completion
   flag says the same. A signal in flight still has a recipient to hear from,
   and no signal is ever sent to nobody.
   */
  lemma AcksAreReportedOnce(c: Config, calls: seq<Call>, id: MessageId)
    requires id in RunHistory(c, calls).lives
    requires var m := RunHistory(c, calls).lives[id].message; CodecValid(m) && WantsAck(m.ackPolicy)
    ensures var d, l := Run(c, calls).deliveries, RunHistory(c, calls).lives[id];
      var met := Enough(l.message.ackRequirement, l.acks.Keys, l.recipients);
      && l.acks.Keys <= l.recipients && l.ackReports == (if met then 1 else 0)
      && (forall p :: p in l.acks ==> Suffices(l.message.ackPolicy, l.acks[p]))
      && (l.message.kind != Request ==> forall i :: 0 <= i < |l.attempts| ==> l.attempts[i].recipients != {})
      && (id in d ==>
            && d[id].acknowledgements == l.acks.Keys && (d[id].acknowledgementComplete <==> met)
            && (l.message.kind != Request ==> !met && d[id].recipients - d[id].acknowledgements != {}))
  {
    hide Run, RunHistory, CodecValid, AnswersOk, ForwardsOk, Registered, RequirementMet, RequirementPossible, RetryNext,
         Spaced, Over, Suffices, Enough;
    var d, l := Run(c, calls).deliveries, RunHistory(c, calls).lives[id];
    LifeOfRun(c, calls, id);
    CodecRequirementIsReal(l.message);
    MetIsEnough(l.message.ackRequirement, l.acks.Keys, l.recipients);
    assert |l.acks| == |l.acks.Keys|;
    if id in d && l.message.kind != Request {
      RunKeeps(c, calls);
      StillWaiting(l, d[id]);
    }
  }

  /**
   An acknowledgement is taken exactly if the policy permits it, it is for a
   delivery in flight, comes from one of its recipients and says what is wanted;
   then that recipient counts, and nothing else changes but for a delivery that
   ends.
   */
  lemma AcknowledgementsAreTaken(c: Config, s: State, peer: PeerId, id: MessageId, policy: AckPolicy)
    ensures var step := AcknowledgeStep(c, s, peer, id, policy); var d := s.deliveries;
      var permitted := peer in s.peers && Permitted(c, s.peers[peer], AcknowledgeMessage);
      && (step.result.Ok? <==>
            permitted && id in d && peer in d[id].recipients && Suffices(d[id].message.ackPolicy, policy))
      && (step.result.Err? ==>
            step.result.error ==
              if peer !in s.peers then UnknownPeer(peer)
              else if !permitted then PolicyDenied(AcknowledgeMessage)
              else if id !in d then UnknownDelivery(id)
              else UnexpectedAcknowledgement(id))
      && (step.result.Ok? ==>
            && step.state.deliveries - {id} == d - {id}
            && (id in step.state.deliveries ==> step.state.deliveries[id].acknowledgements == d[id].acknowledgements + {peer}))
  {
    hide RequirementMet;
    var d1 := AcknowledgeStep(c, s, peer, id, policy).state.deliveries;
    assert d1 - {id} == s.deliveries - {id};
  }

  // ---------- Responses ----------

  /** The all-failed case of `FirstSuccess`: the one forward that may carry a wrong label. */
  predicate AllFailed(l: Life)
  {
    && l.message.requestPolicy == FirstSuccess && l.responders != []
    && Last(l) in l.answers && l.answers[Last(l)].status != Success
  }

  /** How a request decided by its responses was answered. */
  ghost predicate AnsweredAsPromised(l: Life)
    requires AnswersOk(l) && l.responders != []
  {
    match l.message.requestPolicy
    case Exact => l.forwards == [Deliver(Last(l), {l.sender}, l.answers[Last(l)])]
    case First => l.forwards == [Deliver(Last(l), {l.sender}, l.answers[Last(l)])]
    case AllResponses =>
      && l.answers.Keys == l.recipients && |l.forwards| == |l.responders| == |l.recipients|
      && forall i :: 0 <= i < |l.forwards| ==>
           l.forwards[i] == Deliver(l.responders[i], {l.sender}, l.answers[l.responders[i]])
    case FirstSuccess =>
      && (forall i :: 0 <= i < |l.responders| - 1 ==> l.answers[l.responders[i]].status != Success)
      && if l.answers[Last(l)].status == Success then
           l.forwards == [Deliver(Last(l), {l.sender}, l.answers[Last(l)])]
         else
           && l.answers.Keys == l.recipients
           && l.forwards == [Deliver(Last(l), {l.sender}, l.answers[Least(l.recipients)])]
  }

  lemma SoundAnswers(l: Life)
    requires Sound(l) && Over(l)
    ensures l.responders != [] && l.answers != map[] && AnsweredAsPromised(l)
  {
    hide Paced;
    assert l.recipients != {} ==> |l.recipients| != 0;
    assert l.responders[0] in l.answers;
    if |l.answers| == |l.recipients| {
      SameSizeSubset(l.answers.Keys, l.recipients);
    }
  }

  /**
   A request decided by its responses: `Exact` and `First` forward the one
   response, `All` one per recipient, `FirstSuccess` the first success or, when
   all failed, the failure of the lowest recipient. Each forward names the
   author of its frame, except that after all failed it does so exactly when the
   last responder is the lowest recipient.
   */
  lemma RequestsAreAnswered(c: Config, calls: seq<Call>, id: MessageId)
    requires id in RunHistory(c, calls).lives
    requires var l := RunHistory(c, calls).lives[id]; l.message.kind == Request && (Over(l) || ByResponse in l.endings)
    ensures var l := RunHistory(c, calls).lives[id];
      && Over(l) && l.endings == [ByResponse] && AnswersOk(l) && l.responders != [] && l.answers != map[]
      && id !in Run(c, calls).deliveries && AnsweredAsPromised(l)
      && forall i :: 0 <= i < |l.forwards| ==>
           && i < |l.responders| && Author(l, i) in l.answers
           && l.forwards[i].message == l.answers[Author(l, i)]
           && (l.forwards[i].sender == Author(l, i) <==> !AllFailed(l) || Last(l) == Least(l.recipients))
  {
    hide Run, RunHistory, Paced, OnSchedule, AcksCounted, AcksTold, AnsweredAsPromised;
    LifeOfRun(c, calls, id);
    var l := RunHistory(c, calls).lives[id];
    SoundAnswers(l);
    if AllFailed(l) {
      SameSizeSubset(l.answers.Keys, l.recipients);
    }
  }

  /** Peer 1 has failed and now peer 2 does: peer 2 is named for peer 1's frame. */
  lemma ForwardMayNameAnother(s: State, id: MessageId, m1: Message, m2: Message)
    requires id in s.deliveries
    requires var p := s.deliveries[id];
      p.message.kind == Request && p.message.requestPolicy == FirstSuccess
      && p.recipients == {1, 2} && p.responses == map[1 := m1]
    requires m1.status == Status.Error && m2.status == Status.Error && m2.correlationId == id
    ensures CompleteResponse(s, 2, m2).result == Ok([Deliver(2, {s.deliveries[id].sender}, m1)])
  {
    var p1 := Respond(s.deliveries[id], 2, m2);
    assert p1.responses == map[1 := m1, 2 := m2];
    assert p1.responses.Keys == {1, 2} && |{1, 2}| == 2;
    assert Least({1, 2}) == 1;
  }
}
