/** Over every run each delivery that was accepted ends once, and its life is as promised. */
module BrokerHistory {
  import opened Order
  import opened Results
  import opened Protocol
  import opened Encoding
  import opened BrokerState
  import opened BrokerSteps
  import opened BrokerInvariants
  import opened BrokerTick
  import opened BrokerLives

  // ---------- Calls that send nothing ----------

  lemma WatchNothing(d: Deliveries, lives: Lives, call: Call)
    requires LivesOk(d, lives) && !call.CallBegin? && !call.CallAcknowledge?
    ensures Watch(lives, call, Ok([])) == lives
  {
    hide LivesOk;
    assert forall id: MessageId :: For(id, []) == [];
    assert Watch(lives, call, Ok([])) == lives;
  }

  // ---------- The clock ----------

  lemma LifeTicks(peers: set<PeerId>, id: MessageId, l: Life, p: Pending, now: u64)
    requires Sound(l) && Live(l, p) && PendingOk(peers, id, p)
    ensures var l1 := ObserveAll(l, CallTick(now), EventsForOne(id, p, now));
      Sound(l1) && if Ends(FateOf(p, now)) then EndedOnce(l1) else Live(l1, Outlived(p, now))
  {
    hide Sound, Live, ObserveAll, RequirementPossible;
    var events := EventsForOne(id, p, now);
    match FateOf(p, now)
    case Wait =>
      assert events == [];
      ObserveNothing(l, CallTick(now));
    case Again(_) =>
      assert events == EventsOf(RetriesOf(p, now));
      LifeRepeats(l, p, now);
    case _ =>
      assert events == ReportsOf(id, p, now) == [events[0]];
      NotEnded(l, p, now);
      LifeEnds(l, CallTick(now), events[0]);
  }

  /** A delivery in flight has not ended, and what the clock or a leaving recipient would end it for is a reason. */
  lemma NotEnded(l: Life, p: Pending, now: u64)
    requires Live(l, p)
    ensures l.endings == [] && l.sender == p.sender
    ensures forall peer :: peer in p.recipients ==> Rightly(l, ByOutcome(RecipientDisconnected, CallDisconnect(peer)))
    ensures FateOf(p, now).Expire? ==> Rightly(l, ByOutcome(Timeout, CallTick(now)))
    ensures FateOf(p, now).GiveUp? ==> Rightly(l, ByOutcome(DeliveryFailed, CallTick(now)))
  {
    hide RetryNext, Over, AcksCounted;
  }

  lemma ObserveNothing(l: Life, call: Call)
    ensures ObserveAll(l, call, []) == l
  {
  }

  lemma TickFollows(c: Config, s: State, lives: Lives, now: u64)
    requires Inv(c, s) && LivesOk(s.deliveries, lives)
    ensures LivesOk(TickDeliveries(s.deliveries, now), Watch(lives, CallTick(now), Ok(TickEvents(s.deliveries, now))))
  {
    hide Registered, PendingOk, Sound, Live, ObserveAll, FateOf, TickEvents, For, EventsForOne;
    var d, events := s.deliveries, TickEvents(s.deliveries, now);
    var after := Watch(lives, CallTick(now), Ok(events));
    assert Keyed(d) by { InvKeyed(c, s); }
    forall id | id in after ensures LifeOk(TickDeliveries(d, now), id, after[id]) {
      TickRefinesOne(d, now, id);
      assert LifeOk(d, id, lives[id]);
      if id in d {
        LifeTicks(s.peers.Keys, id, lives[id], d[id], now);
      } else {
        ObserveNothing(lives[id], CallTick(now));
      }
    }
  }

  // ---------- A peer leaves ----------

  lemma {:induction false} ReportsForOne(d: Deliveries, ids: set<MessageId>, outcome: Outcome, id: MessageId)
    requires ids <= d.Keys
    ensures For(id, Reports(d, ids, outcome)) == if id in ids then [Report(d[id].sender, id, outcome)] else []
    decreases |ids|
  {
    hide IsMin;
    if ids != {} {
      var first := Min(ids);
      var tail := Reports(d, ids - {first}, outcome);
      var e := Report(d[first].sender, first, outcome);
      assert Reports(d, ids, outcome) == [e] + tail;
      assert ([e] + tail)[1..] == tail;
      ReportsForOne(d, ids - {first}, outcome, id);
    }
  }

  lemma DisconnectFollows(d: Deliveries, lives: Lives, peer: PeerId)
    requires LivesOk(d, lives)
    ensures LivesOk(d - Affected(d, peer),
                    Watch(lives, CallDisconnect(peer), Ok(Reports(d, Affected(d, peer), RecipientDisconnected))))
  {
    hide Sound, Live, ObserveAll, Reports, For;
    var ids := Affected(d, peer);
    var after := Watch(lives, CallDisconnect(peer), Ok(Reports(d, ids, RecipientDisconnected)));
    forall id | id in after ensures LifeOk(d - ids, id, after[id]) {
      ReportsForOne(d, ids, RecipientDisconnected, id);
      assert LifeOk(d, id, lives[id]);
      if id in ids {
        NotEnded(lives[id], d[id], 0);
        LifeEnds(lives[id], CallDisconnect(peer), Report(d[id].sender, id, RecipientDisconnected));
      } else {
        ObserveNothing(lives[id], CallDisconnect(peer));
      }
    }
  }

  // ---------- One delivery is touched ----------

  ghost predicate SameExcept<T(!new)>(a: map<MessageId, T>, b: map<MessageId, T>, id: MessageId)
  {
    forall k: MessageId :: k != id ==> (k in a <==> k in b) && (k in a && k in b ==> a[k] == b[k])
  }

  /** Only the life of `id` changes, and it fits the new deliveries. */
  lemma OneLifeChanges(d: Deliveries, lives: Lives, e: Deliveries, after: Lives, id: MessageId)
    requires LivesOk(d, lives)
    requires SameExcept(d, e, id) && SameExcept(lives, after, id)
    requires id in e ==> id in after
    requires id in after ==> LifeOk(e, id, after[id])
    ensures LivesOk(e, after)
  {
    hide Sound, Live;
    forall k | k in after ensures LifeOk(e, k, after[k]) {
      assert k != id ==> LifeOk(d, k, lives[k]);
    }
  }

  /** Events about `id` change no other life. */
  lemma WatchOne(lives: Lives, call: Call, events: seq<DeliveryEvent>, id: MessageId)
    requires forall i :: 0 <= i < |events| ==> Target(events[i]) == id
    requires SameExcept(lives, Opened(lives, call, events), id)
    ensures var after := Watch(lives, call, Ok(events)); var known := Opened(lives, call, events);
      && SameExcept(lives, after, id) && (id in after <==> id in known)
      && (id in known ==> after[id] == ObserveAll(known[id], call, events))
  {
    hide Opened, ObserveAll, For, Target;
    var known := Opened(lives, call, events);
    ForAll(id, events);
    forall k | k in known && k != id ensures ObserveAll(known[k], call, For(k, events)) == known[k] {
      ForNone(k, events);
      ObserveNothing(known[k], call);
    }
  }

  lemma {:induction false} ForAll(id: MessageId, events: seq<DeliveryEvent>)
    requires forall i :: 0 <= i < |events| ==> Target(events[i]) == id
    ensures For(id, events) == events
    decreases |events|
  {
    hide Target;
    if events != [] {
      ForAll(id, events[1..]);
    }
  }

  lemma {:induction false} ForNone(id: MessageId, events: seq<DeliveryEvent>)
    requires forall i :: 0 <= i < |events| ==> Target(events[i]) != id
    ensures For(id, events) == []
    decreases |events|
  {
    hide Target;
    if events != [] {
      ForNone(id, events[1..]);
    }
  }

  /** What an accepted acknowledgement does: it touches one delivery and says at most one thing about it. */
  lemma AcknowledgeTouchesOne(c: Config, s: State, peer: PeerId, id: MessageId, policy: AckPolicy)
    requires AcknowledgeStep(c, s, peer, id, policy).result.Ok?
    ensures id in s.deliveries
    ensures var step, p := AcknowledgeStep(c, s, peer, id, policy), s.deliveries[id];
      var e, events, p1 := step.state.deliveries, step.result.value, Acknowledged(p, peer);
      && WantsAck(p.message.ackPolicy) && AcknowledgementSatisfies(p.message.ackPolicy, policy)
      && peer in p.recipients && SameExcept(s.deliveries, e, id)
      && if p.acknowledgementComplete || !p1.acknowledgementComplete then
           events == [] && id in e && e[id] == p1
         else
           && events == [Report(p.sender, id, AckOutcome(p.message.ackPolicy))]
           && if p.message.kind == Request then id in e && e[id] == p1 else id !in e
  {
    hide Authorize, Acknowledged;
  }

  lemma AcknowledgeFollows(c: Config, s: State, lives: Lives, peer: PeerId, id: MessageId, policy: AckPolicy)
    requires Inv(c, s) && LivesOk(s.deliveries, lives)
    requires AcknowledgeStep(c, s, peer, id, policy).result.Ok?
    ensures var step := AcknowledgeStep(c, s, peer, id, policy);
      LivesOk(step.state.deliveries, Watch(lives, CallAcknowledge(peer, id, policy), step.result))
  {
    hide Registered, Sound, Live, EndedOnce, ObserveAll, Watch, AcknowledgeStep, Acknowledged, RequirementPossible,
         IsTracked, SameExcept;
    AcknowledgeTouchesOne(c, s, peer, id, policy);
    var step, call := AcknowledgeStep(c, s, peer, id, policy), CallAcknowledge(peer, id, policy);
    var events, after := step.result.value, Watch(lives, call, step.result);
    var p, l := s.deliveries[id], lives[id];
    assert LifeOk(s.deliveries, id, l) && PendingOk(s.peers.Keys, id, p);
    LifeAcks(l, p, id, peer, policy);
    assert SameExcept(lives, Opened(lives, call, events), id) by { AckOpens(lives, peer, id, policy, events); }
    WatchOne(lives, call, events, id);
    ObserveNothing(WithAck(l, peer, policy), call);
    OneLifeChanges(s.deliveries, lives, step.state.deliveries, after, id);
  }

  lemma AckOpens(lives: Lives, peer: PeerId, id: MessageId, policy: AckPolicy, events: seq<DeliveryEvent>)
    ensures SameExcept(lives, Opened(lives, CallAcknowledge(peer, id, policy), events), id)
  {
  }

  lemma ResponseFollows(c: Config, s: State, lives: Lives, call: Call)
    requires Inv(c, s) && LivesOk(s.deliveries, lives)
    requires call.CallBegin? && call.frame.MessageFrame? && call.frame.message.kind == Response
    requires CompleteResponse(s, call.peer, call.frame.message).result.Ok?
    ensures var step := CompleteResponse(s, call.peer, call.frame.message);
      LivesOk(step.state.deliveries, Watch(lives, call, step.result))
  {
    hide Registered, Sound, Live, EndedOnce, ObserveAll, Watch, Completes, Forwarded, RequirementPossible, IsTracked;
    var m := call.frame.message;
    var id, step := m.correlationId, CompleteResponse(s, call.peer, m);
    var events, after := step.result.value, Watch(lives, call, step.result);
    var p, l := s.deliveries[id], lives[id];
    assert LifeOk(s.deliveries, id, l) && PendingOk(s.peers.Keys, id, p);
    assert events == ResponseEvents(p, call.peer, m);
    ReadyToAnswer(l, p, call.peer, m);
    LifeResponds(l, p, call.peer, m, call);
    AnswersTarget(l, p, call.peer, m, id);
    WatchOne(lives, call, events, id);
    OneLifeChanges(s.deliveries, lives, step.state.deliveries, after, id);
  }

  lemma ReadyToAnswer(l: Life, p: Pending, responder: PeerId, m: Message)
    requires Sound(l) && Live(l, p) && p.message.kind == Request && m.kind == Response
    requires responder in p.recipients && responder !in p.responses
    ensures CanAnswer(l, p, responder, m)
  {
    hide Sound;
  }

  /** Every response to a delivery carries its identifier. */
  lemma AnswersTarget(l: Life, p: Pending, responder: PeerId, m: Message, id: MessageId)
    requires CanAnswer(l, p, responder, m) && m.correlationId == id
    requires forall r :: r in p.responses ==> p.responses[r].correlationId == id
    ensures forall i :: 0 <= i < |ResponseEvents(p, responder, m)| ==> Target(ResponseEvents(p, responder, m)[i]) == id
  {
    hide Paced, ForwardsOk, Over, Completes;
  }

  // ---------- A message is accepted ----------

  /** A message without recipients, or one the broker does not keep. */
  lemma UntrackedFollows(d: Deliveries, lives: Lives, call: Call, events: seq<DeliveryEvent>)
    requires LivesOk(d, lives)
    requires call.CallBegin? && call.frame.MessageFrame? && call.frame.message.kind != Response
    requires call.frame.message.id !in d
    requires !(IsTracked(call.frame.message) && events != [] && events[0].Deliver?)
    requires forall i :: 0 <= i < |events| ==> Target(events[i]) == call.frame.message.id
    ensures LivesOk(d, Watch(lives, call, Ok(events)))
  {
    hide Sound, Live, ObserveAll, Watch, IsTracked;
    var id := call.frame.message.id;
    WatchOne(lives, call, events, id);
    OneLifeChanges(d, lives, d, Watch(lives, call, Ok(events)), id);
  }

  lemma TrackedFollows(d: Deliveries, lives: Lives, call: Call, recipients: set<PeerId>, priority: u8)
    requires LivesOk(d, lives)
    requires call.CallBegin? && call.frame.MessageFrame?
    requires var m := call.frame.message;
      && m.kind != Response && IsTracked(m) && m.id !in d && recipients != {}
      && RequirementPossible(m.ackRequirement, |recipients|) && call.now + m.deadline <= U64_MAX
    ensures var m := call.frame.message;
      LivesOk(d[m.id := NewPending(call.peer, m, recipients, call.now, priority)],
              Watch(lives, call, Ok(AcceptedEvents(call.peer, m, recipients))))
  {
    hide Sound, Live, ObserveAll, Watch, IsTracked, RequirementPossible, NewPending;
    var m := call.frame.message;
    var events := AcceptedEvents(call.peer, m, recipients);
    WatchOne(lives, call, events, m.id);
    LifeOpens(call, call.peer, m, recipients, priority);
    var e := d[m.id := NewPending(call.peer, m, recipients, call.now, priority)];
    OneLifeChanges(d, lives, e, Watch(lives, call, Ok(events)), m.id);
  }

  lemma AcceptFollows(c: Config, s: State, lives: Lives, call: Call, recipients: set<PeerId>, priority: u8)
    requires LivesOk(s.deliveries, lives)
    requires call.CallBegin? && call.frame.MessageFrame?
    requires call.frame.message.kind != Response && call.frame.message.id !in s.deliveries
    requires Accept(c, s, call.peer, call.frame.message, recipients, call.now, priority).result.Ok?
    ensures var step := Accept(c, s, call.peer, call.frame.message, recipients, call.now, priority);
      LivesOk(step.state.deliveries, Watch(lives, call, step.result))
  {
    hide LivesOk, Watch, CheckCapacity, RequirementPossible, CountRouted, IsTracked, NewPending;
    var m := call.frame.message;
    var step := Accept(c, s, call.peer, m, recipients, call.now, priority);
    if step.state.deliveries == s.deliveries && (!IsTracked(m) || step.result.value[0].Report?) {
      UntrackedFollows(s.deliveries, lives, call, step.result.value);
    } else {
      TrackedFollows(s.deliveries, lives, call, recipients, priority);
    }
  }

  lemma BeginFollows(c: Config, s: State, lives: Lives, call: Call)
    requires Inv(c, s) && LivesOk(s.deliveries, lives) && call.CallBegin?
    requires BeginDelivery(c, s, call.peer, call.frame, call.now).result.Ok?
    ensures var step := BeginDelivery(c, s, call.peer, call.frame, call.now);
      LivesOk(step.state.deliveries, Watch(lives, call, step.result))
  {
    hide Inv, LivesOk, Watch, CheckHeaders, Route, Accept, CompleteResponse;
    var m := call.frame.message;
    if m.kind == Response {
      ResponseFollows(c, s, lives, call);
    } else {
      var routed := Route(c, s, call.peer, m.destination, m.headers);
      if routed.Err? {
        UntrackedFollows(s.deliveries, lives, call, [Report(call.peer, m.id, Outcome.NoRecipient)]);
      } else {
        AcceptFollows(c, s, lives, call, routed.value, MessagePriority(m.headers).value);
      }
    }
  }

  /** Every call keeps the lives and the deliveries in step. */
  lemma CallFollows(c: Config, s: State, lives: Lives, call: Call)
    requires Inv(c, s) && LivesOk(s.deliveries, lives)
    ensures var step := Apply(c, s, call);
      LivesOk(step.state.deliveries, Watch(lives, call, step.result))
  {
    hide Inv, LivesOk, Watch, CheckHeaders, Authorize, BeginDelivery, AcknowledgeStep, TickDeliveries, TickEvents,
         ValidDbusName, SubscribedChannels, SubscribersOf, OwnedNamespaces, RemovePeer, Affected, Reports;
    var step := Apply(c, s, call);
    if step.result.Err? {
      ErrorsChangeNothing(c, s, call);
      WatchError(lives, call, step.result);
    } else {
      match call
      case CallBegin(_, _, _) => BeginFollows(c, s, lives, call);
      case CallAcknowledge(peer, id, policy) => AcknowledgeFollows(c, s, lives, peer, id, policy);
      case CallTick(now) => TickFollows(c, s, lives, now);
      case CallDisconnect(peer) =>
        DisconnectFollows(s.deliveries, lives, peer);
        RemovePeerKeepsDeliveries(s, peer);
      case _ => WatchNothing(s.deliveries, lives, call);
    }
  }

  lemma WatchError(lives: Lives, call: Call, answer: Answer)
    requires answer.Err?
    ensures Watch(lives, call, answer) == lives
  {
  }

  lemma RemovePeerKeepsDeliveries(s: State, peer: PeerId)
    ensures RemovePeer(s, peer).deliveries == s.deliveries
  {
  }

  // ---------- Counting ----------

  /** The lives of a run, how many were started and how many endings were observed. */
  datatype History = History(lives: Lives, entered: nat, ended: nat)

  /** A call that starts a life. */
  predicate Starts(call: Call, answer: Answer)
  {
    && answer.Ok? && call.CallBegin? && call.frame.MessageFrame?
    && call.frame.message.kind != Response && IsTracked(call.frame.message)
    && answer.value != [] && answer.value[0].Deliver?
  }

  /** The lives with an ending that was not there before. */
  function EndedNow(before: Lives, after: Lives): set<MessageId>
  {
    set id | id in after && id in before && |after[id].endings| > |before[id].endings|
  }

  function Follow(h: History, call: Call, answer: Answer): History
  {
    if answer.Err? then h
    else
      var after := Watch(h.lives, call, answer);
      History(after,
              h.entered + if Starts(call, answer) then 1 else 0,
              h.ended + |EndedNow(Opened(h.lives, call, answer.value), after)|)
  }

  ghost predicate Balanced(d: Deliveries, h: History)
  {
    LivesOk(d, h.lives) && h.entered == h.ended + |d|
  }

  /** A call adds a delivery exactly when it starts a life, and never begins one that is in flight. */
  ghost predicate AddsOne(d: Deliveries, e: Deliveries, call: Call, answer: Answer)
  {
    && (call.CallBegin? && call.frame.MessageFrame? && call.frame.message.kind != Response ==>
          call.frame.message.id !in d)
    && if Starts(call, answer) then e.Keys == d.Keys + {call.frame.message.id} else e.Keys <= d.Keys
  }

  lemma NewDeliveries(c: Config, s: State, call: Call)
    requires Apply(c, s, call).result.Ok?
    ensures var step := Apply(c, s, call); AddsOne(s.deliveries, step.state.deliveries, call, step.result)
  {
    hide CheckHeaders, Authorize, MessagePriority, Route, CheckCapacity, RequirementPossible, CountRouted, RetryNext,
         Forwarded, Completes, TickEvents, FateOf, Reports, Acknowledged, ValidDbusName, SubscribersOf, BeginDelivery,
         SubscribedChannels, OwnedNamespaces, ReleaseEvents, WithoutSubscriber, IsTracked, AcknowledgementSatisfies;
    if call.CallBegin? {
      BeginAddsOne(c, s, call);
    }
  }

  lemma BeginAddsOne(c: Config, s: State, call: Call)
    requires call.CallBegin? && BeginDelivery(c, s, call.peer, call.frame, call.now).result.Ok?
    ensures var step := BeginDelivery(c, s, call.peer, call.frame, call.now);
      AddsOne(s.deliveries, step.state.deliveries, call, step.result)
  {
    hide CheckHeaders, MessagePriority, Route, CheckCapacity, RequirementPossible, CountRouted, RetryNext,
         Forwarded, Completes, IsTracked;
  }

  lemma EndedAreGone(d: Deliveries, lives: Lives, e: Deliveries, call: Call, answer: Answer)
    requires answer.Ok? && LivesOk(d, lives) && LivesOk(e, Watch(lives, call, answer))
    requires AddsOne(d, e, call, answer)
    ensures EndedNow(Opened(lives, call, answer.value), Watch(lives, call, answer)) == d.Keys - e.Keys
  {
    hide Sound, ObserveAll, For, IsTracked, SameDelivery, OnSchedule, AcksCounted;
    var known, after := Opened(lives, call, answer.value), Watch(lives, call, answer);
    assert after.Keys == known.Keys;
    forall id: MessageId ensures id in EndedNow(known, after) <==> id in d && id !in e {
      LifeStatus(d, lives, id);
      LifeStatus(e, after, id);
      KnownLives(lives, call, answer.value, id);
    }
  }

  lemma LifeStatus(d: Deliveries, lives: Lives, id: MessageId)
    requires LivesOk(d, lives)
    ensures id in d ==> id in lives
    ensures id in lives ==> if id in d then lives[id].endings == [] else EndedOnce(lives[id])
  {
    hide Sound, OnSchedule, AcksCounted, Rightly;
  }

  lemma KnownLives(lives: Lives, call: Call, events: seq<DeliveryEvent>, id: MessageId)
    ensures var known := Opened(lives, call, events);
      if Starts(call, Ok(events)) && id == call.frame.message.id then id in known && known[id].endings == []
      else
        && (id in known ==> id in lives && known[id].endings == lives[id].endings)
        && (id in lives && id !in known ==>
              call.CallBegin? && call.frame.MessageFrame? && id == call.frame.message.id
              && call.frame.message.kind != Response)
  {
    hide IsTracked;
  }

  lemma CallBalances(c: Config, s: State, h: History, call: Call)
    requires Inv(c, s) && Balanced(s.deliveries, h)
    ensures Balanced(Apply(c, s, call).state.deliveries, Follow(h, call, Apply(c, s, call).result))
  {
    hide Inv, LivesOk, Apply, Opened, Watch, EndedNow, Starts;
    var step := Apply(c, s, call);
    CallFollows(c, s, h.lives, call);
    if step.result.Err? {
      ErrorsChangeNothing(c, s, call);
      WatchError(h.lives, call, step.result);
    } else {
      var d, e := s.deliveries, step.state.deliveries;
      NewDeliveries(c, s, call);
      EndedAreGone(d, h.lives, e, call, step.result);
      Sizes(d, e, call, step.result);
    }
  }

  lemma Sizes(d: Deliveries, e: Deliveries, call: Call, answer: Answer)
    requires AddsOne(d, e, call, answer)
    ensures |e| == |d| - |d.Keys - e.Keys| + if Starts(call, answer) then 1 else 0
  {
    hide IsTracked;
    if Starts(call, answer) {
      SetSizes(d.Keys, e.Keys, {call.frame.message.id});
    } else {
      SetSizes(d.Keys, e.Keys, {});
    }
  }

  lemma SetSizes<T>(d: set<T>, e: set<T>, added: set<T>)
    requires d !! added && added <= e <= d + added
    ensures |e| == |d| - |d - e| + |added|
  {
    assert d == (d * e) + (d - e);
    assert e == (d * e) + added;
  }

  function RunHistory(c: Config, calls: seq<Call>): History
    decreases |calls|
  {
    if calls == [] then History(map[], 0, 0)
    else
      var before, call := calls[..|calls| - 1], calls[|calls| - 1];
      Follow(RunHistory(c, before), call, Apply(c, Run(c, before), call).result)
  }

  /**
   Over every run: each delivery in flight has a life that has not ended, every
   other life has ended exactly once, and the lives started are those that ended
   and those still in flight.
   */
  lemma {:induction false} RunBalances(c: Config, calls: seq<Call>)
    ensures Balanced(Run(c, calls).deliveries, RunHistory(c, calls))
    decreases |calls|
  {
    hide Inv, Balanced, Apply, Follow;
    if calls == [] {
      NothingBalances();
    } else {
      var before := calls[..|calls| - 1];
      RunBalances(c, before);
      RunKeeps(c, before);
      CallBalances(c, Run(c, before), RunHistory(c, before), calls[|calls| - 1]);
    }
  }

  lemma NothingBalances()
    ensures Balanced(map[], History(map[], 0, 0))
  {
  }
}
