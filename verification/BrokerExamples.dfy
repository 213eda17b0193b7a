/** Runs on which the broker does not do what its documentation says, and exactly when it does. */
module BrokerExamples {
  import opened Order
  import opened Results
  import opened Protocol
  import opened BrokerState
  import opened BrokerSteps
  import opened BrokerTick
  import opened BrokerLives
  import opened BrokerHistory
  import opened BrokerPromises

  // ---------- A broker with three peers, two of them on one channel ----------

  /** A broker that permits everything, with the default limits. */
  function OpenBroker(): Config
  {
    Config((_, _, _, _) => true, Limits(4_194_304, 1_024, 128, 256, 64), {})
  }

  function AnyoneJoins(): Call
  {
    CallConnect(Credentials(1, 1, 1, None, None, None), ClientHello(None, map[], {}))
  }

  const CHANNEL: Channel := [0x61]

  function Setup(): seq<Call>
  {
    [AnyoneJoins(), AnyoneJoins(), AnyoneJoins(), CallSubscribe(1, CHANNEL, []), CallSubscribe(2, CHANNEL, [])]
  }

  function RequestId(): MessageId { seq(16, _ => 1) }

  function Ask(policy: RequestPolicy): Message
  {
    Message(Request, NoAck, NoneRequired, policy, 1_000, NoRetry, ToChannel(CHANNEL), RequestId(), Absent(), Success,
            map[], [])
  }

  /** A failing response, told apart by its payload. */
  function Fail(payload: Bytes): Message
  {
    Message(Response, NoAck, NoneRequired, Exact, 0, NoRetry, ToPeer(3), seq(16, _ => 2), RequestId(), Status.Error,
            map[], payload)
  }

  function Asked(policy: RequestPolicy): seq<Call>
  {
    Setup() + [CallBegin(3, MessageFrame(Ask(policy)), 0)]
  }

  /** The messages of these runs could have come from the decoder. */
  lemma ExamplesAreCodecValid(policy: RequestPolicy, payload: Bytes)
    ensures CodecValid(Ask(policy)) && CodecValid(Fail(payload))
  {
    assert RequestId()[0] == 1 && Absent()[0] == 0;
    assert Fail(payload).id[0] == 2;
  }

  /** Two joins more than none, and so on: the first three calls. */
  lemma ThreeJoin()
    ensures var s := Run(OpenBroker(), Setup()[..3]);
      s.nextPeer == 4 && s.peers.Keys == {1, 2, 3} && s.subscriptions == map[] && s.deliveries == map[]
  {
    var c, j := OpenBroker(), AnyoneJoins();
    assert Setup()[..3] == [j, j, j];
    Joins([], 1);
    assert [] + [j] == [j];
    Joins([j], 2);
    assert [j] + [j] == [j, j];
    Joins([j, j], 3);
    assert [j, j] + [j] == [j, j, j];
  }

  lemma Joins(calls: seq<Call>, n: u64)
    requires Run(OpenBroker(), calls).nextPeer == n < 100
    ensures var s, t := Run(OpenBroker(), calls), Run(OpenBroker(), calls + [AnyoneJoins()]);
      t.nextPeer == n + 1 && t.peers.Keys == s.peers.Keys + {n} && t.subscriptions == s.subscriptions
      && t.deliveries == s.deliveries
  {
    hide Run;
    RunExtends(OpenBroker(), calls, AnyoneJoins());
  }

  lemma Subscribes(calls: seq<Call>, p: PeerId)
    requires p in Run(OpenBroker(), calls).peers && |SubscribedChannels(Run(OpenBroker(), calls), p)| < 256
    ensures var s, t := Run(OpenBroker(), calls), Run(OpenBroker(), calls + [CallSubscribe(p, CHANNEL, [])]);
      t == s.(subscriptions := s.subscriptions[CHANNEL := SubscribersOf(s, CHANNEL)[p := []]])
  {
    hide Run, SubscribedChannels;
    RunExtends(OpenBroker(), calls, CallSubscribe(p, CHANNEL, []));
  }

  lemma SetupDone()
    ensures var s := Run(OpenBroker(), Setup());
      s.peers.Keys == {1, 2, 3} && s.deliveries == map[] && s.subscriptions == map[CHANNEL := map[1 := [], 2 := []]]
  {
    hide Run;
    ThreeJoin();
    var three := Setup()[..3];
    var s := Run(OpenBroker(), three);
    assert SubscribedChannels(s, 1) == {};
    Subscribes(three, 1);
    var four := three + [CallSubscribe(1, CHANNEL, [])];
    var t := Run(OpenBroker(), four);
    assert SubscribedChannels(t, 2) == {};
    Subscribes(four, 2);
    assert four + [CallSubscribe(2, CHANNEL, [])] == Setup();
  }

  lemma AskReachesBoth(policy: RequestPolicy)
    ensures var s, m := Run(OpenBroker(), Setup()), Ask(policy);
      Route(OpenBroker(), s, 3, m.destination, m.headers) == Ok({1, 2})
  {
    hide Run;
    SetupDone();
    var s, m := Run(OpenBroker(), Setup()), Ask(policy);
    assert Selected(s, 3, m.destination, m.headers) == {1, 2};
  }

  lemma PlainHeaders()
    ensures CheckHeaders(map[]).Ok? && MessagePriority(map[]) == Ok(0)
  {
    assert ReservedNames(map[]) == {};
  }

  lemma RoomForOne(policy: RequestPolicy)
    ensures CheckCapacity(OpenBroker().limits, QueuedFor(map[], 3), Ask(policy)).Ok?
  {
    assert QueuedFor(map[], 3) == map[];
  }

  /** The request is in flight for peers 1 and 2. */
  lemma RequestInFlight(policy: RequestPolicy)
    ensures var s := Run(OpenBroker(), Asked(policy)); var m := Ask(policy);
      && s.peers.Keys == {1, 2, 3}
      && RequestId() in s.deliveries && s.deliveries[RequestId()] == NewPending(3, m, {1, 2}, 0, 0)
  {
    hide Run, Setup, Route, CheckHeaders, MessagePriority, CheckCapacity, QueuedFor, NewPending, CountRouted,
         AcceptedEvents, OpenBroker;
    SetupDone();
    AskReachesBoth(policy);
    PlainHeaders();
    RoomForOne(policy);
    RunExtends(OpenBroker(), Setup(), CallBegin(3, MessageFrame(Ask(policy)), 0));
  }

  // ---------- A forward that names the wrong peer ----------

  /** Peer 1 fails, then peer 2. */
  function OneFailed(): seq<Call>
  {
    Asked(FirstSuccess) + [CallBegin(1, MessageFrame(Fail([1])), 0)]
  }

  lemma OneHasFailed()
    ensures var s := Run(OpenBroker(), OneFailed());
      && s.peers.Keys == {1, 2, 3} && RequestId() in s.deliveries
      && s.deliveries[RequestId()] == Respond(NewPending(3, Ask(FirstSuccess), {1, 2}, 0, 0), 1, Fail([1]))
  {
    hide Run, CheckHeaders, MessagePriority;
    RequestInFlight(FirstSuccess);
    var c, m := OpenBroker(), Fail([1]);
    RunExtends(c, Asked(FirstSuccess), CallBegin(1, MessageFrame(m), 0));
    var p1 := Respond(NewPending(3, Ask(FirstSuccess), {1, 2}, 0, 0), 1, m);
    PlainHeaders();
    assert |{1, 2}| == 2 && |p1.responses| == 1;
  }

  /** The requester is told that peer 2 sent the frame peer 1 wrote. */
  lemma ForwardNamesAnother()
    ensures Apply(OpenBroker(), Run(OpenBroker(), OneFailed()), CallBegin(2, MessageFrame(Fail([2])), 0)).result
         == Ok([Deliver(2, {3}, Fail([1]))])
    ensures Fail([1]) != Fail([2])
  {
    hide Run, CheckHeaders, MessagePriority, CompleteResponse;
    OneHasFailed();
    var s, m := Run(OpenBroker(), OneFailed()), Fail([2]);
    PlainHeaders();
    ForwardMayNameAnother(s, RequestId(), Fail([1]), m);
    assert Fail([1]).payload != m.payload;
  }

  // ---------- `Exact` ----------

  /**
   The documentation has `Exact` require the responses of the whole selected
   set. The code meets that exactly for requests with a single recipient.
   */
  lemma ExactNeedsOneRecipient(c: Config, calls: seq<Call>, id: MessageId)
    requires id in RunHistory(c, calls).lives
    requires var l := RunHistory(c, calls).lives[id];
      l.message.kind == Request && l.message.requestPolicy == Exact && ByResponse in l.endings
    ensures var l := RunHistory(c, calls).lives[id]; l.answers.Keys == l.recipients <==> |l.recipients| == 1
  {
    hide Run, RunHistory, Paced, AcksTold, OnSchedule, AcksCounted;
    LifeOfRun(c, calls, id);
    var l := RunHistory(c, calls).lives[id];
    assert |l.answers| == 1;
    if |l.recipients| == 1 {
      SameSizeSubset(l.answers.Keys, l.recipients);
    }
  }

  /** A run on which it fails: two recipients, and the request is over with the response of one. */
  lemma ExactEndsEarly()
    ensures var calls := Asked(Exact) + [CallBegin(1, MessageFrame(Fail([])), 0)];
      var h := RunHistory(OpenBroker(), calls);
      && RequestId() in h.lives && h.lives[RequestId()].endings == [ByResponse]
      && h.lives[RequestId()].recipients == {1, 2} && h.lives[RequestId()].answers.Keys == {1}
  {
    hide Run, RunHistory, Sound, OnSchedule, AcksCounted;
    var c, before, id, m := OpenBroker(), Asked(Exact), RequestId(), Fail([]);
    var call := CallBegin(1, MessageFrame(m), 0);
    RequestInFlight(Exact);
    RunBalances(c, before);
    var s, lives := Run(c, before), RunHistory(c, before).lives;
    assert LifeOk(s.deliveries, id, lives[id]);
    FirstAnswer(s);
    hide Apply;
    HistoryExtends(c, before, call);
    OneAnswer(lives, call, id, m);
  }

  lemma FirstAnswer(s: State)
    requires RequestId() in s.deliveries && s.deliveries[RequestId()] == NewPending(3, Ask(Exact), {1, 2}, 0, 0)
    requires 1 in s.peers
    ensures Apply(OpenBroker(), s, CallBegin(1, MessageFrame(Fail([])), 0)).result == Ok([Deliver(1, {3}, Fail([]))])
  {
    hide RequestId, CheckHeaders, MessagePriority;
    PlainHeaders();
  }

  lemma HistoryExtends(c: Config, calls: seq<Call>, call: Call)
    ensures RunHistory(c, calls + [call]) == Follow(RunHistory(c, calls), call, Apply(c, Run(c, calls), call).result)
  {
    hide Apply, Follow;
    assert (calls + [call])[..|calls|] == calls;
  }

  lemma OneAnswer(lives: Lives, call: Call, id: MessageId, m: Message)
    requires id in lives && call == CallBegin(1, MessageFrame(m), 0) && m.kind == Response && m.correlationId == id
    requires lives[id].message.requestPolicy == Exact && lives[id].endings == [] && lives[id].answers == map[]
    ensures var after := Watch(lives, call, Ok([Deliver(1, {3}, m)]));
      && id in after && after[id].endings == [ByResponse] && after[id].recipients == lives[id].recipients
      && after[id].answers.Keys == {1}
  {
    var e := Deliver(1, {3}, m);
    assert For(id, [e]) == [e] by { ForAll(id, [e]); }
    ObserveOne(WithAnswer(lives[id], 1, m), call, e);
  }
}
