/**
 The daemon's threads: one per connection and the scheduler, interleaving over
 the broker and the session map. Every step under a lock is one atomic step.
 */
module Daemon {
  import opened Results
  import opened Protocol
  import opened BrokerState
  import opened BrokerSteps
  import opened BrokerInvariants
  import opened BrokerBudgets

  type ThreadId = nat

  /** How far a connection's thread has come. */
  datatype Stage =
    | Greeting                  // waiting for HELLO
    | Admitted(id: PeerId)      // registered at the broker, WELCOME and session entry still to come
    | Serving(id: PeerId)       // in the session map
    | Leaving(id: PeerId)       // out of the session map, still registered at the broker
    | Finished
    | Abandoned(id: PeerId)     // ended between registration and session entry

  datatype System = System(broker: State, sessions: set<PeerId>, threads: map<ThreadId, Stage>)

  datatype Move =
    | AcceptConnection(t: ThreadId)
    | RejectHello(t: ThreadId)
    | RegisterPeer(t: ThreadId, credentials: Credentials, hello: ClientHello)
    | LoseWelcome(t: ThreadId)
    | EnterSession(t: ThreadId)
    | ServeCall(t: ThreadId, call: Call)
    | EndSession(t: ThreadId)
    | Unregister(t: ThreadId)
    | SchedulerTick(now: u64)

  /** The broker calls `dispatch_session` makes for a frame of its own peer. */
  predicate SessionCall(call: Call, id: PeerId)
  {
    match call
    case CallClaim(peer, _) => peer == id
    case CallSubscribe(peer, _, _) => peer == id
    case CallUnsubscribe(peer, _) => peer == id
    case CallBegin(peer, _, _) => peer == id
    case CallAcknowledge(peer, _, _) => peer == id
    case _ => false
  }

  predicate Enabled(sys: System, a: Move)
  {
    match a
    case AcceptConnection(t) => t !in sys.threads
    case RejectHello(t) => t in sys.threads && sys.threads[t].Greeting?
    case RegisterPeer(t, _, _) => t in sys.threads && sys.threads[t].Greeting?
    case LoseWelcome(t) => t in sys.threads && sys.threads[t].Admitted?
    case EnterSession(t) => t in sys.threads && sys.threads[t].Admitted?
    case ServeCall(t, call) => t in sys.threads && sys.threads[t].Serving? && SessionCall(call, sys.threads[t].id)
    case EndSession(t) => t in sys.threads && sys.threads[t].Serving?
    case Unregister(t) => t in sys.threads && sys.threads[t].Leaving?
    case SchedulerTick(_) => true
  }

  function Next(c: Config, sys: System, a: Move): System
    requires Enabled(sys, a)
  {
    match a
    case AcceptConnection(t) => sys.(threads := sys.threads[t := Greeting])
    case RejectHello(t) => sys.(threads := sys.threads[t := Finished])
    case RegisterPeer(t, credentials, hello) =>
      var step := ConnectSession(c, sys.broker, credentials, hello);
      sys.(broker := step.state,
           threads := sys.threads[t := if step.result.Ok? then Admitted(step.result.value) else Finished])
    case LoseWelcome(t) => sys.(threads := sys.threads[t := Abandoned(sys.threads[t].id)])
    case EnterSession(t) =>
      sys.(sessions := sys.sessions + {sys.threads[t].id}, threads := sys.threads[t := Serving(sys.threads[t].id)])
    case ServeCall(_, call) => sys.(broker := Apply(c, sys.broker, call).state)
    case EndSession(t) =>
      sys.(sessions := sys.sessions - {sys.threads[t].id}, threads := sys.threads[t := Leaving(sys.threads[t].id)])
    case Unregister(t) =>
      sys.(broker := Disconnect(sys.broker, sys.threads[t].id).state, threads := sys.threads[t := Finished])
    case SchedulerTick(now) => sys.(broker := TickStep(sys.broker, now).state)
  }

  // ---------- The invariant ----------

  predicate Registers(s: Stage) { !s.Greeting? && !s.Finished? }

  ghost predicate OwnPeers(sys: System)
  {
    && (forall t :: t in sys.threads && Registers(sys.threads[t]) ==> sys.threads[t].id in sys.broker.peers)
    && (forall t, u :: t in sys.threads && u in sys.threads && t != u
                       && Registers(sys.threads[t]) && Registers(sys.threads[u]) ==>
          sys.threads[t].id != sys.threads[u].id)
  }

  ghost predicate ServedBy(sys: System, id: PeerId, t: ThreadId)
  {
    t in sys.threads && Registers(sys.threads[t]) && sys.threads[t].id == id
  }

  ghost predicate PeersOwned(sys: System)
  {
    forall p :: p in sys.broker.peers ==> exists t :: ServedBy(sys, p, t)
  }

  ghost predicate SessionsServed(sys: System)
  {
    && (forall t :: t in sys.threads && sys.threads[t].Serving? ==> sys.threads[t].id in sys.sessions)
    && (forall id :: id in sys.sessions ==> exists t :: ServedBy(sys, id, t) && sys.threads[t].Serving?)
  }

  ghost predicate SystemOk(c: Config, sys: System)
  {
    Inv(c, sys.broker) && OwnPeers(sys) && PeersOwned(sys) && SessionsServed(sys)
  }

  /** A call for one of its own peers, or the clock, leaves the set of peers alone. */
  lemma CallKeepsPeers(c: Config, s: State, call: Call, id: PeerId)
    requires SessionCall(call, id) || call.CallTick?
    ensures Apply(c, s, call).state.peers == s.peers
  {
    hide Authorize, BeginDelivery, AcknowledgeStep, TickStep, OwnedNamespaces, SubscribedChannels, SubscribersOf;
    match call
    case CallBegin(p, frame, now) => BeginTouchesDeliveries(c, s, p, frame, now);
    case CallAcknowledge(p, m, policy) => AcknowledgeTouchesDeliveries(c, s, p, m, policy);
    case CallTick(now) => TickTouchesDeliveries(s, now);
    case _ =>
  }

  /** Threads stay as they are and so do the peers. */
  lemma SameThreads(c: Config, sys: System, next: System)
    requires OwnPeers(sys) && PeersOwned(sys) && SessionsServed(sys)
    requires next == sys.(broker := next.broker) && next.broker.peers == sys.broker.peers
    ensures OwnPeers(next) && PeersOwned(next) && SessionsServed(next)
  {
    forall p | p in next.broker.peers ensures exists t :: ServedBy(next, p, t) {
      var t :| ServedBy(sys, p, t);
      assert ServedBy(next, p, t);
    }
    forall id | id in next.sessions ensures exists t :: ServedBy(next, id, t) && next.threads[t].Serving? {
      var t :| ServedBy(sys, id, t) && sys.threads[t].Serving?;
      assert ServedBy(next, id, t);
    }
  }

  /** Registration adds one peer, new to the broker, or changes nothing. */
  lemma ConnectAdds(c: Config, s: State, credentials: Credentials, hello: ClientHello)
    requires PeersOk(c, s.nextPeer, s.peers)
    ensures var step := ConnectSession(c, s, credentials, hello);
      if step.result.Ok?
      then step.result.value !in s.peers && step.state.peers.Keys == s.peers.Keys + {step.result.value}
      else step.state == s
  {
    hide CheckHeaders;
  }

  /** Thread `t` alone changes its stage, to one with a peer new to the broker. */
  ghost predicate Joined(sys: System, next: System, t: ThreadId, id: PeerId)
  {
    && t in sys.threads && !Registers(sys.threads[t])
    && next.threads == sys.threads[t := Admitted(id)] && next.sessions == sys.sessions
    && id !in sys.broker.peers && next.broker.peers.Keys == sys.broker.peers.Keys + {id}
  }

  lemma JoinedOwnPeers(sys: System, next: System, t: ThreadId, id: PeerId)
    requires OwnPeers(sys) && Joined(sys, next, t, id)
    ensures OwnPeers(next)
  {
  }

  lemma JoinedPeersOwned(sys: System, next: System, t: ThreadId, id: PeerId)
    requires PeersOwned(sys) && Joined(sys, next, t, id)
    ensures PeersOwned(next)
  {
    forall p | p in next.broker.peers ensures exists u :: ServedBy(next, p, u) {
      if p == id {
        assert ServedBy(next, p, t);
      } else {
        var u :| ServedBy(sys, p, u);
        assert ServedBy(next, p, u);
      }
    }
  }

  lemma RegisterKeepsOk(c: Config, sys: System, a: Move)
    requires SystemOk(c, sys) && a.RegisterPeer? && Enabled(sys, a)
    ensures SystemOk(c, Next(c, sys, a))
  {
    hide PeersOk, NamespacesOk, DbusNamesOk, SubscriptionsOk, PendingsOk, ConnectSession, OwnPeers, PeersOwned,
         SessionsServed;
    var next := Next(c, sys, a);
    ConnectKeeps(c, sys.broker, a.credentials, a.hello);
    ConnectAdds(c, sys.broker, a.credentials, a.hello);
    hide Inv;
    var result := ConnectSession(c, sys.broker, a.credentials, a.hello).result;
    if result.Ok? {
      JoinedOwnPeers(sys, next, a.t, result.value);
      JoinedPeersOwned(sys, next, a.t, result.value);
    } else {
      MoveKeepsPeers(sys, next, a.t, Finished);
    }
    MoveKeepsSessions(sys, next, a.t);
  }

  /** Thread `t` alone changes its stage, and its peer leaves the broker. */
  ghost predicate Left(sys: System, next: System, t: ThreadId)
  {
    && t in sys.threads && sys.threads[t].Leaving?
    && next.threads == sys.threads[t := Finished] && next.sessions == sys.sessions
    && next.broker.peers.Keys == sys.broker.peers.Keys - {sys.threads[t].id}
  }

  lemma LeftOwnPeers(sys: System, next: System, t: ThreadId)
    requires OwnPeers(sys) && Left(sys, next, t)
    ensures OwnPeers(next)
  {
  }

  lemma LeftPeersOwned(sys: System, next: System, t: ThreadId)
    requires PeersOwned(sys) && Left(sys, next, t)
    ensures PeersOwned(next)
  {
    forall p | p in next.broker.peers ensures exists u :: ServedBy(next, p, u) {
      var u :| ServedBy(sys, p, u);
      assert ServedBy(next, p, u);
    }
  }

  lemma UnregisterKeepsOk(c: Config, sys: System, a: Move)
    requires SystemOk(c, sys) && a.Unregister? && Enabled(sys, a)
    ensures SystemOk(c, Next(c, sys, a))
  {
    hide Inv, OwnPeers, PeersOwned, SessionsServed, Disconnect;
    var next, id := Next(c, sys, a), sys.threads[a.t].id;
    DisconnectKeeps(c, sys.broker, id);
    DisconnectRemoves(sys.broker, id);
    LeftOwnPeers(sys, next, a.t);
    LeftPeersOwned(sys, next, a.t);
    MoveKeepsSessions(sys, next, a.t);
  }

  lemma DisconnectRemoves(s: State, id: PeerId)
    ensures Disconnect(s, id).state.peers.Keys == s.peers.Keys - {id}
  {
    hide Affected, Reports, ReleaseEvents, WithoutOwner, WithoutSubscriber;
  }

  /** A step that moves one thread, and leaves its peer and the broker alone, keeps every peer owned once. */
  lemma MoveKeepsPeers(sys: System, next: System, t: ThreadId, stage: Stage)
    requires OwnPeers(sys) && PeersOwned(sys)
    requires next.broker == sys.broker && next.threads == sys.threads[t := stage]
    requires
      if t in sys.threads && Registers(sys.threads[t])
      then Registers(stage) && stage.id == sys.threads[t].id
      else !Registers(stage)
    ensures OwnPeers(next) && PeersOwned(next)
  {
    forall p | p in next.broker.peers ensures exists u :: ServedBy(next, p, u) {
      var u :| ServedBy(sys, p, u);
      assert ServedBy(next, p, u);
    }
  }

  /** A step of a thread that neither enters nor ends a session keeps each session served. */
  lemma MoveKeepsSessions(sys: System, next: System, t: ThreadId)
    requires SessionsServed(sys) && next.sessions == sys.sessions
    requires t in next.threads && next.threads == sys.threads[t := next.threads[t]]
    requires !next.threads[t].Serving? && (t in sys.threads ==> !sys.threads[t].Serving?)
    ensures SessionsServed(next)
  {
    forall id | id in next.sessions ensures exists u :: ServedBy(next, id, u) && next.threads[u].Serving? {
      var u :| ServedBy(sys, id, u) && sys.threads[u].Serving?;
      assert ServedBy(next, id, u);
    }
  }

  lemma EnterKeepsSessions(sys: System, next: System, t: ThreadId)
    requires SessionsServed(sys) && t in sys.threads && sys.threads[t].Admitted?
    requires next.threads == sys.threads[t := Serving(sys.threads[t].id)]
    requires next.sessions == sys.sessions + {sys.threads[t].id}
    ensures SessionsServed(next)
  {
    forall id | id in next.sessions ensures exists u :: ServedBy(next, id, u) && next.threads[u].Serving? {
      if id == sys.threads[t].id {
        assert ServedBy(next, id, t);
      } else {
        var u :| ServedBy(sys, id, u) && sys.threads[u].Serving?;
        assert ServedBy(next, id, u);
      }
    }
  }

  lemma EndKeepsSessions(sys: System, next: System, t: ThreadId)
    requires SessionsServed(sys) && OwnPeers(sys) && t in sys.threads && sys.threads[t].Serving?
    requires next.threads == sys.threads[t := Leaving(sys.threads[t].id)]
    requires next.sessions == sys.sessions - {sys.threads[t].id}
    ensures SessionsServed(next)
  {
    forall id | id in next.sessions ensures exists u :: ServedBy(next, id, u) && next.threads[u].Serving? {
      var u :| ServedBy(sys, id, u) && sys.threads[u].Serving?;
      assert ServedBy(next, id, u);
    }
  }

  /** Steps that move one thread without a broker call. */
  lemma MoveKeepsOk(c: Config, sys: System, a: Move)
    requires SystemOk(c, sys) && Enabled(sys, a)
    requires a.AcceptConnection? || a.RejectHello? || a.LoseWelcome? || a.EnterSession? || a.EndSession?
    ensures SystemOk(c, Next(c, sys, a))
  {
    hide Inv, OwnPeers, PeersOwned, SessionsServed;
    var next := Next(c, sys, a);
    MoveKeepsPeers(sys, next, a.t, next.threads[a.t]);
    if a.EnterSession? {
      EnterKeepsSessions(sys, next, a.t);
    } else if a.EndSession? {
      EndKeepsSessions(sys, next, a.t);
    } else {
      MoveKeepsSessions(sys, next, a.t);
    }
  }

  lemma NextKeepsOk(c: Config, sys: System, a: Move)
    requires SystemOk(c, sys) && Enabled(sys, a)
    ensures SystemOk(c, Next(c, sys, a))
  {
    hide Inv, OwnPeers, PeersOwned, SessionsServed, Apply, TickStep;
    match a
    case RegisterPeer(_, _, _) => RegisterKeepsOk(c, sys, a);
    case Unregister(_) => UnregisterKeepsOk(c, sys, a);
    case ServeCall(t, call) =>
      CallKeepsPeers(c, sys.broker, call, sys.threads[t].id);
      ApplyKeeps(c, sys.broker, call);
      SameThreads(c, sys, Next(c, sys, a));
    case SchedulerTick(now) =>
      TickTouchesDeliveries(sys.broker, now);
      TickKeeps(c, sys.broker, now);
      SameThreads(c, sys, Next(c, sys, a));
    case _ => MoveKeepsOk(c, sys, a);
  }

  // ---------- Every interleaving ----------

  /** A run of the daemon from its start; every action is enabled when it happens. */
  ghost predicate IsRun(c: Config, moves: seq<Move>, states: seq<System>)
  {
    && |states| == |moves| + 1
    && states[0] == System(Initial(), {}, map[])
    && forall i :: 0 <= i < |moves| ==> Enabled(states[i], moves[i]) && states[i + 1] == Next(c, states[i], moves[i])
  }

  lemma {:induction false} RunIsOk(c: Config, moves: seq<Move>, states: seq<System>, i: nat)
    requires IsRun(c, moves, states) && i <= |moves|
    ensures SystemOk(c, states[i])
  {
    hide SystemOk, Next;
    if i == 0 {
      StartIsOk(c);
    } else {
      RunIsOk(c, moves, states, i - 1);
      NextKeepsOk(c, states[i - 1], moves[i - 1]);
    }
  }

  lemma StartIsOk(c: Config)
    ensures SystemOk(c, System(Initial(), {}, map[]))
  {
    RunKeeps(c, []);
  }

  /** The broker call an action makes, if any. */
  function CallOf(sys: System, a: Move): Option<Call>
    requires Enabled(sys, a)
  {
    match a
    case RegisterPeer(_, credentials, hello) => Some(CallConnect(credentials, hello))
    case ServeCall(_, call) => Some(call)
    case Unregister(t) => Some(CallDisconnect(sys.threads[t].id))
    case SchedulerTick(now) => Some(CallTick(now))
    case _ => None
  }

  ghost function CallsOf(c: Config, moves: seq<Move>, states: seq<System>, i: nat): seq<Call>
    requires IsRun(c, moves, states) && i <= |moves|
  {
    if i == 0 then []
    else
      var call := CallOf(states[i - 1], moves[i - 1]);
      CallsOf(c, moves, states, i - 1) + if call.Some? then [call.value] else []
  }

  /** Whatever the interleaving, the broker has seen one run of whole calls, so all that holds of runs holds here. */
  lemma {:induction false} InterleavingsAreRuns(c: Config, moves: seq<Move>, states: seq<System>, i: nat)
    requires IsRun(c, moves, states) && i <= |moves|
    ensures states[i].broker == Run(c, CallsOf(c, moves, states, i))
  {
    hide Run, ConnectSession, ClaimStep, SubscribeStep, UnsubscribeStep, RegisterDbusNameStep, BeginDelivery,
         AcknowledgeStep, TickStep, Disconnect;
    if i == 0 {
      RunStarts(c);
    } else {
      InterleavingsAreRuns(c, moves, states, i - 1);
      var before := CallsOf(c, moves, states, i - 1);
      var call := CallOf(states[i - 1], moves[i - 1]);
      if call.Some? {
        RunExtends(c, before, call.value);
      } else {
        assert before + [] == before;
      }
    }
  }

  lemma RunStarts(c: Config)
    ensures Run(c, []) == Initial()
  {
  }

  /** Each session belongs to a connected peer, and exactly one thread serves it. */
  lemma SessionsAreServedByOneThread(c: Config, moves: seq<Move>, states: seq<System>, i: nat, id: PeerId)
    requires IsRun(c, moves, states) && i <= |moves| && id in states[i].sessions
    ensures id in states[i].broker.peers
    ensures exists t :: ServedBy(states[i], id, t) && forall u :: ServedBy(states[i], id, u) ==> u == t
  {
    hide Inv;
    RunIsOk(c, moves, states, i);
    var t :| ServedBy(states[i], id, t) && states[i].threads[t].Serving?;
  }

  /** The broker's peers are exactly those of the threads that have registered and not yet unregistered one. */
  lemma PeersAreThoseOfThreads(c: Config, moves: seq<Move>, states: seq<System>, i: nat, id: PeerId)
    requires IsRun(c, moves, states) && i <= |moves|
    ensures id in states[i].broker.peers <==> exists t :: ServedBy(states[i], id, t)
  {
    hide Inv;
    RunIsOk(c, moves, states, i);
  }

  /** An answer that fails because no such peer is connected. */
  predicate LacksPeer<T>(r: Result<T, BrokerError>)
  {
    r.Err? && r.error.UnknownPeer?
  }

  /** No broker call made for a live session, and not its final disconnect, fails for want of its peer. */
  lemma SessionCallsKnowTheirPeer(c: Config, moves: seq<Move>, states: seq<System>, i: nat)
    requires IsRun(c, moves, states) && i < |moves|
    ensures moves[i].ServeCall? ==> !LacksPeer(Apply(c, states[i].broker, moves[i].call).result)
    ensures moves[i].Unregister? ==> Disconnect(states[i].broker, states[i].threads[moves[i].t].id).result.Ok?
  {
    hide Inv, PeersOwned, SessionsServed, Apply, Disconnect;
    RunIsOk(c, moves, states, i);
    var s := states[i];
    if moves[i].ServeCall? {
      KnownPeer(c, s.broker, moves[i].call, s.threads[moves[i].t].id);
    }
    if moves[i].Unregister? {
      KnownPeerLeaves(s.broker, s.threads[moves[i].t].id);
    }
  }

  lemma KnownPeerLeaves(s: State, id: PeerId)
    requires id in s.peers
    ensures Disconnect(s, id).result.Ok?
  {
  }

  lemma KnownPeer(c: Config, s: State, call: Call, id: PeerId)
    requires SessionCall(call, id) && id in s.peers
    ensures !LacksPeer(Apply(c, s, call).result)
  {
    hide OwnedNamespaces, SubscribedChannels, SubscribersOf, BeginDelivery, Acknowledged, RequirementMet;
    if call.CallBegin? {
      KnownSender(c, s, id, call.frame, call.now);
    }
  }

  lemma KnownSender(c: Config, s: State, sender: PeerId, frame: Frame, now: u64)
    requires sender in s.peers
    ensures !LacksPeer(BeginDelivery(c, s, sender, frame, now).result)
  {
    hide Route, CheckHeaders, Accept, CompleteResponse;
    if frame.MessageFrame? {
      var m := frame.message;
      KnownRoute(c, s, sender, m);
      KnownResponder(s, sender, m);
      PlainErrors(m.headers);
      var routed, priority := Route(c, s, sender, m.destination, m.headers), MessagePriority(m.headers);
      if routed.Ok? && priority.Ok? {
        KnownAccept(c, s, sender, m, routed.value, now, priority.value);
      }
    }
  }

  lemma PlainErrors(h: Headers)
    ensures !LacksPeer(CheckHeaders(h))
  {
  }

  lemma KnownRoute(c: Config, s: State, sender: PeerId, m: Message)
    requires sender in s.peers
    ensures !LacksPeer(Route(c, s, sender, m.destination, m.headers))
  {
    hide Selected;
  }

  lemma KnownResponder(s: State, sender: PeerId, m: Message)
    ensures !LacksPeer(CompleteResponse(s, sender, m).result)
  {
    hide Completes, Forwarded;
  }

  lemma KnownAccept(c: Config, s: State, sender: PeerId, m: Message, recipients: set<PeerId>, now: u64, priority: u8)
    ensures !LacksPeer(Accept(c, s, sender, m, recipients, now, priority).result)
  {
    hide QueuedFor, TotalBytes, Requests, DeliveryBytes, CountRouted, NewPending, AcceptedEvents, RequirementPossible;
  }

  /**
   A peer is registered exactly while some thread has it, so once every thread
   has finished without abandoning its peer, the broker holds nothing: no peer,
   namespace, name, subscription or delivery.
   */
  lemma FinishedDaemonHoldsNothing(c: Config, moves: seq<Move>, states: seq<System>, i: nat)
    requires IsRun(c, moves, states) && i <= |moves|
    requires forall t :: t in states[i].threads ==> states[i].threads[t].Finished?
    ensures var b := states[i].broker;
      && b.peers == map[] && b.namespaces == map[] && b.dbusNames == map[]
      && b.subscriptions == map[] && b.deliveries == map[]
    ensures states[i].sessions == {}
  {
    hide Inv, OwnPeers, SystemOk;
    RunIsOk(c, moves, states, i);
    var s := states[i];
    PeersNeedThreads(c, s);
    HoldersAreConnected(c, s.broker);
  }

  lemma PeersNeedThreads(c: Config, s: System)
    requires SystemOk(c, s)
    ensures Inv(c, s.broker)
    ensures (forall t :: t in s.threads ==> s.threads[t].Finished?) ==> s.broker.peers == map[] && s.sessions == {}
  {
    hide Inv, OwnPeers;
    if s.broker.peers != map[] {
      var p :| p in s.broker.peers;
      var t :| ServedBy(s, p, t);
      assert !s.threads[t].Finished?;
    }
    if s.sessions != {} {
      var p :| p in s.sessions;
      var t :| ServedBy(s, p, t) && s.threads[t].Serving?;
      assert !s.threads[t].Finished?;
    }
  }

  lemma HoldersAreConnected(c: Config, s: State)
    requires Inv(c, s)
    ensures s.peers == map[] ==>
      s.namespaces == map[] && s.dbusNames == map[] && s.subscriptions == map[] && s.deliveries == map[]
  {
    hide PeersOk, ValidDbusName, Permitted, IsTracked, RequirementPossible;
    if s.subscriptions != map[] {
      var ch :| ch in s.subscriptions;
      assert SubscribersOk(c, s.peers, ch, s.subscriptions[ch]);
      var p :| p in s.subscriptions[ch];
      assert p in s.peers;
    }
    if s.deliveries != map[] {
      var id :| id in s.deliveries;
      assert PendingOk(s.peers.Keys, id, s.deliveries[id]);
    }
  }

  /** A peer whose thread ended before its session began stays registered for ever. */
  lemma {:induction false} AbandonedPeersStay(c: Config, moves: seq<Move>, states: seq<System>, i: nat, j: nat, t: ThreadId)
    requires IsRun(c, moves, states) && i <= j <= |moves|
    requires t in states[i].threads && states[i].threads[t].Abandoned?
    ensures t in states[j].threads && states[j].threads[t] == states[i].threads[t]
    ensures states[i].threads[t].id in states[j].broker.peers
    decreases j
  {
    hide Inv, PeersOwned, SessionsServed, Apply, ConnectSession, Disconnect, TickStep;
    RunIsOk(c, moves, states, j);
    if i < j {
      AbandonedPeersStay(c, moves, states, i, j - 1, t);
    }
  }
}
