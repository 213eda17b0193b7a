/** The broker as it runs: one object whose methods update its fields in place. */
module BrokerObject {
  import opened Order
  import opened Results
  import opened Protocol
  import opened BrokerState
  import Steps = BrokerSteps

  /** Appends one ownership event per released namespace, in ascending order. */
  method PushReleases(events: seq<LifecycleEvent>, released: set<Namespace>, peer: PeerId)
    returns (out: seq<LifecycleEvent>)
    ensures out == events + Steps.ReleaseEvents(released, peer)
  {
    hide IsMin;
    out := events;
    var rest := released;
    while rest != {}
      invariant out + Steps.ReleaseEvents(rest, peer) == events + Steps.ReleaseEvents(released, peer)
      decreases |rest|
    {
      var n: Namespace := Min(rest);
      out := out + [NamespaceOwnerChanged(n, Some(peer), None)];
      rest := rest - {n};
    }
  }

  /** Removes and reports, in ascending order, every delivery that lost a recipient. */
  method DropAffected(d: Deliveries, peer: PeerId) returns (left: Deliveries, reports: seq<DeliveryEvent>)
    ensures left == d - Steps.Affected(d, peer)
    ensures reports == Steps.Reports(d, Steps.Affected(d, peer), RecipientDisconnected)
  {
    hide IsMin;
    var affected := Steps.Affected(d, peer);
    var rest := affected;
    left, reports := d, [];
    while rest != {}
      invariant rest <= affected && left == d - (affected - rest)
      invariant reports + Steps.Reports(d, rest, RecipientDisconnected)
             == Steps.Reports(d, affected, RecipientDisconnected)
      decreases |rest|
    {
      var id: MessageId := Min(rest);
      reports := reports + [Report(left[id].sender, id, RecipientDisconnected)];
      left := left - {id};
      rest := rest - {id};
    }
  }

  // ---------- One pass of the clock over all deliveries ----------

  /** The deliveries still to visit. */
  ghost function Only(d: Deliveries, rest: set<MessageId>): Deliveries
  {
    map id | id in d && id in rest :: d[id]
  }

  /** The deliveries once all but `rest` were visited. */
  ghost function Visited(d: Deliveries, rest: set<MessageId>, now: u64): Deliveries
  {
    map id | id in d && (id in rest || !Steps.Ends(Steps.FateOf(d[id], now)))
      :: if id in rest then d[id] else Steps.Outlived(d[id], now)
  }

  /** The counters once all but `rest` were visited. */
  ghost function Counted(m: Metrics, d: Deliveries, rest: set<MessageId>, now: u64): Metrics
  {
    m.(timeouts := SatAdd(m.timeouts, |Steps.Expired(d, now) - rest|),
       retries := SatAdd(m.retries, |Steps.Retried(d, now) - rest|))
  }

  lemma VisitNext(d: Deliveries, rest: set<MessageId>, id: MessageId, now: u64)
    requires rest <= d.Keys && rest != {} && id == Min(rest)
    ensures Steps.TickReports(Only(d, rest), now)
         == Steps.ReportsOf(id, d[id], now) + Steps.TickReports(Only(d, rest - {id}), now)
    ensures Steps.TickRetries(Only(d, rest), now)
         == Steps.RetriesOf(d[id], now) + Steps.TickRetries(Only(d, rest - {id}), now)
  {
    hide IsMin, Steps.ReportsOf, Steps.RetriesOf;
    assert Only(d, rest).Keys == rest;
    assert Only(d, rest) - {id} == Only(d, rest - {id});
  }

  lemma CountNext(m: Metrics, d: Deliveries, rest: set<MessageId>, id: MessageId, now: u64)
    requires rest <= d.Keys && id in rest
    ensures Counted(m, d, rest - {id}, now) ==
      match Steps.FateOf(d[id], now)
      case Expire => Counted(m, d, rest, now).(timeouts := SatAdd(Counted(m, d, rest, now).timeouts, 1))
      case Again(_) => Counted(m, d, rest, now).(retries := SatAdd(Counted(m, d, rest, now).retries, 1))
      case _ => Counted(m, d, rest, now)
  {
    hide Steps.FateOf;
    OneMoreVisited(Steps.Expired(d, now), rest, id);
    OneMoreVisited(Steps.Retried(d, now), rest, id);
  }

  lemma OneMoreVisited(ids: set<MessageId>, rest: set<MessageId>, id: MessageId)
    requires id in rest
    ensures |ids - (rest - {id})| == |ids - rest| + if id in ids then 1 else 0
  {
    assert ids - (rest - {id}) == (ids - rest) + if id in ids then {id} else {};
  }

  lemma VisitChanges(d: Deliveries, rest: set<MessageId>, id: MessageId, now: u64)
    requires rest <= d.Keys && id in rest
    ensures id in Visited(d, rest, now) && Visited(d, rest, now)[id] == d[id]
    ensures Visited(d, rest - {id}, now) ==
      if Steps.Ends(Steps.FateOf(d[id], now)) then Visited(d, rest, now) - {id}
      else Visited(d, rest, now)[id := Steps.Outlived(d[id], now)]
  {
    hide Steps.FateOf;
  }

  /** Visits every delivery in ascending order of message identifiers. */
  method Scan(d: Deliveries, m: Metrics, now: u64)
    returns (left: Deliveries, counters: Metrics, reports: seq<DeliveryEvent>, retries: seq<Steps.Retry>)
    ensures left == Steps.TickDeliveries(d, now)
    ensures counters == m.(timeouts := SatAdd(m.timeouts, |Steps.Expired(d, now)|),
                           retries := SatAdd(m.retries, |Steps.Retried(d, now)|))
    ensures reports == Steps.TickReports(d, now) && retries == Steps.TickRetries(d, now)
  {
    hide IsMin, Steps.TickReports, Steps.TickRetries, Steps.TickDeliveries, Visited, Counted, Only;
    left, counters, reports, retries := d, m, [], [];
    var rest := d.Keys;
    ScanStarts(d, m, now);
    while rest != {}
      invariant rest <= d.Keys
      invariant left == Visited(d, rest, now) && counters == Counted(m, d, rest, now)
      invariant reports + Steps.TickReports(Only(d, rest), now) == Steps.TickReports(d, now)
      invariant retries + Steps.TickRetries(Only(d, rest), now) == Steps.TickRetries(d, now)
      decreases |rest|
    {
      var id: MessageId := Min(rest);
      VisitNext(d, rest, id, now);
      CountNext(m, d, rest, id, now);
      VisitChanges(d, rest, id, now);
      left, counters, reports, retries := Visit(left, counters, id, now, reports, retries);
      rest := rest - {id};
    }
    ScanEnds(d, m, now);
  }

  /** One delivery: it expires, is left alone, fails or is sent again. */
  method Visit(d: Deliveries, m: Metrics, id: MessageId, now: u64,
               reports: seq<DeliveryEvent>, retries: seq<Steps.Retry>)
    returns (d1: Deliveries, m1: Metrics, reports1: seq<DeliveryEvent>, retries1: seq<Steps.Retry>)
    requires id in d
    ensures reports1 == reports + Steps.ReportsOf(id, d[id], now) && retries1 == retries + Steps.RetriesOf(d[id], now)
    ensures d1 == if Steps.Ends(Steps.FateOf(d[id], now)) then d - {id} else d[id := Steps.Outlived(d[id], now)]
    ensures m1 == match Steps.FateOf(d[id], now)
                  case Expire => m.(timeouts := SatAdd(m.timeouts, 1))
                  case Again(_) => m.(retries := SatAdd(m.retries, 1))
                  case _ => m
  {
    hide RetryNext;
    d1, m1, reports1, retries1 := d, m, reports, retries;
    var pending := d[id];
    if now >= pending.deadline {
      d1 := d1 - {id};
      m1 := m1.(timeouts := SatAdd(m1.timeouts, 1));
      reports1 := reports1 + [Report(pending.sender, id, Timeout)];
    } else if pending.nextRetry.Some? && now >= pending.nextRetry.value && pending.message.retry.Exponential? {
      var retry := pending.message.retry;
      if pending.attempts >= retry.maxAttempts {
        d1 := d1 - {id};
        reports1 := reports1 + [Report(pending.sender, id, DeliveryFailed)];
      } else {
        var attempts: u8 := pending.attempts + 1;
        d1 := d1[id := pending.(attempts := attempts, nextRetry := RetryNext(retry, now, attempts))];
        m1 := m1.(retries := SatAdd(m1.retries, 1));
        retries1 := retries1
                    + [(pending.priority,
                        Deliver(pending.sender, pending.recipients - pending.acknowledgements, pending.message))];
      }
    }
    assert d == d[id := d[id]];
  }

  lemma ScanStarts(d: Deliveries, m: Metrics, now: u64)
    ensures Visited(d, d.Keys, now) == d && Counted(m, d, d.Keys, now) == m && Only(d, d.Keys) == d
  {
    hide Steps.FateOf, SatAdd;
    assert Steps.Expired(d, now) - d.Keys == {} && Steps.Retried(d, now) - d.Keys == {};
    assert SatAdd(m.timeouts, 0) == m.timeouts && SatAdd(m.retries, 0) == m.retries by { AddNothing(m); }
  }

  lemma AddNothing(m: Metrics)
    ensures SatAdd(m.timeouts, 0) == m.timeouts && SatAdd(m.retries, 0) == m.retries
  {
  }

  lemma ScanEnds(d: Deliveries, m: Metrics, now: u64)
    ensures Visited(d, {}, now) == Steps.TickDeliveries(d, now)
    ensures Counted(m, d, {}, now) == m.(timeouts := SatAdd(m.timeouts, |Steps.Expired(d, now)|),
                                         retries := SatAdd(m.retries, |Steps.Retried(d, now)|))
    ensures Steps.TickReports(Only(d, {}), now) == [] && Steps.TickRetries(Only(d, {}), now) == []
  {
    hide Steps.FateOf;
    assert Steps.Expired(d, now) - {} == Steps.Expired(d, now) && Steps.Retried(d, now) - {} == Steps.Retried(d, now);
    assert Only(d, {}) == map[];
  }

  class Broker {
    const config: Config
    var nextPeer: u64
    var peers: map<PeerId, Peer>
    var namespaces: map<Namespace, PeerId>
    var dbusNames: map<Text, PeerId>
    var subscriptions: map<Channel, Subscribers>
    var deliveries: Deliveries
    var events: seq<LifecycleEvent>
    var metrics: Metrics

    function View(): State
      reads this
    {
      State(nextPeer, peers, namespaces, dbusNames, subscriptions, deliveries, events, metrics)
    }

    constructor (config: Config)
      ensures this.config == config && View() == Initial()
    {
      this.config := config;
      nextPeer := 1;
      peers, namespaces, dbusNames, subscriptions, deliveries := map[], map[], map[], map[], map[];
      events := [];
      metrics := Metrics(0, 0, 0, 0, 0);
    }

    // ---------- Sessions ----------

    method ConnectSession(credentials: Credentials, hello: ClientHello) returns (r: Result<PeerId, BrokerError>)
      modifies this
      ensures Steps.Step(View(), r) == Steps.ConnectSession(config, old(View()), credentials, hello)
    {
      hide CheckHeaders;
      var _ :- CheckHeaders(hello.headers);
      if !config.permits(credentials, hello.clientId, hello.headers, Connect) {
        return Err(PolicyDenied(Connect));
      }
      var id := nextPeer;
      if nextPeer == U64_MAX {
        return Err(PeerIdExhausted);
      }
      nextPeer := nextPeer + 1;
      peers := peers[id := Peer(credentials, hello, config.capabilities * hello.capabilities)];
      events := events + [PeerConnected(id)];
      r := Ok(id);
    }

    method RemovePeer(peer: PeerId)
      requires peer in peers
      modifies this
      ensures View() == Steps.RemovePeer(old(View()), peer)
    {
      hide Steps.ReleaseEvents, Steps.OwnedNamespaces, Steps.WithoutOwner, Steps.WithoutSubscriber;
      var released := Steps.OwnedNamespaces(View(), peer);
      peers := peers - {peer};
      namespaces := Steps.WithoutOwner(namespaces, peer);
      dbusNames := Steps.WithoutOwner(dbusNames, peer);
      events := PushReleases(events, released, peer);
      subscriptions := Steps.WithoutSubscriber(subscriptions, peer);
      events := events + [PeerDisconnected(peer)];
    }

    method Disconnect(peer: PeerId) returns (r: Result<seq<DeliveryEvent>, BrokerError>)
      modifies this
      ensures Steps.Step(View(), r) == Steps.Disconnect(old(View()), peer)
    {
      hide Steps.Reports, Steps.Affected, Steps.ReleaseEvents, Steps.OwnedNamespaces, Steps.WithoutSubscriber;
      if peer !in peers {
        return Err(UnknownPeer(peer));
      }
      RemovePeer(peer);
      var reports;
      deliveries, reports := DropAffected(deliveries, peer);
      r := Ok(reports);
    }

    // ---------- Registrations ----------

    method Claim(peer: PeerId, namespace: Namespace) returns (r: Result<(), BrokerError>)
      modifies this
      ensures Steps.Step(View(), r) == Steps.ClaimStep(config, old(View()), peer, namespace)
    {
      hide Authorize, Steps.OwnedNamespaces;
      var _ :- Authorize(config, View(), peer, ClaimNamespace(namespace));
      if |Steps.OwnedNamespaces(View(), peer)| >= config.limits.maximumNamespaceClaims {
        return Err(LimitReached(NamespaceClaims));
      }
      if namespace in namespaces {
        return Err(NamespaceAlreadyOwned(namespace, namespaces[namespace]));
      }
      namespaces := namespaces[namespace := peer];
      events := events + [NamespaceOwnerChanged(namespace, None, Some(peer))];
      r := Ok(());
    }

    method SubscribeWithFilters(peer: PeerId, channel: Channel, filters: seq<HeaderFilter>)
      returns (r: Result<(), BrokerError>)
      modifies this
      ensures Steps.Step(View(), r) == Steps.SubscribeStep(config, old(View()), peer, channel, filters)
    {
      hide Authorize, Steps.SubscribedChannels;
      var _ :- Authorize(config, View(), peer, SubscribeTo(channel));
      var subscribers := if channel in subscriptions then subscriptions[channel] else map[];
      if peer !in subscribers && |Steps.SubscribedChannels(View(), peer)| >= config.limits.maximumSubscriptions {
        return Err(LimitReached(Limit.Subscriptions));
      }
      subscriptions := subscriptions[channel := subscribers[peer := filters]];
      r := Ok(());
    }

    method Unsubscribe(peer: PeerId, channel: Channel) returns (r: Result<(), BrokerError>)
      modifies this
      ensures Steps.Step(View(), r) == Steps.UnsubscribeStep(old(View()), peer, channel)
    {
      if peer !in peers {
        return Err(UnknownPeer(peer));
      }
      if channel in subscriptions {
        var left := subscriptions[channel] - {peer};
        if left == map[] {
          subscriptions := subscriptions - {channel};
        } else {
          subscriptions := subscriptions[channel := left];
        }
      }
      r := Ok(());
    }

    method RegisterDbusName(peer: PeerId, name: Text) returns (r: Result<(), BrokerError>)
      modifies this
      ensures Steps.Step(View(), r) == Steps.RegisterDbusNameStep(config, old(View()), peer, name)
    {
      hide Authorize, ValidDbusName;
      if !ValidDbusName(name) {
        return Err(InvalidDbusName(name));
      }
      var _ :- Authorize(config, View(), peer, Action.RegisterDbusName(name));
      if name in dbusNames {
        return Err(DbusNameAlreadyOwned(name, dbusNames[name]));
      }
      dbusNames := dbusNames[name := peer];
      r := Ok(());
    }

    method DrainEvents() returns (drained: seq<LifecycleEvent>)
      modifies this
      ensures drained == old(events)
      ensures Steps.Step(View(), Ok([])) == Steps.Apply(config, old(View()), Steps.CallDrain)
    {
      drained := events;
      events := [];
    }

    // ---------- Deliveries ----------

    method BeginDelivery(sender: PeerId, frame: Frame, now: u64) returns (r: Result<seq<DeliveryEvent>, BrokerError>)
      modifies this
      ensures Steps.Step(View(), r) == Steps.BeginDelivery(config, old(View()), sender, frame, now)
    {
      hide Authorize, CheckHeaders, Selected, Steps.Accept, Steps.CompleteResponse;
      if !frame.MessageFrame? {
        return Err(InvalidDelivery);
      }
      var m := frame.message;
      if sender !in peers {
        return Err(UnknownPeer(sender));
      }
      var _ :- CheckHeaders(m.headers);
      var priority :- MessagePriority(m.headers);
      if m.kind == Response {
        r := CompleteResponse(sender, m);
        return;
      }
      if m.id in deliveries {
        return Err(DuplicateMessage(m.id));
      }
      var routed := Route(config, View(), sender, m.destination, m.headers);
      if routed.Err? {
        if routed.error == NoEligibleRecipient {
          return Ok([Report(sender, m.id, Outcome.NoRecipient)]);
        }
        return Err(routed.error);
      }
      r := Accept(sender, m, routed.value, now, priority);
    }

    /** The rest of `BeginDelivery`, once recipients are selected. */
    method Accept(sender: PeerId, m: Message, recipients: set<PeerId>, now: u64, priority: u8)
      returns (r: Result<seq<DeliveryEvent>, BrokerError>)
      modifies this
      ensures Steps.Step(View(), r) == Steps.Accept(config, old(View()), sender, m, recipients, now, priority)
    {
      metrics := Steps.CountRouted(metrics, m, |recipients|);
      var tracked := IsTracked(m);
      if (recipients == {} && tracked) || !RequirementPossible(m.ackRequirement, |recipients|) {
        return Ok([Report(sender, m.id, Outcome.NoRecipient)]);
      }
      var out := [Deliver(sender, recipients, m)];
      if m.ackPolicy == AckPolicy.Accepted {
        out := out + [Report(sender, m.id, Outcome.Accepted)];
      }
      assert out == Steps.AcceptedEvents(sender, m, recipients);
      if tracked {
        var _ :- CheckCapacity(config.limits, QueuedFor(deliveries, sender), m);
        if now + m.deadline > U64_MAX {
          return Err(DeadlineOverflow);
        }
        deliveries := deliveries[m.id := Steps.NewPending(sender, m, recipients, now, priority)];
      }
      r := Ok(out);
    }

    method CompleteResponse(sender: PeerId, m: Message) returns (r: Result<seq<DeliveryEvent>, BrokerError>)
      modifies this
      ensures Steps.Step(View(), r) == Steps.CompleteResponse(old(View()), sender, m)
    {
      var id := m.correlationId;
      if id !in deliveries {
        return Err(UnknownDelivery(id));
      }
      var pending := deliveries[id];
      if pending.message.kind != Request || sender !in pending.recipients || sender in pending.responses {
        return Err(UnexpectedResponse(id));
      }
      pending := Steps.Respond(pending, sender, m);
      assert sender in pending.responses;
      deliveries := deliveries[id := pending];
      var policy := pending.message.requestPolicy;
      var answered := |pending.responses| == |pending.recipients|;
      var completed := match policy
        case Exact => true
        case First => true
        case FirstSuccess => m.status == Success || answered
        case AllResponses => answered;
      var out := [];
      if policy != FirstSuccess || m.status == Success {
        out := [Deliver(sender, {pending.sender}, m)];
      } else if completed {
        out := [Deliver(sender, {pending.sender}, pending.responses[Least(pending.responses.Keys)])];
      }
      if completed {
        deliveries := deliveries - {id};
        assert deliveries == old(deliveries) - {id};
      }
      r := Ok(out);
    }

    method Acknowledge(peer: PeerId, id: MessageId, policy: AckPolicy)
      returns (r: Result<seq<DeliveryEvent>, BrokerError>)
      modifies this
      ensures Steps.Step(View(), r) == Steps.AcknowledgeStep(config, old(View()), peer, id, policy)
    {
      hide Authorize, RequirementMet;
      var _ :- Authorize(config, View(), peer, AcknowledgeMessage);
      if id !in deliveries {
        return Err(UnknownDelivery(id));
      }
      var pending := deliveries[id];
      var m := pending.message;
      if peer !in pending.recipients || !AcknowledgementSatisfies(m.ackPolicy, policy) {
        return Err(UnexpectedAcknowledgement(id));
      }
      var acknowledgements := pending.acknowledgements + {peer};
      var complete := !pending.acknowledgementComplete
                      && RequirementMet(m.ackRequirement, |acknowledgements|, |pending.recipients|);
      pending := pending.(acknowledgements := acknowledgements);
      var outcome := Outcome.Received;
      match m.ackPolicy {
        case Received =>
        case Processed => outcome := Outcome.Processed;
        case _ => assert false;
      }
      if complete {
        pending := pending.(acknowledgementComplete := true);
      }
      deliveries := deliveries[id := pending];
      assert pending == Steps.Acknowledged(old(deliveries)[id], peer);
      if !complete {
        return Ok([]);
      }
      if m.kind != Request {
        deliveries := deliveries - {id};
        assert deliveries == old(deliveries) - {id};
      }
      r := Ok([Report(pending.sender, id, outcome)]);
    }

    // ---------- The clock ----------

    method Tick(now: u64) returns (out: seq<DeliveryEvent>)
      modifies this
      ensures Steps.Step(View(), Ok(out)) == Steps.TickStep(old(View()), now)
    {
      hide Steps.TickDeliveries, Steps.TickReports, Steps.TickRetries, Steps.Expired, Steps.Retried;
      var retries;
      deliveries, metrics, out, retries := Scan(deliveries, metrics, now);
      out := out + Steps.EventsOf(Steps.SortByPriority(retries));
    }

    /** Any call, with delivery events for an answer where it has some. */
    method Perform(call: Steps.Call) returns (r: Steps.Answer)
      modifies this
      ensures Steps.Step(View(), r) == Steps.Apply(config, old(View()), call)
    {
      hide Steps.ConnectSession, Steps.ClaimStep, Steps.SubscribeStep, Steps.UnsubscribeStep,
           Steps.RegisterDbusNameStep, Steps.BeginDelivery, Steps.AcknowledgeStep, Steps.TickStep, Steps.Disconnect;
      match call {
        case CallConnect(credentials, hello) =>
          var id := ConnectSession(credentials, hello);
          r := if id.Ok? then Ok([]) else Err(id.error);
        case CallClaim(peer, namespace) =>
          var done := Claim(peer, namespace);
          r := if done.Ok? then Ok([]) else Err(done.error);
        case CallSubscribe(peer, channel, filters) =>
          var done := SubscribeWithFilters(peer, channel, filters);
          r := if done.Ok? then Ok([]) else Err(done.error);
        case CallUnsubscribe(peer, channel) =>
          var done := Unsubscribe(peer, channel);
          r := if done.Ok? then Ok([]) else Err(done.error);
        case CallRegister(peer, name) =>
          var done := RegisterDbusName(peer, name);
          r := if done.Ok? then Ok([]) else Err(done.error);
        case CallBegin(peer, frame, now) => r := BeginDelivery(peer, frame, now);
        case CallAcknowledge(peer, id, policy) => r := Acknowledge(peer, id, policy);
        case CallTick(now) =>
          var out := Tick(now);
          r := Ok(out);
        case CallDisconnect(peer) => r := Disconnect(peer);
        case CallDrain =>
          var _ := DrainEvents();
          r := Ok([]);
      }
    }
  }

  /** A broker together with the calls made on it so far. */
  class RecordedBroker {
    const broker: Broker
    ghost var history: seq<Steps.Call>

    /** The object is always in the state its calls lead to, so what holds of every run holds of it. */
    ghost predicate Valid()
      reads this, broker
    {
      broker.View() == Steps.Run(broker.config, history)
    }

    constructor (config: Config)
      ensures Valid() && fresh(broker) && broker.config == config && history == []
    {
      broker := new Broker(config);
      history := [];
    }

    method Perform(call: Steps.Call) returns (r: Steps.Answer)
      requires Valid()
      modifies this, broker
      ensures Valid() && history == old(history) + [call]
      ensures r == Steps.Apply(broker.config, old(broker.View()), call).result
    {
      hide Steps.Run, Steps.Apply;
      Steps.RunExtends(broker.config, history, call);
      r := broker.Perform(call);
      history := history + [call];
    }
  }
}
