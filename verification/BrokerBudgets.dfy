/** Per-peer limits: nobody exceeds them, and nobody's use counts against another. */
module BrokerBudgets {
  import opened Order
  import opened Results
  import opened Protocol
  import opened Encoding
  import opened BrokerState
  import opened BrokerSteps

  // ---------- Sums over deliveries ----------

  /** A total does not depend on which delivery is counted first. */
  lemma {:induction false} TotalBytesPick(d: Deliveries, id: MessageId)
    requires id in d
    ensures TotalBytes(d) == DeliveryBytes(d[id].message) + TotalBytes(d - {id})
    decreases |d|
  {
    hide DeliveryBytes, IsMin;
    var first := Min(d.Keys);
    if first != id {
      Removal(d, first);
      Removal(d, id);
      TotalBytesPick(d - {first}, id);
      assert first in (d - {id}).Keys && IsMin(first, (d - {id}).Keys) by {
        StillMin(d.Keys, id);
      }
      MinOf((d - {id}).Keys, first);
      assert d - {first} - {id} == d - {id} - {first};
    }
  }

  lemma StillMin(s: set<Bytes>, k: Bytes)
    requires k in s && Min(s) != k
    ensures IsMin(Min(s), s - {k})
  {
  }

  lemma Removal(d: Deliveries, id: MessageId)
    requires id in d
    ensures (d - {id}).Keys == d.Keys - {id} && |d - {id}| == |d| - 1
  {
    assert (d - {id}).Keys == d.Keys - {id};
  }

  /** `e` holds some of the deliveries of `d`, perhaps acknowledged, answered or retried since. */
  ghost predicate PartOf(e: Deliveries, d: Deliveries)
  {
    forall id :: id in e ==> id in d && e[id].sender == d[id].sender && e[id].message == d[id].message
  }

  lemma {:induction false} PartIsNoLarger(e: Deliveries, d: Deliveries)
    requires PartOf(e, d)
    ensures |e| <= |d| && |Requests(e)| <= |Requests(d)| && TotalBytes(e) <= TotalBytes(d)
    decreases |d|
  {
    SubsetSize(e.Keys, d.Keys);
    SubsetSize(Requests(e), Requests(d));
    TotalOfPart(e, d);
  }

  lemma {:induction false} TotalOfPart(e: Deliveries, d: Deliveries)
    requires PartOf(e, d)
    ensures TotalBytes(e) <= TotalBytes(d)
    decreases |d|
  {
    hide DeliveryBytes, IsMin;
    if d == map[] {
      assert e == map[];
    } else {
      var first := Min(d.Keys);
      Removal(d, first);
      if first in e {
        TotalBytesPick(e, first);
        TotalOfPart(e - {first}, d - {first});
      } else {
        TotalOfPart(e, d - {first});
      }
    }
  }

  lemma {:induction false} SubsetSize<T>(a: set<T>, b: set<T>)
    requires a <= b
    ensures |a| <= |b|
  {
    assert b == a + (b - a);
  }

  /** Queues only get smaller when deliveries are acknowledged, answered, retried or removed. */
  lemma QueuesShrink(e: Deliveries, d: Deliveries, sender: PeerId)
    requires PartOf(e, d)
    ensures PartOf(QueuedFor(e, sender), QueuedFor(d, sender))
  {
  }

  // ---------- Limits hold in every state ----------

  /** A sender's queue is within its limits; the largest byte limit is none at all. */
  ghost predicate Fits(limits: Limits, queued: Deliveries)
  {
    && |queued| <= limits.maximumQueuedMessages
    && (limits.maximumQueuedBytes < USIZE_MAX ==> TotalBytes(queued) <= limits.maximumQueuedBytes)
    && |Requests(queued)| <= limits.maximumInFlightRequests
  }

  ghost predicate DeliveriesFit(limits: Limits, d: Deliveries)
  {
    forall sender: PeerId :: Fits(limits, QueuedFor(d, sender))
  }

  ghost predicate RegistrationsFit(limits: Limits, s: State)
  {
    && (forall peer: PeerId :: |OwnedNamespaces(s, peer)| <= limits.maximumNamespaceClaims)
    && (forall peer: PeerId :: |SubscribedChannels(s, peer)| <= limits.maximumSubscriptions)
  }

  ghost predicate WithinLimits(c: Config, s: State)
  {
    RegistrationsFit(c.limits, s) && DeliveriesFit(c.limits, s.deliveries)
  }

  lemma FitShrinks(limits: Limits, e: Deliveries, d: Deliveries)
    requires PartOf(e, d) && DeliveriesFit(limits, d)
    ensures DeliveriesFit(limits, e)
  {
    hide PartOf, QueuedFor, TotalBytes, Requests;
    forall sender: PeerId ensures Fits(limits, QueuedFor(e, sender)) {
      QueuesShrink(e, d, sender);
      PartIsNoLarger(QueuedFor(e, sender), QueuedFor(d, sender));
      assert Fits(limits, QueuedFor(d, sender));
    }
  }

  lemma AdmittedFits(limits: Limits, queued: Deliveries, id: MessageId, p: Pending)
    requires Fits(limits, queued) && id !in queued
    requires CheckCapacity(limits, queued, p.message).Ok?
    ensures Fits(limits, queued[id := p])
  {
    hide DeliveryBytes, TotalBytes, Requests;
    OneMore(queued, id, p);
  }

  lemma OneMore(queued: Deliveries, id: MessageId, p: Pending)
    requires id !in queued
    ensures var more := queued[id := p];
      && |more| == |queued| + 1
      && TotalBytes(more) == TotalBytes(queued) + DeliveryBytes(p.message)
      && |Requests(more)| == |Requests(queued)| + if p.message.kind == Request then 1 else 0
  {
    hide DeliveryBytes, TotalBytes, Requests;
    var more := queued[id := p];
    TotalBytesPick(more, id);
    assert more - {id} == queued;
    OneMoreRequest(queued, id, p);
  }

  lemma OneMoreRequest(queued: Deliveries, id: MessageId, p: Pending)
    requires id !in queued
    ensures |Requests(queued[id := p])| == |Requests(queued)| + if p.message.kind == Request then 1 else 0
  {
    assert Requests(queued[id := p]) == Requests(queued) + if p.message.kind == Request then {id} else {};
  }

  lemma AdmissionFits(limits: Limits, d: Deliveries, id: MessageId, p: Pending)
    requires DeliveriesFit(limits, d) && id !in d
    requires CheckCapacity(limits, QueuedFor(d, p.sender), p.message).Ok?
    ensures DeliveriesFit(limits, d[id := p])
  {
    hide CheckCapacity, Fits;
    AdmittedFits(limits, QueuedFor(d, p.sender), id, p);
    var e := d[id := p];
    forall sender: PeerId ensures Fits(limits, QueuedFor(e, sender)) {
      assert Fits(limits, QueuedFor(d, sender));
      assert QueuedFor(e, sender)
          == if sender == p.sender then QueuedFor(d, sender)[id := p] else QueuedFor(d, sender);
    }
  }

  /** Every call leaves a part of the deliveries, or adds one that was admitted. */
  ghost predicate Admitted(c: Config, s: State, t: State)
  {
    || PartOf(t.deliveries, s.deliveries)
    || exists id, p :: AdmittedOne(c, s, t, id, p)
  }

  ghost predicate AdmittedOne(c: Config, s: State, t: State, id: MessageId, p: Pending)
  {
    && id !in s.deliveries && t.deliveries == s.deliveries[id := p]
    && CheckCapacity(c.limits, QueuedFor(s.deliveries, p.sender), p.message).Ok?
  }

  lemma BeginAdmits(c: Config, s: State, sender: PeerId, frame: Frame, now: u64)
    ensures Admitted(c, s, BeginDelivery(c, s, sender, frame, now).state)
    ensures frame.MessageFrame? && frame.message.kind == Response ==>
              PartOf(BeginDelivery(c, s, sender, frame, now).state.deliveries, s.deliveries)
  {
    hide CheckHeaders, MessagePriority, Route, Accept, CompleteResponse, PartOf, AdmittedOne;
    PartOfItself(s.deliveries);
    if frame.MessageFrame? {
      var m := frame.message;
      ResponseShrinks(s, sender, m);
      var routed, priority := Route(c, s, sender, m.destination, m.headers), MessagePriority(m.headers);
      if routed.Ok? && priority.Ok? && m.id !in s.deliveries {
        AcceptAdmits(c, s, sender, m, routed.value, now, priority.value);
      }
    }
  }

  lemma ResponseShrinks(s: State, sender: PeerId, m: Message)
    ensures PartOf(CompleteResponse(s, sender, m).state.deliveries, s.deliveries)
  {
    hide Completes, Forwarded, PartOf;
    PartOfItself(s.deliveries);
    var id := m.correlationId;
    if id in s.deliveries {
      PartUpdates(s.deliveries, id, Respond(s.deliveries[id], sender, m));
      PartRemoves(s.deliveries, id);
    }
  }

  /** A message that is kept passed the capacity check, and is kept for its sender. */
  lemma AcceptAdmits(c: Config, s: State, sender: PeerId, m: Message, recipients: set<PeerId>, now: u64, priority: u8)
    requires m.id !in s.deliveries
    ensures var t := Accept(c, s, sender, m, recipients, now, priority).state;
      || t.deliveries == s.deliveries
      || (&& m.id in t.deliveries && t.deliveries == s.deliveries[m.id := t.deliveries[m.id]]
          && t.deliveries[m.id].sender == sender && AdmittedOne(c, s, t, m.id, t.deliveries[m.id]))
  {
    hide CheckCapacity, QueuedFor, CountRouted, RetryNext, AcceptedEvents, RequirementPossible, IsTracked;
  }

  lemma CallAdmits(c: Config, s: State, call: Call)
    ensures Admitted(c, s, Apply(c, s, call).state)
    ensures !call.CallBegin? ==> PartOf(Apply(c, s, call).state.deliveries, s.deliveries)
  {
    hide CheckHeaders, Authorize, BeginDelivery, AcknowledgeStep, TickDeliveries, ValidDbusName, Reports, TickEvents,
         OwnedNamespaces, SubscribedChannels, ReleaseEvents, WithoutOwner, WithoutSubscriber, PartOf, AdmittedOne;
    PartOfItself(s.deliveries);
    match call
    case CallBegin(peer, frame, now) => BeginAdmits(c, s, peer, frame, now);
    case CallAcknowledge(peer, id, policy) => AcknowledgeShrinks(c, s, peer, id, policy);
    case CallTick(now) => TickShrinks(s.deliveries, now);
    case CallDisconnect(peer) => PartLoses(s.deliveries, Affected(s.deliveries, peer));
    case _ =>
  }

  lemma TickShrinks(d: Deliveries, now: u64)
    ensures PartOf(TickDeliveries(d, now), d)
  {
    hide RetryNext;
  }

  lemma PartLoses(d: Deliveries, ids: set<MessageId>)
    ensures PartOf(d - ids, d)
  {
  }

  lemma AcknowledgeShrinks(c: Config, s: State, peer: PeerId, id: MessageId, policy: AckPolicy)
    ensures PartOf(AcknowledgeStep(c, s, peer, id, policy).state.deliveries, s.deliveries)
  {
    hide Authorize, AcknowledgementSatisfies, RequirementMet, WantsAck, PartOf;
    var d := s.deliveries;
    PartOfItself(d);
    if id in d {
      var p := d[id];
      PartUpdates(d, id, Acknowledged(p, peer));
      PartUpdates(d, id, p.(acknowledgements := Acknowledged(p, peer).acknowledgements));
      assert PartOf(d - {id}, d) by { PartRemoves(d, id); }
    }
  }

  lemma PartUpdates(d: Deliveries, id: MessageId, p: Pending)
    requires id in d && p.sender == d[id].sender && p.message == d[id].message
    ensures PartOf(d[id := p], d)
  {
  }

  lemma PartRemoves(d: Deliveries, id: MessageId)
    ensures PartOf(d - {id}, d)
  {
  }

  lemma CallKeepsDeliveriesFit(c: Config, s: State, call: Call)
    requires DeliveriesFit(c.limits, s.deliveries)
    ensures DeliveriesFit(c.limits, Apply(c, s, call).state.deliveries)
  {
    hide Apply, DeliveriesFit, PartOf;
    var t := Apply(c, s, call).state;
    CallAdmits(c, s, call);
    if PartOf(t.deliveries, s.deliveries) {
      FitShrinks(c.limits, t.deliveries, s.deliveries);
    } else {
      var id, p :| AdmittedOne(c, s, t, id, p);
      AdmissionFits(c.limits, s.deliveries, id, p);
    }
  }

  // ---------- Registrations ----------

  /** A peer's namespaces grow only by its own claim, and only below its limit. */
  ghost predicate ClaimsGrow(c: Config, s: State, t: State, call: Call, peer: PeerId)
  {
    || OwnedNamespaces(t, peer) <= OwnedNamespaces(s, peer)
    || (&& call.CallClaim? && call.peer == peer
        && |OwnedNamespaces(s, peer)| < c.limits.maximumNamespaceClaims
        && OwnedNamespaces(t, peer) == OwnedNamespaces(s, peer) + {call.namespace})
  }

  /** A peer's subscriptions grow only by its own call, and only below its limit. */
  ghost predicate SubscriptionsGrow(c: Config, s: State, t: State, call: Call, peer: PeerId)
  {
    || SubscribedChannels(t, peer) <= SubscribedChannels(s, peer)
    || (&& call.CallSubscribe? && call.peer == peer
        && |SubscribedChannels(s, peer)| < c.limits.maximumSubscriptions
        && SubscribedChannels(t, peer) == SubscribedChannels(s, peer) + {call.channel})
  }

  lemma CallOnRegistrations(c: Config, s: State, call: Call, peer: PeerId)
    ensures ClaimsGrow(c, s, Apply(c, s, call).state, call, peer)
    ensures SubscriptionsGrow(c, s, Apply(c, s, call).state, call, peer)
  {
    hide CheckHeaders, Authorize, BeginDelivery, AcknowledgeStep, TickStep, ValidDbusName, Reports, ReleaseEvents,
         ClaimStep, SubscribeStep, UnsubscribeStep, Disconnect;
    match call
    case CallClaim(p, n) => ClaimGrows(c, s, p, n, peer);
    case CallSubscribe(p, ch, filters) => SubscribeGrows(c, s, p, ch, filters, peer);
    case CallUnsubscribe(p, ch) => UnsubscribeShrinks(s, p, ch, peer);
    case CallDisconnect(p) => DisconnectShrinks(s, p, peer);
    case CallBegin(p, frame, now) => BeginTouchesDeliveries(c, s, p, frame, now);
    case CallAcknowledge(p, id, policy) => AcknowledgeTouchesDeliveries(c, s, p, id, policy);
    case CallTick(now) => TickTouchesDeliveries(s, now);
    case _ =>
  }

  lemma ClaimGrows(c: Config, s: State, p: PeerId, n: Namespace, peer: PeerId)
    ensures var t := ClaimStep(c, s, p, n).state;
      && ClaimsGrow(c, s, t, CallClaim(p, n), peer)
      && SubscribedChannels(t, peer) == SubscribedChannels(s, peer)
  {
    hide Authorize, OwnedNamespaces, SubscribedChannels;
    var t := ClaimStep(c, s, p, n).state;
    if t.namespaces == s.namespaces {
      OwnershipIsOfNamespaces(s, t, peer);
    } else {
      OneMoreOwned(s, t, p, n, peer);
    }
    SubscribingIsOfSubscriptions(s, t, peer);
  }

  lemma OneMoreOwned(s: State, t: State, p: PeerId, n: Namespace, peer: PeerId)
    requires n !in s.namespaces && t.namespaces == s.namespaces[n := p]
    ensures OwnedNamespaces(t, peer) == OwnedNamespaces(s, peer) + if p == peer then {n} else {}
  {
  }

  lemma SubscribingIsOfSubscriptions(s: State, t: State, peer: PeerId)
    requires t.subscriptions == s.subscriptions
    ensures SubscribedChannels(t, peer) == SubscribedChannels(s, peer)
  {
  }

  lemma SubscribeGrows(c: Config, s: State, p: PeerId, ch: Channel, filters: seq<HeaderFilter>, peer: PeerId)
    ensures var t := SubscribeStep(c, s, p, ch, filters).state;
      && SubscriptionsGrow(c, s, t, CallSubscribe(p, ch, filters), peer)
      && OwnedNamespaces(t, peer) == OwnedNamespaces(s, peer)
  {
    hide Authorize, OwnedNamespaces;
    assert SubscribeStep(c, s, p, ch, filters).state.namespaces == s.namespaces;
    OwnershipIsOfNamespaces(s, SubscribeStep(c, s, p, ch, filters).state, peer);
  }

  lemma OwnershipIsOfNamespaces(s: State, t: State, peer: PeerId)
    requires t.namespaces == s.namespaces
    ensures OwnedNamespaces(t, peer) == OwnedNamespaces(s, peer)
  {
  }

  lemma UnsubscribeShrinks(s: State, p: PeerId, ch: Channel, peer: PeerId)
    ensures var t := UnsubscribeStep(s, p, ch).state;
      && SubscribedChannels(t, peer) <= SubscribedChannels(s, peer)
      && OwnedNamespaces(t, peer) == OwnedNamespaces(s, peer)
  {
  }

  lemma DisconnectShrinks(s: State, p: PeerId, peer: PeerId)
    ensures var t := Disconnect(s, p).state;
      && SubscribedChannels(t, peer) <= SubscribedChannels(s, peer)
      && OwnedNamespaces(t, peer) <= OwnedNamespaces(s, peer)
  {
    hide Reports, ReleaseEvents;
  }

  /** Every part of the state but deliveries and metrics is as before. */
  predicate SameRegistry(s: State, t: State)
  {
    t == s.(deliveries := t.deliveries, metrics := t.metrics)
  }

  lemma BeginTouchesDeliveries(c: Config, s: State, sender: PeerId, frame: Frame, now: u64)
    ensures SameRegistry(s, BeginDelivery(c, s, sender, frame, now).state)
  {
    hide CheckHeaders, MessagePriority, Route, CheckCapacity, CountRouted, Forwarded, Completes;
  }

  lemma AcknowledgeTouchesDeliveries(c: Config, s: State, peer: PeerId, id: MessageId, policy: AckPolicy)
    ensures SameRegistry(s, AcknowledgeStep(c, s, peer, id, policy).state)
  {
    hide Authorize, Acknowledged;
  }

  lemma TickTouchesDeliveries(s: State, now: u64)
    ensures SameRegistry(s, TickStep(s, now).state)
  {
  }

  lemma CallKeepsLimits(c: Config, s: State, call: Call)
    requires WithinLimits(c, s)
    ensures WithinLimits(c, Apply(c, s, call).state)
  {
    hide Apply, OwnedNamespaces, SubscribedChannels, DeliveriesFit;
    var t := Apply(c, s, call).state;
    CallKeepsDeliveriesFit(c, s, call);
    forall peer: PeerId
      ensures |OwnedNamespaces(t, peer)| <= c.limits.maximumNamespaceClaims
      ensures |SubscribedChannels(t, peer)| <= c.limits.maximumSubscriptions
    {
      CallOnRegistrations(c, s, call, peer);
      if OwnedNamespaces(t, peer) <= OwnedNamespaces(s, peer) {
        SubsetSize(OwnedNamespaces(t, peer), OwnedNamespaces(s, peer));
      }
      if SubscribedChannels(t, peer) <= SubscribedChannels(s, peer) {
        SubsetSize(SubscribedChannels(t, peer), SubscribedChannels(s, peer));
      }
    }
  }

  /** In every reachable state every peer is within its limits. */
  lemma {:induction false} RunKeepsLimits(c: Config, calls: seq<Call>)
    ensures WithinLimits(c, Run(c, calls))
    decreases |calls|
  {
    if calls == [] {
      forall sender: PeerId ensures Fits(c.limits, QueuedFor(map[], sender)) {
        assert QueuedFor(map[], sender) == map[];
      }
    } else {
      RunKeepsLimits(c, calls[..|calls| - 1]);
      CallKeepsLimits(c, Run(c, calls[..|calls| - 1]), calls[|calls| - 1]);
    }
  }

  /** The largest byte limit is no limit, as the sum it is compared with saturates there. */
  lemma TopByteLimitIsNone(limits: Limits, queued: Deliveries, m: Message)
    requires limits.maximumQueuedBytes == USIZE_MAX
    ensures CheckCapacity(limits, queued, m).Ok? <==>
      |queued| < limits.maximumQueuedMessages
      && (m.kind == Request ==> |Requests(queued)| < limits.maximumInFlightRequests)
  {
  }

  // ---------- Nobody's use counts against another ----------

  /** While a sender begins no delivery itself, a message that would be admitted stays admitted. */
  lemma OthersTakeNoRoom(c: Config, s: State, call: Call, sender: PeerId, m: Message)
    requires CheckCapacity(c.limits, QueuedFor(s.deliveries, sender), m).Ok?
    requires call.CallBegin? ==> call.peer != sender
    ensures CheckCapacity(c.limits, QueuedFor(Apply(c, s, call).state.deliveries, sender), m).Ok?
  {
    hide Apply, PartOf, TotalBytes, Requests, DeliveryBytes;
    var t := Apply(c, s, call).state;
    CallAdmits(c, s, call);
    if PartOf(t.deliveries, s.deliveries) {
      QueuesShrink(t.deliveries, s.deliveries, sender);
      PartIsNoLarger(QueuedFor(t.deliveries, sender), QueuedFor(s.deliveries, sender));
    } else {
      OthersAdmit(c, s, call, sender);
    }
  }

  lemma OthersAdmit(c: Config, s: State, call: Call, sender: PeerId)
    requires call.CallBegin? && call.peer != sender
    requires !PartOf(Apply(c, s, call).state.deliveries, s.deliveries)
    ensures QueuedFor(Apply(c, s, call).state.deliveries, sender) == QueuedFor(s.deliveries, sender)
  {
    hide CheckHeaders, MessagePriority, Route, Accept, CompleteResponse, PartOf, AdmittedOne, QueuedFor;
    PartOfItself(s.deliveries);
    var m := call.frame.message;
    ResponseShrinks(s, call.peer, m);
    var routed, priority := Route(c, s, call.peer, m.destination, m.headers), MessagePriority(m.headers);
    AcceptAdmits(c, s, call.peer, m, routed.value, call.now, priority.value);
    QueuedForOthers(s.deliveries, m.id, BeginDelivery(c, s, call.peer, call.frame, call.now).state.deliveries[m.id], sender);
  }

  lemma QueuedForOthers(d: Deliveries, id: MessageId, p: Pending, sender: PeerId)
    requires id !in d && p.sender != sender
    ensures QueuedFor(d[id := p], sender) == QueuedFor(d, sender)
  {
  }

  lemma PartOfItself(d: Deliveries)
    ensures PartOf(d, d)
  {
  }

  /** What the limits of a peer look at: who it is, what it holds and what it has in flight. */
  ghost predicate AgreeOn(s: State, t: State, peer: PeerId)
  {
    && peer in s.peers && peer in t.peers && s.peers[peer] == t.peers[peer]
    && OwnedNamespaces(s, peer) == OwnedNamespaces(t, peer)
    && SubscribedChannels(s, peer) == SubscribedChannels(t, peer)
    && QueuedFor(s.deliveries, peer) == QueuedFor(t.deliveries, peer)
  }

  /** Two states that agree on a peer's own entries refuse it for a limit in the same cases. */
  lemma LimitsLookAtOwnEntries(c: Config, s: State, t: State, peer: PeerId, l: Limit)
    requires AgreeOn(s, t, peer)
    ensures forall n :: ClaimStep(c, s, peer, n).result == Err(LimitReached(l))
                        <==> ClaimStep(c, t, peer, n).result == Err(LimitReached(l))
    ensures forall ch, f :: SubscribeStep(c, s, peer, ch, f).result == Err(LimitReached(l))
                            <==> SubscribeStep(c, t, peer, ch, f).result == Err(LimitReached(l))
    ensures forall m, to, now, priority ::
              Accept(c, s, peer, m, to, now, priority).result == Err(LimitReached(l))
              <==> Accept(c, t, peer, m, to, now, priority).result == Err(LimitReached(l))
  {
    hide CheckCapacity, OwnedNamespaces, QueuedFor, RequirementPossible, CountRouted, RetryNext, AcceptedEvents;
    forall ch: Channel, f: seq<HeaderFilter>
      ensures SubscribeStep(c, s, peer, ch, f).result == Err(LimitReached(l))
              <==> SubscribeStep(c, t, peer, ch, f).result == Err(LimitReached(l))
    {
      assert peer in SubscribersOf(s, ch) <==> ch in SubscribedChannels(s, peer);
      assert peer in SubscribersOf(t, ch) <==> ch in SubscribedChannels(t, peer);
    }
  }
}
