/** Who gets a message, when nobody does, and why a message is refused, in terms of what the broker holds. */
module BrokerRouting {
  import opened Order
  import opened Results
  import opened Protocol
  import opened BrokerState
  import opened BrokerSteps
  import opened BrokerInvariants
  import opened BrokerBytes

  // ---------- Filters ----------

  predicate Begins(whole: Bytes, part: Bytes)
  {
    |part| <= |whole| && forall i :: 0 <= i < |part| ==> whole[i] == part[i]
  }

  /** What each filter asks of the headers of a message. */
  predicate Asks(f: HeaderFilter, h: Headers)
  {
    match f
    case Exists(name) => name in h.Keys
    case NotExists(name) => name !in h.Keys
    case Equal(name, value) => (name, value) in h.Items
    case NotEqual(name, value) => (name, value) !in h.Items
    case Prefix(name, TextValue(part)) => name in h && h[name].TextValue? && Begins(h[name].text, part)
    case Prefix(name, BinaryValue(part)) => name in h && h[name].BinaryValue? && Begins(h[name].data, part)
    case Prefix(_, _) => false
  }

  lemma FilterMeaning(f: HeaderFilter, h: Headers)
    ensures FilterMatches(f, h) <==> Asks(f, h)
  {
    if f.Equal? || f.NotEqual? {
      assert f.name in h ==> (f.name, h[f.name]) in h.Items;
    }
  }

  lemma FiltersMeaning(filters: seq<HeaderFilter>, h: Headers)
    ensures FiltersMatch(filters, h) <==> forall f :: f in filters ==> Asks(f, h)
  {
    hide FilterMatches, Asks;
    forall f ensures FilterMatches(f, h) <==> Asks(f, h) {
      FilterMeaning(f, h);
    }
    if forall f :: f in filters ==> Asks(f, h) {
      assert forall i :: 0 <= i < |filters| ==> filters[i] in filters;
    }
  }

  // ---------- Who is addressed ----------

  predicate HasClientId(s: State, q: PeerId, id: ClientId)
  {
    q in s.peers && s.peers[q].hello.clientId == Some(id)
  }

  /** The message is for this peer. */
  predicate Addressed(s: State, sender: PeerId, m: Message, q: PeerId)
  {
    match m.destination
    case ToBroker => false
    case ToPeer(p) => q == p && q in s.peers
    case ToNamespace(n) => n in s.namespaces && s.namespaces[n] == q
    case ToChannel(ch) =>
      && ch in s.subscriptions && q in s.subscriptions[ch]
      && forall f :: f in s.subscriptions[ch][q] ==> Asks(f, m.headers)
    case ToClient(id, selection) =>
      && HasClientId(s, q, id)
      && (selection == All || forall o :: o in s.peers && HasClientId(s, o, id) ==> q <= o)
    case Broadcast => q in s.peers && q != sender
  }

  function Addressees(s: State, sender: PeerId, m: Message): set<PeerId>
  {
    set q | q in s.peers && Addressed(s, sender, m, q)
  }

  lemma AddressedAreConnected(c: Config, s: State, sender: PeerId, m: Message, q: PeerId)
    requires Registered(c, s)
    ensures q in Addressees(s, sender, m) <==> Addressed(s, sender, m, q)
  {
    hide PeersOk, DbusNamesOk, Asks;
  }

  /** The broker selects exactly the peers a message is for. */
  lemma SelectedAreAddressed(c: Config, s: State, sender: PeerId, m: Message)
    requires Registered(c, s)
    ensures Selected(s, sender, m.destination, m.headers) == Addressees(s, sender, m)
  {
    hide Registered, FiltersMatch, Asks;
    var selected := Selected(s, sender, m.destination, m.headers);
    forall q: PeerId ensures q in selected <==> q in Addressees(s, sender, m) {
      AddressedAreConnected(c, s, sender, m, q);
      if m.destination.ToChannel? {
        var ch := m.destination.channel;
        if ch in s.subscriptions && q in s.subscriptions[ch] {
          FiltersMeaning(s.subscriptions[ch][q], m.headers);
        }
      } else if m.destination.ToClient? {
        var matching := set p | p in s.peers && s.peers[p].hello.clientId == Some(m.destination.clientId);
        assert forall o :: o in matching <==> HasClientId(s, o, m.destination.clientId);
      }
    }
  }

  // ---------- What a message must pass ----------

  /** Names only the broker may use. */
  predicate BrokersOwn(name: Bytes)
  {
    Begins(name, Ascii("auth.")) || Begins(name, Ascii("broker.")) || Begins(name, Ascii("peer."))
  }

  lemma ReservedMeaning(name: Bytes)
    ensures Reserved(name) <==> BrokersOwn(name)
  {
  }

  /** A message may say how urgent it is: a number from 0 to 7 under `priority`. */
  predicate UrgencyOk(h: Headers)
  {
    NameIsText(Ascii("priority"));
    Ascii("priority") in h ==> h[Ascii("priority")].UnsignedValue? && h[Ascii("priority")].number < 8
  }

  /** The urgency of a message: what it says, and otherwise 0. */
  predicate Urgency(h: Headers, priority: u8)
  {
    NameIsText(Ascii("priority"));
    if Ascii("priority") in h then h[Ascii("priority")] == UnsignedValue(priority) else priority == 0
  }

  lemma PriorityMeaning(h: Headers)
    ensures MessagePriority(h).Ok? <==> UrgencyOk(h)
    ensures MessagePriority(h).Err? ==> MessagePriority(h) == Err(InvalidPriority)
    ensures MessagePriority(h).Ok? ==> Urgency(h, MessagePriority(h).value)
  {
    NameIsText(Ascii("priority"));
  }

  /** What the policy is asked about a destination. */
  predicate Asked(d: Destination, action: Action)
  {
    || (d.ToPeer? && action == SendPeer(d.peer))
    || (d.ToNamespace? && action == SendNamespace(d.namespace))
    || (d.ToChannel? && action == Publish(d.channel))
    || (d.ToClient? && action == SendClient(d.clientId))
    || (d.Broadcast? && action == SendBroadcast)
  }

  /** The policy lets the sender, as it introduced itself, send there; nothing is asked about the broker itself. */
  ghost predicate MaySend(c: Config, s: State, sender: PeerId, d: Destination)
    requires sender in s.peers
  {
    var p := s.peers[sender];
    forall action :: Asked(d, action) ==> c.permits(p.credentials, p.hello.clientId, p.hello.headers, action)
  }

  /** Nobody is there, or too few: the sender is told so. */
  predicate InVain(s: State, sender: PeerId, m: Message)
  {
    var n := |Addressees(s, sender, m)|;
    || (n == 0 && !m.destination.ToChannel? && !m.destination.Broadcast?)
    || (n == 0 && (m.kind == Request || m.ackPolicy == AckPolicy.Received || m.ackPolicy == AckPolicy.Processed))
    || (n == 0 && (m.ackRequirement == AnyOne || m.ackRequirement == AllOf))
    || (m.ackRequirement.Minimum? && n < m.ackRequirement.count)
  }

  // ---------- The answer ----------

  lemma RouteMeaning(c: Config, s: State, sender: PeerId, m: Message)
    requires Registered(c, s) && sender in s.peers
    ensures var routed := Route(c, s, sender, m.destination, m.headers); var to := Addressees(s, sender, m);
      && (routed == Err(NoEligibleRecipient) <==>
            m.destination.ToBroker?
            || (MaySend(c, s, sender, m.destination) && to == {} && !m.destination.ToChannel? && !m.destination.Broadcast?))
      && (routed.Ok? <==>
            && !m.destination.ToBroker? && MaySend(c, s, sender, m.destination)
            && (to != {} || m.destination.ToChannel? || m.destination.Broadcast?))
      && (routed.Ok? ==> routed.value == to)
      && (routed.Err? && routed.error != NoEligibleRecipient ==>
            routed.error.PolicyDenied? && Asked(m.destination, routed.error.action) && !MaySend(c, s, sender, m.destination))
  {
    hide Registered, Selected, Addressees;
    SelectedAreAddressed(c, s, sender, m);
    if SendAction(m.destination).Some? {
      assert Asked(m.destination, SendAction(m.destination).value);
    }
  }

  lemma AcceptMeaning(c: Config, s: State, sender: PeerId, m: Message, now: u64, priority: u8)
    requires m.destination.ToChannel? || m.destination.Broadcast? || Addressees(s, sender, m) != {}
    ensures var to := Addressees(s, sender, m);
      var step := Accept(c, s, sender, m, to, now, priority);
      && (step.result == Ok([Report(sender, m.id, Outcome.NoRecipient)]) <==> InVain(s, sender, m))
      && (InVain(s, sender, m) ==> step.state.deliveries == s.deliveries)
      && (step.result.Ok? && !InVain(s, sender, m) ==> Sent(step.result.value, sender, m, to))
  {
    hide Addressees, CheckCapacity, QueuedFor, RetryNext, CountRouted;
    var to := Addressees(s, sender, m);
    assert to == {} <==> |to| == 0;
    assert AcceptedEvents(sender, m, to)[0].Deliver?;
    assert Sent(AcceptedEvents(sender, m, to), sender, m, to);
  }

  /** The events of a message that goes out. */
  predicate Sent(events: seq<DeliveryEvent>, sender: PeerId, m: Message, to: set<PeerId>)
  {
    if m.ackPolicy == AckPolicy.Accepted
    then events == [Deliver(sender, to, m), Report(sender, m.id, Outcome.Accepted)]
    else events == [Deliver(sender, to, m)]
  }

  /**
   A message that is not refused goes to exactly the peers it is for; its sender
   is told that there was no recipient instead exactly when nobody, or too few,
   are there.
   */
  lemma MessagesReachTheAddressed(c: Config, s: State, sender: PeerId, m: Message, now: u64)
    requires Inv(c, s) && m.kind != Response
    requires BeginDelivery(c, s, sender, MessageFrame(m), now).result.Ok?
    ensures sender in s.peers && m.id !in s.deliveries && MaySend(c, s, sender, m.destination)
    ensures (forall name :: name in m.headers ==> !BrokersOwn(name)) && UrgencyOk(m.headers)
    ensures var events := BeginDelivery(c, s, sender, MessageFrame(m), now).result.value;
      if InVain(s, sender, m) then events == [Report(sender, m.id, Outcome.NoRecipient)]
      else Sent(events, sender, m, Addressees(s, sender, m))
    ensures forall q: PeerId :: q in Addressees(s, sender, m) <==> Addressed(s, sender, m, q)
  {
    hide Registered, Route, Accept, CompleteResponse, MessagePriority, UrgencyOk, MaySend, Addressees, Addressed, BrokersOwn,
         PendingsOk, Reserved;
    forall q: PeerId ensures q in Addressees(s, sender, m) <==> Addressed(s, sender, m, q) {
      AddressedAreConnected(c, s, sender, m, q);
    }
    RouteMeaning(c, s, sender, m);
    PriorityMeaning(m.headers);
    forall name | name in m.headers ensures !BrokersOwn(name) {
      ReservedMeaning(name);
      assert name !in ReservedNames(m.headers);
    }
    var routed := Route(c, s, sender, m.destination, m.headers);
    if routed.Ok? {
      AcceptMeaning(c, s, sender, m, now, MessagePriority(m.headers).value);
    } else {
      NobodyIsInVain(s, sender, m);
    }
    if m.destination.ToBroker? {
      BrokerIsNotAsked(c, s, sender, m);
    }
  }

  lemma NobodyIsInVain(s: State, sender: PeerId, m: Message)
    ensures m.destination.ToBroker? ==> InVain(s, sender, m)
    ensures Addressees(s, sender, m) == {} && !m.destination.ToChannel? && !m.destination.Broadcast? ==> InVain(s, sender, m)
  {
    if m.destination.ToBroker? {
      assert Addressees(s, sender, m) == {};
    }
  }

  lemma BrokerIsNotAsked(c: Config, s: State, sender: PeerId, m: Message)
    requires sender in s.peers && m.destination.ToBroker?
    ensures MaySend(c, s, sender, m.destination)
  {
  }

  // ---------- Refusals ----------

  /** Messages the broker keeps until they end. */
  predicate Kept(m: Message)
  {
    m.kind == Request || m.ackPolicy == AckPolicy.Received || m.ackPolicy == AckPolicy.Processed
  }

  /** Nothing in the message itself, in what is in flight or in the policy is against it. */
  ghost predicate Passes(c: Config, s: State, sender: PeerId, m: Message)
  {
    && sender in s.peers && m.id !in s.deliveries
    && (forall name :: name in m.headers ==> !BrokersOwn(name)) && UrgencyOk(m.headers)
    && MaySend(c, s, sender, m.destination)
  }

  /** The reason why a message does not pass, first things first. */
  ghost predicate StoppedBy(c: Config, s: State, sender: PeerId, m: Message, e: BrokerError)
  {
    var own := set name | name in m.headers && BrokersOwn(name);
    if sender !in s.peers then e == UnknownPeer(sender)
    else if own != {} then e.ReservedHeader? && IsMin(e.name, own)
    else if !UrgencyOk(m.headers) then e == InvalidPriority
    else if m.id in s.deliveries then e == DuplicateMessage(m.id)
    else e.PolicyDenied? && Asked(m.destination, e.action) && !MaySend(c, s, sender, m.destination)
  }

  lemma HeadersMeaning(h: Headers)
    ensures var own := set name | name in h && BrokersOwn(name);
      if own == {} then CheckHeaders(h).Ok?
      else CheckHeaders(h).Err? && CheckHeaders(h).error.ReservedHeader? && IsMin(CheckHeaders(h).error.name, own)
  {
    hide IsMin, BrokersOwn, Reserved;
    var own := set name | name in h && BrokersOwn(name);
    forall name | name in h ensures name in own <==> name in ReservedNames(h) {
      ReservedMeaning(name);
    }
    assert own == ReservedNames(h);
  }

  /** A message that does not pass is refused, for the first reason there is. */
  lemma MessagesAreStopped(c: Config, s: State, sender: PeerId, m: Message, now: u64)
    requires Inv(c, s) && m.kind != Response && !Passes(c, s, sender, m)
    ensures var answer := BeginDelivery(c, s, sender, MessageFrame(m), now).result;
      answer.Err? && StoppedBy(c, s, sender, m, answer.error)
  {
    hide Registered, Route, Accept, CompleteResponse, MessagePriority, UrgencyOk, MaySend, BrokersOwn, PendingsOk, CheckHeaders,
         IsMin, Asked;
    var own := set name | name in m.headers && BrokersOwn(name);
    HeadersMeaning(m.headers);
    PriorityMeaning(m.headers);
    if own == {} {
      forall name | name in m.headers ensures !BrokersOwn(name) {
        assert name !in own;
      }
    }
    if sender in s.peers {
      RouteMeaning(c, s, sender, m);
      if m.destination.ToBroker? {
        BrokerIsNotAsked(c, s, sender, m);
      }
    }
  }

  /**
   A message that passes and finds its recipients is refused only if it is to be
   kept: for the first of its sender's limits that it would exceed, or else for a
   deadline beyond the clock.
   */
  lemma MessagesFindNoRoom(c: Config, s: State, sender: PeerId, m: Message, now: u64, ids: seq<MessageId>)
    requires Inv(c, s) && m.kind != Response && Passes(c, s, sender, m)
    requires Lists(ids, OwnIds(s.deliveries, sender))
    ensures var answer := BeginDelivery(c, s, sender, MessageFrame(m), now).result;
      && (answer.Err? ==> Kept(m) && !InVain(s, sender, m))
      && (Kept(m) && !InVain(s, sender, m) ==>
            && (forall l :: answer == Err(LimitReached(l)) <==> RefusedFor(c.limits, s.deliveries, sender, ids, m, l))
            && (answer.Err? && !answer.error.LimitReached? ==> answer.error == DeadlineOverflow && now + m.deadline > U64_MAX)
            && (answer.Ok? ==> now + m.deadline <= U64_MAX))
  {
    hide Registered, Route, CompleteResponse, MessagePriority, UrgencyOk, MaySend, BrokersOwn, PendingsOk, CheckHeaders,
         IsMin, Asked, RefusedFor, CheckCapacity, QueuedFor, Addressees, Accept, Lists, OwnIds, InVain;
    HeadersMeaning(m.headers);
    PriorityMeaning(m.headers);
    RouteMeaning(c, s, sender, m);
    if Route(c, s, sender, m.destination, m.headers).Ok? {
      RoomMeaning(c, s, sender, m, now, MessagePriority(m.headers).value, ids);
    } else {
      NobodyIsInVain(s, sender, m);
    }
  }

  lemma RoomMeaning(c: Config, s: State, sender: PeerId, m: Message, now: u64, priority: u8, ids: seq<MessageId>)
    requires Lists(ids, OwnIds(s.deliveries, sender))
    requires m.destination.ToChannel? || m.destination.Broadcast? || Addressees(s, sender, m) != {}
    ensures var answer := Accept(c, s, sender, m, Addressees(s, sender, m), now, priority).result;
      && (answer.Err? ==> Kept(m) && !InVain(s, sender, m))
      && (Kept(m) && !InVain(s, sender, m) ==>
            && (forall l :: answer == Err(LimitReached(l)) <==> RefusedFor(c.limits, s.deliveries, sender, ids, m, l))
            && (answer.Err? && !answer.error.LimitReached? ==> answer.error == DeadlineOverflow && now + m.deadline > U64_MAX)
            && (answer.Ok? ==> now + m.deadline <= U64_MAX))
  {
    hide Addressees, CheckCapacity, QueuedFor, RetryNext, CountRouted, AcceptedEvents, NewPending, RefusedFor;
    var to := Addressees(s, sender, m);
    assert to == {} <==> |to| == 0;
    var room := CheckCapacity(c.limits, QueuedFor(s.deliveries, sender), m);
    assert room.Err? ==> room.error.LimitReached? by {
      CapacityMeaning(c.limits, s.deliveries, sender, ids, m, QueuedMessages);
    }
    forall l ensures room == Err(LimitReached(l)) <==> RefusedFor(c.limits, s.deliveries, sender, ids, m, l) {
      CapacityMeaning(c.limits, s.deliveries, sender, ids, m, l);
    }
  }

  // ---------- What is kept ----------

  /** A new delivery: all of it is still to come. */
  predicate Fresh(p: Pending, sender: PeerId, m: Message, to: set<PeerId>, now: u64)
  {
    && p.sender == sender && p.message == m && p.recipients == to
    && p.acknowledgements == {} && p.responses == map[] && !p.acknowledgementComplete
    && p.deadline == now + m.deadline && p.attempts == 1 && Urgency(m.headers, p.priority)
  }

  /** A message that goes out and is to be kept is the one delivery added; otherwise none is. */
  lemma MessagesAreKept(c: Config, s: State, sender: PeerId, m: Message, now: u64)
    requires Inv(c, s) && m.kind != Response
    ensures var step := BeginDelivery(c, s, sender, MessageFrame(m), now); var d := step.state.deliveries;
      if step.result.Ok? && Kept(m) && !InVain(s, sender, m)
      then m.id in d && d - {m.id} == s.deliveries && Fresh(d[m.id], sender, m, Addressees(s, sender, m), now)
      else d == s.deliveries
  {
    hide Registered, Route, CompleteResponse, MessagePriority, UrgencyOk, MaySend, PendingsOk, CheckHeaders, Addressees,
         Accept, InVain, Urgency, Fresh;
    PriorityMeaning(m.headers);
    if sender in s.peers {
      RouteMeaning(c, s, sender, m);
      NobodyIsInVain(s, sender, m);
      var routed, priority := Route(c, s, sender, m.destination, m.headers), MessagePriority(m.headers);
      if routed.Ok? && priority.Ok? && m.id !in s.deliveries {
        KeepMeaning(c, s, sender, m, now, priority.value);
      }
    }
  }

  lemma KeepMeaning(c: Config, s: State, sender: PeerId, m: Message, now: u64, priority: u8)
    requires m.destination.ToChannel? || m.destination.Broadcast? || Addressees(s, sender, m) != {}
    requires Urgency(m.headers, priority) && m.id !in s.deliveries
    ensures var to := Addressees(s, sender, m);
      var step := Accept(c, s, sender, m, to, now, priority); var d := step.state.deliveries;
      if step.result.Ok? && Kept(m) && !InVain(s, sender, m)
      then m.id in d && d - {m.id} == s.deliveries && Fresh(d[m.id], sender, m, to, now)
      else d == s.deliveries
  {
    hide Addressees, CheckCapacity, QueuedFor, RetryNext, CountRouted, AcceptedEvents, Urgency;
    var to := Addressees(s, sender, m);
    assert to == {} <==> |to| == 0;
    var d := Accept(c, s, sender, m, to, now, priority).state.deliveries;
    if m.id in d {
      assert d - {m.id} == s.deliveries;
    }
  }

  // ---------- Responses ----------

  /**
   A response is taken exactly if it answers a request in flight, comes from one
   of its recipients and is the first from that one; it is then kept with the
   request or ends it.
   */
  lemma ResponsesAreTaken(c: Config, s: State, sender: PeerId, m: Message, now: u64)
    requires m.kind == Response && sender in s.peers
    requires (forall name :: name in m.headers ==> !BrokersOwn(name)) && UrgencyOk(m.headers)
    ensures var step := BeginDelivery(c, s, sender, MessageFrame(m), now); var id, d := m.correlationId, s.deliveries;
      && (step.result.Ok? <==>
            id in d && d[id].message.kind == Request && sender in d[id].recipients && sender !in d[id].responses)
      && (step.result.Err? ==>
            step.result.error == if id in d then UnexpectedResponse(id) else UnknownDelivery(id))
      && (step.result.Ok? ==>
            && step.state.deliveries - {id} == d - {id}
            && (id in step.state.deliveries ==>
                  step.state.deliveries[id] == d[id].(responses := d[id].responses[sender := m])))
  {
    hide BrokersOwn, CheckHeaders, MessagePriority, UrgencyOk, Completes, Forwarded;
    HeadersMeaning(m.headers);
    PriorityMeaning(m.headers);
    assert (set name | name in m.headers && BrokersOwn(name)) == {};
    var d1 := CompleteResponse(s, sender, m).state.deliveries;
    assert d1 - {m.correlationId} == s.deliveries - {m.correlationId};
  }
}
