/** What the byte limit of a sender counts. */
module BrokerBytes {
  import opened Order
  import opened Results
  import opened Protocol
  import opened BrokerState
  import opened BrokerSteps
  import opened BrokerBudgets

  // ---------- One message ----------

  /** Headers count their names and values: 8 for a number, 1 for a flag, otherwise their length. */
  lemma {:induction false} HeadersCount(h: Headers, name: Text, value: HeaderValue)
    requires name !in h
    ensures HeaderBytes(map[]) == 0
    ensures HeaderBytes(h[name := value]) == HeaderBytes(h) + |name| + match value
                                                                       case TextValue(t) => |t|
                                                                       case UnsignedValue(_) => 8
                                                                       case BooleanValue(_) => 1
                                                                       case BinaryValue(d) => |d|
    decreases |h|
  {
    var more := h[name := value];
    var first: Text := Min(more.Keys);
    assert more.Keys == h.Keys + {name};
    if first == name {
      assert more - {first} == h;
    } else {
      MinOf(h.Keys, first);
      assert more - {first} == (h - {first})[name := value];
      HeadersCount(h - {first}, name, value);
    }
  }

  /** A message counts its payload and headers, up to the largest word. */
  lemma MessagesCount(m: Message)
    ensures var n := |m.payload| + HeaderBytes(m.headers); DeliveryBytes(m) == if n < USIZE_MAX then n else USIZE_MAX
  {
  }

  // ---------- A sender ----------

  /** `list` has exactly these elements, each once. */
  ghost predicate Lists<T(!new)>(list: seq<T>, elements: set<T>)
  {
    && (forall x :: x in list <==> x in elements)
    && (forall i, j :: 0 <= i < j < |list| ==> list[i] != list[j])
  }

  /** What a sender has in flight. */
  function OwnIds(d: Deliveries, sender: PeerId): set<MessageId>
  {
    set id | id in d && d[id].sender == sender
  }

  function OwnRequests(d: Deliveries, sender: PeerId): set<MessageId>
  {
    set id | id in d && d[id].sender == sender && d[id].message.kind == Request
  }

  /** The bytes of the listed deliveries, one after another. */
  function Load(d: Deliveries, ids: seq<MessageId>): nat
    requires forall id :: id in ids ==> id in d
  {
    if ids == [] then 0
    else
      var m := d[ids[|ids| - 1]].message;
      var n := |m.payload| + HeaderBytes(m.headers);
      Load(d, ids[..|ids| - 1]) + if n < USIZE_MAX then n else USIZE_MAX
  }

  lemma {:induction false} ListedSize<T(!new)>(list: seq<T>, elements: set<T>)
    requires Lists(list, elements)
    ensures |list| == |elements|
    decreases |list|
  {
    if list == [] {
      assert elements == {};
    } else {
      var fewer, last := list[..|list| - 1], list[|list| - 1];
      assert last in list;
      assert forall x :: x in fewer <==> x in elements - {last};
      ListedSize(fewer, elements - {last});
    }
  }

  /** In whatever order they are added up. */
  lemma {:induction false} LoadIsTotal(d: Deliveries, ids: seq<MessageId>)
    requires Lists(ids, d.Keys)
    ensures TotalBytes(d) == Load(d, ids)
    decreases |ids|
  {
    hide DeliveryBytes, TotalBytes, HeaderBytes;
    if ids == [] {
      assert d == map[];
      NoBytes();
    } else {
      var fewer, last := ids[..|ids| - 1], ids[|ids| - 1];
      assert last in ids;
      var rest := d - {last};
      assert forall x :: x in fewer <==> x in rest.Keys;
      TotalBytesPick(d, last);
      MessagesCount(d[last].message);
      LoadIsTotal(rest, fewer);
      LoadOfPart(d, rest, fewer);
    }
  }

  lemma NoBytes()
    ensures TotalBytes(map[]) == 0
  {
  }

  lemma {:induction false} LoadOfPart(d: Deliveries, e: Deliveries, ids: seq<MessageId>)
    requires forall id :: id in ids ==> id in d && id in e && e[id] == d[id]
    ensures Load(d, ids) == Load(e, ids)
  {
    hide HeaderBytes;
    if ids != [] {
      LoadOfPart(d, e, ids[..|ids| - 1]);
    }
  }

  lemma QueuedLoad(d: Deliveries, sender: PeerId, ids: seq<MessageId>)
    requires Lists(ids, OwnIds(d, sender))
    ensures var queued := QueuedFor(d, sender);
      && |queued| == |ids| && TotalBytes(queued) == Load(d, ids) && Requests(queued) == OwnRequests(d, sender)
  {
    hide TotalBytes, Load;
    var queued := QueuedFor(d, sender);
    assert queued.Keys == OwnIds(d, sender);
    ListedSize(ids, queued.Keys);
    LoadIsTotal(queued, ids);
    LoadOfPart(d, queued, ids);
  }

  /** In every reachable state the bytes a sender has in flight, added up in any order, are within its limit. */
  lemma RunKeepsByteLimit(c: Config, calls: seq<Call>, sender: PeerId, ids: seq<MessageId>)
    requires Lists(ids, OwnIds(Run(c, calls).deliveries, sender))
    ensures var d := Run(c, calls).deliveries;
      && |ids| <= c.limits.maximumQueuedMessages && |OwnRequests(d, sender)| <= c.limits.maximumInFlightRequests
      && (c.limits.maximumQueuedBytes < USIZE_MAX ==> Load(d, ids) <= c.limits.maximumQueuedBytes)
  {
    hide Run, TotalBytes, Load, QueuedFor, Requests;
    RunKeepsLimits(c, calls);
    var d := Run(c, calls).deliveries;
    QueuedLoad(d, sender, ids);
    assert Fits(c.limits, QueuedFor(d, sender));
  }

  /** Which limit refuses a message of a sender with these deliveries, if any. */
  ghost predicate RefusedFor(limits: Limits, d: Deliveries, sender: PeerId, ids: seq<MessageId>, m: Message, l: Limit)
    requires forall id :: id in ids ==> id in d
  {
    var used := Load(d, ids) + |m.payload| + HeaderBytes(m.headers);
    match l
    case QueuedMessages => |ids| >= limits.maximumQueuedMessages
    case QueuedBytes =>
      && |ids| < limits.maximumQueuedMessages
      && limits.maximumQueuedBytes < used && limits.maximumQueuedBytes < USIZE_MAX
    case InFlightRequests =>
      && |ids| < limits.maximumQueuedMessages
      && (used <= limits.maximumQueuedBytes || limits.maximumQueuedBytes == USIZE_MAX)
      && m.kind == Request && |OwnRequests(d, sender)| >= limits.maximumInFlightRequests
    case _ => false
  }

  lemma CapacityMeaning(limits: Limits, d: Deliveries, sender: PeerId, ids: seq<MessageId>, m: Message, l: Limit)
    requires Lists(ids, OwnIds(d, sender))
    ensures var room := CheckCapacity(limits, QueuedFor(d, sender), m);
      && (room == Err(LimitReached(l)) <==> RefusedFor(limits, d, sender, ids, m, l))
      && (room.Err? ==> room.error.LimitReached?)
  {
    hide TotalBytes, Load, QueuedFor, Requests, DeliveryBytes, HeaderBytes;
    QueuedLoad(d, sender, ids);
    MessagesCount(m);
  }
}
