/** The receiver's bounded memory of message identifiers: a queue and a set that agree. */
module Deduplication {
  import opened Protocol

  /** The last `n` elements, or all of them. */
  function Last(s: seq<MessageId>, n: nat): seq<MessageId>
  {
    if |s| <= n then s else s[|s| - n..]
  }

  /** Of the identifiers offered, those a memory of the last `capacity` accepted ones takes for new. */
  function TakenAsNew(capacity: nat, offered: seq<MessageId>): seq<MessageId>
    decreases |offered|
  {
    if offered == [] then []
    else
      var before := TakenAsNew(capacity, offered[..|offered| - 1]);
      var id := offered[|offered| - 1];
      if id in Last(before, capacity) then before else before + [id]
  }

  predicate Distinct(s: seq<MessageId>)
  {
    forall i, j :: 0 <= i < j < |s| ==> s[i] != s[j]
  }

  /** Any `capacity + 1` accepted identifiers in a row differ from one another. */
  lemma {:induction false} WindowsAreDistinct(capacity: nat, offered: seq<MessageId>, i: nat, j: nat)
    requires i < j < |TakenAsNew(capacity, offered)| && j - i <= capacity
    ensures TakenAsNew(capacity, offered)[i] != TakenAsNew(capacity, offered)[j]
    decreases |offered|
  {
    hide TakenAsNew;
    if offered == [] {
      NothingTaken(capacity);
      assert false;
    }
    var fewer, last := offered[..|offered| - 1], offered[|offered| - 1];
    assert offered == fewer + [last];
    NextTaken(capacity, fewer, last);
    var before := TakenAsNew(capacity, fewer);
    if j < |before| {
      WindowsAreDistinct(capacity, fewer, i, j);
    } else {
      var window := Last(before, capacity);
      assert before[i] == window[i - (|before| - |window|)];
    }
  }

  lemma NothingTaken(capacity: nat)
    ensures TakenAsNew(capacity, []) == []
  {
  }

  lemma LastIsDistinct(capacity: nat, offered: seq<MessageId>)
    ensures Distinct(Last(TakenAsNew(capacity, offered), capacity))
  {
    hide TakenAsNew;
    var a := TakenAsNew(capacity, offered);
    var window := Last(a, capacity);
    forall i, j | 0 <= i < j < |window| ensures window[i] != window[j] {
      var skipped := |a| - |window|;
      WindowsAreDistinct(capacity, offered, skipped + i, skipped + j);
    }
  }

  /** Nothing is lost: every identifier offered was accepted at least once. */
  lemma {:induction false} OfferedIsAccepted(capacity: nat, offered: seq<MessageId>, k: nat)
    requires k < |offered|
    ensures offered[k] in TakenAsNew(capacity, offered)
    decreases |offered|
  {
    if k < |offered| - 1 {
      OfferedIsAccepted(capacity, offered[..|offered| - 1], k);
      assert offered[..|offered| - 1][k] == offered[k];
    }
  }

  /** What was accepted stays accepted, and each further offer adds at most one. */
  lemma {:induction false} AcceptedGrows(capacity: nat, offered: seq<MessageId>, more: seq<MessageId>)
    ensures TakenAsNew(capacity, offered) <= TakenAsNew(capacity, offered + more)
    ensures |TakenAsNew(capacity, offered + more)| <= |TakenAsNew(capacity, offered)| + |more|
    decreases |more|
  {
    if more == [] {
      assert offered + more == offered;
    } else {
      var fewer := more[..|more| - 1];
      assert (offered + more)[..|offered + more| - 1] == offered + fewer;
      AcceptedGrows(capacity, offered, fewer);
    }
  }

  /** An offer is judged by what was accepted before it. */
  lemma NextTaken(capacity: nat, offered: seq<MessageId>, id: MessageId)
    ensures var before := TakenAsNew(capacity, offered);
      TakenAsNew(capacity, offered + [id]) == if id in Last(before, capacity) then before else before + [id]
  {
    assert (offered + [id])[..|offered|] == offered;
  }

  /**
   An identifier last accepted at position `k` is refused while at most
   `capacity - 1` others have been accepted after it, and then accepted again:
   acceptances count, however many offers there were.
   */
  lemma RepeatsAreRefused(capacity: nat, offered: seq<MessageId>, id: MessageId, k: nat)
    requires var a := TakenAsNew(capacity, offered); k < |a| && a[k] == id && id !in a[k + 1..]
    ensures var a := TakenAsNew(capacity, offered);
      TakenAsNew(capacity, offered + [id]) == if |a| - k <= capacity then a else a + [id]
  {
    hide TakenAsNew;
    var a := TakenAsNew(capacity, offered);
    var window := Last(a, capacity);
    var skipped := |a| - |window|;
    NextTaken(capacity, offered, id);
    if |a| - k <= capacity {
      assert window[k - skipped] == id;
    } else {
      forall i | 0 <= i < |window| ensures window[i] != id {
        assert window[i] == a[k + 1..][skipped + i - (k + 1)];
      }
    }
  }

  /** A refused repeat leaves no trace: whatever is offered afterwards is judged as if it had not been made. */
  lemma {:induction false} RepeatsDoNotRenew(capacity: nat, offered: seq<MessageId>, id: MessageId, more: seq<MessageId>)
    requires id in Last(TakenAsNew(capacity, offered), capacity)
    ensures TakenAsNew(capacity, offered + [id] + more) == TakenAsNew(capacity, offered + more)
    decreases |more|
  {
    hide TakenAsNew, Last;
    if more == [] {
      assert offered + [id] + more == offered + [id] && offered + more == offered;
      NextTaken(capacity, offered, id);
    } else {
      var fewer, last := more[..|more| - 1], more[|more| - 1];
      RepeatsDoNotRenew(capacity, offered, id, fewer);
      assert offered + [id] + more == offered + [id] + fewer + [last];
      assert offered + more == offered + fewer + [last];
      NextTaken(capacity, offered + [id] + fewer, last);
      NextTaken(capacity, offered + fewer, last);
    }
  }

  /** With no capacity nothing is remembered and everything accepted. */
  lemma {:induction false} NoCapacityAcceptsAll(offered: seq<MessageId>)
    ensures TakenAsNew(0, offered) == offered
    decreases |offered|
  {
    if offered != [] {
      NoCapacityAcceptsAll(offered[..|offered| - 1]);
    }
  }

  class DeduplicationCache {
    const capacity: nat
    var order: seq<MessageId>
    var entries: set<MessageId>

    /** Every identifier ever offered, in order. */
    ghost var offered: seq<MessageId>

    /** The queue holds the last accepted identifiers, once each, and the set holds the same. */
    ghost predicate Valid()
      reads this
    {
      && order == Last(TakenAsNew(capacity, offered), capacity)
      && entries == Elements(order)
      && |entries| == |order|
    }

    constructor (capacity: nat)
      ensures Valid() && this.capacity == capacity && offered == []
    {
      this.capacity := capacity;
      order, entries, offered := [], {}, [];
    }

    /** Answers whether the identifier is none of the last `capacity` accepted ones, and remembers it if so. */
    method Record(id: MessageId) returns (isNew: bool)
      requires Valid()
      modifies this
      ensures Valid() && offered == old(offered) + [id]
      ensures isNew <==> id !in Last(TakenAsNew(capacity, old(offered)), capacity)
      ensures TakenAsNew(capacity, offered)
        == if isNew then TakenAsNew(capacity, old(offered)) + [id] else TakenAsNew(capacity, old(offered))
    {
      hide TakenAsNew, Last, Distinct, Elements;
      Member(order, id);
      ghost var before := TakenAsNew(capacity, offered);
      LastIsDistinct(capacity, offered);
      NextTaken(capacity, offered, id);
      offered := offered + [id];
      if id in entries {
        return false;
      }
      Slide(before, capacity, id);
      if capacity == 0 {
        return true;
      }
      if |order| == capacity {
        var expired := order[0];
        RestOf(order, expired);
        order := order[1..];
        entries := entries - {expired};
      }
      Push(order, id);
      order := order + [id];
      entries := entries + {id};
      isNew := true;
    }

    /** The number of identifiers remembered. */
    method Length() returns (n: nat)
      requires Valid()
      ensures n == |order|
      ensures n == if |TakenAsNew(capacity, offered)| < capacity then |TakenAsNew(capacity, offered)| else capacity
    {
      n := |entries|;
    }
  }

  function Elements(s: seq<MessageId>): set<MessageId>
  {
    set id | id in s
  }

  lemma RestOf(s: seq<MessageId>, first: MessageId)
    requires Distinct(s) && s != [] && s[0] == first
    ensures Elements(s[1..]) == Elements(s) - {first} && first in Elements(s)
  {
    assert s == [s[0]] + s[1..];
  }

  lemma Member(s: seq<MessageId>, id: MessageId)
    ensures id in Elements(s) <==> id in s
  {
  }

  lemma Push(s: seq<MessageId>, id: MessageId)
    ensures Elements(s + [id]) == Elements(s) + {id}
  {
  }

  /** One more identifier pushes the oldest out of a full window. */
  lemma Slide(s: seq<MessageId>, n: nat, id: MessageId)
    ensures var window := Last(s, n);
      Last(s + [id], n) == if n == 0 then [] else (if |window| == n then window[1..] else window) + [id]
    ensures n == 0 ==> Last(s, n) == []
  {
  }
}
