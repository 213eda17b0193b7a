/**
 The encoder and the decoder are inverse to each other. Every piece of a frame
 has two lemmas: `...Decodes` says that reading what was written gives the value
 back and leaves the following bytes, `...Canonical` that bytes which were read
 are exactly what writing the value gives.
 */
module RoundTrip {
  import opened Order
  import opened Results
  import opened Protocol
  import opened Encoding
  import opened Decoding
  import Utf8

  // ---------- Integers, text and binary data ----------

  lemma U16Decodes(n: u16, rest: Bytes)
    ensures ParseU16(U16(n) + rest) == Done(n, rest)
  {
  }

  lemma U16Canonical(b: Bytes)
    requires ParseU16(b).Done?
    ensures b == U16(ParseU16(b).value) + ParseU16(b).rest
  {
  }

  lemma U32Decodes(n: u32, rest: Bytes)
    ensures ParseU32(U32(n) + rest) == Done(n, rest)
  {
    assert U32(n) + rest == U16(n / 0x1_0000) + (U16(n % 0x1_0000) + rest);
  }

  lemma U32Canonical(b: Bytes)
    requires ParseU32(b).Done?
    ensures b == U32(ParseU32(b).value) + ParseU32(b).rest
  {
    hide ParseU16, U16;
    U16Canonical(b);
    U16Canonical(ParseU16(b).rest);
    var high: int, low: int := ParseU16(b).value, ParseU16(ParseU16(b).rest).value;
    assert (high * 0x1_0000 + low) / 0x1_0000 == high && (high * 0x1_0000 + low) % 0x1_0000 == low;
  }

  lemma U64Decodes(n: u64, rest: Bytes)
    ensures ParseU64(U64(n) + rest) == Done(n, rest)
  {
    hide ParseU32, U32;
    var high, low := n / 0x1_0000_0000, n % 0x1_0000_0000;
    assert U64(n) + rest == U32(high) + (U32(low) + rest);
    U32Decodes(high, U32(low) + rest);
    U32Decodes(low, rest);
  }

  lemma U64Canonical(b: Bytes)
    requires ParseU64(b).Done?
    ensures b == U64(ParseU64(b).value) + ParseU64(b).rest
  {
    hide ParseU32, U32;
    U32Canonical(b);
    U32Canonical(ParseU32(b).rest);
  }

  lemma TextDecodes(s: Text, rest: Bytes)
    requires EncText(s).Ok?
    ensures ParseText(EncText(s).value + rest) == Done(s, rest)
  {
    hide ParseU16, U16, Utf8.Valid;
    assert EncText(s).value + rest == U16(|s|) + (s + rest);
    U16Decodes(|s|, s + rest);
  }

  lemma TextCanonical(b: Bytes)
    requires ParseText(b).Done?
    ensures EncText(ParseText(b).value).Ok?
    ensures b == EncText(ParseText(b).value).value + ParseText(b).rest
  {
    hide ParseU16, U16, Utf8.Valid;
    U16Canonical(b);
  }

  lemma NameDecodes(s: Bytes, rest: Bytes)
    requires EncName(s).Ok?
    ensures ParseName(EncName(s).value + rest) == Done(s, rest)
  {
    hide ParseText, EncText, ValidName, Utf8.Valid;
    NameIsText(s);
    TextDecodes(s, rest);
  }

  lemma NameCanonical(b: Bytes)
    requires ParseName(b).Done?
    ensures EncName(ParseName(b).value).Ok?
    ensures b == EncName(ParseName(b).value).value + ParseName(b).rest
  {
    hide ParseText, EncText, ValidName, Utf8.Valid;
    TextCanonical(b);
  }

  lemma NamespaceDecodes(s: Namespace, rest: Bytes)
    requires EncText(s).Ok?
    ensures ParseNamespace(EncText(s).value + rest) == Done(s, rest)
  {
    hide ParseText, EncText, Utf8.Valid;
    NamespaceIsText(s);
    TextDecodes(s, rest);
  }

  lemma NamespaceCanonical(b: Bytes)
    requires ParseNamespace(b).Done?
    ensures EncText(ParseNamespace(b).value).Ok?
    ensures b == EncText(ParseNamespace(b).value).value + ParseNamespace(b).rest
  {
    hide ParseText, EncText, Utf8.Valid;
    TextCanonical(b);
  }

  lemma BinaryDecodes(s: Bytes, rest: Bytes)
    requires EncBinary(s).Ok?
    ensures ParseBinary(EncBinary(s).value + rest) == Done(s, rest)
  {
    hide ParseU32, U32;
    assert EncBinary(s).value + rest == U32(|s|) + (s + rest);
    U32Decodes(|s|, s + rest);
  }

  lemma BinaryCanonical(b: Bytes)
    requires ParseBinary(b).Done?
    ensures EncBinary(ParseBinary(b).value).Ok?
    ensures b == EncBinary(ParseBinary(b).value).value + ParseBinary(b).rest
  {
    hide ParseU32, U32;
    U32Canonical(b);
  }

  // ---------- Headers, capabilities and filters ----------

  lemma ValueDecodes(v: HeaderValue, rest: Bytes)
    requires EncValue(v).Ok?
    ensures ParseValue(EncValue(v).value + rest) == Done(v, rest)
  {
    hide ParseText, EncText, ParseU64, U64, ParseBinary, EncBinary, Utf8.Valid;
    match v
    case TextValue(s) =>
      Tagged(0, EncText(s).value, rest);
      TextDecodes(s, rest);
    case UnsignedValue(n) =>
      Tagged(1, U64(n), rest);
      U64Decodes(n, rest);
    case BooleanValue(flag) =>
      Tagged(2, [if flag then 1 else 0], rest);
      assert [2, if flag then 1 else 0] == [2] + [if flag then 1 else 0];
    case BinaryValue(s) =>
      Tagged(3, EncBinary(s).value, rest);
      BinaryDecodes(s, rest);
  }

  /** The first byte is the tag and the rest what follows it. */
  lemma Tagged(tag: u8, piece: Bytes, rest: Bytes)
    ensures var b := [tag] + piece + rest; |b| >= 1 && b[0] == tag && b[1..] == piece + rest
  {
  }

  lemma ValueCanonical(b: Bytes)
    requires ParseValue(b).Done?
    ensures EncValue(ParseValue(b).value).Ok?
    ensures b == EncValue(ParseValue(b).value).value + ParseValue(b).rest
  {
    hide ParseText, EncText, ParseU64, U64, ParseBinary, EncBinary, Utf8.Valid;
    var b1 := b[1..];
    assert b == [b[0]] + b1;
    match b[0]
    case 0 => TextCanonical(b1);
    case 1 => U64Canonical(b1);
    case 2 => assert b1 == [b1[0]] + b1[1..];
    case 3 => BinaryCanonical(b1);
  }

  lemma EntryDecodes(name: Bytes, value: HeaderValue, previous: Option<Bytes>, rest: Bytes)
    requires EncEntry(name, value).Ok? && !OutOfOrder(previous, name)
    ensures ParseEntry(previous, EncEntry(name, value).value + rest) == Done((name, value), rest)
  {
    hide ParseName, EncName, ParseValue, EncValue, Less, Utf8.Valid;
    var n, v := EncName(name).value, EncValue(value).value;
    assert EncEntry(name, value).value + rest == n + (v + rest);
    NameDecodes(name, v + rest);
    ValueDecodes(value, rest);
  }

  lemma EntryCanonical(previous: Option<Bytes>, b: Bytes)
    requires ParseEntry(previous, b).Done?
    ensures var (name, value) := ParseEntry(previous, b).value;
      && !OutOfOrder(previous, name)
      && EncEntry(name, value).Ok?
      && b == EncEntry(name, value).value + ParseEntry(previous, b).rest
  {
    hide ParseName, EncName, ParseValue, EncValue, Less, Utf8.Valid;
    NameCanonical(b);
    ValueCanonical(ParseName(b).rest);
  }

  predicate After(previous: Option<Bytes>, names: set<Bytes>)
  {
    previous.Some? ==> forall k :: k in names ==> Less(previous.value, k)
  }

  lemma AfterFirst(previous: Option<Bytes>, name: Bytes, others: set<Bytes>)
    requires !OutOfOrder(previous, name) && After(Some(name), others)
    ensures After(previous, others + {name})
    ensures name !in others && Min(others + {name}) == name
  {
    if name in others {
      LessIsAsymmetric(name, name);
    }
    MinOf(others + {name}, name);
    if previous.Some? {
      forall k | k in others ensures Less(previous.value, k) {
        LessIsTransitive(previous.value, name, k);
      }
    }
  }

  lemma MinGoesFirst(previous: Option<Bytes>, names: set<Bytes>)
    requires names != {} && After(previous, names)
    ensures !OutOfOrder(previous, Min(names)) && After(Some(Min(names)), names - {Min(names)})
  {
  }

  lemma EmptyBlock(previous: Option<Bytes>)
    ensures After(previous, {}) && EncEntries(map[]) == Ok([]) && EncNames({}) == Ok([])
  {
  }

  /** Taking the first entry off a header map. */
  lemma PeelEntry(h: Headers)
    requires h != map[] && EncEntries(h).Ok?
    ensures var name := Min(h.Keys); var others := h - {name};
      && others.Keys == h.Keys - {name} && |others| == |h| - 1 && WithEntry(name, h[name], others) == h
      && EncEntry(name, h[name]).Ok? && EncEntries(others).Ok?
      && EncEntries(h).value == EncEntry(name, h[name]).value + EncEntries(others).value
  {
    hide EncEntry, IsMin, Utf8.Valid, WithEntry;
    PeelKey(h, Min(h.Keys));
  }

  lemma PeelKey(h: Headers, name: Text)
    requires name in h
    ensures var others := h - {name};
      others.Keys == h.Keys - {name} && |others| == |h| - 1 && WithEntry(name, h[name], others) == h
  {
    hide Utf8.Valid;
    var others := h - {name};
    assert others.Keys == h.Keys - {name};
    assert map[name := h[name]] + others == h;
  }

  /** Entries read in order form the map that is written in that order. */
  lemma {:induction false} EntriesDecode(h: Headers, previous: Option<Bytes>, rest: Bytes)
    requires EncEntries(h).Ok? && After(previous, h.Keys)
    ensures ParseEntries(|h|, previous, EncEntries(h).value + rest) == Done(h, rest)
    decreases |h|
  {
    hide ParseEntry, EncEntry, EncEntries, WithEntry, OutOfOrder, After, IsMin, Utf8.Valid;
    EmptyBlock(previous);
    if h != map[] {
      PeelEntry(h);
      MinGoesFirst(previous, h.Keys);
      var name := Min(h.Keys);
      var others := h - {name};
      var tail := EncEntries(others).value + rest;
      assert EncEntries(h).value + rest == EncEntry(name, h[name]).value + tail;
      EntryDecodes(name, h[name], previous, tail);
      EntriesDecode(others, Some(name), rest);
    }
  }

  lemma {:induction false} EntriesCanonical(n: nat, previous: Option<Bytes>, b: Bytes)
    requires ParseEntries(n, previous, b).Done?
    ensures var h := ParseEntries(n, previous, b).value;
      && |h| == n && After(previous, h.Keys)
      && EncEntries(h).Ok?
      && b == EncEntries(h).value + ParseEntries(n, previous, b).rest
    decreases n
  {
    hide ParseEntry, EncEntry, EncEntries, WithEntry, OutOfOrder, After, Less, IsMin, Utf8.Valid;
    EmptyBlock(previous);
    if n > 0 {
      var (name, value) := ParseEntry(previous, b).value;
      var b1 := ParseEntry(previous, b).rest;
      var others := ParseEntries(n - 1, Some(name), b1).value;
      EntryCanonical(previous, b);
      EntriesCanonical(n - 1, Some(name), b1);
      AfterFirst(previous, name, others.Keys);
      FirstEntry(name, value, others);
    }
  }

  lemma FirstEntry(name: Text, value: HeaderValue, others: Headers)
    requires name !in others && Min(others.Keys + {name}) == name
    ensures var h := WithEntry(name, value, others);
      && h.Keys == others.Keys + {name} && |h| == |others| + 1 && h - {name} == others
      && EncEntries(h) == (match EncEntry(name, value)
                           case Err(e) => Err(e)
                           case Ok(first) =>
                             match EncEntries(others)
                             case Err(e) => Err(e)
                             case Ok(tail) => Ok(first + tail))
  {
    hide EncEntry, IsMin, Utf8.Valid;
    var h := WithEntry(name, value, others);
    assert h.Keys == others.Keys + {name};
    assert name in h && h - {name} == others;
  }

  lemma HeadersDecode(h: Headers, limits: FrameLimits, rest: Bytes)
    requires EncHeaders(h, limits).Ok?
    ensures ParseHeaders(EncHeaders(h, limits).value + rest, limits) == Done(h, rest)
  {
    hide ParseEntries, EncEntries, Utf8.Valid;
    var entries := EncEntries(h).value;
    assert EncHeaders(h, limits).value + rest == U16(|h|) + (entries + rest);
    U16Decodes(|h|, entries + rest);
    EntriesDecode(h, None, rest);
  }

  lemma HeadersCanonical(b: Bytes, limits: FrameLimits)
    requires ParseHeaders(b, limits).Done?
    ensures EncHeaders(ParseHeaders(b, limits).value, limits).Ok?
    ensures b == EncHeaders(ParseHeaders(b, limits).value, limits).value + ParseHeaders(b, limits).rest
  {
    hide ParseEntries, EncEntries, ParseU16, U16, Utf8.Valid;
    U16Canonical(b);
    EntriesCanonical(ParseU16(b).value, None, ParseU16(b).rest);
  }

  lemma {:induction false} NamesDecode(s: Capabilities, previous: Option<Bytes>, rest: Bytes)
    requires EncNames(s).Ok? && After(previous, s)
    ensures ParseNames(|s|, previous, EncNames(s).value + rest) == Done(s, rest)
    decreases |s|
  {
    hide ParseName, EncName, OutOfOrder, After, Less, IsMin, Utf8.Valid;
    if s != {} {
      var name := Min(s);
      var others := s - {name};
      var tail := EncNames(others).value + rest;
      assert EncNames(s).value + rest == EncName(name).value + tail;
      MinGoesFirst(previous, s);
      NameDecodes(name, tail);
      NamesDecode(others, Some(name), rest);
      assert {name} + others == s;
    }
  }

  lemma {:induction false} NamesCanonical(n: nat, previous: Option<Bytes>, b: Bytes)
    requires ParseNames(n, previous, b).Done?
    ensures var s := ParseNames(n, previous, b).value;
      && |s| == n && After(previous, s)
      && EncNames(s).Ok?
      && b == EncNames(s).value + ParseNames(n, previous, b).rest
    decreases n
  {
    hide ParseName, EncName, EncNames, OutOfOrder, After, Less, IsMin, Utf8.Valid;
    EmptyBlock(previous);
    if n > 0 {
      var name, b1 := ParseName(b).value, ParseName(b).rest;
      var others := ParseNames(n - 1, Some(name), b1).value;
      NameCanonical(b);
      NamesCanonical(n - 1, Some(name), b1);
      AfterFirst(previous, name, others);
      FirstName(name, others);
    }
  }

  lemma FirstName(name: Text, others: Capabilities)
    requires name !in others && Min(others + {name}) == name
    ensures var s := {name} + others;
      && s == others + {name} && |s| == |others| + 1
      && EncNames(s) == (match EncName(name)
                         case Err(e) => Err(e)
                         case Ok(first) =>
                           match EncNames(others)
                           case Err(e) => Err(e)
                           case Ok(tail) => Ok(first + tail))
  {
    var s := {name} + others;
    assert s == others + {name} && s - {name} == others;
  }

  lemma CapabilitiesDecode(s: Capabilities, limits: FrameLimits, rest: Bytes)
    requires EncCapabilities(s, limits).Ok?
    ensures ParseCapabilities(EncCapabilities(s, limits).value + rest, limits) == Done(s, rest)
  {
    hide ParseNames, EncNames, Utf8.Valid;
    var names := EncNames(s).value;
    assert EncCapabilities(s, limits).value + rest == U16(|s|) + (names + rest);
    U16Decodes(|s|, names + rest);
    NamesDecode(s, None, rest);
  }

  lemma CapabilitiesCanonical(b: Bytes, limits: FrameLimits)
    requires ParseCapabilities(b, limits).Done?
    ensures EncCapabilities(ParseCapabilities(b, limits).value, limits).Ok?
    ensures b == EncCapabilities(ParseCapabilities(b, limits).value, limits).value
              + ParseCapabilities(b, limits).rest
  {
    hide ParseNames, EncNames, ParseU16, U16, Utf8.Valid;
    U16Canonical(b);
    NamesCanonical(ParseU16(b).value, None, ParseU16(b).rest);
  }

  lemma FilterDecodes(f: HeaderFilter, rest: Bytes)
    requires EncFilter(f).Ok?
    ensures ParseFilter(EncFilter(f).value + rest) == Done(f, rest)
  {
    hide ParseName, EncName, ParseValue, EncValue, Utf8.Valid;
    var n := EncName(f.name).value;
    var v := if f.Exists? || f.NotExists? then [] else EncValue(f.value).value;
    assert EncFilter(f).value + rest == [FilterTag(f)] + (n + (v + rest));
    NameDecodes(f.name, v + rest);
    if f.Exists? || f.NotExists? {
      assert v + rest == rest;
    } else {
      ValueDecodes(f.value, rest);
    }
  }

  lemma FilterCanonical(b: Bytes)
    requires ParseFilter(b).Done?
    ensures EncFilter(ParseFilter(b).value).Ok?
    ensures b == EncFilter(ParseFilter(b).value).value + ParseFilter(b).rest
  {
    hide ParseName, EncName, ParseValue, EncValue, Utf8.Valid;
    var f := ParseFilter(b).value;
    assert b == [b[0]] + b[1..];
    NameCanonical(b[1..]);
    if !f.Exists? && !f.NotExists? {
      ValueCanonical(ParseName(b[1..]).rest);
    }
  }

  lemma ItemDecodes(f: HeaderFilter, previous: Option<Bytes>, rest: Bytes)
    requires EncFilter(f).Ok? && !OutOfOrder(previous, EncFilter(f).value)
    ensures ParseItem(previous, EncFilter(f).value + rest) == Done((f, EncFilter(f).value), rest)
  {
    hide ParseFilter, EncFilter, Less, Utf8.Valid;
    FilterDecodes(f, rest);
    assert Consumed(EncFilter(f).value + rest, rest) == EncFilter(f).value;
  }

  lemma ItemCanonical(previous: Option<Bytes>, b: Bytes)
    requires ParseItem(previous, b).Done?
    ensures var (f, item) := ParseItem(previous, b).value;
      && !OutOfOrder(previous, item)
      && EncFilter(f) == Ok(item)
      && b == item + ParseItem(previous, b).rest
  {
    hide ParseFilter, EncFilter, Less, Utf8.Valid;
    FilterCanonical(b);
  }

  /** The encoded filters follow `previous` and each other in ascending order. */
  predicate Follows(previous: Option<Bytes>, items: seq<Bytes>)
    decreases |items|
  {
    items == [] || (!OutOfOrder(previous, items[0]) && Follows(Some(items[0]), items[1..]))
  }

  lemma {:induction false} FollowsIsIncreasing(previous: Option<Bytes>, items: seq<Bytes>)
    ensures Follows(previous, items)
       <==> (items == [] || !OutOfOrder(previous, items[0])) && Increasing(items)
    decreases |items|
  {
    hide Less;
    if items != [] {
      var tail := items[1..];
      FollowsIsIncreasing(Some(items[0]), tail);
      assert tail != [] ==> tail[0] == items[1];
      if Increasing(items) {
        forall i | 0 <= i < |tail| - 1 ensures Less(tail[i], tail[i + 1]) {
          assert Less(items[i + 1], items[i + 1 + 1]);
        }
      }
      if Increasing(tail) && (tail == [] || Less(items[0], items[1])) {
        forall i | 0 <= i < |items| - 1 ensures Less(items[i], items[i + 1]) {
          assert i > 0 ==> Less(tail[i - 1], tail[i - 1 + 1]);
        }
      }
    }
  }

  lemma {:induction false} FilterListDecodes(filters: seq<HeaderFilter>, previous: Option<Bytes>, rest: Bytes)
    requires EncEach(filters).Ok? && Follows(previous, EncEach(filters).value)
    ensures |EncEach(filters).value| == |filters|
    ensures ParseFilterList(|filters|, previous, Concat(EncEach(filters).value) + rest) == Done(filters, rest)
    decreases |filters|
  {
    hide ParseItem, EncFilter, OutOfOrder, Utf8.Valid;
    if filters == [] {
      assert Concat(EncEach(filters).value) + rest == rest;
    } else {
      var items := EncEach(filters).value;
      var tail := Concat(items[1..]) + rest;
      assert items[1..] == EncEach(filters[1..]).value;
      assert Concat(items) + rest == items[0] + tail;
      assert Follows(Some(items[0]), items[1..]);
      ItemDecodes(filters[0], previous, tail);
      FilterListDecodes(filters[1..], Some(items[0]), rest);
      assert [filters[0]] + filters[1..] == filters;
    }
  }

  lemma {:induction false} FilterListCanonical(n: nat, previous: Option<Bytes>, b: Bytes)
    requires ParseFilterList(n, previous, b).Done?
    ensures var filters := ParseFilterList(n, previous, b).value;
      && |filters| == n
      && EncEach(filters).Ok? && |EncEach(filters).value| == n
      && Follows(previous, EncEach(filters).value)
      && b == Concat(EncEach(filters).value) + ParseFilterList(n, previous, b).rest
    decreases n
  {
    hide ParseItem, EncFilter, OutOfOrder, Utf8.Valid;
    if n > 0 {
      var (f, item) := ParseItem(previous, b).value;
      var b1 := ParseItem(previous, b).rest;
      ItemCanonical(previous, b);
      FilterListCanonical(n - 1, Some(item), b1);
      var filters := ParseFilterList(n, previous, b).value;
      assert filters[1..] == ParseFilterList(n - 1, Some(item), b1).value;
      assert EncEach(filters).value[1..] == EncEach(filters[1..]).value;
    }
  }

  lemma FiltersDecode(filters: seq<HeaderFilter>, limits: FrameLimits, rest: Bytes)
    requires EncFilters(filters, limits).Ok?
    ensures ParseFilters(EncFilters(filters, limits).value + rest, limits) == Done(filters, rest)
  {
    hide ParseFilterList, EncEach, Concat, Increasing, Follows, Utf8.Valid;
    var items := EncEach(filters).value;
    FollowsIsIncreasing(None, items);
    FilterListDecodes(filters, None, rest);
    assert EncFilters(filters, limits).value + rest == U16(|items|) + (Concat(items) + rest);
    U16Decodes(|items|, Concat(items) + rest);
  }

  lemma FiltersCanonical(b: Bytes, limits: FrameLimits)
    requires ParseFilters(b, limits).Done?
    ensures EncFilters(ParseFilters(b, limits).value, limits).Ok?
    ensures b == EncFilters(ParseFilters(b, limits).value, limits).value + ParseFilters(b, limits).rest
  {
    hide ParseFilterList, EncEach, Concat, Increasing, Follows, ParseU16, U16, Utf8.Valid;
    U16Canonical(b);
    FilterListCanonical(ParseU16(b).value, None, ParseU16(b).rest);
    FollowsIsIncreasing(None, EncEach(ParseFilters(b, limits).value).value);
  }

  // ---------- Message envelope ----------

  lemma AckRequirementDecodes(a: AckRequirement, rest: Bytes)
    requires EncAckRequirement(a).Ok?
    ensures ParseAckRequirement(EncAckRequirement(a).value + rest) == Done(a, rest)
  {
    if a.Minimum? {
      assert EncAckRequirement(a).value + rest == [3] + (U16(a.count) + rest);
    }
  }

  lemma AckRequirementCanonical(b: Bytes)
    requires ParseAckRequirement(b).Done?
    ensures EncAckRequirement(ParseAckRequirement(b).value).Ok?
    ensures b == EncAckRequirement(ParseAckRequirement(b).value).value + ParseAckRequirement(b).rest
  {
    assert b == [b[0]] + b[1..];
    if b[0] == 3 {
      U16Canonical(b[1..]);
    }
  }

  lemma RetryDecodes(r: RetryPolicy, rest: Bytes)
    requires EncRetry(r).Ok?
    ensures ParseRetry(EncRetry(r).value + rest) == Done(r, rest)
  {
    hide U32, ParseU32;
    if r.Exponential? {
      assert EncRetry(r).value + rest == [1] + (U32(r.initialBackoff) + ([r.maxAttempts] + rest));
      U32Decodes(r.initialBackoff, [r.maxAttempts] + rest);
    }
  }

  lemma RetryCanonical(b: Bytes)
    requires ParseRetry(b).Done?
    ensures EncRetry(ParseRetry(b).value).Ok?
    ensures b == EncRetry(ParseRetry(b).value).value + ParseRetry(b).rest
  {
    hide U32, ParseU32;
    var b1 := b[1..];
    assert b == [b[0]] + b1;
    if b[0] == 1 {
      U32Canonical(b1);
      var b2 := ParseU32(b1).rest;
      assert b2 == [b2[0]] + b2[1..];
    }
  }

  lemma DestinationDecodes(d: Destination, rest: Bytes)
    requires EncDestination(d).Ok?
    ensures ParseDestination(EncDestination(d).value + rest) == Done(d, rest)
  {
    hide ParseU64, U64, ParseName, EncName, EncText, ParseNamespace, Utf8.Valid;
    match d
    case ToPeer(p) =>
      Tagged(1, U64(p), rest);
      U64Decodes(p, rest);
    case ToNamespace(n) =>
      Tagged(2, EncText(n).value, rest);
      NamespaceDecodes(n, rest);
    case ToChannel(c) =>
      Tagged(3, EncName(c).value, rest);
      NameDecodes(c, rest);
    case ToClient(id, selection) =>
      var tag := [SelectionTag(selection)];
      assert [5] + EncName(id).value + tag + rest == [5] + EncName(id).value + (tag + rest);
      Tagged(5, EncName(id).value, tag + rest);
      NameDecodes(id, tag + rest);
      assert (tag + rest)[1..] == rest;
    case _ =>
      assert EncDestination(d).value + rest == [EncDestination(d).value[0]] + rest;
  }

  lemma DestinationCanonical(b: Bytes)
    requires ParseDestination(b).Done?
    ensures EncDestination(ParseDestination(b).value).Ok?
    ensures b == EncDestination(ParseDestination(b).value).value + ParseDestination(b).rest
  {
    hide ParseU64, U64, ParseName, EncName, EncText, ParseNamespace, Utf8.Valid;
    var b1 := b[1..];
    assert b == [b[0]] + b1;
    match b[0]
    case 1 => U64Canonical(b1);
    case 2 => NamespaceCanonical(b1);
    case 3 => NameCanonical(b1);
    case 5 =>
      NameCanonical(b1);
      var b2 := ParseName(b1).rest;
      assert b2 == [b2[0]] + b2[1..];
    case _ =>
  }

  /** Two messages with the same fields before the destination. */
  predicate SameOptions(m: Message, o: Message)
  {
    && m.kind == o.kind && m.ackPolicy == o.ackPolicy && m.ackRequirement == o.ackRequirement
    && m.requestPolicy == o.requestPolicy && m.deadline == o.deadline && m.retry == o.retry
  }

  lemma OptionTagsDecode(m: Message)
    ensures DecodeKind(KindTag(m.kind)) == Ok(m.kind)
    ensures DecodeAckPolicy(AckPolicyTag(m.ackPolicy)) == Ok(m.ackPolicy)
    ensures DecodeRequestPolicy(RequestPolicyTag(m.requestPolicy)) == Ok(m.requestPolicy)
  {
  }

  lemma OptionsDecode(m: Message, rest: Bytes)
    requires EncOptions(m).Ok?
    ensures ParseOptions(EncOptions(m).value + rest).Done?
    ensures SameOptions(ParseOptions(EncOptions(m).value + rest).value, m)
    ensures ParseOptions(EncOptions(m).value + rest).rest == rest
  {
    hide EncAckRequirement, ParseAckRequirement, EncRetry, ParseRetry, U32, ParseU32, KindTag, DecodeKind,
         AckPolicyTag, DecodeAckPolicy, RequestPolicyTag, DecodeRequestPolicy;
    OptionTagsDecode(m);
    var requirement, retry := EncAckRequirement(m.ackRequirement).value, EncRetry(m.retry).value;
    var b5 := retry + rest;
    var b4 := U32(m.deadline) + b5;
    var b3 := [RequestPolicyTag(m.requestPolicy)] + b4;
    var b2 := requirement + b3;
    assert EncOptions(m).value + rest == [KindTag(m.kind), AckPolicyTag(m.ackPolicy)] + b2;
    AckRequirementDecodes(m.ackRequirement, b3);
    U32Decodes(m.deadline, b5);
    RetryDecodes(m.retry, rest);
    var b := EncOptions(m).value + rest;
    assert b[1..][1..] == b2;
  }

  lemma OptionsCanonical(b: Bytes)
    requires ParseOptions(b).Done?
    ensures EncOptions(ParseOptions(b).value).Ok?
    ensures b == EncOptions(ParseOptions(b).value).value + ParseOptions(b).rest
  {
    hide EncAckRequirement, ParseAckRequirement, EncRetry, ParseRetry, U32, ParseU32, KindTag, DecodeKind,
         AckPolicyTag, DecodeAckPolicy, RequestPolicyTag, DecodeRequestPolicy;
    var m := ParseOptions(b).value;
    var b2 := b[1..][1..];
    AckRequirementCanonical(b2);
    var b3 := ParseAckRequirement(b2).rest;
    var b4 := b3[1..];
    U32Canonical(b4);
    var b5 := ParseU32(b4).rest;
    RetryCanonical(b5);
    OptionTagsCanonical(b[0], b[1], b3[0]);
    var requirement, retry := EncAckRequirement(m.ackRequirement).value, EncRetry(m.retry).value;
    assert EncOptions(m).value
        == [b[0], b[1]] + requirement + [b3[0]] + U32(m.deadline) + retry;
    assert b == [b[0], b[1]] + b2;
    assert b2 == requirement + b3;
    assert b3 == [b3[0]] + b4;
    assert b4 == U32(m.deadline) + b5;
    assert b5 == retry + ParseOptions(b).rest;
  }

  lemma OptionTagsCanonical(kind: u8, ackPolicy: u8, requestPolicy: u8)
    requires DecodeKind(kind).Ok? && DecodeAckPolicy(ackPolicy).Ok? && DecodeRequestPolicy(requestPolicy).Ok?
    ensures KindTag(DecodeKind(kind).value) == kind && AckPolicyTag(DecodeAckPolicy(ackPolicy).value) == ackPolicy
    ensures RequestPolicyTag(DecodeRequestPolicy(requestPolicy).value) == requestPolicy
  {
  }

  /** Two messages with the same fields before the headers. */
  predicate SameEnvelope(m: Message, o: Message)
  {
    && SameOptions(m, o) && m.destination == o.destination && m.id == o.id
    && m.correlationId == o.correlationId && m.status == o.status
  }

  lemma EnvelopeDecodes(m: Message, rest: Bytes)
    requires EncEnvelope(m).Ok?
    ensures ParseEnvelope(EncEnvelope(m).value + rest).Done?
    ensures SameEnvelope(ParseEnvelope(EncEnvelope(m).value + rest).value, m)
    ensures ParseEnvelope(EncEnvelope(m).value + rest).rest == rest
  {
    hide EncOptions, ParseOptions, EncDestination, ParseDestination;
    var options, destination := EncOptions(m).value, EncDestination(m.destination).value;
    var b4 := [StatusTag(m.status)] + rest;
    var b3 := m.correlationId + b4;
    var b2 := m.id + b3;
    assert EncEnvelope(m).value + rest == options + (destination + b2);
    OptionsDecode(m, destination + b2);
    DestinationDecodes(m.destination, b2);
    assert b2[16..] == b3 && b3[16..] == b4;
  }

  lemma EnvelopeCanonical(b: Bytes)
    requires ParseEnvelope(b).Done?
    ensures EncEnvelope(ParseEnvelope(b).value).Ok?
    ensures b == EncEnvelope(ParseEnvelope(b).value).value + ParseEnvelope(b).rest
  {
    hide ParseOptions, EncOptions, EncDestination, ParseDestination, StatusTag, DecodeStatus;
    var m := ParseEnvelope(b).value;
    OptionsCanonical(b);
    var b1 := ParseOptions(b).rest;
    DestinationCanonical(b1);
    var b2 := ParseDestination(b1).rest;
    IdentityCanonical(b2);
    OptionsOnly(m, ParseOptions(b).value);
  }

  lemma IdentityCanonical(b: Bytes)
    requires |b| > 32 && DecodeStatus(b[32]).Ok?
    ensures b[16..][16..] == b[32..] && b[16..][16..][1..] == b[33..]
    ensures b == b[..16] + b[16..][..16] + [StatusTag(DecodeStatus(b[32]).value)] + b[33..]
  {
  }

  lemma OptionsOnly(m: Message, o: Message)
    requires m == o.(destination := m.destination, id := m.id, correlationId := m.correlationId, status := m.status)
    ensures EncOptions(m) == EncOptions(o)
  {
    hide EncAckRequirement, EncRetry, U32, KindTag, AckPolicyTag, RequestPolicyTag;
  }

  lemma MessageDecodes(m: Message, limits: FrameLimits, rest: Bytes)
    requires EncMessage(m, limits).Ok?
    ensures ParseMessage(EncMessage(m, limits).value + rest, limits) == Done(m, rest)
  {
    hide EncEnvelope, ParseEnvelope, EncHeaders, ParseHeaders, EncBinary, ParseBinary, Utf8.Valid;
    var envelope, headers := EncEnvelope(m).value, EncHeaders(m.headers, limits).value;
    var payload := EncBinary(m.payload).value;
    assert EncMessage(m, limits).value + rest == envelope + (headers + (payload + rest));
    EnvelopeDecodes(m, headers + (payload + rest));
    HeadersDecode(m.headers, limits, payload + rest);
    BinaryDecodes(m.payload, rest);
  }

  lemma MessageCanonical(b: Bytes, limits: FrameLimits)
    requires ParseMessage(b, limits).Done?
    ensures EncMessage(ParseMessage(b, limits).value, limits).Ok?
    ensures b == EncMessage(ParseMessage(b, limits).value, limits).value + ParseMessage(b, limits).rest
  {
    hide EncOptions, EncDestination, ParseEnvelope, EncHeaders, ParseHeaders, EncBinary, ParseBinary, Utf8.Valid;
    EnvelopeCanonical(b);
    var b1 := ParseEnvelope(b).rest;
    HeadersCanonical(b1, limits);
    BinaryCanonical(ParseHeaders(b1, limits).rest);
    SameOptionsEncode(ParseEnvelope(b).value, ParseMessage(b, limits).value);
  }

  lemma SameOptionsEncode(m: Message, o: Message)
    requires SameOptions(m, o)
    ensures EncOptions(m) == EncOptions(o)
  {
  }

  // ---------- Frames ----------

  lemma OptionalNameDecodes(id: Option<ClientId>, rest: Bytes)
    requires EncOptionalName(id).Ok?
    ensures ParseOptionalName(EncOptionalName(id).value + rest) == Done(id, rest)
  {
    hide EncName, ParseName, Utf8.Valid;
    if id.Some? {
      assert EncOptionalName(id).value + rest == [1] + (EncName(id.value).value + rest);
      NameDecodes(id.value, rest);
    }
  }

  lemma OptionalNameCanonical(b: Bytes)
    requires ParseOptionalName(b).Done?
    ensures EncOptionalName(ParseOptionalName(b).value).Ok?
    ensures b == EncOptionalName(ParseOptionalName(b).value).value + ParseOptionalName(b).rest
  {
    hide EncName, ParseName, Utf8.Valid;
    assert b == [b[0]] + b[1..];
    if b[0] == 1 {
      NameCanonical(b[1..]);
    }
  }

  lemma HelloDecodes(f: Frame, limits: FrameLimits, rest: Bytes)
    requires f.Hello? && EncBody(f, limits).Ok?
    ensures ParseHello(EncBody(f, limits).value + rest, limits) == Done(f, rest)
  {
    hide EncOptionalName, ParseOptionalName, EncHeaders, ParseHeaders, EncCapabilities, ParseCapabilities, Utf8.Valid;
    var h, c := EncHeaders(f.headers, limits).value, EncCapabilities(f.capabilities, limits).value;
    assert EncBody(f, limits).value + rest == EncOptionalName(f.clientId).value + (h + (c + rest));
    OptionalNameDecodes(f.clientId, h + (c + rest));
    HeadersDecode(f.headers, limits, c + rest);
    CapabilitiesDecode(f.capabilities, limits, rest);
  }

  lemma HelloCanonical(b: Bytes, limits: FrameLimits)
    requires ParseHello(b, limits).Done?
    ensures ParseHello(b, limits).value.Hello? && EncBody(ParseHello(b, limits).value, limits).Ok?
    ensures b == EncBody(ParseHello(b, limits).value, limits).value + ParseHello(b, limits).rest
  {
    hide EncOptionalName, ParseOptionalName, EncHeaders, ParseHeaders, EncCapabilities, ParseCapabilities, Utf8.Valid;
    OptionalNameCanonical(b);
    var b1 := ParseOptionalName(b).rest;
    HeadersCanonical(b1, limits);
    CapabilitiesCanonical(ParseHeaders(b1, limits).rest, limits);
  }

  lemma ResolvedDecodes(f: Frame, limits: FrameLimits, rest: Bytes)
    requires f.NamespaceResolved? && EncBody(f, limits).Ok?
    ensures ParseNamespaceResolved(EncBody(f, limits).value + rest) == Done(f, rest)
  {
    hide EncText, ParseNamespace, U64, ParseU64, Utf8.Valid;
    var n, o := EncText(f.namespace).value, EncOwner(f.owner).value;
    assert EncBody(f, limits).value + rest == n + (o + rest);
    NamespaceDecodes(f.namespace, o + rest);
    if f.owner.Some? {
      assert o + rest == [1] + (U64(f.owner.value) + rest);
      U64Decodes(f.owner.value, rest);
    }
  }

  lemma ResolvedCanonical(b: Bytes, limits: FrameLimits)
    requires ParseNamespaceResolved(b).Done?
    ensures ParseNamespaceResolved(b).value.NamespaceResolved?
    ensures EncBody(ParseNamespaceResolved(b).value, limits).Ok?
    ensures b == EncBody(ParseNamespaceResolved(b).value, limits).value + ParseNamespaceResolved(b).rest
  {
    hide EncText, ParseNamespace, U64, ParseU64, Utf8.Valid;
    NamespaceCanonical(b);
    var b1 := ParseNamespace(b).rest;
    assert b1 == [b1[0]] + b1[1..];
    if b1[0] == 1 {
      U64Canonical(b1[1..]);
    }
  }

  lemma NamedBlockDecodes(f: Frame, limits: FrameLimits, rest: Bytes)
    requires (f.Welcome? || f.ClaimFrame? || f.SubscribeFrame?) && EncBody(f, limits).Ok?
    ensures ParseBody(KindOf(f), EncBody(f, limits).value + rest, limits) == Done(f, rest)
  {
    hide EncHeaders, ParseHeaders, EncCapabilities, ParseCapabilities, EncFilters, ParseFilters,
         EncText, EncName, ParseName, ParseNamespace, U64, ParseU64, Utf8.Valid;
    match f
    case Welcome(peer, capabilities) =>
      var c := EncCapabilities(capabilities, limits).value;
      assert EncBody(f, limits).value + rest == U64(peer) + (c + rest);
      U64Decodes(peer, c + rest);
      CapabilitiesDecode(capabilities, limits, rest);
    case ClaimFrame(namespace, headers) =>
      var h := EncHeaders(headers, limits).value;
      assert EncBody(f, limits).value + rest == EncText(namespace).value + (h + rest);
      NamespaceDecodes(namespace, h + rest);
      HeadersDecode(headers, limits, rest);
    case SubscribeFrame(channel, filters) =>
      var x := EncFilters(filters, limits).value;
      assert EncBody(f, limits).value + rest == EncName(channel).value + (x + rest);
      NameDecodes(channel, x + rest);
      FiltersDecode(filters, limits, rest);
  }

  lemma NamedBlockCanonical(kind: u8, b: Bytes, limits: FrameLimits)
    requires 2 <= kind <= 4 && ParseBody(kind, b, limits).Done?
    ensures var f := ParseBody(kind, b, limits).value;
      && KindOf(f) == kind && EncBody(f, limits).Ok?
      && b == EncBody(f, limits).value + ParseBody(kind, b, limits).rest
  {
    hide EncHeaders, ParseHeaders, EncCapabilities, ParseCapabilities, EncFilters, ParseFilters,
         EncText, EncName, ParseName, ParseNamespace, U64, ParseU64, Utf8.Valid;
    if kind == 2 {
      U64Canonical(b);
      CapabilitiesCanonical(ParseU64(b).rest, limits);
    } else if kind == 3 {
      NamespaceCanonical(b);
      HeadersCanonical(ParseNamespace(b).rest, limits);
    } else {
      NameCanonical(b);
      FiltersCanonical(ParseName(b).rest, limits);
    }
  }

  lemma ReportDecodes(f: Frame, limits: FrameLimits, rest: Bytes)
    requires (f.Acknowledge? || f.DeliveryResult?) && EncBody(f, limits).Ok?
    ensures ParseBody(KindOf(f), EncBody(f, limits).value + rest, limits) == Done(f, rest)
  {
    hide ParseHello, ParseWelcome, ParseHeaders, ParseFilters, ParseMessage, ParseName, ParseNamespace, ParseText;
    var e := EncBody(f, limits).value;
    assert e + rest == f.id + ([e[16]] + rest);
    assert (e + rest)[16..] == [e[16]] + rest;
  }

  lemma ReportCanonical(kind: u8, b: Bytes, limits: FrameLimits)
    requires (kind == 11 || kind == 12) && ParseBody(kind, b, limits).Done?
    ensures var f := ParseBody(kind, b, limits).value;
      && KindOf(f) == kind && EncBody(f, limits).Ok?
      && b == EncBody(f, limits).value + ParseBody(kind, b, limits).rest
  {
    hide ParseHello, ParseWelcome, ParseHeaders, ParseFilters, ParseMessage, ParseName, ParseNamespace, ParseText;
    assert b == b[..16] + ([b[16]] + b[17..]);
  }

  lemma ControlDecodes(f: Frame, limits: FrameLimits, rest: Bytes)
    requires (f.ProtocolError? || f.ControlResult?) && EncBody(f, limits).Ok?
    ensures ParseBody(KindOf(f), EncBody(f, limits).value + rest, limits) == Done(f, rest)
  {
    hide ParseHello, ParseWelcome, ParseHeaders, ParseFilters, ParseMessage, ParseName, ParseNamespace,
         EncText, ParseText, Utf8.Valid;
    if f.ProtocolError? {
      assert EncBody(f, limits).value + rest == [ErrorCodeTag(f.code)] + (EncText(f.text).value + rest);
      TextDecodes(f.text, rest);
    }
  }

  lemma ControlCanonical(kind: u8, b: Bytes, limits: FrameLimits)
    requires (kind == 7 || kind == 8) && ParseBody(kind, b, limits).Done?
    ensures var f := ParseBody(kind, b, limits).value;
      && KindOf(f) == kind && EncBody(f, limits).Ok?
      && b == EncBody(f, limits).value + ParseBody(kind, b, limits).rest
  {
    hide ParseHello, ParseWelcome, ParseHeaders, ParseFilters, ParseMessage, ParseName, ParseNamespace,
         EncText, ParseText, Utf8.Valid;
    assert b == [b[0]] + b[1..];
    if kind == 7 {
      TextCanonical(b[1..]);
    }
  }

  lemma BodyDecodes(f: Frame, limits: FrameLimits, rest: Bytes)
    requires EncBody(f, limits).Ok?
    ensures ParseBody(KindOf(f), EncBody(f, limits).value + rest, limits) == Done(f, rest)
  {
    hide ParseHello, EncMessage, ParseMessage, ParseNamespaceResolved, EncText, EncName, ParseName, ParseNamespace,
         Utf8.Valid;
    match f
    case Hello(_, _, _) => HelloDecodes(f, limits, rest);
    case UnsubscribeFrame(channel) => NameDecodes(channel, rest);
    case MessageFrame(m) => MessageDecodes(m, limits, rest);
    case ResolveNamespace(namespace) => NamespaceDecodes(namespace, rest);
    case NamespaceResolved(_, _) => ResolvedDecodes(f, limits, rest);
    case Welcome(_, _) => NamedBlockDecodes(f, limits, rest);
    case ClaimFrame(_, _) => NamedBlockDecodes(f, limits, rest);
    case SubscribeFrame(_, _) => NamedBlockDecodes(f, limits, rest);
    case ProtocolError(_, _) => ControlDecodes(f, limits, rest);
    case ControlResult(_) => ControlDecodes(f, limits, rest);
    case _ => ReportDecodes(f, limits, rest);
  }

  lemma BodyCanonical(kind: u8, b: Bytes, limits: FrameLimits)
    requires ParseBody(kind, b, limits).Done?
    ensures var f := ParseBody(kind, b, limits).value;
      && KindOf(f) == kind && EncBody(f, limits).Ok?
      && b == EncBody(f, limits).value + ParseBody(kind, b, limits).rest
  {
    hide ParseHello, EncMessage, ParseMessage, ParseNamespaceResolved, EncText, EncName, ParseName, ParseNamespace,
         Utf8.Valid;
    match kind
    case 1 => HelloCanonical(b, limits);
    case 5 => NameCanonical(b);
    case 6 => MessageCanonical(b, limits);
    case 9 => NamespaceCanonical(b);
    case 10 => ResolvedCanonical(b, limits);
    case 2 => NamedBlockCanonical(kind, b, limits);
    case 3 => NamedBlockCanonical(kind, b, limits);
    case 4 => NamedBlockCanonical(kind, b, limits);
    case 7 => ControlCanonical(kind, b, limits);
    case 8 => ControlCanonical(kind, b, limits);
    case _ => ReportCanonical(kind, b, limits);
  }

  // ---------- Packets ----------

  /** Every frame that can be encoded is decoded back, under the same limits. */
  lemma DecodeInvertsEncode(f: Frame, limits: FrameLimits)
    requires Encode(f, limits).Ok?
    ensures Decode(Encode(f, limits).value, limits) == Ok(f)
  {
    hide EncBody, ParseBody, U32;
    var body := EncBody(f, limits).value;
    var packet := Encode(f, limits).value;
    assert packet[8..12] + [] == U32(|body|) + [];
    U32Decodes(|body|, []);
    assert packet[..4] == [0x42, 0x55, 0x53, 0x31];
    assert packet[HEADER_SIZE..] == body == body + [];
    BodyDecodes(f, limits, []);
  }

  /** Every packet that is accepted is the encoding of the frame it stands for. */
  lemma EncodeInvertsDecode(packet: Bytes, limits: FrameLimits)
    requires Decode(packet, limits).Ok?
    ensures Encode(Decode(packet, limits).value, limits) == Ok(packet)
  {
    hide EncBody, ParseBody, U32, ParseU32;
    var f, body := Decode(packet, limits).value, packet[HEADER_SIZE..];
    BodyCanonical(packet[5], body, limits);
    assert ParseBody(packet[5], body, limits) == Done(f, []);
    assert body == EncBody(f, limits).value;
    var length := packet[8..12];
    U32Length(length);
    U32Canonical(length);
    assert length == U32(|body|) by {
      assert U32(|body|) + [] == U32(|body|);
    }
    assert packet[..8] == [0x42, 0x55, 0x53, 0x31, VERSION, KindOf(f), 0, 0] by {
      assert packet[..8] == packet[..4] + packet[4..8];
    }
    assert packet == packet[..8] + length + body;
  }

  lemma U32Length(b: Bytes)
    requires |b| == 4
    ensures ParseU32(b).Done? && ParseU32(b).rest == []
  {
  }

  /** So no two packets stand for one frame. */
  lemma DecodeIsInjective(p: Bytes, q: Bytes, limits: FrameLimits)
    requires Decode(p, limits).Ok? && Decode(p, limits) == Decode(q, limits)
    ensures p == q
  {
    EncodeInvertsDecode(p, limits);
    EncodeInvertsDecode(q, limits);
  }
}
