/**
 The BUS/1-preview packet layout in plain bytes, and that the encoder writes, and
 the decoder reads, exactly the packets laid out so.
 */
module Layout {
  import opened Order
  import opened Results
  import opened Protocol
  import opened Encoding
  import opened Decoding
  import opened RoundTrip
  import Utf8

  // ---------- Numbers, text and binary data ----------

  /** Big-endian numbers. */
  predicate IsU16(b: Bytes, n: nat) { |b| == 2 && b[0] as int * 256 + b[1] == n }

  predicate IsU32(b: Bytes, n: nat)
  {
    |b| == 4 && b[0] as int * 16_777_216 + b[1] as int * 65_536 + b[2] as int * 256 + b[3] == n
  }

  predicate IsU64(b: Bytes, n: nat)
  {
    && |b| == 8
    && b[0] as int * 72_057_594_037_927_936 + b[1] as int * 281_474_976_710_656 + b[2] as int * 1_099_511_627_776
       + b[3] as int * 4_294_967_296 + b[4] as int * 16_777_216 + b[5] as int * 65_536 + b[6] as int * 256 + b[7] == n
  }

  /** A length in two bytes and then the bytes; names and namespaces are written so too. */
  predicate IsText(b: Bytes, s: Bytes) { |b| == 2 + |s| && IsU16(b[..2], |s|) && b[2..] == s }

  predicate IsBinary(b: Bytes, s: Bytes) { |b| == 4 + |s| && IsU32(b[..4], |s|) && b[4..] == s }

  /** 1 to 255 visible ASCII characters, none of them `/`. */
  predicate NameOk(s: Bytes)
  {
    1 <= |s| <= 255 && forall i :: 0 <= i < |s| ==> 32 < s[i] < 127 && s[i] != 47
  }

  lemma U16Layout(b: Bytes, n: u16)
    ensures IsU16(b, n) <==> b == U16(n)
  {
  }

  lemma U32Layout(b: Bytes, n: u32)
    ensures IsU32(b, n) <==> b == U32(n)
  {
    if |b| == 4 {
      U16Layout(b[..2], n / 0x1_0000);
      U16Layout(b[2..], n % 0x1_0000);
      assert b == b[..2] + b[2..];
      Digits16(n, b[0] as int * 256 + b[1], b[2] as int * 256 + b[3]);
    }
  }

  lemma U64Layout(b: Bytes, n: u64)
    ensures IsU64(b, n) <==> b == U64(n)
  {
    hide U32;
    assert |U32(n / 0x1_0000_0000)| == 4 && |U32(n % 0x1_0000_0000)| == 4 by {
      U32Layout(U32(n / 0x1_0000_0000), n / 0x1_0000_0000);
      U32Layout(U32(n % 0x1_0000_0000), n % 0x1_0000_0000);
    }
    if |b| == 8 {
      U32Layout(b[..4], n / 0x1_0000_0000);
      U32Layout(b[4..], n % 0x1_0000_0000);
      assert b == b[..4] + b[4..];
      var high := b[0] as int * 16_777_216 + b[1] as int * 65_536 + b[2] as int * 256 + b[3];
      var low := b[4] as int * 16_777_216 + b[5] as int * 65_536 + b[6] as int * 256 + b[7];
      Digits32(n, high, low);
    }
  }

  lemma Digits16(n: nat, high: nat, low: nat)
    requires low < 65_536
    ensures high * 65_536 + low == n <==> high == n / 65_536 && low == n % 65_536
  {
  }

  lemma Digits32(n: nat, high: nat, low: nat)
    requires low < 4_294_967_296
    ensures high * 4_294_967_296 + low == n <==> high == n / 4_294_967_296 && low == n % 4_294_967_296
  {
  }

  lemma TextLayout(b: Bytes, s: Bytes)
    ensures IsText(b, s) <==> EncText(s) == Ok(b)
  {
    hide U16;
    if |b| >= 2 {
      assert b == b[..2] + b[2..];
      if |s| <= U16_MAX {
        U16Layout(b[..2], |s|);
      }
    }
    if |s| <= U16_MAX {
      U16Layout(U16(|s|), |s|);
    }
  }

  lemma NameLayout(b: Bytes, s: Bytes)
    ensures NameOk(s) && IsText(b, s) <==> EncName(s) == Ok(b)
  {
    hide EncText, IsText;
    TextLayout(b, s);
  }

  lemma BinaryLayout(b: Bytes, s: Bytes)
    ensures IsBinary(b, s) <==> EncBinary(s) == Ok(b)
  {
    hide U32;
    if |b| >= 4 {
      assert b == b[..4] + b[4..];
      if |s| <= U32_MAX {
        U32Layout(b[..4], |s|);
      }
    }
    if |s| <= U32_MAX {
      U32Layout(U32(|s|), |s|);
    }
  }

  // ---------- Headers, capabilities and filters ----------

  /** A tag and the value. */
  predicate IsValue(b: Bytes, v: HeaderValue)
  {
    match v
    case TextValue(s) => |b| >= 1 && b[0] == 0 && IsText(b[1..], s)
    case UnsignedValue(n) => |b| == 9 && b[0] == 1 && IsU64(b[1..], n)
    case BooleanValue(flag) => b == [2, if flag then 1 else 0]
    case BinaryValue(s) => |b| >= 1 && b[0] == 3 && IsBinary(b[1..], s)
  }

  lemma ValueLayout(b: Bytes, v: HeaderValue)
    ensures IsValue(b, v) <==> EncValue(v) == Ok(b)
  {
    hide IsText, EncText, IsU64, U64, IsBinary, EncBinary;
    if |b| >= 1 {
      assert b == [b[0]] + b[1..];
      match v
      case TextValue(s) => TextLayout(b[1..], s);
      case UnsignedValue(n) =>
        U64Layout(b[1..], n);
        U64IsEight(n);
      case BooleanValue(_) =>
      case BinaryValue(s) => BinaryLayout(b[1..], s);
    }
  }

  lemma U64IsEight(n: u64)
    ensures |U64(n)| == 8
  {
  }

  /** The name and then the value. */
  predicate IsEntry(b: Bytes, name: Bytes, value: HeaderValue)
  {
    2 + |name| <= |b| && IsText(b[..2 + |name|], name) && IsValue(b[2 + |name|..], value)
  }

  lemma EntryLayout(b: Bytes, name: Bytes, value: HeaderValue)
    ensures NameOk(name) && IsEntry(b, name, value) <==> EncEntry(name, value) == Ok(b)
  {
    hide NameOk, IsValue, EncName, EncValue;
    var n := 2 + |name|;
    if n <= |b| {
      assert b == b[..n] + b[n..];
      NameLayout(b[..n], name);
      ValueLayout(b[n..], value);
    }
    if EncName(name).Ok? {
      NameLayout(EncName(name).value, name);
    }
    if EncValue(value).Ok? {
      ValueLayout(EncValue(value).value, value);
    }
  }

  predicate Ascending(names: seq<Bytes>)
  {
    forall i, j :: 0 <= i < j < |names| ==> Less(names[i], names[j])
  }

  /** The entries of a header map, ascending by name, one for each name. */
  ghost predicate EntriesListed(b: Bytes, h: Headers, names: seq<Text>, pieces: seq<Bytes>)
  {
    && |names| == |pieces| == |h| && Ascending(names) && (forall n :: n in names <==> n in h)
    && (forall i :: 0 <= i < |names| ==> names[i] in h && IsEntry(pieces[i], names[i], h[names[i]]))
    && b == Concat(pieces)
  }

  ghost predicate IsEntries(b: Bytes, h: Headers)
  {
    exists names, pieces :: EntriesListed(b, h, names, pieces)
  }

  ghost predicate NamesOk(names: set<Text>)
  {
    forall n :: n in names ==> NameOk(n)
  }

  lemma {:induction false} EntriesRead(b: Bytes, h: Headers, names: seq<Text>, pieces: seq<Bytes>)
    requires EntriesListed(b, h, names, pieces) && NamesOk(h.Keys)
    ensures EncEntries(h) == Ok(b)
    decreases |h|
  {
    hide IsEntry, EncEntry, NameOk, Less, Utf8.Valid;
    if names == [] {
      assert h == map[];
    } else {
      var first := names[0];
      assert first in h;
      assert IsMin(first, h.Keys) by {
        forall x | x in h.Keys && x != first ensures Less(first, x) {
          assert x in names;
        }
      }
      MinOf(h.Keys, first);
      EntryLayout(pieces[0], first, h[first]);
      var rest := h - {first};
      FirstListed(h, names);
      EntriesRead(Concat(pieces[1..]), rest, names[1..], pieces[1..]);
    }
  }

  lemma FirstListed(h: Headers, names: seq<Text>)
    requires names != [] && |names| == |h| && Ascending(names) && forall n :: n in names <==> n in h
    ensures var rest := h - {names[0]};
      |rest| == |h| - 1 && Ascending(names[1..]) && forall n :: n in names[1..] <==> n in rest
  {
    hide Utf8.Valid;
    var first := names[0];
    var rest := h - {first};
    assert first in names;
    assert rest.Keys == h.Keys - {first};
    forall n ensures n in names[1..] <==> n in rest {
      if n in names[1..] {
        var i :| 0 <= i < |names| - 1 && names[1..][i] == n;
        assert n in names;
        LessIsAsymmetric(first, names[i + 1]);
      }
      if n in rest {
        assert n in names;
      }
    }
  }

  lemma {:induction false} EntriesWritten(h: Headers)
    requires EncEntries(h).Ok?
    ensures IsEntries(EncEntries(h).value, h) && NamesOk(h.Keys)
    decreases |h|
  {
    hide IsEntry, EncEntry, NameOk, Less, Utf8.Valid;
    if h == map[] {
      assert EntriesListed([], h, [], []);
    } else {
      var first: Text := Min(h.Keys);
      var rest := h - {first};
      assert rest.Keys == h.Keys - {first};
      EntriesWritten(rest);
      var names, pieces :| EntriesListed(EncEntries(rest).value, rest, names, pieces);
      var piece := EncEntry(first, h[first]).value;
      EntryLayout(piece, first, h[first]);
      OneMoreListed(h, first, piece, names, pieces);
      assert EntriesListed(EncEntries(h).value, h, [first] + names, [piece] + pieces);
    }
  }

  lemma OneMoreListed(h: Headers, first: Text, piece: Bytes, names: seq<Text>, pieces: seq<Bytes>)
    requires IsMin(first, h.Keys) && IsEntry(piece, first, h[first])
    requires EntriesListed(Concat(pieces), h - {first}, names, pieces)
    ensures EntriesListed(piece + Concat(pieces), h, [first] + names, [piece] + pieces)
  {
    hide IsEntry, Less, Utf8.Valid, Ascending, IsMin;
    var rest, ps := h - {first}, [piece] + pieces;
    assert first in h && rest.Keys == h.Keys - {first} by { MinIsKey(h, first); }
    assert ps[1..] == pieces;
    OneMoreAscending(first, names, rest.Keys, h.Keys);
    OneMoreKey(h, first, names);
    OneMoreEntry(h, first, piece, names, pieces);
  }

  lemma MinIsKey(h: Headers, first: Text)
    requires IsMin(first, h.Keys)
    ensures first in h && (h - {first}).Keys == h.Keys - {first}
  {
    hide Less, Utf8.Valid;
  }

  lemma OneMoreKey(h: Headers, first: Text, names: seq<Text>)
    requires first in h && |names| == |h - {first}| && forall n :: n in names <==> n in h - {first}
    ensures |[first] + names| == |h| && forall n :: n in [first] + names <==> n in h
  {
    hide Utf8.Valid;
    var rest := h - {first};
    assert rest.Keys == h.Keys - {first};
    forall n: Text ensures n in [first] + names <==> n in h {
      assert n in [first] + names <==> n == first || n in names;
      assert n in rest <==> n in h && n != first;
    }
  }

  lemma OneMoreEntry(h: Headers, first: Text, piece: Bytes, names: seq<Text>, pieces: seq<Bytes>)
    requires first in h && IsEntry(piece, first, h[first]) && |names| == |pieces|
    requires var rest := h - {first};
      forall i :: 0 <= i < |names| ==> names[i] in rest && IsEntry(pieces[i], names[i], rest[names[i]])
    ensures var ns, ps := [first] + names, [piece] + pieces;
      forall i :: 0 <= i < |ns| ==> ns[i] in h && IsEntry(ps[i], ns[i], h[ns[i]])
  {
    hide IsEntry, Utf8.Valid;
    var rest, ns, ps := h - {first}, [first] + names, [piece] + pieces;
    forall i | 0 <= i < |ns| ensures ns[i] in h && IsEntry(ps[i], ns[i], h[ns[i]]) {
      if i > 0 {
        assert names[i - 1] in rest && IsEntry(pieces[i - 1], names[i - 1], rest[names[i - 1]]);
      }
    }
  }

  lemma OneMoreAscending(first: Bytes, names: seq<Bytes>, rest: set<Bytes>, all: set<Bytes>)
    requires Ascending(names) && IsMin(first, all) && rest == all - {first} && forall n :: n in names ==> n in rest
    ensures Ascending([first] + names)
  {
    hide Less;
    var ns := [first] + names;
    forall i, j | 0 <= i < j < |ns| ensures Less(ns[i], ns[j]) {
      assert names[j - 1] in names;
    }
  }

  /** The number of headers in two bytes, then the entries. */
  ghost predicate IsHeaders(b: Bytes, h: Headers)
  {
    |b| >= 2 && IsU16(b[..2], |h|) && IsEntries(b[2..], h)
  }

  ghost predicate HeadersOk(h: Headers, limits: FrameLimits)
  {
    |h| <= limits.maximumHeaders && NamesOk(h.Keys)
  }

  lemma EntriesLayout(b: Bytes, h: Headers)
    ensures IsEntries(b, h) && NamesOk(h.Keys) <==> EncEntries(h) == Ok(b)
  {
    hide EntriesListed, EncEntries, NamesOk;
    if IsEntries(b, h) && NamesOk(h.Keys) {
      var names, pieces :| EntriesListed(b, h, names, pieces);
      EntriesRead(b, h, names, pieces);
    }
    if EncEntries(h).Ok? {
      EntriesWritten(h);
    }
  }

  lemma HeadersLayout(b: Bytes, h: Headers, limits: FrameLimits)
    ensures IsHeaders(b, h) && HeadersOk(h, limits) <==> EncHeaders(h, limits) == Ok(b)
  {
    hide IsEntries, EncEntries, NamesOk, U16;
    if |b| >= 2 {
      assert b == b[..2] + b[2..];
      EntriesLayout(b[2..], h);
      if |h| <= U16_MAX {
        U16Layout(b[..2], |h|);
      }
    }
    if |h| <= U16_MAX {
      U16Layout(U16(|h|), |h|);
    }
  }

  /** The names of a set, ascending, each once. */
  ghost predicate NamesListed(b: Bytes, s: Capabilities, names: seq<Text>, pieces: seq<Bytes>)
  {
    && |names| == |pieces| == |s| && Ascending(names) && (forall n :: n in names <==> n in s)
    && (forall i :: 0 <= i < |names| ==> IsText(pieces[i], names[i]))
    && b == Concat(pieces)
  }

  ghost predicate IsNames(b: Bytes, s: Capabilities)
  {
    exists names, pieces :: NamesListed(b, s, names, pieces)
  }

  lemma {:induction false} NamesRead(b: Bytes, s: Capabilities, names: seq<Text>, pieces: seq<Bytes>)
    requires NamesListed(b, s, names, pieces) && NamesOk(s)
    ensures EncNames(s) == Ok(b)
    decreases |s|
  {
    hide IsText, EncName, NameOk, Less, Utf8.Valid;
    if names == [] {
      assert s == {};
    } else {
      var first := names[0];
      assert first in names;
      assert IsMin(first, s) by {
        forall x | x in s && x != first ensures Less(first, x) {
          assert x in names;
        }
      }
      MinOf(s, first);
      NameLayout(pieces[0], first);
      FirstNamed(s, names);
      NamesRead(Concat(pieces[1..]), s - {first}, names[1..], pieces[1..]);
    }
  }

  lemma FirstNamed(s: Capabilities, names: seq<Text>)
    requires names != [] && |names| == |s| && Ascending(names) && forall n :: n in names <==> n in s
    ensures var rest := s - {names[0]};
      |rest| == |s| - 1 && Ascending(names[1..]) && forall n :: n in names[1..] <==> n in rest
  {
    hide Utf8.Valid;
    var first := names[0];
    var rest := s - {first};
    assert first in names;
    forall n ensures n in names[1..] <==> n in rest {
      if n in names[1..] {
        var i :| 0 <= i < |names| - 1 && names[1..][i] == n;
        assert n in names;
        LessIsAsymmetric(first, names[i + 1]);
      }
      if n in rest {
        assert n in names;
      }
    }
  }

  lemma {:induction false} NamesWritten(s: Capabilities)
    requires EncNames(s).Ok?
    ensures IsNames(EncNames(s).value, s) && NamesOk(s)
    decreases |s|
  {
    hide IsText, EncName, NameOk, Less, Utf8.Valid;
    if s == {} {
      assert NamesListed([], s, [], []);
    } else {
      var first: Text := Min(s);
      NamesWritten(s - {first});
      var names, pieces :| NamesListed(EncNames(s - {first}).value, s - {first}, names, pieces);
      var piece := EncName(first).value;
      NameLayout(piece, first);
      OneMoreNamed(s, first, piece, names, pieces);
      assert NamesListed(EncNames(s).value, s, [first] + names, [piece] + pieces);
    }
  }

  lemma OneMoreNamed(s: Capabilities, first: Text, piece: Bytes, names: seq<Text>, pieces: seq<Bytes>)
    requires IsMin(first, s) && IsText(piece, first)
    requires NamesListed(Concat(pieces), s - {first}, names, pieces)
    ensures NamesListed(piece + Concat(pieces), s, [first] + names, [piece] + pieces)
  {
    hide IsText, Less, Utf8.Valid, Ascending;
    var ns, ps := [first] + names, [piece] + pieces;
    assert ps[1..] == pieces;
    OneMoreAscending(first, names, s - {first}, s);
    forall n: Text ensures n in ns <==> n in s {
      assert n in ns <==> n == first || n in names;
    }
  }

  /** The number of capabilities in two bytes, then their names. */
  ghost predicate IsCapabilities(b: Bytes, s: Capabilities)
  {
    |b| >= 2 && IsU16(b[..2], |s|) && IsNames(b[2..], s)
  }

  ghost predicate CapabilitiesOk(s: Capabilities, limits: FrameLimits)
  {
    |s| <= limits.maximumCapabilities && NamesOk(s)
  }

  lemma NamesLayout(b: Bytes, s: Capabilities)
    ensures IsNames(b, s) && NamesOk(s) <==> EncNames(s) == Ok(b)
  {
    hide NamesListed, EncNames, NamesOk;
    if IsNames(b, s) && NamesOk(s) {
      var names, pieces :| NamesListed(b, s, names, pieces);
      NamesRead(b, s, names, pieces);
    }
    if EncNames(s).Ok? {
      NamesWritten(s);
    }
  }

  lemma CapabilitiesLayout(b: Bytes, s: Capabilities, limits: FrameLimits)
    ensures IsCapabilities(b, s) && CapabilitiesOk(s, limits) <==> EncCapabilities(s, limits) == Ok(b)
  {
    hide IsNames, EncNames, NamesOk, U16;
    if |b| >= 2 {
      assert b == b[..2] + b[2..];
      NamesLayout(b[2..], s);
      if |s| <= U16_MAX {
        U16Layout(b[..2], |s|);
      }
    }
    if |s| <= U16_MAX {
      U16Layout(U16(|s|), |s|);
    }
  }

  /** A tag, the name and, where the filter has one, the value. */
  predicate IsFilter(b: Bytes, f: HeaderFilter)
  {
    && |b| >= 1
    && b[0] == (match f case Exists(_) => 0 case NotExists(_) => 1 case Equal(_, _) => 2 case NotEqual(_, _) => 3
                case Prefix(_, _) => 4)
    && if f.Exists? || f.NotExists? then IsText(b[1..], f.name) else IsEntry(b[1..], f.name, f.value)
  }

  lemma FilterLayout(b: Bytes, f: HeaderFilter)
    ensures NameOk(f.name) && IsFilter(b, f) <==> EncFilter(f) == Ok(b)
  {
    hide IsText, NameOk, EncName, EncValue, IsEntry;
    if |b| >= 1 {
      assert b == [b[0]] + b[1..];
      if f.Exists? || f.NotExists? {
        NameLayout(b[1..], f.name);
      } else {
        EntryLayout(b[1..], f.name, f.value);
        if EncName(f.name).Ok? && EncValue(f.value).Ok? {
          var n, v := EncName(f.name).value, EncValue(f.value).value;
          assert [FilterTag(f)] + n + v == [FilterTag(f)] + (n + v);
        }
      }
    }
  }

  ghost predicate FiltersListed(b: Bytes, filters: seq<HeaderFilter>, pieces: seq<Bytes>)
  {
    && |pieces| == |filters| && (forall i :: 0 <= i < |filters| ==> IsFilter(pieces[i], filters[i]))
    && (forall i :: 0 <= i < |pieces| - 1 ==> Less(pieces[i], pieces[i + 1]))
    && b == Concat(pieces)
  }

  /** The number of filters in two bytes, then the filters in ascending order of their own bytes. */
  ghost predicate IsFilters(b: Bytes, filters: seq<HeaderFilter>)
  {
    |b| >= 2 && IsU16(b[..2], |filters|) && exists pieces :: FiltersListed(b[2..], filters, pieces)
  }

  ghost predicate FiltersOk(filters: seq<HeaderFilter>, limits: FrameLimits)
  {
    |filters| <= limits.maximumFilters && forall f :: f in filters ==> NameOk(f.name)
  }

  lemma {:induction false} EachLayout(filters: seq<HeaderFilter>, pieces: seq<Bytes>)
    ensures EncEach(filters) == Ok(pieces) <==>
      && |pieces| == |filters|
      && forall i :: 0 <= i < |filters| ==> NameOk(filters[i].name) && IsFilter(pieces[i], filters[i])
  {
    hide EncFilter, IsFilter, NameOk;
    if filters != [] {
      if EncFilter(filters[0]).Ok? {
        FilterLayout(EncFilter(filters[0]).value, filters[0]);
      }
      if pieces != [] {
        FilterLayout(pieces[0], filters[0]);
        EachLayout(filters[1..], pieces[1..]);
        assert pieces == [pieces[0]] + pieces[1..];
        EachSplits(filters, pieces);
      }
    }
  }

  lemma EachSplits(filters: seq<HeaderFilter>, pieces: seq<Bytes>)
    requires filters != [] && pieces != []
    ensures (forall i :: 0 <= i < |filters| && i < |pieces| ==> NameOk(filters[i].name) && IsFilter(pieces[i], filters[i])) <==>
      && NameOk(filters[0].name) && IsFilter(pieces[0], filters[0])
      && forall i :: 0 <= i < |filters| - 1 && i < |pieces| - 1 ==>
           NameOk(filters[1..][i].name) && IsFilter(pieces[1..][i], filters[1..][i])
  {
    hide NameOk, IsFilter;
    if forall i :: 0 <= i < |filters| - 1 && i < |pieces| - 1 ==>
           NameOk(filters[1..][i].name) && IsFilter(pieces[1..][i], filters[1..][i])
    {
      forall i | 1 <= i < |filters| && i < |pieces| ensures NameOk(filters[i].name) && IsFilter(pieces[i], filters[i]) {
        assert filters[1..][i - 1] == filters[i] && pieces[1..][i - 1] == pieces[i];
      }
    }
  }

  lemma FiltersLayout(b: Bytes, filters: seq<HeaderFilter>, limits: FrameLimits)
    ensures IsFilters(b, filters) && FiltersOk(filters, limits) <==> EncFilters(filters, limits) == Ok(b)
  {
    hide EncEach, IsFilter, NameOk, U16, Less;
    if IsFilters(b, filters) && FiltersOk(filters, limits) {
      var pieces :| FiltersListed(b[2..], filters, pieces);
      assert forall i :: 0 <= i < |filters| ==> filters[i] in filters;
      EachLayout(filters, pieces);
      U16Layout(b[..2], |filters|);
      assert b == b[..2] + b[2..];
    }
    if EncFilters(filters, limits) == Ok(b) {
      var pieces := EncEach(filters).value;
      EachLayout(filters, pieces);
      U16Layout(U16(|pieces|), |pieces|);
      assert b[..2] == U16(|pieces|) && b[2..] == Concat(pieces);
      assert FiltersListed(b[2..], filters, pieces);
    }
  }

  // ---------- The message envelope ----------

  function RequirementSize(a: AckRequirement): nat { if a.Minimum? then 3 else 1 }

  predicate IsRequirement(b: Bytes, a: AckRequirement)
  {
    match a
    case NoneRequired => b == [0]
    case AnyOne => b == [1]
    case AllOf => b == [2]
    case Minimum(n) => |b| == 3 && b[0] == 3 && IsU16(b[1..], n) && n != 0
  }

  lemma RequirementLayout(b: Bytes, a: AckRequirement)
    ensures IsRequirement(b, a) <==> EncAckRequirement(a) == Ok(b)
    ensures IsRequirement(b, a) ==> |b| == RequirementSize(a)
  {
    hide U16, IsU16;
    if a.Minimum? {
      U16IsTwo(a.count);
      if |b| >= 1 {
        assert b == [b[0]] + b[1..];
        U16Layout(b[1..], a.count);
      }
    }
  }

  lemma U16IsTwo(n: u16)
    ensures |U16(n)| == 2
  {
  }

  function RetrySize(r: RetryPolicy): nat { if r.Exponential? then 6 else 1 }

  predicate IsRetry(b: Bytes, r: RetryPolicy)
  {
    match r
    case NoRetry => b == [0]
    case Exponential(initial, max) =>
      && |b| == 6 && b[0] == 1 && IsU32(b[1..5], initial) && b[5] == max
      && initial != 0 && max >= 2
  }

  lemma RetryLayout(b: Bytes, r: RetryPolicy)
    ensures IsRetry(b, r) <==> EncRetry(r) == Ok(b)
    ensures IsRetry(b, r) ==> |b| == RetrySize(r)
  {
    hide U32, IsU32;
    if r.Exponential? {
      U32IsFour(r.initialBackoff);
      if |b| == 6 {
        assert b == [b[0]] + b[1..5] + [b[5]];
        U32Layout(b[1..5], r.initialBackoff);
      }
    }
  }

  lemma U32IsFour(n: u32)
    ensures |U32(n)| == 4
  {
  }

  function DestinationSize(d: Destination): nat
  {
    match d
    case ToBroker => 1
    case ToPeer(_) => 9
    case ToNamespace(n) => 3 + |n|
    case ToChannel(ch) => 3 + |ch|
    case Broadcast => 1
    case ToClient(id, _) => 4 + |id|
  }

  /** A selector and what it needs. */
  predicate IsDestination(b: Bytes, d: Destination)
  {
    && |b| == DestinationSize(d)
    && match d
       case ToBroker => b[0] == 0
       case ToPeer(p) => b[0] == 1 && IsU64(b[1..], p) && p != 0
       case ToNamespace(n) => b[0] == 2 && IsText(b[1..], n)
       case ToChannel(ch) => b[0] == 3 && IsText(b[1..], ch)
       case Broadcast => b[0] == 4
       case ToClient(id, selection) =>
         && b[0] == 5 && IsText(b[1..3 + |id|], id)
         && b[3 + |id|] == match selection case First => 0 case Any => 1 case All => 2
  }

  lemma DestinationLayout(b: Bytes, d: Destination)
    ensures IsDestination(b, d) <==> EncDestination(d) == Ok(b)
  {
    hide IsText, EncText, EncName, U64, IsU64, ValidNamespace, ValidName;
    if |b| >= 1 {
      assert b == [b[0]] + b[1..];
      match d
      case ToPeer(p) =>
        U64Layout(b[1..], p);
        U64IsEight(p);
      case ToNamespace(n) =>
        TextLayout(b[1..], n);
        TextIsLonger(b[1..], n);
      case ToChannel(ch) =>
        ValidIsOk(ch);
        NameLayout(b[1..], ch);
        TextIsLonger(b[1..], ch);
      case ToClient(id, selection) => ClientLayout(b, id, selection);
      case _ => assert |b| == 1 ==> b == [b[0]];
    }
  }

  lemma TextIsLonger(b: Bytes, s: Bytes)
    ensures IsText(b, s) ==> |b| == 2 + |s|
  {
  }

  lemma ValidIsOk(s: Bytes)
    ensures ValidName(s) <==> NameOk(s)
  {
  }

  lemma ClientLayout(b: Bytes, id: ClientId, selection: ClientSelection)
    ensures IsDestination(b, ToClient(id, selection)) <==> EncDestination(ToClient(id, selection)) == Ok(b)
  {
    hide IsText, EncName, ValidName;
    ValidIsOk(id);
    var n := 3 + |id|;
    if |b| == n + 1 {
      assert b == [b[0]] + b[1..n] + [b[n]];
      NameLayout(b[1..n], id);
    }
    if EncName(id).Ok? {
      NameLayout(EncName(id).value, id);
      TextIsLonger(EncName(id).value, id);
    }
  }

  function OptionsSize(m: Message): nat { 2 + RequirementSize(m.ackRequirement) + 5 + RetrySize(m.retry) }

  /** Kind, acknowledgement policy and requirement, request policy, deadline, retry policy. */
  predicate IsOptions(b: Bytes, m: Message)
  {
    var i := 2 + RequirementSize(m.ackRequirement);
    && |b| == OptionsSize(m)
    && b[0] == (match m.kind case Signal => 0 case Request => 1 case Response => 2)
    && b[1] == (match m.ackPolicy case NoAck => 0 case Accepted => 1 case Received => 2 case Processed => 3)
    && IsRequirement(b[2..i], m.ackRequirement)
    && b[i] == (match m.requestPolicy case Exact => 0 case First => 1 case FirstSuccess => 2 case AllResponses => 3)
    && IsU32(b[i + 1..i + 5], m.deadline)
    && IsRetry(b[i + 5..], m.retry)
  }

  lemma OptionsLayout(b: Bytes, m: Message)
    ensures IsOptions(b, m) <==> EncOptions(m) == Ok(b)
  {
    hide IsRequirement, EncAckRequirement, IsRetry, EncRetry, IsU32, U32;
    var i := 2 + RequirementSize(m.ackRequirement);
    U32IsFour(m.deadline);
    if |b| == OptionsSize(m) {
      assert b == [b[0], b[1]] + b[2..i] + [b[i]] + b[i + 1..i + 5] + b[i + 5..];
      RequirementLayout(b[2..i], m.ackRequirement);
      U32Layout(b[i + 1..i + 5], m.deadline);
      RetryLayout(b[i + 5..], m.retry);
    }
    if EncOptions(m) == Ok(b) {
      var requirement, retry := EncAckRequirement(m.ackRequirement).value, EncRetry(m.retry).value;
      RequirementLayout(requirement, m.ackRequirement);
      RetryLayout(retry, m.retry);
      assert b[2..i] == requirement && b[i + 1..i + 5] == U32(m.deadline) && b[i + 5..] == retry;
    }
  }

  function EnvelopeSize(m: Message): nat { OptionsSize(m) + DestinationSize(m.destination) + 33 }

  /** The options, the destination, the two identifiers and the status. */
  predicate IsEnvelope(b: Bytes, m: Message)
  {
    var j := OptionsSize(m);
    var k := j + DestinationSize(m.destination);
    && |b| == EnvelopeSize(m)
    && IsOptions(b[..j], m) && IsDestination(b[j..k], m.destination)
    && b[k..k + 16] == m.id && b[k + 16..k + 32] == m.correlationId
    && b[k + 32] == (match m.status
                     case Success => 0 case Error => 1 case Unsupported => 2 case Denied => 3 case Busy => 4 case NotFound => 5)
  }

  lemma EnvelopeLayout(b: Bytes, m: Message)
    ensures IsEnvelope(b, m) <==> EncEnvelope(m) == Ok(b)
  {
    hide IsOptions, EncOptions, IsDestination, EncDestination, OptionsSize, DestinationSize;
    var j := OptionsSize(m);
    var k := j + DestinationSize(m.destination);
    if |b| == EnvelopeSize(m) {
      assert b == b[..j] + b[j..k] + b[k..k + 16] + b[k + 16..k + 32] + [b[k + 32]];
      OptionsLayout(b[..j], m);
      DestinationLayout(b[j..k], m.destination);
    }
    if EncEnvelope(m) == Ok(b) {
      var options, destination := EncOptions(m).value, EncDestination(m.destination).value;
      OptionsLayout(options, m);
      DestinationLayout(destination, m.destination);
      EnvelopeSizes(options, destination, m);
      assert b[..j] == options && b[j..k] == destination;
    }
  }

  lemma EnvelopeSizes(options: Bytes, destination: Bytes, m: Message)
    ensures IsOptions(options, m) ==> |options| == OptionsSize(m)
    ensures IsDestination(destination, m.destination) ==> |destination| == DestinationSize(m.destination)
  {
  }

  /** The envelope, the headers and the payload. */
  ghost predicate IsMessage(b: Bytes, m: Message)
  {
    var e := EnvelopeSize(m);
    var p := |b| - 4 - |m.payload|;
    e <= p && IsEnvelope(b[..e], m) && IsHeaders(b[e..p], m.headers) && IsBinary(b[p..], m.payload)
  }

  /** An identifier that is not absent. */
  predicate Present(id: MessageId) { exists i :: 0 <= i < 16 && id[i] != 0 }

  lemma PresentIsNotAbsent(id: MessageId)
    ensures Present(id) <==> id != Absent()
  {
  }

  /** The rules on the options of a message. */
  predicate MessageOk(m: Message)
  {
    var wantsAck := m.ackPolicy == AckPolicy.Received || m.ackPolicy == AckPolicy.Processed;
    && (wantsAck <==> m.ackRequirement != NoneRequired)
    && (wantsAck || m.kind == Request ==> m.deadline > 0)
    && (m.retry.Exponential? ==> wantsAck || m.kind == Request)
    && (m.kind != Request ==> m.requestPolicy == Exact)
    && (m.kind == Response ==> m.deadline == 0 && m.retry == NoRetry && Present(m.correlationId))
    && (m.kind != Response ==> m.status == Success && !Present(m.correlationId))
    && Present(m.id)
  }

  lemma RulesMeaning(m: Message)
    ensures CheckOptions(m).None? && CheckIdentity(m).None? <==> MessageOk(m)
  {
    hide Present;
    PresentIsNotAbsent(m.id);
    PresentIsNotAbsent(m.correlationId);
  }

  lemma MessageLayout(b: Bytes, m: Message, limits: FrameLimits)
    ensures IsMessage(b, m) && MessageOk(m) && HeadersOk(m.headers, limits) <==> EncMessage(m, limits) == Ok(b)
  {
    hide IsEnvelope, EncEnvelope, EnvelopeSize, IsHeaders, HeadersOk, EncHeaders, IsBinary, EncBinary, MessageOk, CheckOptions,
         CheckIdentity;
    RulesMeaning(m);
    var e := EnvelopeSize(m);
    var p := |b| - 4 - |m.payload|;
    if e <= p {
      assert b == b[..e] + b[e..p] + b[p..];
      EnvelopeLayout(b[..e], m);
      HeadersLayout(b[e..p], m.headers, limits);
      BinaryLayout(b[p..], m.payload);
    }
    if EncMessage(m, limits) == Ok(b) {
      var envelope, headers, payload := EncEnvelope(m).value, EncHeaders(m.headers, limits).value, EncBinary(m.payload).value;
      EnvelopeLayout(envelope, m);
      BinaryLayout(payload, m.payload);
      HeadersLayout(headers, m.headers, limits);
      MessageSizes(envelope, payload, m);
      assert b[..e] == envelope && b[e..p] == headers && b[p..] == payload;
    }
  }

  lemma MessageSizes(envelope: Bytes, payload: Bytes, m: Message)
    ensures IsEnvelope(envelope, m) ==> |envelope| == EnvelopeSize(m)
    ensures IsBinary(payload, m.payload) ==> |payload| == 4 + |m.payload|
  {
  }

  // ---------- Bodies ----------

  predicate IsOptionalName(b: Bytes, id: Option<ClientId>)
  {
    match id case None => b == [0] case Some(name) => |b| == 3 + |name| && b[0] == 1 && IsText(b[1..], name)
  }

  lemma OptionalNameLayout(b: Bytes, id: Option<ClientId>)
    ensures IsOptionalName(b, id) <==> EncOptionalName(id) == Ok(b)
  {
    hide IsText, EncName, ValidName;
    if id.Some? {
      ValidIsOk(id.value);
      if |b| >= 1 {
        assert b == [b[0]] + b[1..];
        NameLayout(b[1..], id.value);
        TextIsLonger(b[1..], id.value);
      }
    }
  }

  predicate IsOwner(b: Bytes, owner: Option<PeerId>)
  {
    match owner case None => b == [0] case Some(p) => |b| == 9 && b[0] == 1 && IsU64(b[1..], p) && p != 0
  }

  lemma OwnerLayout(b: Bytes, owner: Option<PeerId>)
    ensures IsOwner(b, owner) <==> EncOwner(owner) == Ok(b)
  {
    hide IsU64, U64;
    if owner.Some? {
      U64IsEight(owner.value);
      if |b| >= 1 {
        assert b == [b[0]] + b[1..];
        U64Layout(b[1..], owner.value);
      }
    }
  }

  /** The body of each kind of frame. */
  ghost predicate IsBody(b: Bytes, f: Frame)
  {
    match f
    case Hello(id, headers, capabilities) =>
      exists i, j :: 0 <= i <= j <= |b|
                     && IsOptionalName(b[..i], id) && IsHeaders(b[i..j], headers) && IsCapabilities(b[j..], capabilities)
    case Welcome(peer, capabilities) => |b| >= 8 && IsU64(b[..8], peer) && peer != 0 && IsCapabilities(b[8..], capabilities)
    case ClaimFrame(namespace, headers) =>
      var i := 2 + |namespace|; |b| >= i && IsText(b[..i], namespace) && IsHeaders(b[i..], headers)
    case SubscribeFrame(channel, filters) =>
      var i := 2 + |channel|; |b| >= i && IsText(b[..i], channel) && IsFilters(b[i..], filters)
    case UnsubscribeFrame(channel) => IsText(b, channel)
    case MessageFrame(m) => IsMessage(b, m)
    case ProtocolError(code, text) =>
      && |b| >= 1 && IsText(b[1..], text)
      && b[0] == (match code
                  case MalformedFrame => 0 case UnsupportedVersion => 1 case UnknownFrameKind => 2 case LimitExceeded => 3
                  case NonCanonical => 4 case InvalidState => 5 case NoRecipient => 6)
    case ControlResult(operation) => b == [match operation case Claim => 0 case Subscribe => 1 case Unsubscribe => 2]
    case ResolveNamespace(namespace) => IsText(b, namespace)
    case NamespaceResolved(namespace, owner) =>
      var i := 2 + |namespace|; |b| >= i && IsText(b[..i], namespace) && IsOwner(b[i..], owner)
    case Acknowledge(id, policy) =>
      && |b| == 17 && b[..16] == id && Present(id)
      && ((b[16] == 2 && policy == AckPolicy.Received) || (b[16] == 3 && policy == AckPolicy.Processed))
    case DeliveryResult(id, outcome) =>
      && |b| == 17 && b[..16] == id && Present(id)
      && b[16] == (match outcome
                   case Accepted => 0 case Received => 1 case Processed => 2 case Timeout => 3 case NoRecipient => 4
                   case RecipientDisconnected => 5 case DeliveryFailed => 6)
  }

  /** What is asked of a frame besides its layout: valid names, counts within the limits, and the message rules. */
  ghost predicate FrameOk(f: Frame, limits: FrameLimits)
  {
    match f
    case Hello(_, headers, capabilities) => HeadersOk(headers, limits) && CapabilitiesOk(capabilities, limits)
    case Welcome(_, capabilities) => CapabilitiesOk(capabilities, limits)
    case ClaimFrame(_, headers) => HeadersOk(headers, limits)
    case SubscribeFrame(_, filters) => FiltersOk(filters, limits)
    case MessageFrame(m) => MessageOk(m) && HeadersOk(m.headers, limits)
    case _ => true
  }

  lemma HelloLayout(b: Bytes, f: Frame, limits: FrameLimits)
    requires f.Hello?
    ensures IsBody(b, f) && FrameOk(f, limits) <==> EncBody(f, limits) == Ok(b)
  {
    hide IsOptionalName, EncOptionalName, IsHeaders, HeadersOk, EncHeaders, IsCapabilities, CapabilitiesOk, EncCapabilities;
    if IsBody(b, f) && FrameOk(f, limits) {
      var i, j :| 0 <= i <= j <= |b| && IsOptionalName(b[..i], f.clientId) && IsHeaders(b[i..j], f.headers)
                  && IsCapabilities(b[j..], f.capabilities);
      OptionalNameLayout(b[..i], f.clientId);
      HeadersLayout(b[i..j], f.headers, limits);
      CapabilitiesLayout(b[j..], f.capabilities, limits);
      assert b == b[..i] + b[i..j] + b[j..];
    }
    if EncBody(f, limits) == Ok(b) {
      var n, h := EncOptionalName(f.clientId).value, EncHeaders(f.headers, limits).value;
      var c := EncCapabilities(f.capabilities, limits).value;
      OptionalNameLayout(n, f.clientId);
      HeadersLayout(h, f.headers, limits);
      CapabilitiesLayout(c, f.capabilities, limits);
      var i, j := |n|, |n| + |h|;
      assert b[..i] == n && b[i..j] == h && b[j..] == c;
    }
  }

  lemma RegistrationLayout(b: Bytes, f: Frame, limits: FrameLimits)
    requires f.Welcome? || f.ClaimFrame? || f.SubscribeFrame? || f.UnsubscribeFrame?
    ensures IsBody(b, f) && FrameOk(f, limits) <==> EncBody(f, limits) == Ok(b)
  {
    hide IsText, EncText, EncName, IsHeaders, HeadersOk, EncHeaders, IsCapabilities, CapabilitiesOk, EncCapabilities,
         IsFilters, FiltersOk, EncFilters, IsU64, U64, ValidName, ValidNamespace;
    match f
    case Welcome(peer, capabilities) =>
      U64IsEight(peer);
      if |b| >= 8 {
        assert b == b[..8] + b[8..];
        U64Layout(b[..8], peer);
        CapabilitiesLayout(b[8..], capabilities, limits);
      }
    case ClaimFrame(namespace, headers) =>
      var i := 2 + |namespace|;
      if |b| >= i {
        assert b == b[..i] + b[i..];
        TextLayout(b[..i], namespace);
        HeadersLayout(b[i..], headers, limits);
      }
      if EncText(namespace).Ok? {
        TextLayout(EncText(namespace).value, namespace);
        TextIsLonger(EncText(namespace).value, namespace);
      }
    case SubscribeFrame(channel, filters) =>
      var i := 2 + |channel|;
      ValidIsOk(channel);
      if |b| >= i {
        assert b == b[..i] + b[i..];
        NameLayout(b[..i], channel);
        FiltersLayout(b[i..], filters, limits);
      }
      if EncName(channel).Ok? {
        NameLayout(EncName(channel).value, channel);
        TextIsLonger(EncName(channel).value, channel);
      }
    case UnsubscribeFrame(channel) =>
      ValidIsOk(channel);
      NameLayout(b, channel);
  }

  lemma ReplyLayout(b: Bytes, f: Frame, limits: FrameLimits)
    requires f.ProtocolError? || f.ControlResult? || f.ResolveNamespace? || f.NamespaceResolved?
    ensures IsBody(b, f) && FrameOk(f, limits) <==> EncBody(f, limits) == Ok(b)
  {
    hide IsText, EncText, IsOwner, EncOwner, ValidNamespace;
    match f
    case ProtocolError(code, text) =>
      if |b| >= 1 {
        assert b == [b[0]] + b[1..];
        TextLayout(b[1..], text);
      }
    case ControlResult(operation) =>
    case ResolveNamespace(namespace) => TextLayout(b, namespace);
    case NamespaceResolved(namespace, owner) =>
      var i := 2 + |namespace|;
      if |b| >= i {
        assert b == b[..i] + b[i..];
        TextLayout(b[..i], namespace);
        OwnerLayout(b[i..], owner);
      }
      if EncText(namespace).Ok? {
        TextLayout(EncText(namespace).value, namespace);
        TextIsLonger(EncText(namespace).value, namespace);
      }
  }

  lemma ReportLayout(b: Bytes, f: Frame, limits: FrameLimits)
    requires f.Acknowledge? || f.DeliveryResult?
    ensures IsBody(b, f) && FrameOk(f, limits) <==> EncBody(f, limits) == Ok(b)
  {
    hide Present;
    PresentIsNotAbsent(f.id);
    if |b| == 17 {
      assert b == b[..16] + [b[16]];
    }
  }

  lemma BodyLayout(b: Bytes, f: Frame, limits: FrameLimits)
    ensures IsBody(b, f) && FrameOk(f, limits) <==> EncBody(f, limits) == Ok(b)
  {
    if f.Hello? {
      HelloLayout(b, f, limits);
    } else if f.Welcome? || f.ClaimFrame? || f.SubscribeFrame? || f.UnsubscribeFrame? {
      RegistrationLayout(b, f, limits);
    } else if f.MessageFrame? {
      hide IsMessage, MessageOk, HeadersOk, EncMessage;
      MessageLayout(b, f.message, limits);
    } else if f.Acknowledge? || f.DeliveryResult? {
      ReportLayout(b, f, limits);
    } else {
      ReplyLayout(b, f, limits);
    }
  }

  // ---------- Packets ----------

  /** `BUS1`, the version, the kind, two zero bytes, the length of the body, the body. */
  ghost predicate IsPacket(p: Bytes, f: Frame)
  {
    && |p| >= 12
    && p[0] == 0x42 && p[1] == 0x55 && p[2] == 0x53 && p[3] == 0x31 && p[4] == 3
    && p[5] == (match f
                case Hello(_, _, _) => 1 case Welcome(_, _) => 2 case ClaimFrame(_, _) => 3 case SubscribeFrame(_, _) => 4
                case UnsubscribeFrame(_) => 5 case MessageFrame(_) => 6 case ProtocolError(_, _) => 7
                case ControlResult(_) => 8 case ResolveNamespace(_) => 9 case NamespaceResolved(_, _) => 10
                case Acknowledge(_, _) => 11 case DeliveryResult(_, _) => 12)
    && p[6] == 0 && p[7] == 0 && IsU32(p[8..12], |p| - 12)
    && IsBody(p[12..], f)
  }

  /** The encoder writes exactly the packet so laid out, for the frames that are in order and fit. */
  lemma EncodedPackets(p: Bytes, f: Frame, limits: FrameLimits)
    ensures Encode(f, limits) == Ok(p) <==> IsPacket(p, f) && FrameOk(f, limits) && |p| <= limits.maximumFrameSize
  {
    hide IsBody, FrameOk, EncBody, U32, IsU32;
    if |p| >= 12 {
      assert p == p[..8] + p[8..12] + p[12..];
      BodyLayout(p[12..], f, limits);
      if |p| - 12 <= U32_MAX {
        U32Layout(p[8..12], |p| - 12);
        U32IsFour(|p| - 12);
      }
      U32IsBounded(p[8..12], |p| - 12);
      if IsPacket(p, f) {
        assert p[..8] == [0x42, 0x55, 0x53, 0x31, VERSION, KindOf(f), 0, 0];
      }
    }
    if Encode(f, limits) == Ok(p) {
      var body := EncBody(f, limits).value;
      U32IsFour(|body|);
      assert p[12..] == body && p[8..12] == U32(|body|) && |p| == 12 + |body|;
    }
  }

  lemma U32IsBounded(b: Bytes, n: nat)
    ensures IsU32(b, n) ==> n <= U32_MAX
  {
  }

  /** The decoder reads a packet as a frame exactly when it is laid out so, in order and not too large. */
  lemma DecodedPackets(p: Bytes, f: Frame, limits: FrameLimits)
    ensures Decode(p, limits) == Ok(f) <==> IsPacket(p, f) && FrameOk(f, limits) && |p| <= limits.maximumFrameSize
  {
    hide Decode, Encode, IsPacket, FrameOk;
    EncodedPackets(p, f, limits);
    if Decode(p, limits) == Ok(f) {
      EncodeInvertsDecode(p, limits);
    }
    if Encode(f, limits) == Ok(p) {
      DecodeInvertsEncode(f, limits);
    }
  }

  /** Why a packet is refused before its body is looked at, first things first. */
  lemma HeaderErrors(p: Bytes, limits: FrameLimits)
    ensures
      if |p| < 12 then Decode(p, limits) == Err(Truncated)
      else if !(p[0] == 0x42 && p[1] == 0x55 && p[2] == 0x53 && p[3] == 0x31) then Decode(p, limits) == Err(InvalidMagic)
      else if p[4] != 3 then Decode(p, limits) == Err(UnsupportedVersionError(p[4]))
      else if p[6] != 0 || p[7] != 0 then Decode(p, limits) == Err(ReservedFlags(p[6] as int * 256 + p[7]))
      else if !IsU32(p[8..12], |p| - 12) then Decode(p, limits) == Err(LengthMismatch)
      else if |p| > limits.maximumFrameSize then Decode(p, limits) == Err(FrameTooLarge)
      else p[5] == 0 || p[5] > 12 ==> Decode(p, limits) == Err(UnknownFrameKindError(p[5]))
  {
    hide ParseHello, ParseWelcome, ParseHeaders, ParseFilters, ParseMessage, ParseName, ParseNamespace, ParseText, ParseId;
  }
}
