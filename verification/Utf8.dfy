/** Well-formed UTF-8, as section 4 of RFC 3629 defines it. */
module Utf8 {
  import opened Order

  predicate Tail(b: byte) { 0x80 <= b <= 0xBF }

  /** The length of the character `s` starts with, or 0 when it starts with none. */
  function CharLength(s: Bytes): (n: nat)
    ensures n <= |s| && n <= 4
  {
    if |s| >= 1 && s[0] <= 0x7F then 1
    else if |s| >= 2 && 0xC2 <= s[0] <= 0xDF && Tail(s[1]) then 2
    else if |s| >= 3 && Tail(s[2])
            && (|| (s[0] == 0xE0 && 0xA0 <= s[1] <= 0xBF)
                || (0xE1 <= s[0] <= 0xEC && Tail(s[1]))
                || (s[0] == 0xED && 0x80 <= s[1] <= 0x9F)
                || (0xEE <= s[0] <= 0xEF && Tail(s[1]))) then 3
    else if |s| >= 4 && Tail(s[2]) && Tail(s[3])
            && (|| (s[0] == 0xF0 && 0x90 <= s[1] <= 0xBF)
                || (0xF1 <= s[0] <= 0xF3 && Tail(s[1]))
                || (s[0] == 0xF4 && 0x80 <= s[1] <= 0x8F)) then 4
    else 0
  }

  predicate Valid(s: Bytes)
    decreases |s|
  {
    s == [] || (CharLength(s) > 0 && Valid(s[CharLength(s)..]))
  }

  lemma {:induction false} AsciiIsValid(s: Bytes)
    requires forall i :: 0 <= i < |s| ==> s[i] <= 0x7F
    ensures Valid(s)
    decreases |s|
  {
    if s != [] {
      AsciiIsValid(s[1..]);
    }
  }

  // ---------- What well-formed bytes stand for ----------

  /** Unicode scalar values: code points other than surrogates. */
  predicate IsScalar(c: int) { 0 <= c <= 0xD7FF || 0xE000 <= c <= 0x10FFFF }

  /** The bytes of one scalar value: leading bits by length, then six bits a byte. */
  function EncodeScalar(c: int): Bytes
    requires IsScalar(c)
  {
    if c < 0x80 then [c]
    else if c < 0x800 then [0xC0 + c / 64, 0x80 + c % 64]
    else if c < 0x1_0000 then [0xE0 + c / 4_096, 0x80 + c / 64 % 64, 0x80 + c % 64]
    else [0xF0 + c / 262_144, 0x80 + c / 4_096 % 64, 0x80 + c / 64 % 64, 0x80 + c % 64]
  }

  ghost predicate AllScalars(cs: seq<int>) { forall i :: 0 <= i < |cs| ==> IsScalar(cs[i]) }

  function EncodeScalars(cs: seq<int>): Bytes
    requires AllScalars(cs)
  {
    if cs == [] then [] else EncodeScalar(cs[0]) + EncodeScalars(cs[1..])
  }

  lemma ScalarIsChar(c: int, rest: Bytes)
    requires IsScalar(c)
    ensures CharLength(EncodeScalar(c) + rest) == |EncodeScalar(c)| > 0
  {
    if 0x800 <= c < 0x1_0000 {
      ThreeIsChar(c, rest);
    } else if c >= 0x1_0000 {
      FourIsChar(c, rest);
    }
  }

  lemma ThreeIsChar(c: int, rest: Bytes)
    requires IsScalar(c) && 0x800 <= c < 0x1_0000
    ensures CharLength(EncodeScalar(c) + rest) == 3
  {
    var s := EncodeScalar(c) + rest;
    var x, y := c / 4_096, c / 64 % 64;
    assert s[0] == 0xE0 + x && s[1] == 0x80 + y && Tail(s[2]);
    assert c / 64 == x * 64 + y;
    assert x == 0 ==> y >= 32;
    assert x == 13 ==> y < 32;
  }

  lemma FourIsChar(c: int, rest: Bytes)
    requires IsScalar(c) && 0x1_0000 <= c
    ensures CharLength(EncodeScalar(c) + rest) == 4
  {
    var s := EncodeScalar(c) + rest;
    var w, x := c / 262_144, c / 4_096 % 64;
    assert s[0] == 0xF0 + w && s[1] == 0x80 + x && Tail(s[2]) && Tail(s[3]);
    assert c / 4_096 == w * 64 + x;
    assert w == 0 ==> x >= 16;
    assert w == 4 ==> x < 16;
  }

  /** The scalar value of the character `s` starts with. */
  function FirstScalar(s: Bytes): int
    requires CharLength(s) > 0
  {
    match CharLength(s)
    case 1 => s[0]
    case 2 => (s[0] - 0xC0) as int * 64 + (s[1] - 0x80)
    case 3 => (s[0] - 0xE0) as int * 4_096 + (s[1] - 0x80) as int * 64 + (s[2] - 0x80)
    case _ => (s[0] - 0xF0) as int * 262_144 + (s[1] - 0x80) as int * 4_096 + (s[2] - 0x80) as int * 64 + (s[3] - 0x80)
  }

  lemma CharIsScalar(s: Bytes)
    requires CharLength(s) > 0
    ensures IsScalar(FirstScalar(s)) && EncodeScalar(FirstScalar(s)) == s[..CharLength(s)]
  {
    var n := CharLength(s);
    if n == 2 {
      Digits2(s[0] - 0xC0, s[1] - 0x80);
    } else if n == 3 {
      ThreeBytes(s);
    } else if n == 4 {
      FourBytes(s);
    }
  }

  lemma Digits2(x: nat, y: nat)
    requires y < 64
    ensures (x * 64 + y) / 64 == x && (x * 64 + y) % 64 == y
  {
  }

  lemma Digits3(x: nat, y: nat, z: nat)
    requires y < 64 && z < 64
    ensures var c := x * 4_096 + y * 64 + z; c / 4_096 == x && c / 64 % 64 == y && c % 64 == z
  {
    var c := x * 4_096 + y * 64 + z;
    assert c == (x * 64 + y) * 64 + z;
    Digits2(x * 64 + y, z);
    Digits2(x, y);
  }

  lemma ThreeBytes(s: Bytes)
    requires CharLength(s) == 3
    ensures IsScalar(FirstScalar(s)) && EncodeScalar(FirstScalar(s)) == s[..3]
  {
    var x: nat, y: nat, z: nat := s[0] - 0xE0, s[1] - 0x80, s[2] - 0x80;
    Digits3(x, y, z);
    assert FirstScalar(s) == x * 4_096 + y * 64 + z;
    assert 0x800 <= FirstScalar(s) < 0x1_0000;
  }

  lemma FourBytes(s: Bytes)
    requires CharLength(s) == 4
    ensures IsScalar(FirstScalar(s)) && EncodeScalar(FirstScalar(s)) == s[..4]
  {
    var w: nat, x: nat, y: nat, z: nat := s[0] - 0xF0, s[1] - 0x80, s[2] - 0x80, s[3] - 0x80;
    var c := w * 262_144 + x * 4_096 + y * 64 + z;
    assert c == (w * 64 + x) * 4_096 + y * 64 + z;
    Digits3(w * 64 + x, y, z);
    Digits2(w, x);
    assert c / 262_144 == w;
    assert FirstScalar(s) == c && 0x1_0000 <= c <= 0x10FFFF;
  }

  /** Well-formed byte strings are exactly the encodings of sequences of scalar values. */
  lemma ValidIsScalars(s: Bytes)
    ensures Valid(s) <==> exists cs :: AllScalars(cs) && EncodeScalars(cs) == s
  {
    if Valid(s) {
      ValidHasScalars(s);
    }
    if cs :| AllScalars(cs) && EncodeScalars(cs) == s {
      ScalarsAreValid(cs);
    }
  }

  lemma {:induction false} ScalarsAreValid(cs: seq<int>)
    requires AllScalars(cs)
    ensures Valid(EncodeScalars(cs))
  {
    hide EncodeScalar, CharLength;
    if cs != [] {
      var rest := EncodeScalars(cs[1..]);
      ScalarsAreValid(cs[1..]);
      ScalarIsChar(cs[0], rest);
      assert (EncodeScalar(cs[0]) + rest)[|EncodeScalar(cs[0])|..] == rest;
    }
  }

  lemma {:induction false} ValidHasScalars(s: Bytes)
    requires Valid(s)
    ensures exists cs :: AllScalars(cs) && EncodeScalars(cs) == s
    decreases |s|
  {
    hide EncodeScalar, CharLength, FirstScalar;
    if s == [] {
      assert AllScalars([]) && EncodeScalars([]) == s;
    } else {
      var n := CharLength(s);
      ValidHasScalars(s[n..]);
      var cs :| AllScalars(cs) && EncodeScalars(cs) == s[n..];
      CharIsScalar(s);
      var all := [FirstScalar(s)] + cs;
      assert all[1..] == cs;
      assert AllScalars(all) && EncodeScalars(all) == s[..n] + s[n..] == s;
    }
  }
}
