/**
 Byte strings under the bytewise lexicographic order, which is the order of the
 broker's and codec's sorted collections (message identifiers, header names,
 capabilities, namespaces and encoded filters).
 */
module Order {

  type byte = x: int | 0 <= x < 256
  type Bytes = seq<byte>

  /** Strict bytewise lexicographic order; a proper prefix comes first. */
  predicate Less(a: Bytes, b: Bytes)
    decreases |a|
  {
    |b| > 0 &&
    (|a| == 0 || a[0] < b[0] || (a[0] == b[0] && Less(a[1..], b[1..])))
  }

  lemma {:induction false} LessIsTotal(a: Bytes, b: Bytes)
    ensures a == b || Less(a, b) || Less(b, a)
    decreases |a|
  {
    if |a| > 0 && |b| > 0 && a[0] == b[0] {
      LessIsTotal(a[1..], b[1..]);
      if a[1..] == b[1..] {
        assert a == [a[0]] + a[1..] == [b[0]] + b[1..] == b;
      }
    }
  }

  lemma {:induction false} LessIsAsymmetric(a: Bytes, b: Bytes)
    requires Less(a, b)
    ensures !Less(b, a) && a != b
    decreases |a|
  {
    if |a| > 0 && a[0] == b[0] {
      LessIsAsymmetric(a[1..], b[1..]);
    }
  }

  lemma {:induction false} LessIsTransitive(a: Bytes, b: Bytes, c: Bytes)
    requires Less(a, b) && Less(b, c)
    ensures Less(a, c)
    decreases |a|
  {
    if |a| > 0 && a[0] == b[0] == c[0] {
      LessIsTransitive(a[1..], b[1..], c[1..]);
    }
  }

  /** The order of dictionaries: a proper prefix first, otherwise by the first byte that differs. */
  lemma {:induction false} LessIsLexicographic(a: Bytes, b: Bytes)
    ensures Less(a, b) <==>
      || (|a| < |b| && b[..|a|] == a)
      || exists i :: 0 <= i < |a| && i < |b| && a[..i] == b[..i] && a[i] < b[i]
    decreases |a|
  {
    if |a| > 0 && |b| > 0 {
      var c, d := a[1..], b[1..];
      LessIsLexicographic(c, d);
      assert a == [a[0]] + c && b == [b[0]] + d;
      if a[0] == b[0] {
        if Less(c, d) {
          if i :| 0 <= i < |c| && i < |d| && c[..i] == d[..i] && c[i] < d[i] {
            assert a[..i + 1] == [a[0]] + c[..i] && b[..i + 1] == [b[0]] + d[..i] && a[i + 1] < b[i + 1];
          } else {
            assert b[..|a|] == [b[0]] + d[..|c|];
          }
        }
        if |a| < |b| && b[..|a|] == a {
          assert d[..|c|] == b[..|a|][1..] == c;
        }
        if i :| 0 <= i < |a| && i < |b| && a[..i] == b[..i] && a[i] < b[i] {
          assert c[..i - 1] == a[..i][1..] && d[..i - 1] == b[..i][1..] && c[i - 1] < d[i - 1];
        }
      } else {
        assert a[..0] == b[..0];
        assert forall i :: 0 < i <= |a| && i <= |b| ==> a[..i][0] == a[0] && b[..i][0] == b[0];
      }
    }
  }

  /** True when `k` is a least element of `s`. */
  predicate IsMin(k: Bytes, s: set<Bytes>)
  {
    k in s && forall x :: x in s && x != k ==> Less(k, x)
  }

  lemma {:induction false} MinExists(s: set<Bytes>)
    requires s != {}
    ensures exists k :: IsMin(k, s)
    decreases |s|
  {
    var x :| x in s;
    var rest := s - {x};
    if rest == {} {
      assert s == {x};
      assert IsMin(x, s);
    } else {
      MinExists(rest);
      var k :| IsMin(k, rest);
      LessIsTotal(x, k);
      if Less(k, x) {
        assert IsMin(k, s);
      } else {
        forall y | y in s && y != x ensures Less(x, y) {
          if y != k {
            LessIsTransitive(x, k, y);
          }
        }
        assert IsMin(x, s);
      }
    }
  }

  lemma MinIsUnique(s: set<Bytes>, a: Bytes, b: Bytes)
    requires IsMin(a, s) && IsMin(b, s)
    ensures a == b
  {
    if a != b {
      LessIsAsymmetric(a, b);
    }
  }

  /** The least element of a non-empty set: where a sorted iteration starts. */
  function Min(s: set<Bytes>): (k: Bytes)
    requires s != {}
    ensures IsMin(k, s)
  {
    MinExists(s);
    assert forall a, b | IsMin(a, s) && IsMin(b, s) :: a == b by {
      forall a, b | IsMin(a, s) && IsMin(b, s) ensures a == b {
        MinIsUnique(s, a, b);
      }
    }
    var k :| IsMin(k, s) && k in s;
    k
  }

  lemma MinOf(s: set<Bytes>, k: Bytes)
    requires IsMin(k, s)
    ensures Min(s) == k
  {
    MinIsUnique(s, Min(s), k);
  }

  /** The least of a non-empty set of numbers. */
  function Least(s: set<int>): (k: int)
    requires s != {}
    ensures k in s && forall x :: x in s ==> k <= x
  {
    LeastExists(s);
    var k :| k in s && forall x :: x in s ==> k <= x;
    k
  }

  lemma {:induction false} LeastExists(s: set<int>)
    requires s != {}
    ensures exists k :: k in s && forall x :: x in s ==> k <= x
    decreases |s|
  {
    if forall x :: x !in s {
      assert false;
    }
    var x :| x in s;
    var rest := s - {x};
    var best := x;
    if rest != {} {
      LeastExists(rest);
      var k :| k in rest && forall y :: y in rest ==> k <= y;
      best := if x < k then x else k;
    }
    assert forall y :: y in s ==> y == x || y in rest;
    assert best in s && forall y :: y in s ==> best <= y;
  }
}
