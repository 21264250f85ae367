/**
 * Python's ordering of strings (code point by code point, a proper prefix first)
 * and sorting a finite set of keys by a strict total order, as `sorted(d.items())`
 * does for the keys of a dictionary.
 */
module Ordering {

  /** Python's `a < b` on `str`. */
  predicate StrLt(a: string, b: string)
    decreases |a|
  {
    if a == [] then b != []
    else b != [] && (a[0] < b[0] || (a[0] == b[0] && StrLt(a[1..], b[1..])))
  }

  lemma {:induction false} StrLtIrreflexive(a: string)
    ensures !StrLt(a, a)
    decreases |a|
  {
    if a != [] {
      StrLtIrreflexive(a[1..]);
    }
  }

  lemma {:induction false} StrLtTransitive(a: string, b: string, c: string)
    requires StrLt(a, b) && StrLt(b, c)
    ensures StrLt(a, c)
    decreases |a|
  {
    if a != [] && a[0] == b[0] && b[0] == c[0] {
      StrLtTransitive(a[1..], b[1..], c[1..]);
    }
  }

  lemma {:induction false} StrLtTotal(a: string, b: string)
    requires a != b
    ensures StrLt(a, b) || StrLt(b, a)
    decreases |a|
  {
    if a != [] && b != [] && a[0] == b[0] {
      assert a == [a[0]] + a[1..] && b == [b[0]] + b[1..];
      StrLtTotal(a[1..], b[1..]);
    }
  }

  /** `lt` is irreflexive, transitive and relates every two different values. */
  ghost predicate IsStrictTotalOrder<T(!new)>(lt: (T, T) -> bool) {
    (forall a :: !lt(a, a)) &&
    (forall a, b, c :: lt(a, b) && lt(b, c) ==> lt(a, c)) &&
    (forall a, b :: a != b ==> lt(a, b) || lt(b, a))
  }

  lemma StrLtIsStrictTotalOrder()
    ensures IsStrictTotalOrder(StrLt)
  {
    forall a: string ensures !StrLt(a, a) {
      StrLtIrreflexive(a);
    }
    forall a: string, b: string, c: string | StrLt(a, b) && StrLt(b, c) ensures StrLt(a, c) {
      StrLtTransitive(a, b, c);
    }
    forall a: string, b: string | a != b ensures StrLt(a, b) || StrLt(b, a) {
      StrLtTotal(a, b);
    }
  }

  /** Every element comes strictly before every later one. */
  predicate SortedBy<T>(s: seq<T>, lt: (T, T) -> bool) {
    forall i, j :: 0 <= i < j < |s| ==> lt(s[i], s[j])
  }

  /** For a transitive order it is enough that each element precedes the next. */
  lemma {:induction false} SortedByChain<T(!new)>(s: seq<T>, lt: (T, T) -> bool)
    requires IsStrictTotalOrder(lt)
    requires forall i :: 0 <= i < |s| - 1 ==> lt(s[i], s[i + 1])
    ensures SortedBy(s, lt)
    decreases |s|
  {
    if |s| > 1 {
      SortedByChain(s[1..], lt);
      forall j | 1 <= j < |s| ensures lt(s[0], s[j]) {
        if j > 1 {
          assert lt(s[1], s[j]) by { assert s[1..][0] == s[1] && s[1..][j - 1] == s[j]; }
        }
      }
      forall i, j | 0 <= i < j < |s| ensures lt(s[i], s[j]) {
        if i > 0 {
          assert s[1..][i - 1] == s[i] && s[1..][j - 1] == s[j];
        }
      }
    }
  }

  /** Inserts `x` into the sorted `s` before the first element not smaller than it. */
  function InsertBy<T>(s: seq<T>, x: T, lt: (T, T) -> bool): (r: seq<T>)
    decreases |s|
  {
    if s == [] || !lt(s[0], x) then [x] + s else [s[0]] + InsertBy(s[1..], x, lt)
  }

  lemma {:induction false} InsertByElements<T>(s: seq<T>, x: T, lt: (T, T) -> bool)
    ensures |InsertBy(s, x, lt)| == |s| + 1
    ensures forall y :: y in InsertBy(s, x, lt) <==> y in s || y == x
    decreases |s|
  {
    if s != [] && lt(s[0], x) {
      InsertByElements(s[1..], x, lt);
      assert s == [s[0]] + s[1..];
    }
  }

  lemma {:induction false} InsertBySorted<T(!new)>(s: seq<T>, x: T, lt: (T, T) -> bool)
    requires IsStrictTotalOrder(lt)
    requires SortedBy(s, lt)
    requires x !in s
    ensures SortedBy(InsertBy(s, x, lt), lt)
    decreases |s|
  {
    var r := InsertBy(s, x, lt);
    if s == [] || !lt(s[0], x) {
      if s != [] {
        assert s[0] != x;
        assert lt(x, s[0]);
        forall i, j | 0 <= i < j < |r| ensures lt(r[i], r[j]) {
          if i == 0 && j > 1 {
            assert lt(s[0], s[j - 1]);
          }
        }
      }
    } else {
      assert s == [s[0]] + s[1..];
      InsertBySorted(s[1..], x, lt);
      InsertByElements(s[1..], x, lt);
      var t := InsertBy(s[1..], x, lt);
      assert r == [s[0]] + t;
      forall k | 0 <= k < |t| ensures lt(s[0], t[k]) {
        if t[k] != x {
          assert t[k] in s[1..];
          var m :| 0 <= m < |s[1..]| && s[1..][m] == t[k];
          assert s[m + 1] == t[k];
        }
      }
      forall i, j | 0 <= i < j < |r| ensures lt(r[i], r[j]) {
        if i > 0 {
          assert r[i] == t[i - 1] && r[j] == t[j - 1];
        } else {
          assert r[j] == t[j - 1];
        }
      }
    }
  }

  /** A sorted sequence with the elements of `xs`, each once: the order `sorted()` emits them in. */
  method SortSet<T(==,!new)>(xs: set<T>, lt: (T, T) -> bool) returns (r: seq<T>)
    requires IsStrictTotalOrder(lt)
    ensures SortedBy(r, lt)
    ensures |r| == |xs|
    ensures forall x :: x in r <==> x in xs
    ensures r == SortedOf(xs, lt)
  {
    r := [];
    var rest := xs;
    while rest != {}
      invariant SortedBy(r, lt)
      invariant rest !! set x | x in r
      invariant forall x :: x in xs <==> x in rest || x in r
      invariant |r| + |rest| == |xs|
      invariant forall i, j :: 0 <= i < j < |r| ==> r[i] != r[j]
      decreases |rest|
    {
      var x :| x in rest;
      assert x !in r;
      InsertBySorted(r, x, lt);
      InsertByElements(r, x, lt);
      var r' := InsertBy(r, x, lt);
      SortedDistinct(r', lt);
      r := r';
      rest := rest - {x};
    }
    DistinctCard(r, xs);
    SortedUnique(r, SortedOf(xs, lt), lt);
  }

  /** The elements of `xs` in increasing order: what `sorted(xs)` is. */
  ghost function SortedOf<T(!new)>(xs: set<T>, lt: (T, T) -> bool): (r: seq<T>)
    requires IsStrictTotalOrder(lt)
    ensures SortedBy(r, lt)
    ensures forall x :: x in r <==> x in xs
    decreases xs
  {
    if xs == {} then []
    else
      var x :| x in xs;
      var rest := SortedOf(xs - {x}, lt);
      InsertBySorted(rest, x, lt);
      InsertByElements(rest, x, lt);
      InsertBy(rest, x, lt)
  }

  lemma EmptyIfNoElements<T>(s: seq<T>)
    ensures (forall x :: x !in s) ==> s == []
  {
    if s != [] {
      assert s[0] in s;
    }
  }

  /** Past the least element, a sorted sequence holds exactly the other elements. */
  lemma SortedTail<T(!new)>(s: seq<T>, lt: (T, T) -> bool)
    requires IsStrictTotalOrder(lt) && SortedBy(s, lt) && s != []
    ensures SortedBy(s[1..], lt)
    ensures forall x :: x in s[1..] <==> x in s && x != s[0]
  {
    forall x | x in s[1..] ensures x in s && x != s[0] {
      var k :| 0 <= k < |s[1..]| && s[1..][k] == x;
      assert s[k + 1] == x && lt(s[0], s[k + 1]);
    }
    forall x | x in s && x != s[0] ensures x in s[1..] {
      var k :| 0 <= k < |s| && s[k] == x;
      assert s[1..][k - 1] == x;
    }
    forall i, j | 0 <= i < j < |s[1..]| ensures lt(s[1..][i], s[1..][j]) {
      assert s[1..][i] == s[i + 1] && s[1..][j] == s[j + 1];
    }
  }

  /** A strict total order sorts a collection in exactly one way. */
  lemma {:induction false} SortedUnique<T(!new)>(a: seq<T>, b: seq<T>, lt: (T, T) -> bool)
    requires IsStrictTotalOrder(lt) && SortedBy(a, lt) && SortedBy(b, lt)
    requires forall x :: x in a <==> x in b
    ensures a == b
    decreases |a|
  {
    EmptyIfNoElements(a);
    EmptyIfNoElements(b);
    if a != [] && b != [] {
      assert b[0] in a && a[0] in b;
      var i :| 0 <= i < |a| && a[i] == b[0];
      var j :| 0 <= j < |b| && b[j] == a[0];
      assert i == 0 || j == 0;
      assert a[0] == b[0];
      SortedTail(a, lt);
      SortedTail(b, lt);
      SortedUnique(a[1..], b[1..], lt);
      assert a == [a[0]] + a[1..] && b == [b[0]] + b[1..];
    }
  }

  lemma SortedDistinct<T>(s: seq<T>, lt: (T, T) -> bool)
    requires forall a :: !lt(a, a)
    requires SortedBy(s, lt)
    ensures forall i, j :: 0 <= i < j < |s| ==> s[i] != s[j]
  {
  }

  lemma {:induction false} DistinctCard<T>(s: seq<T>, xs: set<T>)
    requires forall i, j :: 0 <= i < j < |s| ==> s[i] != s[j]
    requires forall x :: x in s <==> x in xs
    ensures |s| == |xs|
    decreases |s|
  {
    if s == [] {
      assert xs == {};
    } else {
      var last := s[|s| - 1];
      var init := s[..|s| - 1];
      assert forall x :: x in init ==> x in s;
      assert last !in init;
      assert forall x :: x in init <==> x in xs - {last} by {
        forall x ensures x in init <==> x in xs - {last} {
          if x in s && x != last {
            var k :| 0 <= k < |s| && s[k] == x;
            assert k < |s| - 1;
            assert init[k] == x;
          }
        }
      }
      DistinctCard(init, xs - {last});
    }
  }
}
