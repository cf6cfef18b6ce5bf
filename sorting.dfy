/**
 * Python's `sorted` on the finite lists the scripts sort: an insertion sort
 * by a strict total order, and Python's own order on strings.
 */
module Sorting {

  ghost predicate StrictTotalOrder<T(!new)>(before: (T, T) -> bool)
  {
    && (forall x :: !before(x, x))
    && (forall x, y, z :: before(x, y) && before(y, z) ==> before(x, z))
    && (forall x, y :: x != y ==> before(x, y) || before(y, x))
  }

  /** No element is strictly before an element to its left. */
  ghost predicate SortedBy<T>(s: seq<T>, before: (T, T) -> bool)
  {
    forall i, j :: 0 <= i < j < |s| ==> !before(s[j], s[i])
  }

  function Insert<T>(x: T, s: seq<T>, before: (T, T) -> bool): (r: seq<T>)
    ensures multiset(r) == multiset(s) + multiset{x}
    ensures |r| == |s| + 1
  {
    if s == [] then [x]
    else if before(s[0], x) then
      assert s == [s[0]] + s[1..];
      [s[0]] + Insert(x, s[1..], before)
    else [x] + s
  }

  /** `sorted(s)`: the elements of `s`, rearranged in order. */
  function Sort<T>(s: seq<T>, before: (T, T) -> bool): (r: seq<T>)
    ensures multiset(r) == multiset(s)
    ensures |r| == |s|
  {
    if s == [] then []
    else
      assert s == [s[0]] + s[1..];
      Insert(s[0], Sort(s[1..], before), before)
  }

  lemma {:induction false} InsertSorted<T(!new)>(x: T, s: seq<T>, before: (T, T) -> bool)
    requires StrictTotalOrder(before)
    requires SortedBy(s, before)
    ensures SortedBy(Insert(x, s, before), before)
  {
    if s != [] {
      var r := Insert(x, s, before);
      if before(s[0], x) {
        var t := Insert(x, s[1..], before);
        InsertSorted(x, s[1..], before);
        assert r == [s[0]] + t;
        forall j | 0 < j < |r| ensures !before(r[j], r[0]) {
          assert r[j] in multiset(t);
          assert r[j] in multiset(s[1..]) + multiset{x};
          if r[j] != x {
            assert r[j] in s[1..];
            var k :| 0 <= k < |s[1..]| && s[1..][k] == r[j];
            assert s[k + 1] == r[j];
          }
        }
      } else {
        assert r == [x] + s;
        forall j | 0 < j < |r| ensures !before(r[j], r[0]) {
          assert r[j] == s[j - 1];
          assert !before(s[j - 1], s[0]);
        }
      }
    }
  }

  /** The result of `Sort` is in order. */
  lemma {:induction false} SortSorted<T(!new)>(s: seq<T>, before: (T, T) -> bool)
    requires StrictTotalOrder(before)
    ensures SortedBy(Sort(s, before), before)
  {
    if s != [] {
      SortSorted(s[1..], before);
      InsertSorted(s[0], Sort(s[1..], before), before);
    }
  }

  ghost predicate Distinct<T>(s: seq<T>)
  {
    forall i, j :: 0 <= i < j < |s| ==> s[i] != s[j]
  }

  lemma {:induction false} InsertDistinct<T>(x: T, s: seq<T>, before: (T, T) -> bool)
    requires Distinct(s) && x !in s
    ensures Distinct(Insert(x, s, before))
  {
    if s != [] && before(s[0], x) {
      var t := Insert(x, s[1..], before);
      assert x !in s[1..];
      InsertDistinct(x, s[1..], before);
      assert s[0] !in s[1..];
      assert s[0] !in multiset(s[1..]) + multiset{x};
      assert s[0] !in t;
      assert Insert(x, s, before) == [s[0]] + t;
    }
  }

  /** Sorting a sequence without repetitions gives one without repetitions. */
  lemma {:induction false} SortDistinct<T>(s: seq<T>, before: (T, T) -> bool)
    requires Distinct(s)
    ensures Distinct(Sort(s, before))
  {
    if s != [] {
      SortDistinct(s[1..], before);
      assert s[0] !in s[1..];
      assert s[0] !in multiset(Sort(s[1..], before));
      InsertDistinct(s[0], Sort(s[1..], before), before);
    }
  }

  /** A sorted sequence without repetitions is strictly increasing. */
  lemma SortedStrict<T(!new)>(s: seq<T>, before: (T, T) -> bool)
    requires StrictTotalOrder(before) && SortedBy(s, before) && Distinct(s)
    ensures forall i, j :: 0 <= i < j < |s| ==> before(s[i], s[j])
  {
  }

  /** In a sorted sequence every element of a prefix comes no later than every element after it. */
  lemma SortedSplit<T>(s: seq<T>, k: nat, before: (T, T) -> bool)
    requires SortedBy(s, before) && k <= |s|
    ensures forall x, y :: x in s[..k] && y in s[k..] ==> !before(y, x)
  {
    forall x, y | x in s[..k] && y in s[k..] ensures !before(y, x) {
      var i :| 0 <= i < k && s[..k][i] == x;
      var j :| 0 <= j < |s| - k && s[k..][j] == y;
      assert s[i] == x && s[k + j] == y;
    }
  }

  /** An element of a sequence that is not in a prefix is in the rest. */
  lemma NotInPrefix<T>(s: seq<T>, k: nat, x: T)
    requires k <= |s| && x in s && x !in s[..k]
    ensures x in s[k..]
  {
    assert s == s[..k] + s[k..];
  }

  // ---------------------------------------------------------------------
  // Python's order on strings: code point by code point, a prefix first
  // ---------------------------------------------------------------------

  predicate StringBefore(a: string, b: string)
  {
    if a == [] then b != []
    else if b == [] then false
    else a[0] < b[0] || (a[0] == b[0] && StringBefore(a[1..], b[1..]))
  }

  lemma {:induction false} StringBeforeIrreflexive(a: string)
    ensures !StringBefore(a, a)
  {
    if a != [] {
      StringBeforeIrreflexive(a[1..]);
    }
  }

  lemma {:induction false} StringBeforeTransitive(a: string, b: string, c: string)
    requires StringBefore(a, b) && StringBefore(b, c)
    ensures StringBefore(a, c)
  {
    if a != [] && b != [] && c != [] && a[0] == b[0] && b[0] == c[0] {
      StringBeforeTransitive(a[1..], b[1..], c[1..]);
    }
  }

  lemma {:induction false} StringBeforeTotal(a: string, b: string)
    requires a != b
    ensures StringBefore(a, b) || StringBefore(b, a)
  {
    if a != [] && b != [] && a[0] == b[0] {
      assert a == [a[0]] + a[1..] && b == [b[0]] + b[1..];
      StringBeforeTotal(a[1..], b[1..]);
    }
  }

  lemma StringOrder()
    ensures StrictTotalOrder(StringBefore)
  {
    forall a ensures !StringBefore(a, a) {
      StringBeforeIrreflexive(a);
    }
    forall a, b, c | StringBefore(a, b) && StringBefore(b, c) ensures StringBefore(a, c) {
      StringBeforeTransitive(a, b, c);
    }
    forall a, b | a != b ensures StringBefore(a, b) || StringBefore(b, a) {
      StringBeforeTotal(a, b);
    }
  }
}
