/** Sorting by a strict order that is linear on the elements at hand. */
module Sorting {
  ghost predicate Linear<T(!new)>(less: (T, T) -> bool, all: set<T>) {
    && (forall a, b :: a in all && b in all && a != b ==> less(a, b) || less(b, a))
    && (forall a, b :: a in all && b in all && less(a, b) ==> !less(b, a))
    && (forall a, b, c :: a in all && b in all && c in all && less(a, b) && less(b, c) ==> less(a, c))
  }

  ghost predicate NoRepeats<T(!new)>(s: seq<T>) { forall i, k :: 0 <= i < k < |s| ==> s[i] != s[k] }

  ghost predicate Ascending<T(!new)>(less: (T, T) -> bool, s: seq<T>) {
    forall i, k :: 0 <= i < k < |s| ==> less(s[i], s[k])
  }

  function Insert<T>(less: (T, T) -> bool, x: T, s: seq<T>): seq<T> {
    if s == [] then [x] else if less(x, s[0]) then [x] + s else [s[0]] + Insert(less, x, s[1..])
  }

  function Sort<T>(less: (T, T) -> bool, s: seq<T>): seq<T> {
    if s == [] then [] else Insert(less, s[0], Sort(less, s[1..]))
  }

  lemma {:induction false} InsertKeepsOrder<T(!new)>(less: (T, T) -> bool, x: T, s: seq<T>, all: set<T>)
    requires Linear(less, all) && x in all && x !in s && (forall y :: y in s ==> y in all)
    requires Ascending(less, s)
    ensures Ascending(less, Insert(less, x, s))
    ensures forall y :: y in Insert(less, x, s) <==> y == x || y in s
    ensures |Insert(less, x, s)| == |s| + 1
  {
    if s != [] && !less(x, s[0]) {
      InsertKeepsOrder(less, x, s[1..], all);
      var rest := Insert(less, x, s[1..]);
      assert s == [s[0]] + s[1..];
      forall y | y in rest ensures less(s[0], y) {
        if y != x { var k :| 0 <= k < |s[1..]| && s[1..][k] == y; assert s[k + 1] == y; }
      }
    } else if s != [] {
      forall k | 0 <= k < |s| ensures less(x, s[k]) {
        assert k > 0 ==> less(s[0], s[k]);
      }
    }
  }

  /** Sorting gives the same elements in ascending order. */
  lemma {:induction false} SortOrders<T(!new)>(less: (T, T) -> bool, s: seq<T>, all: set<T>)
    requires Linear(less, all) && NoRepeats(s) && (forall y :: y in s ==> y in all)
    ensures Ascending(less, Sort(less, s))
    ensures forall y :: y in Sort(less, s) <==> y in s
    ensures |Sort(less, s)| == |s|
  {
    if s != [] {
      SortOrders(less, s[1..], all);
      assert s == [s[0]] + s[1..];
      InsertKeepsOrder(less, s[0], Sort(less, s[1..]), all);
    }
  }

  ghost function Smaller<T(!new)>(less: (T, T) -> bool, s: seq<T>, x: T): set<T> { set y | y in s && less(y, x) }

  /** In ascending order, the elements before index `k` are exactly the `k` smaller ones. */
  lemma {:induction false} SmallerOnes<T(!new)>(less: (T, T) -> bool, s: seq<T>, all: set<T>, k: nat)
    requires Linear(less, all) && Ascending(less, s) && (forall y :: y in s ==> y in all)
    requires k < |s|
    ensures Smaller(less, s, s[k]) == (set y | y in s[..k])
    ensures |Smaller(less, s, s[k])| == k
  {
    var below, first := Smaller(less, s, s[k]), set y | y in s[..k];
    forall y | y in below ensures y in first {
      var i :| 0 <= i < |s| && s[i] == y;
      assert i < k;
      assert s[..k][i] == y;
    }
    forall y | y in first ensures y in below {
      var i :| 0 <= i < k && s[..k][i] == y;
      assert s[i] == y;
    }
    forall i, j | 0 <= i < j < k ensures s[..k][i] != s[..k][j] {
      assert less(s[i], s[j]) && s[i] in all && s[j] in all;
    }
    Cardinality(s[..k]);
  }

  /** The first `n` are exactly the elements with fewer than `n` smaller ones. */
  lemma FirstOnes<T(!new)>(less: (T, T) -> bool, s: seq<T>, all: set<T>, n: nat, x: T)
    requires Linear(less, all) && Ascending(less, s) && (forall y :: y in s ==> y in all)
    requires n <= |s|
    ensures x in s[..n] <==> x in s && |Smaller(less, s, x)| < n
  {
    if x in s {
      var k :| 0 <= k < |s| && s[k] == x;
      SmallerOnes(less, s, all, k);
      if k < n {
        assert s[..n][k] == x;
      } else {
        forall i | 0 <= i < n ensures s[..n][i] != x { assert less(s[i], s[k]) && s[i] in all && s[k] in all; }
      }
    }
  }

  lemma {:induction false} Cardinality<T(!new)>(s: seq<T>)
    requires NoRepeats(s)
    ensures |set y | y in s| == |s|
  {
    if s != [] {
      var rest := s[..|s| - 1];
      var last := s[|s| - 1];
      assert s == rest + [last];
      Cardinality(rest);
      assert (set y | y in s) == (set y | y in rest) + {last};
      assert last !in rest;
    }
  }

  lemma Fewer<T>(a: set<T>, b: set<T>)
    requires a <= b
    ensures |a| <= |b|
  {
    assert b == a + (b - a);
  }

  /** The elements of a set, in some order. */
  method Elements<T(!new, ==)>(s: set<T>) returns (list: seq<T>)
    ensures NoRepeats(list) && forall x :: x in list <==> x in s
  {
    list := [];
    var rest := s;
    while rest != {}
      invariant rest <= s && NoRepeats(list) && forall x :: x in list <==> x in s && x !in rest
      decreases |rest|
    {
      var x :| x in rest;
      list, rest := list + [x], rest - {x};
    }
  }
}
