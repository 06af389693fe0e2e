/** The deletion-updatable aggregate of an image inventory: the exclusive-or of the
    256-bit fingerprints of its images. */
module ImageInventory {
  /** A 256-bit value as the set of its one bits. */
  type Digest = d: set<nat> | forall i :: i in d ==> i < 256

  const ZERO: Digest := {}

  function Xor(a: Digest, b: Digest): Digest { (a - b) + (b - a) }

  /** One listed image: its UUID and the SHA-256 of its whole projection. */
  datatype Row = Row(id: int, digest: Digest)

  function Aggregate(rows: seq<Row>): Digest {
    if rows == [] then ZERO else Xor(rows[0].digest, Aggregate(rows[1..]))
  }

  /** Exclusive-or of an aggregate with the recorded fingerprints of deleted images. */
  function Without(value: Digest, gone: seq<Row>): Digest
    decreases |gone|
  {
    if gone == [] then value else Without(Xor(value, gone[0].digest), gone[1..])
  }

  lemma XorSwap(a: Digest, b: Digest, c: Digest)
    ensures Xor(a, Xor(b, c)) == Xor(b, Xor(a, c))
  {
  }

  lemma XorAssoc(a: Digest, b: Digest, c: Digest)
    ensures Xor(Xor(a, b), c) == Xor(a, Xor(b, c))
  {
  }

  lemma XorCommutes(a: Digest, b: Digest)
    ensures Xor(a, b) == Xor(b, a) && Xor(a, ZERO) == a
  {
  }

  lemma XorInjective(a: Digest, b: Digest, c: Digest)
    ensures Xor(a, b) == Xor(a, c) ==> b == c
  {
    assert Xor(a, Xor(a, b)) == b && Xor(a, Xor(a, c)) == c;
  }

  /** How many of the listed fingerprints have bit `i`. */
  function Ones(rows: seq<Row>, i: nat): nat {
    if rows == [] then 0 else Ones(rows[1..], i) + if i in rows[0].digest then 1 else 0
  }

  /** A bit of the aggregate is set exactly when an odd number of fingerprints have it. */
  lemma {:induction false} AggregateIsParity(rows: seq<Row>, i: nat)
    ensures i in Aggregate(rows) <==> Ones(rows, i) % 2 == 1
  {
    if rows != [] { AggregateIsParity(rows[1..], i); }
  }

  method InventoryHash(rows: seq<Row>) returns (aggregate: Digest)
    ensures aggregate == Aggregate(rows)
    ensures forall i: nat :: i in aggregate <==> Ones(rows, i) % 2 == 1
  {
    aggregate := ZERO;
    for i := 0 to |rows|
      invariant aggregate == Aggregate(rows[..i])
    {
      assert rows[..i + 1] == rows[..i] + [rows[i]];
      AggregateConcat(rows[..i], [rows[i]]);
      XorCommutes(rows[i].digest, ZERO);
      assert Aggregate([rows[i]]) == Xor(rows[i].digest, Aggregate([]));
      aggregate := Xor(aggregate, rows[i].digest);
    }
    assert rows[..|rows|] == rows;
    forall i: nat ensures i in aggregate <==> Ones(rows, i) % 2 == 1 { AggregateIsParity(rows, i); }
  }

  lemma {:induction false} AggregateConcat(a: seq<Row>, b: seq<Row>)
    ensures Aggregate(a + b) == Xor(Aggregate(a), Aggregate(b))
  {
    if a == [] {
      assert a + b == b;
      XorCommutes(ZERO, Aggregate(b));
      XorCommutes(Aggregate(b), ZERO);
    } else {
      assert (a + b)[1..] == a[1..] + b;
      AggregateConcat(a[1..], b);
      XorAssoc(a[0].digest, Aggregate(a[1..]), Aggregate(b));
    }
  }

  /** One row may be taken out anywhere. */
  lemma TakeOut(rows: seq<Row>, k: nat)
    requires k < |rows|
    ensures Aggregate(rows) == Xor(rows[k].digest, Aggregate(rows[..k] + rows[k + 1..]))
  {
    var a, b := rows[..k], rows[k + 1..];
    assert rows == a + ([rows[k]] + b);
    AggregateConcat(a, [rows[k]] + b);
    AggregateConcat(a, b);
    assert ([rows[k]] + b)[1..] == b;
    XorSwap(Aggregate(a), rows[k].digest, Aggregate(b));
  }

  /** The order in which the provider lists images does not matter. */
  lemma {:induction false} OrderIsIrrelevant(a: seq<Row>, b: seq<Row>)
    requires multiset(a) == multiset(b)
    ensures Aggregate(a) == Aggregate(b)
    decreases |a|
  {
    if a == [] {
      assert |b| == |multiset(b)|;
    } else {
      assert a[0] in multiset(b);
      var k :| 0 <= k < |b| && b[k] == a[0];
      var rest := b[..k] + b[k + 1..];
      assert b == b[..k] + [b[k]] + b[k + 1..];
      assert a == [a[0]] + a[1..];
      assert multiset(a[1..]) == multiset(a) - multiset{a[0]};
      assert multiset(rest) == multiset(b) - multiset{a[0]};
      OrderIsIrrelevant(a[1..], rest);
      TakeOut(b, k);
    }
  }

  /** Removing the fingerprints of deleted images leaves the aggregate of what remains. */
  lemma {:induction false} DeletionUpdates(whole: seq<Row>, gone: seq<Row>, left: seq<Row>)
    requires multiset(whole) == multiset(gone) + multiset(left)
    ensures Without(Aggregate(whole), gone) == Aggregate(left)
  {
    assert multiset(gone + left) == multiset(whole);
    OrderIsIrrelevant(whole, gone + left);
    AggregateConcat(gone, left);
    WithoutAll(gone, Aggregate(left));
  }

  lemma {:induction false} WithoutAll(gone: seq<Row>, value: Digest)
    ensures Without(Xor(Aggregate(gone), value), gone) == value
  {
    if gone == [] {
      XorCommutes(ZERO, value);
      XorCommutes(value, ZERO);
    } else {
      var p, rest := gone[0].digest, Aggregate(gone[1..]);
      assert Xor(Xor(Xor(p, rest), value), p) == Xor(rest, value);
      WithoutAll(gone[1..], value);
    }
  }

  /** A change of one listed fingerprint is always seen. */
  lemma OneChangeIsSeen(before: seq<Row>, x: Row, y: Row, after: seq<Row>)
    ensures Aggregate(before + [x] + after) == Aggregate(before + [y] + after) <==> x.digest == y.digest
  {
    AggregateMiddle(before, x, after);
    AggregateMiddle(before, y, after);
    XorInjective(Aggregate(before + after), x.digest, y.digest);
  }

  lemma AggregateMiddle(before: seq<Row>, x: Row, after: seq<Row>)
    ensures Aggregate(before + [x] + after) == Xor(Aggregate(before + after), x.digest)
  {
    var rows, k := before + [x] + after, |before|;
    TakeOut(rows, k);
    assert rows[..k] == before && rows[k + 1..] == after;
    XorCommutes(x.digest, Aggregate(before + after));
  }

  /** A change of several images is seen exactly when their own aggregates differ. */
  lemma ChangesAreSeenExactly(rest: seq<Row>, xs: seq<Row>, ys: seq<Row>)
    ensures Aggregate(rest + xs) == Aggregate(rest + ys) <==> Aggregate(xs) == Aggregate(ys)
  {
    AggregateConcat(rest, xs);
    AggregateConcat(rest, ys);
    XorInjective(Aggregate(rest), Aggregate(xs), Aggregate(ys));
  }

  /** So two simultaneous changes can cancel, whatever else is listed. */
  lemma TwoChangesCanHide(rest: seq<Row>)
    ensures var xs, ys := [Row(1, {0}), Row(2, {1})], [Row(1, {0, 1}), Row(2, {})];
            xs != ys && Aggregate(rest + xs) == Aggregate(rest + ys)
  {
    var xs, ys := [Row(1, {0}), Row(2, {1})], [Row(1, {0, 1}), Row(2, {})];
    ChangesAreSeenExactly(rest, xs, ys);
    assert Aggregate(xs) == Xor({0}, Xor({1}, Aggregate([])));
    assert Aggregate(ys) == Xor({0, 1}, Xor({}, Aggregate([])));
    assert xs[0] != ys[0];
  }

  /** Removing fingerprints flips a bit exactly when an odd number of them have it. */
  lemma {:induction false} WithoutIsParity(value: Digest, gone: seq<Row>, i: nat)
    ensures i in Without(value, gone) <==> (i in value) == (Ones(gone, i) % 2 == 0)
    decreases |gone|
  {
    if gone != [] { WithoutIsParity(Xor(value, gone[0].digest), gone[1..], i); }
  }
}
