/**
 * Bond inference of `src/utils/molecules.js`: `getBondDistance` and
 * `findBonds`. Every unordered pair of atoms (i, j), i < j, is visited in
 * increasing (i, then j) order, and the pair becomes a bond when its
 * distance is strictly below the threshold.
 *
 * Distances are kept squared: `sqrt(d2) < t` holds exactly when
 * `0 <= t && d2 < t * t` (see `StrictThresholdBySquares`), so no square
 * root is needed to decide a bond.
 */
module BondInference {
  import opened MoleculeData

  /** `findBonds`'s default `maxDistance`. */
  const DefaultMaxDistance: real := 2.0

  /** A bond record. `distanceSq` is the square of the source's `distance`. */
  datatype Bond = Bond(atom1: nat, atom2: nat, distanceSq: real, start: Vec3, end: Vec3)

  /** The square of `getBondDistance(a, b)`. */
  function SquaredDistance(a: Atom, b: Atom): real {
    SumOfSquares(a.x - b.x, a.y - b.y, a.z - b.z)
  }

  function SumOfSquares(dx: real, dy: real, dz: real): real {
    dx * dx + dy * dy + dz * dz
  }

  /** `getBondDistance` is symmetric, never negative, and zero on
      identical positions. */
  lemma BondDistanceProperties(a: Atom, b: Atom)
    ensures SquaredDistance(a, b) == SquaredDistance(b, a)
    ensures SquaredDistance(a, b) >= 0.0
    ensures a.Position() == b.Position() ==> SquaredDistance(a, b) == 0.0
  {
    var dx, dy, dz := a.x - b.x, a.y - b.y, a.z - b.z;
    SquareNonNegative(dx);
    SquareNonNegative(dy);
    SquareNonNegative(dz);
    assert SumOfSquares(dx, dy, dz) == SumOfSquares(-dx, -dy, -dz);
  }

  lemma SquareNonNegative(v: real)
    ensures v * v >= 0.0
  {
    if v > 0.0 {
      ProductPositive(v, v);
    } else if v < 0.0 {
      ProductPositive(-v, -v);
      assert v * v == (-v) * (-v);
    }
  }

  lemma ProductPositive(a: real, b: real)
    requires a > 0.0 && b > 0.0
    ensures a * b > 0.0
  {
  }

  /** The source's test `distance < maxDistance`, on the squared distance. */
  predicate WithinThreshold(distanceSq: real, maxDistance: real) {
    0.0 <= maxDistance && distanceSq < maxDistance * maxDistance
  }

  /** For a true distance d (never negative), `d < t` and
      `WithinThreshold(d * d, t)` agree for every threshold t. */
  lemma StrictThresholdBySquares(d: real, t: real)
    requires d >= 0.0
    ensures d < t <==> WithinThreshold(d * d, t)
  {
    if d < t {
      ProductPositive(t - d, t + d);
      assert t * t - d * d == (t - d) * (t + d);
    } else if 0.0 <= t {
      assert d * d - t * t == (d - t) * (d + t);
      if d > t {
        ProductPositive(d - t, d + t);
      }
    }
  }

  /** Atoms i and j are close enough to bond. */
  predicate Bonded(atoms: seq<Atom>, maxDistance: real, i: nat, j: nat)
    requires i < |atoms| && j < |atoms|
  {
    WithinThreshold(SquaredDistance(atoms[i], atoms[j]), maxDistance)
  }

  /** The record `findBonds` pushes for the pair (i, j). */
  function MakeBond(atoms: seq<Atom>, i: nat, j: nat): Bond
    requires i < |atoms| && j < |atoms|
  {
    Bond(i, j, SquaredDistance(atoms[i], atoms[j]), atoms[i].Position(), atoms[j].Position())
  }

  /** The bonds (i, k) for i < k < j, in increasing k: the inner loop
      stopped before j. */
  function RowBonds(atoms: seq<Atom>, maxDistance: real, i: nat, j: nat): seq<Bond>
    requires i < |atoms| && j <= |atoms|
    decreases j
  {
    if j <= i + 1 then []
    else RowBonds(atoms, maxDistance, i, j - 1)
         + (if Bonded(atoms, maxDistance, i, j - 1) then [MakeBond(atoms, i, j - 1)] else [])
  }

  /** The bonds whose first atom is below i: the outer loop stopped before i. */
  function BondsBefore(atoms: seq<Atom>, maxDistance: real, i: nat): seq<Bond>
    requires i <= |atoms|
    decreases i
  {
    if i == 0 then []
    else BondsBefore(atoms, maxDistance, i - 1) + RowBonds(atoms, maxDistance, i - 1, |atoms|)
  }

  /** What `findBonds(atoms, maxDistance)` returns. */
  function BondsOf(atoms: seq<Atom>, maxDistance: real): seq<Bond> {
    BondsBefore(atoms, maxDistance, |atoms|)
  }

  /** `findBonds`: the nested loops over index pairs. */
  method FindBonds(atoms: seq<Atom>, maxDistance: real := DefaultMaxDistance) returns (bonds: seq<Bond>)
    ensures bonds == BondsOf(atoms, maxDistance)
  {
    bonds := [];
    var i := 0;
    while i < |atoms|
      invariant 0 <= i <= |atoms|
      invariant bonds == BondsBefore(atoms, maxDistance, i)
    {
      var j := i + 1;
      while j < |atoms|
        invariant i + 1 <= j <= |atoms|
        invariant bonds == BondsBefore(atoms, maxDistance, i) + RowBonds(atoms, maxDistance, i, j)
      {
        var distanceSq := SquaredDistance(atoms[i], atoms[j]);
        if WithinThreshold(distanceSq, maxDistance) {
          bonds := bonds + [Bond(i, j, distanceSq, atoms[i].Position(), atoms[j].Position())];
        }
        j := j + 1;
      }
      i := i + 1;
    }
  }

  // Properties of the bond list.

  /** A well-formed bond of `atoms`: indices in order and in range, the
      pair within the threshold, and the record's distance and end points
      taken from the two atoms. */
  predicate IsBondOf(atoms: seq<Atom>, maxDistance: real, b: Bond) {
    && b.atom1 < b.atom2 < |atoms|
    && Bonded(atoms, maxDistance, b.atom1, b.atom2)
    && b == MakeBond(atoms, b.atom1, b.atom2)
  }

  /** Pair order: by first atom, then by second. */
  predicate PairBefore(b: Bond, c: Bond) {
    b.atom1 < c.atom1 || (b.atom1 == c.atom1 && b.atom2 < c.atom2)
  }

  predicate StrictlyOrdered(bonds: seq<Bond>) {
    forall p, q :: 0 <= p < q < |bonds| ==> PairBefore(bonds[p], bonds[q])
  }

  /** The pair (i, j) occurs in the bond list. */
  predicate Lists(bonds: seq<Bond>, i: nat, j: nat) {
    exists k :: 0 <= k < |bonds| && bonds[k].atom1 == i && bonds[k].atom2 == j
  }

  lemma {:induction false} RowBondsSound(atoms: seq<Atom>, maxDistance: real, i: nat, j: nat)
    requires i < |atoms| && j <= |atoms|
    ensures forall k :: 0 <= k < |RowBonds(atoms, maxDistance, i, j)| ==>
      var b := RowBonds(atoms, maxDistance, i, j)[k];
      b.atom1 == i && b.atom2 < j && IsBondOf(atoms, maxDistance, b)
    ensures |RowBonds(atoms, maxDistance, i, j)| <= if j <= i then 0 else j - i - 1
    decreases j
  {
    if j > i + 1 {
      RowBondsSound(atoms, maxDistance, i, j - 1);
    }
  }

  lemma {:induction false} RowBondsOrdered(atoms: seq<Atom>, maxDistance: real, i: nat, j: nat)
    requires i < |atoms| && j <= |atoms|
    ensures StrictlyOrdered(RowBonds(atoms, maxDistance, i, j))
    decreases j
  {
    if j > i + 1 {
      RowBondsOrdered(atoms, maxDistance, i, j - 1);
      RowBondsSound(atoms, maxDistance, i, j - 1);
    }
  }

  lemma {:induction false} RowBondsComplete(atoms: seq<Atom>, maxDistance: real, i: nat, j: nat)
    requires i < |atoms| && j <= |atoms|
    ensures forall m: nat :: i < m < j && Bonded(atoms, maxDistance, i, m) ==>
      Lists(RowBonds(atoms, maxDistance, i, j), i, m)
    decreases j
  {
    if j > i + 1 {
      RowBondsComplete(atoms, maxDistance, i, j - 1);
      var prev := RowBonds(atoms, maxDistance, i, j - 1);
      var row := RowBonds(atoms, maxDistance, i, j);
      forall m: nat | i < m < j && Bonded(atoms, maxDistance, i, m)
        ensures Lists(row, i, m)
      {
        if m < j - 1 {
          var k :| 0 <= k < |prev| && prev[k].atom1 == i && prev[k].atom2 == m;
          assert row[k] == prev[k];
        } else {
          assert row[|row| - 1] == MakeBond(atoms, i, m);
        }
      }
    }
  }

  lemma {:induction false} BondsBeforeSound(atoms: seq<Atom>, maxDistance: real, i: nat)
    requires i <= |atoms|
    ensures forall k :: 0 <= k < |BondsBefore(atoms, maxDistance, i)| ==>
      var b := BondsBefore(atoms, maxDistance, i)[k];
      b.atom1 < i && IsBondOf(atoms, maxDistance, b)
    decreases i
  {
    if i > 0 {
      var n := |atoms|;
      BondsBeforeSound(atoms, maxDistance, i - 1);
      RowBondsSound(atoms, maxDistance, i - 1, n);
      var prev := BondsBefore(atoms, maxDistance, i - 1);
      var row := RowBonds(atoms, maxDistance, i - 1, n);
      var bs := BondsBefore(atoms, maxDistance, i);
      assert bs == prev + row;
      forall k | 0 <= k < |bs|
        ensures bs[k].atom1 < i && IsBondOf(atoms, maxDistance, bs[k])
      {
        if k < |prev| {
          assert bs[k] == prev[k];
        } else {
          assert bs[k] == row[k - |prev|];
        }
      }
    }
  }

  /** Rows 0 .. i-1 hold at most (n-1) + (n-2) + ... + (n-i) bonds. */
  lemma {:induction false} BondsBeforeCount(atoms: seq<Atom>, maxDistance: real, i: nat)
    requires i <= |atoms|
    ensures 2 * |BondsBefore(atoms, maxDistance, i)| <= 2 * i * |atoms| - i * (i + 1)
    decreases i
  {
    if i > 0 {
      var n := |atoms|;
      BondsBeforeCount(atoms, maxDistance, i - 1);
      RowBondsSound(atoms, maxDistance, i - 1, n);
      TriangleStep(i, n);
    }
  }

  lemma TriangleStep(i: int, n: int)
    ensures 2 * i * n - i * (i + 1) == 2 * (i - 1) * n - (i - 1) * i + 2 * (n - i)
  {
  }

  lemma {:induction false} BondsBeforeOrdered(atoms: seq<Atom>, maxDistance: real, i: nat)
    requires i <= |atoms|
    ensures StrictlyOrdered(BondsBefore(atoms, maxDistance, i))
    decreases i
  {
    if i > 0 {
      var n := |atoms|;
      BondsBeforeOrdered(atoms, maxDistance, i - 1);
      BondsBeforeSound(atoms, maxDistance, i - 1);
      RowBondsOrdered(atoms, maxDistance, i - 1, n);
      RowBondsSound(atoms, maxDistance, i - 1, n);
      var prev := BondsBefore(atoms, maxDistance, i - 1);
      var row := RowBonds(atoms, maxDistance, i - 1, n);
      var bs := BondsBefore(atoms, maxDistance, i);
      assert bs == prev + row;
      forall p, q | 0 <= p < q < |bs|
        ensures PairBefore(bs[p], bs[q])
      {
        if q < |prev| {
          assert bs[p] == prev[p] && bs[q] == prev[q];
        } else if p >= |prev| {
          assert bs[p] == row[p - |prev|] && bs[q] == row[q - |prev|];
        } else {
          assert bs[p] == prev[p] && bs[q] == row[q - |prev|];
        }
      }
    }
  }

  lemma {:induction false} BondsBeforeComplete(atoms: seq<Atom>, maxDistance: real, i: nat)
    requires i <= |atoms|
    ensures forall a: nat, b: nat :: a < i && a < b < |atoms| && Bonded(atoms, maxDistance, a, b) ==>
      Lists(BondsBefore(atoms, maxDistance, i), a, b)
    decreases i
  {
    if i > 0 {
      var n := |atoms|;
      BondsBeforeComplete(atoms, maxDistance, i - 1);
      RowBondsComplete(atoms, maxDistance, i - 1, n);
      var prev := BondsBefore(atoms, maxDistance, i - 1);
      var row := RowBonds(atoms, maxDistance, i - 1, n);
      var bs := BondsBefore(atoms, maxDistance, i);
      assert bs == prev + row;
      forall a: nat, b: nat | a < i && a < b < n && Bonded(atoms, maxDistance, a, b)
        ensures Lists(bs, a, b)
      {
        if a < i - 1 {
          var k :| 0 <= k < |prev| && prev[k].atom1 == a && prev[k].atom2 == b;
          assert bs[k] == prev[k];
        } else {
          var k :| 0 <= k < |row| && row[k].atom1 == a && row[k].atom2 == b;
          assert bs[|prev| + k] == row[k];
        }
      }
    }
  }

  /** Every bond has `atom1 < atom2 < atoms.length`, lies strictly within
      the threshold, and carries the distance and end points of its two
      atoms. */
  lemma BondsAreWellFormed(atoms: seq<Atom>, maxDistance: real)
    ensures forall b :: b in BondsOf(atoms, maxDistance) ==> IsBondOf(atoms, maxDistance, b)
  {
    BondsBeforeSound(atoms, maxDistance, |atoms|);
  }

  /** A pair (i, j) is listed exactly when i < j < n and the two atoms are
      strictly closer than `maxDistance`. */
  lemma BondIff(atoms: seq<Atom>, maxDistance: real, i: nat, j: nat)
    ensures Lists(BondsOf(atoms, maxDistance), i, j)
        <==> i < j < |atoms| && Bonded(atoms, maxDistance, i, j)
  {
    BondsBeforeSound(atoms, maxDistance, |atoms|);
    BondsBeforeComplete(atoms, maxDistance, |atoms|);
    var bs := BondsOf(atoms, maxDistance);
    if Lists(bs, i, j) {
      var k :| 0 <= k < |bs| && bs[k].atom1 == i && bs[k].atom2 == j;
      assert IsBondOf(atoms, maxDistance, bs[k]);
    }
  }

  /** Bonds come out in strictly increasing (i, then j) order, so no pair
      appears twice, and there are at most n(n-1)/2 of them. */
  lemma BondsOrderedAndBounded(atoms: seq<Atom>, maxDistance: real)
    ensures StrictlyOrdered(BondsOf(atoms, maxDistance))
    ensures forall p, q :: 0 <= p < q < |BondsOf(atoms, maxDistance)| ==>
      (BondsOf(atoms, maxDistance)[p].atom1, BondsOf(atoms, maxDistance)[p].atom2)
      != (BondsOf(atoms, maxDistance)[q].atom1, BondsOf(atoms, maxDistance)[q].atom2)
    ensures 2 * |BondsOf(atoms, maxDistance)| <= |atoms| * (|atoms| - 1)
  {
    BondsBeforeOrdered(atoms, maxDistance, |atoms|);
    BondsBeforeCount(atoms, maxDistance, |atoms|);
    var n := |atoms|;
    assert 2 * n * n - n * (n + 1) == n * (n - 1);
  }

  /** Lists of zero or one atom have no bonds. */
  lemma NoBondsBelowTwoAtoms(atoms: seq<Atom>, maxDistance: real)
    requires |atoms| <= 1
    ensures BondsOf(atoms, maxDistance) == []
  {
    BondsOrderedAndBounded(atoms, maxDistance);
  }

  /** Co-located atoms form a bond of distance 0 under any positive
      threshold; degenerate geometry is not an error. */
  lemma CoLocatedAtomsBond(atoms: seq<Atom>, maxDistance: real, i: nat, j: nat)
    requires i < j < |atoms| && atoms[i].Position() == atoms[j].Position()
    requires maxDistance > 0.0
    ensures MakeBond(atoms, i, j) in BondsOf(atoms, maxDistance)
    ensures MakeBond(atoms, i, j).distanceSq == 0.0
  {
    BondDistanceProperties(atoms[i], atoms[j]);
    BondIff(atoms, maxDistance, i, j);
    BondsAreWellFormed(atoms, maxDistance);
    var bs := BondsOf(atoms, maxDistance);
    var k :| 0 <= k < |bs| && bs[k].atom1 == i && bs[k].atom2 == j;
    assert bs[k] in bs;
  }

  /** Two atoms exactly `maxDistance` apart do not bond: the test is strict. */
  lemma ThresholdIsExclusive(a: Atom, b: Atom)
    requires a.Position() == Vec3(0.0, 0.0, 0.0) && b.Position() == Vec3(2.0, 0.0, 0.0)
    ensures BondsOf([a, b], DefaultMaxDistance) == []
  {
    var atoms := [a, b];
    var t := DefaultMaxDistance;
    assert SquaredDistance(a, b) == 4.0;
    assert RowBonds(atoms, t, 0, 2) == [] by {
      assert RowBonds(atoms, t, 0, 1) == [];
      assert !Bonded(atoms, t, 0, 1);
    }
    assert RowBonds(atoms, t, 1, 2) == [];
  }

  /** The built-in water molecule: O-H twice (distance² 0.9257, about 0.962)
      and H-H (distance 1.52), all below 2.0. */
  lemma WaterBonds()
    ensures BondsOf(WaterAtoms, DefaultMaxDistance) == [
      Bond(0, 1, 0.9257, Vec3(0.0, 0.0, 0.0), Vec3(0.76, 0.59, 0.0)),
      Bond(0, 2, 0.9257, Vec3(0.0, 0.0, 0.0), Vec3(-0.76, 0.59, 0.0)),
      Bond(1, 2, 2.3104, Vec3(0.76, 0.59, 0.0), Vec3(-0.76, 0.59, 0.0))]
  {
    var w := WaterAtoms;
    var t := DefaultMaxDistance;
    assert RowBonds(w, t, 0, 3) == [MakeBond(w, 0, 1), MakeBond(w, 0, 2)] by {
      assert RowBonds(w, t, 0, 1) == [];
    }
    assert RowBonds(w, t, 1, 3) == [MakeBond(w, 1, 2)] by {
      assert RowBonds(w, t, 1, 2) == [];
    }
    assert RowBonds(w, t, 2, 3) == [];
    assert BondsBefore(w, t, 1) == [MakeBond(w, 0, 1), MakeBond(w, 0, 2)];
  }
}
