/**
 * `calculateMolecularWeight` of `src/utils/molecules.js`: the sum, in atom
 * order, of each atom's tabulated atomic weight, where an element missing
 * from the table contributes 0 (`atomicWeights[atom.symbol] || 0`).
 * Weights are reals; floating-point rounding is not modelled.
 */
module MolecularWeight {
  import opened MoleculeData

  /** The `atomicWeights` table, in g/mol. */
  const AtomicWeights: map<string, real> := map[
    "H" := 1.008, "C" := 12.011, "N" := 14.007, "O" := 15.999,
    "P" := 30.974, "S" := 32.065, "Cl" := 35.453, "F" := 18.998,
    "Fe" := 55.845, "Zn" := 65.38, "Ca" := 40.078, "Mg" := 24.305
  ]

  /** The heaviest tabulated weight (zinc). */
  const HeaviestWeight: real := 65.38

  /** `atomicWeights[symbol] || 0`: the entry when it is present and truthy
      (non-zero), otherwise 0. */
  function WeightOf(symbol: string): real {
    if symbol in AtomicWeights && AtomicWeights[symbol] != 0.0 then AtomicWeights[symbol] else 0.0
  }

  /** Every tabulated weight is truthy and lies in (0, HeaviestWeight], so
      `|| 0` only applies to untabulated elements. */
  lemma WeightOfIsTableOrZero(symbol: string)
    ensures symbol in AtomicWeights ==> WeightOf(symbol) == AtomicWeights[symbol]
    ensures symbol !in AtomicWeights ==> WeightOf(symbol) == 0.0
    ensures 0.0 <= WeightOf(symbol) <= HeaviestWeight
    ensures WeightOf(symbol) > 0.0 <==> symbol in AtomicWeights
  {
    if symbol in AtomicWeights {
      assert symbol in {"H", "C", "N", "O", "P", "S", "Cl", "F", "Fe", "Zn", "Ca", "Mg"};
    }
  }

  /** `atoms.reduce((total, atom) => total + weight(atom), 0)`: a left fold. */
  function Weight(atoms: seq<Atom>): real
    decreases |atoms|
  {
    if |atoms| == 0 then 0.0
    else Weight(atoms[..|atoms| - 1]) + WeightOf(atoms[|atoms| - 1].symbol)
  }

  /** The weight of a concatenation is the sum of the weights. */
  lemma {:induction false} WeightAdditive(a: seq<Atom>, b: seq<Atom>)
    ensures Weight(a + b) == Weight(a) + Weight(b)
    decreases |b|
  {
    if |b| == 0 {
      assert a + b == a;
    } else {
      var b' := b[..|b| - 1];
      WeightAdditive(a, b');
      assert (a + b)[..|a + b| - 1] == a + b';
      assert (a + b)[|a + b| - 1] == b[|b| - 1];
    }
  }

  /** The empty list weighs nothing; one atom weighs its element's weight. */
  lemma WeightOfFew(atom: Atom)
    ensures Weight([]) == 0.0
    ensures Weight([atom]) == WeightOf(atom.symbol)
  {
    assert [atom][..0] == [];
  }

  /** The fold visits atoms in order, but the order does not matter:
      swapping two parts of the list keeps the weight. */
  lemma WeightIgnoresOrder(a: seq<Atom>, b: seq<Atom>)
    ensures Weight(a + b) == Weight(b + a)
  {
    WeightAdditive(a, b);
    WeightAdditive(b, a);
  }

  /** The weight lies between 0 and `HeaviestWeight` per atom, and atoms of
      untabulated elements add nothing. */
  lemma {:induction false} WeightBounds(atoms: seq<Atom>)
    ensures 0.0 <= Weight(atoms) <= HeaviestWeight * |atoms| as real
    decreases |atoms|
  {
    if |atoms| > 0 {
      WeightBounds(atoms[..|atoms| - 1]);
      WeightOfIsTableOrZero(atoms[|atoms| - 1].symbol);
    }
  }

  /** Appending an atom of an element missing from the table leaves the
      weight unchanged. */
  lemma UntabulatedAtomAddsNothing(atoms: seq<Atom>, extra: Atom)
    requires extra.symbol !in AtomicWeights
    ensures Weight(atoms + [extra]) == Weight(atoms)
  {
    WeightAdditive(atoms, [extra]);
    WeightOfFew(extra);
  }

  /** Water, H2O: 15.999 + 1.008 + 1.008 = 18.015. */
  lemma WaterWeight()
    ensures Weight(WaterAtoms) == 18.015
  {
    var w := WaterAtoms;
    assert w[..2][..1] == [w[0]] && w[..2][..1][..0] == [];
    assert Weight([w[0]]) == 15.999;
    assert Weight(w[..2]) == 15.999 + 1.008;
  }
}
