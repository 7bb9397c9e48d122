/** Optional values: a JavaScript property that may be absent. */
module Options {
  datatype Option<+T> = None | Some(value: T)
}

/**
 * The molecule data model of `src/utils/molecules.js`: atoms with an element
 * symbol and Cartesian coordinates in Ångström, the built-in molecule
 * database, and the simulation result object the backend returns.
 * Coordinates are reals; floating-point rounding is not modelled.
 */
module MoleculeData {
  import opened Options

  /** A point in space: the `[x, y, z]` arrays the source builds. */
  datatype Vec3 = Vec3(x: real, y: real, z: real)

  /** `{ symbol, x, y, z }`. */
  datatype Atom = Atom(symbol: string, x: real, y: real, z: real) {
    function Position(): Vec3 { Vec3(x, y, z) }
  }

  /** A database entry: the fields the core reads. */
  datatype Molecule = Molecule(atomString: string, category: string, atoms: seq<Atom>)

  /** `agricultural_activity` of a simulation result. */
  datatype Activity = Activity(pesticideActivityScore: Option<real>)

  /** The simulation result object (the viewer's `simulationResults`); each
      field is `None` when the property is absent. `success` is the JS
      truthiness of the `success` property. */
  datatype SimulationResults = SimulationResults(
    success: bool,
    atomData: Option<seq<Atom>>,
    quantumEnergy: Option<real>,
    agriculturalActivity: Option<Activity>)

  // The `MOLECULE_DATABASE` entries. Each `atomString` is the source's text,
  // written here as its records joined by `;`.

  const WaterAtomString: string :=
    "O 0 0 0"
    + ";" + " H 0.76 0.59 0"
    + ";" + " H -0.76 0.59 0"
  const PesticideAtomString: string :=
    "C 0 0 0"
    + ";" + " C 1.4 0 0"
    + ";" + " N 2.8 0 0"
    + ";" + " O 1.4 1.4 0"
    + ";" + " Cl 0 -1.4 0"
    + ";" + " H 2.8 1.4 0"
  const NutrientAtomString: string :=
    "C 0 0 0"
    + ";" + " N 1.4 0 0"
    + ";" + " N 2.8 0 0"
    + ";" + " O 1.4 1.4 0"
    + ";" + " Fe 4.2 0.7 0"
  const CaffeineAtomString: string :=
    "C 0 0 0"
    + ";" + " C 1.4 0 0"
    + ";" + " C 2.8 0 0"
    + ";" + " N 4.2 0 0"
    + ";" + " N 2.8 1.4 0"
    + ";" + " C 1.4 1.4 0"
    + ";" + " C 0 1.4 0"
    + ";" + " N 0 2.8 0"
    + ";" + " C 1.4 2.8 0"
    + ";" + " N 2.8 2.8 0"
    + ";" + " O 4.2 1.4 0"
    + ";" + " O 1.4 4.2 0"

  const WaterAtoms: seq<Atom> := [
    Atom("O", 0.0, 0.0, 0.0),
    Atom("H", 0.76, 0.59, 0.0),
    Atom("H", -0.76, 0.59, 0.0)
  ]

  const PesticideAtoms: seq<Atom> := [
    Atom("C", 0.0, 0.0, 0.0),
    Atom("C", 1.4, 0.0, 0.0),
    Atom("N", 2.8, 0.0, 0.0),
    Atom("O", 1.4, 1.4, 0.0),
    Atom("Cl", 0.0, -1.4, 0.0),
    Atom("H", 2.8, 1.4, 0.0)
  ]

  const NutrientAtoms: seq<Atom> := [
    Atom("C", 0.0, 0.0, 0.0),
    Atom("N", 1.4, 0.0, 0.0),
    Atom("N", 2.8, 0.0, 0.0),
    Atom("O", 1.4, 1.4, 0.0),
    Atom("Fe", 4.2, 0.7, 0.0)
  ]

  /** Ten atoms, although `CaffeineAtomString` has twelve records. */
  const CaffeineAtoms: seq<Atom> := [
    Atom("C", 0.0, 0.0, 0.0),
    Atom("C", 1.4, 0.0, 0.0),
    Atom("C", 2.8, 0.0, 0.0),
    Atom("N", 4.2, 0.0, 0.0),
    Atom("N", 2.8, 1.4, 0.0),
    Atom("C", 1.4, 1.4, 0.0),
    Atom("C", 0.0, 1.4, 0.0),
    Atom("N", 0.0, 2.8, 0.0),
    Atom("O", 4.2, 1.4, 0.0),
    Atom("O", 1.4, 4.2, 0.0)
  ]

  const MoleculeDatabase: map<string, Molecule> := map[
    "water" := Molecule(WaterAtomString, "basic", WaterAtoms),
    "pesticide" := Molecule(PesticideAtomString, "pesticide", PesticideAtoms),
    "nutrient" := Molecule(NutrientAtomString, "nutrient", NutrientAtoms),
    "caffeine" := Molecule(CaffeineAtomString, "natural", CaffeineAtoms)
  ]
}
