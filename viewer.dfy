/**
 * The element lookups of `src/components/MoleculeViewer.js`:
 * `ATOM_COLORS[element] || '#cccccc'` and `ATOM_SIZES[element] || 0.5`.
 */
module AtomAppearance {
  /** `ATOM_COLORS`: CPK colours. */
  const AtomColors: map<string, string> := map[
    "H" := "#ffffff", "C" := "#909090", "N" := "#3050f8", "O" := "#ff0d0d",
    "P" := "#ff8000", "S" := "#ffff30", "Cl" := "#1ff01f", "F" := "#90e050",
    "Fe" := "#e06633", "Zn" := "#7d80b0"
  ]

  /** `ATOM_SIZES`: sphere radii. */
  const AtomSizes: map<string, real> := map[
    "H" := 0.3, "C" := 0.5, "N" := 0.5, "O" := 0.5, "P" := 0.6,
    "S" := 0.6, "Cl" := 0.7, "F" := 0.4, "Fe" := 0.7, "Zn" := 0.6
  ]

  const DefaultColor: string := "#cccccc"
  const DefaultSize: real := 0.5

  /** `ATOM_COLORS[element] || '#cccccc'`: the entry when present and
      truthy (non-empty). */
  function ColorOf(element: string): string {
    if element in AtomColors && AtomColors[element] != "" then AtomColors[element] else DefaultColor
  }

  /** `ATOM_SIZES[element] || 0.5`: the entry when present and truthy
      (non-zero). */
  function SizeOf(element: string): real {
    if element in AtomSizes && AtomSizes[element] != 0.0 then AtomSizes[element] else DefaultSize
  }

  /** A lower-case hexadecimal digit. */
  predicate IsHexDigit(c: char) {
    ('0' <= c <= '9') || ('a' <= c <= 'f')
  }

  /** A colour in the form `#rrggbb`. */
  predicate IsHexColor(color: string) {
    |color| == 7 && color[0] == '#' && forall i :: 1 <= i < 7 ==> IsHexDigit(color[i])
  }

  /** Every entry is truthy, so the fallback applies exactly to the
      untabulated elements; every colour the lookup gives is `#rrggbb`. */
  lemma ColorLookup(element: string)
    ensures element in AtomColors ==> ColorOf(element) == AtomColors[element]
    ensures element !in AtomColors ==> ColorOf(element) == "#cccccc"
    ensures IsHexColor(ColorOf(element))
  {
    if element in AtomColors {
      assert element in {"H", "C", "N", "O", "P", "S", "Cl", "F", "Fe", "Zn"};
    }
  }

  /** The size is the entry for a tabulated element and 0.5 otherwise, and
      always lies in [0.3, 0.7]. */
  lemma SizeLookup(element: string)
    ensures element in AtomSizes ==> SizeOf(element) == AtomSizes[element]
    ensures element !in AtomSizes ==> SizeOf(element) == 0.5
    ensures 0.3 <= SizeOf(element) <= 0.7
  {
    if element in AtomSizes {
      assert element in {"H", "C", "N", "O", "P", "S", "Cl", "F", "Fe", "Zn"};
    }
  }

  /** The two tables cover the same ten elements. */
  lemma TablesCoverSameElements()
    ensures AtomColors.Keys == AtomSizes.Keys
  {
    assert AtomColors.Keys == {"H", "C", "N", "O", "P", "S", "Cl", "F", "Fe", "Zn"};
    assert AtomSizes.Keys == {"H", "C", "N", "O", "P", "S", "Cl", "F", "Fe", "Zn"};
  }
}

/**
 * The `Atom` component of `src/components/MoleculeViewer.js`: a sphere that
 * keeps a `hovered` flag, grows by 1.3 and shows its element label while
 * hovered, glows in its own colour in quantum mode, and then turns by 0.01
 * about x and y on every animation frame.
 */
module AtomComponent {
  import opened Options
  import opened MoleculeData
  import opened AtomAppearance

  const HoverScale: real := 1.3
  const LabelGap: real := 0.5
  const GlowIntensity: real := 0.2
  const SpinStep: real := 0.01
  const NoGlow: string := "#000000"

  /** The `<Text>` label: the element name at height `scaledSize + 0.5`. */
  datatype TextLabel = TextLabel(text: string, height: real)

  /** What the component renders: the sphere's radius and material colours
      and the optional label. */
  datatype AtomRender = AtomRender(
    position: Vec3, radius: real, color: string,
    emissive: string, emissiveIntensity: real, textLabel: Option<TextLabel>)

  /** The render function of `Atom`, given its props and its `hovered` state. */
  function RenderAtom(element: string, position: Vec3, glowing: bool, hovered: bool): AtomRender {
    var color := ColorOf(element);
    var size := SizeOf(element);
    var scaledSize := if hovered then size * HoverScale else size;
    AtomRender(position, scaledSize, color,
      if glowing then color else NoGlow,
      if glowing then GlowIntensity else 0.0,
      if hovered then Some(TextLabel(element, scaledSize + LabelGap)) else None)
  }

  /** One `useFrame` callback applied to the mesh rotation. */
  function Spin(rotation: Vec3, glowing: bool): Vec3 {
    if glowing then Vec3(rotation.x + SpinStep, rotation.y + SpinStep, rotation.z) else rotation
  }

  /** The rotation after `frames` animation frames. */
  function SpinFrames(rotation: Vec3, glowing: bool, frames: nat): Vec3
    decreases frames
  {
    if frames == 0 then rotation else Spin(SpinFrames(rotation, glowing, frames - 1), glowing)
  }

  /** One mounted `Atom`: its props and its state. The rotation is that of
      the mesh `meshRef` points to. */
  class AtomView {
    var element: string
    var position: Vec3
    var glowing: bool
    var hovered: bool
    var rotation: Vec3

    /** Mounting: `useState(false)`, and a fresh mesh at rotation 0. */
    constructor(element: string, position: Vec3, glowing: bool)
      ensures this.element == element && this.position == position && this.glowing == glowing
      ensures !hovered && rotation == Vec3(0.0, 0.0, 0.0)
    {
      this.element := element;
      this.position := position;
      this.glowing := glowing;
      hovered := false;
      rotation := Vec3(0.0, 0.0, 0.0);
    }

    /** `onPointerOver`: `setHovered(true)`. */
    method PointerOver()
      modifies this
      ensures hovered && rotation == old(rotation)
      ensures element == old(element) && position == old(position) && glowing == old(glowing)
    {
      hovered := true;
    }

    /** `onPointerOut`: `setHovered(false)`. */
    method PointerOut()
      modifies this
      ensures !hovered && rotation == old(rotation)
      ensures element == old(element) && position == old(position) && glowing == old(glowing)
    {
      hovered := false;
    }

    /** The `useFrame` callback. */
    method Frame()
      modifies this
      ensures hovered == old(hovered)
      ensures rotation == Spin(old(rotation), glowing)
      ensures element == old(element) && position == old(position) && glowing == old(glowing)
    {
      if glowing {
        rotation := rotation.(x := rotation.x + SpinStep);
        rotation := rotation.(y := rotation.y + SpinStep);
      }
    }

    /** A re-render of the parent with new props. Atoms are keyed by their
        index, so the same instance receives them and keeps its `hovered`
        state and its mesh's rotation. */
    method ReceiveProps(element: string, position: Vec3, glowing: bool)
      modifies this
      ensures this.element == element && this.position == position && this.glowing == glowing
      ensures hovered == old(hovered) && rotation == old(rotation)
    {
      this.element := element;
      this.position := position;
      this.glowing := glowing;
    }

    /** What the component renders in its current state. */
    function View(): AtomRender
      reads this
    {
      RenderAtom(element, position, glowing, hovered)
    }
  }

  // Properties of the rendered atom.

  /** The radius is the element's size, scaled by 1.3 exactly when hovered,
      and stays within [0.3, 0.91]. */
  lemma HoverScaling(element: string, position: Vec3, glowing: bool, hovered: bool)
    ensures var r := RenderAtom(element, position, glowing, hovered);
      && r.radius == (if hovered then SizeOf(element) * 1.3 else SizeOf(element))
      && (hovered ==> r.radius > SizeOf(element))
      && 0.3 <= r.radius <= 0.91
  {
    SizeLookup(element);
  }

  /** A label exists exactly while hovered: the element name, placed 0.5
      above the scaled sphere's radius, so above the sphere. */
  lemma LabelIffHovered(element: string, position: Vec3, glowing: bool, hovered: bool)
    ensures var r := RenderAtom(element, position, glowing, hovered);
      && (r.textLabel.Some? <==> hovered)
      && (hovered ==> r.textLabel.value == TextLabel(element, SizeOf(element) * 1.3 + 0.5))
      && (hovered ==> r.textLabel.value.height > r.radius)
  {
  }

  /** A glowing atom emits its own colour at 0.2; otherwise black at 0.
      Hovering changes neither colour. */
  lemma GlowColors(element: string, position: Vec3, glowing: bool, hovered: bool)
    ensures var r := RenderAtom(element, position, glowing, hovered);
      && r.color == ColorOf(element)
      && (glowing ==> r.emissive == r.color && r.emissiveIntensity == 0.2)
      && (!glowing ==> r.emissive == "#000000" && r.emissiveIntensity == 0.0)
      && r.color == RenderAtom(element, position, glowing, !hovered).color
  {
  }

  /** Hovering always changes what is rendered. */
  lemma HoverIsVisible(element: string, position: Vec3, glowing: bool)
    ensures RenderAtom(element, position, glowing, true) != RenderAtom(element, position, glowing, false)
  {
    SizeLookup(element);
  }

  /** After n frames a glowing atom has turned by 0.01 n about x and y and
      not about z; an atom that does not glow never turns. */
  lemma {:induction false} SpinAfterFrames(rotation: Vec3, glowing: bool, frames: nat)
    ensures glowing ==> (SpinFrames(rotation, glowing, frames) ==
      Vec3(rotation.x + 0.01 * frames as real, rotation.y + 0.01 * frames as real, rotation.z))
    ensures !glowing ==> SpinFrames(rotation, glowing, frames) == rotation
    decreases frames
  {
    if frames > 0 {
      SpinAfterFrames(rotation, glowing, frames - 1);
    }
  }
}

/**
 * The `MoleculeStructure` component of `src/components/MoleculeViewer.js`:
 * chooses the atom list, finds bonds with its own copy of the bond loop at
 * 2.0 Å, and emits one `Bond` per bond, then one `Atom` per atom, then the
 * quantum field sphere when quantum mode is on.
 */
module StructureScene {
  import opened Options
  import opened MoleculeData
  import opened BondInference

  /** The component's own `molecules` object; its lists are the same as
      the database's. */
  const ViewerMolecules: map<string, seq<Atom>> := map[
    "water" := WaterAtoms, "pesticide" := PesticideAtoms, "nutrient" := NutrientAtoms
  ]

  /** The inline loop's threshold. */
  const InlineThreshold: real := 2.0

  const BondColor: string := "#666666"
  const FieldRadius: real := 6.0
  const FieldColor: string := "#00ffff"
  const FieldOpacity: real := 0.1

  /** The `{ start, end }` record the inline loop pushes. */
  datatype BondSegment = BondSegment(start: Vec3, end: Vec3)

  /** The scene's elements, in the order they are emitted. */
  datatype Element =
    | BondLine(start: Vec3, end: Vec3, color: string, lineWidth: real)
    | AtomElement(position: Vec3, element: string, glowing: bool)
    | QuantumField(radius: real, color: string, opacity: real)

  /** `simulationResults?.atom_data || molecules[moleculeType] || molecules.water`.
      A present `atom_data` is an array, hence truthy even when empty. */
  function ChooseAtoms(results: Option<SimulationResults>, moleculeType: string): seq<Atom> {
    if results.Some? && results.value.atomData.Some? then results.value.atomData.value
    else if moleculeType in ViewerMolecules then ViewerMolecules[moleculeType]
    else ViewerMolecules["water"]
  }

  /** The truthiness of `simulationResults?.quantum_energy`: present and
      non-zero. */
  predicate QuantumActive(results: Option<SimulationResults>) {
    results.Some? && results.value.quantumEnergy.Some? && results.value.quantumEnergy.value != 0.0
  }

  /** The `Bond` component: a grey line of width `order * 2`. */
  function BondElement(start: Vec3, end: Vec3, order: int): Element {
    BondLine(start, end, BondColor, order as real * 2.0)
  }

  /** The end points of each bond, in order. */
  function Segments(bonds: seq<Bond>): (segments: seq<BondSegment>)
    ensures |segments| == |bonds|
    decreases |bonds|
  {
    if |bonds| == 0 then []
    else Segments(bonds[..|bonds| - 1]) + [BondSegment(bonds[|bonds| - 1].start, bonds[|bonds| - 1].end)]
  }

  /** Segment k joins the end points of bond k. */
  lemma {:induction false} SegmentsAt(bonds: seq<Bond>)
    ensures forall k :: 0 <= k < |bonds| ==> Segments(bonds)[k] == BondSegment(bonds[k].start, bonds[k].end)
    decreases |bonds|
  {
    if |bonds| > 0 {
      SegmentsAt(bonds[..|bonds| - 1]);
    }
  }

  /** The end points of a concatenation of bond lists. */
  lemma SegmentsAppend(a: seq<Bond>, b: seq<Bond>)
    ensures Segments(a + b) == Segments(a) + Segments(b)
  {
    SegmentsAt(a);
    SegmentsAt(b);
    SegmentsAt(a + b);
  }

  /** One more step of the inner loop. */
  lemma RowSegmentsStep(atoms: seq<Atom>, i: nat, j: nat)
    requires i < j < |atoms|
    ensures Segments(RowBonds(atoms, InlineThreshold, i, j + 1)) ==
      Segments(RowBonds(atoms, InlineThreshold, i, j))
      + (if WithinThreshold(SquaredDistance(atoms[i], atoms[j]), InlineThreshold)
         then [BondSegment(atoms[i].Position(), atoms[j].Position())] else [])
  {
    var row := RowBonds(atoms, InlineThreshold, i, j);
    if Bonded(atoms, InlineThreshold, i, j) {
      var extended := row + [MakeBond(atoms, i, j)];
      assert extended[..|extended| - 1] == row;
    } else {
      assert RowBonds(atoms, InlineThreshold, i, j + 1) == row;
    }
  }

  /** One more step of the outer loop. */
  lemma BondsBeforeSegmentsStep(atoms: seq<Atom>, i: nat)
    requires i < |atoms|
    ensures Segments(BondsBefore(atoms, InlineThreshold, i + 1)) ==
      Segments(BondsBefore(atoms, InlineThreshold, i)) + Segments(RowBonds(atoms, InlineThreshold, i, |atoms|))
  {
    SegmentsAppend(BondsBefore(atoms, InlineThreshold, i), RowBonds(atoms, InlineThreshold, i, |atoms|));
  }

  /** The inline bond loop: the same nested index loops as `findBonds`,
      pushing only the end points. */
  method DetectBonds(atoms: seq<Atom>) returns (segments: seq<BondSegment>)
    ensures segments == Segments(BondsOf(atoms, InlineThreshold))
  {
    segments := [];
    var i := 0;
    while i < |atoms|
      invariant 0 <= i <= |atoms|
      invariant segments == Segments(BondsBefore(atoms, InlineThreshold, i))
    {
      var j := i + 1;
      while j < |atoms|
        invariant i + 1 <= j <= |atoms|
        invariant segments == Segments(BondsBefore(atoms, InlineThreshold, i))
                              + Segments(RowBonds(atoms, InlineThreshold, i, j))
      {
        RowSegmentsStep(atoms, i, j);
        var atom1, atom2 := atoms[i], atoms[j];
        if WithinThreshold(SquaredDistance(atom1, atom2), InlineThreshold) {
          segments := segments + [BondSegment(atom1.Position(), atom2.Position())];
        }
        j := j + 1;
      }
      BondsBeforeSegmentsStep(atoms, i);
      i := i + 1;
    }
  }

  /** The elements emitted for an atom list, its bond segments and the
      quantum flag: bonds, then atoms, then the field sphere. */
  function Compose(atoms: seq<Atom>, segments: seq<BondSegment>, quantum: bool): seq<Element> {
    seq(|segments|, k requires 0 <= k < |segments| => BondElement(segments[k].start, segments[k].end, 1))
    + seq(|atoms|, k requires 0 <= k < |atoms| => AtomElement(atoms[k].Position(), atoms[k].symbol, quantum))
    + (if quantum then [QuantumField(FieldRadius, FieldColor, FieldOpacity)] else [])
  }

  /** What `MoleculeStructure` renders for its props. */
  function Scene(moleculeType: string, results: Option<SimulationResults>): seq<Element> {
    var atoms := ChooseAtoms(results, moleculeType);
    Compose(atoms, Segments(BondsOf(atoms, InlineThreshold)), QuantumActive(results))
  }

  /** `MoleculeStructure`. */
  method MoleculeStructure(moleculeType: string, results: Option<SimulationResults>) returns (scene: seq<Element>)
    ensures scene == Scene(moleculeType, results)
  {
    var atoms := ChooseAtoms(results, moleculeType);
    var isQuantumActive := QuantumActive(results);
    var segments := DetectBonds(atoms);
    scene := Compose(atoms, segments, isQuantumActive);
  }

  // Properties of the scene.

  /** The atom list is `atom_data` whenever it is present, even empty;
      otherwise the built-in list for the type; otherwise water. */
  lemma AtomListChoice(results: Option<SimulationResults>, moleculeType: string)
    ensures results.Some? && results.value.atomData.Some? ==>
      ChooseAtoms(results, moleculeType) == results.value.atomData.value
    ensures (results.None? || results.value.atomData.None?) && moleculeType in ViewerMolecules ==>
      ChooseAtoms(results, moleculeType) == MoleculeDatabase[moleculeType].atoms
    ensures (results.None? || results.value.atomData.None?) && moleculeType !in ViewerMolecules ==>
      ChooseAtoms(results, moleculeType) == WaterAtoms
  {
  }

  /** The scene holds one grey line of width 2 per bond of
      `findBonds(atoms, 2.0)`, between the two bonded atoms, in bond order;
      then one atom per atom, in order, glowing exactly in quantum mode;
      then the radius-6 field sphere exactly in quantum mode. */
  lemma SceneLayout(moleculeType: string, results: Option<SimulationResults>)
    ensures var atoms := ChooseAtoms(results, moleculeType);
      var bonds := BondsOf(atoms, 2.0);
      var quantum := QuantumActive(results);
      var scene := Scene(moleculeType, results);
      && |scene| == |bonds| + |atoms| + (if quantum then 1 else 0)
      && (forall k :: 0 <= k < |bonds| ==>
            bonds[k].atom1 < bonds[k].atom2 < |atoms|
            && scene[k] == BondLine(atoms[bonds[k].atom1].Position(), atoms[bonds[k].atom2].Position(), "#666666", 2.0))
      && (forall k :: 0 <= k < |atoms| ==>
            scene[|bonds| + k] == AtomElement(atoms[k].Position(), atoms[k].symbol, quantum))
      && (quantum ==> scene[|scene| - 1] == QuantumField(6.0, "#00ffff", 0.1))
  {
    var atoms := ChooseAtoms(results, moleculeType);
    var bonds := BondsOf(atoms, 2.0);
    BondsAreWellFormed(atoms, 2.0);
    SegmentsAt(bonds);
    forall k | 0 <= k < |bonds|
      ensures bonds[k].atom1 < bonds[k].atom2 < |atoms|
      ensures bonds[k].start == atoms[bonds[k].atom1].Position()
      ensures bonds[k].end == atoms[bonds[k].atom2].Position()
    {
      assert bonds[k] in bonds;
    }
  }

  /** Bonds are emitted before atoms: nothing but a bond line precedes a
      bond line. */
  lemma BondsBeforeAtoms(moleculeType: string, results: Option<SimulationResults>)
    ensures var scene := Scene(moleculeType, results);
      forall p, q :: 0 <= p < q < |scene| && scene[q].BondLine? ==> scene[p].BondLine?
  {
  }

  /** The field sphere appears exactly when `quantum_energy` is truthy, and
      then every atom glows; an absent or zero energy gives neither. */
  lemma QuantumFieldIff(moleculeType: string, results: Option<SimulationResults>)
    ensures var scene := Scene(moleculeType, results);
      && ((exists k :: 0 <= k < |scene| && scene[k].QuantumField?) <==> QuantumActive(results))
      && (forall k :: 0 <= k < |scene| && scene[k].AtomElement? ==> scene[k].glowing == QuantumActive(results))
  {
    var scene := Scene(moleculeType, results);
    if QuantumActive(results) {
      assert scene[|scene| - 1].QuantumField?;
    }
  }

  /** Without results, the water scene is three bond lines (O-H, O-H and
      H-H) and the three atoms O, H, H. */
  lemma WaterScene()
    ensures var scene := Scene("water", None);
      && |scene| == 6
      && (forall k :: 0 <= k < 3 ==> scene[k].BondLine?)
      && scene[3] == AtomElement(Vec3(0.0, 0.0, 0.0), "O", false)
      && scene[4].AtomElement? && scene[4].element == "H"
      && scene[5].AtomElement? && scene[5].element == "H"
  {
    WaterBonds();
    SceneLayout("water", None);
  }
}

/**
 * The `MoleculeViewer` component of `src/components/MoleculeViewer.js`: a
 * status line, and either the 3D canvas or, once the canvas has reported
 * an error, a fallback message. The `error` flag starts false and only
 * `onError` sets it; nothing clears it.
 */
module ViewerShell {
  import opened Options
  import opened MoleculeData
  import opened StructureScene

  const FallbackMessage: string := "WebGL not supported." + " Please use a modern browser."

  /** The canvas container: the fallback text, or the scene. */
  datatype CanvasArea = ErrorMessage(text: string) | Canvas(scene: seq<Element>)

  /** The status badge's class and text, and the canvas container. */
  datatype ViewerRender = ViewerRender(statusClass: string, statusText: string, canvas: CanvasArea)

  /** What the component renders for its state and props. A results object
      is truthy whenever present. */
  function Render(error: bool, moleculeType: string, results: Option<SimulationResults>): ViewerRender {
    ViewerRender(
      if results.Some? then "active" else "inactive",
      if results.Some? then "Quantum Active" else "Classical View",
      if error then ErrorMessage(FallbackMessage) else Canvas(Scene(moleculeType, results)))
  }

  /** What can happen to a mounted viewer: the canvas reports an error, or
      the parent passes new props. */
  datatype Event = CanvasError | NewProps(moleculeType: string, results: Option<SimulationResults>)

  /** The `error` flag after a run of events. */
  function ErrorAfter(error: bool, events: seq<Event>): bool
    decreases |events|
  {
    if |events| == 0 then error
    else ErrorAfter(error || events[0] == CanvasError, events[1..])
  }

  class MoleculeViewer {
    var error: bool
    var moleculeType: string
    var simulationResults: Option<SimulationResults>

    /** Mounting: `useState(false)`. */
    constructor(moleculeType: string, simulationResults: Option<SimulationResults>)
      ensures !error
      ensures this.moleculeType == moleculeType && this.simulationResults == simulationResults
    {
      error := false;
      this.moleculeType := moleculeType;
      this.simulationResults := simulationResults;
    }

    /** The canvas's `onError`: `setError(true)`. */
    method OnError()
      modifies this
      ensures error
      ensures moleculeType == old(moleculeType) && simulationResults == old(simulationResults)
    {
      error := true;
    }

    /** A re-render with new props keeps the state. */
    method ReceiveProps(moleculeType: string, simulationResults: Option<SimulationResults>)
      modifies this
      ensures error == old(error)
      ensures this.moleculeType == moleculeType && this.simulationResults == simulationResults
    {
      this.moleculeType := moleculeType;
      this.simulationResults := simulationResults;
    }

    /** One event. */
    method Handle(event: Event)
      modifies this
      ensures error == ErrorAfter(old(error), [event])
      ensures event.NewProps? ==> moleculeType == event.moleculeType && simulationResults == event.results
      ensures event.CanvasError? ==> moleculeType == old(moleculeType) && simulationResults == old(simulationResults)
    {
      match event
      case CanvasError => OnError();
      case NewProps(moleculeType, results) => ReceiveProps(moleculeType, results);
    }

    /** What the component renders now. */
    function View(): ViewerRender
      reads this
    {
      Render(error, moleculeType, simulationResults)
    }
  }

  // Properties of the viewer.

  /** The flag is set exactly when some event was a canvas error, and once
      set it is never cleared. */
  lemma {:induction false} ErrorOnlyFromOnError(error: bool, events: seq<Event>)
    ensures ErrorAfter(error, events) <==> error || CanvasError in events
    decreases |events|
  {
    if |events| > 0 {
      ErrorOnlyFromOnError(error || events[0] == CanvasError, events[1..]);
      assert events == [events[0]] + events[1..];
    }
  }

  /** While the flag is set the fallback message replaces the canvas; while
      it is clear the canvas shows the molecule scene. */
  lemma FallbackIffError(error: bool, moleculeType: string, results: Option<SimulationResults>)
    ensures var canvas := Render(error, moleculeType, results).canvas;
      && (canvas.ErrorMessage? <==> error)
      && (error ==> canvas.text == "WebGL not supported." + " Please use a modern browser.")
      && (!error ==> canvas.scene == Scene(moleculeType, results))
  {
  }

  /** The status reads "Quantum Active" exactly when a results object is
      given, whether or not quantum mode (a truthy `quantum_energy`) is on. */
  lemma StatusFollowsResults(error: bool, moleculeType: string, results: Option<SimulationResults>)
    ensures var view := Render(error, moleculeType, results);
      && (view.statusText == "Quantum Active" <==> results.Some?)
      && (view.statusClass == "active" <==> results.Some?)
      && (results.None? ==> view.statusText == "Classical View" && !QuantumActive(results))
  {
  }

  /** A results object without `quantum_energy` shows "Quantum Active"
      while the scene has no quantum field. */
  lemma StatusWithoutQuantumField(moleculeType: string)
    ensures var results := Some(SimulationResults(true, None, None, None));
      var view := Render(false, moleculeType, results);
      && view.statusText == "Quantum Active"
      && forall k :: 0 <= k < |view.canvas.scene| ==> !view.canvas.scene[k].QuantumField?
  {
    var results := Some(SimulationResults(true, None, None, None));
    QuantumFieldIff(moleculeType, results);
  }
}
