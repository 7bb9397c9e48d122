# Molecule utilities and 3D viewer logic, in Dafny

This project models the molecule layer of a quantum-chemistry demo for
agriculture, together with the rule-based parts of its 3D molecule viewer.
It covers:

- bond inference (`getBondDistance`, `findBonds`);
- the `"<sym> <x> <y> <z>; ..."` wire-format parser (`parseMoleculeString`), with
  the JavaScript `split`, `trim` and `split(/\s+/)` it relies on;
- the molecular weight sum (`calculateMolecularWeight`);
- the agricultural impact estimate (`estimateAgriculturalImpact`);
- the built-in molecule database, used as fixtures;
- the viewer components `Atom`, `Bond`, `MoleculeStructure` and
  `MoleculeViewer`: element colour and size lookups, hover scaling and labels,
  glow and per-frame rotation, atom-list choice, the inline bond loop, the
  quantum field sphere, and the WebGL error flag.

Coordinates, weights and scores are `real`s. A distance test
`sqrt(dx² + dy² + dz²) < t` is decided on the squared distance as
`0 <= t && dx² + dy² + dz² < t * t`. `StrictThresholdBySquares` proves the
two tests agree for every threshold. A bond therefore records its squared
distance.

Files:

| file | modules |
|---|---|
| `molecule_data.dfy` | `Options`, `MoleculeData`: atoms, molecules, simulation results, the database |
| `bonds.dfy` | `BondInference`: `getBondDistance`, `findBonds` |
| `js_strings.dfy` | `JsStrings`: `split`, `trim`, `split(/\s+/)` |
| `parsing.dfy` | `MoleculeParsing`: `parseMoleculeString`; `ParsingFixtures`: the database strings parsed |
| `weight.dfy` | `MolecularWeight`: `calculateMolecularWeight` |
| `impact.dfy` | `AgriculturalImpact`: `estimateAgriculturalImpact` |
| `viewer.dfy` | `AtomAppearance`, `AtomComponent`, `StructureScene`, `ViewerShell` |

The fixture lemmas of `ParsingFixtures` take the text as a parameter `s` with `requires s == WaterAtomString` (and so on) rather than naming the constant in their `ensures`: the text's value is then unfolded only inside the lemma, through its records, so that long string literals stay out of every other proof. Each database string is written as its records joined by `;`, the same text as in the source.

The imperative parts keep their form:

- `findBonds` and the viewer's bond loop are nested `while` loops. Each is
  proved against the specification function `BondsOf`.
- `parseMoleculeString`'s `forEach` is a `for` loop proved against
  `ParsedUpTo`.
- `estimateAgriculturalImpact` updates a local `impact` record case by
  case and is proved against `ImpactFor`.
- The `Atom` hover and rotation state and the `MoleculeViewer` error flag
  are classes whose methods update their fields.

## Model

| member | source | states |
|---|---|---|
| BondInference.BondDistanceProperties | src/utils/molecules.js:284-290 | the bond distance is symmetric, never negative, and zero for atoms at the same position |
| BondInference.StrictThresholdBySquares | src/utils/molecules.js:296-297 | for a distance d >= 0, `d < t` holds exactly when the squared test `WithinThreshold(d*d, t)` holds, for every threshold t |
| BondInference.FindBonds | src/utils/molecules.js:292-309 | the nested loops return exactly `BondsOf(atoms, maxDistance)`, the list of bonds in (i, then j) order |
| BondInference.BondsAreWellFormed | src/utils/molecules.js:294-305 | every listed bond has atom1 < atom2 < n, lies strictly within the threshold, and records the squared distance and the start/end coordinates of its two atoms |
| BondInference.BondIff | src/utils/molecules.js:294-305 | a pair (i, j) with i < j < n is listed exactly when its distance is strictly below the threshold |
| BondInference.BondsOrderedAndBounded | src/utils/molecules.js:294-307 | bonds come out strictly increasing in (atom1, atom2), so they have no duplicates, and there are at most n(n-1)/2 of them |
| BondInference.NoBondsBelowTwoAtoms | src/utils/molecules.js:292-309 | lists of zero or one atom give no bonds |
| BondInference.CoLocatedAtomsBond | src/utils/molecules.js:292-305 | two atoms at the same position bond at distance 0 under any positive threshold |
| BondInference.ThresholdIsExclusive | src/utils/molecules.js:297 | two atoms exactly 2.0 apart do not bond under the default threshold |
| BondInference.WaterBonds | src/utils/molecules.js:11-15 | built-in water gives exactly the bonds O–H, O–H (distance² 0.9257) and H–H (distance 1.52) |
| JsStrings.SplitPiecesFree | src/utils/molecules.js:149 | no piece of `split(';')` contains the separator |
| JsStrings.JoinSplit | src/utils/molecules.js:149 | joining the pieces of `split` with the separator restores the text |
| JsStrings.SplitJoin | src/utils/molecules.js:149 | splitting a join of separator-free pieces gives back those pieces |
| JsStrings.SplitAround | src/utils/molecules.js:149 | splitting around one separator splits each side and concatenates the results |
| JsStrings.SplitCons | src/utils/molecules.js:149 | text before the first separator comes out as the first piece |
| JsStrings.SplitNoSeparator | src/utils/molecules.js:149 | text without the separator splits into itself alone |
| JsStrings.TrimStartDrops | src/utils/molecules.js:152 | trimming the start keeps a suffix that does not begin with white space and removes only white space |
| JsStrings.TrimEndDrops | src/utils/molecules.js:152 | trimming the end keeps a prefix that does not end with white space and removes only white space |
| JsStrings.SplitWsToken | src/utils/molecules.js:152 | a single token, or the empty string, splits on white space into itself |
| JsStrings.SplitWsCons | src/utils/molecules.js:152 | a token followed by one space comes out as the first field |
| JsStrings.SplitWsJoinWords | src/utils/molecules.js:152 | tokens joined by single spaces split on white space into the same tokens |
| JsStrings.JoinWordsTrimmed | src/utils/molecules.js:152 | tokens joined by spaces neither start nor end with white space |
| JsStrings.TrimUntouched | src/utils/molecules.js:152 | `trim()` leaves text that has no white space at either end unchanged |
| JsStrings.TrimLeading | src/utils/molecules.js:152 | `trim()` removes a run of leading white space |
| JsStrings.FieldsOfWords | src/utils/molecules.js:152 | a record written as leading spaces and single-space-separated tokens has exactly those tokens as its fields |
| MoleculeParsing.ParseMoleculeString | src/utils/molecules.js:147-165 | the parser returns `ParsedAtoms(moleculeString, num)`, its records visited by `ParseRecords` |
| MoleculeParsing.ParseRecords | src/utils/molecules.js:151-162 | the `forEach` loop returns `ParsedUpTo` over every record: a record with exactly four fields is pushed with its index as `id` |
| MoleculeParsing.ParsedUpToSound | src/utils/molecules.js:151-162 | after i records there are at most i atoms; each comes from a four-field record below i that gives its id and fields; ids strictly increase |
| MoleculeParsing.ParsedUpToComplete | src/utils/molecules.js:153-160 | every four-field record below i yields an atom with its index as id |
| MoleculeParsing.ParseKeepsExactlyFourFieldRecords | src/utils/molecules.js:147-165 | the result keeps exactly the four-field records, in order, with ids strictly increasing; other records are skipped without error; there are never more atoms than records |
| MoleculeParsing.ParseEmptyString | src/utils/molecules.js:149-153 | `""` is one empty record, which is skipped, so the result is `[]` |
| MoleculeParsing.ParsedUpToAllKept | src/utils/molecules.js:151-162 | when every record has four fields, atom k is record k |
| MoleculeParsing.ParseWireString | src/utils/molecules.js:147-165 | text in the wire format (records joined by `"; "`, fields by single spaces) parses back to every record, in order, with its position as id |
| MoleculeParsing.JoinWordsHasNo | src/utils/molecules.js:149 | fields without `;` joined by spaces contain no `;`, so they stay inside one record |
| MoleculeParsing.ParseSerialize | src/utils/molecules.js:147-165 | round trip: parsing a serialized atom list gives back every symbol and coordinate, with ids 0, 1, 2, ... |
| ParsingFixtures.LaidOutFields | src/utils/molecules.js:152 | records laid out as leading spaces and single-space words have those words as fields |
| ParsingFixtures.ParsesTo | src/utils/molecules.js:147-165 | a string whose records have the given four-word fields, each read back as the given atom, parses to those atoms with ids 0, 1, ... |
| ParsingFixtures.SplitSnoc | src/utils/molecules.js:149 | appending `;` and one separator-free record adds one piece |
| ParsingFixtures.SplitThree | src/utils/molecules.js:149 | three separator-free records joined by `;` split into those three |
| ParsingFixtures.SplitFive | src/utils/molecules.js:149 | five separator-free records joined by `;` split into those five |
| ParsingFixtures.SplitSix | src/utils/molecules.js:149 | six separator-free records joined by `;` split into those six |
| ParsingFixtures.SplitTwelve | src/utils/molecules.js:149 | twelve separator-free records joined by `;` split into those twelve |
| ParsingFixtures.WaterStringParses | src/utils/molecules.js:7-15 | parsing water's `atomString` gives its three `atoms`, in order, with ids 0, 1, 2 (through `WaterSplit`, `WaterFields` and `WaterCoordinates`: the string's records, their fields, and the numbers they read as) |
| ParsingFixtures.PesticideStringParses | src/utils/molecules.js:26-37 | parsing the pesticide `atomString` gives its six `atoms`, in order, with ids 0..5 |
| ParsingFixtures.NutrientStringParses | src/utils/molecules.js:48-58 | parsing the nutrient `atomString` gives its five `atoms`, in order, with ids 0..4 |
| ParsingFixtures.CaffeineStringHasTwelveAtoms | src/utils/molecules.js:69-84 | caffeine's `atomString` splits into twelve four-field records (`CaffeineSplit`, `CaffeineFields`), so it parses to 12 atoms whatever the number reader, while its `atoms` list has 10 |
| MolecularWeight.WeightOfIsTableOrZero | src/utils/molecules.js:168-175 | an element's weight is its table entry when tabulated and 0 otherwise; it is positive exactly for the tabulated elements and never above 65.38 |
| MolecularWeight.WeightAdditive | src/utils/molecules.js:174-176 | the weight of a concatenation is the sum of the weights |
| MolecularWeight.WeightOfFew | src/utils/molecules.js:174-176 | `[]` weighs 0; one atom weighs its element's weight |
| MolecularWeight.WeightIgnoresOrder | src/utils/molecules.js:174-176 | swapping two parts of the list keeps the weight |
| MolecularWeight.WeightBounds | src/utils/molecules.js:167-177 | the weight lies between 0 and 65.38 per atom |
| MolecularWeight.UntabulatedAtomAddsNothing | src/utils/molecules.js:175 | an atom of an untabulated element adds nothing |
| MolecularWeight.WaterWeight | src/utils/molecules.js:11-15 | water weighs 18.015 |
| AgriculturalImpact.ScoreOf | src/utils/molecules.js:191-192 | a present non-zero score is used as is; a missing activity, a missing score and a score of 0 give 0.5; the effective score is never 0 |
| AgriculturalImpact.EstimateAgriculturalImpact | src/utils/molecules.js:179-216 | the field updates per `switch` case return exactly `ImpactFor(category, results)` |
| AgriculturalImpact.NoImpactWithoutSuccess | src/utils/molecules.js:183-190 | all four fields are 0 exactly when the results are absent or not successful |
| AgriculturalImpact.BenefitByCategory | src/utils/molecules.js:194-212 | after success the environmental benefit is 80 for a pesticide, 60 for a nutrient and 40 for anything else |
| AgriculturalImpact.MissingScoreCountsAsHalf | src/utils/molecules.js:191-192 | a missing activity, a missing score and a score of 0 give the same estimate as a score of 0.5 |
| AgriculturalImpact.CountsRoundDown | src/utils/molecules.js:196-210 | each count is the score times the case's rate rounded down: count <= score*rate < count + 1 |
| AgriculturalImpact.MonotoneInScore | src/utils/molecules.js:196-210 | for non-negative rates a higher score never lowers any count and keeps the benefit |
| AgriculturalImpact.HigherScoreNeverLowers | src/utils/molecules.js:194-212 | in every category a higher effective score (after the 0.5 default) never lowers any count |
| AgriculturalImpact.HigherRawScoreNeverLowers | src/utils/molecules.js:190-212 | among present, non-zero raw `pesticide_activity_score` values, a higher one never lowers any count of the estimate |
| AgriculturalImpact.ZeroRawScoreReadsAsHalf | src/utils/molecules.js:192-196 | the raw score is not monotone at 0: a pesticide reaches 25000 farmers at raw score 0 (read as 0.5) but 5000 at raw score 0.1 |
| AgriculturalImpact.DefaultScoreFigures | src/utils/molecules.js:194-212 | with the default score 0.5 the estimates are (25000, 12, 15, 80), (37500, 17, 10, 60) and (12500, 7, 7, 40) |
| AtomAppearance.ColorLookup | src/components/MoleculeViewer.js:7-18 | a tabulated element gets its table colour, any other gets `#cccccc`, and every result is `#` followed by six lower-case hexadecimal digits |
| AtomAppearance.SizeLookup | src/components/MoleculeViewer.js:20-31 | a tabulated element gets its table size, any other gets 0.5, and every size lies in [0.3, 0.7] |
| AtomAppearance.TablesCoverSameElements | src/components/MoleculeViewer.js:7-31 | the colour and size tables cover the same elements |
| AtomComponent.AtomView.constructor | src/components/MoleculeViewer.js:33-35 | a new atom is not hovered and its mesh is not rotated |
| AtomComponent.AtomView.PointerOver | src/components/MoleculeViewer.js:53 | pointer-over sets the hover flag and leaves the rotation and the props alone |
| AtomComponent.AtomView.PointerOut | src/components/MoleculeViewer.js:54 | pointer-out clears the hover flag and leaves the rotation and the props alone |
| AtomComponent.AtomView.Frame | src/components/MoleculeViewer.js:37-42 | a frame adds 0.01 to the x and y rotation of a glowing atom, leaves any other atom as it was, and keeps the hover flag and the props |
| AtomComponent.AtomView.ReceiveProps | src/components/MoleculeViewer.js:148-154 | an atom keyed by its index receives new element, position and glowing props and keeps its hover flag and rotation |
| AtomComponent.HoverScaling | src/components/MoleculeViewer.js:45-46 | the radius is the element size times 1.3 exactly when hovered, and otherwise the size itself; it always lies in [0.3, 0.91] |
| AtomComponent.LabelIffHovered | src/components/MoleculeViewer.js:65-75 | a label exists exactly while hovered; it shows the element at height scaledSize + 0.5, which is above the sphere |
| AtomComponent.GlowColors | src/components/MoleculeViewer.js:44-62 | a glowing atom emits its own colour at 0.2, any other emits black at 0; hovering does not change the colour |
| AtomComponent.HoverIsVisible | src/components/MoleculeViewer.js:46-67 | the hovered rendering always differs from the plain one |
| AtomComponent.SpinAfterFrames | src/components/MoleculeViewer.js:37-42 | after n frames a glowing atom has turned by 0.01 n about x and y and not about z; an atom that does not glow never turns |
| StructureScene.Segments | src/components/MoleculeViewer.js:132-135 | there is one `{start, end}` record per bond |
| StructureScene.SegmentsAt | src/components/MoleculeViewer.js:132-135 | record k joins the end points of bond k |
| StructureScene.DetectBonds | src/components/MoleculeViewer.js:121-138 | the inline loop yields the end points of `findBonds(atoms, 2.0)`, pair for pair and in the same order |
| StructureScene.RowSegmentsStep | src/components/MoleculeViewer.js:123-136 | one pass of the inner loop adds a record exactly when the pair is closer than 2.0 |
| StructureScene.BondsBeforeSegmentsStep | src/components/MoleculeViewer.js:122-138 | one pass of the outer loop appends that row's records |
| StructureScene.SegmentsAppend | src/components/MoleculeViewer.js:121-138 | the records of two bond lists, one after the other, are the records of their concatenation |
| StructureScene.MoleculeStructure | src/components/MoleculeViewer.js:92-171 | the component renders `Scene(moleculeType, results)` |
| StructureScene.AtomListChoice | src/components/MoleculeViewer.js:94-117 | the atoms are `atom_data` whenever present, even when empty; otherwise the built-in list for the type, which equals the database's; otherwise water |
| StructureScene.SceneLayout | src/components/MoleculeViewer.js:80-170 | the scene is one grey (`#666666`) width-2 line per bond of `findBonds(atoms, 2.0)` between the bonded atoms, in bond order; then one atom element per atom, in order, glowing exactly in quantum mode; then, only in quantum mode, the radius-6 field sphere |
| StructureScene.BondsBeforeAtoms | src/components/MoleculeViewer.js:142-155 | only bond lines come before a bond line |
| StructureScene.QuantumFieldIff | src/components/MoleculeViewer.js:118-168 | the field sphere appears exactly when `quantum_energy` is truthy, and then every atom glows; an absent or zero energy gives neither |
| StructureScene.WaterScene | src/components/MoleculeViewer.js:95-155 | without results, the water scene is three bond lines followed by the atoms O, H and H |
| ViewerShell.MoleculeViewer.constructor | src/components/MoleculeViewer.js:200-201 | the error flag starts false |
| ViewerShell.MoleculeViewer.OnError | src/components/MoleculeViewer.js:222 | `onError` sets the flag and keeps the props |
| ViewerShell.MoleculeViewer.ReceiveProps | src/components/MoleculeViewer.js:200-201 | new props keep the error flag |
| ViewerShell.MoleculeViewer.Handle | src/components/MoleculeViewer.js:200-222 | after any event the flag is `ErrorAfter(old flag, [event])`; new props replace `moleculeType` and `simulationResults`, a canvas error keeps them |
| ViewerShell.ErrorOnlyFromOnError | src/components/MoleculeViewer.js:201-222 | after a run of events the flag is set exactly when it was set before or some event was a canvas error, so nothing clears it |
| ViewerShell.FallbackIffError | src/components/MoleculeViewer.js:214-231 | the fallback text "WebGL not supported. Please use a modern browser." replaces the canvas exactly while the flag is set; otherwise the canvas shows the molecule scene |
| ViewerShell.StatusFollowsResults | src/components/MoleculeViewer.js:208-210 | the status reads "Quantum Active" with class `active` exactly when results are given, and "Classical View" otherwise |
| ViewerShell.StatusWithoutQuantumField | src/components/MoleculeViewer.js:208-210 | results without `quantum_energy` show "Quantum Active" while the scene has no quantum field |
| BondInference.SquaredDistance | src/utils/molecules.js:284-290 | the square of `getBondDistance`: the sum of the squared coordinate differences; its properties are `BondDistanceProperties` |
| BondInference.WithinThreshold | src/utils/molecules.js:297 | the test `distance < maxDistance` on the squared distance; `StrictThresholdBySquares` proves it equivalent |
| BondInference.BondsOf | src/utils/molecules.js:292-309 | the list `findBonds` returns, characterised by `BondIff`, `BondsAreWellFormed` and `BondsOrderedAndBounded` |
| JsStrings.Split | src/utils/molecules.js:149 | `split(';')`: at least one piece; characterised by `SplitPiecesFree`, `JoinSplit` and `SplitJoin` |
| JsStrings.TrimStart | src/utils/molecules.js:152 | the leading half of `trim()`, never longer than its input; characterised by `TrimStartDrops` |
| JsStrings.TrimEnd | src/utils/molecules.js:152 | the trailing half of `trim()`, never longer than its input; characterised by `TrimEndDrops` |
| JsStrings.Trim | src/utils/molecules.js:152 | `trim()`: `TrimEnd` after `TrimStart`; `TrimUntouched` and `TrimLeading` state what it removes |
| JsStrings.SplitWs | src/utils/molecules.js:152 | `split(/\s+/)`: at least one piece; characterised by `SplitWsToken`, `SplitWsCons` and `SplitWsJoinWords` |
| MolecularWeight.Weight | src/utils/molecules.js:174-176 | the `reduce` sum, characterised by `WeightOfFew`, `WeightAdditive` and `WeightBounds` |
| AgriculturalImpact.ImpactFor | src/utils/molecules.js:179-216 | the returned record, characterised by `NoImpactWithoutSuccess`, `BenefitByCategory`, `CountsRoundDown` and `MissingScoreCountsAsHalf` |
| AtomAppearance.ColorOf | src/components/MoleculeViewer.js:44 | `ATOM_COLORS[element] \|\| '#cccccc'`, characterised by `ColorLookup` |
| AtomAppearance.SizeOf | src/components/MoleculeViewer.js:45 | `ATOM_SIZES[element] \|\| 0.5`, characterised by `SizeLookup` |
| AtomComponent.RenderAtom | src/components/MoleculeViewer.js:44-76 | the rendered sphere and label, characterised by `HoverScaling`, `LabelIffHovered` and `GlowColors` |
| AtomComponent.Spin | src/components/MoleculeViewer.js:37-42 | one frame's rotation, characterised by `SpinAfterFrames` |
| StructureScene.ChooseAtoms | src/components/MoleculeViewer.js:117 | the atom-list choice, characterised by `AtomListChoice` |
| StructureScene.QuantumActive | src/components/MoleculeViewer.js:118 | the truthiness of `quantum_energy`, whose effect `QuantumFieldIff` states |
| StructureScene.BondElement | src/components/MoleculeViewer.js:80-90 | the `Bond` component's line, whose colour and width `SceneLayout` states |
| StructureScene.Compose | src/components/MoleculeViewer.js:140-170 | the emitted elements, whose layout `SceneLayout` states |
| StructureScene.Scene | src/components/MoleculeViewer.js:92-171 | what `MoleculeStructure` renders, characterised by `SceneLayout`, `BondsBeforeAtoms` and `QuantumFieldIff` |
| ViewerShell.Render | src/components/MoleculeViewer.js:203-241 | what `MoleculeViewer` renders, characterised by `FallbackIffError` and `StatusFollowsResults` |

## Left out

- Square roots: bonds record the squared distance rather than the distance, and every threshold test is decided on squares.
- `parseFloat` is the parameter `num` of the parser, so NaN on bad numerals and partial numeral reading are not modelled. The fixture lemmas require `num` to read the numerals of the database strings.
- Floating point: coordinates, weights and scores are exact reals, so IEEE rounding of sums and products is not modelled. For example, the water weight is exactly 18.015.
- JavaScript property lookups on inherited keys (`ATOM_COLORS["constructor"]`, `molecules["toString"]`) are not modelled. Tables are maps with only their own keys.
- Duck typing: `atom_data` is an atom list when present, and `success` is a boolean truthiness. A NaN `quantum_energy` is not modelled: it counts as truthy here, while JavaScript treats it as falsy.
- The impact estimate computes `calculateMolecularWeight(molecule.atoms)` and never uses the result. The method keeps the call; `ImpactFor` does not mention it.
- three.js, react-three-fiber and drei are not modelled: meshes and materials beyond the colours, radii, label and field sphere; metalness and roughness; font size; lights; `OrbitControls`; the grid helper; `Suspense`; the camera; WebGL context creation.
- React scheduling is not modelled: re-render timing, hook ordering and state batching. `meshRef.current` is null before mounting; here the mesh exists from the start.
- `formatEnergy`, `formatDipole` (`toFixed` output), `generateMockSimulationData` (`Math.random`), `RWANDA_CONTEXT` and `SIMULATION_METHODS` are not part of this model. Neither are the other database fields (name, formula, description, expected properties).
- `src/App.js` (network calls and timers), `src/components/Dashboard.js`, `src/components/ControlPanel.js` and `src/App.test.js` are not part of this model.
- The caffeine entry's `atomString` has twelve records but its `atoms` list has ten atoms. `CaffeineStringHasTwelveAtoms` states the mismatch instead of asserting equality.
- Strings are sequences of Unicode scalar values, while JavaScript strings are sequences of UTF-16 code units, so lone surrogates cannot be represented. This does not change `split(';')`, `trim()` or `split(/\s+/)` on the strings that can be represented.
