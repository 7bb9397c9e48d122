/**
 * `parseMoleculeString` of `src/utils/molecules.js`: the wire format
 * `"<sym> <x> <y> <z>; <sym> <x> <y> <z>; ..."`. The text is split on `;`;
 * each record is trimmed and split on runs of white space, and a record
 * becomes an atom only when that gives exactly four fields. Other records
 * are skipped without error. An atom's `id` is its record's position among
 * all records, skipped ones included.
 *
 * `parseFloat` is not modelled: the numeric reader is the parameter `num`.
 */
module MoleculeParsing {
  import opened JsStrings
  import opened MoleculeData

  /** An atom as the parser returns it. */
  datatype ParsedAtom = ParsedAtom(id: nat, symbol: string, x: real, y: real, z: real) {
    function ToAtom(): Atom { Atom(symbol, x, y, z) }
  }

  /** `moleculeString.split(';')`. */
  function Records(moleculeString: string): seq<string> {
    Split(moleculeString, ';')
  }

  /** `line.trim().split(/\s+/)`. */
  function Fields(record: string): seq<string> {
    SplitWs(Trim(record))
  }

  /** The atom built from record number `index` with four fields. */
  function AtomOf(index: nat, fields: seq<string>, num: string -> real): ParsedAtom
    requires |fields| == 4
  {
    ParsedAtom(index, fields[0], num(fields[1]), num(fields[2]), num(fields[3]))
  }

  /** The fields of every record. */
  function FieldLists(records: seq<string>): (fields: seq<seq<string>>)
    ensures |fields| == |records|
    ensures forall k :: 0 <= k < |records| ==> fields[k] == Fields(records[k])
  {
    seq(|records|, k requires 0 <= k < |records| => Fields(records[k]))
  }

  /** The atoms pushed while visiting records 0 .. i-1, given each
      record's fields. */
  function ParsedUpTo(fields: seq<seq<string>>, num: string -> real, i: nat): seq<ParsedAtom>
    requires i <= |fields|
    decreases i
  {
    if i == 0 then []
    else ParsedUpTo(fields, num, i - 1)
         + (if |fields[i - 1]| == 4 then [AtomOf(i - 1, fields[i - 1], num)] else [])
  }

  /** The atoms the parser returns for the given records. */
  function ParsedRecords(records: seq<string>, num: string -> real): seq<ParsedAtom> {
    ParsedUpTo(FieldLists(records), num, |records|)
  }

  /** What `parseMoleculeString(moleculeString)` returns. */
  function ParsedAtoms(moleculeString: string, num: string -> real): seq<ParsedAtom> {
    ParsedRecords(Records(moleculeString), num)
  }

  /** `parseMoleculeString`: split into records, then visit them. */
  method ParseMoleculeString(moleculeString: string, num: string -> real) returns (atoms: seq<ParsedAtom>)
    ensures atoms == ParsedAtoms(moleculeString, num)
  {
    var lines := Split(moleculeString, ';');
    atoms := ParseRecords(lines, num);
  }

  /** The `forEach` over the records of `parseMoleculeString`: a record
      whose fields number exactly four is pushed as an atom whose `id` is
      the record's index. */
  method ParseRecords(lines: seq<string>, num: string -> real) returns (atoms: seq<ParsedAtom>)
    ensures atoms == ParsedUpTo(FieldLists(lines), num, |lines|)
  {
    atoms := [];
    ghost var fields := FieldLists(lines);
    for index := 0 to |lines|
      invariant atoms == ParsedUpTo(fields, num, index)
    {
      var parts := SplitWs(Trim(lines[index]));
      assert parts == fields[index];
      assert ParsedUpTo(fields, num, index + 1) == atoms
        + (if |parts| == 4 then [AtomOf(index, parts, num)] else []);
      if |parts| == 4 {
        atoms := atoms + [ParsedAtom(index, parts[0], num(parts[1]), num(parts[2]), num(parts[3]))];
      }
    }
  }

  // What the parser keeps and what it skips.

  lemma {:induction false} ParsedUpToSound(fields: seq<seq<string>>, num: string -> real, i: nat)
    requires i <= |fields|
    ensures |ParsedUpTo(fields, num, i)| <= i
    ensures forall k :: 0 <= k < |ParsedUpTo(fields, num, i)| ==>
      var a := ParsedUpTo(fields, num, i)[k];
      a.id < i && |fields[a.id]| == 4 && a == AtomOf(a.id, fields[a.id], num)
    ensures forall p, q :: 0 <= p < q < |ParsedUpTo(fields, num, i)| ==>
      ParsedUpTo(fields, num, i)[p].id < ParsedUpTo(fields, num, i)[q].id
    decreases i
  {
    if i > 0 {
      ParsedUpToSound(fields, num, i - 1);
    }
  }

  /** Some atom of `atoms` comes from record number `r`. */
  predicate HasId(atoms: seq<ParsedAtom>, r: nat) {
    exists k :: 0 <= k < |atoms| && atoms[k].id == r
  }

  lemma {:induction false} ParsedUpToComplete(fields: seq<seq<string>>, num: string -> real, i: nat)
    requires i <= |fields|
    ensures forall r: nat :: r < i && |fields[r]| == 4 ==> HasId(ParsedUpTo(fields, num, i), r)
    decreases i
  {
    if i > 0 {
      ParsedUpToComplete(fields, num, i - 1);
      var prev := ParsedUpTo(fields, num, i - 1);
      var out := ParsedUpTo(fields, num, i);
      forall r: nat | r < i && |fields[r]| == 4
        ensures HasId(out, r)
      {
        if r < i - 1 {
          var k :| 0 <= k < |prev| && prev[k].id == r;
          assert out[k] == prev[k];
        } else {
          assert out == prev + [AtomOf(r, fields[r], num)];
          assert out[|prev|].id == r;
        }
      }
    }
  }

  /** The parser keeps, in order, exactly the records with four fields:
      every atom comes from a four-field record (its `id`), ids strictly
      increase, every four-field record yields an atom, and there are never
      more atoms than records. `ParsedAtoms(s, num)` is
      `ParsedRecords(Records(s), num)`, so this holds of every string. */
  lemma ParseKeepsExactlyFourFieldRecords(records: seq<string>, num: string -> real)
    ensures var atoms := ParsedRecords(records, num);
      && |atoms| <= |records|
      && (forall k :: 0 <= k < |atoms| ==>
            atoms[k].id < |records| && |Fields(records[atoms[k].id])| == 4
            && atoms[k] == AtomOf(atoms[k].id, Fields(records[atoms[k].id]), num))
      && (forall p, q :: 0 <= p < q < |atoms| ==> atoms[p].id < atoms[q].id)
      && (forall r: nat :: r < |records| && |Fields(records[r])| == 4 ==> HasId(atoms, r))
  {
    var fields := FieldLists(records);
    ParsedUpToSound(fields, num, |fields|);
    ParsedUpToComplete(fields, num, |fields|);
  }

  /** The empty string is one empty record, which is skipped. */
  lemma ParseEmptyString(num: string -> real)
    ensures ParsedAtoms("", num) == []
  {
    assert Records("") == [""];
    assert Fields("") == [""];
  }

  // The wire format and the round trip.

  /** A field that survives the wire format: non-empty, no white space, no `;`. */
  predicate IsWireField(field: string) {
    IsToken(field) && ';' !in field
  }

  /** Records joined by `"; "`, fields by single spaces: the layout of
      `atomString` in `MOLECULE_DATABASE`. */
  function WireString(records: seq<seq<string>>): string
    requires forall k :: 0 <= k < |records| ==> |records[k]| >= 1
  {
    if |records| == 0 then ""
    else Join(seq(|records|, k requires 0 <= k < |records| =>
                    (if k == 0 then "" else " ") + JoinWords(records[k])), ';')
  }

  lemma {:induction false} ParsedUpToAllKept(fields: seq<seq<string>>, num: string -> real, i: nat)
    requires i <= |fields|
    requires forall k :: 0 <= k < |fields| ==> |fields[k]| == 4
    ensures |ParsedUpTo(fields, num, i)| == i
    ensures forall k :: 0 <= k < i ==> ParsedUpTo(fields, num, i)[k] == AtomOf(k, fields[k], num)
    decreases i
  {
    if i > 0 {
      ParsedUpToAllKept(fields, num, i - 1);
    }
  }

  /** Parsing text in the wire format reads back every record, in order,
      with its position as `id`. */
  lemma ParseWireString(records: seq<seq<string>>, num: string -> real)
    requires forall k :: 0 <= k < |records| ==> |records[k]| == 4
    requires forall k, f :: 0 <= k < |records| && 0 <= f < 4 ==> IsWireField(records[k][f])
    ensures |ParsedAtoms(WireString(records), num)| == |records|
    ensures forall k :: 0 <= k < |records| ==>
      ParsedAtoms(WireString(records), num)[k] == AtomOf(k, records[k], num)
  {
    if |records| == 0 {
      ParseEmptyString(num);
    } else {
      var lines := seq(|records|, k requires 0 <= k < |records| =>
                         (if k == 0 then "" else " ") + JoinWords(records[k]));
      forall k | 0 <= k < |records|
        ensures ';' !in lines[k] && Fields(lines[k]) == records[k]
      {
        var lead := if k == 0 then "" else " ";
        JoinWordsHasNo(records[k], ';');
        FieldsOfWords(lead, records[k]);
      }
      SplitJoin(lines, ';');
      assert FieldLists(Records(WireString(records))) == records;
      ParsedUpToAllKept(records, num, |records|);
    }
  }

  lemma {:induction false} JoinWordsHasNo(tokens: seq<string>, c: char)
    requires |tokens| >= 1 && c != ' '
    requires forall k :: 0 <= k < |tokens| ==> c !in tokens[k]
    ensures c !in JoinWords(tokens)
    decreases |tokens|
  {
    if |tokens| > 1 {
      JoinWordsHasNo(tokens[1..], c);
    }
  }

  /** The record an atom is written as, given a number formatter. */
  function AtomFields(a: Atom, format: real -> string): seq<string> {
    [a.symbol, format(a.x), format(a.y), format(a.z)]
  }

  /** Writing atoms in the wire format. */
  function Serialize(atoms: seq<Atom>, format: real -> string): string {
    WireString(seq(|atoms|, k requires 0 <= k < |atoms| => AtomFields(atoms[k], format)))
  }

  /** The formatter writes this atom's fields as wire fields that the number
      reader reads back exactly. */
  predicate RoundTrips(a: Atom, format: real -> string, num: string -> real) {
    && IsWireField(a.symbol)
    && IsWireField(format(a.x)) && num(format(a.x)) == a.x
    && IsWireField(format(a.y)) && num(format(a.y)) == a.y
    && IsWireField(format(a.z)) && num(format(a.z)) == a.z
  }

  /** Round trip: parsing a serialized atom list gives back the same
      symbols and coordinates, with ids 0, 1, 2, ... */
  lemma ParseSerialize(atoms: seq<Atom>, format: real -> string, num: string -> real)
    requires forall k :: 0 <= k < |atoms| ==> RoundTrips(atoms[k], format, num)
    ensures |ParsedAtoms(Serialize(atoms, format), num)| == |atoms|
    ensures forall k :: 0 <= k < |atoms| ==>
      ParsedAtoms(Serialize(atoms, format), num)[k].id == k &&
      ParsedAtoms(Serialize(atoms, format), num)[k].ToAtom() == atoms[k]
  {
    var records := seq(|atoms|, k requires 0 <= k < |atoms| => AtomFields(atoms[k], format));
    forall k, f | 0 <= k < |records| && 0 <= f < 4
      ensures |records[k]| == 4 && IsWireField(records[k][f])
    {
      assert records[k] == AtomFields(atoms[k], format);
      assert RoundTrips(atoms[k], format, num);
    }
    ParseWireString(records, num);
    var parsed := ParsedAtoms(Serialize(atoms, format), num);
    assert parsed == ParsedAtoms(WireString(records), num);
    forall k | 0 <= k < |atoms|
      ensures parsed[k].id == k && parsed[k].ToAtom() == atoms[k]
    {
      assert parsed[k] == AtomOf(k, records[k], num);
      assert RoundTrips(atoms[k], format, num);
    }
  }
}

module ParsingFixtures {
  import opened JsStrings
  import opened MoleculeData
  import opened MoleculeParsing

  /** Records laid out as leading spaces followed by single-space-separated
      words have those words as their fields. */
  lemma {:induction false} LaidOutFields(records: seq<string>, leads: seq<string>, words: seq<seq<string>>)
    requires |records| == |leads| == |words|
    requires forall k :: 0 <= k < |words| ==> |words[k]| >= 1 && records[k] == leads[k] + JoinWords(words[k])
    requires forall k, i :: 0 <= k < |leads| && 0 <= i < |leads[k]| ==> IsSpace(leads[k][i])
    requires forall k, f :: 0 <= k < |words| && 0 <= f < |words[k]| ==> IsToken(words[k][f])
    ensures FieldLists(records) == words
  {
    forall k | 0 <= k < |records|
      ensures Fields(records[k]) == words[k]
    {
      FieldsOfWords(leads[k], words[k]);
    }
  }

  /** Records whose fields number four each parse to one atom per record,
      and the atoms are the given ones when the number reader reads each
      record's numerals as their coordinates. */
  lemma {:induction false} ParsesTo(s: string, words: seq<seq<string>>, atoms: seq<Atom>, num: string -> real)
    requires FieldLists(Records(s)) == words
    requires |atoms| == |words|
    requires forall k :: 0 <= k < |words| ==> |words[k]| == 4 && AtomOf(k, words[k], num).ToAtom() == atoms[k]
    ensures |ParsedAtoms(s, num)| == |atoms|
    ensures forall k :: 0 <= k < |atoms| ==>
      ParsedAtoms(s, num)[k].id == k && ParsedAtoms(s, num)[k].ToAtom() == atoms[k]
  {
    ParsedUpToAllKept(words, num, |words|);
  }

  /** One more `;`-free record at the end of the text is one more piece. */
  lemma SplitSnoc(p: string, pieces: seq<string>, v: string)
    requires Split(p, ';') == pieces && ';' !in v
    ensures Split(p + ";" + v, ';') == pieces + [v]
  {
    SplitAround(p, ';', v);
    SplitNoSeparator(v, ';');
  }

  /** Text made of 3 `;`-free records joined by `;` splits into them. */
  lemma SplitThree(s: string, a: string, b: string, c: string)
    requires s == a + ";" + b + ";" + c
    requires ';' !in a && ';' !in b && ';' !in c
    ensures Split(s, ';') == [a, b, c]
  {
    SplitNoSeparator(a, ';');
    SplitSnoc(a, [a], b);
    SplitSnoc(a + ";" + b, [a, b], c);
  }

  /** Text made of 5 `;`-free records joined by `;` splits into them. */
  lemma SplitFive(s: string, a: string, b: string, c: string, d: string, e: string)
    requires s == a + ";" + b + ";" + c + ";" + d + ";" + e
    requires ';' !in a && ';' !in b && ';' !in c && ';' !in d && ';' !in e
    ensures Split(s, ';') == [a, b, c, d, e]
  {
    SplitNoSeparator(a, ';');
    SplitSnoc(a, [a], b);
    SplitSnoc(a + ";" + b, [a, b], c);
    SplitSnoc(a + ";" + b + ";" + c, [a, b, c], d);
    SplitSnoc(a + ";" + b + ";" + c + ";" + d, [a, b, c, d], e);
  }

  /** Text made of 6 `;`-free records joined by `;` splits into them. */
  lemma SplitSix(s: string, a: string, b: string, c: string, d: string, e: string, f: string)
    requires s == a + ";" + b + ";" + c + ";" + d + ";" + e + ";" + f
    requires ';' !in a && ';' !in b && ';' !in c && ';' !in d && ';' !in e && ';' !in f
    ensures Split(s, ';') == [a, b, c, d, e, f]
  {
    SplitNoSeparator(a, ';');
    SplitSnoc(a, [a], b);
    SplitSnoc(a + ";" + b, [a, b], c);
    SplitSnoc(a + ";" + b + ";" + c, [a, b, c], d);
    SplitSnoc(a + ";" + b + ";" + c + ";" + d, [a, b, c, d], e);
    SplitSnoc(a + ";" + b + ";" + c + ";" + d + ";" + e, [a, b, c, d, e], f);
  }

  /** Text made of 12 `;`-free records joined by `;` splits into them. */
  lemma SplitTwelve(s: string, a: string, b: string, c: string, d: string, e: string, f: string, g: string, h: string, i: string, j: string, k: string, l: string)
    requires s == a + ";" + b + ";" + c + ";" + d + ";" + e + ";" + f + ";" + g + ";" + h + ";" + i + ";" + j + ";" + k + ";" + l
    requires ';' !in a && ';' !in b && ';' !in c && ';' !in d && ';' !in e && ';' !in f && ';' !in g && ';' !in h && ';' !in i && ';' !in j && ';' !in k && ';' !in l
    ensures Split(s, ';') == [a, b, c, d, e, f, g, h, i, j, k, l]
  {
    SplitNoSeparator(a, ';');
    SplitSnoc(a, [a], b);
    SplitSnoc(a + ";" + b, [a, b], c);
    SplitSnoc(a + ";" + b + ";" + c, [a, b, c], d);
    SplitSnoc(a + ";" + b + ";" + c + ";" + d, [a, b, c, d], e);
    SplitSnoc(a + ";" + b + ";" + c + ";" + d + ";" + e, [a, b, c, d, e], f);
    SplitSnoc(a + ";" + b + ";" + c + ";" + d + ";" + e + ";" + f, [a, b, c, d, e, f], g);
    SplitSnoc(a + ";" + b + ";" + c + ";" + d + ";" + e + ";" + f + ";" + g, [a, b, c, d, e, f, g], h);
    SplitSnoc(a + ";" + b + ";" + c + ";" + d + ";" + e + ";" + f + ";" + g + ";" + h, [a, b, c, d, e, f, g, h], i);
    SplitSnoc(a + ";" + b + ";" + c + ";" + d + ";" + e + ";" + f + ";" + g + ";" + h + ";" + i, [a, b, c, d, e, f, g, h, i], j);
    SplitSnoc(a + ";" + b + ";" + c + ";" + d + ";" + e + ";" + f + ";" + g + ";" + h + ";" + i + ";" + j, [a, b, c, d, e, f, g, h, i, j], k);
    SplitSnoc(a + ";" + b + ";" + c + ";" + d + ";" + e + ";" + f + ";" + g + ";" + h + ";" + i + ";" + j + ";" + k, [a, b, c, d, e, f, g, h, i, j, k], l);
  }

  const WaterRecords: seq<string> := ["O 0 0 0", " H 0.76 0.59 0", " H -0.76 0.59 0"]
  const WaterLeads: seq<string> := ["", " ", " "]
  const WaterWords: seq<seq<string>> := [
    ["O", "0", "0", "0"],
    ["H", "0.76", "0.59", "0"],
    ["H", "-0.76", "0.59", "0"]]

  lemma WaterSplit(s: string)
    requires s == WaterAtomString
    ensures Records(s) == WaterRecords
  {
    SplitThree(s, "O 0 0 0", " H 0.76 0.59 0", " H -0.76 0.59 0");
  }

  lemma WaterLayout(records: seq<string>)
    requires records == WaterRecords
    ensures forall k :: 0 <= k < 3 ==> records[k] == WaterLeads[k] + JoinWords(WaterWords[k])
  {
    forall k | 0 <= k < 3
      ensures records[k] == WaterLeads[k] + JoinWords(WaterWords[k])
    {
      if k == 0 {} else if k == 1 {} else {}
    }
  }

  lemma WaterTokens()
    ensures forall k, f :: 0 <= k < 3 && 0 <= f < 4 ==> IsToken(WaterWords[k][f])
  {
    forall k, f | 0 <= k < 3 && 0 <= f < 4
      ensures IsToken(WaterWords[k][f])
    {
      if k == 0 {} else if k == 1 {} else {}
    }
  }

  lemma WaterFields(records: seq<string>)
    requires records == WaterRecords
    ensures FieldLists(records) == WaterWords
  {
    WaterLayout(records);
    WaterTokens();
    LaidOutFields(records, WaterLeads, WaterWords);
  }

  lemma WaterCoordinates(num: string -> real)
    requires num("-0.76") == -0.76 && num("0") == 0.0 && num("0.59") == 0.59 && num("0.76") == 0.76
    ensures forall k :: 0 <= k < 3 ==>
      |WaterWords[k]| == 4 && AtomOf(k, WaterWords[k], num).ToAtom() == WaterAtoms[k]
  {
    forall k | 0 <= k < 3
      ensures |WaterWords[k]| == 4 && AtomOf(k, WaterWords[k], num).ToAtom() == WaterAtoms[k]
    {
      if k == 0 {} else if k == 1 {} else {}
    }
  }

  /** `parseMoleculeString` on the water entry's `atomString` gives
      back its three atoms, with ids 0, 1, ..., given a number reader that
      reads the numerals of that string. */
  lemma WaterStringParses(s: string, num: string -> real)
    requires s == WaterAtomString
    requires num("-0.76") == -0.76 && num("0") == 0.0 && num("0.59") == 0.59 && num("0.76") == 0.76
    ensures |ParsedAtoms(s, num)| == |WaterAtoms|
    ensures forall k :: 0 <= k < |WaterAtoms| ==>
      ParsedAtoms(s, num)[k].id == k && ParsedAtoms(s, num)[k].ToAtom() == WaterAtoms[k]
  {
    WaterSplit(s);
    WaterFields(Records(s));
    WaterCoordinates(num);
    ParsesTo(s, WaterWords, WaterAtoms, num);
  }

  const PesticideRecords: seq<string> := ["C 0 0 0", " C 1.4 0 0", " N 2.8 0 0", " O 1.4 1.4 0", " Cl 0 -1.4 0", " H 2.8 1.4 0"]
  const PesticideLeads: seq<string> := ["", " ", " ", " ", " ", " "]
  const PesticideWords: seq<seq<string>> := [
    ["C", "0", "0", "0"],
    ["C", "1.4", "0", "0"],
    ["N", "2.8", "0", "0"],
    ["O", "1.4", "1.4", "0"],
    ["Cl", "0", "-1.4", "0"],
    ["H", "2.8", "1.4", "0"]]

  lemma PesticideSplit(s: string)
    requires s == PesticideAtomString
    ensures Records(s) == PesticideRecords
  {
    SplitSix(s, "C 0 0 0", " C 1.4 0 0", " N 2.8 0 0", " O 1.4 1.4 0", " Cl 0 -1.4 0", " H 2.8 1.4 0");
  }

  lemma PesticideLayout(records: seq<string>)
    requires records == PesticideRecords
    ensures forall k :: 0 <= k < 6 ==> records[k] == PesticideLeads[k] + JoinWords(PesticideWords[k])
  {
    forall k | 0 <= k < 6
      ensures records[k] == PesticideLeads[k] + JoinWords(PesticideWords[k])
    {
      if k == 0 {} else if k == 1 {} else if k == 2 {} else if k == 3 {} else if k == 4 {} else {}
    }
  }

  lemma PesticideTokens()
    ensures forall k, f :: 0 <= k < 6 && 0 <= f < 4 ==> IsToken(PesticideWords[k][f])
  {
    forall k, f | 0 <= k < 6 && 0 <= f < 4
      ensures IsToken(PesticideWords[k][f])
    {
      if k == 0 {} else if k == 1 {} else if k == 2 {} else if k == 3 {} else if k == 4 {} else {}
    }
  }

  lemma PesticideFields(records: seq<string>)
    requires records == PesticideRecords
    ensures FieldLists(records) == PesticideWords
  {
    PesticideLayout(records);
    PesticideTokens();
    LaidOutFields(records, PesticideLeads, PesticideWords);
  }

  lemma PesticideCoordinates(num: string -> real)
    requires num("-1.4") == -1.4 && num("0") == 0.0 && num("1.4") == 1.4 && num("2.8") == 2.8
    ensures forall k :: 0 <= k < 6 ==>
      |PesticideWords[k]| == 4 && AtomOf(k, PesticideWords[k], num).ToAtom() == PesticideAtoms[k]
  {
    forall k | 0 <= k < 6
      ensures |PesticideWords[k]| == 4 && AtomOf(k, PesticideWords[k], num).ToAtom() == PesticideAtoms[k]
    {
      if k == 0 {} else if k == 1 {} else if k == 2 {} else if k == 3 {} else if k == 4 {} else {}
    }
  }

  /** `parseMoleculeString` on the pesticide entry's `atomString` gives
      back its six atoms, with ids 0, 1, ..., given a number reader that
      reads the numerals of that string. */
  lemma PesticideStringParses(s: string, num: string -> real)
    requires s == PesticideAtomString
    requires num("-1.4") == -1.4 && num("0") == 0.0 && num("1.4") == 1.4 && num("2.8") == 2.8
    ensures |ParsedAtoms(s, num)| == |PesticideAtoms|
    ensures forall k :: 0 <= k < |PesticideAtoms| ==>
      ParsedAtoms(s, num)[k].id == k && ParsedAtoms(s, num)[k].ToAtom() == PesticideAtoms[k]
  {
    PesticideSplit(s);
    PesticideFields(Records(s));
    PesticideCoordinates(num);
    ParsesTo(s, PesticideWords, PesticideAtoms, num);
  }

  const NutrientRecords: seq<string> := ["C 0 0 0", " N 1.4 0 0", " N 2.8 0 0", " O 1.4 1.4 0", " Fe 4.2 0.7 0"]
  const NutrientLeads: seq<string> := ["", " ", " ", " ", " "]
  const NutrientWords: seq<seq<string>> := [
    ["C", "0", "0", "0"],
    ["N", "1.4", "0", "0"],
    ["N", "2.8", "0", "0"],
    ["O", "1.4", "1.4", "0"],
    ["Fe", "4.2", "0.7", "0"]]

  lemma NutrientSplit(s: string)
    requires s == NutrientAtomString
    ensures Records(s) == NutrientRecords
  {
    SplitFive(s, "C 0 0 0", " N 1.4 0 0", " N 2.8 0 0", " O 1.4 1.4 0", " Fe 4.2 0.7 0");
  }

  lemma NutrientLayout(records: seq<string>)
    requires records == NutrientRecords
    ensures forall k :: 0 <= k < 5 ==> records[k] == NutrientLeads[k] + JoinWords(NutrientWords[k])
  {
    forall k | 0 <= k < 5
      ensures records[k] == NutrientLeads[k] + JoinWords(NutrientWords[k])
    {
      if k == 0 {} else if k == 1 {} else if k == 2 {} else if k == 3 {} else {}
    }
  }

  lemma NutrientTokens()
    ensures forall k, f :: 0 <= k < 5 && 0 <= f < 4 ==> IsToken(NutrientWords[k][f])
  {
    forall k, f | 0 <= k < 5 && 0 <= f < 4
      ensures IsToken(NutrientWords[k][f])
    {
      if k == 0 {} else if k == 1 {} else if k == 2 {} else if k == 3 {} else {}
    }
  }

  lemma NutrientFields(records: seq<string>)
    requires records == NutrientRecords
    ensures FieldLists(records) == NutrientWords
  {
    NutrientLayout(records);
    NutrientTokens();
    LaidOutFields(records, NutrientLeads, NutrientWords);
  }

  lemma NutrientCoordinates(num: string -> real)
    requires num("0") == 0.0 && num("0.7") == 0.7 && num("1.4") == 1.4 && num("2.8") == 2.8 && num("4.2") == 4.2
    ensures forall k :: 0 <= k < 5 ==>
      |NutrientWords[k]| == 4 && AtomOf(k, NutrientWords[k], num).ToAtom() == NutrientAtoms[k]
  {
    forall k | 0 <= k < 5
      ensures |NutrientWords[k]| == 4 && AtomOf(k, NutrientWords[k], num).ToAtom() == NutrientAtoms[k]
    {
      if k == 0 {} else if k == 1 {} else if k == 2 {} else if k == 3 {} else {}
    }
  }

  /** `parseMoleculeString` on the nutrient entry's `atomString` gives
      back its five atoms, with ids 0, 1, ..., given a number reader that
      reads the numerals of that string. */
  lemma NutrientStringParses(s: string, num: string -> real)
    requires s == NutrientAtomString
    requires num("0") == 0.0 && num("0.7") == 0.7 && num("1.4") == 1.4 && num("2.8") == 2.8 && num("4.2") == 4.2
    ensures |ParsedAtoms(s, num)| == |NutrientAtoms|
    ensures forall k :: 0 <= k < |NutrientAtoms| ==>
      ParsedAtoms(s, num)[k].id == k && ParsedAtoms(s, num)[k].ToAtom() == NutrientAtoms[k]
  {
    NutrientSplit(s);
    NutrientFields(Records(s));
    NutrientCoordinates(num);
    ParsesTo(s, NutrientWords, NutrientAtoms, num);
  }

  const CaffeineRecords: seq<string> := ["C 0 0 0", " C 1.4 0 0", " C 2.8 0 0", " N 4.2 0 0", " N 2.8 1.4 0", " C 1.4 1.4 0", " C 0 1.4 0", " N 0 2.8 0", " C 1.4 2.8 0", " N 2.8 2.8 0", " O 4.2 1.4 0", " O 1.4 4.2 0"]
  const CaffeineLeads: seq<string> := ["", " ", " ", " ", " ", " ", " ", " ", " ", " ", " ", " "]
  const CaffeineWords: seq<seq<string>> := [
    ["C", "0", "0", "0"],
    ["C", "1.4", "0", "0"],
    ["C", "2.8", "0", "0"],
    ["N", "4.2", "0", "0"],
    ["N", "2.8", "1.4", "0"],
    ["C", "1.4", "1.4", "0"],
    ["C", "0", "1.4", "0"],
    ["N", "0", "2.8", "0"],
    ["C", "1.4", "2.8", "0"],
    ["N", "2.8", "2.8", "0"],
    ["O", "4.2", "1.4", "0"],
    ["O", "1.4", "4.2", "0"]]

  lemma CaffeineSplit(s: string)
    requires s == CaffeineAtomString
    ensures Records(s) == CaffeineRecords
  {
    SplitTwelve(s, "C 0 0 0", " C 1.4 0 0", " C 2.8 0 0", " N 4.2 0 0", " N 2.8 1.4 0", " C 1.4 1.4 0", " C 0 1.4 0", " N 0 2.8 0", " C 1.4 2.8 0", " N 2.8 2.8 0", " O 4.2 1.4 0", " O 1.4 4.2 0");
  }

  lemma CaffeineLayoutHead(records: seq<string>)
    requires records == CaffeineRecords
    ensures forall k :: 0 <= k < 6 ==> records[k] == CaffeineLeads[k] + JoinWords(CaffeineWords[k])
  {
    forall k | 0 <= k < 6
      ensures records[k] == CaffeineLeads[k] + JoinWords(CaffeineWords[k])
    {
      if k == 0 {} else if k == 1 {} else if k == 2 {} else if k == 3 {} else if k == 4 {} else {}
    }
  }

  lemma CaffeineLayoutTail(records: seq<string>)
    requires records == CaffeineRecords
    ensures forall k :: 6 <= k < 12 ==> records[k] == CaffeineLeads[k] + JoinWords(CaffeineWords[k])
  {
    forall k | 6 <= k < 12
      ensures records[k] == CaffeineLeads[k] + JoinWords(CaffeineWords[k])
    {
      if k == 6 {} else if k == 7 {} else if k == 8 {} else if k == 9 {} else if k == 10 {} else {}
    }
  }

  lemma CaffeineTokens()
    ensures forall k, f :: 0 <= k < 12 && 0 <= f < 4 ==> IsToken(CaffeineWords[k][f])
  {
    forall k, f | 0 <= k < 12 && 0 <= f < 4
      ensures IsToken(CaffeineWords[k][f])
    {
      if k == 0 {} else if k == 1 {} else if k == 2 {} else if k == 3 {} else if k == 4 {} else if k == 5 {} else if k == 6 {} else if k == 7 {} else if k == 8 {} else if k == 9 {} else if k == 10 {} else {}
    }
  }

  lemma CaffeineFields(records: seq<string>)
    requires records == CaffeineRecords
    ensures FieldLists(records) == CaffeineWords
  {
    CaffeineLayoutHead(records);
    CaffeineLayoutTail(records);
    CaffeineTokens();
    LaidOutFields(records, CaffeineLeads, CaffeineWords);
  }

  /** The caffeine entry's `atomString` has twelve four-field records, so
      it parses to twelve atoms whatever the number reader, while the
      entry's `atoms` list has ten: the two do not describe the same
      molecule. */
  lemma CaffeineStringHasTwelveAtoms(s: string, num: string -> real)
    requires s == CaffeineAtomString
    ensures |ParsedAtoms(s, num)| == 12
    ensures |ParsedAtoms(s, num)| != |CaffeineAtoms|
  {
    CaffeineSplit(s);
    CaffeineFields(Records(s));
    ParsedUpToAllKept(CaffeineWords, num, 12);
  }
}
