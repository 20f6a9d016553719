/**
  The vendored M49 snapshot: the verifier that accepts or refuses the file, and the generator's
  own extraction of the country table from the same bytes.

  The pinned country table is any list of pins. Decoding the bytes as UTF-8 is a parameter.
 */
module M49 {
  import opened Wrappers
  import opened Csv
  import opened Text

  type Byte = b: int | 0 <= b < 256

  /** UTF-8 decoding: the text, or nothing for bytes that are not valid. */
  type Decoder = seq<Byte> -> Option<string>

  const CSV_HEADER := "m49_region_code," + "m49_code," + "iso_3166_1_alpha_2," + "name," + "region"
  const MINIMUM_DATA_ROWS: nat := 150

  /** One country of the canonical table. */
  datatype Pin = Pin(iso: string, m49: string, region: string)

  /** One extracted row. */
  datatype Row = Row(iso: string, m49: string, region: string)

  predicate IsDigits(s: string) { |s| == 3 && forall c :: c in s ==> '0' <= c <= '9' }

  predicate IsIso(s: string) { |s| == 2 && forall c :: c in s ==> 'A' <= c <= 'Z' }

  /** The five fields of a well-formed data line. */
  function FieldsOf(line: string): Option<seq<string>> {
    if line != [] && Parse(line).Success? && |Parse(line).value| == 5 then Some(Parse(line).value) else None
  }

  function Field(line: string, i: nat): string
    requires i < 5
  {
    if FieldsOf(line).Some? then FieldsOf(line).value[i] else []
  }

  function Iso(line: string): string { Field(line, 2) }

  function RowOf(line: string): Row { Row(Field(line, 2), Field(line, 1), Field(line, 4)) }

  // ---------------------------------------------------------------------------------------
  // The row loop, as a fold over the data lines

  datatype Scan = Scan(
    seen: map<string, (string, string)>,
    previous: Option<string>,
    counts: map<string, nat>,
    clean: bool)

  /** The six checks on a parsed row. */
  predicate RowOk(mapping: map<string, string>, scan: Scan, line: string) {
    var code, m49, iso, name, region := Field(line, 0), Field(line, 1), Field(line, 2), Field(line, 3), Field(line, 4);
    && code in mapping
    && IsDigits(m49)
    && IsIso(iso)
    && iso !in scan.seen
    && (scan.previous.Some? ==> Less(scan.previous.value, iso))
    && (code in mapping ==> region == mapping[code])
    && !Blank(name)
  }

  function Tally(counts: map<string, nat>, region: string): map<string, nat> {
    counts[region := (if region in counts then counts[region] else 0) + 1]
  }

  function ScanRow(mapping: map<string, string>, scan: Scan, line: string): Scan {
    if FieldsOf(line).None? then scan.(clean := false)
    else
      Scan(scan.seen[Iso(line) := (Field(line, 1), Field(line, 4))],
           Some(Iso(line)),
           Tally(scan.counts, Field(line, 4)),
           scan.clean && RowOk(mapping, scan, line))
  }

  function InitialScan(mapping: map<string, string>): Scan {
    Scan(map[], None, map region | region in mapping.Values :: 0, true)
  }

  function ScanRows(mapping: map<string, string>, rows: seq<string>): Scan {
    if rows == [] then InitialScan(mapping)
    else ScanRow(mapping, ScanRows(mapping, rows[..|rows| - 1]), rows[|rows| - 1])
  }

  // ---------------------------------------------------------------------------------------
  // Acceptance

  /** The lines of the file, without the empty piece behind a final newline. */
  function LinesOf(text: string): seq<string> {
    var pieces := SplitOn(text, '\n');
    if pieces[|pieces| - 1] == [] then pieces[..|pieces| - 1] else pieces
  }

  predicate EndsWithNewline(bytes: seq<Byte>) { bytes != [] && bytes[|bytes| - 1] == 10 }

  predicate RegionsFilled(counts: map<string, nat>) {
    forall region :: region in counts ==> counts[region] != 0
  }

  ghost predicate SameCodes(seen: map<string, (string, string)>, pins: seq<Pin>) {
    && (forall i :: 0 <= i < |pins| ==> pins[i].iso in seen)
    && (forall iso :: iso in seen ==> exists i :: 0 <= i < |pins| && pins[i].iso == iso)
  }

  /** A pinned country that was seen has its pinned code and region. */
  predicate Pinned(seen: map<string, (string, string)>, pin: Pin) {
    pin.iso in seen ==> seen[pin.iso] == (pin.m49, pin.region)
  }

  ghost predicate AcceptsLines(mapping: map<string, string>, pins: seq<Pin>, lines: seq<string>) {
    && lines != []
    && lines[0] == CSV_HEADER
    && var scan := ScanRows(mapping, lines[1..]);
       && scan.clean
       && |lines| - 1 >= MINIMUM_DATA_ROWS
       && RegionsFilled(scan.counts)
       && SameCodes(scan.seen, pins)
       && (forall i :: 0 <= i < |pins| ==> Pinned(scan.seen, pins[i]))
  }

  ghost predicate Accepts(decode: Decoder, mapping: map<string, string>, pins: seq<Pin>, bytes: seq<Byte>) {
    && EndsWithNewline(bytes)
    && 13 !in bytes
    && decode(bytes).Some?
    && AcceptsLines(mapping, pins, LinesOf(decode(bytes).value))
  }

  // ---------------------------------------------------------------------------------------
  // Extraction

  function RowsOf(lines: seq<string>): Result<seq<Row>, string> {
    if lines == [] then Success([])
    else if lines[0] == [] then RowsOf(lines[1..])
    else if FieldsOf(lines[0]).None? then Failure("malformed row")
    else
      match RowsOf(lines[1..])
      case Success(rest) => Success([RowOf(lines[0])] + rest)
      case Failure(e) => Failure(e)
  }

  function CountryRowsOf(decode: Decoder, bytes: seq<Byte>): Result<seq<Row>, string> {
    match decode(bytes)
    case None => Failure("not UTF-8")
    case Some(text) => RowsOf(SplitOn(text, '\n')[1..])
  }

  // ---------------------------------------------------------------------------------------
  // What a clean scan says of the lines it read

  /** The number of well-formed rows of a region. */
  function RowsIn(rows: seq<string>, region: string): nat {
    if rows == [] then 0
    else
      var last := rows[|rows| - 1];
      RowsIn(rows[..|rows| - 1], region) + (if FieldsOf(last).Some? && Field(last, 4) == region then 1 else 0)
  }

  /** The tally is the number of rows, region by region, whatever else is wrong with the file. */
  lemma {:induction false} ScanCounts(mapping: map<string, string>, rows: seq<string>, region: string)
    ensures var counts := ScanRows(mapping, rows).counts;
      (if region in counts then counts[region] else 0) == RowsIn(rows, region)
  {
    if rows != [] {
      ScanCounts(mapping, rows[..|rows| - 1], region);
    }
  }

  /** Counted are exactly the regions of the taxonomy and those that have a row. */
  lemma {:induction false} ScanKeys(mapping: map<string, string>, rows: seq<string>, region: string)
    ensures region in ScanRows(mapping, rows).counts <==> region in mapping.Values || RowsIn(rows, region) > 0
  {
    if rows != [] {
      ScanKeys(mapping, rows[..|rows| - 1], region);
    }
  }

  /** The tally of `rows`: which regions it counts, and how many rows of each. */
  ghost predicate IsTally(mapping: map<string, string>, rows: seq<string>, counts: map<string, nat>) {
    && (forall region :: region in counts <==> region in mapping.Values || RowsIn(rows, region) > 0)
    && (forall region :: region in counts ==> counts[region] == RowsIn(rows, region))
  }

  lemma ScanTallies(mapping: map<string, string>, rows: seq<string>)
    ensures IsTally(mapping, rows, ScanRows(mapping, rows).counts)
  {
    forall region
      ensures region in ScanRows(mapping, rows).counts <==> region in mapping.Values || RowsIn(rows, region) > 0
    {
      ScanKeys(mapping, rows, region);
    }
    forall region | region in ScanRows(mapping, rows).counts
      ensures ScanRows(mapping, rows).counts[region] == RowsIn(rows, region)
    {
      ScanCounts(mapping, rows, region);
    }
  }

  /** The lines behind the header, if the file can be read at all. */
  function DataLines(decode: Decoder, bytes: seq<Byte>): seq<string> {
    if bytes == [] || decode(bytes).None? || LinesOf(decode(bytes).value) == [] then []
    else LinesOf(decode(bytes).value)[1..]
  }

  function Isos(rows: seq<string>): seq<string> { seq(|rows|, i requires 0 <= i < |rows| => Iso(rows[i])) }

  /** What a clean row adds to a scan. */
  lemma CleanRow(mapping: map<string, string>, rows: seq<string>)
    requires rows != [] && ScanRows(mapping, rows).clean
    ensures var before, last := ScanRows(mapping, rows[..|rows| - 1]), rows[|rows| - 1];
      && before.clean && FieldsOf(last).Some? && Iso(last) !in before.seen
      && (before.previous.Some? ==> Less(before.previous.value, Iso(last)))
      && ScanRows(mapping, rows).seen == before.seen[Iso(last) := (Field(last, 1), Field(last, 4))]
      && ScanRows(mapping, rows).previous == Some(Iso(last))
  {
  }

  /** The line is recorded under its ISO code. */
  predicate Recorded(seen: map<string, (string, string)>, line: string) {
    Iso(line) in seen && seen[Iso(line)] == (Field(line, 1), Field(line, 4))
  }

  lemma {:induction false} CleanRecords(mapping: map<string, string>, rows: seq<string>)
    requires ScanRows(mapping, rows).clean
    ensures forall i :: 0 <= i < |rows| ==> FieldsOf(rows[i]).Some? && Recorded(ScanRows(mapping, rows).seen, rows[i])
  {
    if rows != [] {
      CleanRow(mapping, rows);
      var init := rows[..|rows| - 1];
      CleanRecords(mapping, init);
      forall i | 0 <= i < |rows| - 1
        ensures FieldsOf(rows[i]).Some? && Recorded(ScanRows(mapping, rows).seen, rows[i])
      {
        assert rows[i] == init[i];
        assert Recorded(ScanRows(mapping, init).seen, init[i]);
      }
    }
  }

  lemma {:induction false} CleanCodes(mapping: map<string, string>, rows: seq<string>, iso: string) returns (i: nat)
    requires ScanRows(mapping, rows).clean && iso in ScanRows(mapping, rows).seen
    ensures i < |rows| && Iso(rows[i]) == iso
  {
    CleanRow(mapping, rows);
    if iso == Iso(rows[|rows| - 1]) {
      i := |rows| - 1;
    } else {
      i := CleanCodes(mapping, rows[..|rows| - 1], iso);
    }
  }

  /** A clean scan has read every line, and seen exactly the codes of those lines. */
  lemma CleanScan(mapping: map<string, string>, rows: seq<string>)
    requires ScanRows(mapping, rows).clean
    ensures forall i :: 0 <= i < |rows| ==> FieldsOf(rows[i]).Some? && Recorded(ScanRows(mapping, rows).seen, rows[i])
    ensures forall iso :: iso in ScanRows(mapping, rows).seen ==> exists i :: 0 <= i < |rows| && Iso(rows[i]) == iso
    ensures rows != [] ==> ScanRows(mapping, rows).previous == Some(Iso(rows[|rows| - 1]))
  {
    CleanRecords(mapping, rows);
    forall iso | iso in ScanRows(mapping, rows).seen ensures exists i :: 0 <= i < |rows| && Iso(rows[i]) == iso {
      var i := CleanCodes(mapping, rows, iso);
    }
    if rows != [] {
      CleanRow(mapping, rows);
    }
  }

  lemma IsosSnoc(rows: seq<string>)
    requires rows != []
    ensures Isos(rows) == Isos(rows[..|rows| - 1]) + [Iso(rows[|rows| - 1])]
  {
  }

  /** A clean row comes after the one before it. */
  lemma CleanRowAscends(mapping: map<string, string>, rows: seq<string>)
    requires |rows| > 1 && ScanRows(mapping, rows).clean
    ensures Less(Iso(rows[|rows| - 2]), Iso(rows[|rows| - 1]))
  {
    CleanRow(mapping, rows);
    CleanRow(mapping, rows[..|rows| - 1]);
  }

  lemma {:induction false} CleanScanIsSorted(mapping: map<string, string>, rows: seq<string>)
    requires ScanRows(mapping, rows).clean
    ensures StrictlySorted(Isos(rows))
  {
    if rows != [] {
      var init := rows[..|rows| - 1];
      CleanRow(mapping, rows);
      CleanScanIsSorted(mapping, init);
      if init != [] {
        CleanRowAscends(mapping, rows);
      }
      SortedSnoc(Isos(init), Iso(rows[|rows| - 1]));
      IsosSnoc(rows);
    }
  }

  // ---------------------------------------------------------------------------------------
  // Acceptance determines extraction

  function PinIsos(pins: seq<Pin>): seq<string> { seq(|pins|, i requires 0 <= i < |pins| => pins[i].iso) }

  function Table(pins: seq<Pin>): seq<Row> {
    seq(|pins|, i requires 0 <= i < |pins| => Row(pins[i].iso, pins[i].m49, pins[i].region))
  }

  lemma SameElements(mapping: map<string, string>, rows: seq<string>, pins: seq<Pin>)
    requires ScanRows(mapping, rows).clean && SameCodes(ScanRows(mapping, rows).seen, pins)
    ensures forall iso :: iso in Isos(rows) <==> iso in PinIsos(pins)
  {
    CleanScan(mapping, rows);
    var seen := ScanRows(mapping, rows).seen;
    forall iso ensures iso in Isos(rows) <==> iso in seen {
      if iso in Isos(rows) {
        var i :| 0 <= i < |rows| && Isos(rows)[i] == iso;
        assert Recorded(seen, rows[i]);
      }
      if iso in seen {
        var i :| 0 <= i < |rows| && Iso(rows[i]) == iso;
        assert Isos(rows)[i] == iso;
      }
    }
    forall iso ensures iso in PinIsos(pins) <==> iso in seen {
      if iso in PinIsos(pins) {
        var i :| 0 <= i < |pins| && PinIsos(pins)[i] == iso;
        assert pins[i].iso in seen;
      }
      if iso in seen {
        var i :| 0 <= i < |pins| && pins[i].iso == iso;
        assert PinIsos(pins)[i] == iso;
      }
    }
  }

  /** An accepted file's data lines are the pinned table, row for row. */
  lemma AcceptedRows(mapping: map<string, string>, pins: seq<Pin>, rows: seq<string>)
    requires StrictlySorted(PinIsos(pins)) && ScanRows(mapping, rows).clean
    requires SameCodes(ScanRows(mapping, rows).seen, pins)
    requires forall i :: 0 <= i < |pins| ==> Pinned(ScanRows(mapping, rows).seen, pins[i])
    ensures |rows| == |pins| && forall i :: 0 <= i < |rows| ==> RowOf(rows[i]) == Table(pins)[i]
  {
    CleanScan(mapping, rows);
    CleanScanIsSorted(mapping, rows);
    SameElements(mapping, rows, pins);
    SortedIsUnique(Isos(rows), PinIsos(pins));
    forall i | 0 <= i < |rows| ensures RowOf(rows[i]) == Table(pins)[i] {
      assert Isos(rows)[i] == PinIsos(pins)[i];
      assert Recorded(ScanRows(mapping, rows).seen, rows[i]);
      assert Pinned(ScanRows(mapping, rows).seen, pins[i]);
    }
  }

  /** Well-formed lines extract to their rows; an empty last piece adds nothing. */
  lemma {:induction false} ExtractRows(rows: seq<string>, tail: seq<string>)
    requires forall i :: 0 <= i < |rows| ==> FieldsOf(rows[i]).Some?
    requires tail == [] || tail == [[]]
    ensures RowsOf(rows + tail) == Success(seq(|rows|, i requires 0 <= i < |rows| => RowOf(rows[i])))
  {
    if rows == [] {
      assert rows + tail == tail;
    } else {
      assert (rows + tail)[1..] == rows[1..] + tail;
      ExtractRows(rows[1..], tail);
      assert seq(|rows|, i requires 0 <= i < |rows| => RowOf(rows[i])) ==
             [RowOf(rows[0])] + seq(|rows[1..]|, i requires 0 <= i < |rows[1..]| => RowOf(rows[1..][i]));
    }
  }

  lemma SplitLines(text: string)
    requires LinesOf(text) != []
    ensures SplitOn(text, '\n')[1..] == LinesOf(text)[1..] || SplitOn(text, '\n')[1..] == LinesOf(text)[1..] + [[]]
  {
    var pieces := SplitOn(text, '\n');
    assert pieces == pieces[..|pieces| - 1] + [pieces[|pieces| - 1]];
  }

  lemma ExtractAccepted(mapping: map<string, string>, pins: seq<Pin>, lines: seq<string>, pieces: seq<string>)
    requires StrictlySorted(PinIsos(pins)) && AcceptsLines(mapping, pins, lines)
    requires pieces == lines[1..] || pieces == lines[1..] + [[]]
    ensures RowsOf(pieces) == Success(Table(pins))
  {
    var rows := lines[1..];
    CleanScan(mapping, rows);
    AcceptedRows(mapping, pins, rows);
    var tail := if pieces == rows then [] else [[]];
    assert pieces == rows + tail;
    ExtractRows(rows, tail);
    assert seq(|rows|, i requires 0 <= i < |rows| => RowOf(rows[i])) == Table(pins);
  }

  /**
    Accept determines extract: when the verifier finds nothing wrong, the generator's extraction
    of the same bytes cannot fail and is the pinned table, row for row and in order.
   */
  lemma AcceptDeterminesExtract(decode: Decoder, mapping: map<string, string>, pins: seq<Pin>, bytes: seq<Byte>)
    requires StrictlySorted(PinIsos(pins)) && Accepts(decode, mapping, pins, bytes)
    ensures CountryRowsOf(decode, bytes) == Success(Table(pins))
  {
    var text := decode(bytes).value;
    SplitLines(text);
    ExtractAccepted(mapping, pins, LinesOf(text), SplitOn(text, '\n')[1..]);
  }
}
