/**
  What the snapshot verifier accepts, stated on the parsed fields of the lines alone, in both
  directions: which rows scan clean, which files are accepted, that the file written for a table
  is one of them, and what the extraction yields on any file.
 */
module M49Accept {
  import opened Wrappers
  import opened Csv
  import opened CsvFormat
  import opened Text
  import opened M49

  // ---------------------------------------------------------------------------------------
  // Rows

  /** The fields of a good row: region code, M49 code, ISO code, name and region. */
  ghost predicate GoodFields(mapping: map<string, string>, f: seq<string>) {
    && |f| == 5
    && f[0] in mapping && mapping[f[0]] == f[4]
    && |f[1]| == 3 && (forall i :: 0 <= i < 3 ==> '0' <= f[1][i] <= '9')
    && |f[2]| == 2 && (forall i :: 0 <= i < 2 ==> 'A' <= f[2][i] <= 'Z')
    && (exists i :: 0 <= i < |f[3]| && !IsWhitespace(f[3][i]))
  }

  /** Every line parses to good fields, and the ISO codes ascend strictly over the whole file. */
  ghost predicate GoodRows(mapping: map<string, string>, rows: seq<string>, fields: seq<seq<string>>) {
    && |fields| == |rows|
    && (forall i :: 0 <= i < |rows| ==> Parse(rows[i]) == Success(fields[i]) && GoodFields(mapping, fields[i]))
    && (forall i, j :: 0 <= i < j < |rows| ==> Precedes(fields[i][2], fields[j][2]))
  }

  lemma DigitsAre(s: string)
    ensures IsDigits(s) <==> |s| == 3 && forall i :: 0 <= i < 3 ==> '0' <= s[i] <= '9'
  {
    if IsDigits(s) {
      assert s[0] in s && s[1] in s && s[2] in s;
    }
  }

  lemma IsoIs(s: string)
    ensures IsIso(s) <==> |s| == 2 && forall i :: 0 <= i < 2 ==> 'A' <= s[i] <= 'Z'
  {
    if IsIso(s) {
      assert s[0] in s && s[1] in s;
    }
  }

  lemma NotBlankIs(s: string)
    ensures !Blank(s) <==> exists i :: 0 <= i < |s| && !IsWhitespace(s[i])
  {
  }

  lemma GoodFieldsAreOk(mapping: map<string, string>, scan: Scan, line: string)
    requires FieldsOf(line).Some?
    ensures RowOk(mapping, scan, line) <==>
            && GoodFields(mapping, Parse(line).value) && Iso(line) !in scan.seen
            && (scan.previous.Some? ==> Less(scan.previous.value, Iso(line)))
  {
    var f := Parse(line).value;
    DigitsAre(f[1]);
    IsoIs(f[2]);
    NotBlankIs(f[3]);
  }

  lemma {:induction false} CleanRowsAreGood(mapping: map<string, string>, rows: seq<string>, i: nat)
    requires ScanRows(mapping, rows).clean && i < |rows|
    ensures Parse(rows[i]).Success? && GoodFields(mapping, Parse(rows[i]).value)
    ensures Iso(rows[i]) == Parse(rows[i]).value[2]
  {
    var init, last := rows[..|rows| - 1], rows[|rows| - 1];
    CleanRow(mapping, rows);
    if i < |rows| - 1 {
      CleanRowsAreGood(mapping, init, i);
    } else {
      GoodFieldsAreOk(mapping, ScanRows(mapping, init), last);
    }
  }

  /** The parsed fields of lines that all parse. */
  function Fields(rows: seq<string>): seq<seq<string>> {
    seq(|rows|, i requires 0 <= i < |rows| => if Parse(rows[i]).Success? then Parse(rows[i]).value else [])
  }

  lemma CleanIsGood(mapping: map<string, string>, rows: seq<string>)
    requires ScanRows(mapping, rows).clean
    ensures GoodRows(mapping, rows, Fields(rows))
  {
    var fields := Fields(rows);
    forall i | 0 <= i < |rows|
      ensures Parse(rows[i]) == Success(fields[i]) && GoodFields(mapping, fields[i]) && Iso(rows[i]) == fields[i][2]
    {
      CleanRowsAreGood(mapping, rows, i);
    }
    CleanScanIsSorted(mapping, rows);
    forall i, j | 0 <= i < j < |rows| ensures Precedes(fields[i][2], fields[j][2]) {
      assert Less(Isos(rows)[i], Isos(rows)[j]);
      LessIsLexicographic(fields[i][2], fields[j][2]);
    }
  }

  lemma GoodLine(mapping: map<string, string>, rows: seq<string>, fields: seq<seq<string>>, i: nat)
    requires GoodRows(mapping, rows, fields) && i < |rows|
    ensures FieldsOf(rows[i]) == Some(fields[i]) && Iso(rows[i]) == fields[i][2]
  {
    assert Parse(rows[i]) == Success(fields[i]) && |fields[i]| == 5;
    assert Parse([]) == Success([[]]);
  }

  lemma GoodInit(mapping: map<string, string>, rows: seq<string>, fields: seq<seq<string>>)
    requires GoodRows(mapping, rows, fields) && rows != []
    ensures GoodRows(mapping, rows[..|rows| - 1], fields[..|rows| - 1])
  {
  }

  /** The last of good rows is new and comes after the one before it. */
  lemma GoodLast(mapping: map<string, string>, rows: seq<string>, fields: seq<seq<string>>)
    requires GoodRows(mapping, rows, fields) && rows != [] && ScanRows(mapping, rows[..|rows| - 1]).clean
    ensures var before, last := ScanRows(mapping, rows[..|rows| - 1]), rows[|rows| - 1];
      && Iso(last) !in before.seen
      && (before.previous.Some? ==> Less(before.previous.value, Iso(last)))
  {
    var n, init := |rows| - 1, rows[..|rows| - 1];
    var before := ScanRows(mapping, init);
    GoodLine(mapping, rows, fields, n);
    CleanScan(mapping, init);
    forall i | 0 <= i < n ensures Less(Iso(init[i]), Iso(rows[n])) {
      GoodLine(mapping, rows, fields, i);
      assert init[i] == rows[i] && Precedes(fields[i][2], fields[n][2]);
      LessIsLexicographic(fields[i][2], fields[n][2]);
    }
    LessIrreflexive(Iso(rows[n]));
  }

  lemma {:induction false} GoodIsClean(mapping: map<string, string>, rows: seq<string>, fields: seq<seq<string>>)
    requires GoodRows(mapping, rows, fields)
    ensures ScanRows(mapping, rows).clean
    decreases |rows|
  {
    if rows != [] {
      var init, last := rows[..|rows| - 1], rows[|rows| - 1];
      GoodInit(mapping, rows, fields);
      GoodIsClean(mapping, init, fields[..|rows| - 1]);
      GoodLast(mapping, rows, fields);
      GoodLine(mapping, rows, fields, |rows| - 1);
      GoodFieldsAreOk(mapping, ScanRows(mapping, init), last);
    }
  }

  /** Rows scan clean exactly if they are good. */
  lemma CleanExactly(mapping: map<string, string>, rows: seq<string>)
    ensures ScanRows(mapping, rows).clean <==> exists fields :: GoodRows(mapping, rows, fields)
  {
    if ScanRows(mapping, rows).clean {
      CleanIsGood(mapping, rows);
    }
    forall fields | GoodRows(mapping, rows, fields) ensures ScanRows(mapping, rows).clean {
      GoodIsClean(mapping, rows, fields);
    }
  }

  // ---------------------------------------------------------------------------------------
  // Lines

  /** The text of a file whose lines all end in a newline. */
  function FileOf(lines: seq<string>): string {
    if lines == [] then [] else lines[0] + ['\n'] + FileOf(lines[1..])
  }

  /** `lines` are the lines of `text`; the last one may lack its newline. */
  ghost predicate IsLines(text: string, lines: seq<string>) {
    && NoneHolds(lines, '\n')
    && (text == FileOf(lines) || (lines != [] && lines[|lines| - 1] != [] && text + ['\n'] == FileOf(lines)))
  }

  lemma {:induction false} SplitFile(lines: seq<string>)
    requires NoneHolds(lines, '\n')
    ensures SplitOn(FileOf(lines), '\n') == lines + [[]]
  {
    if lines != [] {
      SplitFile(lines[1..]);
      SplitAt(lines[0], FileOf(lines[1..]), '\n');
      assert [lines[0]] + (lines[1..] + [[]]) == lines + [[]];
    }
  }

  lemma {:induction false} SplitUnfinished(text: string)
    ensures SplitOn(text + ['\n'], '\n') == SplitOn(text, '\n') + [[]]
  {
    if text == [] {
      assert text + ['\n'] == ['\n'] && ['\n'][1..] == [];
    } else {
      SplitUnfinished(text[1..]);
      assert (text + ['\n'])[1..] == text[1..] + ['\n'];
    }
  }

  lemma LinesAreSplit(text: string, lines: seq<string>)
    requires IsLines(text, lines)
    ensures LinesOf(text) == lines
  {
    SplitFile(lines);
    if text == FileOf(lines) {
      assert (lines + [[]])[..|lines|] == lines;
    } else {
      SplitUnfinished(text);
      assert SplitOn(text, '\n') == (lines + [[]])[..|lines|] == lines;
    }
  }

  lemma {:induction false} JoinFile(pieces: seq<string>)
    requires pieces != []
    ensures Join(pieces, '\n') + ['\n'] == FileOf(pieces)
  {
    if |pieces| > 1 {
      JoinFile(pieces[1..]);
    } else {
      assert pieces[1..] == [] && FileOf([]) == [];
    }
  }

  lemma {:induction false} JoinFinished(pieces: seq<string>)
    requires pieces != [] && pieces[|pieces| - 1] == []
    ensures Join(pieces, '\n') == FileOf(pieces[..|pieces| - 1])
  {
    if |pieces| > 1 {
      JoinFinished(pieces[1..]);
      assert pieces[..|pieces| - 1][1..] == pieces[1..][..|pieces| - 2];
    }
  }

  lemma SplitAreLines(text: string)
    ensures IsLines(text, LinesOf(text))
  {
    var pieces := SplitOn(text, '\n');
    JoinSplit(text, '\n');
    if pieces[|pieces| - 1] == [] {
      JoinFinished(pieces);
    } else {
      JoinFile(pieces);
    }
  }

  /** The verifier's lines are the lines of the text. */
  lemma LinesExactly(text: string, lines: seq<string>)
    ensures LinesOf(text) == lines <==> IsLines(text, lines)
  {
    SplitAreLines(text);
    if IsLines(text, lines) {
      LinesAreSplit(text, lines);
    }
  }

  // ---------------------------------------------------------------------------------------
  // Files

  /** A row's fields carry a pin. */
  predicate Carries(f: seq<string>, pin: Pin) {
    |f| == 5 && f[2] == pin.iso && f[1] == pin.m49 && f[4] == pin.region
  }

  ghost predicate IsCarried(fields: seq<seq<string>>, pin: Pin) {
    exists i :: 0 <= i < |fields| && Carries(fields[i], pin)
  }

  ghost predicate HasPin(pins: seq<Pin>, iso: string) {
    exists k :: 0 <= k < |pins| && pins[k].iso == iso
  }

  /** The rows carry the pins, all of them and no other code. */
  ghost predicate Matches(fields: seq<seq<string>>, pins: seq<Pin>) {
    && (forall k :: 0 <= k < |pins| ==> IsCarried(fields, pins[k]))
    && (forall i :: 0 <= i < |fields| ==> |fields[i]| == 5 && HasPin(pins, fields[i][2]))
  }

  /** Every region of the taxonomy has a row. */
  ghost predicate Covers(fields: seq<seq<string>>, mapping: map<string, string>) {
    forall region :: region in mapping.Values ==>
      exists i :: 0 <= i < |fields| && |fields[i]| == 5 && fields[i][4] == region
  }

  ghost predicate GoodFile(mapping: map<string, string>, pins: seq<Pin>, text: string,
                           rows: seq<string>, fields: seq<seq<string>>) {
    && IsLines(text, [CSV_HEADER] + rows)
    && GoodRows(mapping, rows, fields)
    && |rows| >= 150
    && Covers(fields, mapping)
    && Matches(fields, pins)
  }

  lemma {:induction false} RowsInAre(rows: seq<string>, region: string)
    ensures RowsIn(rows, region) > 0 <==>
            exists i :: 0 <= i < |rows| && FieldsOf(rows[i]).Some? && Field(rows[i], 4) == region
  {
    if rows != [] {
      RowsInAre(rows[..|rows| - 1], region);
      assert rows == rows[..|rows| - 1] + [rows[|rows| - 1]];
    }
  }

  lemma FilledIsCovering(mapping: map<string, string>, rows: seq<string>, fields: seq<seq<string>>)
    requires GoodRows(mapping, rows, fields)
    ensures RegionsFilled(ScanRows(mapping, rows).counts) <==> Covers(fields, mapping)
  {
    ScanTallies(mapping, rows);
    forall i | 0 <= i < |rows| ensures FieldsOf(rows[i]) == Some(fields[i]) && Field(rows[i], 4) == fields[i][4] {
      GoodLine(mapping, rows, fields, i);
    }
    forall region
      ensures RowsIn(rows, region) > 0 <==> exists i :: 0 <= i < |fields| && |fields[i]| == 5 && fields[i][4] == region
    {
      RowsInAre(rows, region);
    }
  }

  lemma RecordedFields(mapping: map<string, string>, rows: seq<string>, fields: seq<seq<string>>, i: nat)
    requires GoodRows(mapping, rows, fields) && i < |rows|
    ensures var seen := ScanRows(mapping, rows).seen;
      |fields[i]| == 5 && fields[i][2] in seen && seen[fields[i][2]] == (fields[i][1], fields[i][4])
  {
    GoodIsClean(mapping, rows, fields);
    CleanScan(mapping, rows);
    GoodLine(mapping, rows, fields, i);
    assert Recorded(ScanRows(mapping, rows).seen, rows[i]);
  }

  lemma SeenIsAField(mapping: map<string, string>, rows: seq<string>, fields: seq<seq<string>>, iso: string)
    returns (i: nat)
    requires GoodRows(mapping, rows, fields) && iso in ScanRows(mapping, rows).seen
    ensures i < |fields| && |fields[i]| == 5 && fields[i][2] == iso
    ensures ScanRows(mapping, rows).seen[iso] == (fields[i][1], fields[i][4])
  {
    GoodIsClean(mapping, rows, fields);
    i := CleanCodes(mapping, rows, iso);
    GoodLine(mapping, rows, fields, i);
    RecordedFields(mapping, rows, fields, i);
  }

  /** What the verifier checks of the seen codes against the table. */
  ghost predicate PinnedCodes(seen: map<string, (string, string)>, pins: seq<Pin>) {
    SameCodes(seen, pins) && forall k :: 0 <= k < |pins| ==> Pinned(seen, pins[k])
  }

  lemma PinIsCarried(mapping: map<string, string>, rows: seq<string>, fields: seq<seq<string>>, pin: Pin)
    requires GoodRows(mapping, rows, fields)
    ensures IsCarried(fields, pin) <==>
            pin.iso in ScanRows(mapping, rows).seen && Pinned(ScanRows(mapping, rows).seen, pin)
  {
    if i :| 0 <= i < |fields| && Carries(fields[i], pin) {
      RecordedFields(mapping, rows, fields, i);
    }
    if pin.iso in ScanRows(mapping, rows).seen && Pinned(ScanRows(mapping, rows).seen, pin) {
      var i := SeenIsAField(mapping, rows, fields, pin.iso);
      assert Carries(fields[i], pin);
    }
  }

  lemma CodesArePinned(mapping: map<string, string>, rows: seq<string>, fields: seq<seq<string>>, pins: seq<Pin>)
    requires GoodRows(mapping, rows, fields)
    ensures (forall iso :: iso in ScanRows(mapping, rows).seen ==> HasPin(pins, iso)) <==>
            (forall i :: 0 <= i < |fields| ==> |fields[i]| == 5 && HasPin(pins, fields[i][2]))
  {
    forall i | 0 <= i < |fields| ensures |fields[i]| == 5 && fields[i][2] in ScanRows(mapping, rows).seen {
      RecordedFields(mapping, rows, fields, i);
    }
    forall iso | iso in ScanRows(mapping, rows).seen
      ensures exists i :: 0 <= i < |fields| && |fields[i]| == 5 && fields[i][2] == iso
    {
      var i := SeenIsAField(mapping, rows, fields, iso);
    }
  }

  lemma SameCodesIs(seen: map<string, (string, string)>, pins: seq<Pin>)
    ensures SameCodes(seen, pins) <==>
            (forall k :: 0 <= k < |pins| ==> pins[k].iso in seen) && (forall iso :: iso in seen ==> HasPin(pins, iso))
  {
  }

  lemma PinnedIsMatching(mapping: map<string, string>, rows: seq<string>, fields: seq<seq<string>>, pins: seq<Pin>)
    requires GoodRows(mapping, rows, fields)
    ensures PinnedCodes(ScanRows(mapping, rows).seen, pins) <==> Matches(fields, pins)
  {
    var seen := ScanRows(mapping, rows).seen;
    SameCodesIs(seen, pins);
    CodesArePinned(mapping, rows, fields, pins);
    forall k | 0 <= k < |pins|
      ensures IsCarried(fields, pins[k]) <==> pins[k].iso in seen && Pinned(seen, pins[k])
    {
      PinIsCarried(mapping, rows, fields, pins[k]);
    }
  }

  /** The file as bytes: it ends in a newline, holds no carriage return and is text. */
  ghost predicate GoodBytes(decode: Decoder, bytes: seq<Byte>) {
    bytes != [] && bytes[|bytes| - 1] == 10 && 13 !in bytes && decode(bytes).Some?
  }

  lemma AcceptedIsGood(decode: Decoder, mapping: map<string, string>, pins: seq<Pin>, bytes: seq<Byte>)
    returns (rows: seq<string>, fields: seq<seq<string>>)
    requires Accepts(decode, mapping, pins, bytes)
    ensures GoodBytes(decode, bytes) && GoodFile(mapping, pins, decode(bytes).value, rows, fields)
  {
    var text := decode(bytes).value;
    var lines := LinesOf(text);
    rows, fields := lines[1..], Fields(lines[1..]);
    assert lines == [CSV_HEADER] + rows;
    SplitAreLines(text);
    CleanIsGood(mapping, rows);
    FilledIsCovering(mapping, rows, fields);
    PinnedIsMatching(mapping, rows, fields, pins);
  }

  lemma GoodIsAccepted(decode: Decoder, mapping: map<string, string>, pins: seq<Pin>, bytes: seq<Byte>,
                       rows: seq<string>, fields: seq<seq<string>>)
    requires GoodBytes(decode, bytes) && GoodFile(mapping, pins, decode(bytes).value, rows, fields)
    ensures Accepts(decode, mapping, pins, bytes)
  {
    var lines := [CSV_HEADER] + rows;
    LinesAreSplit(decode(bytes).value, lines);
    assert lines[1..] == rows;
    GoodIsClean(mapping, rows, fields);
    FilledIsCovering(mapping, rows, fields);
    PinnedIsMatching(mapping, rows, fields, pins);
  }

  /** The bytes of a good file. */
  ghost predicate IsGood(decode: Decoder, mapping: map<string, string>, pins: seq<Pin>, bytes: seq<Byte>) {
    && GoodBytes(decode, bytes)
    && exists rows, fields :: GoodFile(mapping, pins, decode(bytes).value, rows, fields)
  }

  /** Exactly the good files are accepted, for any table and any taxonomy. */
  lemma AcceptsExactly(decode: Decoder, mapping: map<string, string>, pins: seq<Pin>, bytes: seq<Byte>)
    ensures Accepts(decode, mapping, pins, bytes) <==> IsGood(decode, mapping, pins, bytes)
  {
    if Accepts(decode, mapping, pins, bytes) {
      var rows, fields := AcceptedIsGood(decode, mapping, pins, bytes);
    }
    if GoodBytes(decode, bytes) {
      forall rows, fields | GoodFile(mapping, pins, decode(bytes).value, rows, fields)
        ensures Accepts(decode, mapping, pins, bytes)
      {
        GoodIsAccepted(decode, mapping, pins, bytes, rows, fields);
      }
    }
  }

  // ---------------------------------------------------------------------------------------
  // The file written for a table

  /** A line with every field in quotes. */
  function QuotedLine(fields: seq<string>): string
    requires fields != []
  {
    WriteRecord(seq(|fields|, i requires 0 <= i < |fields| => Cell(fields[i], true)))
  }

  lemma {:induction false} EscapeAddsOnlyQuotes(text: string, c: char)
    requires c != '"' && c !in text
    ensures c !in Escape(text)
  {
    if text != [] {
      EscapeAddsOnlyQuotes(text[1..], c);
    }
  }

  lemma CellAddsOnlyQuotes(cell: Cell, c: char)
    requires c != '"' && c !in cell.text
    ensures c !in WriteCell(cell)
  {
    EscapeAddsOnlyQuotes(cell.text, c);
  }

  lemma {:induction false} LeadingAddsOnlySigns(cells: seq<Cell>, c: char)
    requires c != '"' && c != ',' && forall i :: 0 <= i < |cells| ==> c !in cells[i].text
    ensures c !in WriteLeading(cells)
  {
    if cells != [] {
      CellAddsOnlyQuotes(cells[0], c);
      LeadingAddsOnlySigns(cells[1..], c);
    }
  }

  lemma QuotedLineParses(fields: seq<string>)
    requires fields != [] && NoneHolds(fields, '\n')
    ensures Parse(QuotedLine(fields)) == Success(fields) && '\n' !in QuotedLine(fields)
  {
    AlwaysQuoting(fields);
    var cells := seq(|fields|, i requires 0 <= i < |fields| => Cell(fields[i], true));
    LeadingAddsOnlySigns(cells[..|cells| - 1], '\n');
    CellAddsOnlyQuotes(cells[|cells| - 1], '\n');
  }

  lemma FirstColumnsAreOneLine()
    ensures '\n' !in "m49_region_code," && '\n' !in "m49_code,"
  {
  }

  lemma LastColumnsAreOneLine()
    ensures '\n' !in "iso_3166_1_alpha_2," && '\n' !in "name," && '\n' !in "region"
  {
  }

  lemma SumIsOneLine(a: string, b: string, c: string, d: string, e: string)
    requires '\n' !in a && '\n' !in b && '\n' !in c && '\n' !in d && '\n' !in e
    ensures '\n' !in a + b + c + d + e
  {
  }

  lemma HeaderIsOneLine()
    ensures '\n' !in CSV_HEADER
  {
    FirstColumnsAreOneLine();
    LastColumnsAreOneLine();
    SumIsOneLine("m49_region_code,", "m49_code,", "iso_3166_1_alpha_2,", "name,", "region");
  }

  lemma FileHasLines(header: string, rows: seq<string>)
    requires '\n' !in header && NoneHolds(rows, '\n')
    ensures IsLines(FileOf([header] + rows), [header] + rows)
  {
  }

  /** Good fields for the pins, one row each, in the table's order. */
  ghost predicate FieldsFor(mapping: map<string, string>, pins: seq<Pin>, fields: seq<seq<string>>) {
    && |fields| == |pins|
    && (forall i :: 0 <= i < |pins| ==> GoodFields(mapping, fields[i]) && Carries(fields[i], pins[i]))
    && (forall i :: 0 <= i < |pins| ==> NoneHolds(fields[i], '\n'))
  }

  ghost predicate LinesFor(fields: seq<seq<string>>, rows: seq<string>) {
    |rows| == |fields| && forall i :: 0 <= i < |fields| ==> fields[i] != [] && rows[i] == QuotedLine(fields[i])
  }

  lemma WrittenRowsAreGood(mapping: map<string, string>, pins: seq<Pin>, fields: seq<seq<string>>, rows: seq<string>)
    requires StrictlySorted(PinIsos(pins)) && FieldsFor(mapping, pins, fields) && LinesFor(fields, rows)
    ensures GoodRows(mapping, rows, fields) && NoneHolds(rows, '\n') && Matches(fields, pins)
  {
    forall i | 0 <= i < |rows| ensures Parse(rows[i]) == Success(fields[i]) && '\n' !in rows[i] {
      assert GoodFields(mapping, fields[i]);
      QuotedLineParses(fields[i]);
    }
    forall i, j | 0 <= i < j < |rows| ensures Precedes(fields[i][2], fields[j][2]) {
      assert Carries(fields[i], pins[i]) && Carries(fields[j], pins[j]);
      assert Less(PinIsos(pins)[i], PinIsos(pins)[j]);
      LessIsLexicographic(fields[i][2], fields[j][2]);
    }
    forall i | 0 <= i < |pins| ensures IsCarried(fields, pins[i]) && HasPin(pins, fields[i][2]) {
      assert Carries(fields[i], pins[i]);
    }
  }

  /**
    The file written for a strictly sorted table of at least 150 pins (the header and one quoted
    line per pin, with a region code the taxonomy maps to the pin's region and a name that is not
    blank, every region of the taxonomy occurring) is accepted and extracts to that table.
   */
  lemma WrittenFileIsAccepted(decode: Decoder, mapping: map<string, string>, pins: seq<Pin>,
                              fields: seq<seq<string>>, rows: seq<string>, bytes: seq<Byte>)
    requires StrictlySorted(PinIsos(pins)) && |pins| >= 150
    requires FieldsFor(mapping, pins, fields) && Covers(fields, mapping) && LinesFor(fields, rows)
    requires GoodBytes(decode, bytes) && decode(bytes).value == FileOf([CSV_HEADER] + rows)
    ensures Accepts(decode, mapping, pins, bytes)
    ensures CountryRowsOf(decode, bytes) == Success(Table(pins))
  {
    WrittenRowsAreGood(mapping, pins, fields, rows);
    HeaderIsOneLine();
    FileHasLines(CSV_HEADER, rows);
    GoodIsAccepted(decode, mapping, pins, bytes, rows, fields);
    AcceptDeterminesExtract(decode, mapping, pins, bytes);
  }

  // ---------------------------------------------------------------------------------------
  // Extraction from any file

  /** The lines that are not empty. */
  function Kept(lines: seq<string>): seq<string> {
    if lines == [] then [] else (if lines[0] == [] then [] else [lines[0]]) + Kept(lines[1..])
  }

  predicate IsRowOf(line: string, row: Row) {
    && Parse(line).Success? && |Parse(line).value| == 5
    && row.iso == Parse(line).value[2] && row.m49 == Parse(line).value[1] && row.region == Parse(line).value[4]
  }

  ghost predicate Extracts(lines: seq<string>, rows: seq<Row>) {
    |rows| == |lines| && forall i :: 0 <= i < |lines| ==> IsRowOf(lines[i], rows[i])
  }

  lemma ExtractsCons(line: string, lines: seq<string>, rows: seq<Row>)
    ensures Extracts([line] + lines, rows) <==> rows != [] && IsRowOf(line, rows[0]) && Extracts(lines, rows[1..])
  {
    var all := [line] + lines;
    assert all[0] == line && all[1..] == lines;
    if Extracts(all, rows) {
      forall i | 0 <= i < |lines| ensures IsRowOf(lines[i], rows[1..][i]) {
        assert IsRowOf(all[i + 1], rows[i + 1]);
      }
    }
  }

  /** The extraction succeeds exactly if every line that is not empty has five fields, row for row. */
  lemma {:induction false} ExtractionExact(lines: seq<string>, rows: seq<Row>)
    ensures RowsOf(lines) == Success(rows) <==> Extracts(Kept(lines), rows)
  {
    if lines != [] {
      if lines[0] == [] {
        assert Kept(lines) == Kept(lines[1..]);
        ExtractionExact(lines[1..], rows);
      } else {
        ExtractsCons(lines[0], Kept(lines[1..]), rows);
        if rows != [] {
          ExtractionExact(lines[1..], rows[1..]);
          assert rows == [rows[0]] + rows[1..];
        }
      }
    }
  }
}
