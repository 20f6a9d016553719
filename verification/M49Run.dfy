/** The snapshot verifier and the extraction as they run: loops that collect violations and rows. */
module M49Run {
  import opened Wrappers
  import opened Csv
  import opened Text
  import opened M49
  import opened M49Accept

  datatype Violation =
    | EmptyFile
    | NoFinalNewline
    | CarriageReturn
    | NotUtf8
    | NoHeader
    | WrongHeader(got: string)
    | BlankLine(row: nat)
    | Malformed(row: nat, error: CsvError)
    | FieldCount(row: nat, count: nat)
    | UnknownRegionCode(row: nat, code: string)
    | BadM49Code(row: nat, m49: string)
    | BadIso(row: nat, iso: string)
    | DuplicateIso(row: nat, iso: string)
    | NotSorted(row: nat, iso: string)
    | RegionMismatch(row: nat, region: string)
    | EmptyName(row: nat)
    | TooFewRows(count: nat)
    | EmptyRegion(region: string)
    | MissingIso(iso: string)
    | ForeignIso(iso: string)
    | WrongM49Code(iso: string, got: string)
    | WrongRegion(iso: string, got: string)

  function When(condition: bool, v: Violation): seq<Violation> { if condition then [v] else [] }

  /** The violations whose condition is met, in order. */
  function Reported(checks: seq<(bool, Violation)>): (vs: seq<Violation>)
    ensures vs == [] <==> forall i :: 0 <= i < |checks| ==> !checks[i].0
  {
    if checks == [] then [] else When(checks[0].0, checks[0].1) + Reported(checks[1..])
  }

  lemma {:induction false} ReportedHas(checks: seq<(bool, Violation)>, v: Violation)
    ensures v in Reported(checks) <==> exists i :: 0 <= i < |checks| && checks[i] == (true, v)
  {
    if checks != [] {
      ReportedHas(checks[1..], v);
      assert checks == [checks[0]] + checks[1..];
    }
  }

  /** A violation no other check names is reported exactly if its own condition is met. */
  lemma ReportedOnce(checks: seq<(bool, Violation)>, i: nat)
    requires i < |checks| && forall j :: 0 <= j < |checks| && j != i ==> checks[j].1 != checks[i].1
    ensures checks[i].1 in Reported(checks) <==> checks[i].0
  {
    ReportedHas(checks, checks[i].1);
  }

  /** The checks on the fields of one row, each reported exactly if it fails. */
  method CheckFields(mapping: map<string, string>, scan: Scan, f: seq<string>, row: nat) returns (vs: seq<Violation>)
    requires |f| == 5
    ensures UnknownRegionCode(row, f[0]) in vs <==> f[0] !in mapping
    ensures BadM49Code(row, f[1]) in vs <==> !IsDigits(f[1])
    ensures BadIso(row, f[2]) in vs <==> !IsIso(f[2])
    ensures DuplicateIso(row, f[2]) in vs <==> f[2] in scan.seen
    ensures NotSorted(row, f[2]) in vs <==> scan.previous.Some? && !Less(scan.previous.value, f[2])
    ensures RegionMismatch(row, f[4]) in vs <==> f[0] in mapping && mapping[f[0]] != f[4]
    ensures EmptyName(row) in vs <==> Blank(f[3])
    ensures vs == [] <==>
            && f[0] in mapping && IsDigits(f[1]) && IsIso(f[2]) && f[2] !in scan.seen
            && (scan.previous.Some? ==> Less(scan.previous.value, f[2]))
            && mapping[f[0]] == f[4] && !Blank(f[3])
  {
    var checks := [
      (f[0] !in mapping, UnknownRegionCode(row, f[0])),
      (!IsDigits(f[1]), BadM49Code(row, f[1])),
      (!IsIso(f[2]), BadIso(row, f[2])),
      (f[2] in scan.seen, DuplicateIso(row, f[2])),
      (scan.previous.Some? && !Less(scan.previous.value, f[2]), NotSorted(row, f[2])),
      (f[0] in mapping && f[4] != mapping[f[0]], RegionMismatch(row, f[4])),
      (Blank(f[3]), EmptyName(row))];
    vs := Reported(checks);
    SevenChecks(checks);
  }

  /** The checks on one parsed row. */
  method CheckRow(mapping: map<string, string>, scan: Scan, line: string, row: nat) returns (vs: seq<Violation>)
    requires FieldsOf(line).Some?
    ensures vs == [] <==> RowOk(mapping, scan, line)
  {
    vs := CheckFields(mapping, scan, FieldsOf(line).value, row);
  }

  lemma SevenChecks(checks: seq<(bool, Violation)>)
    requires |checks| == 7 && forall i, j :: 0 <= i < j < 7 ==> checks[i].1 != checks[j].1
    ensures var vs := Reported(checks);
      && (checks[0].1 in vs <==> checks[0].0) && (checks[1].1 in vs <==> checks[1].0)
      && (checks[2].1 in vs <==> checks[2].0) && (checks[3].1 in vs <==> checks[3].0)
      && (checks[4].1 in vs <==> checks[4].0) && (checks[5].1 in vs <==> checks[5].0)
      && (checks[6].1 in vs <==> checks[6].0)
      && (vs == [] <==> !checks[0].0 && !checks[1].0 && !checks[2].0 && !checks[3].0
                        && !checks[4].0 && !checks[5].0 && !checks[6].0)
  {
    forall i | 0 <= i < 7 ensures checks[i].1 in Reported(checks) <==> checks[i].0 {
      ReportedOnce(checks, i);
    }
  }

  /** One round of the row loop: the scan goes on, and is clean while nothing was found. */
  method ScanLine(mapping: map<string, string>, scan: Scan, line: string, row: nat)
    returns (scan': Scan, vs: seq<Violation>)
    ensures scan' == ScanRow(mapping, scan, line)
    ensures scan'.clean <==> scan.clean && vs == []
    ensures line == [] ==> vs == [BlankLine(row)]
    ensures line != [] && Parse(line).Failure? ==> vs == [Malformed(row, Parse(line).error)]
    ensures line != [] && Parse(line).Success? && |Parse(line).value| != 5 ==>
              vs == [FieldCount(row, |Parse(line).value|)]
  {
    scan' := scan.(clean := false);
    if line == [] {
      return scan', [BlankLine(row)];
    }
    var parsed := ParseCsvLine(line);
    if parsed.Failure? {
      return scan', [Malformed(row, parsed.error)];
    }
    var fields := parsed.value;
    if |fields| != 5 {
      return scan', [FieldCount(row, |fields|)];
    }
    vs := CheckRow(mapping, scan, line, row);
    var seen, counts := scan.seen, scan.counts;
    seen := seen[fields[2] := (fields[1], fields[4])];
    if fields[4] !in counts {
      counts := counts[fields[4] := 0];
    }
    counts := counts[fields[4] := counts[fields[4]] + 1];
    scan' := Scan(seen, Some(fields[2]), counts, scan.clean && vs == []);
  }

  /** The row loop over the lines behind the header. */
  method ScanLines(mapping: map<string, string>, lines: seq<string>) returns (scan: Scan, vs: seq<Violation>)
    requires lines != []
    ensures scan == ScanRows(mapping, lines[1..]) && (scan.clean <==> vs == [])
  {
    scan, vs := InitialScan(mapping), [];
    ghost var rows := lines[1..];
    for i := 1 to |lines|
      invariant scan == ScanRows(mapping, rows[..i - 1]) && (scan.clean <==> vs == [])
    {
      var found;
      assert rows[..i][..i - 1] == rows[..i - 1] && rows[..i][i - 1] == lines[i];
      scan, found := ScanLine(mapping, scan, lines[i], i);
      vs := vs + found;
    }
    assert rows[..|lines| - 1] == rows;
  }

  /** Every region the taxonomy or a row names has a row; each that has none is reported. */
  method CheckRegions(counts: map<string, nat>) returns (vs: seq<Violation>)
    ensures vs == [] <==> RegionsFilled(counts)
    ensures forall region :: EmptyRegion(region) in vs <==> region in counts && counts[region] == 0
  {
    vs := [];
    var todo := counts.Keys;
    while todo != {}
      invariant todo <= counts.Keys
      invariant vs == [] <==> forall region :: region in counts && region !in todo ==> counts[region] != 0
      invariant forall region ::
        EmptyRegion(region) in vs <==> region in counts && region !in todo && counts[region] == 0
      decreases |todo|
    {
      var region :| region in todo;
      if counts[region] == 0 {
        vs := vs + [EmptyRegion(region)];
      }
      todo := todo - {region};
    }
  }

  /** Codes of the table that were not seen, each by name. */
  method CheckMissing(seen: map<string, (string, string)>, pins: seq<Pin>) returns (vs: seq<Violation>)
    ensures vs == [] <==> forall i :: 0 <= i < |pins| ==> pins[i].iso in seen
    ensures forall iso :: MissingIso(iso) in vs <==> HasPin(pins, iso) && iso !in seen
  {
    vs := [];
    for i := 0 to |pins|
      invariant vs == [] <==> forall j :: 0 <= j < i ==> pins[j].iso in seen
      invariant forall iso :: MissingIso(iso) in vs <==> HasPin(pins[..i], iso) && iso !in seen
    {
      HasPinSnoc(pins, i);
      if pins[i].iso !in seen {
        vs := vs + [MissingIso(pins[i].iso)];
      }
    }
    assert pins[..|pins|] == pins;
  }

  lemma HasPinSnoc(pins: seq<Pin>, i: nat)
    requires i < |pins|
    ensures forall iso :: HasPin(pins[..i + 1], iso) <==> HasPin(pins[..i], iso) || pins[i].iso == iso
  {
    var all, init := pins[..i + 1], pins[..i];
    forall iso ensures HasPin(all, iso) <==> HasPin(init, iso) || pins[i].iso == iso {
      if HasPin(init, iso) {
        var k :| 0 <= k < |init| && init[k].iso == iso;
        assert all[k].iso == iso;
      }
      if pins[i].iso == iso {
        assert all[i].iso == iso;
      }
      if HasPin(all, iso) && pins[i].iso != iso {
        var k :| 0 <= k < |all| && all[k].iso == iso;
        assert init[k].iso == iso;
      }
    }
  }

  /** Codes that were seen and are not of the table, each by name. */
  method CheckForeign(seen: map<string, (string, string)>, pins: seq<Pin>) returns (vs: seq<Violation>)
    ensures vs == [] <==> forall iso :: iso in seen ==> HasPin(pins, iso)
    ensures forall iso :: ForeignIso(iso) in vs <==> iso in seen && !HasPin(pins, iso)
  {
    vs := [];
    var todo := seen.Keys;
    while todo != {}
      invariant todo <= seen.Keys
      invariant vs == [] <==> forall iso :: iso in seen && iso !in todo ==> HasPin(pins, iso)
      invariant forall iso :: ForeignIso(iso) in vs <==> iso in seen && iso !in todo && !HasPin(pins, iso)
      decreases |todo|
    {
      var iso :| iso in todo;
      var pinned := IsPinned(pins, iso);
      if !pinned {
        vs := vs + [ForeignIso(iso)];
      }
      todo := todo - {iso};
    }
  }

  method IsPinned(pins: seq<Pin>, iso: string) returns (pinned: bool)
    ensures pinned <==> HasPin(pins, iso)
  {
    pinned := exists i :: 0 <= i < |pins| && pins[i].iso == iso;
  }

  /** Each seen country against its pin. */
  method CheckPins(seen: map<string, (string, string)>, pins: seq<Pin>) returns (vs: seq<Violation>)
    ensures vs == [] <==> forall i :: 0 <= i < |pins| ==> Pinned(seen, pins[i])
    ensures forall i :: 0 <= i < |pins| && pins[i].iso in seen ==>
      && (seen[pins[i].iso].0 != pins[i].m49 ==> WrongM49Code(pins[i].iso, seen[pins[i].iso].0) in vs)
      && (seen[pins[i].iso].1 != pins[i].region ==> WrongRegion(pins[i].iso, seen[pins[i].iso].1) in vs)
  {
    vs := [];
    for i := 0 to |pins|
      invariant vs == [] <==> forall j :: 0 <= j < i ==> Pinned(seen, pins[j])
      invariant forall j :: 0 <= j < i && pins[j].iso in seen ==>
        && (seen[pins[j].iso].0 != pins[j].m49 ==> WrongM49Code(pins[j].iso, seen[pins[j].iso].0) in vs)
        && (seen[pins[j].iso].1 != pins[j].region ==> WrongRegion(pins[j].iso, seen[pins[j].iso].1) in vs)
    {
      var pin := pins[i];
      if pin.iso in seen {
        var (m49, region) := seen[pin.iso];
        vs := vs
            + When(m49 != pin.m49, WrongM49Code(pin.iso, m49))
            + When(region != pin.region, WrongRegion(pin.iso, region));
      }
    }
  }

  method VerifyLines(mapping: map<string, string>, pins: seq<Pin>, lines: seq<string>)
    returns (vs: seq<Violation>, counts: map<string, nat>)
    ensures vs == [] <==> AcceptsLines(mapping, pins, lines)
    ensures IsTally(mapping, if lines == [] then [] else lines[1..], counts)
  {
    if lines == [] {
      ScanTallies(mapping, []);
      return [NoHeader], InitialScan(mapping).counts;
    }
    var scan, rowVs := ScanLines(mapping, lines);
    var regionVs := CheckRegions(scan.counts);
    var missingVs := CheckMissing(scan.seen, pins);
    var foreignVs := CheckForeign(scan.seen, pins);
    SameCodesIs(scan.seen, pins);
    var pinVs := CheckPins(scan.seen, pins);
    vs := When(lines[0] != CSV_HEADER, WrongHeader(lines[0]))
        + rowVs
        + When(|lines| - 1 < MINIMUM_DATA_ROWS, TooFewRows(|lines| - 1))
        + regionVs + missingVs + foreignVs + pinVs;
    counts := scan.counts;
    ScanTallies(mapping, lines[1..]);
  }

  /** The verifier's gates on the bytes, then its checks of the lines. */
  method VerifyBytes(decode: Decoder, mapping: map<string, string>, pins: seq<Pin>, bytes: seq<Byte>)
    returns (vs: seq<Violation>, counts: map<string, nat>)
    ensures vs == [] <==> Accepts(decode, mapping, pins, bytes)
    ensures IsTally(mapping, DataLines(decode, bytes), counts)
  {
    ScanTallies(mapping, []);
    counts := InitialScan(mapping).counts;
    if bytes == [] {
      return [EmptyFile], counts;
    }
    vs := When(bytes[|bytes| - 1] != 10, NoFinalNewline) + When(13 in bytes, CarriageReturn);
    var text := decode(bytes);
    if text.None? {
      return vs + [NotUtf8], counts;
    }
    var more;
    more, counts := VerifyLines(mapping, pins, LinesOf(text.value));
    vs := vs + more;
  }

  /** The snapshot verifier: it reports nothing exactly for a good file. */
  method VerifyCsv(decode: Decoder, mapping: map<string, string>, pins: seq<Pin>, bytes: seq<Byte>)
    returns (vs: seq<Violation>, counts: map<string, nat>)
    ensures vs == [] <==> Accepts(decode, mapping, pins, bytes)
    ensures vs == [] <==> IsGood(decode, mapping, pins, bytes)
    ensures IsTally(mapping, DataLines(decode, bytes), counts)
  {
    vs, counts := VerifyBytes(decode, mapping, pins, bytes);
    AcceptsExactly(decode, mapping, pins, bytes);
  }

  /** The extraction loop. */
  method CountryRows(decode: Decoder, bytes: seq<Byte>) returns (r: Result<seq<Row>, string>)
    ensures r == CountryRowsOf(decode, bytes)
  {
    var text := decode(bytes);
    if text.None? {
      return Failure("not UTF-8");
    }
    var pieces := SplitOn(text.value, '\n')[1..];
    var rows: seq<Row> := [];
    assert pieces[0..] == pieces;
    OntoNothing(RowsOf(pieces));
    for i := 0 to |pieces|
      invariant RowsOf(pieces) == Onto(rows, RowsOf(pieces[i..]))
    {
      assert pieces[i..][1..] == pieces[i + 1..];
      if pieces[i] != [] {
        var fields := ParseCsvLine(pieces[i]);
        if fields.Failure? || |fields.value| != 5 {
          return Failure("malformed row");
        }
        OntoSnoc(rows, RowOf(pieces[i]), RowsOf(pieces[i + 1..]));
        rows := rows + [Row(fields.value[2], fields.value[1], fields.value[4])];
      }
    }
    assert rows + [] == rows;
    r := Success(rows);
  }

  lemma OntoNothing(r: Result<seq<Row>, string>)
    ensures Onto([], r) == r
  {
    if r.Success? {
      assert [] + r.value == r.value;
    }
  }

  function Onto(rows: seq<Row>, r: Result<seq<Row>, string>): Result<seq<Row>, string> {
    if r.Success? then Success(rows + r.value) else r
  }

  lemma OntoSnoc(rows: seq<Row>, row: Row, r: Result<seq<Row>, string>)
    ensures r.Success? ==> Onto(rows, Success([row] + r.value)) == Onto(rows + [row], r)
  {
    if r.Success? {
      assert rows + ([row] + r.value) == rows + [row] + r.value;
    }
  }

  /**
    The generator's gate order: with the reports of the golden-table gate and the taxonomy gate
    given, the file is verified and its rows extracted only if all three are empty. For a strictly
    sorted table the extraction behind the gates never fails and yields that table.
   */
  method GenerateRows(decode: Decoder, mapping: map<string, string>, pins: seq<Pin>, bytes: seq<Byte>,
                      golden: seq<string>, taxonomy: seq<string>)
    returns (rows: Option<Result<seq<Row>, string>>)
    requires StrictlySorted(PinIsos(pins))
    ensures rows == if golden == [] && taxonomy == [] && Accepts(decode, mapping, pins, bytes)
                    then Some(Success(Table(pins))) else None
    ensures rows.Some? <==> golden == [] && taxonomy == [] && IsGood(decode, mapping, pins, bytes)
  {
    var vs, counts := VerifyCsv(decode, mapping, pins, bytes);
    if golden != [] || taxonomy != [] || vs != [] {
      return None;
    }
    AcceptDeterminesExtract(decode, mapping, pins, bytes);
    var extracted := CountryRows(decode, bytes);
    rows := Some(extracted);
  }
}
