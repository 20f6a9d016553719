/**
  The record format on its own: cells that are quoted or not, joined by commas. The parser is
  its exact inverse, and its two errors are the two ways a line can fall out of the format.
 */
module CsvFormat {
  import opened Wrappers
  import opened Csv

  /** A field and whether it is written in quotes. */
  datatype Cell = Cell(text: string, quoted: bool)

  /** One character as it is written inside quotes. */
  function Inside(c: char): string { if c == '"' then ['"', '"'] else [c] }

  function Escape(text: string): string {
    if text == [] then []
    else Inside(text[0]) + Escape(text[1..])
  }

  /** Without quotes a field must not begin with a quote or contain a comma. */
  predicate WellQuoted(cell: Cell) {
    cell.quoted || (',' !in cell.text && (cell.text == [] || cell.text[0] != '"'))
  }

  ghost predicate AllWellQuoted(cells: seq<Cell>) {
    forall i :: 0 <= i < |cells| ==> WellQuoted(cells[i])
  }

  function WriteCell(cell: Cell): string {
    if cell.quoted then ['"'] + Escape(cell.text) + ['"'] else cell.text
  }

  /** Every cell followed by a comma. */
  function WriteLeading(cells: seq<Cell>): string {
    if cells == [] then [] else WriteCell(cells[0]) + [','] + WriteLeading(cells[1..])
  }

  function WriteRecord(cells: seq<Cell>): string
    requires cells != []
  {
    WriteLeading(cells[..|cells| - 1]) + WriteCell(cells[|cells| - 1])
  }

  function Texts(cells: seq<Cell>): seq<string> {
    seq(|cells|, i requires 0 <= i < |cells| => cells[i].text)
  }

  // ---------------------------------------------------------------------------------------
  // Writing, then parsing

  lemma ReadInside(c: char, tail: string)
    ensures ReadQuoted(Inside(c) + tail) == Push(c, ReadQuoted(tail))
  {
    var s := Inside(c) + tail;
    assert s[|Inside(c)|..] == tail;
  }

  lemma EscapeHead(text: string, tail: string)
    requires text != []
    ensures Escape(text) + tail == Inside(text[0]) + (Escape(text[1..]) + tail)
  {
  }

  /** An escaped text closes at the first quote behind it that is not doubled. */
  lemma {:induction false} ReadEscaped(text: string, rest: string)
    requires rest == [] || rest[0] != '"'
    ensures ReadQuoted(Escape(text) + (['"'] + rest)) == Closed(text, rest)
  {
    var tail := ['"'] + rest;
    if text == [] {
      assert Escape(text) + tail == tail && tail[1..] == rest;
    } else {
      ReadEscaped(text[1..], rest);
      EscapeHead(text, tail);
      ReadInside(text[0], Escape(text[1..]) + tail);
      assert [text[0]] + text[1..] == text;
    }
  }

  lemma {:induction false} ReadUnclosed(text: string)
    ensures ReadQuoted(Escape(text)) == NeverClosed
  {
    if text != [] {
      ReadUnclosed(text[1..]);
      ReadInside(text[0], Escape(text[1..]));
    }
  }

  /** How a line goes on behind its first field, when that is quoted. */
  lemma ParseClosed(s: string, field: string, rest: string)
    requires s != [] && s[0] == '"' && ReadQuoted(s[1..]) == Closed(field, rest)
    ensures rest == [] ==> Parse(s) == Success([field])
    ensures rest != [] && rest[0] == ',' ==> Parse(s) == Prepend([field], Parse(rest[1..]))
    ensures rest != [] && rest[0] != ',' ==> Parse(s) == Failure(TextAfterQuote(rest[0]))
  {
  }

  /** What the parser meets at a quoted cell and the text behind it. */
  lemma ReadQuotedCell(text: string, rest: string)
    requires rest == [] || rest[0] != '"'
    ensures var s := WriteCell(Cell(text, true)) + rest;
      s[0] == '"' && ReadQuoted(s[1..]) == Closed(text, rest)
  {
    var s := WriteCell(Cell(text, true)) + rest;
    ReadEscaped(text, rest);
    assert s[1..] == Escape(text) + (['"'] + rest);
  }

  lemma ParsePlainCell(text: string, rest: string)
    requires WellQuoted(Cell(text, false))
    ensures Parse(text + [','] + rest) == Prepend([text], Parse(rest))
  {
    var s, n := text + [','] + rest, |text|;
    assert s[..n] == text && s[n + 1..] == rest;
    PlainLengthIs(s, n);
  }

  lemma ParseLastCell(cell: Cell)
    requires WellQuoted(cell)
    ensures Parse(WriteCell(cell)) == Success([cell.text])
  {
    var s := WriteCell(cell);
    if cell.quoted {
      assert s + [] == s;
      ReadQuotedCell(cell.text, []);
      ParseClosed(s, cell.text, []);
    } else {
      assert s[..|s|] == s;
      PlainLengthIs(s, |s|);
    }
  }

  lemma ParseLeadingCell(cell: Cell, rest: string)
    requires WellQuoted(cell)
    ensures Parse(WriteCell(cell) + [','] + rest) == Prepend([cell.text], Parse(rest))
  {
    if cell.quoted {
      var tail := [','] + rest;
      assert WriteCell(cell) + [','] + rest == WriteCell(cell) + tail && tail[1..] == rest;
      ReadQuotedCell(cell.text, tail);
      ParseClosed(WriteCell(cell) + tail, cell.text, tail);
    } else {
      ParsePlainCell(cell.text, rest);
    }
  }

  lemma WriteLeadingHead(cells: seq<Cell>, rest: string)
    requires cells != []
    ensures WriteLeading(cells) + rest == WriteCell(cells[0]) + [','] + (WriteLeading(cells[1..]) + rest)
  {
  }

  lemma TextsHead(cells: seq<Cell>)
    requires cells != []
    ensures Texts(cells) == [cells[0].text] + Texts(cells[1..])
  {
  }

  /** With the cells behind the first one parsed, so are all. */
  lemma ParseLeadingHead(cells: seq<Cell>, tail: string, p: Parsed)
    requires cells != [] && WellQuoted(cells[0]) && Parse(tail) == Prepend(Texts(cells[1..]), p)
    ensures Parse(WriteCell(cells[0]) + [','] + tail) == Prepend(Texts(cells), p)
  {
    ParseLeadingCell(cells[0], tail);
    PrependPrepend([cells[0].text], Texts(cells[1..]), p);
    TextsHead(cells);
  }

  lemma {:induction false} ParseLeading(cells: seq<Cell>, rest: string)
    requires AllWellQuoted(cells)
    ensures Parse(WriteLeading(cells) + rest) == Prepend(Texts(cells), Parse(rest))
  {
    if cells == [] {
      assert WriteLeading(cells) + rest == rest && Texts(cells) == [];
      PrependPrepend([], [], Parse(rest));
    } else {
      ParseLeading(cells[1..], rest);
      ParseLeadingHead(cells, WriteLeading(cells[1..]) + rest, Parse(rest));
      WriteLeadingHead(cells, rest);
    }
  }

  lemma TextsOfAll(cells: seq<Cell>)
    requires cells != []
    ensures Texts(cells) == Texts(cells[..|cells| - 1]) + [cells[|cells| - 1].text]
  {
  }

  lemma ParseCells(init: seq<Cell>, last: Cell)
    requires AllWellQuoted(init) && WellQuoted(last)
    ensures Parse(WriteLeading(init) + WriteCell(last)) == Success(Texts(init) + [last.text])
  {
    var rest := WriteCell(last);
    ParseLastCell(last);
    ParseLeading(init, rest);
  }

  /** Round trip: a written record parses back to exactly its fields. */
  lemma CsvRoundTrip(cells: seq<Cell>)
    requires cells != [] && AllWellQuoted(cells)
    ensures Parse(WriteRecord(cells)) == Success(Texts(cells))
  {
    ParseCells(cells[..|cells| - 1], cells[|cells| - 1]);
    TextsOfAll(cells);
  }

  /** Quoting every field always works, whatever the fields are. */
  lemma AlwaysQuoting(fields: seq<string>)
    requires fields != []
    ensures Parse(WriteRecord(seq(|fields|, i requires 0 <= i < |fields| => Cell(fields[i], true)))) == Success(fields)
  {
    var cells := seq(|fields|, i requires 0 <= i < |fields| => Cell(fields[i], true));
    CsvRoundTrip(cells);
    assert Texts(cells) == fields;
  }

  // ---------------------------------------------------------------------------------------
  // Parsing, then writing

  /** What was read behind an opening quote is an escaped text, closed or not. */
  predicate IsEscaped(s: string, text: string) {
    match ReadQuoted(s)
    case NeverClosed => s == Escape(text)
    case Closed(field, rest) =>
      text == field && s == Escape(text) + (['"'] + rest) && (rest == [] || rest[0] != '"')
  }

  lemma IsEscapedNext(c: char, s: string, text: string)
    requires IsEscaped(s, text)
    ensures IsEscaped(Inside(c) + s, [c] + text)
  {
    ReadInside(c, s);
    assert ([c] + text)[1..] == text;
    if ReadQuoted(s).Closed? {
      EscapeHead([c] + text, ['"'] + ReadQuoted(s).rest);
    }
  }

  lemma {:induction false} ReadIsEscaped(s: string) returns (text: string)
    ensures IsEscaped(s, text)
  {
    if s == [] {
      text := [];
    } else if s[0] == '"' && !(|s| > 1 && s[1] == '"') {
      text := [];
      assert s == Escape([]) + (['"'] + s[1..]);
    } else {
      var rest := s[|Inside(s[0])|..];
      var more := ReadIsEscaped(rest);
      assert s == Inside(s[0]) + rest;
      IsEscapedNext(s[0], rest, more);
      text := [s[0]] + more;
    }
  }

  /** How a line relates to the format. */
  datatype Shape =
    | Record(cells: seq<Cell>)
    | Unclosed(leading: seq<Cell>, text: string)
    | Trailing(leading: seq<Cell>, text: string, c: char, rest: string)

  ghost predicate HasShape(line: string, shape: Shape) {
    match shape
    case Record(cells) => cells != [] && AllWellQuoted(cells) && line == WriteRecord(cells)
    case Unclosed(leading, text) =>
      AllWellQuoted(leading) && line == WriteLeading(leading) + (['"'] + Escape(text))
    case Trailing(leading, text, c, rest) =>
      && AllWellQuoted(leading) && c != ',' && c != '"'
      && line == WriteLeading(leading) + (WriteCell(Cell(text, true)) + [c] + rest)
  }

  function Outcome(shape: Shape): Parsed {
    match shape
    case Record(cells) => Success(Texts(cells))
    case Unclosed(_, _) => Failure(Unterminated)
    case Trailing(_, _, c, _) => Failure(TextAfterQuote(c))
  }

  lemma UnclosedFails(leading: seq<Cell>, text: string)
    requires AllWellQuoted(leading)
    ensures Parse(WriteLeading(leading) + (['"'] + Escape(text))) == Failure(Unterminated)
  {
    ParseLeading(leading, ['"'] + Escape(text));
    assert (['"'] + Escape(text))[1..] == Escape(text);
    ReadUnclosed(text);
  }

  lemma TrailingFails(leading: seq<Cell>, text: string, c: char, rest: string)
    requires AllWellQuoted(leading) && c != ',' && c != '"'
    ensures Parse(WriteLeading(leading) + (WriteCell(Cell(text, true)) + [c] + rest)) == Failure(TextAfterQuote(c))
  {
    ParseLeading(leading, WriteCell(Cell(text, true)) + [c] + rest);
    TrailingCellFails(text, c, rest);
  }

  lemma TrailingCellFails(text: string, c: char, rest: string)
    requires c != ',' && c != '"'
    ensures Parse(WriteCell(Cell(text, true)) + [c] + rest) == Failure(TextAfterQuote(c))
  {
    var cell, tail := WriteCell(Cell(text, true)), [c] + rest;
    assert cell + [c] + rest == cell + tail;
    ReadQuotedCell(text, tail);
    ParseClosed(cell + tail, text, tail);
  }

  /** The shape of a line determines what the parser says of it. */
  lemma ShapeDecides(line: string, shape: Shape)
    requires HasShape(line, shape)
    ensures Parse(line) == Outcome(shape)
  {
    match shape
    case Record(cells) => CsvRoundTrip(cells);
    case Unclosed(leading, text) => UnclosedFails(leading, text);
    case Trailing(leading, text, c, rest) => TrailingFails(leading, text, c, rest);
  }

  function AddLeading(cell: Cell, shape: Shape): Shape {
    match shape
    case Record(cells) => Record([cell] + cells)
    case Unclosed(leading, text) => Unclosed([cell] + leading, text)
    case Trailing(leading, text, c, rest) => Trailing([cell] + leading, text, c, rest)
  }

  lemma AddLeadingToRecord(cell: Cell, cells: seq<Cell>)
    requires cells != []
    ensures WriteCell(cell) + [','] + WriteRecord(cells) == WriteRecord([cell] + cells)
  {
    var all, init := [cell] + cells, cells[..|cells| - 1];
    assert all[..|all| - 1] == [cell] + init && all[|all| - 1] == cells[|cells| - 1];
    AddLeadingText(cell, init, WriteCell(cells[|cells| - 1]));
  }

  lemma AddLeadingHasShape(cell: Cell, line: string, shape: Shape)
    requires WellQuoted(cell) && HasShape(line, shape)
    ensures HasShape(WriteCell(cell) + [','] + line, AddLeading(cell, shape))
  {
    match shape
    case Record(cells) => AddLeadingToRecord(cell, cells);
    case Unclosed(leading, text) => AddLeadingText(cell, leading, ['"'] + Escape(text));
    case Trailing(leading, text, c, rest) => AddLeadingText(cell, leading, WriteCell(Cell(text, true)) + [c] + rest);
  }

  lemma AddLeadingText(cell: Cell, leading: seq<Cell>, rest: string)
    ensures WriteCell(cell) + [','] + (WriteLeading(leading) + rest) == WriteLeading([cell] + leading) + rest
  {
    assert ([cell] + leading)[1..] == leading;
  }

  /** Every line has a shape: the format and its two violations leave nothing out. */
  lemma {:induction false} EveryLineHasAShape(line: string) returns (shape: Shape)
    ensures HasShape(line, shape)
    decreases |line|
  {
    if line != [] && line[0] == '"' {
      shape := QuotedLineShape(line);
    } else {
      var n := PlainLength(line);
      var cell := Cell(line[..n], false);
      if n == |line| {
        assert line[..n] == line;
        shape := LastCellShape(cell);
      } else {
        var rest := EveryLineHasAShape(line[n + 1..]);
        assert line == WriteCell(cell) + [','] + line[n + 1..];
        AddLeadingHasShape(cell, line[n + 1..], rest);
        shape := AddLeading(cell, rest);
      }
    }
  }

  lemma LastCellShape(cell: Cell) returns (shape: Shape)
    requires WellQuoted(cell)
    ensures HasShape(WriteCell(cell), shape)
  {
    shape := Record([cell]);
    assert [cell][..0] == [] && WriteLeading([]) + WriteCell(cell) == WriteCell(cell);
  }

  lemma UnclosedShape(text: string) returns (shape: Shape)
    ensures HasShape(['"'] + Escape(text), shape)
  {
    shape := Unclosed([], text);
    assert ['"'] + Escape(text) == WriteLeading([]) + (['"'] + Escape(text));
  }

  lemma TrailingShape(text: string, rest: string) returns (shape: Shape)
    requires rest != [] && rest[0] != ',' && rest[0] != '"'
    ensures HasShape(WriteCell(Cell(text, true)) + rest, shape)
  {
    shape := Trailing([], text, rest[0], rest[1..]);
    var cell := WriteCell(Cell(text, true));
    assert cell + rest == cell + [rest[0]] + rest[1..];
    assert cell + rest == WriteLeading([]) + (cell + [rest[0]] + rest[1..]);
  }

  lemma {:induction false} LeadingShape(cell: Cell, rest: string) returns (shape: Shape)
    requires WellQuoted(cell) && rest != [] && rest[0] == ','
    ensures HasShape(WriteCell(cell) + rest, shape)
    decreases |rest|
  {
    var more := EveryLineHasAShape(rest[1..]);
    AddLeadingHasShape(cell, rest[1..], more);
    shape := AddLeading(cell, more);
    assert WriteCell(cell) + rest == WriteCell(cell) + [','] + rest[1..];
  }

  lemma {:induction false} QuotedLineShape(line: string) returns (shape: Shape)
    requires line != [] && line[0] == '"'
    ensures HasShape(line, shape)
    decreases |line|, 0
  {
    var text := ReadIsEscaped(line[1..]);
    assert line == ['"'] + line[1..];
    match ReadQuoted(line[1..])
    case NeverClosed => shape := UnclosedShape(text);
    case Closed(_, rest) =>
      var cell := Cell(text, true);
      assert line == WriteCell(cell) + rest;
      if rest == [] {
        assert line == WriteCell(cell);
        shape := LastCellShape(cell);
      } else if rest[0] == ',' {
        shape := LeadingShape(cell, rest);
      } else {
        shape := TrailingShape(text, rest);
      }
  }

  /**
    The parser is total and exact: it returns fields exactly for the records of the format that
    hold them, and each error exactly for its own way of falling out of the format.
   */
  lemma CsvExact(line: string, r: Parsed)
    ensures Parse(line) == r <==> exists shape :: HasShape(line, shape) && Outcome(shape) == r
  {
    var found := EveryLineHasAShape(line);
    ShapeDecides(line, found);
    forall shape | HasShape(line, shape) && Outcome(shape) == r ensures Parse(line) == r {
      ShapeDecides(line, shape);
    }
  }
}
