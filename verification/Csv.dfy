/**
  The snapshot's CSV line parser (section 2 of RFC 4180): fields split at commas, quoted fields
  may hold commas, and a doubled quote inside a quoted field stands for one.
 */
module Csv {
  import opened Wrappers

  datatype CsvError = Unterminated | TextAfterQuote(c: char)

  type Parsed = Result<seq<string>, CsvError>

  /** What follows an opening quote: the field and the text behind its closing quote. */
  datatype Quoted = Closed(field: string, rest: string) | NeverClosed

  function ReadQuoted(s: string): (q: Quoted)
    ensures q.Closed? ==> |q.rest| < |s|
  {
    if s == [] then NeverClosed
    else if s[0] == '"' then
      if |s| > 1 && s[1] == '"' then Push('"', ReadQuoted(s[2..])) else Closed([], s[1..])
    else Push(s[0], ReadQuoted(s[1..]))
  }

  function Push(c: char, q: Quoted): Quoted {
    if q.Closed? then Closed([c] + q.field, q.rest) else q
  }

  /** The number of characters before the first comma. */
  function PlainLength(s: string): (n: nat)
    ensures n <= |s| && ',' !in s[..n] && (n < |s| ==> s[n] == ',')
  {
    if s == [] || s[0] == ',' then 0 else 1 + PlainLength(s[1..])
  }

  function Prepend(fields: seq<string>, p: Parsed): Parsed {
    if p.Success? then Success(fields + p.value) else p
  }

  function Parse(s: string): Parsed
    decreases |s|
  {
    if s != [] && s[0] == '"' then
      match ReadQuoted(s[1..])
      case NeverClosed => Failure(Unterminated)
      case Closed(field, rest) =>
        if rest == [] then Success([field])
        else if rest[0] == ',' then Prepend([field], Parse(rest[1..]))
        else Failure(TextAfterQuote(rest[0]))
    else
      var n := PlainLength(s);
      if n == |s| then Success([s]) else Prepend([s[..n]], Parse(s[n + 1..]))
  }

  // ---------------------------------------------------------------------------------------
  // The parser as it runs

  function PushAll(field: string, q: Quoted): Quoted {
    if field == [] then q else Push(field[0], PushAll(field[1..], q))
  }

  lemma {:induction false} PushAllSnoc(field: string, c: char, q: Quoted)
    ensures PushAll(field + [c], q) == PushAll(field, Push(c, q))
  {
    if field == [] {
      assert field + [c] == [c];
    } else {
      assert (field + [c])[1..] == field[1..] + [c];
      PushAllSnoc(field[1..], c, q);
    }
  }

  lemma {:induction false} PushAllClosed(field: string, tail: string, rest: string)
    ensures PushAll(field, Closed(tail, rest)) == Closed(field + tail, rest)
  {
    if field != [] {
      PushAllClosed(field[1..], tail, rest);
    }
  }

  lemma PushAllNever(field: string)
    ensures PushAll(field, NeverClosed) == NeverClosed
  {
  }

  /** One round of the quoted loop, at each of the three things it can meet. */
  lemma MeetsCharacter(line: string, pos: nat, field: string)
    requires pos < |line| && line[pos] != '"'
    ensures PushAll(field, ReadQuoted(line[pos..])) == PushAll(field + [line[pos]], ReadQuoted(line[pos + 1..]))
  {
    assert line[pos..][1..] == line[pos + 1..];
    PushAllSnoc(field, line[pos], ReadQuoted(line[pos + 1..]));
  }

  lemma MeetsDoubledQuote(line: string, pos: nat, field: string)
    requires pos + 1 < |line| && line[pos] == '"' && line[pos + 1] == '"'
    ensures PushAll(field, ReadQuoted(line[pos..])) == PushAll(field + ['"'], ReadQuoted(line[pos + 2..]))
  {
    assert line[pos..][2..] == line[pos + 2..];
    PushAllSnoc(field, '"', ReadQuoted(line[pos + 2..]));
  }

  lemma MeetsClosingQuote(line: string, pos: nat, field: string)
    requires pos < |line| && line[pos] == '"' && !(pos + 1 < |line| && line[pos + 1] == '"')
    ensures PushAll(field, ReadQuoted(line[pos..])) == Closed(field, line[pos + 1..])
  {
    assert line[pos..][1..] == line[pos + 1..];
    PushAllClosed(field, [], line[pos + 1..]);
    assert field + [] == field;
  }

  /** The inner loop: from behind an opening quote to behind the closing one. */
  method RunQuoted(line: string, start: nat) returns (field: string, pos: nat, closed: bool)
    requires start <= |line|
    ensures start <= pos <= |line|
    ensures closed ==> ReadQuoted(line[start..]) == Closed(field, line[pos..]) && start < pos
    ensures !closed ==> ReadQuoted(line[start..]).NeverClosed?
  {
    field, pos, closed := "", start, false;
    while pos < |line|
      invariant start <= pos <= |line|
      invariant ReadQuoted(line[start..]) == PushAll(field, ReadQuoted(line[pos..]))
    {
      var c := line[pos];
      if c != '"' {
        MeetsCharacter(line, pos, field);
        field, pos := field + [c], pos + 1;
      } else if pos + 1 < |line| && line[pos + 1] == '"' {
        MeetsDoubledQuote(line, pos, field);
        field, pos := field + ['"'], pos + 2;
      } else {
        MeetsClosingQuote(line, pos, field);
        pos, closed := pos + 1, true;
        return;
      }
    }
    PushAllNever(field);
  }

  /** The unquoted loop: up to the next comma or the end of the line. */
  method RunPlain(line: string, pos: nat) returns (end: nat)
    requires pos <= |line|
    ensures pos <= end <= |line| && PlainLength(line[pos..]) == end - pos
  {
    end := pos;
    while end < |line| && line[end] != ','
      invariant pos <= end <= |line| && ',' !in line[pos..end]
    {
      end := end + 1;
    }
    assert line[pos..][..end - pos] == line[pos..end];
    PlainLengthIs(line[pos..], end - pos);
  }

  lemma {:induction false} PlainLengthIs(s: string, n: nat)
    requires n <= |s| && ',' !in s[..n] && (n < |s| ==> s[n] == ',')
    ensures PlainLength(s) == n
  {
    if n > 0 {
      assert s[0] in s[..n];
      assert s[1..][..n - 1] == s[..n][1..];
      PlainLengthIs(s[1..], n - 1);
    }
  }

  lemma PrependPrepend(a: seq<string>, b: seq<string>, p: Parsed)
    ensures Prepend(a, Prepend(b, p)) == Prepend(a + b, p)
    ensures Prepend([], p) == p
  {
    if p.Success? {
      assert a + (b + p.value) == a + b + p.value;
      assert [] + p.value == p.value;
    }
  }

  /** A quoted field at `pos`, closed at `end`. */
  lemma QuotedAt(line: string, pos: nat, field: string, end: nat)
    requires pos < end <= |line| && line[pos] == '"' && ReadQuoted(line[pos + 1..]) == Closed(field, line[end..])
    ensures end == |line| ==> Parse(line[pos..]) == Success([field])
    ensures end < |line| && line[end] == ',' ==> Parse(line[pos..]) == Prepend([field], Parse(line[end + 1..]))
    ensures end < |line| && line[end] != ',' ==> Parse(line[pos..]) == Failure(TextAfterQuote(line[end]))
  {
    assert line[pos..][1..] == line[pos + 1..];
    if end < |line| {
      assert line[end..][1..] == line[end + 1..];
    }
  }

  /** An unquoted field at `pos`, ending at `end`. */
  lemma PlainAt(line: string, pos: nat, end: nat)
    requires pos <= end <= |line| && !(pos < |line| && line[pos] == '"') && PlainLength(line[pos..]) == end - pos
    ensures end == |line| ==> Parse(line[pos..]) == Success([line[pos..end]])
    ensures end < |line| ==> Parse(line[pos..]) == Prepend([line[pos..end]], Parse(line[end + 1..]))
  {
    assert line[pos..][..end - pos] == line[pos..end];
    if end == |line| {
      assert line[pos..] == line[pos..end];
    } else {
      assert line[pos..][end - pos + 1..] == line[end + 1..];
    }
  }

  /** One field at `pos` up to the comma or line end at `end`, or the error it meets. */
  predicate FieldAt(line: string, pos: nat, field: string, end: nat, error: Option<CsvError>) {
    && pos <= |line|
    && match error {
         case Some(e) => Parse(line[pos..]) == Failure(e)
         case None =>
           && pos <= end <= |line|
           && Parse(line[pos..]) == if end == |line| then Success([field]) else Prepend([field], Parse(line[end + 1..]))
       }
  }

  method RunQuotedField(line: string, pos: nat) returns (field: string, end: nat, error: Option<CsvError>)
    requires pos < |line| && line[pos] == '"'
    ensures FieldAt(line, pos, field, end, error)
  {
    var closed;
    field, end, closed := RunQuoted(line, pos + 1);
    if !closed {
      assert line[pos..][1..] == line[pos + 1..];
      return field, end, Some(Unterminated);
    }
    QuotedAt(line, pos, field, end);
    error := if end < |line| && line[end] != ',' then Some(TextAfterQuote(line[end])) else None;
  }

  method RunField(line: string, pos: nat) returns (field: string, end: nat, error: Option<CsvError>)
    requires pos <= |line|
    ensures FieldAt(line, pos, field, end, error)
  {
    if pos < |line| && line[pos] == '"' {
      field, end, error := RunQuotedField(line, pos);
    } else {
      end := RunPlain(line, pos);
      PlainAt(line, pos, end);
      field, error := line[pos..end], None;
    }
  }

  /** With a field more, the line goes on behind its comma or is finished. */
  lemma FieldAdded(line: string, pos: nat, fields: seq<string>, field: string, end: nat)
    requires FieldAt(line, pos, field, end, None) && Parse(line) == Prepend(fields, Parse(line[pos..]))
    ensures end == |line| ==> Parse(line) == Success(fields + [field])
    ensures end < |line| ==> Parse(line) == Prepend(fields + [field], Parse(line[end + 1..]))
  {
    if end < |line| {
      PrependPrepend(fields, [field], Parse(line[end + 1..]));
    }
  }

  method ParseCsvLine(line: string) returns (r: Parsed)
    ensures r == Parse(line)
  {
    var fields: seq<string> := [];
    var pos := 0;
    assert line[0..] == line;
    PrependPrepend([], [], Parse(line));
    while true
      invariant 0 <= pos <= |line|
      invariant Parse(line) == Prepend(fields, Parse(line[pos..]))
      decreases |line| - pos
    {
      var field, end, error := RunField(line, pos);
      if error.Some? {
        return Failure(error.value);
      }
      FieldAdded(line, pos, fields, field, end);
      if end == |line| {
        return Success(fields + [field]);
      }
      fields, pos := fields + [field], end + 1;
    }
  }
}
