/**
  The licence classifier: a recursive-descent parser over the tokens of an SPDX licence
  expression, with a moving cursor, that computes the compatibility verdict as it goes.
 */
module License {
  import opened Wrappers

  datatype Compatibility = Compatible | Incompatible | Unrecognized {
    function Or(other: Compatibility): Compatibility {
      if Unrecognized? || other.Unrecognized? then Unrecognized
      else if Compatible? || other.Compatible? then Compatible
      else Incompatible
    }

    function And(other: Compatibility): Compatibility {
      if Unrecognized? || other.Unrecognized? then Unrecognized
      else if Incompatible? || other.Incompatible? then Incompatible
      else Compatible
    }
  }

  datatype Token = OR | AND | WITH | OPEN | CLOSE | Word(text: string)

  /** What a word of the text is to the parser. */
  function Lex(word: string): Token {
    match word
    case "OR" => OR
    case "AND" => AND
    case "WITH" => WITH
    case "(" => OPEN
    case ")" => CLOSE
    case _ => Word(word)
  }

  function LexAll(words: seq<string>): (tokens: seq<Token>)
    ensures |tokens| == |words|
  {
    seq(|words|, i requires 0 <= i < |words| => Lex(words[i]))
  }

  /** The verdict of each bare licence id, and the one exception accepted after WITH. */
  datatype Rules = Rules(single: string -> Compatibility, exception: string)

  function Peek(tokens: seq<Token>, pos: nat): Option<Token> {
    if pos < |tokens| then Some(tokens[pos]) else None
  }

  // ---------------------------------------------------------------------------------------
  // The parser as functions from a cursor to a verdict and a cursor

  datatype Parsed = Parsed(verdict: Compatibility, pos: nat)

  function ParseOr(rules: Rules, tokens: seq<Token>, pos: nat): (p: Parsed)
    requires pos <= |tokens|
    ensures pos <= p.pos <= |tokens|
    decreases |tokens| - pos, 4
  {
    var first := ParseAnd(rules, tokens, pos);
    OrTail(rules, tokens, first)
  }

  function OrTail(rules: Rules, tokens: seq<Token>, p: Parsed): (q: Parsed)
    requires p.pos <= |tokens|
    ensures p.pos <= q.pos <= |tokens|
    decreases |tokens| - p.pos, 3
  {
    if Peek(tokens, p.pos) == Some(OR) then
      var next := ParseAnd(rules, tokens, p.pos + 1);
      OrTail(rules, tokens, Parsed(p.verdict.Or(next.verdict), next.pos))
    else p
  }

  function ParseAnd(rules: Rules, tokens: seq<Token>, pos: nat): (p: Parsed)
    requires pos <= |tokens|
    ensures pos <= p.pos <= |tokens|
    decreases |tokens| - pos, 2
  {
    var first := ParsePrimary(rules, tokens, pos);
    AndTail(rules, tokens, first)
  }

  function AndTail(rules: Rules, tokens: seq<Token>, p: Parsed): (q: Parsed)
    requires p.pos <= |tokens|
    ensures p.pos <= q.pos <= |tokens|
    decreases |tokens| - p.pos, 1
  {
    if Peek(tokens, p.pos) == Some(AND) then
      var next := ParsePrimary(rules, tokens, p.pos + 1);
      AndTail(rules, tokens, Parsed(p.verdict.And(next.verdict), next.pos))
    else p
  }

  function ParsePrimary(rules: Rules, tokens: seq<Token>, pos: nat): (p: Parsed)
    requires pos <= |tokens|
    ensures pos <= p.pos <= |tokens|
    decreases |tokens| - pos, 0
  {
    if pos == |tokens| then Parsed(Unrecognized, pos)
    else if tokens[pos] == OPEN then
      var inner := ParseOr(rules, tokens, pos + 1);
      if Peek(tokens, inner.pos) == Some(CLOSE) then Parsed(inner.verdict, inner.pos + 1)
      else Parsed(Unrecognized, inner.pos)
    else if !tokens[pos].Word? then Parsed(Unrecognized, pos)
    else if Peek(tokens, pos + 1) == Some(WITH) then
      if Peek(tokens, pos + 2) == Some(Word(rules.exception)) then Parsed(rules.single(tokens[pos].text), pos + 3)
      else Parsed(Unrecognized, pos + 2)
    else Parsed(rules.single(tokens[pos].text), pos + 1)
  }

  function ClassifyTokens(rules: Rules, tokens: seq<Token>): Compatibility {
    var p := ParseOr(rules, tokens, 0);
    if p.pos == |tokens| then p.verdict else Unrecognized
  }

  // ---------------------------------------------------------------------------------------
  // The parser as it runs: loops that advance the cursor

  method RunOr(rules: Rules, tokens: seq<Token>, start: nat) returns (verdict: Compatibility, pos: nat)
    requires start <= |tokens|
    ensures Parsed(verdict, pos) == ParseOr(rules, tokens, start)
    decreases |tokens| - start, 2
  {
    verdict, pos := RunAnd(rules, tokens, start);
    while Peek(tokens, pos) == Some(OR)
      invariant start <= pos <= |tokens|
      invariant OrTail(rules, tokens, Parsed(verdict, pos)) == ParseOr(rules, tokens, start)
      decreases |tokens| - pos
    {
      var next;
      next, pos := RunAnd(rules, tokens, pos + 1);
      verdict := verdict.Or(next);
    }
  }

  method RunAnd(rules: Rules, tokens: seq<Token>, start: nat) returns (verdict: Compatibility, pos: nat)
    requires start <= |tokens|
    ensures Parsed(verdict, pos) == ParseAnd(rules, tokens, start)
    decreases |tokens| - start, 1
  {
    verdict, pos := RunPrimary(rules, tokens, start);
    while Peek(tokens, pos) == Some(AND)
      invariant start <= pos <= |tokens|
      invariant AndTail(rules, tokens, Parsed(verdict, pos)) == ParseAnd(rules, tokens, start)
      decreases |tokens| - pos
    {
      var next;
      next, pos := RunPrimary(rules, tokens, pos + 1);
      verdict := verdict.And(next);
    }
  }

  method RunPrimary(rules: Rules, tokens: seq<Token>, start: nat) returns (verdict: Compatibility, pos: nat)
    requires start <= |tokens|
    ensures Parsed(verdict, pos) == ParsePrimary(rules, tokens, start)
    decreases |tokens| - start, 0
  {
    pos := start;
    match Peek(tokens, pos) {
      case None => verdict := Unrecognized;
      case Some(token) =>
        if token == OPEN {
          verdict, pos := RunOr(rules, tokens, pos + 1);
          if Peek(tokens, pos) == Some(CLOSE) {
            pos := pos + 1;
          } else {
            verdict := Unrecognized;
          }
        } else if !token.Word? {
          verdict := Unrecognized;
        } else {
          pos := pos + 1;
          verdict := rules.single(token.text);
          if Peek(tokens, pos) == Some(WITH) {
            pos := pos + 1;
            if Peek(tokens, pos) == Some(Word(rules.exception)) {
              pos := pos + 1;
            } else {
              verdict := Unrecognized;
            }
          }
        }
    }
  }
}
