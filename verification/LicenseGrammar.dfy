/**
  The licence grammar, on its own: concrete syntax trees, the tokens they stand for and their
  truth value, with AND binding tighter than OR. The classifier is sound and complete for it.
 */
module LicenseGrammar {
  import opened Wrappers
  import opened License

  datatype OrExpr = OneAnd(term: AndExpr) | OrMore(init: OrExpr, term: AndExpr)

  datatype AndExpr = OnePrimary(factor: Primary) | AndMore(head: AndExpr, factor: Primary)

  datatype Primary = Id(id: string) | IdWith(id: string) | Group(inner: OrExpr)

  function YieldOr(exception: string, e: OrExpr): seq<Token> {
    match e
    case OneAnd(term) => YieldAnd(exception, term)
    case OrMore(init, term) => YieldOr(exception, init) + [OR] + YieldAnd(exception, term)
  }

  function YieldAnd(exception: string, e: AndExpr): seq<Token> {
    match e
    case OnePrimary(factor) => YieldPrimary(exception, factor)
    case AndMore(head, factor) => YieldAnd(exception, head) + [AND] + YieldPrimary(exception, factor)
  }

  function YieldPrimary(exception: string, e: Primary): seq<Token> {
    match e
    case Id(id) => [Word(id)]
    case IdWith(id) => [Word(id), WITH, Word(exception)]
    case Group(inner) => [OPEN] + YieldOr(exception, inner) + [CLOSE]
  }

  function ValueOr(rules: Rules, e: OrExpr): Compatibility {
    match e
    case OneAnd(term) => ValueAnd(rules, term)
    case OrMore(init, term) => ValueOr(rules, init).Or(ValueAnd(rules, term))
  }

  function ValueAnd(rules: Rules, e: AndExpr): Compatibility {
    match e
    case OnePrimary(factor) => ValuePrimary(rules, factor)
    case AndMore(head, factor) => ValueAnd(rules, head).And(ValuePrimary(rules, factor))
  }

  function ValuePrimary(rules: Rules, e: Primary): Compatibility {
    match e
    case Id(id) => rules.single(id)
    case IdWith(id) => rules.single(id)
    case Group(inner) => ValueOr(rules, inner)
  }

  /** The licence ids of a tree, exceptions aside. */
  function IdsOr(e: OrExpr): set<string> {
    match e
    case OneAnd(term) => IdsAnd(term)
    case OrMore(init, term) => IdsOr(init) + IdsAnd(term)
  }

  function IdsAnd(e: AndExpr): set<string> {
    match e
    case OnePrimary(factor) => IdsPrimary(factor)
    case AndMore(head, factor) => IdsAnd(head) + IdsPrimary(factor)
  }

  function IdsPrimary(e: Primary): set<string> {
    match e
    case Id(id) => {id}
    case IdWith(id) => {id}
    case Group(inner) => IdsOr(inner)
  }

  ghost predicate Recognised(rules: Rules, ids: set<string>) {
    forall id :: id in ids ==> !rules.single(id).Unrecognized?
  }

  /** A tree has a verdict exactly when every id in it is recognised. */
  lemma {:induction false} ValueNeedsAllIds(rules: Rules, e: OrExpr)
    ensures !ValueOr(rules, e).Unrecognized? <==> Recognised(rules, IdsOr(e))
  {
    match e
    case OneAnd(term) => AndValueNeedsAllIds(rules, term);
    case OrMore(init, term) => ValueNeedsAllIds(rules, init); AndValueNeedsAllIds(rules, term);
  }

  lemma {:induction false} AndValueNeedsAllIds(rules: Rules, e: AndExpr)
    ensures !ValueAnd(rules, e).Unrecognized? <==> Recognised(rules, IdsAnd(e))
  {
    match e
    case OnePrimary(factor) => PrimaryValueNeedsAllIds(rules, factor);
    case AndMore(head, factor) => AndValueNeedsAllIds(rules, head); PrimaryValueNeedsAllIds(rules, factor);
  }

  lemma PrimaryValueNeedsAllIds(rules: Rules, e: Primary)
    ensures !ValuePrimary(rules, e).Unrecognized? <==> Recognised(rules, IdsPrimary(e))
  {
    match e
    case Id(id) => assert id in IdsPrimary(e);
    case IdWith(id) => assert id in IdsPrimary(e);
    case Group(inner) => ValueNeedsAllIds(rules, inner);
  }

  /** What a tree says in propositional logic, of the ids that are compatible. */
  predicate TrueOr(rules: Rules, e: OrExpr) {
    match e
    case OneAnd(term) => TrueAnd(rules, term)
    case OrMore(init, term) => TrueOr(rules, init) || TrueAnd(rules, term)
  }

  predicate TrueAnd(rules: Rules, e: AndExpr) {
    match e
    case OnePrimary(factor) => TruePrimary(rules, factor)
    case AndMore(head, factor) => TrueAnd(rules, head) && TruePrimary(rules, factor)
  }

  predicate TruePrimary(rules: Rules, e: Primary) {
    match e
    case Id(id) => rules.single(id) == Compatible
    case IdWith(id) => rules.single(id) == Compatible
    case Group(inner) => TrueOr(rules, inner)
  }

  /** The verdict due, given whether all ids are recognised and whether the formula holds. */
  ghost predicate IsRuling(verdict: Compatibility, recognised: bool, holds: bool) {
    && (verdict == Unrecognized <==> !recognised)
    && (verdict == Compatible <==> recognised && holds)
    && (verdict == Incompatible <==> recognised && !holds)
  }

  /**
    A tree's value is its truth: unrecognised exactly if some id is, and otherwise compatible
    exactly if the tree is true as a propositional formula.
   */
  lemma {:induction false} ValueIsTruth(rules: Rules, e: OrExpr)
    ensures IsRuling(ValueOr(rules, e), Recognised(rules, IdsOr(e)), TrueOr(rules, e))
  {
    ValueNeedsAllIds(rules, e);
    match e
    case OneAnd(term) => AndValueIsTruth(rules, term);
    case OrMore(init, term) =>
      ValueIsTruth(rules, init);
      AndValueIsTruth(rules, term);
  }

  lemma {:induction false} AndValueIsTruth(rules: Rules, e: AndExpr)
    ensures IsRuling(ValueAnd(rules, e), Recognised(rules, IdsAnd(e)), TrueAnd(rules, e))
  {
    AndValueNeedsAllIds(rules, e);
    match e
    case OnePrimary(factor) => PrimaryValueIsTruth(rules, factor);
    case AndMore(head, factor) =>
      AndValueIsTruth(rules, head);
      PrimaryValueIsTruth(rules, factor);
  }

  lemma {:induction false} PrimaryValueIsTruth(rules: Rules, e: Primary)
    ensures IsRuling(ValuePrimary(rules, e), Recognised(rules, IdsPrimary(e)), TruePrimary(rules, e))
  {
    PrimaryValueNeedsAllIds(rules, e);
    if e.Group? {
      ValueIsTruth(rules, e.inner);
    }
  }

  // ---------------------------------------------------------------------------------------
  // Completeness: what the grammar derives, the parser reads

  /** The tokens from `pos` to `end` are `part`. */
  predicate Reads(tokens: seq<Token>, pos: nat, end: nat, part: seq<Token>) {
    pos <= end <= |tokens| && tokens[pos..end] == part
  }

  lemma ReadsToken(tokens: seq<Token>, pos: nat, end: nat, part: seq<Token>, k: nat)
    requires Reads(tokens, pos, end, part) && k < |part|
    ensures end == pos + |part| && tokens[pos + k] == part[k]
  {
  }

  /** A keyword between two parts. */
  lemma ReadsInfix(tokens: seq<Token>, pos: nat, end: nat, a: seq<Token>, x: Token, b: seq<Token>) returns (mid: nat)
    requires Reads(tokens, pos, end, a + [x] + b)
    ensures pos <= mid < end && tokens[mid] == x
    ensures Reads(tokens, pos, mid, a) && Reads(tokens, mid + 1, end, b)
  {
    var all := a + [x] + b;
    mid := pos + |a|;
    ReadsToken(tokens, pos, end, all, |a|);
    assert tokens[pos..mid] == all[..|a|] == a;
    assert tokens[mid + 1..end] == all[|a| + 1..] == b;
  }

  lemma IdComplete(rules: Rules, id: string, tokens: seq<Token>, pos: nat, end: nat)
    requires Reads(tokens, pos, end, [Word(id)]) && Peek(tokens, end) != Some(WITH)
    ensures ParsePrimary(rules, tokens, pos) == Parsed(rules.single(id), end)
  {
    ReadsToken(tokens, pos, end, [Word(id)], 0);
  }

  lemma IdWithComplete(rules: Rules, id: string, tokens: seq<Token>, pos: nat, end: nat)
    requires Reads(tokens, pos, end, [Word(id), WITH, Word(rules.exception)])
    ensures ParsePrimary(rules, tokens, pos) == Parsed(rules.single(id), end)
  {
    var part := [Word(id), WITH, Word(rules.exception)];
    ReadsToken(tokens, pos, end, part, 0);
    ReadsToken(tokens, pos, end, part, 1);
    ReadsToken(tokens, pos, end, part, 2);
  }

  lemma {:induction false} PrimaryComplete(rules: Rules, e: Primary, tokens: seq<Token>, pos: nat, end: nat)
    requires Reads(tokens, pos, end, YieldPrimary(rules.exception, e)) && Peek(tokens, end) != Some(WITH)
    ensures ParsePrimary(rules, tokens, pos) == Parsed(ValuePrimary(rules, e), end)
    decreases e, 0
  {
    match e
    case Id(id) => IdComplete(rules, id, tokens, pos, end);
    case IdWith(id) => IdWithComplete(rules, id, tokens, pos, end);
    case Group(inner) =>
      ParenthesesRead(tokens, pos, end, YieldOr(rules.exception, inner));
      OrComplete(rules, inner, tokens, pos + 1, end - 1);
      GroupReads(rules, tokens, pos, Parsed(ValueOr(rules, inner), end - 1));
  }

  lemma ParenthesesRead(tokens: seq<Token>, pos: nat, end: nat, inner: seq<Token>)
    requires Reads(tokens, pos, end, [OPEN] + inner + [CLOSE])
    ensures pos + 1 < end && tokens[pos] == OPEN && tokens[end - 1] == CLOSE
    ensures Reads(tokens, pos + 1, end - 1, inner)
  {
    assert [OPEN] + inner + [CLOSE] == [] + [OPEN] + (inner + [CLOSE]);
    var open := ReadsInfix(tokens, pos, end, [], OPEN, inner + [CLOSE]);
    assert inner + [CLOSE] == inner + [CLOSE] + [];
    var close := ReadsInfix(tokens, pos + 1, end, inner, CLOSE, []);
  }

  lemma GroupReads(rules: Rules, tokens: seq<Token>, pos: nat, inner: Parsed)
    requires pos < |tokens| && tokens[pos] == OPEN && ParseOr(rules, tokens, pos + 1) == inner
    requires inner.pos < |tokens| && tokens[inner.pos] == CLOSE
    ensures ParsePrimary(rules, tokens, pos) == Parsed(inner.verdict, inner.pos + 1)
  {
  }

  /** Past a keyword the loop goes on with the next operand. */
  lemma AndTailGoesOn(rules: Rules, tokens: seq<Token>, p: Parsed)
    requires p.pos < |tokens| && tokens[p.pos] == AND
    ensures var next := ParsePrimary(rules, tokens, p.pos + 1);
      AndTail(rules, tokens, p) == AndTail(rules, tokens, Parsed(p.verdict.And(next.verdict), next.pos))
  {
    assert Peek(tokens, p.pos) == Some(AND);
  }

  lemma OrTailGoesOn(rules: Rules, tokens: seq<Token>, p: Parsed)
    requires p.pos < |tokens| && tokens[p.pos] == OR
    ensures var next := ParseAnd(rules, tokens, p.pos + 1);
      OrTail(rules, tokens, p) == OrTail(rules, tokens, Parsed(p.verdict.Or(next.verdict), next.pos))
  {
    assert Peek(tokens, p.pos) == Some(OR);
  }

  lemma {:induction false} AndTailComplete(rules: Rules, e: AndExpr, tokens: seq<Token>, pos: nat, end: nat)
    requires Reads(tokens, pos, end, YieldAnd(rules.exception, e)) && Peek(tokens, end) != Some(WITH)
    ensures ParseAnd(rules, tokens, pos) == AndTail(rules, tokens, Parsed(ValueAnd(rules, e), end))
    decreases e, 1
  {
    match e
    case OnePrimary(factor) => PrimaryComplete(rules, factor, tokens, pos, end);
    case AndMore(head, factor) =>
      var a, b := YieldAnd(rules.exception, head), YieldPrimary(rules.exception, factor);
      var mid := ReadsInfix(tokens, pos, end, a, AND, b);
      AndTailComplete(rules, head, tokens, pos, mid);
      PrimaryComplete(rules, factor, tokens, mid + 1, end);
      AndTailGoesOn(rules, tokens, Parsed(ValueAnd(rules, head), mid));
  }

  lemma AndComplete(rules: Rules, e: AndExpr, tokens: seq<Token>, pos: nat, end: nat)
    requires Reads(tokens, pos, end, YieldAnd(rules.exception, e))
    requires Peek(tokens, end) != Some(WITH) && Peek(tokens, end) != Some(AND)
    ensures ParseAnd(rules, tokens, pos) == Parsed(ValueAnd(rules, e), end)
    decreases e, 2
  {
    AndTailComplete(rules, e, tokens, pos, end);
  }

  lemma {:induction false} OrTailComplete(rules: Rules, e: OrExpr, tokens: seq<Token>, pos: nat, end: nat)
    requires Reads(tokens, pos, end, YieldOr(rules.exception, e))
    requires Peek(tokens, end) != Some(WITH) && Peek(tokens, end) != Some(AND)
    ensures ParseOr(rules, tokens, pos) == OrTail(rules, tokens, Parsed(ValueOr(rules, e), end))
    decreases e, 1
  {
    match e
    case OneAnd(term) => AndComplete(rules, term, tokens, pos, end);
    case OrMore(init, term) =>
      var a, b := YieldOr(rules.exception, init), YieldAnd(rules.exception, term);
      var mid := ReadsInfix(tokens, pos, end, a, OR, b);
      OrTailComplete(rules, init, tokens, pos, mid);
      AndComplete(rules, term, tokens, mid + 1, end);
      OrTailGoesOn(rules, tokens, Parsed(ValueOr(rules, init), mid));
  }

  lemma OrComplete(rules: Rules, e: OrExpr, tokens: seq<Token>, pos: nat, end: nat)
    requires Reads(tokens, pos, end, YieldOr(rules.exception, e))
    requires Peek(tokens, end) !in {Some(WITH), Some(AND), Some(OR)}
    ensures ParseOr(rules, tokens, pos) == Parsed(ValueOr(rules, e), end)
    decreases e, 2
  {
    OrTailComplete(rules, e, tokens, pos, end);
  }

  // ---------------------------------------------------------------------------------------
  // Soundness: what the parser accepts, the grammar derives

  /** `tokens[from..to]` derives from the tree `e`, whose value is `v`. */
  predicate OrDerives(rules: Rules, e: OrExpr, tokens: seq<Token>, from: nat, p: Parsed) {
    && from <= p.pos <= |tokens|
    && YieldOr(rules.exception, e) == tokens[from..p.pos] && ValueOr(rules, e) == p.verdict
  }

  predicate AndDerives(rules: Rules, e: AndExpr, tokens: seq<Token>, from: nat, p: Parsed) {
    && from <= p.pos <= |tokens|
    && YieldAnd(rules.exception, e) == tokens[from..p.pos] && ValueAnd(rules, e) == p.verdict
  }

  predicate PrimaryDerives(rules: Rules, e: Primary, tokens: seq<Token>, from: nat, p: Parsed) {
    && from <= p.pos <= |tokens|
    && YieldPrimary(rules.exception, e) == tokens[from..p.pos] && ValuePrimary(rules, e) == p.verdict
  }

  lemma {:induction false} AndTailAbsorbs(rules: Rules, tokens: seq<Token>, p: Parsed)
    requires p.pos <= |tokens| && p.verdict.Unrecognized?
    ensures AndTail(rules, tokens, p).verdict.Unrecognized?
    decreases |tokens| - p.pos
  {
    if Peek(tokens, p.pos) == Some(AND) {
      var next := ParsePrimary(rules, tokens, p.pos + 1);
      AndTailAbsorbs(rules, tokens, Parsed(p.verdict.And(next.verdict), next.pos));
    }
  }

  lemma {:induction false} OrTailAbsorbs(rules: Rules, tokens: seq<Token>, p: Parsed)
    requires p.pos <= |tokens| && p.verdict.Unrecognized?
    ensures OrTail(rules, tokens, p).verdict.Unrecognized?
    decreases |tokens| - p.pos
  {
    if Peek(tokens, p.pos) == Some(OR) {
      var next := ParseAnd(rules, tokens, p.pos + 1);
      OrTailAbsorbs(rules, tokens, Parsed(p.verdict.Or(next.verdict), next.pos));
    }
  }

  lemma {:induction false} PrimarySound(rules: Rules, tokens: seq<Token>, pos: nat) returns (e: Primary)
    requires pos <= |tokens| && !ParsePrimary(rules, tokens, pos).verdict.Unrecognized?
    ensures PrimaryDerives(rules, e, tokens, pos, ParsePrimary(rules, tokens, pos))
    decreases |tokens| - pos, 0
  {
    if tokens[pos] == OPEN {
      var inner := OrSound(rules, tokens, pos + 1);
      e := Group(inner);
    } else if Peek(tokens, pos + 1) == Some(WITH) {
      e := IdWith(tokens[pos].text);
    } else {
      e := Id(tokens[pos].text);
    }
  }

  lemma {:induction false} AndTailSound(rules: Rules, tokens: seq<Token>, from: nat, p: Parsed, e: AndExpr)
    returns (e': AndExpr)
    requires AndDerives(rules, e, tokens, from, p)
    requires !AndTail(rules, tokens, p).verdict.Unrecognized?
    ensures AndDerives(rules, e', tokens, from, AndTail(rules, tokens, p))
    decreases |tokens| - p.pos, 1
  {
    e' := e;
    if Peek(tokens, p.pos) == Some(AND) {
      var next := ParsePrimary(rules, tokens, p.pos + 1);
      var q := Parsed(p.verdict.And(next.verdict), next.pos);
      if q.verdict.Unrecognized? {
        AndTailAbsorbs(rules, tokens, q);
      }
      var factor := PrimarySound(rules, tokens, p.pos + 1);
      assert tokens[from..q.pos] == tokens[from..p.pos] + [AND] + tokens[p.pos + 1..q.pos];
      e' := AndTailSound(rules, tokens, from, q, AndMore(e, factor));
    }
  }

  lemma {:induction false} AndSound(rules: Rules, tokens: seq<Token>, pos: nat) returns (e: AndExpr)
    requires pos <= |tokens| && !ParseAnd(rules, tokens, pos).verdict.Unrecognized?
    ensures AndDerives(rules, e, tokens, pos, ParseAnd(rules, tokens, pos))
    decreases |tokens| - pos, 2
  {
    var first := ParsePrimary(rules, tokens, pos);
    if first.verdict.Unrecognized? {
      AndTailAbsorbs(rules, tokens, first);
    }
    var factor := PrimarySound(rules, tokens, pos);
    e := AndTailSound(rules, tokens, pos, first, OnePrimary(factor));
  }

  lemma {:induction false} OrTailSound(rules: Rules, tokens: seq<Token>, from: nat, p: Parsed, e: OrExpr)
    returns (e': OrExpr)
    requires OrDerives(rules, e, tokens, from, p)
    requires !OrTail(rules, tokens, p).verdict.Unrecognized?
    ensures OrDerives(rules, e', tokens, from, OrTail(rules, tokens, p))
    decreases |tokens| - p.pos, 3
  {
    e' := e;
    if Peek(tokens, p.pos) == Some(OR) {
      var next := ParseAnd(rules, tokens, p.pos + 1);
      var q := Parsed(p.verdict.Or(next.verdict), next.pos);
      if q.verdict.Unrecognized? {
        OrTailAbsorbs(rules, tokens, q);
      }
      var term := AndSound(rules, tokens, p.pos + 1);
      assert tokens[from..q.pos] == tokens[from..p.pos] + [OR] + tokens[p.pos + 1..q.pos];
      e' := OrTailSound(rules, tokens, from, q, OrMore(e, term));
    }
  }

  lemma {:induction false} OrSound(rules: Rules, tokens: seq<Token>, pos: nat) returns (e: OrExpr)
    requires pos <= |tokens| && !ParseOr(rules, tokens, pos).verdict.Unrecognized?
    ensures OrDerives(rules, e, tokens, pos, ParseOr(rules, tokens, pos))
    decreases |tokens| - pos, 4
  {
    var first := ParseAnd(rules, tokens, pos);
    if first.verdict.Unrecognized? {
      OrTailAbsorbs(rules, tokens, first);
    }
    var term := AndSound(rules, tokens, pos);
    e := OrTailSound(rules, tokens, pos, first, OneAnd(term));
  }

  // ---------------------------------------------------------------------------------------
  // The classifier against the grammar

  predicate Derives(rules: Rules, e: OrExpr, tokens: seq<Token>) { YieldOr(rules.exception, e) == tokens }

  /** Whatever tree derives the tokens, the classifier's verdict is its truth value. */
  lemma ClassifyIsValue(rules: Rules, e: OrExpr, tokens: seq<Token>)
    requires Derives(rules, e, tokens)
    ensures ClassifyTokens(rules, tokens) == ValueOr(rules, e)
    ensures IsRuling(ClassifyTokens(rules, tokens), Recognised(rules, IdsOr(e)), TrueOr(rules, e))
  {
    ValueIsTruth(rules, e);
    assert tokens[0..|tokens|] == tokens;
    OrComplete(rules, e, tokens, 0, |tokens|);
  }

  /**
    The classifier has a verdict exactly when the whole token sequence derives from the grammar
    and every id in it is recognised.
   */
  lemma ClassifyExact(rules: Rules, tokens: seq<Token>)
    ensures !ClassifyTokens(rules, tokens).Unrecognized? <==>
            exists e :: Derives(rules, e, tokens) && Recognised(rules, IdsOr(e))
  {
    if !ClassifyTokens(rules, tokens).Unrecognized? {
      var e := OrSound(rules, tokens, 0);
      assert tokens[0..|tokens|] == tokens;
      ValueNeedsAllIds(rules, e);
      assert Derives(rules, e, tokens) && Recognised(rules, IdsOr(e));
    }
    forall e | Derives(rules, e, tokens) && Recognised(rules, IdsOr(e))
      ensures !ClassifyTokens(rules, tokens).Unrecognized?
    {
      ClassifyIsValue(rules, e, tokens);
      ValueNeedsAllIds(rules, e);
    }
  }
}
