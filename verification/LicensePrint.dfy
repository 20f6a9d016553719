/**
  Printing a licence expression and classifying the print: the verdict is the expression's own,
  whether OR is written out or as the legacy slash.
 */
module LicensePrint {
  import opened License
  import opened LicenseGrammar
  import opened Text

  /** The classifier's tokens: the legacy slash is an OR and parentheses stand alone. */
  function Normalize(raw: string): string {
    Replace(Replace(Replace(raw, '/', " OR "), '(', " ( "), ')', " ) ")
  }

  function Tokens(raw: string): seq<Token> { LexAll(SplitWhitespace(Normalize(raw))) }

  type Single = string -> Compatibility

  /** The one exception the classifier accepts after WITH. */
  const EXCEPTION: string := "LLVM-exception"

  function Accepting(single: Single): Rules { Rules(single, EXCEPTION) }

  function Classify(single: Single, raw: string): Compatibility {
    ClassifyTokens(Accepting(single), Tokens(raw))
  }

  method RunClassify(single: Single, raw: string) returns (verdict: Compatibility)
    ensures verdict == Classify(single, raw)
  {
    var tokens := Tokens(raw);
    var pos;
    verdict, pos := RunOr(Accepting(single), tokens, 0);
    if pos != |tokens| {
      verdict := Unrecognized;
    }
  }

  // ---------------------------------------------------------------------------------------
  // Expression trees and their print

  datatype Ast =
    | Leaf(id: string)
    | LeafWith(id: string)
    | AndNode(left: Ast, right: Ast)
    | OrNode(left: Ast, right: Ast)

  function Eval(single: Single, a: Ast): Compatibility {
    match a
    case Leaf(id) => single(id)
    case LeafWith(id) => single(id)
    case AndNode(l, r) => Eval(single, l).And(Eval(single, r))
    case OrNode(l, r) => Eval(single, l).Or(Eval(single, r))
  }

  function AstIds(a: Ast): set<string> {
    match a
    case Leaf(id) => {id}
    case LeafWith(id) => {id}
    case AndNode(l, r) => AstIds(l) + AstIds(r)
    case OrNode(l, r) => AstIds(l) + AstIds(r)
  }

  ghost predicate AllRecognised(single: Single, a: Ast) {
    forall id :: id in AstIds(a) ==> single(id) != Unrecognized
  }

  /** The expression as a propositional formula over the compatible ids. */
  predicate Holds(single: Single, a: Ast) {
    match a
    case Leaf(id) => single(id) == Compatible
    case LeafWith(id) => single(id) == Compatible
    case AndNode(l, r) => Holds(single, l) && Holds(single, r)
    case OrNode(l, r) => Holds(single, l) || Holds(single, r)
  }

  lemma {:induction false} EvalIsTruth(single: Single, a: Ast)
    ensures IsRuling(Eval(single, a), AllRecognised(single, a), Holds(single, a))
  {
    match a
    case Leaf(id) => assert id in AstIds(a);
    case LeafWith(id) => assert id in AstIds(a);
    case AndNode(l, r) => EvalIsTruth(single, l); EvalIsTruth(single, r);
    case OrNode(l, r) => EvalIsTruth(single, l); EvalIsTruth(single, r);
  }

  /** A licence id as it may occur in text. */
  predicate PlainId(id: string) {
    id != [] && Unbroken(id) && '/' !in id && '(' !in id && ')' !in id && Lex(id).Word?
  }

  predicate Plain(a: Ast) {
    match a
    case Leaf(id) => PlainId(id)
    case LeafWith(id) => PlainId(id)
    case AndNode(l, r) => Plain(l) && Plain(r)
    case OrNode(l, r) => Plain(l) && Plain(r)
  }

  function OrSign(slash: bool): string { if slash then "/" else " OR " }

  /** The text: parentheses only around an OR below an AND. */
  function Print(slash: bool, a: Ast): string
    decreases a, 0
  {
    match a
    case Leaf(id) => id
    case LeafWith(id) => id + " WITH " + "LLVM-exception"
    case AndNode(l, r) => PrintFactor(slash, l) + " AND " + PrintFactor(slash, r)
    case OrNode(l, r) => Print(slash, l) + OrSign(slash) + Print(slash, r)
  }

  function PrintFactor(slash: bool, a: Ast): string
    decreases a, 1
  {
    if a.OrNode? then "(" + Print(slash, a) + ")" else Print(slash, a)
  }

  /** The tokens of the print. */
  function PrintTokens(a: Ast): seq<Token>
    decreases a, 0
  {
    match a
    case Leaf(id) => [Word(id)]
    case LeafWith(id) => [Word(id), WITH, Word(EXCEPTION)]
    case AndNode(l, r) => FactorTokens(l) + [AND] + FactorTokens(r)
    case OrNode(l, r) => PrintTokens(l) + [OR] + PrintTokens(r)
  }

  function FactorTokens(a: Ast): seq<Token>
    decreases a, 1
  {
    if a.OrNode? then [OPEN] + PrintTokens(a) + [CLOSE] else PrintTokens(a)
  }

  // ---------------------------------------------------------------------------------------
  // From text to tokens

  lemma NormalizeConcat(a: string, b: string)
    ensures Normalize(a + b) == Normalize(a) + Normalize(b)
  {
    ReplaceConcat(a, b, '/', " OR ");
    var a1, b1 := Replace(a, '/', " OR "), Replace(b, '/', " OR ");
    ReplaceConcat(a1, b1, '(', " ( ");
    ReplaceConcat(Replace(a1, '(', " ( "), Replace(b1, '(', " ( "), ')', " ) ");
  }

  lemma NormalizePlain(s: string)
    requires '/' !in s && '(' !in s && ')' !in s
    ensures Normalize(s) == s
  {
    ReplaceAbsent(s, '/', " OR ");
    ReplaceAbsent(s, '(', " ( ");
    ReplaceAbsent(s, ')', " ) ");
  }

  /** In the normal form `sep` is `word` between two spaces. */
  predicate Separates(sep: string, word: string) {
    word != [] && Unbroken(word) && Normalize(sep) == " " + word + " "
  }

  lemma SlashBecomes(w: string)
    requires '(' !in w && ')' !in w
    ensures Replace(Replace(Replace("/", '/', w), '(', " ( "), ')', " ) ") == w
  {
    assert Replace("/", '/', w) == w + [];
    assert w + [] == w;
    ReplaceAbsent(w, '(', " ( ");
    ReplaceAbsent(w, ')', " ) ");
  }

  lemma SlashSeparates()
    ensures Separates("/", "OR")
  {
    SlashBecomes(" OR ");
  }

  lemma OpenSeparates()
    ensures Separates("(", "(")
  {
    ReplaceAbsent("(", '/', " OR ");
    assert Replace("(", '(', " ( ") == " ( ";
    ReplaceAbsent(" ( ", ')', " ) ");
  }

  lemma CloseSeparates()
    ensures Separates(")", ")")
  {
    ReplaceAbsent(")", '/', " OR ");
    ReplaceAbsent(")", '(', " ( ");
  }

  lemma WordSeparates(word: string)
    requires PlainId(word) || word == "OR" || word == "AND" || word == "WITH"
    ensures Separates(" " + word + " ", word)
  {
    NormalizePlain(" " + word + " ");
  }

  /** Two texts around a spaced word: the word becomes a token of its own. */
  lemma WordBetween(a: string, word: string, b: string)
    requires word != [] && Unbroken(word)
    ensures SplitWhitespace(a + " " + word + " " + b) == SplitWhitespace(a) + [word] + SplitWhitespace(b)
  {
    assert a + " " + word + " " + b == a + " " + (word + " " + b);
    WordsAtSpace(a, word + " " + b, []);
    WordsAtSpace(word, b, []);
    WordsUnbroken(word, []);
    assert [] + word == word;
  }

  lemma LexAllConcat(a: seq<string>, b: seq<string>)
    ensures LexAll(a + b) == LexAll(a) + LexAll(b)
  {
  }

  lemma SeparatedTokens(a: string, sep: string, word: string, b: string)
    requires Separates(sep, word)
    ensures Tokens(a + sep + b) == Tokens(a) + [Lex(word)] + Tokens(b)
  {
    NormalizeConcat(a + sep, b);
    NormalizeConcat(a, sep);
    assert Normalize(a) + (" " + word + " ") + Normalize(b) == Normalize(a) + " " + word + " " + Normalize(b);
    WordBetween(Normalize(a), word, Normalize(b));
    LexAllConcat(SplitWhitespace(Normalize(a)) + [word], SplitWhitespace(Normalize(b)));
    LexAllConcat(SplitWhitespace(Normalize(a)), [word]);
  }

  lemma OrBetween(a: string, b: string, slash: bool)
    ensures Tokens(a + OrSign(slash) + b) == Tokens(a) + [OR] + Tokens(b)
  {
    if slash {
      SlashSeparates();
    } else {
      WordSeparates("OR");
      assert " OR " == " " + "OR" + " ";
    }
    SeparatedTokens(a, OrSign(slash), "OR", b);
  }

  lemma AndBetween(a: string, b: string)
    ensures Tokens(a + " AND " + b) == Tokens(a) + [AND] + Tokens(b)
  {
    WordSeparates("AND");
    assert " AND " == " " + "AND" + " ";
    SeparatedTokens(a, " AND ", "AND", b);
  }

  lemma Parenthesized(a: string)
    ensures Tokens("(" + a + ")") == [OPEN] + Tokens(a) + [CLOSE]
  {
    OpenSeparates();
    CloseSeparates();
    assert "(" + a + ")" == [] + "(" + (a + ")");
    SeparatedTokens([], "(", "(", a + ")");
    assert a + ")" == a + ")" + [];
    SeparatedTokens(a, ")", ")", []);
  }

  lemma PlainWord(id: string)
    requires PlainId(id)
    ensures Tokens(id) == [Word(id)]
  {
    NormalizePlain(id);
    WordsUnbroken(id, []);
    assert [] + id == id;
  }

  lemma WithWord(id: string)
    requires PlainId(id)
    ensures Tokens(id + " WITH " + EXCEPTION) == [Word(id), WITH, Word(EXCEPTION)]
  {
    WithSeparates();
    ExceptionIsPlain();
    WithBetween(id, " WITH ", EXCEPTION);
  }

  lemma WithSeparates()
    ensures Separates(" WITH ", "WITH")
  {
    WordSeparates("WITH");
    assert " WITH " == " " + "WITH" + " ";
  }

  lemma ExceptionIsPlain()
    ensures PlainId(EXCEPTION)
  {
    assert |EXCEPTION| == 14;
  }

  lemma WithBetween(id: string, sep: string, exception: string)
    requires PlainId(id) && PlainId(exception) && Separates(sep, "WITH")
    ensures Tokens(id + sep + exception) == [Word(id), WITH, Word(exception)]
  {
    SeparatedTokens(id, sep, "WITH", exception);
    PlainWord(id);
    PlainWord(exception);
  }

  lemma {:induction false} PrintedTokens(slash: bool, a: Ast)
    requires Plain(a)
    ensures Tokens(Print(slash, a)) == PrintTokens(a)
    decreases a, 0
  {
    match a
    case Leaf(id) => PlainWord(id);
    case LeafWith(id) => WithWord(id);
    case AndNode(l, r) =>
      AndBetween(PrintFactor(slash, l), PrintFactor(slash, r));
      PrintedFactorTokens(slash, l);
      PrintedFactorTokens(slash, r);
    case OrNode(l, r) =>
      OrBetween(Print(slash, l), Print(slash, r), slash);
      PrintedTokens(slash, l);
      PrintedTokens(slash, r);
  }

  lemma {:induction false} PrintedFactorTokens(slash: bool, a: Ast)
    requires Plain(a)
    ensures Tokens(PrintFactor(slash, a)) == FactorTokens(a)
    decreases a, 1
  {
    PrintedTokens(slash, a);
    if a.OrNode? {
      Parenthesized(Print(slash, a));
    }
  }

  // ---------------------------------------------------------------------------------------
  // From tokens to the grammar's trees

  function JoinOr(a: OrExpr, b: OrExpr): OrExpr {
    match b
    case OneAnd(term) => OrMore(a, term)
    case OrMore(init, term) => OrMore(JoinOr(a, init), term)
  }

  function JoinAnd(a: AndExpr, b: AndExpr): AndExpr {
    match b
    case OnePrimary(factor) => AndMore(a, factor)
    case AndMore(head, factor) => AndMore(JoinAnd(a, head), factor)
  }

  lemma {:induction false} JoinOrMeans(rules: Rules, a: OrExpr, b: OrExpr)
    ensures YieldOr(rules.exception, JoinOr(a, b)) == YieldOr(rules.exception, a) + [OR] + YieldOr(rules.exception, b)
    ensures ValueOr(rules, JoinOr(a, b)) == ValueOr(rules, a).Or(ValueOr(rules, b))
    decreases b
  {
    if b.OrMore? {
      JoinOrMeans(rules, a, b.init);
    }
  }

  lemma {:induction false} JoinAndMeans(rules: Rules, a: AndExpr, b: AndExpr)
    ensures YieldAnd(rules.exception, JoinAnd(a, b)) ==
            YieldAnd(rules.exception, a) + [AND] + YieldAnd(rules.exception, b)
    ensures ValueAnd(rules, JoinAnd(a, b)) == ValueAnd(rules, a).And(ValueAnd(rules, b))
    decreases b
  {
    if b.AndMore? {
      JoinAndMeans(rules, a, b.head);
    }
  }

  /** The syntax tree of a print. */
  function ToOr(a: Ast): OrExpr
    decreases a, if a.OrNode? then 0 else 2
  {
    if a.OrNode? then JoinOr(ToOr(a.left), ToOr(a.right)) else OneAnd(ToAnd(a))
  }

  function ToAnd(a: Ast): AndExpr
    decreases a, 1
  {
    match a
    case Leaf(id) => OnePrimary(Id(id))
    case LeafWith(id) => OnePrimary(IdWith(id))
    case AndNode(l, r) => JoinAnd(ToAnd(l), ToAnd(r))
    case OrNode(_, _) => OnePrimary(Group(ToOr(a)))
  }

  lemma {:induction false} ToOrMeans(rules: Rules, a: Ast)
    requires rules.exception == EXCEPTION
    ensures YieldOr(rules.exception, ToOr(a)) == PrintTokens(a) && ValueOr(rules, ToOr(a)) == Eval(rules.single, a)
    decreases a, if a.OrNode? then 0 else 2
  {
    if a.OrNode? {
      ToOrMeans(rules, a.left);
      ToOrMeans(rules, a.right);
      JoinOrMeans(rules, ToOr(a.left), ToOr(a.right));
    } else {
      ToAndMeans(rules, a);
    }
  }

  lemma {:induction false} ToAndMeans(rules: Rules, a: Ast)
    requires rules.exception == EXCEPTION
    ensures YieldAnd(rules.exception, ToAnd(a)) == FactorTokens(a) && ValueAnd(rules, ToAnd(a)) == Eval(rules.single, a)
    decreases a, 1
  {
    match a
    case Leaf(_) =>
    case LeafWith(_) =>
    case AndNode(l, r) =>
      ToAndMeans(rules, l);
      ToAndMeans(rules, r);
      JoinAndMeans(rules, ToAnd(l), ToAnd(r));
    case OrNode(_, _) => ToOrMeans(rules, a);
  }

  /** Print then classify: the verdict is the tree's own, with either way of writing OR. */
  lemma PrintThenClassify(single: Single, slash: bool, a: Ast)
    requires Plain(a)
    ensures Classify(single, Print(slash, a)) == Eval(single, a)
    ensures IsRuling(Classify(single, Print(slash, a)), AllRecognised(single, a), Holds(single, a))
  {
    EvalIsTruth(single, a);
    PrintedTokens(slash, a);
    ToOrMeans(Accepting(single), a);
    ClassifyIsValue(Accepting(single), ToOr(a), PrintTokens(a));
  }

  /** In any text at all, a slash and a spaced OR classify alike. */
  lemma SlashIsOr(single: Single, a: string, b: string)
    ensures Classify(single, a + "/" + b) == Classify(single, a + " OR " + b)
  {
    OrBetween(a, b, true);
    OrBetween(a, b, false);
  }

  /**
    On any text, the classifier has a verdict exactly when the whole text derives from the grammar
    and every id in it is recognised; the verdict is then the truth of every tree that derives it,
    read as a propositional formula over the compatible ids.
   */
  lemma ClassifyTextExact(single: Single, raw: string)
    ensures !Classify(single, raw).Unrecognized? <==>
            exists e :: Derives(Accepting(single), e, Tokens(raw)) && Recognised(Accepting(single), IdsOr(e))
    ensures forall e :: Derives(Accepting(single), e, Tokens(raw)) ==>
              IsRuling(Classify(single, raw), Recognised(Accepting(single), IdsOr(e)), TrueOr(Accepting(single), e))
  {
    ClassifyExact(Accepting(single), Tokens(raw));
    forall e | Derives(Accepting(single), e, Tokens(raw))
      ensures IsRuling(Classify(single, raw), Recognised(Accepting(single), IdsOr(e)), TrueOr(Accepting(single), e))
    {
      ClassifyIsValue(Accepting(single), e, Tokens(raw));
    }
  }
}
