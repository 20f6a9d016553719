/** Text helpers shared by the licence classifier and the snapshot verifier. */
module Text {
  /** The Unicode White_Space property. */
  predicate IsWhitespace(c: char) {
    || '\U{0009}' <= c <= '\U{000D}' || c == ' ' || c == '\U{0085}' || c == '\U{00A0}' || c == '\U{1680}'
    || '\U{2000}' <= c <= '\U{200A}' || c == '\U{2028}' || c == '\U{2029}' || c == '\U{202F}'
    || c == '\U{205F}' || c == '\U{3000}'
  }

  /** The same, character by character. */
  lemma WhitespaceIs(c: char)
    ensures IsWhitespace(c) <==>
            c in {'\t', '\n', '\U{000B}', '\U{000C}', '\r', ' ', '\U{0085}', '\U{00A0}', '\U{1680}',
                  '\U{2000}', '\U{2001}', '\U{2002}', '\U{2003}', '\U{2004}', '\U{2005}', '\U{2006}',
                  '\U{2007}', '\U{2008}', '\U{2009}', '\U{200A}', '\U{2028}', '\U{2029}', '\U{202F}',
                  '\U{205F}', '\U{3000}'}
  {
  }

  /** Every `c` of `s` replaced by `text`. */
  function Replace(s: string, c: char, text: string): string {
    if s == [] then [] else (if s[0] == c then text else [s[0]]) + Replace(s[1..], c, text)
  }

  lemma {:induction false} ReplaceConcat(a: string, b: string, c: char, text: string)
    ensures Replace(a + b, c, text) == Replace(a, c, text) + Replace(b, c, text)
  {
    if a == [] {
      assert a + b == b;
    } else {
      assert (a + b)[1..] == a[1..] + b;
      ReplaceConcat(a[1..], b, c, text);
    }
  }

  lemma {:induction false} ReplaceAbsent(s: string, c: char, text: string)
    requires c !in s
    ensures Replace(s, c, text) == s
  {
    if s != [] {
      ReplaceAbsent(s[1..], c, text);
    }
  }

  /** The word being read, if it has begun. */
  function Flush(word: string): seq<string> { if word == [] then [] else [word] }

  /** The whitespace-separated words of `s`, the first one continuing `word`. */
  function Words(s: string, word: string): seq<string>
    decreases s
  {
    if s == [] then Flush(word)
    else if IsWhitespace(s[0]) then Flush(word) + Words(s[1..], [])
    else Words(s[1..], word + [s[0]])
  }

  function SplitWhitespace(s: string): seq<string> { Words(s, []) }

  /** A space splits words. */
  lemma {:induction false} WordsAtSpace(a: string, b: string, word: string)
    ensures Words(a + " " + b, word) == Words(a, word) + SplitWhitespace(b)
    decreases a
  {
    if a == [] {
      assert a + " " + b == " " + b;
      assert (" " + b)[1..] == b;
    } else {
      assert (a + " " + b)[1..] == a[1..] + " " + b;
      if IsWhitespace(a[0]) {
        WordsAtSpace(a[1..], b, []);
      } else {
        WordsAtSpace(a[1..], b, word + [a[0]]);
      }
    }
  }

  predicate Unbroken(s: string) { forall c :: c in s ==> !IsWhitespace(c) }

  lemma {:induction false} WordsUnbroken(s: string, word: string)
    requires Unbroken(s)
    ensures Words(s, word) == Flush(word + s)
    decreases s
  {
    if s == [] {
      assert word + s == word;
    } else {
      assert s[0] in s;
      WordsUnbroken(s[1..], word + [s[0]]);
      assert word + [s[0]] + s[1..] == word + s;
    }
  }

  /** Nothing but whitespace. */
  predicate Blank(s: string) { forall c :: c in s ==> IsWhitespace(c) }

  /** `s` is the words, each a maximal run without whitespace, and whitespace around them. */
  ghost predicate IsSpaced(s: string, words: seq<string>)
    decreases |words|
  {
    if words == [] then Blank(s)
    else exists i: nat, j: nat :: FirstWord(s, i, j, words[0]) && IsSpaced(s[j..], words[1..])
  }

  predicate FirstWord(s: string, i: nat, j: nat, word: string) {
    && i < j <= |s| && Blank(s[..i]) && s[i..j] == word && Unbroken(word)
    && (j < |s| ==> IsWhitespace(s[j]))
  }

  /** A word in front of a text that does not continue it. */
  lemma WordInFront(word: string, s: string, words: seq<string>)
    requires word != [] && Unbroken(word) && (s != [] ==> IsWhitespace(s[0])) && IsSpaced(s, words)
    ensures IsSpaced(word + s, [word] + words)
  {
    var all, n := word + s, |word|;
    assert all[0..n] == word && all[n..] == s && all[..0] == [];
    var extended := [word] + words;
    assert extended[0] == word && extended[1..] == words;
    assert FirstWord(all, 0, n, extended[0]) && IsSpaced(all[n..], extended[1..]);
  }

  lemma {:induction false} WordsAreSpaced(s: string, word: string)
    requires word != [] && Unbroken(word)
    ensures IsSpaced(word + s, Words(s, word))
    decreases |s|, 1
  {
    if s == [] {
      WordInFront(word, s, []);
      assert [word] + [] == [word];
    } else if IsWhitespace(s[0]) {
      SplitIsSpaced(s);
      WordInFront(word, s, SplitWhitespace(s));
      WordEnds(s, word);
    } else {
      WordsAreSpaced(s[1..], word + [s[0]]);
      assert word + [s[0]] + s[1..] == word + s;
    }
  }

  lemma WordEnds(s: string, word: string)
    requires word != [] && s != [] && IsWhitespace(s[0])
    ensures Words(s, word) == [word] + SplitWhitespace(s)
  {
    assert Words(s, word) == [word] + Words(s[1..], []);
    assert Words(s, []) == [] + Words(s[1..], []);
  }

  lemma FirstWordAfterBlank(c: char, s: string, i: nat, j: nat, word: string)
    requires IsWhitespace(c) && FirstWord(s, i, j, word)
    ensures FirstWord([c] + s, i + 1, j + 1, word) && ([c] + s)[j + 1..] == s[j..]
  {
    var all := [c] + s;
    assert all[..i + 1] == [c] + s[..i] && all[i + 1..j + 1] == s[i..j] && all[j + 1..] == s[j..];
  }

  lemma SpacedAfterBlank(c: char, s: string, words: seq<string>)
    requires IsWhitespace(c) && IsSpaced(s, words)
    ensures IsSpaced([c] + s, words)
  {
    if words != [] {
      var i: nat, j: nat :| FirstWord(s, i, j, words[0]) && IsSpaced(s[j..], words[1..]);
      FirstWordAfterBlank(c, s, i, j, words[0]);
    }
  }

  /** Splitting at whitespace: nothing is lost, added or torn apart. */
  lemma {:induction false} SplitIsSpaced(s: string)
    ensures IsSpaced(s, SplitWhitespace(s))
    decreases |s|, 0
  {
    if s != [] {
      assert s == [s[0]] + s[1..];
      if IsWhitespace(s[0]) {
        SplitIsSpaced(s[1..]);
        SpacedAfterBlank(s[0], s[1..], SplitWhitespace(s[1..]));
        assert SplitWhitespace(s) == SplitWhitespace(s[1..]);
      } else {
        assert [] + [s[0]] == [s[0]];
        WordsAreSpaced(s[1..], [s[0]]);
      }
    }
  }

  // ---------------------------------------------------------------------------------------

  /** The pieces with `c` between them. */
  function Join(pieces: seq<string>, c: char): string
    requires pieces != []
  {
    if |pieces| == 1 then pieces[0] else pieces[0] + [c] + Join(pieces[1..], c)
  }

  lemma {:induction false} SplitAt(a: string, b: string, c: char)
    requires c !in a
    ensures SplitOn(a + [c] + b, c) == [a] + SplitOn(b, c)
  {
    var s := a + [c] + b;
    if a == [] {
      assert s[1..] == b;
    } else {
      assert s[1..] == a[1..] + [c] + b;
      SplitAt(a[1..], b, c);
      assert [a[0]] + a[1..] == a;
    }
  }

  lemma {:induction false} SplitNone(a: string, c: char)
    requires c !in a
    ensures SplitOn(a, c) == [a]
  {
    if a != [] {
      SplitNone(a[1..], c);
      assert [a[0]] + a[1..] == a;
    }
  }

  ghost predicate NoneHolds(pieces: seq<string>, c: char) {
    forall i :: 0 <= i < |pieces| ==> c !in pieces[i]
  }

  /** Splitting undoes joining. */
  lemma {:induction false} SplitJoin(pieces: seq<string>, c: char)
    requires pieces != [] && NoneHolds(pieces, c)
    ensures SplitOn(Join(pieces, c), c) == pieces
  {
    if |pieces| == 1 {
      SplitNone(pieces[0], c);
    } else {
      SplitAt(pieces[0], Join(pieces[1..], c), c);
      SplitJoin(pieces[1..], c);
    }
  }

  /** Joining undoes splitting, and no piece holds the separator. */
  lemma {:induction false} JoinSplit(s: string, c: char)
    ensures NoneHolds(SplitOn(s, c), c) && Join(SplitOn(s, c), c) == s
  {
    if s != [] {
      JoinSplit(s[1..], c);
      var rest := SplitOn(s[1..], c);
      assert s == [s[0]] + s[1..];
      if s[0] == c {
        assert ([[]] + rest)[1..] == rest;
      } else {
        assert SplitOn(s, c)[1..] == rest[1..];
      }
    }
  }

  /** The pieces of `s` between occurrences of `c`. */
  function SplitOn(s: string, c: char): (pieces: seq<string>)
    ensures pieces != []
  {
    if s == [] then [[]]
    else
      var rest := SplitOn(s[1..], c);
      if s[0] == c then [[]] + rest else [[s[0]] + rest[0]] + rest[1..]
  }

  /** Order by character, as strings compare. */
  predicate Less(a: string, b: string) {
    if b == [] then false
    else if a == [] then true
    else a[0] < b[0] || (a[0] == b[0] && Less(a[1..], b[1..]))
  }

  lemma {:induction false} LessTrans(a: string, b: string, c: string)
    requires Less(a, b) && Less(b, c)
    ensures Less(a, c)
  {
    if a != [] && b[0] == c[0] && a[0] == b[0] {
      LessTrans(a[1..], b[1..], c[1..]);
    }
  }

  lemma {:induction false} LessIrreflexive(a: string)
    ensures !Less(a, a)
  {
    if a != [] {
      LessIrreflexive(a[1..]);
    }
  }

  lemma {:induction false} LessTotal(a: string, b: string)
    ensures Less(a, b) || a == b || Less(b, a)
  {
    if a != [] && b != [] && a[0] == b[0] {
      LessTotal(a[1..], b[1..]);
      assert a == [a[0]] + a[1..] && b == [b[0]] + b[1..];
    }
  }

  /** `b` begins with `a` and goes on, or at the first difference `a` has the smaller character. */
  ghost predicate Precedes(a: string, b: string) {
    || (|a| < |b| && b[..|a|] == a)
    || exists k :: 0 <= k < |a| && k < |b| && a[..k] == b[..k] && a[k] < b[k]
  }

  lemma {:induction false} LessIsLexicographic(a: string, b: string)
    ensures Less(a, b) <==> Precedes(a, b)
  {
    if a != [] && b != [] {
      LessIsLexicographic(a[1..], b[1..]);
      if a[0] == b[0] {
        PrecedesCons(a, b);
      } else if a[0] < b[0] {
        assert a[..0] == b[..0];
      } else {
        assert forall k :: 0 < k <= |a| && k <= |b| ==> a[..k][0] != b[..k][0];
      }
    }
  }

  lemma PrecedesCons(a: string, b: string)
    requires a != [] && b != [] && a[0] == b[0]
    ensures Precedes(a, b) <==> Precedes(a[1..], b[1..])
  {
    var a', b' := a[1..], b[1..];
    if Precedes(a', b') {
      if |a'| < |b'| && b'[..|a'|] == a' {
        assert b[..|a|] == [b[0]] + b'[..|a'|];
      } else {
        var k :| 0 <= k < |a'| && k < |b'| && a'[..k] == b'[..k] && a'[k] < b'[k];
        assert a[..k + 1] == [a[0]] + a'[..k] && b[..k + 1] == [b[0]] + b'[..k];
        assert a[k + 1] < b[k + 1];
      }
    }
    if Precedes(a, b) {
      if |a| < |b| && b[..|a|] == a {
        assert b'[..|a'|] == b[..|a|][1..];
      } else {
        var k :| 0 <= k < |a| && k < |b| && a[..k] == b[..k] && a[k] < b[k];
        assert a'[..k - 1] == a[..k][1..] && b'[..k - 1] == b[..k][1..];
        assert a'[k - 1] < b'[k - 1];
      }
    }
  }

  ghost predicate StrictlySorted(xs: seq<string>) {
    forall i, j :: 0 <= i < j < |xs| ==> Less(xs[i], xs[j])
  }

  lemma SortedSnoc(xs: seq<string>, y: string)
    requires StrictlySorted(xs) && (xs != [] ==> Less(xs[|xs| - 1], y))
    ensures StrictlySorted(xs + [y])
  {
    var ys := xs + [y];
    forall i, j | 0 <= i < j < |ys| ensures Less(ys[i], ys[j]) {
      if j == |xs| && i < |xs| - 1 {
        LessTrans(xs[i], xs[|xs| - 1], y);
      }
    }
  }

  /** `y` put in its place in a strictly sorted list, unless it is there already. */
  function Insert(xs: seq<string>, y: string): seq<string> {
    if xs == [] then [y]
    else if xs[0] == y then xs
    else if Less(y, xs[0]) then [y] + xs
    else [xs[0]] + Insert(xs[1..], y)
  }

  lemma SortedCons(x: string, xs: seq<string>)
    requires StrictlySorted(xs) && (xs != [] ==> Less(x, xs[0]))
    ensures StrictlySorted([x] + xs)
  {
    var ys := [x] + xs;
    forall i, j | 0 <= i < j < |ys| ensures Less(ys[i], ys[j]) {
      if i == 0 && j > 1 {
        LessTrans(x, xs[0], xs[j - 1]);
      }
    }
  }

  lemma {:induction false} InsertSorts(xs: seq<string>, y: string)
    requires StrictlySorted(xs)
    ensures StrictlySorted(Insert(xs, y)) && Insert(xs, y) != []
    ensures Insert(xs, y)[0] == y || (xs != [] && Insert(xs, y)[0] == xs[0])
    ensures forall x :: x in Insert(xs, y) <==> x in xs || x == y
  {
    if xs != [] && xs[0] != y {
      LessTotal(y, xs[0]);
      if Less(y, xs[0]) {
        SortedCons(y, xs);
      } else {
        assert xs == [xs[0]] + xs[1..];
        InsertSorts(xs[1..], y);
        SortedCons(xs[0], Insert(xs[1..], y));
      }
    }
  }

  /** Sorting and dropping repeats: the strictly sorted list of the same strings. */
  method SortDedup(xs: seq<string>) returns (r: seq<string>)
    ensures StrictlySorted(r) && forall x :: x in r <==> x in xs
  {
    r := [];
    for i := 0 to |xs|
      invariant StrictlySorted(r) && forall x :: x in r <==> x in xs[..i]
    {
      InsertSorts(r, xs[i]);
      r := Insert(r, xs[i]);
      assert xs[..i + 1] == xs[..i] + [xs[i]];
    }
    assert xs[..|xs|] == xs;
  }

  /** The least element is first: two strictly sorted lists of the same strings start alike. */
  lemma SameHead(xs: seq<string>, ys: seq<string>)
    requires StrictlySorted(xs) && StrictlySorted(ys) && xs != [] && ys != []
    requires xs[0] in ys && ys[0] in xs
    ensures xs[0] == ys[0]
  {
    var i :| 0 <= i < |xs| && xs[i] == ys[0];
    var j :| 0 <= j < |ys| && ys[j] == xs[0];
    if i > 0 && j > 0 {
      LessTrans(xs[0], ys[0], xs[0]);
      LessIrreflexive(xs[0]);
    }
  }

  /** A strictly sorted list is determined by its elements. */
  lemma {:induction false} SortedIsUnique(xs: seq<string>, ys: seq<string>)
    requires StrictlySorted(xs) && StrictlySorted(ys)
    requires forall x :: x in xs <==> x in ys
    ensures xs == ys
  {
    assert (xs != [] ==> xs[0] in ys) && (ys != [] ==> ys[0] in xs);
    if xs != [] && ys != [] {
      SameHead(xs, ys);
      assert StrictlySorted(xs[1..]) && StrictlySorted(ys[1..]);
      forall x ensures x in xs[1..] <==> x in ys[1..] {
        TailElements(xs, x);
        TailElements(ys, x);
      }
      SortedIsUnique(xs[1..], ys[1..]);
      assert xs == [xs[0]] + xs[1..] && ys == [ys[0]] + ys[1..];
    }
  }

  lemma TailElements(xs: seq<string>, x: string)
    requires StrictlySorted(xs) && xs != []
    ensures x in xs[1..] <==> x in xs && x != xs[0]
  {
    LessIrreflexive(xs[0]);
    assert xs == [xs[0]] + xs[1..];
    if x in xs[1..] {
      var i :| 0 <= i < |xs[1..]| && xs[1..][i] == x;
      assert xs[i + 1] == x;
    }
  }
}
