/** Which stretches of a text are tokens, read off the text itself, and what masking does to each of them. */
module MaskerTokens {
  import opened Masker

  // ---------------------------------------------------------------- what stands in the text

  /** The text has p at i. */
  predicate Reads(s: string, i: nat, p: string) { i + |p| <= |s| && s[i..i + |p|] == p }

  function HashMarks(h: nat): (r: string)
    ensures |r| == h && forall k :: 0 <= k < h ==> r[k] == '#'
  {
    seq(h, k => '#')
  }

  /** An r that is no part of a longer name (a b may stand before it), h hashes, and a quote. */
  predicate OpensRaw(s: string, i: nat, h: nat, word: Word) {
    Reads(s, i, "r" + HashMarks(h) + "\"") && (i == 0 || s[i - 1] == 'b' || !word(s[i - 1]))
  }

  /** A quote before a backslash, or one character between two quotes. */
  predicate OpensChar(s: string, i: nat) {
    Reads(s, i, "'\\") || (Reads(s, i, "'") && i + 2 < |s| && Reads(s, i + 2, "'"))
  }

  ghost predicate OpensNone(s: string, i: nat, word: Word) {
    && !Reads(s, i, "//") && !Reads(s, i, "/*") && !Reads(s, i, "\"") && !OpensChar(s, i)
    && (forall h: nat :: !OpensRaw(s, i, h, word))
  }

  /** e is where p stands first from i on, or the end of the text when it does not. */
  ghost predicate FirstAt(s: string, i: nat, p: string, e: nat) {
    (if e == |s| then true else Reads(s, e, p)) && i <= e <= |s| && forall k :: i <= k < e ==> !Reads(s, k, p)
  }

  /** e is just after the first quote with h hashes from i on, or the end of the text. */
  ghost predicate AfterRaw(s: string, i: nat, h: nat, e: nat) {
    var p := "\"" + HashMarks(h);
    || (i + |p| <= e && FirstAt(s, i, p, e - |p|) && Reads(s, e - |p|, p))
    || (e == |s| && FirstAt(s, i, p, |s|))
  }

  ghost predicate RawToken(s: string, i: nat, e: nat, h: nat, word: Word) {
    OpensRaw(s, i, h, word) && AfterRaw(s, i + 2 + h, h, e)
  }

  /** What a token of each kind looks like in the text, from i up to e. */
  ghost predicate IsToken(s: string, i: nat, e: nat, kind: Kind, word: Word) {
    match kind
    case LineComment => Reads(s, i, "//") && FirstAt(s, i + 1, "\n", e)
    case BlockComment => Reads(s, i, "/*") && EndsBalanced(s, i + 2, 1, e)
    case RawString => exists h: nat :: RawToken(s, i, e, h, word)
    case Str => Reads(s, i, "\"") && AfterFirstUnescaped(s, i + 1, '"', e)
    case CharLiteral => OpensChar(s, i) && AfterFirstUnescaped(s, i + 1, '\'', e)
    case Code => OpensNone(s, i, word) && e == i + 1
  }

  // ---------------------------------------------------------------- the scanner's tokens are those

  lemma ReadsOne(s: string, i: nat, c: char)
    ensures Reads(s, i, [c]) <==> IsAt(s, i, c)
  {
    if i < |s| { assert s[i..i + 1] == [s[i]]; }
  }

  lemma ReadsTwo(s: string, i: nat, c: char, d: char)
    ensures Reads(s, i, [c, d]) <==> IsAt(s, i, c) && IsAt(s, i + 1, d)
  {
    if i + 1 < |s| { assert s[i..i + 2] == [s[i], s[i + 1]]; }
  }

  lemma ReadsQuoteHashes(s: string, i: nat, h: nat)
    ensures Reads(s, i, "\"" + HashMarks(h)) <==> ClosesRaw(s, i, h)
  {
    var p := "\"" + HashMarks(h);
    if Reads(s, i, p) {
      forall k | i < k <= i + h ensures IsAt(s, k, '#') { assert s[i..i + |p|][k - i] == p[k - i]; }
      assert s[i..i + |p|][0] == p[0];
    }
    if ClosesRaw(s, i, h) {
      assert IsAt(s, i + h, if h == 0 then '"' else '#');
      assert s[i..i + |p|] == p by {
        forall k | 0 <= k < |p| ensures s[i..i + |p|][k] == p[k] { if k > 0 { assert IsAt(s, i + k, '#'); } }
      }
    }
  }

  lemma ReadsRaw(s: string, i: nat, h: nat)
    ensures Reads(s, i, "r" + HashMarks(h) + "\"") <==>
              IsAt(s, i, 'r') && h == Hashes(s, i + 1) && IsAt(s, i + 1 + h, '"')
  {
    var p := "r" + HashMarks(h) + "\"";
    if Reads(s, i, p) {
      var t := s[i..i + |p|];
      assert t[0] == p[0] && t[h + 1] == p[h + 1];
      forall k | i < k <= i + h ensures IsAt(s, k, '#') { assert t[k - i] == p[k - i]; }
      var n := Hashes(s, i + 1);
      var after: nat, last: nat := i + 1 + n, i + 1 + h;
      assert n >= h || IsAt(s, after, '#');
      assert n <= h || IsAt(s, last, '#');
    }
    if IsAt(s, i, 'r') && h == Hashes(s, i + 1) && IsAt(s, i + 1 + h, '"') {
      assert s[i..i + |p|] == p;
    }
  }

  lemma CodeOpensNone(s: string, i: nat, word: Word)
    requires i < |s|
    ensures KindAt(s, i, word).Code? <==> OpensNone(s, i, word)
    ensures KindAt(s, i, word).LineComment? <==> Reads(s, i, "//")
    ensures KindAt(s, i, word).BlockComment? <==> Reads(s, i, "/*")
    ensures KindAt(s, i, word).RawString? <==> exists h: nat :: OpensRaw(s, i, h, word)
    ensures KindAt(s, i, word).RawString? ==> OpensRaw(s, i, Hashes(s, i + 1), word)
    ensures KindAt(s, i, word).Str? <==> Reads(s, i, "\"")
    ensures KindAt(s, i, word).CharLiteral? <==> OpensChar(s, i)
    ensures forall h: nat :: OpensRaw(s, i, h, word) ==> h == Hashes(s, i + 1)
  {
    ReadsTwo(s, i, '/', '/');
    ReadsTwo(s, i, '/', '*');
    ReadsTwo(s, i, '\'', '\\');
    ReadsOne(s, i, '\'');
    ReadsOne(s, i + 2, '\'');
    ReadsOne(s, i, '"');
    forall h: nat ensures OpensRaw(s, i, h, word) <==> h == Hashes(s, i + 1) && StartsRaw(s, i, word) {
      ReadsRaw(s, i, h);
    }
    assert StartsRaw(s, i, word) <==> OpensRaw(s, i, Hashes(s, i + 1), word);
  }

  lemma LineEndsFirst(s: string, i: nat)
    requires i <= |s|
    ensures FirstAt(s, i, "\n", LineEnd(s, i))
  {
    forall k: nat ensures Reads(s, k, "\n") <==> IsAt(s, k, '\n') { ReadsOne(s, k, '\n'); }
  }

  lemma RawEndsFirst(s: string, i: nat, h: nat)
    requires i <= |s|
    ensures AfterRaw(s, i, h, RawEnd(s, i, h))
  {
    var p, e := "\"" + HashMarks(h), RawEnd(s, i, h);
    forall k: nat ensures Reads(s, k, p) <==> ClosesRaw(s, k, h) { ReadsQuoteHashes(s, k, h); }
    if e < |s| || exists k :: i <= k < |s| && ClosesRaw(s, k, h) {
      assert e == (e - |p|) + 1 + h;
      var k :| i <= k && e == k + 1 + h && ClosesRaw(s, k, h) && forall j :: i <= j < k ==> !ClosesRaw(s, j, h);
      assert k == e - |p| && FirstAt(s, i, p, k);
    } else {
      assert FirstAt(s, i, p, |s|);
    }
  }

  /** At every position the scanner finds a token of the kind that opens there, up to where that kind ends. */
  lemma TokenExactly(s: string, i: nat, word: Word)
    requires i < |s|
    ensures IsToken(s, i, TokenEnd(s, i, word), KindAt(s, i, word), word)
  {
    hide StartsChar, AfterRaw, FirstAt, EndsBalanced, AfterFirstUnescaped, LineEnd, CommentEnd, RawEnd, QuotedEnd,
      OpensChar, OpensRaw;
    CodeOpensNone(s, i, word);
    var h := Hashes(s, i + 1);
    match KindAt(s, i, word)
    case LineComment => LineEndsFirst(s, i + 1);
    case BlockComment => CommentEndsBalanced(s, i + 2);
    case RawString =>
      RawEndsFirst(s, i + 2 + h, h);
      assert RawToken(s, i, TokenEnd(s, i, word), h, word);
    case Str => EndsAtFirstUnescaped(s, i + 1, '"');
    case CharLiteral => EndsAtFirstUnescaped(s, i + 1, '\'');
    case Code =>
  }

  // ---------------------------------------------------------------- there is one token at each position

  lemma FirstAtOnce(s: string, i: nat, p: string, e: nat, e': nat)
    requires FirstAt(s, i, p, e) && FirstAt(s, i, p, e')
    ensures e == e'
  {}

  lemma AfterRawOnce(s: string, i: nat, h: nat, e: nat, e': nat)
    requires AfterRaw(s, i, h, e) && AfterRaw(s, i, h, e')
    ensures e == e'
  {
    var p := "\"" + HashMarks(h);
    if i + |p| <= e && FirstAt(s, i, p, e - |p|) && Reads(s, e - |p|, p) {
      if i + |p| <= e' && FirstAt(s, i, p, e' - |p|) && Reads(s, e' - |p|, p) {
        FirstAtOnce(s, i, p, e - |p|, e' - |p|);
      }
    }
  }

  lemma BalancesOnce(ms: seq<Mark>, depth: nat, n: nat, n': nat)
    requires Balances(ms, depth, n) && Balances(ms, depth, n')
    ensures n == n'
  {}

  lemma BalancedOnce(s: string, i: nat, e: nat, e': nat)
    requires EndsBalanced(s, i, 1, e) && EndsBalanced(s, i, 1, e')
    ensures e == e'
  {
    var ms := Marks(s, i);
    if n: nat :| Balances(ms, 1, n) && EndsAt(ms, n, e) {
      var n': nat :| Balances(ms, 1, n') && EndsAt(ms, n', e');
      assert n == n' by { BalancesOnce(ms, 1, n, n'); }
    }
  }

  lemma UnescapedOnce(s: string, i: nat, q: char, e: nat, e': nat)
    requires AfterFirstUnescaped(s, i, q, e) && AfterFirstUnescaped(s, i, q, e')
    ensures e == e'
  {}

  /** Only that is a token at a position which the scanner finds there. */
  lemma OneToken(s: string, i: nat, e: nat, kind: Kind, word: Word)
    requires i < |s| && IsToken(s, i, e, kind, word)
    ensures kind == KindAt(s, i, word) && e == TokenEnd(s, i, word)
  {
    hide AfterRaw, FirstAt, EndsBalanced, AfterFirstUnescaped, TokenEnd, KindAt, OpensChar, OpensRaw;
    CodeOpensNone(s, i, word);
    TokenExactly(s, i, word);
    var e' := TokenEnd(s, i, word);
    match kind
    case LineComment => FirstAtOnce(s, i + 1, "\n", e, e');
    case BlockComment => BalancedOnce(s, i + 2, e, e');
    case RawString =>
      var h: nat :| RawToken(s, i, e, h, word);
      var h': nat :| RawToken(s, i, e', h', word);
      AfterRawOnce(s, i + 2 + h, h, e, e');
    case Str => UnescapedOnce(s, i + 1, '"', e, e');
    case CharLiteral => UnescapedOnce(s, i + 1, '\'', e, e');
    case Code =>
  }

  // ---------------------------------------------------------------- a text, token by token

  /** The cuts divide the text from the first to its end into tokens of these kinds. */
  ghost predicate Tokens(s: string, cuts: seq<nat>, kinds: seq<Kind>, word: Word) {
    && |cuts| == |kinds| + 1 && cuts[|kinds|] == |s|
    && forall j :: 0 <= j < |kinds| ==> CutsToken(s, cuts[j], cuts[j + 1], kinds[j], word)
  }

  ghost predicate CutsToken(s: string, i: nat, e: nat, kind: Kind, word: Word) {
    i < e <= |s| && IsToken(s, i, e, kind, word)
  }

  lemma RestIsTokens(s: string, cuts: seq<nat>, kinds: seq<Kind>, word: Word)
    requires Tokens(s, cuts, kinds, word) && kinds != []
    ensures Tokens(s, cuts[1..], kinds[1..], word) && CutsToken(s, cuts[0], cuts[1], kinds[0], word)
  {
    hide CutsToken;
    forall j | 0 <= j < |kinds[1..]| ensures CutsToken(s, cuts[1..][j], cuts[1..][j + 1], kinds[1..][j], word) {
      assert CutsToken(s, cuts[j + 1], cuts[j + 2], kinds[j + 1], word);
    }
  }

  lemma OneMoreToken(s: string, i: nat, kind: Kind, cuts: seq<nat>, kinds: seq<Kind>, word: Word)
    requires Tokens(s, cuts, kinds, word) && CutsToken(s, i, cuts[0], kind, word)
    ensures Tokens(s, [i] + cuts, [kind] + kinds, word)
  {
    hide CutsToken;
    var cs, ks := [i] + cuts, [kind] + kinds;
    forall j | 0 <= j < |ks| ensures CutsToken(s, cs[j], cs[j + 1], ks[j], word) {
      if j > 0 { assert CutsToken(s, cuts[j - 1], cuts[j], kinds[j - 1], word); }
    }
  }

  function Blanked(c: char): char { if c == '\n' then c else ' ' }

  /** What the masked text has at k, if the token around it is of this kind. */
  function Shown(c: char, kind: Kind): char { if kind.Code? then c else Blanked(c) }

  lemma {:induction false} CutsGrow(s: string, cuts: seq<nat>, kinds: seq<Kind>, word: Word, j: nat)
    requires Tokens(s, cuts, kinds, word) && j < |cuts|
    ensures cuts[0] <= cuts[j] <= |s|
  {
    if j > 0 {
      CutsGrow(s, cuts, kinds, word, j - 1);
      assert CutsToken(s, cuts[j - 1], cuts[j], kinds[j - 1], word);
    } else if |kinds| > 0 {
      assert CutsToken(s, cuts[0], cuts[1], kinds[0], word);
    }
  }

  lemma {:induction false} MaskedFrom(s: string, cuts: seq<nat>, kinds: seq<Kind>, word: Word, j: nat, k: nat)
    requires Tokens(s, cuts, kinds, word) && j < |kinds| && cuts[0] <= |s| && cuts[j] <= k < cuts[j + 1]
    ensures cuts[0] <= k < |s| && Mask(s, cuts[0], word)[k - cuts[0]] == Shown(s[k], kinds[j])
    decreases |kinds|
  {
    hide KindAt, TokenEnd, IsToken;
    CutsGrow(s, cuts, kinds, word, j);
    var i, e := cuts[0], cuts[1];
    assert CutsToken(s, i, e, kinds[0], word);
    OneToken(s, i, e, kinds[0], word);
    if j > 0 { RestIsTokens(s, cuts, kinds, word); }
    if j == 0 {
      if kinds[0].Code? { CodeIsShort(s, i, word); } else { assert Blank(s[i..e])[k - i] == Blanked(s[i..e][k - i]); }
    } else {
      MaskedFrom(s, cuts[1..], kinds[1..], word, j - 1, k);
      assert Mask(s, i, word)[k - i] == Mask(s, e, word)[k - e];
    }
  }

  /** Masking shows exactly the code: if the text is cut into tokens, every character of a code token is kept,
      and every other one is a blank, or the newline it was. */
  lemma MaskShowsCode(s: string, cuts: seq<nat>, kinds: seq<Kind>, word: Word, j: nat, k: nat)
    requires Tokens(s, cuts, kinds, word) && cuts[0] == 0 && j < |kinds| && cuts[j] <= k < cuts[j + 1]
    ensures k < |s| && Mask(s, 0, word)[k] == Shown(s[k], kinds[j])
  {
    MaskedFrom(s, cuts, kinds, word, j, k);
  }

  /** Every text can be cut into tokens. */
  lemma {:induction false} Tokenise(s: string, i: nat, word: Word) returns (cuts: seq<nat>, kinds: seq<Kind>)
    requires i <= |s|
    ensures Tokens(s, cuts, kinds, word) && cuts[0] == i
    decreases |s| - i
  {
    if i == |s| {
      cuts, kinds := [i], [];
    } else {
      hide IsToken, KindAt, TokenEnd;
      var e := TokenEnd(s, i, word);
      TokenExactly(s, i, word);
      var later, rest := Tokenise(s, e, word);
      OneMoreToken(s, i, KindAt(s, i, word), later, rest, word);
      cuts, kinds := [i] + later, [KindAt(s, i, word)] + rest;
    }
  }

  /** And in one way only. */
  lemma {:induction false} OneTokenisation(s: string, cuts: seq<nat>, kinds: seq<Kind>, cuts': seq<nat>,
                                           kinds': seq<Kind>, word: Word)
    requires Tokens(s, cuts, kinds, word) && Tokens(s, cuts', kinds', word) && cuts[0] == cuts'[0] <= |s|
    ensures cuts == cuts' && kinds == kinds'
    decreases |kinds|
  {
    hide IsToken;
    CutsGrow(s, cuts, kinds, word, |kinds|);
    CutsGrow(s, cuts', kinds', word, |kinds'|);
    if kinds != [] { RestIsTokens(s, cuts, kinds, word); }
    if kinds' != [] { RestIsTokens(s, cuts', kinds', word); }
    if kinds != [] && kinds' != [] {
      OneToken(s, cuts[0], cuts[1], kinds[0], word);
      OneToken(s, cuts'[0], cuts'[1], kinds'[0], word);
      OneTokenisation(s, cuts[1..], kinds[1..], cuts'[1..], kinds'[1..], word);
      assert cuts == [cuts[0]] + cuts[1..] && cuts' == [cuts'[0]] + cuts'[1..];
      assert kinds == [kinds[0]] + kinds[1..] && kinds' == [kinds'[0]] + kinds'[1..];
    }
  }
}
