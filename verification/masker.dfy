/** Blanking comments, strings and character literals of Rust source, keeping its line structure. */
module Masker {

  /** The characters Rust calls alphanumeric, and the underscore, are given by the caller. */
  type Word = char -> bool

  // ---------------------------------------------------------------- where a token ends

  predicate IsAt(s: string, i: nat, c: char) { i < |s| && s[i] == c }

  function LineEnd(s: string, i: nat): (e: nat)
    requires i <= |s|
    ensures i <= e <= |s|
    ensures forall k :: i <= k < e ==> s[k] != '\n'
    ensures e < |s| ==> s[e] == '\n'
    decreases |s| - i
  {
    if i == |s| || s[i] == '\n' then i else LineEnd(s, i + 1)
  }

  /** The end of the block comment whose body starts at i. A comment inside is a comment of its own. */
  function CommentEnd(s: string, i: nat): (e: nat)
    requires i <= |s|
    ensures i <= e <= |s| && (i < |s| ==> i < e)
    decreases |s| - i
  {
    if i == |s| then i
    else if s[i] == '/' && IsAt(s, i + 1, '*') then CommentEnd(s, CommentEnd(s, i + 2))
    else if s[i] == '*' && IsAt(s, i + 1, '/') then i + 2
    else CommentEnd(s, i + 1)
  }

  function Hashes(s: string, i: nat): (h: nat)
    ensures i + h <= |s| || h == 0
    ensures forall k :: i <= k < i + h ==> s[k] == '#'
    ensures !IsAt(s, i + h, '#')
    decreases |s| - i
  {
    if IsAt(s, i, '#') then 1 + Hashes(s, i + 1) else 0
  }

  /** A quote followed by h hashes. */
  predicate ClosesRaw(s: string, i: nat, h: nat) { IsAt(s, i, '"') && forall p :: i < p <= i + h ==> IsAt(s, p, '#') }

  /** The end of a raw string with h hashes: just after the first closing delimiter. */
  function RawEnd(s: string, i: nat, h: nat): (e: nat)
    requires i <= |s|
    ensures i <= e <= |s|
    ensures e < |s| || (exists k :: i <= k < |s| && ClosesRaw(s, k, h)) ==>
              exists k :: i <= k && e == k + 1 + h && ClosesRaw(s, k, h)
                && forall j :: i <= j < k ==> !ClosesRaw(s, j, h)
    decreases |s| - i
  {
    if i == |s| then i
    else if ClosesRaw(s, i, h) then (assert h > 0 ==> IsAt(s, i + h, '#'); i + 1 + h)
    else RawEnd(s, i + 1, h)
  }

  /** The end of a literal closed by q, in which a backslash takes the next character with it. */
  function QuotedEnd(s: string, i: nat, q: char): (e: nat)
    requires i <= |s|
    ensures i <= e <= |s|
    decreases |s| - i
  {
    if i == |s| then i
    else if s[i] == q then i + 1
    else if s[i] == '\\' then (if i + 1 < |s| then QuotedEnd(s, i + 2, q) else |s|)
    else QuotedEnd(s, i + 1, q)
  }

  /** How many backslashes stand directly before k, counted back to i at most. */
  function Slashes(s: string, i: nat, k: nat): (n: nat)
    requires i <= k <= |s|
    ensures n <= k - i
  {
    if k > i && s[k - 1] == '\\' then 1 + Slashes(s, i, k - 1) else 0
  }

  /** A q at k that no backslash takes with it: those before it pair up. */
  predicate Unescaped(s: string, i: nat, k: nat, q: char)
    requires i <= k
  {
    k < |s| && s[k] == q && Slashes(s, i, k) % 2 == 0
  }

  /** e is just after the first unescaped q from i on, or the end of the text when there is none. */
  ghost predicate AfterFirstUnescaped(s: string, i: nat, q: char, e: nat) {
    if exists k :: i <= k < |s| && Unescaped(s, i, k, q)
    then i < e && Unescaped(s, i, e - 1, q) && forall k :: i <= k < e - 1 ==> !Unescaped(s, i, k, q)
    else e == |s|
  }

  lemma {:induction false} SlashesFromNext(s: string, i: nat, k: nat)
    requires i < k <= |s| && s[i] != '\\'
    ensures Slashes(s, i, k) == Slashes(s, i + 1, k)
  {
    if k > i + 1 { SlashesFromNext(s, i, k - 1); }
  }

  lemma {:induction false} SlashesAfterPair(s: string, i: nat, k: nat)
    requires i + 2 <= k <= |s| && s[i] == '\\'
    ensures Slashes(s, i, k) % 2 == Slashes(s, i + 2, k) % 2
  {
    if k > i + 2 {
      SlashesAfterPair(s, i, k - 1);
    } else {
      assert Slashes(s, i, i) == 0 && Slashes(s, i, i + 1) == 1;
    }
  }

  /** Nothing unescaped before m, and the same quotes unescaped from m on. */
  lemma EndsLater(s: string, i: nat, m: nat, q: char, e: nat)
    requires i <= m <= |s| && AfterFirstUnescaped(s, m, q, e)
    requires forall k :: i <= k < m ==> !Unescaped(s, i, k, q)
    requires forall k :: m <= k < |s| ==> (Unescaped(s, i, k, q) <==> Unescaped(s, m, k, q))
    ensures AfterFirstUnescaped(s, i, q, e)
  {
    hide Unescaped;
  }

  /** The literal ends just after its first unescaped quote, or with the text when there is none. */
  lemma {:induction false} EndsAtFirstUnescaped(s: string, i: nat, q: char)
    requires i <= |s| && q != '\\'
    ensures AfterFirstUnescaped(s, i, q, QuotedEnd(s, i, q))
    decreases |s| - i
  {
    hide AfterFirstUnescaped;
    if i == |s| {
      NoQuoteLeft(s, q);
    } else if s[i] == q {
      QuoteAtOnce(s, i, q);
    } else if s[i] != '\\' {
      EndsAtFirstUnescaped(s, i + 1, q);
      forall k | i < k < |s| ensures Unescaped(s, i, k, q) <==> Unescaped(s, i + 1, k, q) {
        SlashesFromNext(s, i, k);
      }
      EndsLater(s, i, i + 1, q, QuotedEnd(s, i, q));
    } else if i + 1 < |s| {
      EndsAtFirstUnescaped(s, i + 2, q);
      assert Slashes(s, i, i) == 0 && Slashes(s, i, i + 1) == 1;
      forall k | i + 2 <= k < |s| ensures Unescaped(s, i, k, q) <==> Unescaped(s, i + 2, k, q) {
        SlashesAfterPair(s, i, k);
      }
      EndsLater(s, i, i + 2, q, QuotedEnd(s, i, q));
    } else {
      NoQuoteLeft(s, q);
      EndsLater(s, i, |s|, q, |s|);
    }
  }

  lemma NoQuoteLeft(s: string, q: char)
    ensures AfterFirstUnescaped(s, |s|, q, |s|)
  {}

  lemma QuoteAtOnce(s: string, i: nat, q: char)
    requires i < |s| && s[i] == q
    ensures AfterFirstUnescaped(s, i, q, i + 1)
  {
    assert Slashes(s, i, i) == 0 && Unescaped(s, i, i, q);
  }

  // ---------------------------------------------------------------- tokens

  datatype Kind = LineComment | BlockComment | RawString | Str | CharLiteral | Code

  predicate StartsRaw(s: string, i: nat, word: Word)
    requires i < |s|
  {
    && s[i] == 'r'
    && !(i > 0 && word(s[i - 1]) && s[i - 1] != 'b')
    && IsAt(s, i + 1 + Hashes(s, i + 1), '"')
  }

  /** A quote opens a character literal when an escape follows or the next but one closes it; otherwise
      it is a lifetime. */
  predicate StartsChar(s: string, i: nat)
    requires i < |s|
  {
    s[i] == '\'' && (IsAt(s, i + 1, '\\') || IsAt(s, i + 2, '\''))
  }

  function KindAt(s: string, i: nat, word: Word): Kind
    requires i < |s|
  {
    if s[i] == '/' && IsAt(s, i + 1, '/') then LineComment
    else if s[i] == '/' && IsAt(s, i + 1, '*') then BlockComment
    else if StartsRaw(s, i, word) then RawString
    else if s[i] == '"' then Str
    else if StartsChar(s, i) then CharLiteral
    else Code
  }

  function TokenEnd(s: string, i: nat, word: Word): (e: nat)
    requires i < |s|
    ensures i < e <= |s|
  {
    match KindAt(s, i, word)
    case LineComment => LineEnd(s, i + 1)
    case BlockComment => CommentEnd(s, i + 2)
    case RawString => RawEnd(s, i + 2 + Hashes(s, i + 1), Hashes(s, i + 1))
    case Str => QuotedEnd(s, i + 1, '"')
    case CharLiteral => QuotedEnd(s, i + 1, '\'')
    case Code => i + 1
  }

  function Blank(s: string): (r: string)
    ensures |r| == |s|
    ensures forall k :: 0 <= k < |s| ==> r[k] == if s[k] == '\n' then '\n' else ' '
  {
    seq(|s|, k requires 0 <= k < |s| => if s[k] == '\n' then '\n' else ' ')
  }

  /** The source from i on, token by token: code is kept, everything else is blanked. */
  function Mask(s: string, i: nat, word: Word): (r: string)
    requires i <= |s|
    ensures |r| == |s| - i
    decreases |s| - i
  {
    if i == |s| then ""
    else
      var e := TokenEnd(s, i, word);
      (if KindAt(s, i, word).Code? then [s[i]] else Blank(s[i..e])) + Mask(s, e, word)
  }

  // ---------------------------------------------------------------- the scanner

  /** depth comments opened before i, one inside the other, are closed in turn. */
  function Unwind(s: string, i: nat, depth: nat): (e: nat)
    requires i <= |s|
    ensures i <= e <= |s|
    decreases depth
  {
    if depth == 0 then i else Unwind(s, CommentEnd(s, i), depth - 1)
  }

  /** Counting depth and recursing into inner comments find the same end. */
  lemma {:induction false} UnwindAtEnd(s: string, depth: nat)
    ensures Unwind(s, |s|, depth) == |s|
  {
    if depth > 0 { UnwindAtEnd(s, depth - 1); }
  }

  // ---- where a comment ends, by counting

  datatype Mark = Opens(at: nat) | Closes(at: nat)

  /** The openings and closings from i on, read from left to right, no character twice. */
  function Marks(s: string, i: nat): (ms: seq<Mark>)
    ensures forall k :: 0 <= k < |ms| ==> i <= ms[k].at && ms[k].at + 2 <= |s|
    decreases |s| - i
  {
    if i >= |s| then []
    else if s[i] == '/' && IsAt(s, i + 1, '*') then [Opens(i)] + Marks(s, i + 2)
    else if s[i] == '*' && IsAt(s, i + 1, '/') then [Closes(i)] + Marks(s, i + 2)
    else Marks(s, i + 1)
  }

  /** How many more of the first n are openings than closings. */
  function Level(ms: seq<Mark>, n: nat): int
    requires n <= |ms|
  {
    if n == 0 then 0 else Level(ms, n - 1) + if ms[n - 1].Opens? then 1 else -1
  }

  /** With mark n as many comments are closed as were opened, depth of them before the first mark, and with no
      mark before it. */
  ghost predicate Balances(ms: seq<Mark>, depth: nat, n: nat) {
    n < |ms| && depth + Level(ms, n + 1) == 0 && forall k :: 0 <= k <= n ==> depth + Level(ms, k) > 0
  }

  predicate EndsAt(ms: seq<Mark>, n: nat, e: nat) { n < |ms| && e == ms[n].at + 2 }

  /** e is the end of the mark that balances, or the end of the text when there is none. */
  ghost predicate EndsBalanced(s: string, i: nat, depth: nat, e: nat) {
    var ms := Marks(s, i);
    if exists n: nat :: Balances(ms, depth, n) then exists n: nat :: Balances(ms, depth, n) && EndsAt(ms, n, e)
    else e == |s|
  }

  lemma {:induction false} LevelAfter(m: Mark, ms: seq<Mark>, n: nat)
    requires n <= |ms|
    ensures Level([m] + ms, n + 1) == (if m.Opens? then 1 else -1) + Level(ms, n)
  {
    var all := [m] + ms;
    if n > 0 {
      LevelAfter(m, ms, n - 1);
      assert all[n] == ms[n - 1];
    } else {
      assert Level(all, 0) == 0;
    }
  }

  /** The first mark changes the depth, and the rest balances the new one. */
  lemma BalancesAfter(m: Mark, ms: seq<Mark>, depth: nat, n: nat)
    requires depth > 0
    ensures var inside := if m.Opens? then depth + 1 else depth - 1;
      Balances([m] + ms, depth, n) <==> if inside == 0 then n == 0 else n > 0 && Balances(ms, inside, n - 1)
  {
    var all, inside := [m] + ms, if m.Opens? then depth + 1 else depth - 1;
    forall k: nat | k <= |ms| ensures depth + Level(all, k + 1) == inside + Level(ms, k) { LevelAfter(m, ms, k); }
    assert Level(all, 0) == 0 && Level(all, 1) == inside - depth;
    if 0 < n <= |ms| && inside > 0 {
      if Balances(ms, inside, n - 1) {
        forall k | 0 <= k <= n ensures depth + Level(all, k) > 0 {
          if k > 0 { assert inside + Level(ms, k - 1) > 0; }
        }
      }
      if Balances(all, depth, n) {
        forall k | 0 <= k <= n - 1 ensures inside + Level(ms, k) > 0 { assert depth + Level(all, k + 1) > 0; }
      }
    }
  }

  /** Comments opened one inside the other are all closed at the first mark with which the openings, those
      before the text included, equal the closings. */
  lemma {:induction false} UnwindBalances(s: string, i: nat, depth: nat)
    requires i <= |s| && depth > 0
    ensures EndsBalanced(s, i, depth, Unwind(s, i, depth))
    decreases |s| - i
  {
    hide Balances, Level;
    if i == |s| {
      UnwindAtEnd(s, depth);
      NoMarks(depth);
    } else if s[i] == '/' && IsAt(s, i + 1, '*') {
      assert Unwind(s, i, depth) == Unwind(s, i + 2, depth + 1);
      UnwindBalances(s, i + 2, depth + 1);
      EndsAfter(s, i, depth, Opens(i), Unwind(s, i, depth));
    } else if s[i] == '*' && IsAt(s, i + 1, '/') {
      assert CommentEnd(s, i) == i + 2;
      if depth > 1 {
        UnwindBalances(s, i + 2, depth - 1);
      } else {
        assert Unwind(s, i + 2, 0) == i + 2;
      }
      EndsAfter(s, i, depth, Closes(i), Unwind(s, i, depth));
    } else {
      assert CommentEnd(s, i) == CommentEnd(s, i + 1);
      UnwindBalances(s, i + 1, depth);
    }
  }

  lemma NoMarks(depth: nat)
    ensures forall n: nat :: !Balances([], depth, n)
  {}

  lemma EndsAfter(s: string, i: nat, depth: nat, m: Mark, e: nat)
    requires i + 2 <= |s| && depth > 0 && m.at == i && Marks(s, i) == [m] + Marks(s, i + 2)
    requires var inside := if m.Opens? then depth + 1 else depth - 1;
      if inside == 0 then e == i + 2 else EndsBalanced(s, i + 2, inside, e)
    ensures EndsBalanced(s, i, depth, e)
  {
    hide Balances, Marks;
    var all, ms, inside := Marks(s, i), Marks(s, i + 2), if m.Opens? then depth + 1 else depth - 1;
    forall n: nat
      ensures Balances(all, depth, n) <==> if inside == 0 then n == 0 else n > 0 && Balances(ms, inside, n - 1) {
      BalancesAfter(m, ms, depth, n);
    }
    if inside == 0 {
      assert Balances(all, depth, 0) && EndsAt(all, 0, e);
    } else if n: nat :| Balances(ms, inside, n) && EndsAt(ms, n, e) {
      assert Balances(all, depth, n + 1) && EndsAt(all, n + 1, e);
    }
  }

  /** The comment whose body starts at i ends with the first closing that balances all openings, its own
      included, or with the text. */
  lemma CommentEndsBalanced(s: string, i: nat)
    requires i <= |s|
    ensures EndsBalanced(s, i, 1, CommentEnd(s, i))
  {
    UnwindBalances(s, i, 1);
    assert Unwind(s, CommentEnd(s, i), 0) == CommentEnd(s, i);
  }

  /** One turn of the scan inside depth comments. */
  lemma UnwindNext(s: string, i: nat, depth: nat)
    requires i < |s| && depth > 0
    ensures Unwind(s, i, depth) ==
      if s[i] == '/' && IsAt(s, i + 1, '*') then Unwind(s, i + 2, depth + 1)
      else if s[i] == '*' && IsAt(s, i + 1, '/') then Unwind(s, i + 2, depth - 1)
      else Unwind(s, i + 1, depth)
  {}

  lemma UnwindOne(s: string, i: nat)
    requires i <= |s|
    ensures Unwind(s, i, 1) == CommentEnd(s, i) && Unwind(s, i, 0) == i
  {
    assert Unwind(s, CommentEnd(s, i), 0) == CommentEnd(s, i);
  }

  method ScanBlockComment(s: string, i: nat) returns (j: nat)
    requires i + 2 <= |s|
    ensures j == CommentEnd(s, i + 2) && EndsBalanced(s, i + 2, 1, j)
  {
    CommentEndsBalanced(s, i + 2);
    hide EndsBalanced, CommentEnd, Unwind;
    var depth := 1;
    j := i + 2;
    UnwindOne(s, j);
    while j < |s| && depth > 0
      invariant i + 2 <= j <= |s|
      invariant Unwind(s, j, depth) == CommentEnd(s, i + 2)
      decreases |s| - j
    {
      UnwindNext(s, j, depth);
      if s[j] == '/' && IsAt(s, j + 1, '*') {
        depth := depth + 1;
        j := j + 2;
      } else if s[j] == '*' && IsAt(s, j + 1, '/') {
        depth := depth - 1;
        j := j + 2;
      } else {
        j := j + 1;
      }
    }
    if depth > 0 { UnwindAtEnd(s, depth); } else { UnwindOne(s, j); }
  }

  method ScanRaw(s: string, from: nat, hashes: nat) returns (j: nat)
    requires from <= |s|
    ensures j == RawEnd(s, from, hashes)
  {
    j := from;
    while true
      invariant from <= j <= |s|
      invariant RawEnd(s, j, hashes) == RawEnd(s, from, hashes)
      decreases |s| - j
    {
      if j >= |s| { break; }
      if ClosesRaw(s, j, hashes) {
        assert hashes > 0 ==> IsAt(s, j + hashes, '#');
        j := j + 1 + hashes;
        return;
      }
      j := j + 1;
    }
  }

  method ScanQuoted(s: string, i: nat, q: char) returns (j: nat)
    requires i < |s|
    ensures j == QuotedEnd(s, i + 1, q)
    ensures q != '\\' ==> AfterFirstUnescaped(s, i + 1, q, j)
  {
    if q != '\\' { EndsAtFirstUnescaped(s, i + 1, q); }
    j := i + 1;
    while j < |s| && s[j] != q
      invariant i + 1 <= j <= |s| + 1
      invariant QuotedEnd(s, if j > |s| then |s| else j, q) == QuotedEnd(s, i + 1, q)
      decreases |s| + 2 - j
    {
      j := j + if s[j] == '\\' then 2 else 1;
    }
    j := if j + 1 < |s| then j + 1 else |s|;
  }

  /** The token at i: where it ends and whether it is code. */
  method ScanToken(src: string, i: nat, word: Word) returns (j: nat, code: bool)
    requires i < |src|
    ensures j == TokenEnd(src, i, word) && code == KindAt(src, i, word).Code?
  {
    hide LineEnd, CommentEnd, RawEnd, QuotedEnd;
    var c := src[i];
    if c == '/' && IsAt(src, i + 1, '/') {
      j := ScanLine(src, i + 1);
      return j, false;
    }
    if c == '/' && IsAt(src, i + 1, '*') {
      j := ScanBlockComment(src, i);
      return j, false;
    }
    if c == 'r' && !(i > 0 && word(src[i - 1]) && src[i - 1] != 'b') {
      var hashes := CountHashes(src, i + 1);
      if IsAt(src, i + 1 + hashes, '"') {
        j := ScanRaw(src, i + 2 + hashes, hashes);
        return j, false;
      }
    }
    if c == '"' {
      j := ScanQuoted(src, i, '"');
      return j, false;
    }
    if c == '\'' {
      var escaped := IsAt(src, i + 1, '\\');
      var plain := IsAt(src, i + 2, '\'');
      if escaped || plain {
        j := ScanQuoted(src, i, '\'');
        return j, false;
      }
    }
    return i + 1, true;
  }

  method ScanLine(s: string, i: nat) returns (j: nat)
    requires i <= |s|
    ensures j == LineEnd(s, i)
  {
    j := i;
    while j < |s| && s[j] != '\n'
      invariant i <= j <= |s|
      invariant LineEnd(s, j) == LineEnd(s, i)
      decreases |s| - j
    {
      j := j + 1;
    }
  }

  method CountHashes(s: string, i: nat) returns (h: nat)
    ensures h == Hashes(s, i)
  {
    h := 0;
    while IsAt(s, i + h, '#')
      invariant h + Hashes(s, i + h) == Hashes(s, i)
      decreases |s| - h
    {
      h := h + 1;
    }
  }

  lemma MaskStep(src: string, i: nat, word: Word, j: nat, out: string)
    requires i < |src| && j == TokenEnd(src, i, word)
    ensures var piece := if KindAt(src, i, word).Code? then [src[i]] else Blank(src[i..j]);
      out + Mask(src, i, word) == (out + piece) + Mask(src, j, word)
  {
    hide TokenEnd, KindAt;
    var piece := if KindAt(src, i, word).Code? then [src[i]] else Blank(src[i..j]);
    assert (out + piece) + Mask(src, j, word) == out + (piece + Mask(src, j, word));
  }

  method MaskNonCode(src: string, word: Word) returns (out: string)
    ensures out == Mask(src, 0, word)
  {
    out := "";
    var i := 0;
    while i < |src|
      invariant i <= |src|
      invariant out + Mask(src, i, word) == Mask(src, 0, word)
      decreases |src| - i
    {
      hide TokenEnd, KindAt, Mask, Blank;
      var j, code := ScanToken(src, i, word);
      MaskStep(src, i, word, j, out);
      out := out + if code then [src[i]] else Blank(src[i..j]);
      i := j;
    }
  }

  // ---------------------------------------------------------------- what masking guarantees

  /** Same length; newlines stay where they are and nowhere else; a character is kept only if a code
      token starts there, and is a blank otherwise. */
  lemma {:induction false} MaskKeepsLayout(s: string, i: nat, word: Word, k: nat)
    requires i <= k < |s|
    ensures var c := Mask(s, i, word)[k - i];
            && (c == '\n' <==> s[k] == '\n')
            && ((c == s[k] && KindAt(s, k, word).Code?) || c == (if s[k] == '\n' then '\n' else ' '))
    decreases |s| - i
  {
    hide KindAt, TokenEnd;
    var e := TokenEnd(s, i, word);
    var m := Mask(s, i, word);
    if k >= e {
      MaskKeepsLayout(s, e, word, k);
      assert m[k - i] == Mask(s, e, word)[k - e];
    } else if !KindAt(s, i, word).Code? {
      assert m[k - i] == Blank(s[i..e])[k - i] && s[i..e][k - i] == s[k];
    } else {
      CodeIsShort(s, i, word);
    }
  }

  lemma CodeIsShort(s: string, i: nat, word: Word)
    requires i < |s| && KindAt(s, i, word).Code?
    ensures TokenEnd(s, i, word) == i + 1
  {}

  /** No character of m starts anything but code. */
  ghost predicate AllCode(m: string, word: Word) { forall k :: 0 <= k < |m| ==> KindAt(m, k, word).Code? }

  lemma {:induction false} AllCodeUnchanged(m: string, i: nat, word: Word)
    requires i <= |m| && AllCode(m, word)
    ensures Mask(m, i, word) == m[i..]
    decreases |m| - i
  {
    if i < |m| {
      AllCodeUnchanged(m, i + 1, word);
      assert m[i..] == [m[i]] + m[i + 1..];
    }
  }

  /** Position k of the masked text: the source character where a code token starts, or a blank. */
  lemma Kept(s: string, k: nat, word: Word)
    requires k < |s|
    ensures var c := Mask(s, 0, word)[k]; c != '"' && ((c == s[k] && KindAt(s, k, word).Code?) || c == ' ' || c == '\n')
  {
    hide Mask;
    MaskKeepsLayout(s, 0, word, k);
    if KindAt(s, k, word).Code? { CodeIsNoQuote(s, k, word); }
  }

  lemma CodeIsNoQuote(s: string, k: nat, word: Word)
    requires k < |s| && KindAt(s, k, word).Code?
    ensures s[k] != '"'
  {}

  lemma StillCode(s: string, k: nat, word: Word)
    requires k < |s|
    ensures KindAt(Mask(s, 0, word), k, word).Code?
  {
    hide Mask, Hashes;
    var m := Mask(s, 0, word);
    Kept(s, k, word);
    if k + 1 < |s| { Kept(s, k + 1, word); }
    if k + 2 < |s| { Kept(s, k + 2, word); }
    if k + 1 + Hashes(m, k + 1) < |s| { Kept(s, k + 1 + Hashes(m, k + 1), word); }
  }

  /** What masking leaves holds no quote, no comment opening and no character literal. */
  lemma MaskedIsCode(s: string, word: Word)
    ensures var m := Mask(s, 0, word);
            && AllCode(m, word)
            && (forall k :: 0 <= k < |m| ==> m[k] != '"')
            && (forall k, j :: 0 <= k < |m| && j == k + 1 < |m| && m[k] == '/' ==> m[j] != '/' && m[j] != '*')
  {
    hide Mask;
    var m := Mask(s, 0, word);
    forall k | 0 <= k < |m| ensures m[k] != '"' { Kept(s, k, word); }
    forall k | 0 <= k < |m| ensures KindAt(m, k, word).Code? { StillCode(s, k, word); }
    forall k, j | 0 <= k < |m| && j == k + 1 < |m| && m[k] == '/' ensures m[j] != '/' && m[j] != '*' {
      assert KindAt(m, k, word).Code?;
    }
  }

  /** Masking twice is masking once. */
  lemma MaskIdempotent(s: string, word: Word)
    ensures Mask(Mask(s, 0, word), 0, word) == Mask(s, 0, word)
  {
    var m := Mask(s, 0, word);
    MaskedIsCode(s, word);
    AllCodeUnchanged(m, 0, word);
    assert m[0..] == m;
  }
}
