/** Counting scale names that stand next to a multiplication or a division. */
module ConversionHits {
  import opened Wrappers

  /** Which characters can be part of a name, and which are white space. */
  datatype Classes = Classes(word: char -> bool, space: char -> bool)

  const CONVERSION_IDENTS: seq<string> := ["ppp", "scale_factor", "sf", "pixels_per_point"]

  predicate Occurs(line: string, ident: string, p: nat) {
    p + |ident| <= |line| && line[p..p + |ident|] == ident
  }

  /** The first occurrence at or after from. */
  function Find(line: string, ident: string, from: nat): (r: Option<nat>)
    ensures r.None? <==> forall p :: from <= p <= |line| ==> !Occurs(line, ident, p)
    ensures r.Some? ==>
      from <= r.value <= |line| && Occurs(line, ident, r.value)
        && forall p :: from <= p < r.value ==> !Occurs(line, ident, p)
    decreases |line| + 1 - from
  {
    if from > |line| then None
    else if Occurs(line, ident, from) then Some(from)
    else Find(line, ident, from + 1)
  }

  predicate WordBefore(line: string, p: nat, c: Classes)
    requires p <= |line|
  {
    p > 0 && c.word(line[p - 1])
  }

  predicate WordAfter(line: string, e: nat, c: Classes)
    requires e <= |line|
  {
    e < |line| && c.word(line[e])
  }

  predicate IsOp(ch: char) { ch == '*' || ch == '/' }

  function TrimEnd(s: string, drop: char -> bool): (r: string)
    ensures r <= s
    ensures r == [] || !drop(r[|r| - 1])
    ensures forall k :: |r| <= k < |s| ==> drop(s[k])
  {
    if s == [] then [] else if drop(s[|s| - 1]) then TrimEnd(s[..|s| - 1], drop) else s
  }

  /** The receiver path before a method call: x.y. in front of the name is stepped over. */
  function BeforeReceiver(before: string, c: Classes): string {
    if before != [] && before[|before| - 1] == '.' then
      TrimEnd(TrimEnd(before, ch => ch == '.'), ch => c.word(ch) || ch == '.')
    else before
  }

  predicate PrevOp(line: string, p: nat, c: Classes)
    requires p <= |line|
  {
    var t := TrimEnd(BeforeReceiver(line[..p], c), c.space);
    t != [] && IsOp(t[|t| - 1])
  }

  function FirstVisible(s: string, c: Classes): (r: Option<char>)
    ensures r.Some? <==> exists k :: 0 <= k < |s| && !c.space(s[k])
    ensures r.Some? ==> exists k ::
      0 <= k < |s| && s[k] == r.value && !c.space(s[k])
        && forall j :: 0 <= j < k ==> c.space(s[j])
  {
    if s == [] then None
    else if !c.space(s[0]) then Some(s[0])
    else
      var r := FirstVisible(s[1..], c);
      assert forall k :: 0 <= k < |s[1..]| ==> s[1..][k] == s[k + 1];
      assert r.Some? ==> exists k ::
        1 <= k < |s| && s[k] == r.value && !c.space(s[k])
          && forall j :: 0 <= j < k ==> c.space(s[j]) by {
        if r.Some? {
          var k :| 0 <= k < |s[1..]| && s[1..][k] == r.value && !c.space(s[1..][k])
            && forall j :: 0 <= j < k ==> c.space(s[1..][j]);
          assert s[k + 1] == r.value && !c.space(s[k + 1]);
          forall j | 0 <= j < k + 1 ensures c.space(s[j]) { if j > 0 { assert s[j] == s[1..][j - 1]; } }
        }
      }
      assert r.None? ==> forall k :: 0 <= k < |s| ==> c.space(s[k]) by {
        if r.None? { forall k | 0 <= k < |s| ensures c.space(s[k]) { if k > 0 { assert s[k] == s[1..][k - 1]; } } }
      }
      r
  }

  predicate NextOp(line: string, e: nat, c: Classes)
    requires e <= |line|
  {
    var rest := if e + 2 <= |line| && line[e..e + 2] == "()" then line[e + 2..] else line[e..];
    var first := FirstVisible(rest, c);
    first.Some? && IsOp(first.value)
  }

  /** A whole word ident at p. */
  predicate WholeWord(line: string, ident: string, p: nat, c: Classes) {
    Occurs(line, ident, p) && !WordBefore(line, p, c) && !WordAfter(line, p + |ident|, c)
  }

  /** A whole word ident at p with an operator right before or after it. */
  predicate Hit(line: string, ident: string, p: nat, c: Classes) {
    WholeWord(line, ident, p, c) && (PrevOp(line, p, c) || NextOp(line, p + |ident|, c))
  }

  // ---------------------------------------------------------------- a hit, by positions in the line

  predicate InPath(ch: char, c: Classes) { c.word(ch) || ch == '.' }

  /** b is where the longest path of names and dots begins that ends before p in a dot; p itself without one. */
  ghost predicate PathFrom(line: string, p: nat, b: nat, c: Classes)
    requires p <= |line|
  {
    if p > 0 && line[p - 1] == '.' then
      b <= p && (forall k :: b <= k < p ==> InPath(line[k], c)) && (b > 0 ==> !InPath(line[b - 1], c))
    else b == p
  }

  /** A multiplication or division sign that can be seen at q. */
  ghost predicate SignAt(line: string, q: nat, c: Classes) {
    q < |line| && (line[q] == '*' || line[q] == '/') && !c.space(line[q])
  }

  ghost predicate SignBefore(line: string, b: nat, q: nat, c: Classes) {
    q < b <= |line| && SignAt(line, q, c) && forall k :: q < k < b ==> c.space(line[k])
  }

  ghost predicate SignFrom(line: string, a: nat, q: nat, c: Classes) {
    a <= q < |line| && SignAt(line, q, c) && forall k :: a <= k < q ==> c.space(line[k])
  }

  /** The last visible character before the path that leads to p is a sign. */
  ghost predicate AfterSign(line: string, p: nat, c: Classes)
    requires p <= |line|
  {
    exists b: nat, q: nat :: PathFrom(line, p, b, c) && SignBefore(line, b, q, c)
  }

  /** Where what follows the name begins: behind the empty brackets at e, if there are any. */
  function Behind(line: string, e: nat): (a: nat)
    ensures e <= |line| ==> a <= |line|
  {
    if e + 1 < |line| && line[e] == '(' && line[e + 1] == ')' then e + 2 else e
  }

  /** The first visible character behind the name is a sign. */
  ghost predicate BeforeSign(line: string, e: nat, c: Classes) { FirstSign(line, Behind(line, e), c) }

  /** The first visible character from a on is a sign. */
  ghost predicate FirstSign(line: string, a: nat, c: Classes) { exists q: nat :: SignFrom(line, a, q, c) }

  lemma PathIsSteppedOver(line: string, p: nat, c: Classes)
    requires p <= |line|
    ensures var r := BeforeReceiver(line[..p], c); r <= line[..p] && PathFrom(line, p, |r|, c)
  {}

  lemma OnePath(line: string, p: nat, a: nat, b: nat, c: Classes)
    requires p <= |line| && PathFrom(line, p, a, c) && PathFrom(line, p, b, c)
    ensures a == b
  {}

  lemma LastVisible(s: string, c: Classes)
    ensures var t := TrimEnd(s, c.space);
      (t != [] && IsOp(t[|t| - 1])) <==> exists q: nat :: SignBefore(s, |s|, q, c)
  {
    var t := TrimEnd(s, c.space);
    if t != [] && IsOp(t[|t| - 1]) {
      assert SignBefore(s, |s|, |t| - 1, c);
    }
    if q: nat :| SignBefore(s, |s|, q, c) {
      assert |t| == q + 1;
    }
  }

  lemma PrevOpExactly(line: string, p: nat, c: Classes)
    requires p <= |line|
    ensures PrevOp(line, p, c) <==> AfterSign(line, p, c)
  {
    var r := BeforeReceiver(line[..p], c);
    PathIsSteppedOver(line, p, c);
    LastVisible(r, c);
    hide TrimEnd, BeforeReceiver, PathFrom, IsOp;
    assert r == line[..|r|];
    forall q: nat ensures SignBefore(r, |r|, q, c) <==> SignBefore(line, |r|, q, c) {}
    if AfterSign(line, p, c) {
      var b: nat, q: nat :| PathFrom(line, p, b, c) && SignBefore(line, b, q, c);
      OnePath(line, p, b, |r|, c);
      assert SignBefore(r, |r|, q, c);
    }
    if q: nat :| SignBefore(r, |r|, q, c) { assert SignBefore(line, |r|, q, c); }
  }

  lemma VisibleAt(s: string, c: Classes) returns (k: nat)
    requires FirstVisible(s, c).Some?
    ensures k < |s| && s[k] == FirstVisible(s, c).value && !c.space(s[k]) && forall j :: 0 <= j < k ==> c.space(s[j])
  {
    k :| k < |s| && s[k] == FirstVisible(s, c).value && !c.space(s[k]) && forall j :: 0 <= j < k ==> c.space(s[j]);
  }

  lemma TwoCharacters(line: string, e: nat, x: char, y: char)
    requires e + 2 <= |line|
    ensures line[e..e + 2] == [x, y] <==> line[e] == x && line[e + 1] == y
  {
    assert line[e..e + 2] == [line[e], line[e + 1]];
  }

  /** The operator behind a name is the first visible character behind it and its empty parentheses. */
  lemma NextOpBehind(line: string, e: nat, c: Classes)
    requires e <= |line|
    ensures Behind(line, e) <= |line|
    ensures var first := FirstVisible(line[Behind(line, e)..], c);
      NextOp(line, e, c) <==> first.Some? && IsOp(first.value)
  {
    hide FirstVisible, IsOp;
    if e + 2 <= |line| { TwoCharacters(line, e, '(', ')'); }
  }

  lemma NextOpExactly(line: string, e: nat, c: Classes)
    requires e <= |line|
    ensures NextOp(line, e, c) <==> BeforeSign(line, e, c)
  {
    NextOpBehind(line, e, c);
    hide FirstVisible, Behind, NextOp, IsOp, FirstSign;
    FirstIsSign(line[Behind(line, e)..], c);
    FirstSignShifts(line, Behind(line, e), c);
  }

  lemma FirstSignShifts(line: string, a: nat, c: Classes)
    requires a <= |line|
    ensures FirstSign(line, a, c) <==> FirstSign(line[a..], 0, c)
  {
    if q: nat :| SignFrom(line, a, q, c) {
      SignShifts(line, a, q - a, c);
      assert FirstSign(line[a..], 0, c);
    }
    if q: nat :| SignFrom(line[a..], 0, q, c) {
      SignShifts(line, a, q, c);
      assert FirstSign(line, a, c);
    }
  }

  lemma SignShifts(line: string, a: nat, q: nat, c: Classes)
    requires a <= |line|
    ensures SignFrom(line, a, a + q, c) <==> SignFrom(line[a..], 0, q, c)
  {
    var rest := line[a..];
    assert forall j :: 0 <= j < |rest| ==> rest[j] == line[a + j];
    assert forall j :: a <= j < |line| ==> line[j] == rest[j - a];
  }

  lemma FirstIsSign(s: string, c: Classes)
    ensures var first := FirstVisible(s, c);
      first.Some? && IsOp(first.value) <==> FirstSign(s, 0, c)
  {
    hide FirstVisible;
    var first := FirstVisible(s, c);
    if first.Some? {
      var k := VisibleAt(s, c);
      if IsOp(first.value) { assert SignFrom(s, 0, k, c); }
      if q: nat :| SignFrom(s, 0, q, c) { assert !(k < q) && !(q < k); }
    }
  }

  /** A hit is the name itself, no name character on either side of it, and a sign before the path that leads
      to it or behind it. */
  lemma HitExactly(line: string, ident: string, p: nat, c: Classes)
    ensures Hit(line, ident, p, c) <==>
      var e := p + |ident|;
      && e <= |line| && (forall k :: 0 <= k < |ident| ==> line[p + k] == ident[k])
      && !(p > 0 && c.word(line[p - 1])) && !(e < |line| && c.word(line[e]))
      && (AfterSign(line, p, c) || BeforeSign(line, e, c))
  {
    hide PrevOp, NextOp, AfterSign, BeforeSign, Occurs;
    NameAt(line, ident, p);
    if p + |ident| <= |line| {
      PrevOpExactly(line, p, c);
      NextOpExactly(line, p + |ident|, c);
    }
  }

  lemma NameAt(line: string, ident: string, p: nat)
    ensures Occurs(line, ident, p) <==>
      p + |ident| <= |line| && forall k :: 0 <= k < |ident| ==> line[p + k] == ident[k]
  {
    if p + |ident| <= |line| {
      var here := line[p..p + |ident|];
      assert forall k :: 0 <= k < |ident| ==> here[k] == line[p + k];
      if forall k :: 0 <= k < |ident| ==> line[p + k] == ident[k] { assert here == ident; }
    }
  }

  // ---------------------------------------------------------------- counting every position

  /** The number of hits at positions from..; every position is looked at. */
  ghost function Count(line: string, ident: string, from: nat, c: Classes): nat
    decreases |line| + 1 - from
  {
    if from > |line| then 0 else (if Hit(line, ident, from, c) then 1 else 0) + Count(line, ident, from + 1, c)
  }

  ghost predicate AllWord(ident: string, c: Classes) {
    ident != [] && forall k :: 0 <= k < |ident| ==> c.word(ident[k])
  }

  lemma {:induction false} CountSkips(line: string, ident: string, from: nat, to: nat, c: Classes)
    requires from <= to <= |line| + 1
    requires forall p :: from <= p < to ==> !Hit(line, ident, p, c)
    ensures Count(line, ident, from, c) == Count(line, ident, to, c)
    decreases |line| + 1 - from
  {
    if from < to { CountSkips(line, ident, from + 1, to, c); }
  }

  lemma OccursFits(line: string, ident: string, p: nat)
    requires Occurs(line, ident, p)
    ensures p + |ident| <= |line|
  {}

  /** An occurrence inside another one has a name character before it, so it is no whole word. */
  lemma OverlapNeverHits(line: string, ident: string, p: nat, q: nat, c: Classes)
    requires AllWord(ident, c) && Occurs(line, ident, p) && p < q < p + |ident|
    ensures !Hit(line, ident, q, c)
  {
    assert line[q - 1] == line[p..p + |ident|][q - 1 - p];
  }

  /** Jumping past each match loses nothing: the result counts the hits at all positions. */
  method ConversionHitsOf(line: string, ident: string, c: Classes) returns (hits: nat)
    requires AllWord(ident, c)
    ensures hits == Count(line, ident, 0, c)
  {
    hide PrevOp, NextOp, Occurs;
    hits := 0;
    var from := 0;
    while true
      invariant from <= |line|
      invariant hits + Count(line, ident, from, c) == Count(line, ident, 0, c)
      decreases |line| - from
    {
      var found := Find(line, ident, from);
      if found.None? {
        CountSkips(line, ident, from, |line| + 1, c);
        break;
      }
      var start := found.value;
      var end := start + |ident|;
      OccursFits(line, ident, start);
      CountSkips(line, ident, from, start, c);
      forall q | start < q < end ensures !Hit(line, ident, q, c) { OverlapNeverHits(line, ident, start, q, c); }
      CountSkips(line, ident, start + 1, end, c);
      from := end;
      if WordBefore(line, start, c) || WordAfter(line, end, c) { continue; }
      var prevOp := PrevOp(line, start, c);
      var nextOp := NextOp(line, end, c);
      if prevOp || nextOp { hits := hits + 1; }
    }
  }

  // ---------------------------------------------------------------- all names of a line

  ghost function CountAll(line: string, idents: seq<string>, c: Classes): nat {
    if idents == [] then 0 else CountAll(line, idents[..|idents| - 1], c) + Count(line, idents[|idents| - 1], 0, c)
  }

  ghost predicate AnyHit(line: string, idents: seq<string>, p: nat, c: Classes) {
    exists k :: 0 <= k < |idents| && Hit(line, idents[k], p, c)
  }

  /** The number of positions at or after from where some name is hit. */
  ghost function HitPositions(line: string, idents: seq<string>, from: nat, c: Classes): nat
    decreases |line| + 1 - from
  {
    if from > |line| then 0
      else (if AnyHit(line, idents, from, c) then 1 else 0) + HitPositions(line, idents, from + 1, c)
  }

  /** Two whole words at the same place are the same word. */
  lemma OneWordPerPlace(line: string, a: string, b: string, p: nat, c: Classes)
    requires AllWord(a, c) && AllWord(b, c) && WholeWord(line, a, p, c) && WholeWord(line, b, p, c)
    ensures a == b
  {
    if |a| < |b| {
      LongerGoesOn(line, b, p, |a|, c);
      assert false;
    } else if |b| < |a| {
      LongerGoesOn(line, a, p, |b|, c);
      assert false;
    }
  }

  lemma LongerGoesOn(line: string, b: string, p: nat, n: nat, c: Classes)
    requires AllWord(b, c) && Occurs(line, b, p) && n < |b|
    ensures WordAfter(line, p + n, c)
  {
    assert line[p + n] == line[p..p + |b|][n];
  }

  ghost predicate DistinctWords(idents: seq<string>, c: Classes) {
    && (forall k :: 0 <= k < |idents| ==> AllWord(idents[k], c))
    && (forall j, k :: 0 <= j < k < |idents| ==> idents[j] != idents[k])
  }

  lemma {:induction false} AddName(line: string, idents: seq<string>, ident: string, from: nat, c: Classes)
    requires DistinctWords(idents + [ident], c)
    ensures HitPositions(line, idents + [ident], from, c)
      == HitPositions(line, idents, from, c) + Count(line, ident, from, c)
    decreases |line| + 1 - from
  {
    hide Hit;
    if from <= |line| {
      AddName(line, idents, ident, from + 1, c);
      AddNameAt(line, idents, ident, from, c);
    }
  }

  lemma AddNameAt(line: string, idents: seq<string>, ident: string, p: nat, c: Classes)
    requires DistinctWords(idents + [ident], c)
    ensures AnyHit(line, idents + [ident], p, c) <==> AnyHit(line, idents, p, c) || Hit(line, ident, p, c)
    ensures !(AnyHit(line, idents, p, c) && Hit(line, ident, p, c))
  {
    hide PrevOp, NextOp, WholeWord, AllWord;
    var all := idents + [ident];
    assert all[|idents|] == ident && AllWord(all[|idents|], c);
    forall k | 0 <= k < |idents|
      ensures Hit(line, all[k], p, c) == Hit(line, idents[k], p, c)
        && !(Hit(line, idents[k], p, c) && Hit(line, ident, p, c)) {
      assert all[k] == idents[k] && AllWord(all[k], c) && all[k] != all[|idents|];
      if Hit(line, idents[k], p, c) && Hit(line, ident, p, c) {
        OneWordPerPlace(line, idents[k], ident, p, c);
        assert false;
      }
    }
    if AnyHit(line, idents, p, c) {
      var k :| 0 <= k < |idents| && Hit(line, idents[k], p, c);
      assert Hit(line, all[k], p, c);
    }
  }

  /** Summed over distinct names, each whole word of the line counts at most once. */
  lemma {:induction false} EachWordOnce(line: string, idents: seq<string>, c: Classes)
    requires DistinctWords(idents, c)
    ensures CountAll(line, idents, c) == HitPositions(line, idents, 0, c) <= |line| + 1
  {
    if idents == [] {
      NoNames(line, 0, c);
    } else {
      var init, last := idents[..|idents| - 1], idents[|idents| - 1];
      assert idents == init + [last];
      forall k | 0 <= k < |init| ensures AllWord(init[k], c) { assert init[k] == idents[k]; }
      EachWordOnce(line, init, c);
      AddName(line, init, last, 0, c);
    }
    PositionsBound(line, idents, 0, c);
  }

  lemma {:induction false} NoNames(line: string, from: nat, c: Classes)
    ensures HitPositions(line, [], from, c) == 0
    decreases |line| + 1 - from
  {
    if from <= |line| { NoNames(line, from + 1, c); }
  }

  lemma {:induction false} PositionsBound(line: string, idents: seq<string>, from: nat, c: Classes)
    requires from <= |line| + 1
    ensures HitPositions(line, idents, from, c) <= |line| + 1 - from
    decreases |line| + 1 - from
  {
    if from <= |line| { PositionsBound(line, idents, from + 1, c); }
  }

  // ---------------------------------------------------------------- a whole file

  function Repeat(n: nat, times: nat): (r: seq<nat>)
    ensures |r| == times && forall k :: 0 <= k < times ==> r[k] == n
  {
    seq(times, _ => n)
  }

  ghost function Report(lines: seq<string>, c: Classes): seq<nat> {
    if lines == [] then []
    else Report(lines[..|lines| - 1], c) + Repeat(|lines|, HitPositions(lines[|lines| - 1], CONVERSION_IDENTS, 0, c))
  }

  ghost predicate Sane(c: Classes) { DistinctWords(CONVERSION_IDENTS, c) }

  /** For every line in order, its 1-based number once for each scale word next to an operator. */
  method Violations(lines: seq<string>, c: Classes) returns (out: seq<nat>)
    requires Sane(c)
    ensures out == Report(lines, c)
  {
    out := [];
    for idx := 0 to |lines|
      invariant out == Report(lines[..idx], c)
    {
      assert lines[..idx + 1][..idx] == lines[..idx];
      var hits := 0;
      for k := 0 to |CONVERSION_IDENTS|
        invariant hits == CountAll(lines[idx], CONVERSION_IDENTS[..k], c)
      {
        assert CONVERSION_IDENTS[..k + 1][..k] == CONVERSION_IDENTS[..k];
        var h := ConversionHitsOf(lines[idx], CONVERSION_IDENTS[k], c);
        hits := hits + h;
      }
      assert CONVERSION_IDENTS[..|CONVERSION_IDENTS|] == CONVERSION_IDENTS;
      EachWordOnce(lines[idx], CONVERSION_IDENTS, c);
      out := out + Repeat(idx + 1, hits);
    }
    assert lines[..|lines|] == lines;
  }

  lemma {:induction false} ReportCounts(lines: seq<string>, c: Classes, n: nat)
    ensures multiset(Report(lines, c))[n] == if 1 <= n <= |lines|
      then HitPositions(lines[n - 1], CONVERSION_IDENTS, 0, c) else 0
  {
    if lines != [] {
      ReportCounts(lines[..|lines| - 1], c, n);
      RepeatCounts(|lines|, HitPositions(lines[|lines| - 1], CONVERSION_IDENTS, 0, c), n);
    }
  }

  lemma {:induction false} RepeatCounts(n: nat, times: nat, m: nat)
    ensures multiset(Repeat(n, times))[m] == if m == n then times else 0
  {
    if times > 0 {
      RepeatCounts(n, times - 1, m);
      assert Repeat(n, times) == Repeat(n, times - 1) + [n];
    }
  }
}
