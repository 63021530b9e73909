/** Function bodies as bracket intervals, the innermost body around a position, and the closure of
    "calls a function that writes". */
module WriterScan {
  import opened Wrappers

  // ---------------------------------------------------------------- matching brackets

  /** Opening minus closing brackets in text[i..k]. */
  function Depth(text: string, i: nat, k: nat, open: char, close: char): int
    requires i <= k <= |text|
    decreases k - i
  {
    if i == k then 0
    else Depth(text, i, k - 1, open, close) + if text[k - 1] == open then 1 else if text[k - 1] == close then -1 else 0
  }

  lemma {:induction false} DepthCounts(text: string, i: nat, k: nat, open: char, close: char)
    requires i <= k <= |text| && open != close
    ensures Depth(text, i, k, open, close) + multiset(text[i..k])[close] == multiset(text[i..k])[open]
    decreases k - i
  {
    if i < k {
      DepthCounts(text, i, k - 1, open, close);
      assert text[i..k] == text[i..k - 1] + [text[k - 1]];
    }
  }

  /** A closing bracket at k brings the depth counted from i back to zero. */
  predicate ClosesAt(text: string, i: nat, k: nat, open: char, close: char)
    requires i <= k < |text|
  {
    text[k] != open && text[k] == close && Depth(text, i, k + 1, open, close) == 0
  }

  /** k is where the bracket scan from i ends. */
  ghost predicate FirstClose(text: string, i: nat, k: nat, open: char, close: char) {
    i <= k < |text| && ClosesAt(text, i, k, open, close)
      && forall j :: i <= j < k ==> !ClosesAt(text, i, j, open, close)
  }

  method MatchClose(text: string, i: nat, open: char, close: char) returns (r: Option<nat>)
    ensures r.Some? ==> FirstClose(text, i, r.value, open, close)
    ensures r.None? ==> forall k :: i <= k < |text| ==> !ClosesAt(text, i, k, open, close)
  {
    var depth, at := 0, i;
    while at < |text|
      invariant i <= at && (i <= |text| ==> at <= |text|)
      invariant at <= |text| ==> depth == Depth(text, i, at, open, close)
      invariant forall j :: i <= j < at && j < |text| ==> !ClosesAt(text, i, j, open, close)
    {
      var c := text[at];
      if c == open {
        depth := depth + 1;
      } else if c == close {
        depth := depth - 1;
        if depth == 0 { return Some(at); }
      }
      at := at + 1;
    }
    return None;
  }

  lemma {:induction false} DepthSplits(text: string, i: nat, j: nat, k: nat, open: char, close: char)
    requires i <= j <= k <= |text|
    ensures Depth(text, i, k, open, close) == Depth(text, i, j, open, close) + Depth(text, j, k, open, close)
    decreases k - j
  {
    if j < k { DepthSplits(text, i, j, k - 1, open, close); }
  }

  /** Inside a bracket the depth is positive. */
  lemma {:induction false} OpenInside(text: string, i: nat, k: nat, at: nat, open: char, close: char)
    requires open != close && FirstClose(text, i, k, open, close) && text[i] == open && i < at <= k
    ensures Depth(text, i, at, open, close) >= 1
    decreases at
  {
    if at == i + 1 {
      assert Depth(text, i, i, open, close) == 0;
    } else {
      OpenInside(text, i, k, at - 1, open, close);
      assert !ClosesAt(text, i, at - 1, open, close);
    }
  }

  lemma {:induction false} FirstOf(text: string, i: nat, k: nat, open: char, close: char) returns (f: nat)
    requires i <= k < |text| && ClosesAt(text, i, k, open, close)
    ensures f <= k && FirstClose(text, i, f, open, close)
    decreases k
  {
    if j :| i <= j < k && ClosesAt(text, i, j, open, close) {
      f := FirstOf(text, i, j, open, close);
    } else {
      f := k;
    }
  }

  /** A depth that starts at 1 and ends below 1 is closed on the way. */
  lemma {:induction false} ClosesBefore(text: string, j: nat, end: nat, open: char, close: char) returns (k: nat)
    requires open != close && j < end <= |text| && text[j] == open && Depth(text, j, end, open, close) < 1
    ensures j < k < end && FirstClose(text, j, k, open, close)
    decreases end
  {
    assert Depth(text, j, j, open, close) == 0;
    if Depth(text, j, end - 1, open, close) < 1 {
      k := ClosesBefore(text, j, end - 1, open, close);
    } else {
      k := FirstOf(text, j, end - 1, open, close);
      assert !ClosesAt(text, j, j, open, close);
    }
  }

  /** Bracket intervals are nested or disjoint: one that starts inside another ends inside it. */
  lemma StartsInsideEndsInside(text: string, i: nat, k: nat, j: nat, l: nat, open: char, close: char)
    requires open != close && FirstClose(text, i, k, open, close) && FirstClose(text, j, l, open, close)
    requires text[i] == open && text[j] == open && i < j <= k
    ensures l < k
  {
    assert j < k;
    DepthSplits(text, i, j, k + 1, open, close);
    OpenInside(text, i, k, j, open, close);
    var m := ClosesBefore(text, j, k + 1, open, close);
    FirstUnique(text, j, l, m, open, close);
    assert Depth(text, j, k + 1, open, close) < 0;
  }

  lemma FirstUnique(text: string, i: nat, k: nat, l: nat, open: char, close: char)
    requires FirstClose(text, i, k, open, close) && FirstClose(text, i, l, open, close)
    ensures k == l
  {}

  // ---------------------------------------------------------------- function bodies

  datatype Fn = Fn(name: string, start: nat, end: nat)

  /** A place where the pattern for a function declaration matched: its name and the end of the match. */
  datatype Match = Match(name: string, end: nat)

  function FindChar(text: string, from: nat, c: char): (r: Option<nat>)
    ensures r.None? <==> forall k :: from <= k < |text| ==> text[k] != c
    ensures r.Some? ==>
      from <= r.value < |text| && text[r.value] == c
        && forall k :: from <= k < r.value ==> text[k] != c
    decreases |text| - from
  {
    if from >= |text| then None else if text[from] == c then Some(from) else FindChar(text, from + 1, c)
  }

  /** The parameter list of m is the bracket pair p, pe, and the next brace or semicolon is at start or later. */
  ghost predicate ParametersAt(text: string, m: Match, p: nat, pe: nat, start: nat) {
    && FindChar(text, m.end, '(') == Some(p)
    && FirstClose(text, p, pe, '(', ')') && pe < start <= |text|
    && (forall k :: pe < k < start ==> text[k] != '{' && text[k] != ';')
  }

  /** f is the body of the declaration m: the braces that open right after the parameter list, with no
      semicolon before them. */
  ghost predicate BodyOf(text: string, m: Match, f: Fn) {
    && f.name == m.name && f.start < |text| && text[f.start] == '{' && FirstClose(text, f.start, f.end, '{', '}')
    && exists p: nat, pe: nat :: ParametersAt(text, m, p, pe, f.start)
  }

  method BodyOfMatch(text: string, m: Match) returns (r: Option<Fn>)
    ensures r.Some? ==> BodyOf(text, m, r.value)
    ensures r.None? ==> forall f :: !BodyOf(text, m, f)
  {
    var p := FindChar(text, m.end, '(');
    if p.None? { return None; }
    var pe := MatchClose(text, p.value, '(', ')');
    if pe.None? { return None; }
    var j := pe.value + 1;
    while j < |text| && text[j] != '{' && text[j] != ';'
      invariant pe.value < j <= |text|
      invariant forall k :: pe.value < k < j ==> text[k] != '{' && text[k] != ';'
    {
      j := j + 1;
    }
    assert ParametersAt(text, m, p.value, pe.value, j);
    forall f: Fn | BodyOf(text, m, f) ensures f.start == j { BodyStart(text, m, p.value, pe.value, j, f); }
    if j >= |text| || text[j] == ';' { return None; }
    var be := MatchClose(text, j, '{', '}');
    if be.None? { return None; }
    return Some(Fn(m.name, j, be.value));
  }

  /** A body of m can only start at the first brace after its parameter list. */
  lemma BodyStart(text: string, m: Match, p: nat, pe: nat, j: nat, f: Fn)
    requires ParametersAt(text, m, p, pe, j) && (j < |text| ==> text[j] == '{' || text[j] == ';')
    requires BodyOf(text, m, f)
    ensures f.start == j
  {
    var q: nat, qe: nat :| ParametersAt(text, m, q, qe, f.start);
    FirstUnique(text, p, pe, qe, '(', ')');
  }

  ghost predicate FromMatches(text: string, matches: seq<Match>, f: Fn) {
    exists i :: 0 <= i < |matches| && BodyOf(text, matches[i], f)
  }

  ghost function BodyIn(text: string, m: Match): Option<Fn> {
    if f :| BodyOf(text, m, f) then Some(f) else None
  }

  /** The bodies, in the order of the declarations. */
  ghost function BodiesIn(text: string, matches: seq<Match>): seq<Fn> {
    if matches == [] then []
    else
      var last := BodyIn(text, matches[|matches| - 1]);
      BodiesIn(text, matches[..|matches| - 1]) + if last.Some? then [last.value] else []
  }

  /** The declarations that have a body, in order, each with its body. */
  method Functions(text: string, matches: seq<Match>) returns (out: seq<Fn>)
    ensures out == BodiesIn(text, matches)
  {
    out := [];
    for i := 0 to |matches|
      invariant out == BodiesIn(text, matches[..i])
    {
      hide BodyOf;
      var r := BodyOfMatch(text, matches[i]);
      if r.Some? { OneBodyIn(text, matches[i], r.value); }
      assert r == BodyIn(text, matches[i]);
      assert matches[..i + 1][..i] == matches[..i];
      if r.Some? { out := out + [r.value]; }
    }
    assert matches[..|matches|] == matches;
  }

  lemma OneBodyIn(text: string, m: Match, f: Fn)
    requires BodyOf(text, m, f)
    ensures BodyIn(text, m) == Some(f)
  {
    var g :| BodyOf(text, m, g) && BodyIn(text, m) == Some(g);
    OneBody(text, m, f, g);
  }

  lemma {:induction false} BodiesAre(text: string, matches: seq<Match>)
    ensures forall f :: f in BodiesIn(text, matches) <==> FromMatches(text, matches, f)
  {
    if matches != [] {
      hide BodyOf, FromMatches, BodyIn;
      var n := |matches| - 1;
      BodiesAre(text, matches[..n]);
      assert matches[..n + 1] == matches;
      var last := BodyIn(text, matches[n]);
      forall f ensures f in BodiesIn(text, matches) <==> FromMatches(text, matches, f) {
        MoreMatches(text, matches, n, f);
        LastBody(text, matches[n], f);
      }
    }
  }

  lemma LastBody(text: string, m: Match, f: Fn)
    ensures BodyOf(text, m, f) <==> BodyIn(text, m) == Some(f)
  {
    hide BodyOf;
    if BodyOf(text, m, f) { OneBodyIn(text, m, f); }
  }

  lemma MoreMatches(text: string, matches: seq<Match>, i: nat, f: Fn)
    requires i < |matches|
    ensures FromMatches(text, matches[..i + 1], f) <==>
      FromMatches(text, matches[..i], f) || BodyOf(text, matches[i], f)
  {
    hide BodyOf;
    var a, b := matches[..i], matches[..i + 1];
    if FromMatches(text, a, f) {
      var k :| 0 <= k < |a| && BodyOf(text, a[k], f);
      assert BodyOf(text, b[k], f);
    }
    if FromMatches(text, b, f) && !BodyOf(text, matches[i], f) {
      var k :| 0 <= k < |b| && BodyOf(text, b[k], f);
      assert BodyOf(text, a[k], f);
    }
    if BodyOf(text, matches[i], f) { assert BodyOf(text, b[i], f); }
  }

  lemma OneBody(text: string, m: Match, f: Fn, g: Fn)
    requires BodyOf(text, m, f)
    ensures BodyOf(text, m, g) <==> g == f
  {
    if BodyOf(text, m, g) {
      var p: nat, pe: nat :| ParametersAt(text, m, p, pe, f.start);
      BodyStart(text, m, p, pe, f.start, g);
      FirstUnique(text, f.start, f.end, g.end, '{', '}');
    }
  }

  ghost predicate Contains(f: Fn, pos: nat) { f.start <= pos <= f.end }

  ghost predicate Bodies(text: string, fns: seq<Fn>) {
    forall i :: 0 <= i < |fns| ==>
      fns[i].start < |text| && text[fns[i].start] == '{' && FirstClose(text, fns[i].start, fns[i].end, '{', '}')
  }

  lemma FunctionsAreBodies(text: string, matches: seq<Match>, fns: seq<Fn>)
    requires fns == BodiesIn(text, matches)
    ensures Bodies(text, fns)
  {
    BodiesAre(text, matches);
    forall i | 0 <= i < |fns|
      ensures fns[i].start < |text| && text[fns[i].start] == '{'
        && FirstClose(text, fns[i].start, fns[i].end, '{', '}') {
      assert fns[i] in fns;
    }
  }

  /** The innermost body around pos: of the bodies that contain pos it lies inside every one, and it is
      the first of the list with that extent. */
  method Enclosing(text: string, fns: seq<Fn>, pos: nat) returns (best: Option<nat>)
    requires Bodies(text, fns)
    ensures best.None? <==> forall i :: 0 <= i < |fns| ==> !Contains(fns[i], pos)
    ensures best.Some? ==>
              && best.value < |fns| && Contains(fns[best.value], pos)
              && (forall i :: 0 <= i < |fns| && Contains(fns[i], pos) ==>
                fns[i].start <= fns[best.value].start && fns[best.value].end <= fns[i].end)
              && (forall i :: 0 <= i < best.value && Contains(fns[i], pos) ==> fns[i].start < fns[best.value].start)
  {
    best := None;
    for i := 0 to |fns|
      invariant best.None? <==> forall k :: 0 <= k < i ==> !Contains(fns[k], pos)
      invariant best.Some? ==> best.value < i && Contains(fns[best.value], pos)
      invariant best.Some? ==> forall k :: 0 <= k < i && Contains(fns[k], pos) ==> fns[k].start <= fns[best.value].start
      invariant best.Some? ==>
        forall k :: 0 <= k < best.value && Contains(fns[k], pos) ==> fns[k].start < fns[best.value].start
    {
      var f := fns[i];
      if f.start <= pos <= f.end && (best.None? || f.start > fns[best.value].start) {
        best := Some(i);
      }
    }
    if best.Some? {
      forall i | 0 <= i < |fns| && Contains(fns[i], pos) ensures fns[best.value].end <= fns[i].end {
        LaterStartIsInside(text, fns, i, best.value, pos);
      }
    }
  }

  lemma LaterStartIsInside(text: string, fns: seq<Fn>, i: nat, b: nat, pos: nat)
    requires Bodies(text, fns) && i < |fns| && b < |fns| && Contains(fns[i], pos) && Contains(fns[b], pos)
      && fns[i].start <= fns[b].start
    ensures fns[b].end <= fns[i].end
  {
    var f, g := fns[i], fns[b];
    if f.start < g.start {
      StartsInsideEndsInside(text, f.start, f.end, g.start, g.end, '{', '}');
    } else {
      FirstUnique(text, f.start, f.end, g.end, '{', '}');
    }
  }

  // ---------------------------------------------------------------- closure over calls

  datatype Def = Def(name: string, body: string)

  /** Whether a body calls a function of this name, as the call pattern decides it. */
  type Calls = (string, string) -> bool

  ghost function NamesOf(defs: seq<Def>, marked: set<nat>): set<string> {
    set i | 0 <= i < |defs| && i in marked :: defs[i].name
  }

  predicate CallsAny(body: string, names: set<string>, calls: Calls) { exists n :: n in names && calls(body, n) }

  /** A set of definitions with the direct writers in it that no call of a member's name leaves. */
  ghost predicate Closed(defs: seq<Def>, direct: set<nat>, calls: Calls, x: set<nat>) {
    direct <= x && forall i :: 0 <= i < |defs| && CallsAny(defs[i].body, NamesOf(defs, x), calls) ==> i in x
  }

  ghost predicate Least(defs: seq<Def>, direct: set<nat>, calls: Calls, m: set<nat>) {
    Closed(defs, direct, calls, m) && forall x :: Closed(defs, direct, calls, x) ==> m <= x
  }

  ghost predicate Within(defs: seq<Def>, direct: set<nat>, calls: Calls, m: set<nat>) {
    forall x :: Closed(defs, direct, calls, x) ==> m <= x
  }

  /** Everything marked is forced by the direct writers, and its names are known. */
  ghost predicate Forced(defs: seq<Def>, direct: set<nat>, calls: Calls, m: set<nat>, names: set<string>) {
    direct <= m && Within(defs, direct, calls, m) && names == NamesOf(defs, m)
  }

  ghost predicate AllMarked(defs: seq<Def>, calls: Calls, known: set<string>, direct: seq<bool>, n: nat) {
    n <= |defs| && |direct| == |defs| && forall k :: 0 <= k < n && CallsAny(defs[k].body, known, calls) ==> direct[k]
  }

  ghost function Marked(direct: seq<bool>): set<nat> { set i | 0 <= i < |direct| && direct[i] }

  /** The loop ends, and marks exactly the least set that holds the direct writers and every definition
      whose body calls the name of a member. */
  method CloseOverCalls(defs: seq<Def>, direct: array<bool>, calls: Calls)
    requires direct.Length == |defs|
    modifies direct
    ensures Least(defs, Marked(old(direct[..])), calls, Marked(direct[..]))
  {
    hide Closed, Forced, Marked, AllMarked, CallsAny, Least;
    ghost var start := Marked(direct[..]);
    ghost var all := set i | 0 <= i < |defs| :: defs[i].name;
    var names := DirectNames(defs, direct);
    StartForced(defs, start, calls);
    NamesBounded(defs, start, all);
    var changed := true;
    while changed
      invariant Forced(defs, start, calls, Marked(direct[..]), names) && names <= all
      invariant !changed ==> Closed(defs, start, calls, Marked(direct[..]))
      decreases all - names, changed
    {
      changed := false;
      var known := names;
      NoneYet(defs, calls, known, direct[..]);
      for i := 0 to |defs|
        invariant Forced(defs, start, calls, Marked(direct[..]), names) && known <= names <= all
        invariant if changed then known < names else names == known
        invariant AllMarked(defs, calls, known, direct[..], i)
      {
        OneMore(defs, calls, known, direct[..], i);
        if direct[i] || known == {} { continue; }
        if CallsAny(defs[i].body, known, calls) {
          MarkOne(defs, start, calls, direct[..], i, known, names);
          direct[i] := true;
          if defs[i].name !in names {
            names := names + {defs[i].name};
            changed := true;
          } else {
            assert names + {defs[i].name} == names;
          }
        }
      }
      if !changed { NothingNew(defs, start, calls, direct[..], names); }
    }
    ForcedIsLeast(defs, start, calls, Marked(direct[..]), names);
  }

  method DirectNames(defs: seq<Def>, direct: array<bool>) returns (names: set<string>)
    requires direct.Length == |defs|
    ensures names == NamesOf(defs, Marked(direct[..]))
  {
    names := {};
    for i := 0 to |defs|
      invariant names == set k | 0 <= k < i && direct[k] :: defs[k].name
    {
      if direct[i] { names := names + {defs[i].name}; }
    }
  }

  lemma StartForced(defs: seq<Def>, direct: set<nat>, calls: Calls)
    ensures Forced(defs, direct, calls, direct, NamesOf(defs, direct))
  {}

  lemma NamesBounded(defs: seq<Def>, m: set<nat>, all: set<string>)
    requires all == set i | 0 <= i < |defs| :: defs[i].name
    ensures NamesOf(defs, m) <= all
  {}

  lemma NoneYet(defs: seq<Def>, calls: Calls, known: set<string>, direct: seq<bool>)
    requires |direct| == |defs|
    ensures AllMarked(defs, calls, known, direct, 0)
  {}

  /** What marking i, if it calls a known name, adds to the pass. */
  lemma OneMore(defs: seq<Def>, calls: Calls, known: set<string>, direct: seq<bool>, i: nat)
    requires AllMarked(defs, calls, known, direct, i) && i < |defs|
    ensures AllMarked(defs, calls, known, direct[i := true], i + 1)
    ensures direct[i] || !CallsAny(defs[i].body, known, calls) || known == {} ==>
      AllMarked(defs, calls, known, direct, i + 1)
  {
    if known == {} { assert !CallsAny(defs[i].body, known, calls); }
  }

  lemma ForcedIsLeast(defs: seq<Def>, direct: set<nat>, calls: Calls, m: set<nat>, names: set<string>)
    requires Closed(defs, direct, calls, m) && Forced(defs, direct, calls, m, names)
    ensures Least(defs, direct, calls, m)
  {
    IsLeast(defs, direct, calls, m);
  }

  lemma IsLeast(defs: seq<Def>, direct: set<nat>, calls: Calls, m: set<nat>)
    requires Closed(defs, direct, calls, m) && Within(defs, direct, calls, m)
    ensures Least(defs, direct, calls, m)
  {}

  /** A pass that learnt no new name has marked every caller of the known ones. */
  lemma NothingNew(defs: seq<Def>, start: set<nat>, calls: Calls, direct: seq<bool>, names: set<string>)
    requires Forced(defs, start, calls, Marked(direct), names) && AllMarked(defs, calls, names, direct, |defs|)
    ensures Closed(defs, start, calls, Marked(direct))
  {
    hide CallsAny, Within, NamesOf;
  }

  /** A definition that calls a marked name belongs to every closed set the marked ones belong to. */
  lemma MarkOne(defs: seq<Def>, start: set<nat>, calls: Calls, direct: seq<bool>, i: nat, known: set<string>,
                names: set<string>)
    requires i < |defs| == |direct| && Forced(defs, start, calls, Marked(direct), names) && known <= names
      && CallsAny(defs[i].body, known, calls)
    ensures Forced(defs, start, calls, Marked(direct[i := true]), names + {defs[i].name})
  {
    var m := Marked(direct);
    assert Marked(direct[i := true]) == m + {i};
    forall x | Closed(defs, start, calls, x) ensures i in x {
      assert m <= x;
      var n :| n in known && calls(defs[i].body, n);
      assert n in NamesOf(defs, x);
      assert CallsAny(defs[i].body, NamesOf(defs, x), calls);
    }
  }

  /** There is only one least set. */
  lemma LeastIsUnique(defs: seq<Def>, direct: set<nat>, calls: Calls, a: set<nat>, b: set<nat>)
    requires Least(defs, direct, calls, a) && Least(defs, direct, calls, b)
    ensures a == b
  {
    assert a <= b && b <= a;
  }
}
