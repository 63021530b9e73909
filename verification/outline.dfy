/** Turning path segments into polylines: one polyline per subpath, split at every MoveTo. */
module Outline {
  import opened Bezier
  import opened Wrappers

  datatype Segment =
    | MoveTo(p: Point)
    | LineTo(p: Point)
    | QuadTo(p1: Point, p2: Point)
    | CubicTo(p1: Point, p2: Point, p3: Point)
    | Close

  /** A curve segment needs a point to start from; with none the program stops with an error. */
  predicate NeedsStart(s: Segment) { s.QuadTo? || s.CubicTo? }

  predicate OnlyClose(path: seq<Segment>) { forall k :: 0 <= k < |path| ==> path[k].Close? }

  /** Some curve segment comes before every MoveTo and LineTo of its path. */
  ghost predicate StartsNowhere(path: seq<Segment>) {
    exists j :: 0 <= j < |path| && StuckAt(path, j)
  }

  ghost predicate StuckAt(path: seq<Segment>, j: nat)
    requires j < |path|
  {
    NeedsStart(path[j]) && OnlyClose(path[..j])
  }

  /** The points drawn so far, extended by one more segment. */
  ghost function Draw(cur: seq<Point>, s: Segment): seq<Point> {
    match s
    case MoveTo(p) => [p]
    case LineTo(p) => cur + [p]
    case QuadTo(p1, p2) => if cur == [] then [] else cur + Points(Quad(cur[|cur| - 1], p1, p2), 0)
    case CubicTo(p1, p2, p3) => if cur == [] then [] else cur + Points(Cubic(cur[|cur| - 1], p1, p2, p3), 0)
    case Close => if cur == [] then [] else cur + [cur[0]]
  }

  ghost function Trace(group: seq<Segment>): seq<Point> {
    if group == [] then [] else Draw(Trace(group[..|group| - 1]), group[|group| - 1])
  }

  ghost function AddSegment(gs: seq<seq<Segment>>, s: Segment): (r: seq<seq<Segment>>)
    requires gs != []
    ensures r != []
  {
    if s.MoveTo? then gs + [[s]] else gs[..|gs| - 1] + [gs[|gs| - 1] + [s]]
  }

  /** The segments of a path cut just before every MoveTo. */
  ghost function Groups(path: seq<Segment>): (gs: seq<seq<Segment>>)
    ensures gs != []
  {
    if path == [] then [[]] else AddSegment(Groups(path[..|path| - 1]), path[|path| - 1])
  }

  /** The polylines of the groups that drew at least two points. */
  ghost function Kept(gs: seq<seq<Segment>>): seq<seq<Point>> {
    if gs == [] then []
    else
      var t := Trace(gs[|gs| - 1]);
      Kept(gs[..|gs| - 1]) + if |t| >= 2 then [t] else []
  }

  ghost function Subpaths(paths: seq<seq<Segment>>): seq<seq<Point>> {
    if paths == [] then [] else Subpaths(paths[..|paths| - 1]) + Kept(Groups(paths[|paths| - 1]))
  }

  function Flatten<T>(ss: seq<seq<T>>): seq<T> {
    if ss == [] then [] else Flatten(ss[..|ss| - 1]) + ss[|ss| - 1]
  }

  ghost predicate CutAtMoves(gs: seq<seq<Segment>>) {
    && gs != []
    && (forall g :: 0 < g < |gs| ==> gs[g] != [] && gs[g][0].MoveTo?)
    && (forall g, k :: 0 <= g < |gs| && (if g == 0 then 0 else 1) <= k < |gs[g]| ==> !gs[g][k].MoveTo?)
  }

  /** The groups are the path, cut before each MoveTo and nowhere else. */
  lemma {:induction false} GroupsPartition(path: seq<Segment>)
    ensures Flatten(Groups(path)) == path && CutAtMoves(Groups(path))
  {
    if path != [] {
      var init, s := path[..|path| - 1], path[|path| - 1];
      GroupsPartition(init);
      AddKeepsCut(Groups(init), s);
      assert path == init + [s];
    } else {
      assert Flatten([[]]) == Flatten<Segment>([[]][..0]) + [];
    }
  }

  lemma AddKeepsCut(gs: seq<seq<Segment>>, s: Segment)
    requires CutAtMoves(gs)
    ensures CutAtMoves(AddSegment(gs, s)) && Flatten(AddSegment(gs, s)) == Flatten(gs) + [s]
  {
    var r, last := AddSegment(gs, s), gs[|gs| - 1];
    if s.MoveTo? {
      assert r[..|gs|] == gs;
    } else {
      assert r[..|gs| - 1] == gs[..|gs| - 1];
      assert Flatten(gs[..|gs| - 1]) + (last + [s]) == (Flatten(gs[..|gs| - 1]) + last) + [s];
    }
  }

  lemma AddToKept(gs: seq<seq<Segment>>, s: Segment)
    requires gs != []
    ensures var r := AddSegment(gs, s);
            && Kept(r[..|r| - 1]) == (if s.MoveTo? then Kept(gs) else Kept(gs[..|gs| - 1]))
            && Trace(r[|r| - 1]) == Draw(Trace(gs[|gs| - 1]), s)
  {
    var r, last := AddSegment(gs, s), gs[|gs| - 1];
    if s.MoveTo? {
      assert r[..|r| - 1] == gs;
      assert [s][..0] == [];
    } else {
      assert r[..|r| - 1] == gs[..|gs| - 1];
      assert (last + [s])[..|last|] == last;
    }
  }

  lemma OnlyCloseStep(path: seq<Segment>, s: Segment)
    ensures OnlyClose(path + [s]) <==> OnlyClose(path) && s.Close?
  {
    if OnlyClose(path + [s]) {
      assert (path + [s])[|path|].Close?;
      forall k | 0 <= k < |path| ensures path[k].Close? { assert (path + [s])[k].Close?; }
    }
  }

  lemma StartsNowhereStep(path: seq<Segment>, s: Segment)
    ensures StartsNowhere(path + [s]) <==> StartsNowhere(path) || (NeedsStart(s) && OnlyClose(path))
  {
    var more := path + [s];
    assert more[..|path|] == path;
    forall j | 0 <= j < |path| ensures StuckAt(more, j) == StuckAt(path, j) {
      assert more[..j] == path[..j];
    }
    if NeedsStart(s) && OnlyClose(path) { assert StuckAt(more, |path|); }
    if StartsNowhere(path) {
      var j :| 0 <= j < |path| && StuckAt(path, j);
      assert StuckAt(more, j);
    }
  }

  /** The last group has drawn nothing only while the path holds nothing but Close. */
  lemma {:induction false} TraceEmpty(path: seq<Segment>)
    requires !StartsNowhere(path)
    ensures var gs := Groups(path); Trace(gs[|gs| - 1]) == [] <==> OnlyClose(path)
  {
    if path != [] {
      var init, s := path[..|path| - 1], path[|path| - 1];
      assert path == init + [s];
      StartsNowhereStep(init, s);
      OnlyCloseStep(init, s);
      TraceEmpty(init);
      AddToKept(Groups(init), s);
    }
  }

  /** The state in the middle of a path: the closed subpaths are kept, the last one is being drawn. */
  ghost predicate Drawing(path: seq<Segment>, before: seq<seq<Point>>, subpaths: seq<seq<Point>>, points: seq<Point>) {
    && !StartsNowhere(path)
    && var gs := Groups(path); subpaths == before + Kept(gs[..|gs| - 1]) && points == Trace(gs[|gs| - 1])
  }

  lemma NothingDrawn(path: seq<Segment>, before: seq<seq<Point>>)
    ensures Drawing(path[..0], before, before, [])
  {
    assert path[..0] == [];
    var none: seq<seq<Segment>> := [[]];
    assert none[..0] == [] && before + [] == before;
  }

  lemma DrawStep(path: seq<Segment>, i: nat, before: seq<seq<Point>>, subpaths: seq<seq<Point>>, points: seq<Point>)
    requires i < |path| && Drawing(path[..i], before, subpaths, points)
    ensures NeedsStart(path[i]) && points == [] <==> StartsNowhere(path[..i + 1])
    ensures !(NeedsStart(path[i]) && points == []) ==>
      Drawing(path[..i + 1], before, if path[i].MoveTo? && |points| >= 2 then subpaths + [points] else subpaths,
        Draw(points, path[i]))
  {
    hide StartsNowhere, OnlyClose, AddSegment, Trace, Draw;
    assert path[..i] + [path[i]] == path[..i + 1] && path[..i + 1][..i] == path[..i];
    TraceEmpty(path[..i]);
    StartsNowhereStep(path[..i], path[i]);
    AddToKept(Groups(path[..i]), path[i]);
  }

  lemma DrawEnd(path: seq<Segment>, before: seq<seq<Point>>, subpaths: seq<seq<Point>>, points: seq<Point>)
    requires Drawing(path, before, subpaths, points)
    ensures !StartsNowhere(path) && before + Kept(Groups(path)) == if |points| >= 2 then subpaths + [points]
      else subpaths
  {
    hide StartsNowhere, Trace;
  }

  /** One command drawn onto the open subpath. */
  method DrawSegment(seg: Segment, current: Polyline)
    requires NeedsStart(seg) ==> current.points != []
    modifies current
    ensures current.points == Draw(old(current.points), seg)
  {
    hide Points;
    match seg {
      case MoveTo(p) => current.points := [p];
      case LineTo(p) => current.points := current.points + [p];
      case QuadTo(p1, p2) =>
        FlattenQuad(current.points[|current.points| - 1], p1, p2, 0, current);
      case CubicTo(p1, p2, p3) =>
        FlattenCubic(current.points[|current.points| - 1], p1, p2, p3, 0, current);
      case Close =>
        if current.points != [] { current.points := current.points + [current.points[0]]; }
    }
  }

  method FlattenPath(path: seq<Segment>, before: seq<seq<Point>>) returns (r: Option<seq<seq<Point>>>)
    ensures r.None? <==> StartsNowhere(path)
    ensures r.Some? ==> r.value == before + Kept(Groups(path))
  {
    hide StartsNowhere, Points, Drawing, Draw, Groups, Kept;
    var subpaths := before;
    var current := new Polyline();
    NothingDrawn(path, before);
    for i := 0 to |path|
      invariant fresh(current)
      invariant Drawing(path[..i], before, subpaths, current.points)
    {
      DrawStep(path, i, before, subpaths, current.points);
      if NeedsStart(path[i]) && current.points == [] {
        PrefixStuck(path, i + 1);
        return None;
      }
      if path[i].MoveTo? && |current.points| >= 2 {
        subpaths := subpaths + [current.points];
      }
      DrawSegment(path[i], current);
    }
    assert path[..|path|] == path;
    DrawEnd(path, before, subpaths, current.points);
    if |current.points| >= 2 {
      subpaths := subpaths + [current.points];
    }
    r := Some(subpaths);
  }

  lemma PrefixStuck(path: seq<Segment>, n: nat)
    requires n <= |path| && StartsNowhere(path[..n])
    ensures StartsNowhere(path)
  {
    var j :| 0 <= j < n && StuckAt(path[..n], j);
    assert path[..n][..j] == path[..j];
    assert StuckAt(path, j);
  }

  /** Fails exactly when some path opens with a curve that has no start point. */
  method FlattenTree(paths: seq<seq<Segment>>) returns (r: Option<seq<seq<Point>>>)
    ensures r.None? <==> exists i :: 0 <= i < |paths| && StartsNowhere(paths[i])
    ensures r.Some? ==> r.value == Subpaths(paths)
  {
    hide StartsNowhere, Kept, Groups;
    var subpaths := [];
    for i := 0 to |paths|
      invariant forall k :: 0 <= k < i ==> !StartsNowhere(paths[k])
      invariant subpaths == Subpaths(paths[..i])
    {
      assert paths[..i + 1][..i] == paths[..i];
      var step := FlattenPath(paths[i], subpaths);
      match step {
        case None => return None;
        case Some(s) => subpaths := s;
      }
    }
    assert paths[..|paths|] == paths;
    r := Some(subpaths);
  }

  /** Every polyline has at least two points. */
  lemma {:induction false} KeptAreLines(gs: seq<seq<Segment>>)
    ensures forall i :: 0 <= i < |Kept(gs)| ==> |Kept(gs)[i]| >= 2
  {
    if gs != [] { KeptAreLines(gs[..|gs| - 1]); }
  }

  /** A subpath starts at its MoveTo point and drawing never drops or moves a point already drawn. */
  lemma {:induction false} TraceKeepsPoints(group: seq<Segment>, n: nat)
    requires 0 < n <= |group| && group[0].MoveTo?
    requires forall k :: 0 < k < |group| ==> !group[k].MoveTo?
    ensures Trace(group[..n]) != [] && Trace(group[..n])[0] == group[0].p
    ensures Trace(group[..n]) <= Trace(group)
  {
    if |group| == n {
      assert group[..n] == group;
      if n == 1 {
        assert group[..0] == [];
      } else {
        TraceKeepsPoints(group[..n - 1], n - 1);
        assert group[..n - 1][..n - 1] == group[..n - 1];
      }
    } else {
      var g := group[..|group| - 1];
      TraceKeepsPoints(g, n);
      assert g[..n] == group[..n];
    }
  }
}
