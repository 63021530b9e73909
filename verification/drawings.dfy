/** What a drawn subpath looks like: where its pen stands, and what each command adds to it. */
module Drawings {
  import opened Bezier
  import opened Outline
  import opened Wrappers

  // ---------------------------------------------------------------- the pen

  /** Where the subpath begins: the point of its first command, closes not counted. */
  function Start(group: seq<Segment>): Option<Point> {
    if group == [] then None
    else
      match group[0]
      case MoveTo(p) => Some(p)
      case LineTo(p) => Some(p)
      case QuadTo(_, _) => None
      case CubicTo(_, _, _) => None
      case Close => Start(group[1..])
  }

  /** Where the last command ends: at its end point, or back at the start after a close. */
  function Pen(group: seq<Segment>): Option<Point> {
    if group == [] then None
    else
      match group[|group| - 1]
      case MoveTo(p) => Some(p)
      case LineTo(p) => Some(p)
      case QuadTo(_, p) => Some(p)
      case CubicTo(_, _, p) => Some(p)
      case Close => Start(group[..|group| - 1])
  }

  /** One subpath: no move but the first command, and no curve without a point to start from. */
  ghost predicate IsSubpath(group: seq<Segment>) {
    !StartsNowhere(group) && forall k :: 0 < k < |group| ==> !group[k].MoveTo?
  }

  lemma SubpathBefore(group: seq<Segment>, s: Segment)
    requires IsSubpath(group + [s])
    ensures IsSubpath(group) && (s.MoveTo? ==> group == []) && (NeedsStart(s) ==> !OnlyClose(group))
  {
    StartsNowhereStep(group, s);
    assert (group + [s])[|group|] == s;
    forall k | 0 < k < |group| ensures !group[k].MoveTo? { assert (group + [s])[k] == group[k]; }
  }

  lemma {:induction false} StartMore(group: seq<Segment>, s: Segment)
    requires !OnlyClose(group) ==> Start(group).Some?
    ensures Start(group + [s]) == if Start(group).Some? then Start(group) else Start([s])
    ensures OnlyClose(group) ==> Start(group).None?
  {
    if group != [] {
      assert (group + [s])[1..] == group[1..] + [s];
      if group[0].Close? { StartMore(group[1..], s); }
    }
  }

  /** The points drawn so far begin at the start and end at the pen. */
  ghost predicate Spans(t: seq<Point>, start: Option<Point>, pen: Option<Point>) {
    (if t == [] then start.None? && pen.None?
     else start == Some(t[0]) && pen == Some(t[|t| - 1]))
  }

  /** One command more moves the pen to its end, and begins the subpath if nothing did before. */
  lemma DrawSpans(t: seq<Point>, start: Option<Point>, pen: Option<Point>, s: Segment)
    requires Spans(t, start, pen) && (s.MoveTo? ==> t == []) && (NeedsStart(s) ==> t != [])
    ensures Spans(Draw(t, s), if start.Some? then start else Start([s]), if s.Close? then start else Pen([s]))
  {
    hide Points, Curve.At, Curve.Flat;
    assert s.Close? ==> [s][1..] == [];
    match s
    case QuadTo(p1, p2) => EndsAtEnd(Quad(t[|t| - 1], p1, p2));
    case CubicTo(p1, p2, p3) => EndsAtEnd(Cubic(t[|t| - 1], p1, p2, p3));
    case _ =>
  }

  /** The drawn points begin at the start and end at the pen; nothing is drawn only while there is neither. */
  lemma {:induction false} PenIsLast(group: seq<Segment>)
    requires IsSubpath(group)
    ensures Spans(Trace(group), Start(group), Pen(group)) && (Trace(group) == [] <==> OnlyClose(group))
  {
    if group != [] {
      var init, s := group[..|group| - 1], group[|group| - 1];
      assert group == init + [s];
      SubpathBefore(init, s);
      PenIsLast(init);
      OnlyCloseStep(init, s);
      StartMore(init, s);
      DrawSpans(Trace(init), Start(init), Pen(init), s);
      DrawsSomething(Trace(init), s);
      PenMore(init, s);
      hide Draw, Start, Pen, IsSubpath, OnlyClose, NeedsStart;
    }
  }

  lemma PenMore(group: seq<Segment>, s: Segment)
    ensures Pen(group + [s]) == if s.Close? then Start(group) else Pen([s])
  {
    assert (group + [s])[..|group|] == group;
  }

  lemma DrawsSomething(t: seq<Point>, s: Segment)
    requires NeedsStart(s) ==> t != []
    ensures Draw(t, s) == [] <==> t == [] && s.Close?
  {
    hide Points, Curve.At, Curve.Flat;
  }

  lemma EndsAtEnd(c: Curve)
    ensures var ps := Points(c, 0); ps != [] && ps[|ps| - 1] == c.End()
  {
    hide Points, Curve.At, Curve.End;
    var ts := FlattenSamplesCurve(c);
    Ends(c);
  }

  // ---------------------------------------------------------------- what a command adds

  /** The points sample the curve in its own direction, at parameters that end with 1. */
  ghost predicate Sampled(c: Curve, ps: seq<Point>) { exists ts: seq<real> :: Samples(c, ps, ts) }

  /** What command s adds to a subpath that stands at pen and began at start. */
  ghost predicate Adds(s: Segment, start: Option<Point>, pen: Option<Point>, added: seq<Point>) {
    match s
    case MoveTo(p) => added == [p]
    case LineTo(p) => added == [p]
    case QuadTo(p1, p2) => pen.Some? && Sampled(Quad(pen.value, p1, p2), added)
    case CubicTo(p1, p2, p3) => pen.Some? && Sampled(Cubic(pen.value, p1, p2, p3), added)
    case Close => added == if start.Some? then [start.value] else []
  }

  /** Each command adds its own points behind those of the commands before it: a line its end, a curve samples
      of the curve from the pen through its control points, a close the start of the subpath. */
  lemma CommandAdds(group: seq<Segment>, s: Segment)
    requires IsSubpath(group + [s])
    ensures var before, after := Trace(group), Trace(group + [s]);
      before <= after && Adds(s, Start(group), Pen(group), after[|before|..])
  {
    SubpathBefore(group, s);
    PenIsLast(group);
    assert (group + [s])[..|group|] == group;
    hide IsSubpath, Start, Pen, OnlyClose, Adds, Draw;
    DrawAdds(Trace(group), Start(group), Pen(group), s);
  }

  lemma DrawAdds(t: seq<Point>, start: Option<Point>, pen: Option<Point>, s: Segment)
    requires Spans(t, start, pen) && (s.MoveTo? ==> t == []) && (NeedsStart(s) ==> t != [])
    ensures t <= Draw(t, s) && Adds(s, start, pen, Draw(t, s)[|t|..])
  {
    hide Points, Samples, Curve.At, Curve.Flat;
    match s
    case QuadTo(p1, p2) => CurveSampled(Quad(pen.value, p1, p2));
    case CubicTo(p1, p2, p3) => CurveSampled(Cubic(pen.value, p1, p2, p3));
    case _ =>
  }

  lemma CurveSampled(c: Curve)
    ensures Sampled(c, Points(c, 0))
  {
    hide Points, Samples, Curve.At, Curve.Flat;
    var ts := FlattenSamplesCurve(c);
  }

  // ---------------------------------------------------------------- which polylines are kept

  ghost function Lines(gs: seq<seq<Segment>>): nat {
    if gs == [] then 0 else Lines(gs[..|gs| - 1]) + if |Trace(gs[|gs| - 1])| >= 2 then 1 else 0
  }

  ghost predicate KeptAt(gs: seq<seq<Segment>>, kept: seq<seq<Point>>, g: nat)
    requires g < |gs|
  {
    var k := Lines(gs[..g]); k < |kept| && kept[k] == Trace(gs[g])
  }

  /** Exactly the groups that draw at least two points are kept, each in its place. */
  lemma {:induction false} KeptInOrder(gs: seq<seq<Segment>>)
    ensures |Kept(gs)| == Lines(gs)
    ensures forall g :: 0 <= g < |gs| && |Trace(gs[g])| >= 2 ==> KeptAt(gs, Kept(gs), g)
  {
    if gs != [] {
      hide Trace;
      var init := gs[..|gs| - 1];
      KeptInOrder(init);
      forall g | 0 <= g < |gs| && |Trace(gs[g])| >= 2 ensures KeptAt(gs, Kept(gs), g) {
        if g < |init| {
          assert KeptAt(init, Kept(init), g) && gs[..g] == init[..g];
        }
      }
    }
  }

  ghost function AllGroups(paths: seq<seq<Segment>>): seq<seq<Segment>> {
    if paths == [] then [] else AllGroups(paths[..|paths| - 1]) + Groups(paths[|paths| - 1])
  }

  lemma {:induction false} KeptOfBoth(gs: seq<seq<Segment>>, hs: seq<seq<Segment>>)
    ensures Kept(gs + hs) == Kept(gs) + Kept(hs)
  {
    hide Trace;
    if hs == [] {
      assert gs + hs == gs;
    } else {
      var init := hs[..|hs| - 1];
      KeptOfBoth(gs, init);
      assert (gs + hs)[..|gs + hs| - 1] == gs + init;
    }
  }

  /** The polylines of a tree are those of the subpaths of its paths, path after path. */
  lemma {:induction false} TreeKeeps(paths: seq<seq<Segment>>)
    ensures Subpaths(paths) == Kept(AllGroups(paths))
  {
    if paths != [] {
      TreeKeeps(paths[..|paths| - 1]);
      KeptOfBoth(AllGroups(paths[..|paths| - 1]), Groups(paths[|paths| - 1]));
    }
  }
}
