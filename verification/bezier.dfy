/** Adaptive flattening of Bezier curves, over exact reals.

    A distance d and a bound t are compared through their squares, so no square root is needed:
    d <= t becomes d*d <= t*t, and "perpendicular distance" is |cross| / |chord|. */
module Bezier {

  datatype Point = Point(x: real, y: real)

  const FLATTEN_TOLERANCE := 0.1
  /** 2^-52, the machine epsilon below which a squared chord counts as degenerate. */
  const EPSILON := 1.0 / 4503599627370496.0
  const MAX_SUBDIV_DEPTH: nat := 16

  function Mid(a: Point, b: Point): Point {
    Point((a.x + b.x) * 0.5, (a.y + b.y) * 0.5)
  }

  function NormSq(a: Point, b: Point): real {
    (b.x - a.x) * (b.x - a.x) + (b.y - a.y) * (b.y - a.y)
  }

  function Cross(p: Point, a: Point, b: Point): real {
    (p.x - a.x) * (b.y - a.y) - (p.y - a.y) * (b.x - a.x)
  }

  predicate Degenerate(a: Point, b: Point) {
    NormSq(a, b) <= EPSILON
  }

  predicate SquareWithin(h: real, tol: real, n: real) { h * h <= tol * tol * n }

  /** p is within tol of the line through a and b, or of a itself when the chord is degenerate. */
  predicate Within(p: Point, a: Point, b: Point, tol: real) {
    if Degenerate(a, b) then NormSq(a, p) <= tol * tol
    else SquareWithin(Cross(p, a, b), tol, NormSq(a, b))
  }

  // ---------------------------------------------------------------- one coordinate at a time

  /** The cubic Bernstein form of one coordinate. */
  function Bern3(a: real, b: real, c: real, d: real, t: real): real {
    (1.0 - t) * (1.0 - t) * (1.0 - t) * a + 3.0 * t * (1.0 - t) * (1.0 - t) * b
    + 3.0 * t * t * (1.0 - t) * c + t * t * t * d
  }

  function Bern2(a: real, b: real, c: real, t: real): real {
    (1.0 - t) * (1.0 - t) * a + 2.0 * t * (1.0 - t) * b + t * t * c
  }

  /** Bernstein to monomial form: the shape in which a change of parameter is a linear matter. */
  lemma Monomial3(a: real, b: real, c: real, d: real, t: real)
    ensures Bern3(a, b, c, d, t)
      == a + 3.0 * (b - a) * t + 3.0 * (a - 2.0 * b + c) * (t * t) + (d - 3.0 * c + 3.0 * b - a) * (t * t * t)
  {
    var u := 1.0 - t;
    assert u * u == 1.0 - 2.0 * t + t * t;
    assert u * u * u == 1.0 - 3.0 * t + 3.0 * (t * t) - t * t * t;
    assert t * u * u == t - 2.0 * (t * t) + t * t * t;
    assert t * t * u == t * t - t * t * t;
    var t2, t3 := t * t, t * t * t;
    calc {
      Bern3(a, b, c, d, t);
      (u * u * u) * a + 3.0 * (t * u * u) * b + 3.0 * (t * t * u) * c + t3 * d;
      (1.0 - 3.0 * t + 3.0 * t2 - t3) * a + 3.0 * (t - 2.0 * t2 + t3) * b + 3.0 * (t2 - t3) * c + t3 * d;
      a + 3.0 * (b - a) * t + 3.0 * (a - 2.0 * b + c) * t2 + (d - 3.0 * c + 3.0 * b - a) * t3;
    }
  }

  lemma Monomial2(a: real, b: real, c: real, t: real)
    ensures Bern2(a, b, c, t) == a + 2.0 * (b - a) * t + (a - 2.0 * b + c) * (t * t)
  {
    var u := 1.0 - t;
    assert u * u == 1.0 - 2.0 * t + t * t;
    assert t * u == t - t * t;
    assert Bern2(a, b, c, t) == (u * u) * a + 2.0 * (t * u) * b + (t * t) * c;
  }

  lemma Reverse3(a: real, b: real, c: real, d: real, t: real)
    ensures Bern3(a, b, c, d, t) == Bern3(d, c, b, a, 1.0 - t)
  {
    var u := 1.0 - t;
    assert 3.0 * t * u * u == 3.0 * u * u * t;
    assert 3.0 * t * t * u == 3.0 * u * t * t;
  }

  /** The de Casteljau left half is the curve on [0, 1/2]. */
  lemma LeftHalf3(a: real, b: real, c: real, d: real, s: real)
    ensures var ab, bc, cd := (a + b) * 0.5, (b + c) * 0.5, (c + d) * 0.5;
            var abc, bcd := (ab + bc) * 0.5, (bc + cd) * 0.5;
            Bern3(a, ab, abc, (abc + bcd) * 0.5, s) == Bern3(a, b, c, d, s * 0.5)
  {
    var ab, bc, cd := (a + b) * 0.5, (b + c) * 0.5, (c + d) * 0.5;
    var abc, bcd := (ab + bc) * 0.5, (bc + cd) * 0.5;
    var m, h := (abc + bcd) * 0.5, s * 0.5;
    var s2, s3 := s * s, s * s * s;
    Monomial3(a, ab, abc, m, s);
    Monomial3(a, b, c, d, h);
    assert h * h == s2 * 0.25;
    assert h * h * h == s3 * 0.125;
    assert a - 2.0 * ab + abc == (a - 2.0 * b + c) * 0.25;
    assert m - 3.0 * abc + 3.0 * ab - a == (d - 3.0 * c + 3.0 * b - a) * 0.125;
    assert ((a - 2.0 * b + c) * 0.25) * s2 == (a - 2.0 * b + c) * (s2 * 0.25);
    assert ((d - 3.0 * c + 3.0 * b - a) * 0.125) * s3 == (d - 3.0 * c + 3.0 * b - a) * (s3 * 0.125);
    assert ((b - a) * 0.5) * s == (b - a) * h;
  }

  /** The right half is the curve on [1/2, 1]: the left half of the reversed curve. */
  lemma RightHalf3(a: real, b: real, c: real, d: real, s: real)
    ensures var ab, bc, cd := (a + b) * 0.5, (b + c) * 0.5, (c + d) * 0.5;
            var abc, bcd := (ab + bc) * 0.5, (bc + cd) * 0.5;
            Bern3((abc + bcd) * 0.5, bcd, cd, d, s) == Bern3(a, b, c, d, 0.5 + s * 0.5)
  {
    var ab, bc, cd := (a + b) * 0.5, (b + c) * 0.5, (c + d) * 0.5;
    var abc, bcd := (ab + bc) * 0.5, (bc + cd) * 0.5;
    Reverse3((abc + bcd) * 0.5, bcd, cd, d, s);
    LeftHalf3(d, c, b, a, 1.0 - s);
    Reverse3(a, b, c, d, 0.5 + s * 0.5);
    assert 1.0 - (0.5 + s * 0.5) == (1.0 - s) * 0.5;
  }

  lemma LeftHalf2(a: real, b: real, c: real, s: real)
    ensures var ab, bc := (a + b) * 0.5, (b + c) * 0.5;
            Bern2(a, ab, (ab + bc) * 0.5, s) == Bern2(a, b, c, s * 0.5)
  {
    var ab, bc := (a + b) * 0.5, (b + c) * 0.5;
    var m, h, s2 := (ab + bc) * 0.5, s * 0.5, s * s;
    Monomial2(a, ab, m, s);
    Monomial2(a, b, c, h);
    assert h * h == s2 * 0.25;
    assert a - 2.0 * ab + m == (a - 2.0 * b + c) * 0.25;
    assert ((a - 2.0 * b + c) * 0.25) * s2 == (a - 2.0 * b + c) * (s2 * 0.25);
    assert ((b - a) * 0.5) * s == (b - a) * h;
  }

  lemma RightHalf2(a: real, b: real, c: real, s: real)
    ensures var ab, bc := (a + b) * 0.5, (b + c) * 0.5;
            Bern2((ab + bc) * 0.5, bc, c, s) == Bern2(a, b, c, 0.5 + s * 0.5)
  {
    var ab, bc, t := (a + b) * 0.5, (b + c) * 0.5, 0.5 + s * 0.5;
    Reverse2((ab + bc) * 0.5, bc, c, s);
    LeftHalf2(c, b, a, 1.0 - s);
    Reverse2(a, b, c, t);
    assert 1.0 - t == (1.0 - s) * 0.5;
  }

  lemma Reverse2(a: real, b: real, c: real, t: real)
    ensures Bern2(a, b, c, t) == Bern2(c, b, a, 1.0 - t)
  {
    var u := 1.0 - t;
    assert 2.0 * t * u == 2.0 * u * t;
  }

  // ---------------------------------------------------------------- curves

  /** The Bezier curve of any degree with these control points: the curves of the first and of the
      last |ps| - 1 points, blended. */
  function Eval(ps: seq<Point>, t: real): Point
    requires ps != []
  {
    if |ps| == 1 then ps[0]
    else
      var a, b := Eval(ps[..|ps| - 1], t), Eval(ps[1..], t);
      Lerp(a, b, t)
  }

  function Toward(a: real, b: real, t: real): real { a + t * (b - a) }

  function Lerp(a: Point, b: Point, t: real): Point { Point(Toward(a.x, b.x, t), Toward(a.y, b.y, t)) }

  lemma Eval2(a: Point, b: Point, t: real)
    ensures Eval([a, b], t) == Lerp(a, b, t)
  {
    assert [a, b][..1] == [a] && [a, b][1..] == [b];
  }

  lemma Eval3(a: Point, b: Point, c: Point, t: real)
    ensures Eval([a, b, c], t) == Lerp(Lerp(a, b, t), Lerp(b, c, t), t)
  {
    hide Lerp;
    Eval2(a, b, t); Eval2(b, c, t);
    assert [a, b, c][..2] == [a, b] && [a, b, c][1..] == [b, c];
    Blend([a, b, c], t);
  }

  lemma Eval4(a: Point, b: Point, c: Point, d: Point, t: real)
    ensures Eval([a, b, c, d], t)
      == Lerp(Lerp(Lerp(a, b, t), Lerp(b, c, t), t), Lerp(Lerp(b, c, t), Lerp(c, d, t), t), t)
  {
    hide Lerp;
    Eval3(a, b, c, t); Eval3(b, c, d, t);
    assert [a, b, c, d][..3] == [a, b, c] && [a, b, c, d][1..] == [b, c, d];
    Blend([a, b, c, d], t);
  }

  lemma Blend(ps: seq<Point>, t: real)
    requires |ps| > 1
    ensures Eval(ps, t) == Lerp(Eval(ps[..|ps| - 1], t), Eval(ps[1..], t), t)
  {}

  lemma LerpBern3(a: real, b: real, c: real, d: real, t: real)
    ensures var ab, bc, cd := Toward(a, b, t), Toward(b, c, t), Toward(c, d, t);
            Toward(Toward(ab, bc, t), Toward(bc, cd, t), t) == Bern3(a, b, c, d, t)
  {
    hide Bern3;
    Monomial3(a, b, c, d, t);
    LerpTwice(a, b, c, t);
    LerpTwice(b, c, d, t);
    LerpOnce(a, b, c, d, t);
  }

  lemma LerpTwice(a: real, b: real, c: real, t: real)
    ensures Toward(Toward(a, b, t), Toward(b, c, t), t) == a + 2.0 * (b - a) * t + (a - 2.0 * b + c) * (t * t)
  {}

  lemma LerpOnce(a: real, b: real, c: real, d: real, t: real)
    ensures Toward(a + 2.0 * (b - a) * t + (a - 2.0 * b + c) * (t * t),
      b + 2.0 * (c - b) * t + (b - 2.0 * c + d) * (t * t), t)
         == a + 3.0 * (b - a) * t + 3.0 * (a - 2.0 * b + c) * (t * t) + (d - 3.0 * c + 3.0 * b - a) * (t * t * t)
  {}

  lemma LerpBern2(a: real, b: real, c: real, t: real)
    ensures Toward(Toward(a, b, t), Toward(b, c, t), t) == Bern2(a, b, c, t)
  {
    Monomial2(a, b, c, t);
  }

  /** The Bernstein form of a cubic and of a quadratic. */
  lemma AtBernstein(c: Curve, t: real)
    ensures c.Cubic? ==>
      c.At(t) == Point(Bern3(c.p0.x, c.p1.x, c.p2.x, c.p3.x, t), Bern3(c.p0.y, c.p1.y, c.p2.y, c.p3.y, t))
    ensures c.Quad? ==> c.At(t) == Point(Bern2(c.q0.x, c.q1.x, c.q2.x, t), Bern2(c.q0.y, c.q1.y, c.q2.y, t))
  {
    hide Bern3, Bern2, Lerp, Eval;
    match c
    case Cubic(p, q, r, e) => Eval4(p, q, r, e, t); NestedLerp(p, q, r, e, t);
    case Quad(p, q, r) => Eval3(p, q, r, t); NestedLerp2(p, q, r, t);
  }

  lemma NestedLerp(p: Point, q: Point, r: Point, e: Point, t: real)
    ensures Lerp(Lerp(Lerp(p, q, t), Lerp(q, r, t), t), Lerp(Lerp(q, r, t), Lerp(r, e, t), t), t)
            == Point(Bern3(p.x, q.x, r.x, e.x, t), Bern3(p.y, q.y, r.y, e.y, t))
  {
    hide Bern3, Toward;
    LerpBern3(p.x, q.x, r.x, e.x, t); LerpBern3(p.y, q.y, r.y, e.y, t);
  }

  lemma NestedLerp2(p: Point, q: Point, r: Point, t: real)
    ensures Lerp(Lerp(p, q, t), Lerp(q, r, t), t) == Point(Bern2(p.x, q.x, r.x, t), Bern2(p.y, q.y, r.y, t))
  {
    hide Bern2, Toward;
    LerpBern2(p.x, q.x, r.x, t); LerpBern2(p.y, q.y, r.y, t);
  }

  datatype Curve = Cubic(p0: Point, p1: Point, p2: Point, p3: Point) | Quad(q0: Point, q1: Point, q2: Point) {
    function Start(): Point { if Cubic? then p0 else q0 }
    function End(): Point { if Cubic? then p3 else q2 }

    function Controls(): (ps: seq<Point>)
      ensures ps != []
    {
      if Cubic? then [p0, p1, p2, p3] else [q0, q1, q2]
    }

    /** The point of the curve at parameter t. */
    function At(t: real): Point { Eval(Controls(), t) }

    predicate Flat() {
      match this
      case Cubic(a, b, c, d) => Within(b, a, d, FLATTEN_TOLERANCE) && Within(c, a, d, FLATTEN_TOLERANCE)
      case Quad(a, b, c) => Within(b, a, c, FLATTEN_TOLERANCE)
    }

    function Left(): Curve {
      match this
      case Cubic(a, b, c, d) =>
        var ab, bc, cd := Mid(a, b), Mid(b, c), Mid(c, d);
        var abc, bcd := Mid(ab, bc), Mid(bc, cd);
        Cubic(a, ab, abc, Mid(abc, bcd))
      case Quad(a, b, c) => Quad(a, Mid(a, b), Mid(Mid(a, b), Mid(b, c)))
    }

    function Right(): Curve {
      match this
      case Cubic(a, b, c, d) =>
        var ab, bc, cd := Mid(a, b), Mid(b, c), Mid(c, d);
        var abc, bcd := Mid(ab, bc), Mid(bc, cd);
        Cubic(Mid(abc, bcd), bcd, cd, d)
      case Quad(a, b, c) => Quad(Mid(Mid(a, b), Mid(b, c)), Mid(b, c), c)
    }

    /** How much of FLATTEN_TOLERANCE a flat leaf may use up between its control points and its arc. */
    function Slack(): real { if Cubic? then 0.75 else 0.5 }

    /** p is as close to the line of the chord a-b as a flat leaf of this kind guarantees. */
    predicate Near(p: Point, a: Point, b: Point) {
      Within(p, a, b, if Degenerate(a, b) then FLATTEN_TOLERANCE else Slack() * FLATTEN_TOLERANCE)
    }
  }

  lemma Halves(c: Curve, s: real)
    ensures c.Left().At(s) == c.At(s * 0.5)
    ensures c.Right().At(s) == c.At(0.5 + s * 0.5)
  {
    hide Curve.At, Bern3, Bern2;
    AtBernstein(c, s * 0.5); AtBernstein(c, 0.5 + s * 0.5); AtBernstein(c.Left(), s); AtBernstein(c.Right(), s);
    match c
    case Cubic(p, q, r, e) =>
      LeftHalf3(p.x, q.x, r.x, e.x, s); LeftHalf3(p.y, q.y, r.y, e.y, s);
      RightHalf3(p.x, q.x, r.x, e.x, s); RightHalf3(p.y, q.y, r.y, e.y, s);
    case Quad(p, q, r) =>
      LeftHalf2(p.x, q.x, r.x, s); LeftHalf2(p.y, q.y, r.y, s);
      RightHalf2(p.x, q.x, r.x, s); RightHalf2(p.y, q.y, r.y, s);
  }

  // ---------------------------------------------------------------- the recursion

  /** The points the recursion appends for one curve. */
  function Points(c: Curve, depth: nat): seq<Point>
    decreases MAX_SUBDIV_DEPTH - depth
  {
    if c.Flat() || depth >= MAX_SUBDIV_DEPTH then [c.End()]
    else Points(c.Left(), depth + 1) + Points(c.Right(), depth + 1)
  }

  class Polyline {
    var points: seq<Point>

    constructor ()
      ensures points == []
    { points := []; }
  }

  lemma CubicStep(p0: Point, p1: Point, p2: Point, p3: Point, depth: nat)
    ensures Points(Cubic(p0, p1, p2, p3), depth) ==
      if (Within(p1, p0, p3, FLATTEN_TOLERANCE) && Within(p2, p0, p3, FLATTEN_TOLERANCE)) || depth >= MAX_SUBDIV_DEPTH
        then [p3]
      else
        var p01, p12, p23 := Mid(p0, p1), Mid(p1, p2), Mid(p2, p3);
        var p012, p123 := Mid(p01, p12), Mid(p12, p23);
        var p0123 := Mid(p012, p123);
        Points(Cubic(p0, p01, p012, p0123), depth + 1) + Points(Cubic(p0123, p123, p23, p3), depth + 1)
  {
    hide Within, Mid;
  }

  lemma QuadStep(p0: Point, p1: Point, p2: Point, depth: nat)
    ensures Points(Quad(p0, p1, p2), depth) ==
      if Within(p1, p0, p2, FLATTEN_TOLERANCE) || depth >= MAX_SUBDIV_DEPTH then [p2]
      else
        var p012 := Mid(Mid(p0, p1), Mid(p1, p2));
        Points(Quad(p0, Mid(p0, p1), p012), depth + 1) + Points(Quad(p012, Mid(p1, p2), p2), depth + 1)
  {
    hide Within, Mid;
  }

  method FlattenCubic(p0: Point, p1: Point, p2: Point, p3: Point, depth: nat, out: Polyline)
    modifies out
    ensures out.points == old(out.points) + Points(Cubic(p0, p1, p2, p3), depth)
    decreases MAX_SUBDIV_DEPTH - depth
  {
    hide Within, Mid, Points;
    CubicStep(p0, p1, p2, p3, depth);
    var flat := Within(p1, p0, p3, FLATTEN_TOLERANCE) && Within(p2, p0, p3, FLATTEN_TOLERANCE);
    if flat || depth >= MAX_SUBDIV_DEPTH {
      out.points := out.points + [p3];
      return;
    }
    var p01, p12, p23 := Mid(p0, p1), Mid(p1, p2), Mid(p2, p3);
    var p012, p123 := Mid(p01, p12), Mid(p12, p23);
    var p0123 := Mid(p012, p123);
    FlattenCubic(p0, p01, p012, p0123, depth + 1, out);
    FlattenCubic(p0123, p123, p23, p3, depth + 1, out);
  }

  method FlattenQuad(p0: Point, p1: Point, p2: Point, depth: nat, out: Polyline)
    modifies out
    ensures out.points == old(out.points) + Points(Quad(p0, p1, p2), depth)
    decreases MAX_SUBDIV_DEPTH - depth
  {
    hide Within, Mid, Points;
    QuadStep(p0, p1, p2, depth);
    var flat := Within(p1, p0, p2, FLATTEN_TOLERANCE);
    if flat || depth >= MAX_SUBDIV_DEPTH {
      out.points := out.points + [p2];
      return;
    }
    var p01, p12 := Mid(p0, p1), Mid(p1, p2);
    var p012 := Mid(p01, p12);
    FlattenQuad(p0, p01, p012, depth + 1, out);
    FlattenQuad(p012, p12, p2, depth + 1, out);
  }

  // ---------------------------------------------------------------- leaves

  /** The parameter of the root curve that parameter s of a piece stands for, when the piece was
      reached by taking these halves (true is the left one) from the outside in. */
  ghost function Param(path: seq<bool>, s: real): real {
    if path == [] then s else (if path[0] then 0.0 else 0.5) + Param(path[1..], s) * 0.5
  }

  /** A piece the recursion did not split. */
  datatype Leaf = Leaf(path: seq<bool>, curve: Curve) {
    ghost function Lo(): real { Param(path, 0.0) }
    ghost function Hi(): real { Param(path, 1.0) }
  }

  ghost function Deeper(ls: seq<Leaf>, left: bool): (r: seq<Leaf>)
    ensures |r| == |ls|
  {
    seq(|ls|, i requires 0 <= i < |ls| => ls[i].(path := [left] + ls[i].path))
  }

  ghost function Leaves(c: Curve, depth: nat): (ls: seq<Leaf>)
    ensures |ls| >= 1
    decreases MAX_SUBDIV_DEPTH - depth
  {
    if c.Flat() || depth >= MAX_SUBDIV_DEPTH then [Leaf([], c)]
    else Deeper(Leaves(c.Left(), depth + 1), true) + Deeper(Leaves(c.Right(), depth + 1), false)
  }

  lemma {:induction false} ParamIncreases(path: seq<bool>, s: real, t: real)
    requires s < t
    ensures Param(path, s) < Param(path, t)
  {
    if path != [] { ParamIncreases(path[1..], s, t); }
  }

  /** Every parameter between the ends of a piece is reached from inside the piece. */
  lemma {:induction false} ParamOnto(path: seq<bool>, t: real) returns (s: real)
    requires Param(path, 0.0) <= t <= Param(path, 1.0)
    ensures 0.0 <= s <= 1.0 && Param(path, s) == t
  {
    if path == [] {
      s := t;
    } else {
      var base := if path[0] then 0.0 else 0.5;
      s := ParamOnto(path[1..], (t - base) * 2.0);
    }
  }

  /** The leaves cut [0, 1] into consecutive intervals of positive length. */
  ghost predicate Tiles(ls: seq<Leaf>) {
    && |ls| >= 1 && ls[0].Lo() == 0.0 && ls[|ls| - 1].Hi() == 1.0
    && (forall i :: 0 <= i < |ls| ==> ls[i].Lo() < ls[i].Hi())
    && (forall i, j :: 0 <= i < |ls| && j == i + 1 < |ls| ==> ls[i].Hi() == ls[j].Lo())
  }

  lemma Step(l: Leaf, left: bool, s: real)
    ensures Param([left] + l.path, s) == (if left then 0.0 else 0.5) + Param(l.path, s) * 0.5
  {
    assert ([left] + l.path)[1..] == l.path;
  }

  lemma {:induction false} LeavesTile(c: Curve, depth: nat)
    ensures Tiles(Leaves(c, depth))
    decreases MAX_SUBDIV_DEPTH - depth
  {
    hide Curve.Flat, Curve.Left, Curve.Right;
    if !(c.Flat() || depth >= MAX_SUBDIV_DEPTH) {
      LeavesTile(c.Left(), depth + 1);
      LeavesTile(c.Right(), depth + 1);
      TilesJoin(Leaves(c.Left(), depth + 1), Leaves(c.Right(), depth + 1));
    }
  }

  lemma DeeperEnds(ls: seq<Leaf>, left: bool, i: nat)
    requires i < |ls|
    ensures Deeper(ls, left)[i].Lo() == (if left then 0.0 else 0.5) + ls[i].Lo() * 0.5
    ensures Deeper(ls, left)[i].Hi() == (if left then 0.0 else 0.5) + ls[i].Hi() * 0.5
  {
    Step(ls[i], left, 0.0);
    Step(ls[i], left, 1.0);
  }

  lemma TilesJoin(a: seq<Leaf>, b: seq<Leaf>)
    requires Tiles(a) && Tiles(b)
    ensures Tiles(Deeper(a, true) + Deeper(b, false))
  {
    var l, r := Deeper(a, true), Deeper(b, false);
    var ls := l + r;
    DeeperEnds(a, true, 0);
    DeeperEnds(a, true, |a| - 1);
    DeeperEnds(b, false, 0);
    DeeperEnds(b, false, |b| - 1);
    assert ls[0] == l[0] && ls[|ls| - 1] == r[|b| - 1];
    hide Deeper, Leaf.Lo, Leaf.Hi;
    forall i, j | 0 <= i < |ls| && j == i + 1 < |ls| ensures ls[i].Hi() == ls[j].Lo() {
      if j < |a| {
        DeeperEnds(a, true, i);
        DeeperEnds(a, true, j);
        assert a[i].Hi() == a[j].Lo();
      } else if i >= |a| {
        DeeperEnds(b, false, i - |a|);
        DeeperEnds(b, false, j - |a|);
        assert b[i - |a|].Hi() == b[j - |a|].Lo();
      } else {
        assert ls[i] == l[|a| - 1] && ls[j] == r[0];
      }
    }
  }

  /** A leaf's curve runs along the root curve, over the leaf's own interval. */
  lemma {:induction false} LeafIsArc(c: Curve, depth: nat, i: nat, s: real)
    requires i < |Leaves(c, depth)|
    ensures var l := Leaves(c, depth)[i];
            (l.curve.Cubic? <==> c.Cubic?) && l.curve.At(s) == c.At(Param(l.path, s))
    decreases MAX_SUBDIV_DEPTH - depth
  {
    hide Curve.At, Curve.Flat, Curve.Left, Curve.Right, Param;
    if !(c.Flat() || depth >= MAX_SUBDIV_DEPTH) {
      var a, b := Leaves(c.Left(), depth + 1), Leaves(c.Right(), depth + 1);
      if i < |a| {
        LeafIsArc(c.Left(), depth + 1, i, s);
        ArcOfHalf(c, a[i], true, s);
      } else {
        LeafIsArc(c.Right(), depth + 1, i - |a|, s);
        ArcOfHalf(c, b[i - |a|], false, s);
      }
    } else {
      WholePath(s);
    }
  }

  lemma WholePath(s: real)
    ensures Param([], s) == s
  {
  }

  lemma ArcOfHalf(c: Curve, l: Leaf, left: bool, s: real)
    requires var half := if left then c.Left() else c.Right();
      (l.curve.Cubic? <==> half.Cubic?) && l.curve.At(s) == half.At(Param(l.path, s))
    ensures (l.curve.Cubic? <==> c.Cubic?) && l.curve.At(s) == c.At(Param([left] + l.path, s))
  {
    hide Curve.At;
    Step(l, left, s);
    Halves(c, Param(l.path, s));
  }

  lemma {:induction false} PointsAreLeafEnds(c: Curve, depth: nat)
    ensures |Points(c, depth)| == |Leaves(c, depth)|
    ensures forall i :: 0 <= i < |Leaves(c, depth)| ==> Points(c, depth)[i] == Leaves(c, depth)[i].curve.End()
    decreases MAX_SUBDIV_DEPTH - depth
  {
    hide Curve.Flat, Curve.Left, Curve.Right;
    if !(c.Flat() || depth >= MAX_SUBDIV_DEPTH) {
      PointsAreLeafEnds(c.Left(), depth + 1);
      PointsAreLeafEnds(c.Right(), depth + 1);
    }
  }

  lemma Ends(c: Curve)
    ensures c.At(0.0) == c.Start() && c.At(1.0) == c.End()
  {
    AtBernstein(c, 0.0); AtBernstein(c, 1.0);
  }

  function Pow2(n: nat): nat { if n == 0 then 1 else 2 * Pow2(n - 1) }

  /** Every leaf is flat unless the depth cap stopped it. */
  lemma {:induction false} LeafStop(c: Curve, depth: nat, i: nat)
    requires i < |Leaves(c, depth)|
    ensures var l := Leaves(c, depth)[i]; l.curve.Flat() || depth + |l.path| >= MAX_SUBDIV_DEPTH
    decreases MAX_SUBDIV_DEPTH - depth
  {
    hide Curve.Flat, Curve.Left, Curve.Right;
    if !(c.Flat() || depth >= MAX_SUBDIV_DEPTH) {
      var a := Leaves(c.Left(), depth + 1);
      if i < |a| { LeafStop(c.Left(), depth + 1, i); } else { LeafStop(c.Right(), depth + 1, i - |a|); }
    }
  }

  lemma {:induction false} PointCount(c: Curve, depth: nat)
    requires depth <= MAX_SUBDIV_DEPTH
    ensures 1 <= |Points(c, depth)| <= Pow2(MAX_SUBDIV_DEPTH - depth)
    decreases MAX_SUBDIV_DEPTH - depth
  {
    hide Curve.Flat, Curve.Left, Curve.Right;
    if !(c.Flat() || depth >= MAX_SUBDIV_DEPTH) {
      PointCount(c.Left(), depth + 1);
      PointCount(c.Right(), depth + 1);
    } else {
      Pow2Positive(MAX_SUBDIV_DEPTH - depth);
    }
  }

  lemma {:induction false} Pow2Positive(n: nat)
    ensures Pow2(n) >= 1
  { if n > 0 { Pow2Positive(n - 1); } }

  // ---------------------------------------------------------------- how far an arc strays

  lemma Scale(w: real, a: real, b: real)
    requires w >= 0.0 && a <= b
    ensures w * a <= w * b
  {}

  /** A weighted sum with weights adding up to at most 1 stays in the disc its vectors lie in: project
      the sum onto itself, n = |q|^2 = w1 (v1.q) + w2 (v2.q) + w3 (v3.q) <= (k + n) / 2. */
  lemma DiscBound(w1: real, w2: real, w3: real, x1: real, y1: real, x2: real, y2: real, x3: real, y3: real, x: real,
                  y: real, k: real)
    requires w1 >= 0.0 && w2 >= 0.0 && w3 >= 0.0 && w1 + w2 + w3 <= 1.0
    requires x1 * x1 + y1 * y1 <= k && x2 * x2 + y2 * y2 <= k && x3 * x3 + y3 * y3 <= k
    requires x == w1 * x1 + w2 * x2 + w3 * x3 && y == w1 * y1 + w2 * y2 + w3 * y3
    ensures x * x + y * y <= k
  {
    var n := x * x + y * y;
    Inner(x1, y1, x, y, k, n); Inner(x2, y2, x, y, k, n); Inner(x3, y3, x, y, k, n);
    OntoItself(w1, w2, w3, x1, y1, x2, y2, x3, y3, x, y);
    WeightedAverage(w1, w2, w3, x1 * x + y1 * y, x2 * x + y2 * y, x3 * x + y3 * y, (k + n) * 0.5);
  }

  lemma OntoItself(w1: real, w2: real, w3: real, x1: real, y1: real, x2: real, y2: real, x3: real, y3: real, x: real,
                   y: real)
    requires x == w1 * x1 + w2 * x2 + w3 * x3 && y == w1 * y1 + w2 * y2 + w3 * y3
    ensures x * x + y * y == w1 * (x1 * x + y1 * y) + w2 * (x2 * x + y2 * y) + w3 * (x3 * x + y3 * y)
  {
    Project(w1, w2, w3, x1, x2, x3, x, x); Project(w1, w2, w3, y1, y2, y3, y, y);
    Distribute(w1, x1 * x, y1 * y); Distribute(w2, x2 * x, y2 * y); Distribute(w3, x3 * x, y3 * y);
  }

  lemma WeightedAverage(w1: real, w2: real, w3: real, d1: real, d2: real, d3: real, m: real)
    requires w1 >= 0.0 && w2 >= 0.0 && w3 >= 0.0 && w1 + w2 + w3 <= 1.0 && m >= 0.0
    requires d1 <= m && d2 <= m && d3 <= m
    ensures w1 * d1 + w2 * d2 + w3 * d3 <= m
  {
    assert w1 * d1 <= w1 * m by { Scale(w1, d1, m); }
    assert w2 * d2 <= w2 * m by { Scale(w2, d2, m); }
    assert w3 * d3 <= w3 * m by { Scale(w3, d3, m); }
    assert w1 * m + w2 * m + w3 * m <= m by {
      Scale(m, w1 + w2 + w3, 1.0);
      assert w1 * m + w2 * m + w3 * m == m * (w1 + w2 + w3);
    }
    Sum3(w1 * d1, w2 * d2, w3 * d3, w1 * m, w2 * m, w3 * m, m);
  }

  lemma Sum3(a1: real, a2: real, a3: real, b1: real, b2: real, b3: real, m: real)
    requires a1 <= b1 && a2 <= b2 && a3 <= b3 && b1 + b2 + b3 <= m
    ensures a1 + a2 + a3 <= m
  {}

  lemma Project(w1: real, w2: real, w3: real, x1: real, x2: real, x3: real, x: real, z: real)
    requires x == w1 * x1 + w2 * x2 + w3 * x3
    ensures x * z == w1 * (x1 * z) + w2 * (x2 * z) + w3 * (x3 * z)
  {}

  /** 2 u.v <= |u|^2 + |v|^2. */
  lemma Inner(x1: real, y1: real, x2: real, y2: real, k: real, n: real)
    requires x1 * x1 + y1 * y1 <= k && x2 * x2 + y2 * y2 <= n
    ensures x1 * x2 + y1 * y2 <= (k + n) * 0.5
  {
    ProductBound(x1, x2); ProductBound(y1, y2);
  }

  lemma ProductBound(x: real, z: real)
    ensures x * z <= (x * x + z * z) * 0.5
  {
    assert (x - z) * (x - z) == x * x - 2.0 * (x * z) + z * z;
  }

  lemma Distribute(w: real, a: real, b: real)
    ensures w * (a + b) == w * a + w * b
  {}

  /** A curve coordinate as a weighted sum of offsets from its start. */
  lemma Offset3(a: real, b: real, c: real, d: real, t: real)
    ensures Bern3(a, b, c, d, t) - a
      == (3.0 * t * (1.0 - t) * (1.0 - t)) * (b - a) + (3.0 * t * t * (1.0 - t)) * (c - a) + (t * t * t) * (d - a)
  {
    Monomial3(1.0, 1.0, 1.0, 1.0, t);
    Recentre((1.0 - t) * (1.0 - t) * (1.0 - t), 3.0 * t * (1.0 - t) * (1.0 - t), 3.0 * t * t * (1.0 - t), t * t * t, a,
      b, c, d);
  }

  lemma Offset2(a: real, b: real, c: real, t: real)
    ensures Bern2(a, b, c, t) - a == (2.0 * t * (1.0 - t)) * (b - a) + (t * t) * (c - a)
  {
    Monomial2(1.0, 1.0, 1.0, t);
    Recentre((1.0 - t) * (1.0 - t), 2.0 * t * (1.0 - t), t * t, 0.0, a, b, c, a);
  }

  lemma Recentre(w0: real, w1: real, w2: real, w3: real, a: real, b: real, c: real, d: real)
    requires w0 + w1 + w2 + w3 == 1.0
    ensures w0 * a + w1 * b + w2 * c + w3 * d - a == w1 * (b - a) + w2 * (c - a) + w3 * (d - a)
  {
    assert w0 * a == a - w1 * a - w2 * a - w3 * a;
  }

  /** The inner Bernstein weights together never exceed 3/4 (cubic) or 1/2 (quadratic). */
  lemma InnerWeight(t: real)
    requires 0.0 <= t <= 1.0
    ensures var u := 1.0 - t;
            && 3.0 * t * u * u >= 0.0 && 3.0 * t * t * u >= 0.0 && 2.0 * t * u >= 0.0
            && 3.0 * t * u * u + 3.0 * t * t * u <= 0.75 && 2.0 * t * u <= 0.5
            && t * t >= 0.0 && t * t * t >= 0.0
            && 3.0 * t * u * u + 3.0 * t * t * u + t * t * t <= 1.0 && 2.0 * t * u + t * t <= 1.0
  {
    var u := 1.0 - t;
    var p := t * u;
    assert p >= 0.0 && p * u >= 0.0 && p * t >= 0.0;
    var h := t - 0.5;
    assert h * h >= 0.0 && h * h == t * t - t + 0.25;
    assert p == t - t * t;
    assert p <= 0.25;
    assert p * u + p * t == p;
    assert 3.0 * t * u * u == 3.0 * (p * u) && 3.0 * t * t * u == 3.0 * (p * t);
    var w := u * u;
    assert w >= 0.0 && w * u >= 0.0 && w * u == u * u * u;
    Monomial3(1.0, 1.0, 1.0, 1.0, t);
    assert w + 2.0 * t * u + t * t == 1.0;
    assert t * t >= 0.0 && (t * t) * t >= 0.0;
  }

  lemma CubicWeights(t: real) returns (w1: real, w2: real, w3: real)
    requires 0.0 <= t <= 1.0
    ensures w1 >= 0.0 && w2 >= 0.0 && w3 >= 0.0 && w1 + w2 <= 0.75 && w1 + w2 + w3 <= 1.0
    ensures forall a: real, b: real, c: real, d: real ::
      Bern3(a, b, c, d, t) - a == w1 * (b - a) + w2 * (c - a) + w3 * (d - a)
  {
    InnerWeight(t);
    w1, w2, w3 := 3.0 * t * (1.0 - t) * (1.0 - t), 3.0 * t * t * (1.0 - t), t * t * t;
    forall a: real, b: real, c: real, d: real
      ensures Bern3(a, b, c, d, t) - a == w1 * (b - a) + w2 * (c - a) + w3 * (d - a) {
      Offset3(a, b, c, d, t);
    }
  }

  lemma QuadWeights(t: real) returns (w1: real, w3: real)
    requires 0.0 <= t <= 1.0
    ensures w1 >= 0.0 && w3 >= 0.0 && w1 <= 0.5 && w1 + w3 <= 1.0
    ensures forall a: real, b: real, c: real :: Bern2(a, b, c, t) - a == w1 * (b - a) + w3 * (c - a)
  {
    InnerWeight(t);
    w1, w3 := 2.0 * t * (1.0 - t), t * t;
    forall a: real, b: real, c: real ensures Bern2(a, b, c, t) - a == w1 * (b - a) + w3 * (c - a) {
      Offset2(a, b, c, t);
    }
  }

  /** q - a is w1 (p1 - a) + w2 (p2 - a) + w3 (b - a). */
  ghost predicate Combination(q: Point, a: Point, b: Point, w1: real, w2: real, w3: real, p1: Point, p2: Point) {
    && q.x - a.x == w1 * (p1.x - a.x) + w2 * (p2.x - a.x) + w3 * (b.x - a.x)
    && q.y - a.y == w1 * (p1.y - a.y) + w2 * (p2.y - a.y) + w3 * (b.y - a.y)
  }

  /** A weighted sum of offsets from a, seen across the chord a-b. */
  lemma CrossOfSum(q: Point, a: Point, b: Point, w1: real, w2: real, w3: real, p1: Point, p2: Point)
    requires Combination(q, a, b, w1, w2, w3, p1, p2)
    ensures Cross(q, a, b) == w1 * Cross(p1, a, b) + w2 * Cross(p2, a, b)
  {
    var dx, dy := b.x - a.x, b.y - a.y;
    var x1, y1, x2, y2 := p1.x - a.x, p1.y - a.y, p2.x - a.x, p2.y - a.y;
    calc {
      Cross(q, a, b);
      (w1 * x1 + w2 * x2 + w3 * dx) * dy - (w1 * y1 + w2 * y2 + w3 * dy) * dx;
      w1 * (x1 * dy - y1 * dx) + w2 * (x2 * dy - y2 * dx);
    }
  }

  /** The error bound of one flat curve: the whole arc is near the line of its chord. */
  lemma FlatArcIsNear(c: Curve, t: real)
    requires c.Flat() && 0.0 <= t <= 1.0
    ensures c.Near(c.At(t), c.Start(), c.End())
  {
    hide Bern3, Bern2, Within, Curve.At;
    AtBernstein(c, t);
    match c {
      case Cubic(a, p, q, b) =>
        var w1, w2, w3 := CubicWeights(t);
        WeightsBound(0.75, c.At(t), a, b, w1, w2, w3, p, q);
      case Quad(a, p, b) =>
        var w1, w3 := QuadWeights(t);
        WeightsBound(0.5, c.At(t), a, b, w1, 0.0, w3, p, p);
    }
  }

  lemma WeightsBound(r: real, q: Point, a: Point, b: Point, w1: real, w2: real, w3: real, p1: Point, p2: Point)
    requires w1 >= 0.0 && w2 >= 0.0 && w3 >= 0.0 && w1 + w2 <= r && w1 + w2 + w3 <= 1.0
    requires Combination(q, a, b, w1, w2, w3, p1, p2)
    requires Within(p1, a, b, FLATTEN_TOLERANCE) && Within(p2, a, b, FLATTEN_TOLERANCE)
    ensures Within(q, a, b, if Degenerate(a, b) then FLATTEN_TOLERANCE else r * FLATTEN_TOLERANCE)
  {
    hide Combination, Cross, NormSq;
    if Degenerate(a, b) {
      StartBound(q, a, b, w1, w2, w3, p1, p2);
    } else {
      LineBound(r, q, a, b, w1, w2, w3, p1, p2, NormSq(a, b));
    }
  }

  lemma StartBound(q: Point, a: Point, b: Point, w1: real, w2: real, w3: real, p1: Point, p2: Point)
    requires w1 >= 0.0 && w2 >= 0.0 && w3 >= 0.0 && w1 + w2 + w3 <= 1.0
    requires Combination(q, a, b, w1, w2, w3, p1, p2)
    requires NormSq(a, p1) <= 0.1 * 0.1 && NormSq(a, p2) <= 0.1 * 0.1 && NormSq(a, b) <= 0.1 * 0.1
    ensures NormSq(a, q) <= 0.1 * 0.1
  {
    hide Combination, NormSq;
    var x1, y1 := FromStart(a, p1);
    var x2, y2 := FromStart(a, p2);
    var x3, y3 := FromStart(a, b);
    var x, y := FromStart(a, q);
    CombinationOffsets(q, a, b, w1, w2, w3, p1, p2, x1, y1, x2, y2, x3, y3, x, y);
    DiscBound(w1, w2, w3, x1, y1, x2, y2, x3, y3, x, y, 0.01);
  }

  lemma FromStart(a: Point, p: Point) returns (x: real, y: real)
    ensures x == p.x - a.x && y == p.y - a.y && NormSq(a, p) == x * x + y * y
  {
    x, y := p.x - a.x, p.y - a.y;
  }

  lemma CombinationOffsets(q: Point, a: Point, b: Point, w1: real, w2: real, w3: real, p1: Point, p2: Point,
                           x1: real, y1: real, x2: real, y2: real, x3: real, y3: real, x: real, y: real)
    requires Combination(q, a, b, w1, w2, w3, p1, p2)
    requires x1 == p1.x - a.x && y1 == p1.y - a.y && x2 == p2.x - a.x && y2 == p2.y - a.y
    requires x3 == b.x - a.x && y3 == b.y - a.y && x == q.x - a.x && y == q.y - a.y
    ensures x == w1 * x1 + w2 * x2 + w3 * x3 && y == w1 * y1 + w2 * y2 + w3 * y3
  {}

  lemma LineBound(r: real, q: Point, a: Point, b: Point, w1: real, w2: real, w3: real, p1: Point, p2: Point, n: real)
    requires w1 >= 0.0 && w2 >= 0.0 && w1 + w2 <= r
    requires Combination(q, a, b, w1, w2, w3, p1, p2)
    requires SquareWithin(Cross(p1, a, b), 0.1, n) && SquareWithin(Cross(p2, a, b), 0.1, n)
    ensures SquareWithin(Cross(q, a, b), r * 0.1, n)
  {
    hide Cross, Combination, SquareWithin;
    CrossOfSum(q, a, b, w1, w2, w3, p1, p2);
    CrossBound(Cross(q, a, b), Cross(p1, a, b), Cross(p2, a, b), w1, w2, r, n);
  }

  function Abs(x: real): real { if x < 0.0 then -x else x }

  lemma CrossBound(x: real, x1: real, x2: real, w1: real, w2: real, r: real, n: real)
    requires w1 >= 0.0 && w2 >= 0.0 && w1 + w2 <= r && x == w1 * x1 + w2 * x2
    requires SquareWithin(x1, 0.1, n) && SquareWithin(x2, 0.1, n)
    ensures SquareWithin(x, r * 0.1, n)
  {
    hide SquareWithin;
    var m := Larger(x1, x2, n);
    PairBound(x, x1, x2, w1, w2, r, m);
    SquareMonotone(x, r * m);
    TimesSquares(r, m, n, x * x, x);
  }

  lemma Larger(x1: real, x2: real, n: real) returns (m: real)
    requires SquareWithin(x1, 0.1, n) && SquareWithin(x2, 0.1, n)
    ensures m >= 0.0 && -m <= x1 <= m && -m <= x2 <= m && m * m <= 0.01 * n
  {
    m := if Abs(x1) < Abs(x2) then Abs(x2) else Abs(x1);
    assert m * m == x1 * x1 || m * m == x2 * x2;
  }

  lemma PairBound(x: real, x1: real, x2: real, w1: real, w2: real, r: real, m: real)
    requires w1 >= 0.0 && w2 >= 0.0 && w1 + w2 <= r && x == w1 * x1 + w2 * x2
    requires m >= 0.0 && -m <= x1 <= m && -m <= x2 <= m
    ensures -(r * m) <= x <= r * m
  {
    Scale(w1, x1, m); Scale(w2, x2, m); Scale(w1, -m, x1); Scale(w2, -m, x2); Scale(m, w1 + w2, r);
    assert m * (w1 + w2) == w1 * m + w2 * m;
  }

  lemma SquareMonotone(x: real, z: real)
    requires -z <= x <= z
    ensures x * x <= z * z
  {
    var y := Abs(x);
    Scale(y, y, z); Scale(z, y, z);
  }

  lemma TimesSquares(r: real, m: real, n: real, x2: real, x: real)
    requires m * m <= 0.01 * n && x2 <= (r * m) * (r * m) && x2 == x * x
    ensures SquareWithin(x, r * 0.1, n)
  {
    assert (r * m) * (r * m) == (r * r) * (m * m);
    assert r * r >= 0.0;
    Scale(r * r, m * m, 0.01 * n);
    assert (r * 0.1) * (r * 0.1) * n == (r * r) * (0.01 * n);
  }

  /** The arc under leaf i of c stays near the line of the chord between the leaf's end points. */
  lemma LeafError(c: Curve, depth: nat, i: nat, t: real)
    requires i < |Leaves(c, depth)| && Leaves(c, depth)[i].curve.Flat()
    requires Leaves(c, depth)[i].Lo() <= t <= Leaves(c, depth)[i].Hi()
    ensures var l := Leaves(c, depth)[i]; c.Near(c.At(t), c.At(l.Lo()), c.At(l.Hi()))
  {
    hide Curve.At, Curve.Flat, Within;
    var l := Leaves(c, depth)[i];
    var s := ParamOnto(l.path, t);
    LeafIsArc(c, depth, i, 0.0);
    LeafIsArc(c, depth, i, 1.0);
    LeafIsArc(c, depth, i, s);
    FlatArcIsNear(l.curve, s);
    Ends(l.curve);
  }

  // ---------------------------------------------------------------- depth needed by bounded curves

  /** Every second difference of the control points is at most m, in each coordinate. */
  predicate Bend(c: Curve, m: real) {
    match c
    case Cubic(a, b, d, e) => Diff2(a, b, d, m) && Diff2(b, d, e, m)
    case Quad(a, b, d) => Diff2(a, b, d, m)
  }

  predicate Diff2(a: Point, b: Point, c: Point, m: real) {
    -m <= a.x - 2.0 * b.x + c.x <= m && -m <= a.y - 2.0 * b.y + c.y <= m
  }

  lemma HalvingQuartersBend(c: Curve, m: real)
    requires Bend(c, 4.0 * m)
    ensures Bend(c.Left(), m) && Bend(c.Right(), m)
  {}

  const FLAT_BEND := 3.0 / 64.0

  /** Second differences of at most 3/64 pass the flatness test. */
  lemma LittleBendIsFlat(c: Curve)
    requires Bend(c, FLAT_BEND)
    ensures c.Flat()
  {
    hide Within;
    match c {
      case Cubic(a, b, d, e) =>
        SmallDeviation(b, a, e, 1.0 / 3.0, (2.0 * (a.x - 2.0 * b.x + d.x) + (b.x - 2.0 * d.x + e.x)) / 3.0,
          (2.0 * (a.y - 2.0 * b.y + d.y) + (b.y - 2.0 * d.y + e.y)) / 3.0);
        SmallDeviation(d, a, e, 2.0 / 3.0, ((a.x - 2.0 * b.x + d.x) + 2.0 * (b.x - 2.0 * d.x + e.x)) / 3.0,
          ((a.y - 2.0 * b.y + d.y) + 2.0 * (b.y - 2.0 * d.y + e.y)) / 3.0);
      case Quad(a, b, e) =>
        SmallDeviation(b, a, e, 0.5, (a.x - 2.0 * b.x + e.x) * 0.5, (a.y - 2.0 * b.y + e.y) * 0.5);
    }
  }

  /** p is (ex, ey) short of the point at fraction f of the chord a-b. */
  ghost predicate OffChord(p: Point, a: Point, b: Point, f: real, ex: real, ey: real) {
    p.x == a.x + f * (b.x - a.x) - ex && p.y == a.y + f * (b.y - a.y) - ey
  }

  /** A control point a little off the chord point at fraction f of the chord is within tolerance. */
  lemma SmallDeviation(p: Point, a: Point, b: Point, f: real, ex: real, ey: real)
    requires 0.0 <= f <= 1.0 && -FLAT_BEND <= ex <= FLAT_BEND && -FLAT_BEND <= ey <= FLAT_BEND
    requires OffChord(p, a, b, f, ex, ey)
    ensures Within(p, a, b, FLATTEN_TOLERANCE)
  {
    hide NormSq, Cross, SquareWithin, OffChord;
    var dx, dy := FromStart(a, b);
    var x, y := FromStart(a, p);
    SquareMonotone(ex, FLAT_BEND); SquareMonotone(ey, FLAT_BEND);
    OffChordScalars(p, a, b, f, ex, ey, x, y, dx, dy);
    if Degenerate(a, b) {
      DeviationNorm(f * dx, f * dy, f, dx, dy, ex, ey, x, y);
    } else {
      CrossScalars(p, a, b, x, y, dx, dy);
      SlopeCancels(f, dx, dy, ex, ey, x, y);
      LagrangeBound(Cross(p, a, b), ex, ey, dx, dy, NormSq(a, b));
    }
  }

  lemma OffChordScalars(p: Point, a: Point, b: Point, f: real, ex: real, ey: real, x: real, y: real, dx: real, dy: real)
    requires OffChord(p, a, b, f, ex, ey)
    requires x == p.x - a.x && y == p.y - a.y && dx == b.x - a.x && dy == b.y - a.y
    ensures x == f * dx - ex && y == f * dy - ey
  {}

  lemma CrossScalars(p: Point, a: Point, b: Point, x: real, y: real, dx: real, dy: real)
    requires x == p.x - a.x && y == p.y - a.y && dx == b.x - a.x && dy == b.y - a.y
    ensures Cross(p, a, b) == x * dy - y * dx
  {}

  lemma SlopeCancels(f: real, dx: real, dy: real, ex: real, ey: real, x: real, y: real)
    requires x == f * dx - ex && y == f * dy - ey
    ensures x * dy - y * dx == ey * dx - ex * dy
  {}

  lemma DeviationNorm(zx: real, zy: real, f: real, dx: real, dy: real, ex: real, ey: real, x: real, y: real)
    requires zx == f * dx && zy == f * dy && x == zx - ex && y == zy - ey && 0.0 <= f <= 1.0
    requires ex * ex <= FLAT_BEND * FLAT_BEND && ey * ey <= FLAT_BEND * FLAT_BEND && dx * dx + dy * dy <= EPSILON
    ensures x * x + y * y <= 0.01
  {
    Contract(f, dx, zx); Contract(f, dy, zy);
    ParallelogramBound(zx, ex, x); ParallelogramBound(zy, ey, y);
    DeviationSum(zx * zx, zy * zy, dx * dx, dy * dy, ex * ex, ey * ey, x * x, y * y);
  }

  lemma DeviationSum(zx2: real, zy2: real, dx2: real, dy2: real, ex2: real, ey2: real, x2: real, y2: real)
    requires zx2 <= dx2 && zy2 <= dy2 && dx2 + dy2 <= EPSILON
    requires ex2 <= FLAT_BEND * FLAT_BEND && ey2 <= FLAT_BEND * FLAT_BEND
    requires x2 <= 2.0 * zx2 + 2.0 * ex2 && y2 <= 2.0 * zy2 + 2.0 * ey2
    ensures x2 + y2 <= 0.01
  {}

  lemma Contract(f: real, d: real, z: real)
    requires 0.0 <= f <= 1.0 && z == f * d
    ensures z * z <= d * d
  {
    Scale(Abs(d), f, 1.0);
    assert Abs(d) * f == Abs(z);
    SquareMonotone(z, Abs(d));
  }

  lemma ParallelogramBound(z: real, e: real, x: real)
    requires x == z - e
    ensures x * x <= 2.0 * (z * z) + 2.0 * (e * e)
  {
    var u := z + e;
    assert u * u >= 0.0;
    assert u * u == z * z + 2.0 * (z * e) + e * e;
    assert x * x == z * z - 2.0 * (z * e) + e * e;
  }

  /** Cauchy-Schwarz through Lagrange's identity. */
  lemma LagrangeBound(h: real, ex: real, ey: real, dx: real, dy: real, n: real)
    requires n == dx * dx + dy * dy && h == ey * dx - ex * dy
    requires ex * ex <= FLAT_BEND * FLAT_BEND && ey * ey <= FLAT_BEND * FLAT_BEND
    ensures SquareWithin(h, FLATTEN_TOLERANCE, n)
  {
    var g, e := ex * dx + ey * dy, ex * ex + ey * ey;
    assert h * h + g * g == e * n;
    assert g * g >= 0.0;
    assert n >= 0.0 by { assert dx * dx >= 0.0 && dy * dy >= 0.0; }
    Scale(n, e, 0.01);
  }

  /** n halvings are enough for a curve whose second differences are at most 3/64 * 4^n: no piece is the
      result of more, and every piece is flat. */
  lemma {:induction false} BoundedBend(c: Curve, depth: nat, n: nat)
    requires depth + n <= MAX_SUBDIV_DEPTH && Bend(c, FLAT_BEND * Pow4(n))
    ensures |Points(c, depth)| <= Pow2(n)
    ensures forall i :: 0 <= i < |Leaves(c, depth)| ==> |Leaves(c, depth)[i].path| <= n
    ensures forall i :: 0 <= i < |Leaves(c, depth)| ==> Leaves(c, depth)[i].curve.Flat()
    decreases n
  {
    hide Curve.Flat, Curve.Left, Curve.Right, Bend;
    if n == 0 {
      LittleBendIsFlat(c);
    } else if c.Flat() || depth >= MAX_SUBDIV_DEPTH {
      Pow2Positive(n);
    } else {
      HalvingQuartersBend(c, FLAT_BEND * Pow4(n - 1));
      BoundedBend(c.Left(), depth + 1, n - 1);
      BoundedBend(c.Right(), depth + 1, n - 1);
    }
  }

  function Pow4(n: nat): real { if n == 0 then 1.0 else 4.0 * Pow4(n - 1) }

  predicate InViewBox(p: Point) { 0.0 <= p.x <= 24.0 && 0.0 <= p.y <= 24.0 }

  predicate CurveInViewBox(c: Curve) {
    match c
    case Cubic(a, b, d, e) => InViewBox(a) && InViewBox(b) && InViewBox(d) && InViewBox(e)
    case Quad(a, b, d) => InViewBox(a) && InViewBox(b) && InViewBox(d)
  }

  lemma ViewBoxBend(c: Curve)
    requires CurveInViewBox(c)
    ensures Bend(c, FLAT_BEND * Pow4(5))
  {
    assert Pow4(5) == 1024.0 by { assert Pow4(4) == 256.0 by { assert Pow4(2) == 16.0; } }
  }

  /** Curves of the view box are never halved more than five times, far from the depth cap. */
  lemma ViewBoxLeaves(c: Curve)
    requires CurveInViewBox(c)
    ensures |Points(c, 0)| <= 32
    ensures forall i :: 0 <= i < |Leaves(c, 0)| ==> |Leaves(c, 0)[i].path| <= 5
    ensures forall i :: 0 <= i < |Leaves(c, 0)| ==> Leaves(c, 0)[i].curve.Flat()
  {
    hide Curve.Flat, Bend, CurveInViewBox;
    ViewBoxBend(c);
    BoundedBend(c, 0, 5);
    assert Pow2(5) == 32 by { assert Pow2(3) == 8; }
  }

  // ---------------------------------------------------------------- main results

  /** The polyline from the curve's start through points is a sampling of c at parameters ts. */
  ghost predicate Samples(c: Curve, points: seq<Point>, ts: seq<real>) {
    && |ts| == |points| + 1 && ts[0] == 0.0 && ts[|points|] == 1.0
    && (forall i, j :: 0 <= i < |ts| && j == i + 1 < |ts| ==> ts[i] < ts[j])
    && (forall i :: 0 <= i < |points| ==> points[i] == c.At(ts[i + 1]))
  }

  lemma SamplesOf(c: Curve, depth: nat) returns (ts: seq<real>)
    requires depth <= MAX_SUBDIV_DEPTH
    ensures |ts| == |Leaves(c, depth)| + 1
    ensures forall i :: 0 <= i < |Leaves(c, depth)| ==>
      ts[i] == Leaves(c, depth)[i].Lo() && ts[i + 1] == Leaves(c, depth)[i].Hi()
    ensures Samples(c, Points(c, depth), ts)
    ensures 1 <= |Points(c, depth)| <= Pow2(MAX_SUBDIV_DEPTH - depth)
  {
    hide Curve.At, Curve.Flat;
    var ls := Leaves(c, depth);
    LeavesTile(c, depth);
    PointsAreLeafEnds(c, depth);
    PointCount(c, depth);
    ts := seq(|ls| + 1, i requires 0 <= i <= |ls| => if i == 0 then 0.0 else ls[i - 1].Hi());
    forall i | 0 <= i < |ls|
      ensures ts[i] == ls[i].Lo() && ts[i + 1] == ls[i].Hi() && Points(c, depth)[i] == c.At(ts[i + 1]) {
      if i > 0 { assert ls[i - 1].Hi() == ls[i].Lo(); }
      LeafIsArc(c, depth, i, 1.0);
      Ends(ls[i].curve);
    }
  }

  /** Any curve: the appended points sample it at strictly increasing parameters that end at 1, and
      between neighbouring samples the curve stays near the line of their chord unless the depth cap cut that
      piece. */
  lemma FlattenSamplesCurve(c: Curve) returns (ts: seq<real>)
    ensures Samples(c, Points(c, 0), ts)
    ensures 1 <= |Points(c, 0)| <= Pow2(MAX_SUBDIV_DEPTH)
    ensures forall i, t :: 0 <= i < |Points(c, 0)| && ts[i] <= t <= ts[i + 1] ==>
              c.Near(c.At(t), c.At(ts[i]), c.At(ts[i + 1])) || ts[i + 1] - ts[i] <= 1.0 / 65536.0
  {
    hide Curve.At, Curve.Flat, Within, Pow2, CurveInViewBox;
    ts := SamplesOf(c, 0);
    var ls := Leaves(c, 0);
    PointsAreLeafEnds(c, 0);
    forall i, t | 0 <= i < |ls| && ts[i] <= t <= ts[i + 1]
      ensures c.Near(c.At(t), c.At(ts[i]), c.At(ts[i + 1])) || ts[i + 1] - ts[i] <= 1.0 / 65536.0
    {
      LeafStop(c, 0, i);
      if ls[i].curve.Flat() { LeafError(c, 0, i, t); } else { DeepIsShort(ls[i].path, 16); }
    }
  }

  function Half(n: nat): real { if n == 0 then 1.0 else Half(n - 1) * 0.5 }

  lemma {:induction false} PieceLength(path: seq<bool>)
    ensures 0.0 < Param(path, 1.0) - Param(path, 0.0) == Half(|path|)
  { if path != [] { PieceLength(path[1..]); } }

  lemma {:induction false} HalfShrinks(m: nat, n: nat)
    requires m <= n
    ensures 0.0 < Half(n) <= Half(m)
    decreases n
  { if m < n { HalfShrinks(m, n - 1); } else if n > 0 { HalfShrinks(n - 1, n - 1); } }

  /** A piece reached through at least 16 halvings spans at most 2^-16 of the curve. */
  lemma DeepIsShort(path: seq<bool>, n: nat)
    requires |path| >= n == 16
    ensures Param(path, 1.0) - Param(path, 0.0) <= 1.0 / 65536.0
  {
    PieceLength(path);
    HalfShrinks(16, |path|);
    assert Half(16) == 1.0 / 65536.0 by {
      assert Half(4) == 1.0 / 16.0; assert Half(8) == 1.0 / 256.0; assert Half(12) == 1.0 / 4096.0;
    }
  }

  /** A curve drawn in the 24 x 24 viewBox: at most 32 points, the recursion never passes depth five, and
      each part of the curve is near the line through the chord that stands for it. */
  lemma ViewBoxFlattening(c: Curve) returns (ts: seq<real>)
    requires CurveInViewBox(c)
    ensures Samples(c, Points(c, 0), ts)
    ensures |Points(c, 0)| <= 32
    ensures forall i :: 0 <= i < |Leaves(c, 0)| ==> |Leaves(c, 0)[i].path| <= 5
    ensures forall i, t :: 0 <= i < |Points(c, 0)| && ts[i] <= t <= ts[i + 1] ==>
      c.Near(c.At(t), c.At(ts[i]), c.At(ts[i + 1]))
  {
    hide Curve.At, Curve.Flat, Within, Pow2, CurveInViewBox;
    ts := SamplesOf(c, 0);
    var ls := Leaves(c, 0);
    PointsAreLeafEnds(c, 0);
    ViewBoxLeaves(c);
    forall i, t | 0 <= i < |ls| && ts[i] <= t <= ts[i + 1] ensures c.Near(c.At(t), c.At(ts[i]), c.At(ts[i + 1])) {
      LeafError(c, 0, i, t);
    }
  }
}
