/** How near the flattened polyline is to its curve. The flatness test measures the distance to the infinite
    line through the ends of a piece, so a flat piece may still run past the ends of its chord. */
module Chords {
  import opened Bezier

  // ---------------------------------------------------------------- along the chord

  function Dot(p: Point, a: Point, b: Point): real {
    (p.x - a.x) * (b.x - a.x) + (p.y - a.y) * (b.y - a.y)
  }

  /** Where the perpendicular from p meets the line through a and b: 0 at a, 1 at b. */
  function Foot(p: Point, a: Point, b: Point): real
    requires !Degenerate(a, b)
  {
    Dot(p, a, b) / NormSq(a, b)
  }

  /** Every perpendicular from the piece meets its chord between the ends. */
  ghost predicate StaysOver(c: Curve)
    requires !Degenerate(c.Start(), c.End())
  {
    forall t: real :: 0.0 <= t <= 1.0 ==> 0.0 <= Foot(c.At(t), c.Start(), c.End()) <= 1.0
  }

  /** The one-sided condition for a cubic with inner feet s1 and s2, seen from the start of the chord. */
  predicate NotBefore(s1: real, s2: real) { s1 >= 0.0 && (s2 >= 0.0 || 3.0 * (s2 * s2) <= 4.0 * s1) }

  /** What the control points of a piece must satisfy, for the piece to stay over its chord. */
  predicate OverChord(c: Curve)
    requires !Degenerate(c.Start(), c.End())
  {
    match c
    case Cubic(a, p, q, b) =>
      var s1, s2 := Foot(p, a, b), Foot(q, a, b);
      NotBefore(s1, s2) && NotBefore(1.0 - s2, 1.0 - s1)
    case Quad(a, p, b) => 0.0 <= Foot(p, a, b) <= 1.0
  }

  // ---- one coordinate: when a Bernstein form from 0 to 1 stays between 0 and 1

  /** x*u^2 + y*u*t + t^2, on the quadrant. */
  lemma FormNotNegative(x: real, y: real, t: real, u: real)
    requires x >= 0.0 && (y >= 0.0 || y * y <= 4.0 * x) && t >= 0.0 && u >= 0.0
    ensures x * (u * u) + y * (t * u) + t * t >= 0.0
  {
    assert t * u >= 0.0 && u * u >= 0.0 && t * t >= 0.0;
    if y >= 0.0 {
      assert y * (t * u) >= 0.0 && x * (u * u) >= 0.0;
    } else {
      var h := y * 0.5;
      Scale(u * u, h * h, x);
      var z := h * u + t;
      assert z * z >= 0.0;
      assert z * z == (h * h) * (u * u) + 2.0 * (h * (t * u)) + t * t by { SquareOfSum(h, u, t); }
    }
  }

  lemma SquareOfSum(h: real, u: real, t: real)
    ensures (h * u + t) * (h * u + t) == (h * h) * (u * u) + 2.0 * (h * (t * u)) + t * t
  {
    var k := h * u;
    assert (k + t) * (k + t) == k * k + 2.0 * (k * t) + t * t;
    assert k * k == (h * h) * (u * u);
    assert k * t == h * (t * u);
  }

  lemma FormNegative(x: real, y: real) returns (r: real)
    requires !(x >= 0.0 && (y >= 0.0 || y * y <= 4.0 * x))
    ensures r > 0.0 && x + y * r + r * r < 0.0
  {
    if x < 0.0 { r := NegativeStart(x, y); } else { r := NegativeMiddle(x, y); }
  }

  lemma NegativeStart(x: real, y: real) returns (r: real)
    requires x < 0.0
    ensures r > 0.0 && x + y * r + r * r < 0.0
  {
    var e, k := -x, Abs(y) + 1.0;
    r := Share(e, k);
    assert y * r <= Abs(y) * r by { Scale(r, y, Abs(y)); assert r * y == y * r && r * Abs(y) == Abs(y) * r; }
    assert r * r <= r by { Scale(r, r, 1.0); }
    assert r * k == Abs(y) * r + r by { Distribute(r, Abs(y), 1.0); }
    assert r * e > 0.0 by { Positive(r, e); }
  }

  /** The part of 1 that e is of e + k. */
  lemma Share(e: real, k: real) returns (r: real)
    requires e > 0.0 && k > 0.0
    ensures 0.0 < r < 1.0 && r * e + r * k == e
  {
    r := e / (e + k);
    assert r * (e + k) == e;
    Distribute(r, e, k);
    if r <= 0.0 { NotPositive(r, e + k); }
    Positive(r, k);
    if r >= 1.0 { Scale(e, 1.0, r); }
  }

  lemma Positive(a: real, b: real)
    requires a > 0.0 && b > 0.0
    ensures a * b > 0.0
  {}

  lemma NotPositive(a: real, b: real)
    requires a <= 0.0 && b > 0.0
    ensures a * b <= 0.0
  {}

  lemma NegativeMiddle(x: real, y: real) returns (r: real)
    requires y < 0.0 && y * y > 4.0 * x
    ensures r > 0.0 && x + y * r + r * r < 0.0
  {
    r := -y * 0.5;
    assert y == -2.0 * r;
    assert y * y == 4.0 * (r * r) && y * r == -2.0 * (r * r);
  }

  /** The parameter at which t stands to 1 - t as r to 1. */
  lemma AtRatio(r: real) returns (t: real, u: real)
    requires r > 0.0
    ensures 0.0 < t < 1.0 && u == 1.0 - t && t == r * u
  {
    u := 1.0 / (1.0 + r);
    assert u * (1.0 + r) == 1.0;
    assert u > 0.0 && r * u > 0.0;
    t := r * u;
    assert t + u == 1.0;
  }

  lemma CubicForm(s1: real, s2: real, t: real)
    ensures var u := 1.0 - t; Bern3(0.0, s1, s2, 1.0, t) == t * (3.0 * s1 * (u * u) + 3.0 * s2 * (t * u) + t * t)
  {
    var u := 1.0 - t;
    assert 3.0 * t * u * u * s1 == t * (3.0 * s1 * (u * u));
    assert 3.0 * t * t * u * s2 == t * (3.0 * s2 * (t * u));
  }

  lemma RatioForm(x: real, y: real, r: real, t: real, u: real)
    requires t == r * u
    ensures x * (u * u) + y * (t * u) + t * t == (u * u) * (x + y * r + r * r)
  {
    assert t * u == r * (u * u);
    assert t * t == (r * r) * (u * u);
    assert y * (r * (u * u)) == (u * u) * (y * r);
  }

  /** The lower bound, exactly. */
  lemma CubicNotBeforeExact(s1: real, s2: real)
    ensures (forall t: real :: 0.0 <= t <= 1.0 ==> Bern3(0.0, s1, s2, 1.0, t) >= 0.0) <==> NotBefore(s1, s2)
  {
    hide Bern3;
    var x, y := 3.0 * s1, 3.0 * s2;
    assert y * y == 9.0 * (s2 * s2);
    if NotBefore(s1, s2) {
      forall t: real | 0.0 <= t <= 1.0 ensures Bern3(0.0, s1, s2, 1.0, t) >= 0.0 {
        CubicForm(s1, s2, t);
        FormNotNegative(x, y, t, 1.0 - t);
        TimesNotNegative(t, x * ((1.0 - t) * (1.0 - t)) + y * (t * (1.0 - t)) + t * t);
      }
    } else {
      var r := FormNegative(x, y);
      var t, u := AtRatio(r);
      CubicForm(s1, s2, t);
      RatioForm(x, y, r, t, u);
      Opposite(u * u, x + y * r + r * r) by { assert u * u > 0.0; }
      Opposite(t, (u * u) * (x + y * r + r * r));
      assert Bern3(0.0, s1, s2, 1.0, t) < 0.0;
    }
  }

  lemma TimesNotNegative(a: real, b: real)
    requires a >= 0.0 && b >= 0.0
    ensures a * b >= 0.0
  {}

  lemma Opposite(a: real, b: real)
    requires a > 0.0 && b < 0.0
    ensures a * b < 0.0
  {}

  /** Seen from the other end. */
  lemma Mirror3(s1: real, s2: real, t: real)
    ensures 1.0 - Bern3(0.0, s1, s2, 1.0, t) == Bern3(0.0, 1.0 - s2, 1.0 - s1, 1.0, 1.0 - t)
  {
    hide Bern3;
    Reverse3(0.0, 1.0 - s2, 1.0 - s1, 1.0, 1.0 - t);
    Monomial3(0.0, s1, s2, 1.0, t);
    Monomial3(1.0, 1.0 - s1, 1.0 - s2, 0.0, t);
    MirrorForm(s1, s2, t, t * t, t * t * t);
  }

  lemma MirrorForm(s1: real, s2: real, t: real, t2: real, t3: real)
    ensures 1.0 - (0.0 + 3.0 * (s1 - 0.0) * t + 3.0 * (0.0 - 2.0 * s1 + s2) * t2
      + (1.0 - 3.0 * s2 + 3.0 * s1 - 0.0) * t3)
         == 1.0 + 3.0 * ((1.0 - s1) - 1.0) * t + 3.0 * (1.0 - 2.0 * (1.0 - s1) + (1.0 - s2)) * t2
           + (0.0 - 3.0 * (1.0 - s2) + 3.0 * (1.0 - s1) - 1.0) * t3
  {}

  lemma CubicBetweenExact(s1: real, s2: real)
    ensures (forall t: real :: 0.0 <= t <= 1.0 ==> 0.0 <= Bern3(0.0, s1, s2, 1.0, t) <= 1.0) <==>
      NotBefore(s1, s2) && NotBefore(1.0 - s2, 1.0 - s1)
  {
    hide Bern3, NotBefore;
    CubicNotBeforeExact(s1, s2);
    CubicNotBeforeExact(1.0 - s2, 1.0 - s1);
    forall t: real ensures 1.0 - Bern3(0.0, s1, s2, 1.0, t) == Bern3(0.0, 1.0 - s2, 1.0 - s1, 1.0, 1.0 - t) {
      Mirror3(s1, s2, t);
    }
    if forall t: real :: 0.0 <= t <= 1.0 ==> 0.0 <= Bern3(0.0, s1, s2, 1.0, t) <= 1.0 {
      var r1, r2 := 1.0 - s2, 1.0 - s1;
      forall t: real | 0.0 <= t <= 1.0 ensures Bern3(0.0, r1, r2, 1.0, t) >= 0.0 {
        assert 1.0 - (1.0 - t) == t;
        assert 0.0 <= Bern3(0.0, s1, s2, 1.0, 1.0 - t) <= 1.0;
      }
    }
  }

  lemma QuadNotNegative(s: real, t: real)
    requires s >= 0.0 && 0.0 <= t <= 1.0
    ensures Bern2(0.0, s, 1.0, t) >= 0.0
  {
    var u := 1.0 - t;
    TimesNotNegative(t, u); TimesNotNegative(t * u, s); TimesNotNegative(t, t);
    assert 2.0 * t * u * s == 2.0 * (t * u * s);
  }

  lemma QuadBetween(s: real, t: real)
    requires 0.0 <= s <= 1.0 && 0.0 <= t <= 1.0
    ensures 0.0 <= Bern2(0.0, s, 1.0, t) <= 1.0
  {
    hide Bern2;
    QuadNotNegative(s, t);
    QuadNotNegative(1.0 - s, 1.0 - t);
    Mirror2(s, t);
  }

  /** Where t stands to 1 - t as -s to 1. */
  lemma QuadAtRatio(s: real, t: real, u: real)
    requires u == 1.0 - t && s * u == -t && t > 0.0
    ensures Bern2(0.0, s, 1.0, t) < 0.0
  {
    hide Bern2;
    Positive(t, t);
    QuadFromZero(s, t, u, s * u, t * (s * u));
    SameFactor(t, s * u, -t);
    var m := t * (s * u);
    assert m == -(t * t);
    assert Bern2(0.0, s, 1.0, t) == 2.0 * m + t * t;
  }

  lemma QuadFromZero(s: real, t: real, u: real, p: real, m: real)
    requires u == 1.0 - t && p == s * u && m == t * p
    ensures Bern2(0.0, s, 1.0, t) == 2.0 * m + t * t
  {
    assert 2.0 * t * u * s == 2.0 * (t * (s * u));
  }

  lemma SameFactor(t: real, p: real, q: real)
    requires p == q
    ensures t * p == t * q
  {}

  lemma QuadBefore(s: real) returns (t: real)
    requires s < 0.0
    ensures 0.0 <= t <= 1.0 && Bern2(0.0, s, 1.0, t) < 0.0
  {
    hide Bern2;
    var r, u := -s, 1.0;
    t, u := AtRatio(r);
    assert s * u == -t by { assert (-s) * u == -(s * u); }
    QuadAtRatio(s, t, u);
  }

  lemma QuadBeyond(s: real) returns (t: real)
    requires s > 1.0
    ensures 0.0 <= t <= 1.0 && Bern2(0.0, s, 1.0, t) > 1.0
  {
    hide Bern2;
    var x := QuadBefore(1.0 - s);
    t := 1.0 - x;
    Mirror2(s, t);
  }

  lemma Mirror2(s: real, t: real)
    ensures 1.0 - Bern2(0.0, s, 1.0, t) == Bern2(0.0, 1.0 - s, 1.0, 1.0 - t)
  {
    hide Bern2;
    Monomial2(0.0, s, 1.0, t);
    Reverse2(0.0, 1.0 - s, 1.0, 1.0 - t);
    Monomial2(1.0, 1.0 - s, 0.0, t);
    Mirror2Form(s, t, t * t);
  }

  lemma Mirror2Form(s: real, t: real, t2: real)
    ensures 1.0 - (0.0 + 2.0 * (s - 0.0) * t + (0.0 - 2.0 * s + 1.0) * t2)
      == 1.0 + 2.0 * ((1.0 - s) - 1.0) * t + (1.0 - 2.0 * (1.0 - s) + 0.0) * t2
  {}

  lemma QuadBetweenExact(s: real)
    ensures (forall t: real :: 0.0 <= t <= 1.0 ==> 0.0 <= Bern2(0.0, s, 1.0, t) <= 1.0) <==> 0.0 <= s <= 1.0
  {
    hide Bern2;
    if s < 0.0 {
      var t := QuadBefore(s);
    } else if s > 1.0 {
      var t := QuadBeyond(s);
    } else {
      forall t: real | 0.0 <= t <= 1.0 ensures 0.0 <= Bern2(0.0, s, 1.0, t) <= 1.0 { QuadBetween(s, t); }
    }
  }

  // ---- the piece

  lemma DotOfSum(q: Point, a: Point, b: Point, w1: real, w2: real, w3: real, p1: Point, p2: Point)
    requires Combination(q, a, b, w1, w2, w3, p1, p2)
    ensures Dot(q, a, b) == w1 * Dot(p1, a, b) + w2 * Dot(p2, a, b) + w3 * NormSq(a, b)
  {
    var dx, dy := b.x - a.x, b.y - a.y;
    Project(w1, w2, w3, p1.x - a.x, p2.x - a.x, dx, q.x - a.x, dx);
    Project(w1, w2, w3, p1.y - a.y, p2.y - a.y, dy, q.y - a.y, dy);
    Distribute(w1, (p1.x - a.x) * dx, (p1.y - a.y) * dy);
    Distribute(w2, (p2.x - a.x) * dx, (p2.y - a.y) * dy);
    Distribute(w3, dx * dx, dy * dy);
  }

  lemma FootTimes(p: Point, a: Point, b: Point)
    requires !Degenerate(a, b)
    ensures Foot(p, a, b) * NormSq(a, b) == Dot(p, a, b) && NormSq(a, b) > 0.0
  {
    hide NormSq, Dot;
    var n := NormSq(a, b);
    assert Dot(p, a, b) / n * n == Dot(p, a, b);
  }

  lemma FootOfSum(q: Point, a: Point, b: Point, w1: real, w2: real, w3: real, p1: Point, p2: Point)
    requires !Degenerate(a, b) && Combination(q, a, b, w1, w2, w3, p1, p2)
    ensures Foot(q, a, b) == w1 * Foot(p1, a, b) + w2 * Foot(p2, a, b) + w3
  {
    hide Combination, Dot, NormSq, Foot;
    DotOfSum(q, a, b, w1, w2, w3, p1, p2);
    FootTimes(q, a, b); FootTimes(p1, a, b); FootTimes(p2, a, b);
    SameQuotient(Foot(q, a, b), Foot(p1, a, b), Foot(p2, a, b), w1, w2, w3, NormSq(a, b));
  }

  lemma SameQuotient(f: real, f1: real, f2: real, w1: real, w2: real, w3: real, n: real)
    requires n > 0.0 && f * n == w1 * (f1 * n) + w2 * (f2 * n) + w3 * n
    ensures f == w1 * f1 + w2 * f2 + w3
  {
    var g := w1 * f1 + w2 * f2 + w3;
    assert (f - g) * n == 0.0 by {
      assert g * n == w1 * (f1 * n) + w2 * (f2 * n) + w3 * n;
    }
    NoZero(f - g, n);
  }

  lemma NoZero(x: real, n: real)
    requires n > 0.0 && x * n == 0.0
    ensures x == 0.0
  {}

  /** The Bernstein form from 0 to 1 with the feet of the inner control points. */
  function Along(c: Curve, t: real): real
    requires !Degenerate(c.Start(), c.End())
  {
    match c
    case Cubic(a, p, q, b) => Bern3(0.0, Foot(p, a, b), Foot(q, a, b), 1.0, t)
    case Quad(a, p, b) => Bern2(0.0, Foot(p, a, b), 1.0, t)
  }

  /** Along the chord the piece is that form. */
  lemma FootIsBernstein(c: Curve, t: real)
    requires !Degenerate(c.Start(), c.End()) && 0.0 <= t <= 1.0
    ensures Foot(c.At(t), c.Start(), c.End()) == Along(c, t)
  {
    hide Bern3, Bern2, Curve.At, Foot, Degenerate;
    AtBernstein(c, t);
    match c {
      case Cubic(a, p, q, b) =>
        var w1, w2, w3 := CubicWeights(t);
        FootOfSum(c.At(t), a, b, w1, w2, w3, p, q);
        assert Bern3(0.0, Foot(p, a, b), Foot(q, a, b), 1.0, t) - 0.0
          == w1 * (Foot(p, a, b) - 0.0) + w2 * (Foot(q, a, b) - 0.0) + w3 * (1.0 - 0.0);
      case Quad(a, p, b) =>
        var w1, w3 := QuadWeights(t);
        FootOfSum(c.At(t), a, b, w1, 0.0, w3, p, p);
        assert Bern2(0.0, Foot(p, a, b), 1.0, t) - 0.0 == w1 * (Foot(p, a, b) - 0.0) + w3 * (1.0 - 0.0);
    }
  }

  /** A piece stays over its chord if and only if its control points satisfy the condition. */
  lemma StaysOverExact(c: Curve)
    requires !Degenerate(c.Start(), c.End())
    ensures StaysOver(c) <==> OverChord(c)
  {
    hide Along, OverChord, Foot, Curve.At, Degenerate;
    forall t: real | 0.0 <= t <= 1.0 ensures Foot(c.At(t), c.Start(), c.End()) == Along(c, t) { FootIsBernstein(c, t); }
    AlongExact(c);
    if OverChord(c) {
      assert StaysOver(c);
    } else {
      var t: real :| 0.0 <= t <= 1.0 && !(0.0 <= Along(c, t) <= 1.0);
      assert !(0.0 <= Foot(c.At(t), c.Start(), c.End()) <= 1.0);
    }
  }

  lemma AlongExact(c: Curve)
    requires !Degenerate(c.Start(), c.End())
    ensures (forall t: real :: 0.0 <= t <= 1.0 ==> 0.0 <= Along(c, t) <= 1.0) <==> OverChord(c)
  {
    hide Bern3, Bern2, Foot, Degenerate, NotBefore;
    match c {
      case Cubic(a, p, q, b) =>
        CubicBetweenExact(Foot(p, a, b), Foot(q, a, b));
        if !OverChord(c) {
          var t: real :| 0.0 <= t <= 1.0 && !(0.0 <= Bern3(0.0, Foot(p, a, b), Foot(q, a, b), 1.0, t) <= 1.0);
          assert !(0.0 <= Along(c, t) <= 1.0);
        }
      case Quad(a, p, b) =>
        QuadBetweenExact(Foot(p, a, b));
        if !OverChord(c) {
          var t: real :| 0.0 <= t <= 1.0 && !(0.0 <= Bern2(0.0, Foot(p, a, b), 1.0, t) <= 1.0);
          assert !(0.0 <= Along(c, t) <= 1.0);
        }
    }
  }

  // ---------------------------------------------------------------- distance to a segment

  /** Some point of the segment from a to b is within tol of p. */
  ghost predicate NearSegment(p: Point, a: Point, b: Point, tol: real) {
    exists w: real :: 0.0 <= w <= 1.0 && NormSq(p, Lerp(a, b, w)) <= tol * tol
  }

  lemma Lagrange(x: real, y: real, dx: real, dy: real)
    ensures (x * x + y * y) * (dx * dx + dy * dy)
      == (x * dy - y * dx) * (x * dy - y * dx) + (x * dx + y * dy) * (x * dx + y * dy)
  {}

  /** The squared distance to the point at w of the chord, times the squared chord: across the chord and
      along it, where f is the foot. */
  lemma ChordDistance(x: real, y: real, dx: real, dy: real, w: real, f: real, n: real)
    requires n == dx * dx + dy * dy && x * dx + y * dy == f * n
    ensures ((w * dx - x) * (w * dx - x) + (w * dy - y) * (w * dy - y)) * n
         == (x * dy - y * dx) * (x * dy - y * dx) + ((w - f) * n) * ((w - f) * n)
  {
    var s, g := x * x + y * y, f * n;
    ChordSquares(x, y, dx, dy, w, n, s, g);
    Lagrange(x, y, dx, dy);
    AlongSquares(w, f, n, s, g);
  }

  lemma ChordSquares(x: real, y: real, dx: real, dy: real, w: real, n: real, s: real, g: real)
    requires n == dx * dx + dy * dy && s == x * x + y * y && g == x * dx + y * dy
    ensures (w * dx - x) * (w * dx - x) + (w * dy - y) * (w * dy - y) == (w * w) * n - 2.0 * (w * g) + s
  {
    assert (w * dx - x) * (w * dx - x) == (w * w) * (dx * dx) - 2.0 * (w * (x * dx)) + x * x;
    assert (w * dy - y) * (w * dy - y) == (w * w) * (dy * dy) - 2.0 * (w * (y * dy)) + y * y;
    Distribute(w * w, dx * dx, dy * dy);
    Distribute(w, x * dx, y * dy);
  }

  lemma AlongSquares(w: real, f: real, n: real, s: real, g: real)
    requires g == f * n
    ensures ((w * w) * n - 2.0 * (w * g) + s) * n == (s * n - g * g) + ((w - f) * n) * ((w - f) * n)
  {
    var a := w * n;
    assert (w - f) * n == a - g;
    assert (a - g) * (a - g) == a * a - 2.0 * (a * g) + g * g;
    assert ((w * w) * n) * n == a * a && (w * g) * n == a * g;
  }

  lemma DivideOut(m: real, k: real, n: real)
    requires n > 0.0 && m * n <= k * n
    ensures m <= k
  {
    if m > k { Opposite(n, k - m); }
  }

  /** How far p is from the point at w of the chord. */
  lemma DistanceAt(p: Point, a: Point, b: Point, w: real)
    requires !Degenerate(a, b)
    ensures var n, z := NormSq(a, b), (w - Foot(p, a, b)) * NormSq(a, b);
      n > 0.0 && NormSq(p, Lerp(a, b, w)) * n == Cross(p, a, b) * Cross(p, a, b) + z * z
  {
    hide Foot, Dot, Cross, NormSq, Lerp;
    FootTimes(p, a, b);
    var x, y := FromStart(a, p);
    var dx, dy := FromStart(a, b);
    DotScalars(p, a, b, x, y, dx, dy);
    CrossScalars(p, a, b, x, y, dx, dy);
    NormFromChord(p, a, b, w, x, y, dx, dy);
    ChordDistance(x, y, dx, dy, w, Foot(p, a, b), NormSq(a, b));
  }

  lemma DotScalars(p: Point, a: Point, b: Point, x: real, y: real, dx: real, dy: real)
    requires x == p.x - a.x && y == p.y - a.y && dx == b.x - a.x && dy == b.y - a.y
    ensures Dot(p, a, b) == x * dx + y * dy
  {}

  lemma NormFromChord(p: Point, a: Point, b: Point, w: real, x: real, y: real, dx: real, dy: real)
    requires x == p.x - a.x && y == p.y - a.y && dx == b.x - a.x && dy == b.y - a.y
    ensures NormSq(p, Lerp(a, b, w)) == (w * dx - x) * (w * dx - x) + (w * dy - y) * (w * dy - y)
  {
    var ux, uy := FromStart(p, Lerp(a, b, w));
    assert ux == w * dx - x && uy == w * dy - y;
  }

  /** Near the chord line, with the foot on the chord, is near the chord. */
  lemma LineToSegment(p: Point, a: Point, b: Point, tol: real)
    requires Within(p, a, b, tol) && !Degenerate(a, b) && 0.0 <= Foot(p, a, b) <= 1.0
    ensures NearSegment(p, a, b, tol)
  {
    hide Foot, Cross, NormSq, Lerp;
    var w := Foot(p, a, b);
    DistanceAt(p, a, b, w);
    assert (w - w) * NormSq(a, b) == 0.0;
    DivideOut(NormSq(p, Lerp(a, b, w)), tol * tol, NormSq(a, b));
  }

  /** Of two points of the chord on the same side of the foot, the nearer to the foot is the nearer to p. */
  lemma NearerToFoot(p: Point, a: Point, b: Point, v: real, w: real)
    requires !Degenerate(a, b) && (Foot(p, a, b) <= v <= w || w <= v <= Foot(p, a, b))
    ensures NormSq(p, Lerp(a, b, v)) <= NormSq(p, Lerp(a, b, w))
  {
    hide Foot, Cross, NormSq, Lerp;
    DistanceAt(p, a, b, v);
    DistanceAt(p, a, b, w);
    var n, f := NormSq(a, b), Foot(p, a, b);
    if f <= v <= w {
      Scale(n, v - f, w - f);
      SmallerSquare((v - f) * n, (w - f) * n) by { TimesNotNegative(v - f, n); }
    } else {
      Scale(n, f - v, f - w);
      assert (v - f) * n == -((f - v) * n) && (w - f) * n == -((f - w) * n);
      SmallerSquare((f - v) * n, (f - w) * n) by { TimesNotNegative(f - v, n); }
    }
    DivideOut(NormSq(p, Lerp(a, b, v)), NormSq(p, Lerp(a, b, w)), n);
  }

  lemma SmallerSquare(a: real, b: real)
    requires 0.0 <= a <= b
    ensures a * a <= b * b && (-a) * (-a) == a * a && (-b) * (-b) == b * b
  {
    SquareMonotone(a, b);
  }

  lemma LerpEnds(a: Point, b: Point)
    ensures Lerp(a, b, 0.0) == a && Lerp(a, b, 1.0) == b
  {}

  /** A point beside the chord is near it exactly if it is near its line, and a point before or beyond it
      exactly if it is near the end it is before or beyond. */
  lemma NearSegmentExact(p: Point, a: Point, b: Point, tol: real)
    requires !Degenerate(a, b)
    ensures var f := Foot(p, a, b);
      NearSegment(p, a, b, tol) <==>
        if f < 0.0 then NormSq(p, a) <= tol * tol
        else if f > 1.0 then NormSq(p, b) <= tol * tol
        else Within(p, a, b, tol)
  {
    hide Foot, NormSq, Lerp, Cross;
    var f := Foot(p, a, b);
    LerpEnds(a, b);
    if NearSegment(p, a, b, tol) {
      var w: real :| 0.0 <= w <= 1.0 && NormSq(p, Lerp(a, b, w)) <= tol * tol;
      if f < 0.0 {
        NearerToFoot(p, a, b, 0.0, w);
      } else if f > 1.0 {
        NearerToFoot(p, a, b, 1.0, w);
      } else {
        LineIsNearest(p, a, b, w, tol);
      }
    } else if 0.0 <= f <= 1.0 && Within(p, a, b, tol) {
      LineToSegment(p, a, b, tol);
    }
  }

  /** No point of the chord is nearer than its line. */
  lemma LineIsNearest(p: Point, a: Point, b: Point, w: real, tol: real)
    requires !Degenerate(a, b) && NormSq(p, Lerp(a, b, w)) <= tol * tol
    ensures Within(p, a, b, tol)
  {
    hide Foot, NormSq, Lerp, Cross;
    DistanceAt(p, a, b, w);
    var n, z := NormSq(a, b), (w - Foot(p, a, b)) * NormSq(a, b);
    assert z * z >= 0.0;
    Scale(n, NormSq(p, Lerp(a, b, w)), tol * tol);
  }

  /** A point that overshoots the chord by more than the tolerance, before or beyond it, is not near it. */
  lemma OvershootIsFar(p: Point, a: Point, b: Point, tol: real)
    requires !Degenerate(a, b) && NearSegment(p, a, b, tol)
    ensures var f, n := Foot(p, a, b), NormSq(a, b);
      && (f < 0.0 ==> f * f * n <= tol * tol)
      && (f > 1.0 ==> (f - 1.0) * (f - 1.0) * n <= tol * tol)
  {
    hide Foot, NormSq, Lerp, Cross;
    NearSegmentExact(p, a, b, tol);
    LerpEnds(a, b);
    var f, n := Foot(p, a, b), NormSq(a, b);
    DistanceAt(p, a, b, 0.0);
    DistanceAt(p, a, b, 1.0);
    if f < 0.0 {
      AlongOnly(NormSq(p, a), Cross(p, a, b), 0.0 - f, n);
    } else if f > 1.0 {
      AlongOnly(NormSq(p, b), Cross(p, a, b), 1.0 - f, n);
    }
  }

  lemma AlongOnly(d: real, h: real, e: real, n: real)
    requires n > 0.0 && d * n == h * h + (e * n) * (e * n)
    ensures e * e * n <= d && (-e) * (-e) == e * e
  {
    assert h * h >= 0.0;
    assert (e * n) * (e * n) == (e * e * n) * n;
    DivideOut(e * e * n, d, n);
  }

  lemma StartToSegment(p: Point, a: Point, b: Point, tol: real)
    requires Within(p, a, b, tol) && Degenerate(a, b)
    ensures NearSegment(p, a, b, tol)
  {
    assert Lerp(a, b, 0.0) == a;
    assert NormSq(p, a) == NormSq(a, p);
  }

  /** A piece whose chord is a point, or that stays over its chord. */
  predicate Keeps(c: Curve) { Degenerate(c.Start(), c.End()) || OverChord(c) }

  lemma SmallerTolerance(p: Point, a: Point, b: Point, r: real)
    requires 0.0 <= r <= 1.0 && Within(p, a, b, if Degenerate(a, b) then FLATTEN_TOLERANCE else r * FLATTEN_TOLERANCE)
    ensures Within(p, a, b, FLATTEN_TOLERANCE)
  {
    if !Degenerate(a, b) {
      hide Cross;
      var n := NormSq(a, b);
      SquareMonotone(r * FLATTEN_TOLERANCE, FLATTEN_TOLERANCE);
      Scale(n, (r * FLATTEN_TOLERANCE) * (r * FLATTEN_TOLERANCE), FLATTEN_TOLERANCE * FLATTEN_TOLERANCE);
    }
  }

  /** The arc of a flat piece that keeps to its chord is within the tolerance of the chord itself. */
  lemma FlatPieceIsNear(c: Curve, t: real)
    requires c.Flat() && Keeps(c) && 0.0 <= t <= 1.0
    ensures NearSegment(c.At(t), c.Start(), c.End(), FLATTEN_TOLERANCE)
  {
    hide Curve.Flat, Curve.At, Within, OverChord, Foot, Degenerate, NearSegment;
    FlatArcIsNear(c, t);
    SmallerTolerance(c.At(t), c.Start(), c.End(), c.Slack());
    if Degenerate(c.Start(), c.End()) {
      StartToSegment(c.At(t), c.Start(), c.End(), FLATTEN_TOLERANCE);
    } else {
      StaysOverExact(c);
      LineToSegment(c.At(t), c.Start(), c.End(), FLATTEN_TOLERANCE);
    }
  }

  // ---------------------------------------------------------------- the polyline

  /** The vertices the flattening leaves in the path: the start of the curve and the points it appended. */
  function Vertices(c: Curve): (vs: seq<Point>)
    ensures |vs| >= 1
  {
    [c.Start()] + Points(c, 0)
  }

  /** p is within tol of one of the segments of the polyline vs. */
  ghost predicate NearPolyline(p: Point, vs: seq<Point>, tol: real) {
    exists i: nat :: i + 1 < |vs| && NearSegment(p, vs[i], vs[i + 1], tol)
  }

  ghost predicate AllKeep(c: Curve) {
    forall i :: 0 <= i < |Leaves(c, 0)| ==> Leaves(c, 0)[i].curve.Flat() && Keeps(Leaves(c, 0)[i].curve)
  }

  /** The chord of leaf i is segment i of the polyline. */
  lemma LeafChord(c: Curve, i: nat)
    requires i < |Leaves(c, 0)|
    ensures |Vertices(c)| == |Leaves(c, 0)| + 1
    ensures Leaves(c, 0)[i].curve.Start() == Vertices(c)[i] && Leaves(c, 0)[i].curve.End() == Vertices(c)[i + 1]
  {
    hide Leaves, Points;
    PointsAreLeafEnds(c, 0);
    if i == 0 { LeavesStart(c, 0); } else { LeavesJoin(c, i); }
  }

  lemma {:induction false} LeavesStart(c: Curve, depth: nat)
    ensures Leaves(c, depth)[0].curve.Start() == c.Start()
    decreases MAX_SUBDIV_DEPTH - depth
  {
    hide Curve.Flat;
    if !(c.Flat() || depth >= MAX_SUBDIV_DEPTH) { LeavesStart(c.Left(), depth + 1); }
  }

  lemma LeavesJoin(c: Curve, i: nat)
    requires 0 < i < |Leaves(c, 0)|
    ensures Leaves(c, 0)[i].curve.Start() == Leaves(c, 0)[i - 1].curve.End()
  {
    hide Curve.At, Leaves;
    var ls := Leaves(c, 0);
    LeavesTile(c, 0);
    assert ls[i - 1].Hi() == ls[i].Lo();
    LeafIsArc(c, 0, i, 0.0);
    LeafIsArc(c, 0, i - 1, 1.0);
    Ends(ls[i].curve);
    Ends(ls[i - 1].curve);
  }

  /** Which leaf a parameter falls into. */
  lemma {:induction false} FindLeaf(ls: seq<Leaf>, t: real, n: nat) returns (i: nat)
    requires Tiles(ls) && 0 < n <= |ls| && 0.0 <= t <= ls[n - 1].Hi()
    ensures i < n && ls[i].Lo() <= t <= ls[i].Hi()
  {
    hide Leaf.Lo, Leaf.Hi;
    if t >= ls[n - 1].Lo() {
      i := n - 1;
    } else {
      assert n > 1 && ls[n - 2].Hi() == ls[n - 1].Lo();
      i := FindLeaf(ls, t, n - 1);
    }
  }

  /** Exactly those leaves whose control points satisfy the condition have all the perpendiculars from their
      arc of the curve on their segment of the polyline. */
  lemma SegmentCoversArcExact(c: Curve, i: nat)
    requires i < |Leaves(c, 0)| && !Degenerate(Leaves(c, 0)[i].curve.Start(), Leaves(c, 0)[i].curve.End())
    ensures var l := Leaves(c, 0)[i];
      OverChord(l.curve) <==>
        forall t: real :: l.Lo() <= t <= l.Hi() ==> 0.0 <= Foot(c.At(t), l.curve.Start(), l.curve.End()) <= 1.0
  {
    hide Curve.At, Foot, OverChord, Degenerate, Leaves, Leaf.Lo, Leaf.Hi;
    var l := Leaves(c, 0)[i];
    var a, b := l.curve.Start(), l.curve.End();
    StaysOverExact(l.curve);
    if OverChord(l.curve) {
      forall t: real | l.Lo() <= t <= l.Hi() ensures 0.0 <= Foot(c.At(t), a, b) <= 1.0 {
        var s := LeafParameter(l, t);
        LeafIsArc(c, 0, i, s);
      }
    } else {
      var s: real :| 0.0 <= s <= 1.0 && !(0.0 <= Foot(l.curve.At(s), a, b) <= 1.0);
      LeafIsArc(c, 0, i, s);
      LeafInside(l, s);
    }
  }

  lemma LeafParameter(l: Leaf, t: real) returns (s: real)
    requires l.Lo() <= t <= l.Hi()
    ensures 0.0 <= s <= 1.0 && Param(l.path, s) == t
  {
    s := ParamOnto(l.path, t);
  }

  lemma LeafInside(l: Leaf, s: real)
    requires 0.0 <= s <= 1.0
    ensures l.Lo() <= Param(l.path, s) <= l.Hi()
  {
    if s > 0.0 { ParamIncreases(l.path, 0.0, s); }
    if s < 1.0 { ParamIncreases(l.path, s, 1.0); }
  }

  /** A flat piece that keeps to its chord: its arc of the curve is within the tolerance of its own segment of
      the polyline, whatever the other pieces do. */
  lemma PieceIsNear(c: Curve, i: nat, t: real)
    requires i < |Leaves(c, 0)| && Leaves(c, 0)[i].curve.Flat() && Keeps(Leaves(c, 0)[i].curve)
    requires Leaves(c, 0)[i].Lo() <= t <= Leaves(c, 0)[i].Hi()
    ensures |Vertices(c)| == |Leaves(c, 0)| + 1
    ensures NearSegment(c.At(t), Vertices(c)[i], Vertices(c)[i + 1], FLATTEN_TOLERANCE)
  {
    hide Curve.At, Curve.Flat, Keeps, NearSegment, Leaves, Vertices;
    var l := Leaves(c, 0)[i];
    var s := LeafParameter(l, t);
    LeafIsArc(c, 0, i, s);
    FlatPieceIsNear(l.curve, s);
    LeafChord(c, i);
  }

  /** The arc of a flat piece is near its own segment exactly at those points that are beside it, or near the
      end that they are before or beyond. */
  lemma ArcIsNearExact(c: Curve, i: nat, t: real)
    requires i < |Leaves(c, 0)| && Leaves(c, 0)[i].curve.Flat()
    requires !Degenerate(Leaves(c, 0)[i].curve.Start(), Leaves(c, 0)[i].curve.End())
    requires Leaves(c, 0)[i].Lo() <= t <= Leaves(c, 0)[i].Hi()
    ensures var p, a, b := c.At(t), Leaves(c, 0)[i].curve.Start(), Leaves(c, 0)[i].curve.End();
      NearSegment(p, a, b, FLATTEN_TOLERANCE) <==>
        && (Foot(p, a, b) < 0.0 ==> NormSq(p, a) <= FLATTEN_TOLERANCE * FLATTEN_TOLERANCE)
        && (Foot(p, a, b) > 1.0 ==> NormSq(p, b) <= FLATTEN_TOLERANCE * FLATTEN_TOLERANCE)
  {
    hide Curve.At, Curve.Flat, Foot, NormSq, NearSegment, Leaves, Within, Degenerate;
    var l := Leaves(c, 0)[i];
    var s := LeafParameter(l, t);
    LeafIsArc(c, 0, i, s);
    FlatArcIsNear(l.curve, s);
    SmallerTolerance(c.At(t), l.curve.Start(), l.curve.End(), l.curve.Slack());
    NearSegmentExact(c.At(t), l.curve.Start(), l.curve.End(), FLATTEN_TOLERANCE);
  }

  /** If every piece is flat and keeps to its chord, the whole curve is within the tolerance of the polyline. */
  lemma PolylineIsNear(c: Curve, t: real)
    requires AllKeep(c) && 0.0 <= t <= 1.0
    ensures NearPolyline(c.At(t), Vertices(c), FLATTEN_TOLERANCE)
  {
    hide Curve.At, Curve.Flat, Keeps, NearSegment, Leaves, Vertices;
    var ls := Leaves(c, 0);
    LeavesTile(c, 0);
    var i := FindLeaf(ls, t, |ls|);
    PieceIsNear(c, i, t);
  }

  // ---------------------------------------------------------------- curves that do not turn back

  function Leg(a: Point, b: Point): Point { Point(b.x - a.x, b.y - a.y) }

  function Inner2(u: Point, v: Point): real { u.x * v.x + u.y * v.y }

  /** No two legs of the control polygon point away from each other. */
  predicate GoesForward(c: Curve) {
    match c
    case Cubic(a, p, q, b) => Inner2(Leg(a, p), Leg(p, q)) >= 0.0 && Inner2(Leg(p, q), Leg(q, b)) >= 0.0
      && Inner2(Leg(a, p), Leg(q, b)) >= 0.0
    case Quad(a, p, b) => Inner2(Leg(a, p), Leg(p, b)) >= 0.0
  }

  /** k times (i u + j v + l w). */
  function Mix(k: real, i: real, u: Point, j: real, v: Point, l: real, w: Point): Point {
    Point(k * (i * u.x + j * v.x + l * w.x), k * (i * u.y + j * v.y + l * w.y))
  }

  predicate Acute(u: Point, v: Point, w: Point) { Inner2(u, v) >= 0.0 && Inner2(v, w) >= 0.0 && Inner2(u, w) >= 0.0 }

  /** Two sums of the same three vectors, none of which point away from each other. */
  lemma MixesForward(u: Point, v: Point, w: Point, k: real, i: real, j: real, l: real, k': real, i': real, j': real,
                     l': real)
    requires Acute(u, v, w) && k >= 0.0 && i >= 0.0 && j >= 0.0 && l >= 0.0 && k' >= 0.0 && i' >= 0.0 && j' >= 0.0
      && l' >= 0.0
    ensures Inner2(Mix(k, i, u, j, v, l, w), Mix(k', i', u, j', v, l', w)) >= 0.0
  {
    hide Inner2, Acute, Mix;
    var y := Mix(1.0, i', u, j', v, l', w);
    SelfInner(u); SelfInner(v); SelfInner(w);
    assert Inner2(u, v) >= 0.0 && Inner2(v, w) >= 0.0 && Inner2(u, w) >= 0.0 by { AcutePairs(u, v, w); }
    MixInner(u, i', u, j', v, l', w); MixInner(v, i', u, j', v, l', w); MixInner(w, i', u, j', v, l', w);
    Symmetric(u, v); Symmetric(v, w); Symmetric(u, w);
    SumForward(i', j', l', Inner2(u, u), Inner2(u, v), Inner2(u, w));
    SumForward(i', j', l', Inner2(v, u), Inner2(v, v), Inner2(v, w));
    SumForward(i', j', l', Inner2(w, u), Inner2(w, v), Inner2(w, w));
    MixInner(y, i, u, j, v, l, w);
    Symmetric(y, u); Symmetric(y, v); Symmetric(y, w);
    SumForward(i, j, l, Inner2(y, u), Inner2(y, v), Inner2(y, w));
    var x := Mix(1.0, i, u, j, v, l, w);
    Symmetric(y, x);
    Scaled(k, i, u, j, v, l, w, k', i', j', l');
    TimesNotNegative(k, k');
    TimesNotNegative(k * k', Inner2(x, y));
  }

  lemma AcutePairs(u: Point, v: Point, w: Point)
    requires Acute(u, v, w)
    ensures Inner2(u, v) >= 0.0 && Inner2(v, w) >= 0.0 && Inner2(u, w) >= 0.0
  {}

  lemma SelfInner(u: Point)
    ensures Inner2(u, u) >= 0.0
  {
    assert u.x * u.x >= 0.0 && u.y * u.y >= 0.0;
  }

  lemma Symmetric(u: Point, v: Point)
    ensures Inner2(u, v) == Inner2(v, u)
  {}

  lemma SumForward(i: real, j: real, l: real, a: real, b: real, c: real)
    requires i >= 0.0 && j >= 0.0 && l >= 0.0 && a >= 0.0 && b >= 0.0 && c >= 0.0
    ensures i * a + j * b + l * c >= 0.0
  {
    TimesNotNegative(i, a); TimesNotNegative(j, b); TimesNotNegative(l, c);
  }

  lemma MixInner(z: Point, i: real, u: Point, j: real, v: Point, l: real, w: Point)
    ensures Inner2(z, Mix(1.0, i, u, j, v, l, w)) == i * Inner2(z, u) + j * Inner2(z, v) + l * Inner2(z, w)
  {
    var x, y := i * u.x + j * v.x + l * w.x, i * u.y + j * v.y + l * w.y;
    Project(i, j, l, u.x, v.x, w.x, x, z.x);
    Project(i, j, l, u.y, v.y, w.y, y, z.y);
    Distribute(i, u.x * z.x, u.y * z.y); Distribute(j, v.x * z.x, v.y * z.y); Distribute(l, w.x * z.x, w.y * z.y);
  }

  lemma Scaled(k: real, i: real, u: Point, j: real, v: Point, l: real, w: Point, k': real, i': real, j': real, l': real)
    ensures Inner2(Mix(k, i, u, j, v, l, w), Mix(k', i', u, j', v, l', w))
      == (k * k') * Inner2(Mix(1.0, i, u, j, v, l, w), Mix(1.0, i', u, j', v, l', w))
  {
    var x, y := i * u.x + j * v.x + l * w.x, i * u.y + j * v.y + l * w.y;
    var x', y' := i' * u.x + j' * v.x + l' * w.x, i' * u.y + j' * v.y + l' * w.y;
    assert (k * x) * (k' * x') == (k * k') * (x * x') && (k * y) * (k' * y') == (k * k') * (y * y');
    Distribute(k * k', x * x', y * y');
  }

  lemma LeftLegs(a: Point, p: Point, q: Point, b: Point)
    ensures var l := Cubic(a, p, q, b).Left();
      var u, v, w := Leg(a, p), Leg(p, q), Leg(q, b);
      && Leg(l.p0, l.p1) == Mix(0.5, 1.0, u, 0.0, v, 0.0, w)
      && Leg(l.p1, l.p2) == Mix(0.25, 1.0, u, 1.0, v, 0.0, w)
      && Leg(l.p2, l.p3) == Mix(0.125, 1.0, u, 2.0, v, 1.0, w)
  {}

  lemma RightLegs(a: Point, p: Point, q: Point, b: Point)
    ensures var r := Cubic(a, p, q, b).Right();
      var u, v, w := Leg(a, p), Leg(p, q), Leg(q, b);
      && Leg(r.p0, r.p1) == Mix(0.125, 1.0, u, 2.0, v, 1.0, w)
      && Leg(r.p1, r.p2) == Mix(0.25, 0.0, u, 1.0, v, 1.0, w)
      && Leg(r.p2, r.p3) == Mix(0.5, 0.0, u, 0.0, v, 1.0, w)
  {}

  lemma QuadLegs(a: Point, p: Point, b: Point)
    ensures var c := Quad(a, p, b);
      var u, v := Leg(a, p), Leg(p, b);
      && Leg(c.Left().q0, c.Left().q1) == Mix(0.5, 1.0, u, 0.0, v, 0.0, v)
      && Leg(c.Left().q1, c.Left().q2) == Mix(0.25, 1.0, u, 1.0, v, 0.0, v)
      && Leg(c.Right().q0, c.Right().q1) == Mix(0.25, 1.0, u, 1.0, v, 0.0, v)
      && Leg(c.Right().q1, c.Right().q2) == Mix(0.5, 0.0, u, 1.0, v, 0.0, v)
  {}

  /** Halving keeps a control polygon from turning back. */
  lemma HalvesGoForward(c: Curve)
    requires GoesForward(c)
    ensures GoesForward(c.Left()) && GoesForward(c.Right())
  {
    hide Inner2, Mix, Leg, Mid;
    match c {
      case Cubic(a, p, q, b) =>
        var u, v, w := Leg(a, p), Leg(p, q), Leg(q, b);
        LeftLegs(a, p, q, b);
        MixesForward(u, v, w, 0.5, 1.0, 0.0, 0.0, 0.25, 1.0, 1.0, 0.0);
        MixesForward(u, v, w, 0.25, 1.0, 1.0, 0.0, 0.125, 1.0, 2.0, 1.0);
        MixesForward(u, v, w, 0.5, 1.0, 0.0, 0.0, 0.125, 1.0, 2.0, 1.0);
        RightLegs(a, p, q, b);
        MixesForward(u, v, w, 0.125, 1.0, 2.0, 1.0, 0.25, 0.0, 1.0, 1.0);
        MixesForward(u, v, w, 0.25, 0.0, 1.0, 1.0, 0.5, 0.0, 0.0, 1.0);
        MixesForward(u, v, w, 0.125, 1.0, 2.0, 1.0, 0.5, 0.0, 0.0, 1.0);
      case Quad(a, p, b) =>
        var u, v := Leg(a, p), Leg(p, b);
        SelfInner(v);
        QuadLegs(a, p, b);
        MixesForward(u, v, v, 0.5, 1.0, 0.0, 0.0, 0.25, 1.0, 1.0, 0.0);
        MixesForward(u, v, v, 0.25, 1.0, 1.0, 0.0, 0.5, 0.0, 1.0, 0.0);
    }
  }

  /** A partial sum of the legs, seen along the whole. */
  lemma FootOfLegs(a: Point, p: Point, q: Point, b: Point)
    requires !Degenerate(a, b) && Acute(Leg(a, p), Leg(p, q), Leg(q, b))
    ensures 0.0 <= Foot(p, a, b) <= 1.0 && 0.0 <= Foot(q, a, b) <= 1.0
  {
    hide Inner2, Mix, Foot, NormSq;
    var u, v, w := Leg(a, p), Leg(p, q), Leg(q, b);
    FootTimes(p, a, b); FootTimes(q, a, b);
    var n := NormSq(a, b);
    MixesForward(u, v, w, 1.0, 1.0, 0.0, 0.0, 1.0, 1.0, 1.0, 1.0);
    MixesForward(u, v, w, 1.0, 0.0, 1.0, 1.0, 1.0, 1.0, 1.0, 1.0);
    MixesForward(u, v, w, 1.0, 1.0, 1.0, 0.0, 1.0, 1.0, 1.0, 1.0);
    MixesForward(u, v, w, 1.0, 0.0, 0.0, 1.0, 1.0, 1.0, 1.0, 1.0);
    DotOfLegs(a, p, q, b);
    QuotientBetween(Foot(p, a, b), n, Dot(p, a, b));
    QuotientBetween(Foot(q, a, b), n, Dot(q, a, b));
  }

  lemma DotOfLegs(a: Point, p: Point, q: Point, b: Point)
    ensures var u, v, w := Leg(a, p), Leg(p, q), Leg(q, b);
      var all := Mix(1.0, 1.0, u, 1.0, v, 1.0, w);
      && Inner2(Mix(1.0, 1.0, u, 0.0, v, 0.0, w), all) == Dot(p, a, b)
      && Inner2(Mix(1.0, 0.0, u, 1.0, v, 1.0, w), all) == NormSq(a, b) - Dot(p, a, b)
      && Inner2(Mix(1.0, 1.0, u, 1.0, v, 0.0, w), all) == Dot(q, a, b)
      && Inner2(Mix(1.0, 0.0, u, 0.0, v, 1.0, w), all) == NormSq(a, b) - Dot(q, a, b)
  {
    var u, v, w := Leg(a, p), Leg(p, q), Leg(q, b);
    assert Mix(1.0, 1.0, u, 1.0, v, 1.0, w) == Leg(a, b);
    assert Mix(1.0, 1.0, u, 0.0, v, 0.0, w) == Leg(a, p) && Mix(1.0, 0.0, u, 1.0, v, 1.0, w) == Leg(p, b);
    assert Mix(1.0, 1.0, u, 1.0, v, 0.0, w) == Leg(a, q) && Mix(1.0, 0.0, u, 0.0, v, 1.0, w) == Leg(q, b);
    RestOfChord(a, p, b);
    RestOfChord(a, q, b);
  }

  lemma RestOfChord(a: Point, p: Point, b: Point)
    ensures Inner2(Leg(p, b), Leg(a, b)) == NormSq(a, b) - Dot(p, a, b)
  {
    var dx, dy := b.x - a.x, b.y - a.y;
    assert (b.x - p.x) * dx == dx * dx - (p.x - a.x) * dx;
    assert (b.y - p.y) * dy == dy * dy - (p.y - a.y) * dy;
  }

  lemma QuotientBetween(f: real, n: real, d: real)
    requires n > 0.0 && f * n == d && 0.0 <= d <= n
    ensures 0.0 <= f <= 1.0
  {
    if f < 0.0 { Opposite(n, f); }
    if f > 1.0 { Opposite(n, 1.0 - f); }
  }

  lemma ForwardKeeps(c: Curve)
    requires GoesForward(c)
    ensures Keeps(c)
  {
    hide Foot, Inner2, Leg, Degenerate;
    if !Degenerate(c.Start(), c.End()) {
      match c {
        case Cubic(a, p, q, b) => FootOfLegs(a, p, q, b);
        case Quad(a, p, b) =>
          assert Acute(Leg(a, p), Leg(p, p), Leg(p, b)) by { NoLeg(a, p, b); }
          FootOfLegs(a, p, p, b);
      }
    }
  }

  lemma NoLeg(a: Point, p: Point, b: Point)
    ensures Inner2(Leg(a, p), Leg(p, p)) == 0.0 && Inner2(Leg(p, p), Leg(p, b)) == 0.0
  {}

  lemma {:induction false} LeavesGoForward(c: Curve, depth: nat)
    requires GoesForward(c)
    ensures forall i :: 0 <= i < |Leaves(c, depth)| ==> GoesForward(Leaves(c, depth)[i].curve)
    decreases MAX_SUBDIV_DEPTH - depth
  {
    hide Curve.Flat, Curve.Left, Curve.Right, GoesForward;
    if !(c.Flat() || depth >= MAX_SUBDIV_DEPTH) {
      HalvesGoForward(c);
      LeavesGoForward(c.Left(), depth + 1);
      LeavesGoForward(c.Right(), depth + 1);
    }
  }

  /** A curve of the view box whose control polygon does not turn back: all of it is within the tolerance of
      the polyline. */
  lemma ForwardCurveIsNear(c: Curve, t: real)
    requires CurveInViewBox(c) && GoesForward(c) && 0.0 <= t <= 1.0
    ensures NearPolyline(c.At(t), Vertices(c), FLATTEN_TOLERANCE)
  {
    hide Curve.At, Curve.Flat, Keeps, GoesForward, NearPolyline, Leaves, CurveInViewBox;
    ViewBoxLeaves(c);
    LeavesGoForward(c, 0);
    forall i | 0 <= i < |Leaves(c, 0)| ensures Keeps(Leaves(c, 0)[i].curve) { ForwardKeeps(Leaves(c, 0)[i].curve); }
    PolylineIsNear(c, t);
  }

  // ---------------------------------------------------------------- a curve that does turn back

  const BACK := Cubic(Point(0.0, 0.0), Point(24.0, 0.0), Point(24.0, 0.0), Point(0.5, 0.0))

  /** Without that the promise fails: this curve of the view box passes the flatness test at once, and its
      middle is more than 17.5 units from the only segment that is drawn. */
  lemma FlatCurveCanOvershoot()
    ensures CurveInViewBox(BACK) && BACK.Flat() && Points(BACK, 0) == [Point(0.5, 0.0)]
    ensures BACK.At(0.5) == Point(18.0625, 0.0)
    ensures !Keeps(BACK)
    ensures !NearPolyline(BACK.At(0.5), Vertices(BACK), 17.5)
  {
    hide Curve.At, NearSegment, Points, Keeps, Curve.Flat;
    BackIsFlat();
    BackMiddle();
    BackTurns();
    var a, b := Point(0.0, 0.0), Point(0.5, 0.0);
    assert Vertices(BACK) == [a, b];
    FarFromSegment(a, b);
  }

  lemma BackIsFlat()
    ensures BACK.Flat() && Points(BACK, 0) == [Point(0.5, 0.0)]
  {
    assert BACK.Flat();
    hide Curve.Flat;
  }

  lemma BackMiddle()
    ensures BACK.At(0.5) == Point(18.0625, 0.0)
  {
    hide Curve.At;
    AtBernstein(BACK, 0.5);
  }

  lemma BackTurns()
    ensures !Keeps(BACK)
  {
    var a, p, b := Point(0.0, 0.0), Point(24.0, 0.0), Point(0.5, 0.0);
    assert NormSq(a, b) == 0.25 && Dot(p, a, b) == 12.0;
    assert !Degenerate(a, b) && Foot(p, a, b) == 48.0;
    hide Foot, Degenerate;
    assert BACK == Cubic(a, p, p, b);
  }

  lemma FarFromSegment(a: Point, b: Point)
    requires a == Point(0.0, 0.0) && b == Point(0.5, 0.0)
    ensures !NearSegment(Point(18.0625, 0.0), a, b, 17.5)
  {
    forall w: real | 0.0 <= w <= 1.0 ensures NormSq(Point(18.0625, 0.0), Lerp(a, b, w)) > 17.5 * 17.5 {
      SquareMonotone(17.5625, 18.0625 - w * 0.5);
    }
  }
}
