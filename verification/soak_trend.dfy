/** The straight-line trend that judges a soak run: ordinary least squares over exact numbers. */
module SoakTrend {
  datatype Point = Point(x: real, y: real)
  datatype Trend = Trend(slope: real, r2: real)

  /** Products and quotients under a name, so that the proofs about sums stay linear. */
  function Mul(p: real, q: real): real { p * q }
  function Div(p: real, q: real): real requires q != 0.0 { p / q }
  function Square(p: real): real { Mul(p, p) }

  function SumX(ps: seq<Point>): real { if ps == [] then 0.0 else SumX(ps[..|ps| - 1]) + ps[|ps| - 1].x }
  function SumY(ps: seq<Point>): real { if ps == [] then 0.0 else SumY(ps[..|ps| - 1]) + ps[|ps| - 1].y }

  /** Sums of products of the distances from a center. */
  function Sxx(ps: seq<Point>, mx: real): real {
    if ps == [] then 0.0 else Sxx(ps[..|ps| - 1], mx) + Square(ps[|ps| - 1].x - mx)
  }
  function Sxy(ps: seq<Point>, mx: real, my: real): real {
    if ps == [] then 0.0 else Sxy(ps[..|ps| - 1], mx, my) + Mul(ps[|ps| - 1].x - mx, ps[|ps| - 1].y - my)
  }
  function Syy(ps: seq<Point>, my: real): real {
    if ps == [] then 0.0 else Syy(ps[..|ps| - 1], my) + Square(ps[|ps| - 1].y - my)
  }

  function MeanX(ps: seq<Point>): real requires ps != [] { Div(SumX(ps), |ps| as real) }
  function MeanY(ps: seq<Point>): real requires ps != [] { Div(SumY(ps), |ps| as real) }

  lemma NonZero(p: real, q: real)
    requires p != 0.0 && q != 0.0
    ensures Mul(p, q) != 0.0
  {
  }

  function Ols(ps: seq<Point>): Trend {
    if |ps| < 3 then Trend(0.0, 0.0)
    else
      var mx, my := MeanX(ps), MeanY(ps);
      var sxx := Sxx(ps, mx);
      if sxx == 0.0 then Trend(0.0, 0.0)
      else
        var sxy, syy := Sxy(ps, mx, my), Syy(ps, my);
        Trend(Div(sxy, sxx), if syy == 0.0 then 0.0 else (NonZero(sxx, syy); Div(Square(sxy), Mul(sxx, syy))))
  }

  /** What the line a + b * x leaves unexplained. */
  function Residual(ps: seq<Point>, a: real, b: real): real {
    if ps == [] then 0.0
    else Residual(ps[..|ps| - 1], a, b) + Square(ps[|ps| - 1].y - (a + Mul(b, ps[|ps| - 1].x)))
  }

  // ---------------------------------------------------------------- the residual, centred

  /** A residual in terms of the sums about a centre. */
  function Expanded(n: real, sxx: real, sxy: real, syy: real, dx: real, dy: real, b: real, c: real): real {
    syy - 2.0 * Mul(b, sxy) + Mul(Square(b), sxx) + Mul(Square(c), n) - 2.0 * Mul(c, dy) + 2.0 * Mul(Mul(b, c), dx)
  }

  lemma OnePoint(x: real, y: real, mx: real, my: real, a: real, b: real)
    ensures var c, u, v := a + Mul(b, mx) - my, x - mx, y - my;
      Square(y - (a + Mul(b, x))) == Expanded(1.0, Square(u), Mul(u, v), Square(v), u, v, b, c)
  {
    var c, u, v := a + Mul(b, mx) - my, x - mx, y - my;
    assert Mul(b, u) == Mul(b, x) - Mul(b, mx);
    assert y - (a + Mul(b, x)) == v - Mul(b, u) - c;
    SquareOfDifference(v, Mul(b, u), c);
    Reordered(b, u, v, c);
    One(Square(c));
  }

  lemma Reordered(b: real, u: real, v: real, c: real)
    ensures Square(Mul(b, u)) == Mul(Square(b), Square(u))
    ensures Mul(v, Mul(b, u)) == Mul(b, Mul(u, v))
    ensures Mul(Mul(b, u), c) == Mul(Mul(b, c), u)
  {
    assert (b * u) * (b * u) == (b * b) * (u * u);
    assert v * (b * u) == b * (u * v);
    assert (b * u) * c == (b * c) * u;
  }

  lemma SquareOfDifference(p: real, q: real, c: real)
    ensures Square(p - q - c) == Square(p) - 2.0 * Mul(p, q) + Square(q) + Square(c) - 2.0 * Mul(c, p) + 2.0 * Mul(q, c)
  {
    assert (p - q - c) * (p - q - c) == p * p - 2.0 * (p * q) + q * q + c * c - 2.0 * (c * p) + 2.0 * (q * c);
  }

  lemma Distribute(k: real, x: real, y: real)
    ensures Mul(k, x + y) == Mul(k, x) + Mul(k, y)
  {
  }

  lemma MorePoints(n: real, sxx: real, sxy: real, syy: real, dx: real, dy: real, b: real, c: real, uu: real, uv: real,
                   vv: real, u: real, v: real)
    ensures Expanded(n + 1.0, sxx + uu, sxy + uv, syy + vv, dx + u, dy + v, b, c) ==
      Expanded(n, sxx, sxy, syy, dx, dy, b, c) + Expanded(1.0, uu, uv, vv, u, v, b, c)
  {
    hide Mul, Square;
    Distribute(b, sxy, uv);
    Distribute(Square(b), sxx, uu);
    Distribute(Square(c), n, 1.0);
    Distribute(c, dy, v);
    Distribute(Mul(b, c), dx, u);
  }

  lemma NoPoints(b: real, c: real, m: real)
    ensures Expanded(0.0, 0.0, 0.0, 0.0, 0.0, 0.0, b, c) == 0.0 && Mul(m, 0.0) == 0.0
  {
  }

  lemma One(m: real)
    ensures Mul(m, 1.0) == m
  {
  }

  lemma {:induction false} Centred(ps: seq<Point>, mx: real, my: real, a: real, b: real)
    ensures Residual(ps, a, b) == Expanded(|ps| as real, Sxx(ps, mx), Sxy(ps, mx, my), Syy(ps, my),
      SumX(ps) - Mul(mx, |ps| as real), SumY(ps) - Mul(my, |ps| as real), b, a + Mul(b, mx) - my)
  {
    hide Mul, Square, Expanded;
    var c := a + Mul(b, mx) - my;
    if ps == [] {
      NoPoints(b, c, mx);
      NoPoints(b, c, my);
    } else {
      var init, p := ps[..|ps| - 1], ps[|ps| - 1];
      var n, u, v := |init| as real, p.x - mx, p.y - my;
      Centred(init, mx, my, a, b);
      OnePoint(p.x, p.y, mx, my, a, b);
      Distribute(mx, n, 1.0);
      Distribute(my, n, 1.0);
      One(mx);
      One(my);
      MorePoints(n, Sxx(init, mx), Sxy(init, mx, my), Syy(init, my), SumX(init) - Mul(mx, n), SumY(init) - Mul(my, n),
        b, c,
        Square(u), Mul(u, v), Square(v), u, v);
    }
  }

  lemma SquareSign(x: real)
    ensures Square(x) >= 0.0 && (Square(x) == 0.0 <==> x == 0.0)
  {
    hide Mul;
    Signs(x);
    if x < 0.0 { Signs(-x); }
  }

  lemma Signs(x: real)
    ensures x > 0.0 ==> Mul(x, x) > 0.0
    ensures x == 0.0 ==> Mul(x, x) == 0.0
    ensures Mul(-x, -x) == Mul(x, x)
  {
    if x > 0.0 { Positive(x, x); }
  }

  lemma Positive(p: real, q: real)
    requires p > 0.0 && q > 0.0
    ensures Mul(p, q) > 0.0
  {
  }

  lemma {:induction false} SumsOfSquares(ps: seq<Point>, mx: real, my: real)
    ensures Sxx(ps, mx) >= 0.0 && Syy(ps, my) >= 0.0
    ensures Sxx(ps, mx) == 0.0 <==> forall k :: 0 <= k < |ps| ==> ps[k].x == mx
    ensures Syy(ps, my) == 0.0 <==> forall k :: 0 <= k < |ps| ==> ps[k].y == my
  {
    if ps != [] {
      hide Mul, Square;
      var init, p := ps[..|ps| - 1], ps[|ps| - 1];
      SumsOfSquares(init, mx, my);
      SquareSign(p.x - mx);
      SquareSign(p.y - my);
      assert forall k :: 0 <= k < |init| ==> ps[k] == init[k];
    }
  }

  lemma {:induction false} ResidualSign(ps: seq<Point>, a: real, b: real)
    ensures Residual(ps, a, b) >= 0.0
  {
    if ps != [] {
      hide Mul, Square;
      ResidualSign(ps[..|ps| - 1], a, b);
      SquareSign(ps[|ps| - 1].y - (a + Mul(b, ps[|ps| - 1].x)));
    }
  }

  // ---------------------------------------------------------------- what the trend means

  ghost predicate SameX(ps: seq<Point>) { forall i, k :: 0 <= i < |ps| && 0 <= k < |ps| ==> ps[i].x == ps[k].x }
  ghost predicate SameY(ps: seq<Point>) { forall i, k :: 0 <= i < |ps| && 0 <= k < |ps| ==> ps[i].y == ps[k].y }

  /** The line through the centre of the points with this slope. */
  function Intercept(ps: seq<Point>, slope: real): real
    requires ps != []
  {
    MeanY(ps) - Mul(slope, MeanX(ps))
  }

  lemma {:induction false} SumOfSameX(ps: seq<Point>, x: real)
    requires forall p :: p in ps ==> p.x == x
    ensures SumX(ps) == Mul(x, |ps| as real)
  {
    hide Mul, Expanded, Square;
    if ps == [] {
      NoPoints(0.0, 0.0, x);
    } else {
      var n := |ps[..|ps| - 1]| as real;
      SumOfSameX(ps[..|ps| - 1], x);
      Distribute(x, n, 1.0);
      One(x);
      assert |ps| as real == n + 1.0;
    }
  }

  lemma {:induction false} SumOfSameY(ps: seq<Point>, y: real)
    requires forall p :: p in ps ==> p.y == y
    ensures SumY(ps) == Mul(y, |ps| as real)
  {
    hide Mul, Expanded, Square;
    if ps == [] {
      NoPoints(0.0, 0.0, y);
    } else {
      var n := |ps[..|ps| - 1]| as real;
      SumOfSameY(ps[..|ps| - 1], y);
      Distribute(y, n, 1.0);
      One(y);
      assert |ps| as real == n + 1.0;
    }
  }

  lemma Quotient(s: real, n: real)
    requires n != 0.0
    ensures Mul(Div(s, n), n) == s
  {
  }

  lemma QuotientIsUnique(p: real, s: real, n: real)
    requires n != 0.0 && Mul(p, n) == s
    ensures p == Div(s, n)
  {
    Quotient(s, n);
    assert (p - Div(s, n)) * n == 0.0;
  }

  /** The sums of squares vanish exactly when there is nothing to explain with, or nothing to explain. */
  lemma VanishingSums(ps: seq<Point>)
    requires ps != []
    ensures Sxx(ps, MeanX(ps)) >= 0.0 && Syy(ps, MeanY(ps)) >= 0.0
    ensures Sxx(ps, MeanX(ps)) == 0.0 <==> SameX(ps)
    ensures Syy(ps, MeanY(ps)) == 0.0 <==> SameY(ps)
  {
    hide Mul, Div, Square;
    SumsOfSquares(ps, MeanX(ps), MeanY(ps));
    assert forall p :: p in ps ==> exists k :: 0 <= k < |ps| && ps[k] == p;
    if SameX(ps) {
      SumOfSameX(ps, ps[0].x);
      QuotientIsUnique(ps[0].x, SumX(ps), |ps| as real);
    }
    if SameY(ps) {
      SumOfSameY(ps, ps[0].y);
      QuotientIsUnique(ps[0].y, SumY(ps), |ps| as real);
    }
  }

  /** The residual of any line: that of the trend, and what its slope and its height add. */
  lemma ResidualOf(ps: seq<Point>, a: real, b: real)
    requires ps != []
    ensures var mx, my := MeanX(ps), MeanY(ps);
      Residual(ps, a, b) ==
        Syy(ps, my) - 2.0 * Mul(b, Sxy(ps, mx, my)) + Mul(Square(b), Sxx(ps, mx))
          + Mul(Square(a + Mul(b, mx) - my), |ps| as real)
  {
    hide Residual, Sxx, Sxy, Syy, SumX, SumY, Mul, Div, Square;
    var mx, my := MeanX(ps), MeanY(ps);
    Centred(ps, mx, my, a, b);
    Quotient(SumX(ps), |ps| as real);
    Quotient(SumY(ps), |ps| as real);
    NoPoints(b, a, a + Mul(b, mx) - my);
    NoPoints(b, a, Mul(b, a + Mul(b, mx) - my));
  }

  lemma CompleteSquare(sxx: real, sxy: real, b: real)
    requires sxx > 0.0
    ensures var s := Div(sxy, sxx); Mul(Square(b), sxx) - 2.0 * Mul(b, sxy) == Mul(Square(b - s), sxx) - Mul(s, sxy)
  {
    var s := Div(sxy, sxx);
    Quotient(sxy, sxx);
    assert s * sxx == sxy;
    assert (b - s) * (b - s) == b * b - 2.0 * (b * s) + s * s;
    assert (b * s) * sxx == b * sxy;
    assert (s * s) * sxx == s * sxy;
    Spread(b * b, b * s, s * s, sxx);
  }

  lemma Spread(p: real, q: real, r: real, w: real)
    ensures (p - 2.0 * q + r) * w == p * w - 2.0 * (q * w) + r * w
  {
  }

  lemma Weighted(x: real, w: real)
    requires w > 0.0
    ensures Mul(Square(x), w) >= 0.0 && (Mul(Square(x), w) == 0.0 <==> x == 0.0)
  {
    SquareSign(x);
    if Square(x) > 0.0 { assert Square(x) * w > 0.0; }
  }

  /** Of all straight lines the trend leaves the least unexplained, and it is the only one to do so. */
  lemma SlopeIsLeastSquares(ps: seq<Point>, a: real, b: real)
    requires |ps| >= 3 && !SameX(ps)
    ensures var s := Ols(ps).slope;
      var least := Residual(ps, Intercept(ps, s), s);
      && least <= Residual(ps, a, b)
      && (Residual(ps, a, b) == least <==> b == s && a == Intercept(ps, s))
  {
    hide Residual, Sxx, Sxy, Syy, SumX, SumY, MeanX, MeanY, SameX, SameY, Mul, Div, Square;
    VanishingSums(ps);
    var mx, my := MeanX(ps), MeanY(ps);
    var sxx, sxy := Sxx(ps, mx), Sxy(ps, mx, my);
    var s := Div(sxy, sxx);
    ResidualOf(ps, a, b);
    ResidualOf(ps, Intercept(ps, s), s);
    CompleteSquare(sxx, sxy, b);
    CompleteSquare(sxx, sxy, s);
    Weighted(b - s, sxx);
    Weighted(s - s, sxx);
    Weighted(a + Mul(b, mx) - my, |ps| as real);
    Weighted(Intercept(ps, s) + Mul(s, mx) - my, |ps| as real);
  }

  /** r2 is the part of the spread of y that the trend explains; it lies between nothing and all. */
  lemma R2IsExplainedPart(ps: seq<Point>)
    requires |ps| >= 3 && !SameX(ps) && !SameY(ps)
    ensures var t := Ols(ps);
      && Syy(ps, MeanY(ps)) > 0.0
      && t.r2 == 1.0 - Div(Residual(ps, Intercept(ps, t.slope), t.slope), Syy(ps, MeanY(ps)))
      && 0.0 <= t.r2 <= 1.0
  {
    hide Residual, Sxx, Sxy, Syy, SumX, SumY, MeanX, MeanY, SameX, SameY, Mul, Div, Square;
    VanishingSums(ps);
    var mx, my := MeanX(ps), MeanY(ps);
    var sxx, sxy, syy := Sxx(ps, mx), Sxy(ps, mx, my), Syy(ps, my);
    var s := Div(sxy, sxx);
    ResidualOf(ps, Intercept(ps, s), s);
    CompleteSquare(sxx, sxy, s);
    Weighted(s - s, sxx);
    Weighted(Intercept(ps, s) + Mul(s, mx) - my, |ps| as real);
    var left := Residual(ps, Intercept(ps, s), s);
    assert left == syy - Mul(s, sxy);
    ResidualSign(ps, Intercept(ps, s), s);
    NonZero(sxx, syy);
    Explained(sxx, sxy, syy, left);
  }

  lemma Explained(sxx: real, sxy: real, syy: real, left: real)
    requires sxx > 0.0 && syy > 0.0 && left >= 0.0 && left == syy - Mul(Div(sxy, sxx), sxy)
    ensures Mul(sxx, syy) != 0.0 && Div(Square(sxy), Mul(sxx, syy)) == 1.0 - Div(left, syy)
    ensures 0.0 <= 1.0 - Div(left, syy) <= 1.0
  {
    var s, p := Div(sxy, sxx), 1.0 - Div(left, syy);
    NonZero(sxx, syy);
    Quotient(sxy, sxx);
    Quotient(left, syy);
    assert p * syy == syy - left == s * sxy;
    assert sxx * (s * sxy) == sxy * sxy by { assert sxx * (s * sxy) == (s * sxx) * sxy; }
    assert p * (sxx * syy) == sxy * sxy by { assert p * (sxx * syy) == sxx * (p * syy); }
    QuotientIsUnique(p, Square(sxy), Mul(sxx, syy));
    SquareSign(sxy);
    NotNegative(p, sxx * syy);
    NotNegative(Div(left, syy), syy);
  }

  lemma NotNegative(q: real, d: real)
    requires q * d >= 0.0 && d > 0.0
    ensures q >= 0.0
  {
  }

  /** No trend is reported when no line can be drawn, and a flat one when there is nothing to explain. */
  lemma FlatTrend(ps: seq<Point>)
    ensures |ps| < 3 || SameX(ps) || SameY(ps) ==> Ols(ps) == Trend(0.0, 0.0)
  {
    if |ps| >= 3 {
      VanishingSums(ps);
      if SameY(ps) {
        ProductsOfSame(ps, MeanX(ps), MeanY(ps));
        if !SameX(ps) { QuotientIsUnique(0.0, 0.0, Sxx(ps, MeanX(ps))); }
      }
    }
  }

  lemma {:induction false} ProductsOfSame(ps: seq<Point>, mx: real, my: real)
    requires Syy(ps, my) == 0.0
    ensures Sxy(ps, mx, my) == 0.0
  {
    SumsOfSquares(ps, mx, my);
    if ps != [] {
      var init := ps[..|ps| - 1];
      SumsOfSquares(init, mx, my);
      assert forall k :: 0 <= k < |init| ==> ps[k] == init[k];
      ProductsOfSame(init, mx, my);
    }
  }
}
