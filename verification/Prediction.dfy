/** The score projection (`services/leaderboard-api/scorer/prediction.go`): the last 60 scores of each
    contestant and a least-squares line through them, over exact reals. */
module Prediction {
  import opened Reals
  import opened Scoring

  const MAX_LEN := 60

  // ----- the history -----

  function LastN(s: seq<real>, n: nat): seq<real> {
    if |s| <= n then s else s[|s| - n..]
  }

  /** Trimming after every append keeps the last n of everything recorded. */
  lemma LastNSnoc(s: seq<real>, x: real, n: nat)
    ensures LastN(LastN(s, n) + [x], n) == LastN(s + [x], n)
  {
  }

  // ----- vectors -----

  function Dot(a: seq<real>, b: seq<real>): real
    requires |a| == |b|
  {
    if a == [] then 0.0 else Dot(a[..|a| - 1], b[..|b| - 1]) + a[|a| - 1] * b[|b| - 1]
  }

  function Add(a: seq<real>, b: seq<real>): (r: seq<real>)
    requires |a| == |b|
    ensures |r| == |a| && forall i :: 0 <= i < |r| ==> r[i] == a[i] + b[i]
  {
    seq(|a|, i requires 0 <= i < |a| => a[i] + b[i])
  }

  function Scale(k: real, a: seq<real>): (r: seq<real>)
    ensures |r| == |a| && forall i :: 0 <= i < |r| ==> r[i] == k * a[i]
  {
    seq(|a|, i requires 0 <= i < |a| => k * a[i])
  }

  function Ones(n: nat): (r: seq<real>)
    ensures |r| == n && forall i :: 0 <= i < n ==> r[i] == 1.0
  {
    seq(n, _ => 1.0)
  }

  function Indices(n: nat): (r: seq<real>)
    ensures |r| == n && forall i :: 0 <= i < n ==> r[i] == i as real
  {
    seq(n, i => i as real)
  }

  lemma {:induction false} DotSym(a: seq<real>, b: seq<real>)
    requires |a| == |b|
    ensures Dot(a, b) == Dot(b, a)
  {
    if a == [] {
    } else {
      DotSym(a[..|a| - 1], b[..|b| - 1]);
    }
  }

  lemma {:induction false} DotAdd(a: seq<real>, b: seq<real>, c: seq<real>)
    requires |a| == |b| == |c|
    ensures Dot(Add(a, b), c) == Dot(a, c) + Dot(b, c)
  {
    if a == [] {
    } else {
      var n := |a| - 1;
      DotAdd(a[..n], b[..n], c[..n]);
      assert Add(a, b)[..n] == Add(a[..n], b[..n]);
      assert (a[n] + b[n]) * c[n] == a[n] * c[n] + b[n] * c[n];
    }
  }

  lemma {:induction false} DotScale(k: real, a: seq<real>, c: seq<real>)
    requires |a| == |c|
    ensures Dot(Scale(k, a), c) == Times(k, Dot(a, c))
  {
    if a == [] {
      assert k * 0.0 == 0.0;
    } else {
      var n := |a| - 1;
      DotScale(k, a[..n], c[..n]);
      ScaledFront(k, a);
      ScaleStep(k, Dot(a[..n], c[..n]), a[n], c[n]);
    }
  }

  lemma ScaledFront(k: real, a: seq<real>)
    requires a != []
    ensures Scale(k, a)[..|a| - 1] == Scale(k, a[..|a| - 1])
  {
    var front := a[..|a| - 1];
    forall i | 0 <= i < |front| ensures Scale(k, a)[i] == Scale(k, front)[i] { assert front[i] == a[i]; }
  }

  lemma ScaleStep(k: real, dot: real, x: real, y: real)
    ensures k * (dot + x * y) == k * dot + (k * x) * y
  {
    assert k * (x * y) == (k * x) * y;
  }

  function Times(x: real, y: real): real {
    x * y
  }

  /** Orthogonal vectors: the square of a sum is the sum of the squares. */
  lemma Pythagoras(r: seq<real>, d: seq<real>)
    requires |r| == |d| && Dot(d, r) == 0.0
    ensures Dot(Add(r, d), Add(r, d)) == Dot(r, r) + Dot(d, d)
  {
    var sum := Add(r, d);
    DotAdd(r, d, sum);
    DotSym(r, sum);
    DotAdd(r, d, r);
    DotSym(d, sum);
    DotAdd(r, d, d);
    DotSym(r, d);
  }

  lemma {:induction false} DotSelf(a: seq<real>, i: nat)
    ensures Dot(a, a) >= 0.0
    ensures i < |a| ==> Dot(a, a) >= Square(a[i])
  {
    if a == [] {
    } else {
      DotSelf(a[..|a| - 1], i);
      DotSelf(a[..|a| - 1], 0);
      SquareNonNegative(a[|a| - 1]);
    }
  }

  lemma NoSquare(x: real)
    requires Square(x) <= 0.0
    ensures x == 0.0
  {
    if x > 0.0 {
      SquareOrder(x, 0.0);
    } else if x < 0.0 {
      SquareOrder(-x, 0.0);
    }
  }

  lemma {:induction false} NoLength(a: seq<real>)
    requires forall i :: 0 <= i < |a| ==> a[i] == 0.0
    ensures Dot(a, a) == 0.0
  {
    if a == [] {
    } else {
      NoLength(a[..|a| - 1]);
    }
  }

  // ----- fitting a combination of two vectors -----

  datatype Line = Line(slope: real, intercept: real)

  function Minus(l: Line, m: Line): Line {
    Line(l.slope - m.slope, l.intercept - m.intercept)
  }

  function Mix(l: Line, x: real, one: real): real {
    l.slope * x + l.intercept * one
  }

  function Along(x: seq<real>, one: seq<real>, l: Line): (r: seq<real>)
    requires |x| == |one|
    ensures |r| == |x|
  {
    Add(Scale(l.slope, x), Scale(l.intercept, one))
  }

  function Off(h: seq<real>, x: seq<real>, one: seq<real>, l: Line): (r: seq<real>)
    requires |h| == |x| == |one|
    ensures |r| == |h|
  {
    Add(h, Scale(-1.0, Along(x, one, l)))
  }

  lemma DotAlong(x: seq<real>, one: seq<real>, l: Line, r: seq<real>)
    requires |x| == |one| == |r|
    ensures Dot(Along(x, one, l), r) == Mix(l, Dot(x, r), Dot(one, r))
  {
    var a, b := Scale(l.slope, x), Scale(l.intercept, one);
    DotAdd(a, b, r);
    DotScale(l.slope, x, r);
    DotScale(l.intercept, one, r);
    MixIs(Dot(Along(x, one, l), r), Dot(a, r), Dot(b, r), l, Dot(x, r), Dot(one, r));
  }

  lemma MixIs(sum: real, a: real, b: real, l: Line, x: real, one: real)
    requires sum == a + b && a == Times(l.slope, x) && b == Times(l.intercept, one)
    ensures sum == Mix(l, x, one)
  {
  }

  lemma DotOff(h: seq<real>, x: seq<real>, one: seq<real>, l: Line, r: seq<real>)
    requires |h| == |x| == |one| == |r|
    ensures Dot(r, Off(h, x, one, l)) == Dot(h, r) - Mix(l, Dot(x, r), Dot(one, r))
  {
    DotAdd(h, Scale(-1.0, Along(x, one, l)), r);
    DotScale(-1.0, Along(x, one, l), r);
    DotAlong(x, one, l, r);
    DotSym(r, Off(h, x, one, l));
  }

  /** The line solves the normal equations. */
  predicate Normal(h: seq<real>, x: seq<real>, one: seq<real>, l: Line)
    requires |h| == |x| == |one|
  {
    && Dot(h, x) == Mix(l, Dot(x, x), Dot(one, x))
    && Dot(h, one) == Mix(l, Dot(x, one), Dot(one, one))
  }

  /** Then its residuals are orthogonal to every combination of the two vectors. */
  lemma Orthogonal(h: seq<real>, x: seq<real>, one: seq<real>, l: Line, m: Line)
    requires |h| == |x| == |one| && Normal(h, x, one, l)
    ensures Dot(Along(x, one, m), Off(h, x, one, l)) == 0.0
  {
    DotOff(h, x, one, l, x);
    DotOff(h, x, one, l, one);
    DotAlong(x, one, m, Off(h, x, one, l));
    assert m.slope * 0.0 + m.intercept * 0.0 == 0.0;
  }

  lemma OffMoved(h: seq<real>, x: seq<real>, one: seq<real>, l: Line, m: Line)
    requires |h| == |x| == |one|
    ensures Off(h, x, one, m) == Add(Off(h, x, one, l), Along(x, one, Minus(l, m)))
  {
    forall i | 0 <= i < |h|
      ensures Off(h, x, one, m)[i] == Add(Off(h, x, one, l), Along(x, one, Minus(l, m)))[i]
    {
      Moved(h[i], x[i], one[i], l, m);
    }
  }

  lemma Moved(y: real, x: real, one: real, l: Line, m: Line)
    ensures y + -1.0 * Mix(m, x, one) == (y + -1.0 * Mix(l, x, one)) + Mix(Minus(l, m), x, one)
  {
    assert (l.slope - m.slope) * x == l.slope * x - m.slope * x;
    assert (l.intercept - m.intercept) * one == l.intercept * one - m.intercept * one;
  }

  function ErrorOf(h: seq<real>, x: seq<real>, one: seq<real>, l: Line): real
    requires |h| == |x| == |one|
  {
    Dot(Off(h, x, one, l), Off(h, x, one, l))
  }

  /** Any other error is larger by the squared distance between the two combinations. */
  lemma ErrorSplits(h: seq<real>, x: seq<real>, one: seq<real>, l: Line, m: Line)
    requires |h| == |x| == |one| && Normal(h, x, one, l)
    ensures var d := Along(x, one, Minus(l, m));
            ErrorOf(h, x, one, m) == ErrorOf(h, x, one, l) + Dot(d, d)
  {
    OffMoved(h, x, one, l, m);
    Orthogonal(h, x, one, l, Minus(l, m));
    Pythagoras(Off(h, x, one, l), Along(x, one, Minus(l, m)));
  }

  /** The first two entries tell combinations apart. */
  lemma Best(h: seq<real>, x: seq<real>, one: seq<real>, l: Line, m: Line)
    requires |h| == |x| == |one| && Normal(h, x, one, l)
    requires |h| >= 2 && x[0] == 0.0 && x[1] == 1.0 && one[0] == 1.0 && one[1] == 1.0
    ensures ErrorOf(h, x, one, l) <= ErrorOf(h, x, one, m)
    ensures ErrorOf(h, x, one, l) == ErrorOf(h, x, one, m) ==> l == m
  {
    var d := Along(x, one, Minus(l, m));
    ErrorSplits(h, x, one, l, m);
    DotSelf(d, 0);
    DotSelf(d, 1);
    if Dot(d, d) == 0.0 {
      NoSquare(d[0]);
      NoSquare(d[1]);
    }
  }

  // ----- the sums of the regression, over the indices 0, 1, 2, ... -----

  function SumX(n: nat): real {
    Dot(Indices(n), Ones(n))
  }

  function SumXX(n: nat): real {
    Dot(Indices(n), Indices(n))
  }

  function SumY(h: seq<real>): real {
    Dot(h, Ones(|h|))
  }

  function SumXY(h: seq<real>): real {
    Dot(Indices(|h|), h)
  }

  lemma SumsNext(h: seq<real>, n: nat)
    requires n < |h|
    ensures SumX(n + 1) == SumX(n) + n as real
    ensures SumXX(n + 1) == SumXX(n) + Square(n as real)
    ensures SumY(h[..n + 1]) == SumY(h[..n]) + h[n]
    ensures SumXY(h[..n + 1]) == SumXY(h[..n]) + n as real * h[n]
  {
    assert Indices(n + 1)[..n] == Indices(n) && Ones(n + 1)[..n] == Ones(n) && h[..n + 1][..n] == h[..n];
  }

  lemma {:induction false} SumXIs(n: nat)
    ensures 2.0 * SumX(n) == n as real * (n as real - 1.0)
  {
    if n == 0 {
    } else {
      SumXIs(n - 1);
      SumsNext(Ones(n), n - 1);
      var k := (n - 1) as real;
      assert (k + 1.0) * k == k * (k - 1.0) + 2.0 * k;
    }
  }

  lemma {:induction false} SumXXIs(n: nat)
    ensures 6.0 * SumXX(n) == n as real * (n as real - 1.0) * (2.0 * n as real - 1.0)
  {
    if n == 0 {
    } else {
      SumXXIs(n - 1);
      SumsNext(Ones(n), n - 1);
      CubeStep((n - 1) as real);
    }
  }

  lemma CubeStep(k: real)
    ensures (k + 1.0) * k * (2.0 * (k + 1.0) - 1.0) == k * (k - 1.0) * (2.0 * k - 1.0) + 6.0 * Square(k)
  {
  }

  function Denominator(n: nat): real {
    n as real * SumXX(n) - Square(SumX(n))
  }

  /** The denominator of the slope is n squared times (n squared - 1) over 12, so its zero guard never
      decides for the three or more samples it is computed for. */
  lemma DenominatorIs(n: nat)
    ensures 12.0 * Denominator(n) == Square(n as real) * (Square(n as real) - 1.0)
    ensures n >= 2 ==> Denominator(n) > 0.0
  {
    SumXIs(n);
    SumXXIs(n);
    ClosedForm(n as real, SumX(n), SumXX(n));
    if n >= 2 {
      Positive(n as real, Denominator(n));
    }
  }

  lemma ClosedForm(n: real, sx: real, sxx: real)
    requires 2.0 * sx == n * (n - 1.0) && 6.0 * sxx == n * (n - 1.0) * (2.0 * n - 1.0)
    ensures 12.0 * (n * sxx - Square(sx)) == Square(n) * (Square(n) - 1.0)
  {
    assert 12.0 * (n * sxx) == 2.0 * (n * (n * (n - 1.0) * (2.0 * n - 1.0)));
    assert 12.0 * Square(sx) == 3.0 * Square(n * (n - 1.0));
  }

  lemma Positive(n: real, d: real)
    requires n >= 2.0 && 12.0 * d == Square(n) * (Square(n) - 1.0)
    ensures d > 0.0
  {
    SquareOrder(n, 1.0);
    assert Square(1.0) == 1.0;
    PositiveProduct(Square(n), Square(n) - 1.0);
  }

  lemma PositiveProduct(x: real, y: real)
    requires x > 0.0 && y > 0.0
    ensures x * y > 0.0
  {
  }

  // ----- the line through the history -----

  /** The line the source computes, from its running sums. */
  function Solve(n: real, sx: real, sxx: real, sy: real, sxy: real): Line
    requires n > 0.0
  {
    var denom := n * sxx - Square(sx);
    var slope := if denom != 0.0 then (n * sxy - sx * sy) / denom else 0.0;
    Line(slope, (sy - slope * sx) / n)
  }

  function Fit(h: seq<real>): Line
    requires |h| >= 1
  {
    Solve(|h| as real, SumX(|h|), SumXX(|h|), SumY(h), SumXY(h))
  }

  lemma Solves(n: real, sx: real, sxx: real, sy: real, sxy: real)
    requires n > 0.0 && n * sxx - Square(sx) > 0.0
    ensures var l := Solve(n, sx, sxx, sy, sxy);
            sxy == Mix(l, sxx, sx) && sy == Mix(l, sx, n)
  {
    var l, d := Solve(n, sx, sxx, sy, sxy), n * sxx - Square(sx);
    Quotient(sy - l.slope * sx, n);
    Quotient(n * sxy - sx * sy, d);
    SolvesTilt(n, sx, sxx, sy, sxy, d, l.slope, l.intercept);
  }

  lemma SolvesTilt(n: real, sx: real, sxx: real, sy: real, sxy: real, d: real, s: real, t: real)
    requires n > 0.0 && d == n * sxx - Square(sx)
    requires d * s == n * sxy - sx * sy && n * t == sy - s * sx
    ensures sxy - s * sxx - t * sx == 0.0
  {
    assert (n * t) * sx == (sy - s * sx) * sx;
    assert n * (sxy - s * sxx - t * sx) == n * sxy - s * (n * sxx) - (n * t) * sx;
    assert s * (n * sxx) - s * Square(sx) == d * s;
    assert (sy - s * sx) * sx == sy * sx - s * Square(sx);
    assert n * (sxy - s * sxx - t * sx) == n * 0.0;
    SameFactor(n, sxy - s * sxx - t * sx, 0.0);
  }

  lemma {:induction false} OnesDot(n: nat)
    ensures Dot(Ones(n), Ones(n)) == n as real
  {
    if n == 0 {
    } else {
      assert Ones(n)[..n - 1] == Ones(n - 1);
      OnesDot(n - 1);
    }
  }

  lemma FitIsNormal(h: seq<real>)
    requires |h| >= 2
    ensures Normal(h, Indices(|h|), Ones(|h|), Fit(h))
  {
    DotSym(h, Indices(|h|));
    DotSym(Ones(|h|), Indices(|h|));
    OnesDot(|h|);
    DenominatorIs(|h|);
    Solves(|h| as real, SumX(|h|), SumXX(|h|), SumY(h), SumXY(h));
  }

  /** The sum of the squared residuals of a line. */
  function Error(h: seq<real>, l: Line): real {
    ErrorOf(h, Indices(|h|), Ones(|h|), l)
  }

  /** Least squares: no line has a smaller error than the computed one, and no other line the same. */
  lemma LeastSquares(h: seq<real>, l: Line)
    requires |h| >= 2
    ensures Error(h, Fit(h)) <= Error(h, l)
    ensures Error(h, Fit(h)) == Error(h, l) ==> l == Fit(h)
  {
    FitIsNormal(h);
    Best(h, Indices(|h|), Ones(|h|), Fit(h), l);
  }

  predicate Affine(h: seq<real>, l: Line) {
    forall i :: 0 <= i < |h| ==> h[i] == l.slope * i as real + l.intercept
  }

  /** A history that lies on a line is fitted by that line. */
  lemma AffineExact(h: seq<real>, l: Line)
    requires |h| >= 2 && Affine(h, l)
    ensures Fit(h) == l
  {
    NoError(h, Indices(|h|), Ones(|h|), l);
    DotSelf(Off(h, Indices(|h|), Ones(|h|), Fit(h)), 0);
    LeastSquares(h, l);
  }

  lemma NoError(h: seq<real>, x: seq<real>, one: seq<real>, l: Line)
    requires |h| == |x| == |one|
    requires forall i :: 0 <= i < |h| ==> h[i] == Mix(l, x[i], one[i])
    ensures ErrorOf(h, x, one, l) == 0.0
  {
    NoLength(Off(h, x, one, l));
  }

  // ----- the projection -----

  datatype Trend = Up | Down | Level | Unset

  datatype Prediction = Prediction(
    contestantID: string, current: real, predicted: real, trend: Trend, confidence: real, samples: nat)

  /** The projection from a history: the last score until there are three, then the line ten cycles on. */
  function Forecast(id: string, h: seq<real>): Prediction {
    if |h| == 0 then Prediction(id, 0.0, 0.0, Unset, 0.0, 0)
    else if |h| < 3 then Prediction(id, h[|h| - 1], h[|h| - 1], Level, 0.0, |h|)
    else Project(id, h[|h| - 1], |h|, Fit(h))
  }

  function ValueAt(l: Line, x: real): real {
    l.intercept + l.slope * x
  }

  function Project(id: string, current: real, n: nat, l: Line): Prediction {
    Prediction(id, current, Clamp(Round2(ValueAt(l, (n + 10) as real)), 0.0, 100.0), TrendOf(l.slope),
               Clamp(n as real / MAX_LEN as real, 0.0, 1.0), n)
  }

  function TrendOf(slope: real): Trend {
    if slope > 0.05 then Up else if slope < -0.05 then Down else Level
  }

  /** The projection in numbers. Whatever line has the least squares, the forecast is its value ten cycles past the
      number of samples, cut to 0 to 100 and rounded, with a trend beyond a twentieth either way and a confidence that
      grows with the samples up to sixty. */
  lemma ForecastIs(id: string, h: seq<real>, l: Line, w: real)
    requires |h| >= 3 && Error(h, l) <= Error(h, Fit(h))
    requires CutTo(w, ValueAt(l, |h| as real + 10.0), 0.0, 100.0)
    ensures var p := Forecast(id, h);
            && p.contestantID == id && p.current == h[|h| - 1] && p.samples == |h| && Hundredths(p.predicted, w)
            && (p.trend == Up <==> l.slope > 0.05) && (p.trend == Down <==> l.slope < -0.05)
            && (p.trend == Level <==> -0.05 <= l.slope <= 0.05)
            && p.confidence == if |h| >= 60 then 1.0 else |h| as real / 60.0
  {
    LeastSquares(h, l);
    ProjectIs(id, h[|h| - 1], |h|, l, w);
  }

  lemma ProjectIs(id: string, current: real, n: nat, l: Line, w: real)
    requires CutTo(w, ValueAt(l, n as real + 10.0), 0.0, 100.0)
    ensures var p := Project(id, current, n, l);
            && p == Prediction(id, current, p.predicted, p.trend, if n >= 60 then 1.0 else n as real / 60.0, n)
            && Hundredths(p.predicted, w)
            && (p.trend == Up <==> l.slope > 0.05) && (p.trend == Down <==> l.slope < -0.05)
            && (p.trend == Level <==> -0.05 <= l.slope <= 0.05)
  {
    assert (n + 10) as real == n as real + 10.0;
    CutThenRound(ValueAt(l, n as real + 10.0), w);
    Share(n);
  }

  lemma Share(n: nat)
    ensures Clamp(n as real / 60.0, 0.0, 1.0) == if n >= 60 then 1.0 else n as real / 60.0
  {
  }

  /** Rounding and then cutting is cutting and then rounding. */
  lemma CutThenRound(v: real, w: real)
    requires CutTo(w, v, 0.0, 100.0)
    ensures Hundredths(Clamp(Round2(v), 0.0, 100.0), w)
  {
    Round2Is(w);
    Round2Whole(0);
    Round2Whole(10000);
    if v < 0.0 {
      Round2Monotone(v, 0.0);
    } else {
      Round2Monotone(0.0, v);
      if v > 100.0 {
        Round2Monotone(100.0, v);
      } else {
        Round2Monotone(v, 100.0);
      }
    }
  }

  /** Until there are three scores the last one is projected unchanged. */
  lemma ShortForecast(id: string, h: seq<real>)
    requires |h| < 3
    ensures var p := Forecast(id, h);
            && p.samples == |h| && p.confidence == 0.0
            && (h != [] ==> p.predicted == p.current == h[|h| - 1] && p.trend == Level)
            && (h == [] ==> p.predicted == p.current == 0.0 && p.trend == Unset)
  {
  }

  /** Scores that lie on a line are projected along it. */
  lemma AffineForecast(id: string, h: seq<real>, l: Line, w: real)
    requires |h| >= 3 && Affine(h, l)
    requires CutTo(w, ValueAt(l, |h| as real + 10.0), 0.0, 100.0)
    ensures Hundredths(Forecast(id, h).predicted, w)
  {
    AffineExact(h, l);
    ForecastIs(id, h, l, w);
  }

  lemma Flat(l: Line, x: real)
    requires l.slope == 0.0
    ensures ValueAt(l, x) == l.intercept
  {
  }

  lemma Whole(r: real, hundredths: nat)
    requires Hundredths(r, hundredths as real / 100.0)
    ensures r == hundredths as real / 100.0
  {
    assert 100.0 * (hundredths as real / 100.0) == hundredths as real;
    assert (hundredths as real + 0.5).Floor == hundredths;
  }

  /** A score that has not changed, of whole hundredths between 0 and 100, is projected unchanged. */
  lemma SteadyForecast(id: string, h: seq<real>, hundredths: nat)
    requires |h| >= 3 && hundredths <= 10000
    requires forall i :: 0 <= i < |h| ==> h[i] == hundredths as real / 100.0
    ensures Forecast(id, h).predicted == hundredths as real / 100.0 && Forecast(id, h).trend == Level
  {
    var l := Line(0.0, hundredths as real / 100.0);
    forall i | 0 <= i < |h| ensures h[i] == l.slope * i as real + l.intercept { }
    AffineExact(h, l);
    Flat(l, |h| as real + 10.0);
    ProjectIs(id, h[|h| - 1], |h|, l, hundredths as real / 100.0);
    Whole(Forecast(id, h).predicted, hundredths);
  }

  /** The scores of one contestant among a cycle's entries. */
  function ScoresOf(entries: seq<(string, real)>, id: string): seq<real> {
    if entries == [] then []
    else
      var e := entries[|entries| - 1];
      ScoresOf(entries[..|entries| - 1], id) + if e.0 == id then [e.1] else []
  }

  function Get(m: map<string, seq<real>>, id: string): seq<real> {
    if id in m then m[id] else []
  }

  /** Every entry appends its score to its contestant's. */
  function RecordAll(m: map<string, seq<real>>, entries: seq<(string, real)>): map<string, seq<real>> {
    if entries == [] then m
    else
      var before, e := RecordAll(m, entries[..|entries| - 1]), entries[|entries| - 1];
      before[e.0 := Get(before, e.0) + [e.1]]
  }

  /** A contestant's scores are extended by its own entries, in order, and by no others. */
  lemma {:induction false} RecordAllGets(m: map<string, seq<real>>, entries: seq<(string, real)>, id: string)
    ensures Get(RecordAll(m, entries), id) == Get(m, id) + ScoresOf(entries, id)
  {
    if entries == [] {
    } else {
      RecordAllGets(m, entries[..|entries| - 1], id);
    }
  }

  class Predictor {
    var history: map<string, seq<real>>
    ghost var recorded: map<string, seq<real>>  // every score ever recorded

    ghost predicate Kept(id: string)
      reads this
    {
      Get(history, id) == LastN(Get(recorded, id), MAX_LEN)
    }

    ghost predicate Valid()
      reads this
    {
      forall id {:trigger Kept(id)} :: Kept(id)
    }

    constructor ()
      ensures Valid() && recorded == map[]
    {
      history, recorded := map[], map[];
    }

    method Record(entries: seq<(string, real)>)
      requires Valid()
      modifies this
      ensures Valid() && recorded == RecordAll(old(recorded), entries)
    {
      for i := 0 to |entries|
        invariant Valid() && recorded == RecordAll(old(recorded), entries[..i])
      {
        assert entries[..i + 1][..i] == entries[..i];
        RecordOne(entries[i].0, entries[i].1);
      }
      assert entries[..|entries|] == entries;
    }

    /** The body of the loop. */
    method RecordOne(id: string, score: real)
      requires Valid()
      modifies this
      ensures Valid() && recorded == old(recorded)[id := Get(old(recorded), id) + [score]]
    {
      assert Kept(id);
      LastNSnoc(Get(recorded, id), score, MAX_LEN);
      var h := Get(history, id) + [score];
      if |h| > MAX_LEN {
        h := h[|h| - MAX_LEN..];
      }
      history := history[id := h];
      recorded := recorded[id := Get(recorded, id) + [score]];
      forall other ensures Kept(other) { assert old(Kept(other)); }
    }

    method Predict(id: string) returns (p: Prediction)
      requires Valid()
      ensures var all := Get(recorded, id);
              p == Forecast(id, if |all| <= 60 then all else all[|all| - 60..])
    {
      assert Kept(id);
      var h := Get(history, id);
      var n := |h|;
      if n == 0 {
        return Prediction(id, 0.0, 0.0, Unset, 0.0, n);
      }
      if n < 3 {
        return Prediction(id, h[n - 1], h[n - 1], Level, 0.0, n);
      }
      var sx, sy, sxy, sxx := Sums(h);
      p := Project(id, h[n - 1], n, Solve(n as real, sx, sxx, sy, sxy));
    }

    /** The loop over the history. */
    method Sums(h: seq<real>) returns (sx: real, sy: real, sxy: real, sxx: real)
      ensures sx == SumX(|h|) && sxx == SumXX(|h|) && sy == SumY(h) && sxy == SumXY(h)
    {
      sx, sy, sxy, sxx := 0.0, 0.0, 0.0, 0.0;
      for i := 0 to |h|
        invariant sx == SumX(i) && sxx == SumXX(i) && sy == SumY(h[..i]) && sxy == SumXY(h[..i])
      {
        SumsNext(h, i);
        var x, y := i as real, h[i];
        sx := sx + x;
        sy := sy + y;
        sxy := sxy + x * y;
        sxx := sxx + x * x;
      }
      assert h[..|h|] == h;
    }
  }
}
