/**
 The streaming accumulators of the acquisition: mean and squared deviations of
 the readings at a point, and the least-squares resistance of a run.
 */
module Streaming {
  import opened Wrappers

  // ---- What the accumulators stand for ----

  function Sum(xs: seq<real>): real {
    if xs == [] then 0.0 else Sum(xs[..|xs| - 1]) + xs[|xs| - 1]
  }

  /** The sum of (x - a)(y - b) over pairs of samples. */
  function Deviations(xs: seq<real>, ys: seq<real>, a: real, b: real): real
    requires |xs| == |ys|
  {
    if xs == [] then 0.0
    else
      var n := |xs| - 1;
      Deviations(xs[..n], ys[..n], a, b) + (xs[n] - a) * (ys[n] - b)
  }

  /** `m` is the mean of the samples, or zero before any. */
  predicate IsMean(m: real, xs: seq<real>) {
    m * |xs| as real == Sum(xs) && (xs == [] ==> m == 0.0)
  }

  /** The sum of squared residuals of the line y = slope * x + offset. */
  function Residual(xs: seq<real>, ys: seq<real>, slope: real, offset: real): real
    requires |xs| == |ys|
  {
    if xs == [] then 0.0
    else
      var n := |xs| - 1;
      Residual(xs[..n], ys[..n], slope, offset) + SquaredError(slope, offset, xs[n], ys[n])
  }

  function SquaredError(slope: real, offset: real, x: real, y: real): real {
    var e := y - slope * x - offset;
    e * e
  }

  // ---- One update ----

  function Products(xs: seq<real>, ys: seq<real>): real
    requires |xs| == |ys|
  {
    Deviations(xs, ys, 0.0, 0.0)
  }

  lemma Positive(x: real, y: real, s: real)
    requires x > 0.0 && y > 0.0 && s == x * y
    ensures s > 0.0
  {
  }

  /** The square is named, here and below, so that its sign is a linear fact. */
  lemma Square(e: real, s: real)
    requires s == e * e
    ensures s >= 0.0 && (s == 0.0 <==> e == 0.0)
  {
    if e > 0.0 {
      Positive(e, e, s);
    } else if e < 0.0 {
      Positive(-e, -e, s);
    }
  }

  lemma LastProduct(xs: seq<real>, ys: seq<real>)
    requires |xs| == |ys| > 0
    ensures var n := |xs| - 1; Products(xs, ys) == Products(xs[..n], ys[..n]) + xs[n] * ys[n]
  {
  }

  lemma SnocProduct(xs: seq<real>, ys: seq<real>, x: real, y: real)
    requires |xs| == |ys|
    ensures Products(xs + [x], ys + [y]) == Products(xs, ys) + x * y
  {
    LastProduct(xs + [x], ys + [y]);
    assert (xs + [x])[..|xs|] == xs && (ys + [y])[..|ys|] == ys;
  }

  lemma Expand(p: real, x: real, y: real, n: real, xn: real, yn: real, a: real, b: real)
    ensures p - a * y - b * x + n * a * b + (xn - a) * (yn - b) ==
            (p + xn * yn) - a * (y + yn) - b * (x + xn) + (n + 1.0) * a * b
  {
  }

  lemma {:induction false} DeviationsExpand(xs: seq<real>, ys: seq<real>, a: real, b: real)
    requires |xs| == |ys|
    ensures Deviations(xs, ys, a, b) == Products(xs, ys) - a * Sum(ys) - b * Sum(xs) + |xs| as real * a * b
    decreases |xs|
  {
    if xs != [] {
      var n := |xs| - 1;
      DeviationsExpand(xs[..n], ys[..n], a, b);
      LastProduct(xs, ys);
      Expand(Products(xs[..n], ys[..n]), Sum(xs[..n]), Sum(ys[..n]), n as real, xs[n], ys[n], a, b);
    }
  }

  /** How two successive means are related. */
  lemma MeanRecurrence(xs: seq<real>, x: real, m: real, m': real)
    requires IsMean(m, xs) && IsMean(m', xs + [x])
    ensures (|xs| as real + 1.0) * m' == |xs| as real * m + x
  {
    assert (xs + [x])[..|xs|] == xs;
  }

  lemma MeanMoves(m: real, xs: seq<real>, x: real)
    requires IsMean(m, xs)
    ensures var m' := m + (x - m) / (|xs| + 1) as real; IsMean(m', xs + [x])
  {
    var k := (|xs| + 1) as real;
    var q := (x - m) / k;
    assert q * k == x - m;
    assert (m + q) * k == m * k + q * k;
    assert m * k == m * |xs| as real + m;
    assert (xs + [x])[..|xs|] == xs;
  }

  /** The algebra of Welford's update, with every product named. */
  lemma Welford(n: real, mx: real, my: real, x: real, y: real, mx': real, my': real)
    requires (n + 1.0) * mx' == n * mx + x && (n + 1.0) * my' == n * my + y
    ensures x * y - (n + 1.0) * mx' * my' + n * mx * my == (x - mx) * (y - my')
  {
    assert (n + 1.0) * mx' * my' == (n * mx + x) * my';
    assert n * (mx * my') + mx * my' == mx * (n * my + y) by {
      assert mx * ((n + 1.0) * my') == mx * (n * my + y);
    }
  }

  lemma Centred(xs: seq<real>, ys: seq<real>, mx: real, my: real, n: real)
    requires |xs| == |ys| && IsMean(mx, xs) && IsMean(my, ys) && n == |xs| as real
    ensures Deviations(xs, ys, mx, my) == Products(xs, ys) - n * mx * my
  {
    hide Deviations, Products, Sum;
    DeviationsExpand(xs, ys, mx, my);
    Centre(Deviations(xs, ys, mx, my), Products(xs, ys), Sum(xs), Sum(ys), mx, my, n);
  }

  lemma Centre(d: real, p: real, sx: real, sy: real, mx: real, my: real, n: real)
    requires d == p - mx * sy - my * sx + n * mx * my && sx == mx * n && sy == my * n
    ensures d == p - n * mx * my
  {
    assert mx * (my * n) == n * mx * my;
    assert my * (mx * n) == n * mx * my;
  }

  /** Adding one pair moves the centred sum by old deviation times new deviation. */
  lemma DeviationsMove(xs: seq<real>, ys: seq<real>, mx: real, my: real, x: real, y: real, mx': real, my': real)
    requires |xs| == |ys| && IsMean(mx, xs) && IsMean(my, ys)
    requires IsMean(mx', xs + [x]) && IsMean(my', ys + [y])
    ensures Deviations(xs + [x], ys + [y], mx', my') == Deviations(xs, ys, mx, my) + (x - mx) * (y - my')
  {
    hide Deviations, Products, Sum, IsMean;
    Centred(xs, ys, mx, my, |xs| as real);
    Centred(xs + [x], ys + [y], mx', my', |xs| as real + 1.0);
    SnocProduct(xs, ys, x, y);
    MeanRecurrence(xs, x, mx, mx');
    MeanRecurrence(ys, y, my, my');
    Welford(|xs| as real, mx, my, x, y, mx', my');
  }

  // ---- The accumulators ----

  class SampleStats {
    var count: nat
    var mean: real
    var m2: real
    ghost var samples: seq<real>

    /** Holds the count, the true mean and the true sum of squared deviations of the samples. */
    ghost predicate Valid()
      reads this
    {
      count == |samples| && IsMean(mean, samples) && m2 == Deviations(samples, samples, mean, mean)
    }

    constructor ()
      ensures Valid() && samples == []
    {
      count, mean, m2, samples := 0, 0.0, 0.0, [];
    }

    method Add(value: real)
      requires Valid()
      modifies this
      ensures Valid() && samples == old(samples) + [value]
    {
      hide Deviations, IsMean;
      count := count + 1;
      var delta := value - mean;
      var before := mean;
      MeanMoves(mean, samples, value);
      mean := mean + delta / count as real;
      DeviationsMove(samples, samples, before, before, value, value, mean, mean);
      m2 := m2 + delta * (value - mean);
      samples := samples + [value];
    }
  }

  class ResistanceFit {
    var count: nat
    var meanI: real
    var meanV: real
    var covariance: real
    var variance: real
    ghost var currents: seq<real>
    ghost var voltages: seq<real>

    ghost predicate Valid()
      reads this
    {
      && count == |currents| == |voltages|
      && IsMean(meanI, currents) && IsMean(meanV, voltages)
      && covariance == Deviations(currents, voltages, meanI, meanV)
      && variance == Deviations(currents, currents, meanI, meanI)
    }

    constructor ()
      ensures Valid() && currents == [] && voltages == []
    {
      count, meanI, meanV, covariance, variance, currents, voltages := 0, 0.0, 0.0, 0.0, 0.0, [], [];
    }

    /** The fitted slope is optimal; there is none exactly when fewer than two samples or one current. */
    method Add(voltage: real, current: real) returns (slope: Option<real>)
      requires Valid()
      modifies this
      ensures Valid() && currents == old(currents) + [current] && voltages == old(voltages) + [voltage]
      ensures slope.None? <==> count < 2 || AllEqual(currents)
      ensures slope.Some? ==> LeastSquares(currents, voltages, slope.value)
    {
      hide Deviations, IsMean, LeastSquares;
      count := count + 1;
      var di := current - meanI;
      var dv := voltage - meanV;
      var oldI, oldV := meanI, meanV;
      MeanMoves(meanI, currents, current);
      MeanMoves(meanV, voltages, voltage);
      meanI := meanI + di / count as real;
      meanV := meanV + dv / count as real;
      DeviationsMove(currents, voltages, oldI, oldV, current, voltage, meanI, meanV);
      DeviationsMove(currents, currents, oldI, oldI, current, current, meanI, meanI);
      covariance := covariance + di * (voltage - meanV);
      variance := variance + di * (current - meanI);
      currents := currents + [current];
      voltages := voltages + [voltage];
      VarianceVanishes(currents, meanI);
      if count < 2 || variance == 0.0 {
        slope := None;
      } else {
        slope := Some(covariance / variance);
        SlopeIsLeastSquares(currents, voltages, meanI, meanV);
      }
    }
  }

  // ---- Least squares ----

  predicate AllEqual(xs: seq<real>) {
    forall i :: 0 <= i < |xs| ==> xs[i] == xs[0]
  }

  /** Some line with this slope has the smallest residual of all lines. */
  ghost predicate LeastSquares(xs: seq<real>, ys: seq<real>, slope: real)
    requires |xs| == |ys|
  {
    exists offset: real :: Optimal(xs, ys, slope, offset)
  }

  ghost predicate Optimal(xs: seq<real>, ys: seq<real>, slope: real, offset: real)
    requires |xs| == |ys|
  {
    forall slope', offset' :: Residual(xs, ys, slope, offset) <= Residual(xs, ys, slope', offset')
  }

  lemma {:induction false} SquaresVanish(xs: seq<real>, m: real)
    ensures Deviations(xs, xs, m, m) >= 0.0
    ensures Deviations(xs, xs, m, m) == 0.0 <==> forall i :: 0 <= i < |xs| ==> xs[i] == m
    decreases |xs|
  {
    if xs != [] {
      var n := |xs| - 1;
      SquaresVanish(xs[..n], m);
      Square(xs[n] - m, (xs[n] - m) * (xs[n] - m));
      assert forall i :: 0 <= i < n ==> xs[..n][i] == xs[i];
    }
  }

  lemma {:induction false} SumOfEqual(xs: seq<real>, x: real)
    requires forall i :: 0 <= i < |xs| ==> xs[i] == x
    ensures Sum(xs) == x * |xs| as real
    decreases |xs|
  {
    if xs != [] {
      SumOfEqual(xs[..|xs| - 1], x);
    }
  }

  /** The spread is zero exactly when all samples are equal. */
  lemma VarianceVanishes(xs: seq<real>, m: real)
    requires IsMean(m, xs)
    ensures Deviations(xs, xs, m, m) >= 0.0
    ensures Deviations(xs, xs, m, m) == 0.0 <==> AllEqual(xs)
  {
    SquaresVanish(xs, m);
    if xs != [] && AllEqual(xs) {
      SumOfEqual(xs, xs[0]);
      assert (m - xs[0]) * |xs| as real == 0.0;
      assert m == xs[0];
    }
  }

  lemma ExpandResidual(b: real, a: real, x: real, y: real)
    ensures var e := y - b * x - a;
            e * e == y * y - 2.0 * b * (x * y) - 2.0 * a * y + b * b * (x * x) + 2.0 * a * b * x + a * a
  {
  }

  /** The sums of the samples that a residual depends on. */
  datatype Sums = Sums(yy: real, xy: real, y: real, xx: real, x: real, n: real)

  function SumsOf(xs: seq<real>, ys: seq<real>): Sums
    requires |xs| == |ys|
  {
    Sums(Products(ys, ys), Products(xs, ys), Sum(ys), Products(xs, xs), Sum(xs), |xs| as real)
  }

  function Extended(s: Sums, x: real, y: real): Sums {
    Sums(s.yy + y * y, s.xy + x * y, s.y + y, s.xx + x * x, s.x + x, s.n + 1.0)
  }

  /** The residual as a polynomial in the line. */
  function Quadratic(b: real, a: real, s: Sums): real {
    s.yy - 2.0 * b * s.xy - 2.0 * a * s.y + b * b * s.xx + 2.0 * a * b * s.x + s.n * a * a
  }

  lemma QuadraticStep(b: real, a: real, s: Sums, x: real, y: real)
    ensures Quadratic(b, a, s) + SquaredError(b, a, x, y) == Quadratic(b, a, Extended(s, x, y))
  {
    ExpandResidual(b, a, x, y);
  }

  lemma LastSums(xs: seq<real>, ys: seq<real>)
    requires |xs| == |ys| > 0
    ensures var n := |xs| - 1; SumsOf(xs, ys) == Extended(SumsOf(xs[..n], ys[..n]), xs[n], ys[n])
  {
    LastProduct(xs, ys);
    LastProduct(xs, xs);
    LastProduct(ys, ys);
  }

  lemma {:induction false} ResidualExpands(xs: seq<real>, ys: seq<real>, b: real, a: real)
    requires |xs| == |ys|
    ensures Residual(xs, ys, b, a) == Quadratic(b, a, SumsOf(xs, ys))
    decreases |xs|
  {
    if xs == [] {
      NoSamples(xs, ys, b, a);
    } else {
      hide Residual, SumsOf, Quadratic, Extended, SquaredError;
      var n := |xs| - 1;
      ResidualExpands(xs[..n], ys[..n], b, a);
      LastSums(xs, ys);
      LastTerm(xs, ys, b, a);
      QuadraticStep(b, a, SumsOf(xs[..n], ys[..n]), xs[n], ys[n]);
    }
  }

  lemma NoSamples(xs: seq<real>, ys: seq<real>, b: real, a: real)
    requires xs == ys == []
    ensures Residual(xs, ys, b, a) == Quadratic(b, a, SumsOf(xs, ys))
  {
  }

  lemma LastTerm(xs: seq<real>, ys: seq<real>, b: real, a: real)
    requires |xs| == |ys| > 0
    ensures var n := |xs| - 1;
            Residual(xs, ys, b, a) == Residual(xs[..n], ys[..n], b, a) + SquaredError(b, a, xs[n], ys[n])
  {
  }

  /** A line's residual, from the centred sums: the offset contributes a square of its own. */
  lemma ResidualSplits(xs: seq<real>, ys: seq<real>, mx: real, my: real, b: real, a: real)
    requires |xs| == |ys| && IsMean(mx, xs) && IsMean(my, ys)
    ensures var e := my - b * mx - a;
            Residual(xs, ys, b, a) ==
            Deviations(ys, ys, my, my) - 2.0 * b * Deviations(xs, ys, mx, my) + b * b * Deviations(xs, xs, mx, mx)
            + |xs| as real * (e * e)
  {
    hide Residual, Deviations, Products, Quadratic, Sum;
    ResidualExpands(xs, ys, b, a);
    var n := |xs| as real;
    Centred(xs, xs, mx, mx, n);
    Centred(xs, ys, mx, my, n);
    Centred(ys, ys, my, my, n);
    Recentre(b, a, mx, my, SumsOf(xs, ys));
  }

  lemma Recentre(b: real, a: real, mx: real, my: real, s: Sums)
    requires s.y == my * s.n && s.x == mx * s.n
    ensures var e := my - b * mx - a;
            Quadratic(b, a, s) ==
            (s.yy - s.n * my * my) - 2.0 * b * (s.xy - s.n * mx * my) + b * b * (s.xx - s.n * mx * mx) + s.n * (e * e)
  {
    ExpandResidual(b, a, mx, my);
  }

  lemma Scaled(x: real, d: real)
    requires x >= 0.0 && d > 0.0
    ensures x * d >= 0.0 && (x > 0.0 ==> x * d > 0.0)
  {
  }

  /** For a fixed spread the quadratic in the slope is smallest at covariance / variance, and only there. */
  lemma SmallestQuadratic(s: real, c: real, d: real, b: real, b': real)
    requires d > 0.0 && b * d == c
    ensures s - 2.0 * b' * c + b' * b' * d == s - 2.0 * b * c + b * b * d + (b' - b) * (b' - b) * d
    ensures (b' - b) * (b' - b) * d >= 0.0
    ensures b' != b ==> (b' - b) * (b' - b) * d > 0.0
  {
    var e := b' - b;
    Square(e, e * e);
    Scaled(e * e, d);
    assert b' * c == b' * (b * d);
    assert b * c == b * (b * d);
  }

  /** No line has a smaller residual than the fitted one; with another slope every line has a larger one. */
  lemma FittedLineIsBest(xs: seq<real>, ys: seq<real>, mx: real, my: real, b: real, b': real, a': real)
    requires |xs| == |ys| && IsMean(mx, xs) && IsMean(my, ys)
    requires Deviations(xs, xs, mx, mx) > 0.0 && b * Deviations(xs, xs, mx, mx) == Deviations(xs, ys, mx, my)
    ensures Residual(xs, ys, b, my - b * mx) <= Residual(xs, ys, b', a')
    ensures b' != b ==> Residual(xs, ys, b, my - b * mx) < Residual(xs, ys, b', a')
  {
    hide Residual, Deviations, Sum, IsMean;
    var a := my - b * mx;
    ResidualSplits(xs, ys, mx, my, b, a);
    ResidualSplits(xs, ys, mx, my, b', a');
    SmallestQuadratic(Deviations(ys, ys, my, my), Deviations(xs, ys, mx, my), Deviations(xs, xs, mx, mx), b, b');
    var e := my - b' * mx - a';
    Square(e, e * e);
    assert |xs| as real * (e * e) >= 0.0;
    assert my - b * mx - a == 0.0;
  }

  lemma SlopeIsLeastSquares(xs: seq<real>, ys: seq<real>, mx: real, my: real)
    requires |xs| == |ys| && IsMean(mx, xs) && IsMean(my, ys)
    requires Deviations(xs, xs, mx, mx) != 0.0
    ensures LeastSquares(xs, ys, Deviations(xs, ys, mx, my) / Deviations(xs, xs, mx, mx))
  {
    hide Residual, Deviations, Sum, IsMean, LeastSquares;
    VarianceVanishes(xs, mx);
    var b := Deviations(xs, ys, mx, my) / Deviations(xs, xs, mx, mx);
    forall b', a' ensures Residual(xs, ys, b, my - b * mx) <= Residual(xs, ys, b', a') {
      FittedLineIsBest(xs, ys, mx, my, b, b', a');
    }
    OptimalIsLeast(xs, ys, b, my - b * mx);
  }

  lemma OptimalIsLeast(xs: seq<real>, ys: seq<real>, slope: real, offset: real)
    requires |xs| == |ys| && Optimal(xs, ys, slope, offset)
    ensures LeastSquares(xs, ys, slope)
  {
  }

  // ---- The fitted slope is determined, and blind to a constant voltage ----

  lemma MeanExists(xs: seq<real>) returns (m: real)
    ensures IsMean(m, xs)
  {
    m := if xs == [] then 0.0 else Sum(xs) / |xs| as real;
  }

  lemma BestSlopeIsFitted(xs: seq<real>, ys: seq<real>, mx: real, my: real, slope: real)
    requires |xs| == |ys| && IsMean(mx, xs) && IsMean(my, ys) && Deviations(xs, xs, mx, mx) > 0.0
    requires LeastSquares(xs, ys, slope)
    ensures slope == Deviations(xs, ys, mx, my) / Deviations(xs, xs, mx, mx)
  {
    hide Residual, Deviations, Sum, IsMean;
    var b := Deviations(xs, ys, mx, my) / Deviations(xs, xs, mx, mx);
    var offset :| Optimal(xs, ys, slope, offset);
    FittedLineIsBest(xs, ys, mx, my, b, slope, offset);
    assert Residual(xs, ys, slope, offset) <= Residual(xs, ys, b, my - b * mx);
  }

  /** Unless all currents are equal, only one slope is optimal. */
  lemma LeastSquaresIsUnique(xs: seq<real>, ys: seq<real>, slope: real, slope': real)
    requires |xs| == |ys| && !AllEqual(xs)
    requires LeastSquares(xs, ys, slope) && LeastSquares(xs, ys, slope')
    ensures slope == slope'
  {
    hide Residual, Deviations, Sum, IsMean, LeastSquares;
    var mx := MeanExists(xs);
    var my := MeanExists(ys);
    VarianceVanishes(xs, mx);
    BestSlopeIsFitted(xs, ys, mx, my, slope);
    BestSlopeIsFitted(xs, ys, mx, my, slope');
  }

  function Shifted(ys: seq<real>, c: real): (zs: seq<real>)
    ensures |zs| == |ys|
  {
    if ys == [] then [] else Shifted(ys[..|ys| - 1], c) + [ys[|ys| - 1] + c]
  }

  lemma {:induction false} ResidualShifts(xs: seq<real>, ys: seq<real>, c: real, b: real, a: real)
    requires |xs| == |ys|
    ensures Residual(xs, Shifted(ys, c), b, a + c) == Residual(xs, ys, b, a)
    decreases |xs|
  {
    hide SquaredError;
    if xs != [] {
      var n := |xs| - 1;
      assert Shifted(ys, c)[..n] == Shifted(ys[..n], c);
      ResidualShifts(xs[..n], ys[..n], c, b, a);
      ErrorShifts(b, a, xs[n], ys[n], c);
    }
  }

  lemma ErrorShifts(b: real, a: real, x: real, y: real, c: real)
    ensures SquaredError(b, a + c, x, y + c) == SquaredError(b, a, x, y)
  {
  }

  lemma ShiftKeepsOptimal(xs: seq<real>, ys: seq<real>, c: real, slope: real, offset: real)
    requires |xs| == |ys|
    ensures Optimal(xs, ys, slope, offset) <==> Optimal(xs, Shifted(ys, c), slope, offset + c)
  {
    hide Residual;
    ResidualShifts(xs, ys, c, slope, offset);
    if Optimal(xs, ys, slope, offset) {
      forall b, a ensures Residual(xs, Shifted(ys, c), slope, offset + c) <= Residual(xs, Shifted(ys, c), b, a) {
        ResidualShifts(xs, ys, c, b, a - c);
      }
    }
    if Optimal(xs, Shifted(ys, c), slope, offset + c) {
      forall b, a ensures Residual(xs, ys, slope, offset) <= Residual(xs, ys, b, a) {
        ResidualShifts(xs, ys, c, b, a);
      }
    }
  }

  /** A constant voltage offset changes no resistance. */
  lemma OffsetKeepsSlope(xs: seq<real>, ys: seq<real>, c: real, slope: real)
    requires |xs| == |ys|
    ensures LeastSquares(xs, ys, slope) <==> LeastSquares(xs, Shifted(ys, c), slope)
  {
    hide Optimal;
    forall offset ensures Optimal(xs, ys, slope, offset) <==> Optimal(xs, Shifted(ys, c), slope, offset + c) {
      ShiftKeepsOptimal(xs, ys, c, slope, offset);
    }
    if LeastSquares(xs, Shifted(ys, c), slope) {
      var offset :| Optimal(xs, Shifted(ys, c), slope, offset);
      assert Optimal(xs, ys, slope, offset - c);
    }
  }
}
