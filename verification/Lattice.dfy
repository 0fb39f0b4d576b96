/**
 The common grid of two DACs under an integer voltage split, as the planner
 computes it: checked 128-bit integers, reduced fractions, a rational least
 common multiple, and an exact decimal quotient.
 */
module Lattice {
  import opened Wrappers
  import opened Divisibility

  /** A decimal as its library stores it: mantissa / 10^scale. */
  datatype Decimal = Decimal(mantissa: int, scale: nat)

  const I128_LIMIT: int := 0x8000_0000_0000_0000_0000_0000_0000_0000
  const MANTISSA_LIMIT: int := 0x1_0000_0000_0000_0000_0000_0000
  const MAX_SCALE: nat := 28

  datatype SplitError = Overflow | NotRepresentable

  /** The unreduced or reduced fraction n / d. */
  datatype Fraction = Fraction(n: nat, d: nat)

  function Pow10(e: nat): (p: nat)
    ensures p > 0
  {
    if e == 0 then 1 else 10 * Pow10(e - 1)
  }

  function Value(d: Decimal): real {
    d.mantissa as real / Pow10(d.scale) as real
  }

  /** A positive decimal the library can hold: what a DAC resolution is. */
  predicate Resolution(d: Decimal) {
    0 < d.mantissa < MANTISSA_LIMIT && d.scale <= MAX_SCALE
  }

  function Finer(first: Decimal, second: Decimal): nat {
    if first.scale >= second.scale then first.scale else second.scale
  }

  /** The step of the total voltage that moves one source by one `resolution`, before reduction. */
  function Step(resolution: Decimal, scale: nat, total: nat, part: nat): (f: Fraction)
    requires Resolution(resolution) && resolution.scale <= scale && total > 0 && part > 0
    ensures f.n > 0 && f.d > 0
  {
    var n := resolution.mantissa * Pow10(scale - resolution.scale);
    Fraction(n * total, Pow10(scale) * part)
  }

  function Reduce(f: Fraction): (r: Fraction)
    requires f.n > 0 && f.d > 0
    ensures r.n > 0 && r.d > 0
  {
    Reduced(f.n, f.d);
    Fraction(f.n / Gcd(f.n, f.d), f.d / Gcd(f.n, f.d))
  }

  /** The rational least common multiple of two reduced fractions. */
  function Common(f: Fraction, g: Fraction): (c: Fraction)
    requires f.n > 0 && f.d > 0 && g.n > 0 && g.d > 0
    ensures c.n > 0 && c.d > 0
  {
    LcmIsPositive(f.n, g.n);
    GcdIsGcd(f.d, g.d);
    Fraction(Lcm(f.n, g.n), Gcd(f.d, g.d))
  }

  /** One source's reduced step, with every product checked. */
  function CheckedStep(resolution: Decimal, scale: nat, total: nat, part: nat): Result<Fraction, SplitError>
    requires Resolution(resolution) && resolution.scale <= scale && total > 0 && part > 0
  {
    if Pow10(scale - resolution.scale) >= I128_LIMIT then Err(Overflow)
    else if resolution.mantissa * Pow10(scale - resolution.scale) >= I128_LIMIT then Err(Overflow)
    else
      var f := Step(resolution, scale, total, part);
      if f.n >= I128_LIMIT || f.d >= I128_LIMIT then Err(Overflow) else Ok(Reduce(f))
  }

  /** n / d in decimal notation with the fewest places, if some decimal equals it. */
  function Divide(n: nat, d: nat, places: nat): Result<Decimal, SplitError>
    requires d > 0 && places <= MAX_SCALE
    decreases MAX_SCALE - places
  {
    var shifted := n * Pow10(places);
    if shifted % d == 0 then
      if shifted / d < MANTISSA_LIMIT then Ok(Decimal(shifted / d, places)) else Err(NotRepresentable)
    else if places == MAX_SCALE then Err(NotRepresentable)
    else Divide(n, d, places + 1)
  }

  /** The smallest step of the total voltage that both sources can follow. */
  function SplitIncrement(first: Decimal, second: Decimal, a: nat, b: nat): Result<Decimal, SplitError>
    requires Resolution(first) && Resolution(second) && a > 0 && b > 0
  {
    var scale := Finer(first, second);
    if Pow10(scale) >= I128_LIMIT then Err(Overflow)
    else
      var f := CheckedStep(first, scale, a + b, a);
      if f.Err? then Err(f.error)
      else
        var g := CheckedStep(second, scale, a + b, b);
        if g.Err? then Err(g.error)
        else
          var c := Common(f.value, g.value);
          if c.n >= MANTISSA_LIMIT || c.d >= MANTISSA_LIMIT then Err(Overflow) else Divide(c.n, c.d, 0)
  }

  // ---- Grids of rational steps ----

  function Steps(k: int, r: real): real {
    k as real * r
  }

  /** `v` is a whole number of steps `r`. */
  ghost predicate Multiple(v: real, r: real) {
    exists k: int :: v == Steps(k, r)
  }

  /** The same with r = p / q, cleared of its denominator. */
  ghost predicate OnGrid(v: real, p: int, q: int) {
    exists k: int :: v * q as real == Times(k, p) as real
  }

  lemma RealProduct(x: int, y: int)
    ensures (x * y) as real == x as real * y as real
  {
  }

  lemma CancelReal(c: real, x: real, y: real)
    requires c != 0.0 && c * x == c * y
    ensures x == y
  {
  }

  /** Equal fractions have equal grids. */
  lemma SameGrid(v: real, p: int, q: int, p': int, q': int)
    requires q > 0 && q' > 0 && p * q' == p' * q
    requires OnGrid(v, p, q)
    ensures OnGrid(v, p', q')
  {
    var k :| v * q as real == Times(k, p) as real;
    var s, t := q as real, q' as real;
    assert k * p * q' == k * p' * q by {
      Swap(k, p, q');
      Swap(k, p', q);
    }
    RealProduct(k * p, q');
    RealProduct(k * p', q);
    assert s * (v * t) == s * Times(k, p') as real;
    CancelReal(s, v * t, Times(k, p') as real);
  }

  lemma ReducedGrid(v: real, f: Fraction)
    requires f.n > 0 && f.d > 0
    ensures OnGrid(v, f.n, f.d) <==> OnGrid(v, Reduce(f).n, Reduce(f).d)
  {
    Reduced(f.n, f.d);
    var g, r := Gcd(f.n, f.d), Reduce(f);
    Swap(g, r.n, r.d);
    Swap(g, r.d, r.n);
    if OnGrid(v, f.n, f.d) {
      SameGrid(v, f.n, f.d, r.n, r.d);
    }
    if OnGrid(v, r.n, r.d) {
      SameGrid(v, r.n, r.d, f.n, f.d);
    }
  }

  lemma Combine(v: real, x: int, q: int, k: int, y: int, q': int, k': int)
    requires v * q as real == k as real && v * q' as real == k' as real
    ensures v * (x * q + y * q') as real == (x * k + y * k') as real
  {
    RealProduct(x, q);
    RealProduct(y, q');
    RealProduct(x, k);
    RealProduct(y, k');
    Distribute(v, x as real, q as real, y as real, q' as real);
  }

  lemma Distribute(v: real, a: real, s: real, b: real, t: real)
    ensures v * (a * s + b * t) == a * (v * s) + b * (v * t)
  {
  }

  /** v * g == w and v * q == m make w * q == m * g. */
  lemma CrossReal(v: real, g: int, w: int, q: int, m: int)
    requires v * g as real == w as real && v * q as real == m as real
    ensures w * q == m * g
  {
    RealProduct(w, q);
    RealProduct(m, g);
    var s, t := g as real, q as real;
    assert (v * s) * t == (v * t) * s;
  }

  lemma Witness(v: real, p: int, q: int) returns (k: int)
    requires OnGrid(v, p, q)
    ensures v * q as real == (k * p) as real
  {
    k :| v * q as real == Times(k, p) as real;
  }

  /** A reduced numerator divides the value once the value is made whole. */
  lemma NumeratorDivides(v: real, p: nat, q: nat, c: int, w: int)
    requires Coprime(p, q) && OnGrid(v, p, q) && v * c as real == w as real
    ensures Divides(p, w)
  {
    var k := Witness(v, p, q);
    CrossReal(v, c, w, q, k * p);
    assert (k * p) * c == p * (k * c) by {
      Swap(p, k, c);
    }
    var j := Euclid(p, q, w, k * c);
    assert w == Times(p, j);
  }

  /** A value that two denominators make whole is made whole by their combinations. */
  lemma MadeWhole(v: real, f: Fraction, g: Fraction, c: int) returns (w: int)
    requires Combination(c, f.d, g.d) && OnGrid(v, f.n, f.d) && OnGrid(v, g.n, g.d)
    ensures v * c as real == w as real
  {
    var k := Witness(v, f.n, f.d);
    var l := Witness(v, g.n, g.d);
    var x: int, y: int :| Times(x, f.d) + Times(y, g.d) == c;
    w := x * (k * f.n) + y * (l * g.n);
    Combine(v, x, f.d, k * f.n, y, g.d, l * g.n);
  }

  lemma BothDivide(v: real, f: Fraction, g: Fraction, c: int) returns (w: int)
    requires Coprime(f.n, f.d) && Coprime(g.n, g.d) && Combination(c, f.d, g.d)
    requires OnGrid(v, f.n, f.d) && OnGrid(v, g.n, g.d)
    ensures v * c as real == w as real
    ensures Divides(f.n, w) && Divides(g.n, w)
  {
    w := MadeWhole(v, f, g, c);
    NumeratorDivides(v, f.n, f.d, c, w);
    NumeratorDivides(v, g.n, g.d, c, w);
  }

  /** A value on both grids is on the grid of the least common multiple. */
  lemma OnBothGrids(v: real, f: Fraction, g: Fraction)
    requires f.n > 0 && f.d > 0 && g.n > 0 && g.d > 0
    requires Coprime(f.n, f.d) && Coprime(g.n, g.d)
    requires OnGrid(v, f.n, f.d) && OnGrid(v, g.n, g.d)
    ensures OnGrid(v, Common(f, g).n, Common(f, g).d)
  {
    var c := Common(f, g);
    GcdCombines(f.d, g.d);
    var w := BothDivide(v, f, g, c.d);
    LcmDivides(f.n, g.n, w);
    FromDivides(v, c.n, c.d, w);
  }

  lemma FromDivides(v: real, p: int, q: int, w: int)
    requires v * q as real == w as real && Divides(p, w)
    ensures OnGrid(v, p, q)
  {
    var k :| w == Times(p, k);
    assert w == Times(k, p);
  }

  /** A value on the common grid is on the grid of a step it was built from. */
  lemma OnOneGrid(v: real, n: int, d: int, f: Fraction, t: int, e: int)
    requires f.d > 0 && n == t * f.n && f.d == d * e
    requires OnGrid(v, n, d)
    ensures OnGrid(v, f.n, f.d)
  {
    var k :| v * d as real == Times(k, n) as real;
    RealProduct(d, e);
    RealProduct(k * n, e);
    assert v * f.d as real == (v * d as real) * e as real;
    assert k * n * e == Times(k * t * e, f.n) by {
      Swap(k, t, f.n);
      Swap(k * t, f.n, e);
    }
  }

  /** The intersection of two rational grids is the grid of lcm(numerators) / gcd(denominators). */
  lemma CommonGrid(v: real, f: Fraction, g: Fraction)
    requires f.n > 0 && f.d > 0 && g.n > 0 && g.d > 0
    requires Coprime(f.n, f.d) && Coprime(g.n, g.d)
    ensures OnGrid(v, f.n, f.d) && OnGrid(v, g.n, g.d) <==> OnGrid(v, Common(f, g).n, Common(f, g).d)
  {
    var c := Common(f, g);
    if OnGrid(v, f.n, f.d) && OnGrid(v, g.n, g.d) {
      OnBothGrids(v, f, g);
    }
    if OnGrid(v, c.n, c.d) {
      var p, q := LcmIsMultiple(f.n, g.n);
      var i, j := GcdDivides(f.d, g.d);
      OnOneGrid(v, c.n, c.d, f, q, i);
      OnOneGrid(v, c.n, c.d, g, p, j);
    }
  }

  // ---- From resolutions to grids and back ----

  lemma {:induction false} Pow10Sum(i: nat, j: nat)
    ensures Pow10(i + j) == Pow10(i) * Pow10(j)
  {
    if i > 0 {
      Pow10Sum(i - 1, j);
      Swap(10, Pow10(i - 1), Pow10(j));
    }
  }

  /** Clearing the denominator of a step. */
  lemma MultipleOnGrid(v: real, p: int, q: int)
    requires q > 0
    ensures Multiple(v, p as real / q as real) <==> OnGrid(v, p, q)
  {
    var r := p as real / q as real;
    assert r * q as real == p as real;
    if Multiple(v, r) {
      var k :| v == Steps(k, r);
      RealProduct(k, p);
      assert v * q as real == k as real * (r * q as real);
      assert v * q as real == Times(k, p) as real;
    }
    if OnGrid(v, p, q) {
      var k :| v * q as real == Times(k, p) as real;
      RealProduct(k, p);
      assert q as real * Steps(k, r) == k as real * (r * q as real);
      CancelReal(q as real, v, Steps(k, r));
    }
  }

  /** Scaling the value by a / t scales the step by t / a. */
  lemma ScaledGrid(v: real, p: int, q: int, a: nat, t: nat)
    requires q > 0 && a > 0 && t > 0
    ensures OnGrid(v * a as real / t as real, p, q) <==> OnGrid(v, p * t, q * a)
  {
    var u := v * a as real / t as real;
    assert u * t as real == v * a as real;
    RealProduct(q, a);
    forall k: int ensures u * q as real == Times(k, p) as real <==> v * (q * a) as real == Times(k, p * t) as real {
      RealProduct(k * p, t);
      Swap(k, p, t);
      Rescale(u, v, q as real, a as real, t as real, (k * p) as real);
    }
  }

  lemma Rescale(u: real, v: real, q: real, a: real, t: real, m: real)
    requires t > 0.0 && u * t == v * a
    ensures u * q == m <==> v * (q * a) == m * t
  {
    assert t * (u * q) == v * (q * a) by {
      assert (u * t) * q == t * (u * q);
      assert (v * a) * q == v * (q * a);
    }
    if t * (u * q) == t * m {
      CancelReal(t, u * q, m);
    }
  }

  /** The step computed for a source is the grid on which its share of the total is a multiple of its resolution. */
  lemma StepGrid(v: real, r: Decimal, scale: nat, total: nat, part: nat)
    requires Resolution(r) && r.scale <= scale && total > 0 && part > 0
    ensures var f := Step(r, scale, total, part);
            Multiple(v * part as real / total as real, Value(r)) <==> OnGrid(v, f.n, f.d)
  {
    var p, q := r.mantissa * Pow10(scale - r.scale), Pow10(scale);
    Pow10Sum(r.scale, scale - r.scale);
    var u := v * part as real / total as real;
    MultipleOnGrid(u, r.mantissa, Pow10(r.scale));
    assert r.mantissa * q == p * Pow10(r.scale) by {
      Swap(r.mantissa, Pow10(r.scale), Pow10(scale - r.scale));
      Swap(r.mantissa, Pow10(scale - r.scale), Pow10(r.scale));
    }
    if OnGrid(u, r.mantissa, Pow10(r.scale)) {
      SameGrid(u, r.mantissa, Pow10(r.scale), p, q);
    }
    if OnGrid(u, p, q) {
      SameGrid(u, p, q, r.mantissa, Pow10(r.scale));
    }
    ScaledGrid(v, p, q, part, total);
  }

  lemma WholeQuotient(x: nat, d: nat)
    requires x > 0 && d > 0 && x % d == 0
    ensures x / d > 0 && (x / d) * d == x
  {
    SignOfFactor(d, x / d);
  }

  /** An accepted quotient is exact, and no shorter decimal equals it. */
  lemma {:induction false} DivideIsExact(n: nat, d: nat, places: nat)
    requires n > 0 && d > 0 && places <= MAX_SCALE
    ensures var q := Divide(n, d, places);
            q.Ok? ==> Resolution(q.value) && q.value.mantissa * d == n * Pow10(q.value.scale)
    ensures var q := Divide(n, d, places);
            q.Ok? ==> forall e: nat :: places <= e < q.value.scale ==> (n * Pow10(e)) % d != 0
    decreases MAX_SCALE - places
  {
    var shifted := n * Pow10(places);
    SignOfProduct(n, Pow10(places));
    if shifted % d == 0 {
      WholeQuotient(shifted, d);
    } else if places < MAX_SCALE {
      DivideIsExact(n, d, places + 1);
    }
  }

  lemma QuotientGrid(v: real, n: nat, d: nat)
    requires n > 0 && d > 0 && Divide(n, d, 0).Ok?
    ensures Multiple(v, Value(Divide(n, d, 0).value)) <==> OnGrid(v, n, d)
  {
    DivideIsExact(n, d, 0);
    var q := Divide(n, d, 0).value;
    MultipleOnGrid(v, q.mantissa, Pow10(q.scale));
    if OnGrid(v, n, d) {
      SameGrid(v, n, d, q.mantissa, Pow10(q.scale));
    }
    if OnGrid(v, q.mantissa, Pow10(q.scale)) {
      SameGrid(v, q.mantissa, Pow10(q.scale), n, d);
    }
  }

  /** The step common to both sources, whatever its size. */
  function CommonStep(first: Decimal, second: Decimal, a: nat, b: nat): (c: Fraction)
    requires Resolution(first) && Resolution(second) && a > 0 && b > 0
    ensures c.n > 0 && c.d > 0
  {
    var scale := Finer(first, second);
    Common(Reduce(Step(first, scale, a + b, a)), Reduce(Step(second, scale, a + b, b)))
  }

  lemma CommonStepGrid(first: Decimal, second: Decimal, a: nat, b: nat, v: real)
    requires Resolution(first) && Resolution(second) && a > 0 && b > 0
    ensures var scale := Finer(first, second);
            var c := CommonStep(first, second, a, b);
            var f := Step(first, scale, a + b, a);
            var g := Step(second, scale, a + b, b);
            OnGrid(v, c.n, c.d) <==> OnGrid(v, f.n, f.d) && OnGrid(v, g.n, g.d)
  {
    var scale := Finer(first, second);
    var f := Step(first, scale, a + b, a);
    var g := Step(second, scale, a + b, b);
    ReducedGrid(v, f);
    ReducedGrid(v, g);
    Reduced(f.n, f.d);
    Reduced(g.n, g.d);
    CommonGrid(v, Reduce(f), Reduce(g));
  }

  /**
   The increment is exactly the rational least common multiple: a total voltage is a
   whole number of increments if and only if each source's share of it is a whole number
   of that source's resolution.
   */
  lemma IncrementIsTheCommonGrid(first: Decimal, second: Decimal, a: nat, b: nat, v: real)
    requires Resolution(first) && Resolution(second) && a > 0 && b > 0
    requires SplitIncrement(first, second, a, b).Ok?
    ensures Resolution(SplitIncrement(first, second, a, b).value)
    ensures Multiple(v, Value(SplitIncrement(first, second, a, b).value)) <==>
              Multiple(v * a as real / (a + b) as real, Value(first)) &&
              Multiple(v * b as real / (a + b) as real, Value(second))
  {
    var scale := Finer(first, second);
    StepGrid(v, first, scale, a + b, a);
    StepGrid(v, second, scale, a + b, b);
    CommonStepGrid(first, second, a, b, v);
    var c := CommonStep(first, second, a, b);
    QuotientGrid(v, c.n, c.d);
    DivideIsExact(c.n, c.d, 0);
  }

  // ---- When the increment is refused ----

  /** Adding two shares: a total on both sources' grids is a whole number of units of the finer scale. */
  lemma OnFinestGrid(v: real, d: nat, m: nat, m': nat, a: nat, b: nat)
    requires d > 0 && a > 0 && b > 0
    requires OnGrid(v, m * (a + b), d * a) && OnGrid(v, m' * (a + b), d * b)
    ensures OnGrid(v, 1, d)
  {
    var t := a + b;
    var k := Witness(v, m * t, d * a);
    var l := Witness(v, m' * t, d * b);
    var w := k * m + l * m';
    AddShares(v, d as real, a as real, b as real, (k * (m * t)) as real, (l * (m' * t)) as real);
    assert k * (m * t) + l * (m' * t) == t * w by {
      Swap(k, m, t);
      Swap(l, m', t);
    }
    RealProduct(d, a);
    RealProduct(d, b);
    RealProduct(t, w);
    CancelReal(t as real, v * d as real, w as real);
    assert w == Times(w, 1);
  }

  lemma AddShares(v: real, d: real, a: real, b: real, x: real, y: real)
    requires v * (d * a) == x && v * (d * b) == y
    ensures (a + b) * (v * d) == x + y
  {
  }

  /** n / d on the grid of 1 / p divides n * p. */
  lemma OnUnitGrid(n: nat, d: nat, p: nat)
    requires d > 0 && OnGrid(n as real / d as real, 1, p)
    ensures (n * p) % d == 0
  {
    var v := n as real / d as real;
    var k := Witness(v, 1, p);
    assert v * d as real == n as real;
    CrossReal(v, d, n, p, k);
    if k >= 0 {
      ExactDivision(d, k);
    } else {
      SignOfProduct(d, -k);
      assert false;
    }
  }

  lemma {:induction false} DivideFails(n: nat, d: nat, places: nat, scale: nat)
    requires n > 0 && d > 0 && places <= scale <= MAX_SCALE && (n * Pow10(scale)) % d == 0
    requires Divide(n, d, places).Err?
    ensures n * Pow10(scale) / d >= MANTISSA_LIMIT
    decreases scale - places
  {
    if (n * Pow10(places)) % d == 0 {
      Pow10Sum(places, scale - places);
      Grow(n, Pow10(places), Pow10(scale - places), d);
    } else {
      DivideFails(n, d, places + 1, scale);
    }
  }

  lemma Grow(n: nat, x: nat, y: nat, d: nat)
    requires d > 0 && y > 0
    ensures n * (x * y) / d >= n * x / d
  {
    Swap(n, x, y);
    assert (n * x) * y >= n * x;
    DivisionIsMonotone(n * x, n * (x * y), d);
  }

  lemma CommonStepIsWhole(first: Decimal, second: Decimal, a: nat, b: nat)
    requires Resolution(first) && Resolution(second) && a > 0 && b > 0
    ensures var c := CommonStep(first, second, a, b);
            (c.n * Pow10(Finer(first, second))) % c.d == 0
  {
    var scale := Finer(first, second);
    var c := CommonStep(first, second, a, b);
    var v := c.n as real / c.d as real;
    assert OnGrid(v, c.n, c.d) by {
      assert v * c.d as real == Times(1, c.n) as real;
    }
    CommonStepGrid(first, second, a, b, v);
    OnFinestGrid(v, Pow10(scale), first.mantissa * Pow10(scale - first.scale),
                 second.mantissa * Pow10(scale - second.scale), a, b);
    OnUnitGrid(c.n, c.d, Pow10(scale));
  }

  /**
   When the quotient is refused, the voltage ratio is not the reason: the increment is always a
   whole number of units of the finer resolution's last place, and that number is too large to store.
   */
  lemma RatioIsNeverTheObstacle(first: Decimal, second: Decimal, a: nat, b: nat)
    requires Resolution(first) && Resolution(second) && a > 0 && b > 0
    ensures var c := CommonStep(first, second, a, b);
            (c.n * Pow10(Finer(first, second))) % c.d == 0
    ensures var c := CommonStep(first, second, a, b);
            SplitIncrement(first, second, a, b) == Err(NotRepresentable) ==>
              c.n * Pow10(Finer(first, second)) / c.d >= MANTISSA_LIMIT
  {
    CommonStepIsWhole(first, second, a, b);
    var c := CommonStep(first, second, a, b);
    if SplitIncrement(first, second, a, b) == Err(NotRepresentable) {
      assert Divide(c.n, c.d, 0).Err?;
      DivideFails(c.n, c.d, 0, Finer(first, second));
    }
  }

  /** Some decimal of at most 96 bits and 28 places equals the fraction. */
  ghost predicate Storable(c: Fraction) {
    exists q: Decimal :: Resolution(q) && q.mantissa * c.d == c.n * Pow10(q.scale)
  }

  /** The quotient of a storable fraction, over as many places as its decimal has. */
  lemma StorableQuotient(n: nat, d: nat, m: nat, p: nat)
    requires d > 0 && m * d == n * p
    ensures (n * p) % d == 0 && n * p / d == m
  {
    ExactDivision(d, m);
    assert d * m == n * p;
  }

  lemma DividesExactly(c: Fraction)
    requires c.n > 0 && c.d > 0
    ensures Divide(c.n, c.d, 0).Ok? <==> Storable(c)
  {
    hide Divide, Pow10;
    DivideIsExact(c.n, c.d, 0);
    if Storable(c) && Divide(c.n, c.d, 0).Err? {
      var q: Decimal :| Resolution(q) && q.mantissa * c.d == c.n * Pow10(q.scale);
      StorableQuotient(c.n, c.d, q.mantissa, Pow10(q.scale));
      DivideFails(c.n, c.d, 0, q.scale);
    }
  }

  lemma {:induction false} Pow10Grows(m: nat, n: nat)
    requires m <= n
    ensures Pow10(m) <= Pow10(n)
    decreases n - m
  {
    if m < n {
      Pow10Grows(m + 1, n);
    }
  }

  lemma Pow10Fits(e: nat)
    requires e <= MAX_SCALE
    ensures Pow10(e) < I128_LIMIT
  {
    Pow10Grows(e, MAX_SCALE);
    assert Pow10(7) == 10_000_000;
    Pow10Sum(7, 7);
    Pow10Sum(14, 14);
  }

  /** A step is computed exactly when its two products fit into 128-bit integers. */
  lemma StepFits(resolution: Decimal, scale: nat, total: nat, part: nat)
    requires Resolution(resolution) && resolution.scale <= scale <= MAX_SCALE && total > 0 && part > 0
    ensures var f := Step(resolution, scale, total, part);
      CheckedStep(resolution, scale, total, part)
      == if f.n < 0x8000_0000_0000_0000_0000_0000_0000_0000 && f.d < 0x8000_0000_0000_0000_0000_0000_0000_0000
         then Ok(Reduce(f)) else Err(Overflow)
  {
    hide Reduce;
    Pow10Fits(scale - resolution.scale);
    var n := resolution.mantissa * Pow10(scale - resolution.scale);
    assert n * total >= n by {
      NotLess(n, total);
    }
  }

  lemma NotLess(n: nat, total: nat)
    requires total > 0
    ensures n * total >= n
  {
  }

  /**
   The increment is found exactly when the two steps fit into 128-bit integers, their common multiple into a
   96-bit numerator and denominator, and some decimal equals it.
   */
  lemma SplitsExactly(first: Decimal, second: Decimal, a: nat, b: nat)
    requires Resolution(first) && Resolution(second) && a > 0 && b > 0
    ensures var scale := Finer(first, second);
      var f, g := Step(first, scale, a + b, a), Step(second, scale, a + b, b);
      var c := CommonStep(first, second, a, b);
      SplitIncrement(first, second, a, b).Ok? <==>
        && f.n < 0x8000_0000_0000_0000_0000_0000_0000_0000 && f.d < 0x8000_0000_0000_0000_0000_0000_0000_0000
        && g.n < 0x8000_0000_0000_0000_0000_0000_0000_0000 && g.d < 0x8000_0000_0000_0000_0000_0000_0000_0000
        && c.n < 0x1_0000_0000_0000_0000_0000_0000 && c.d < 0x1_0000_0000_0000_0000_0000_0000
        && Storable(c)
  {
    hide Divide, Storable, Common, Reduce, CheckedStep, Step, Pow10;
    var scale := Finer(first, second);
    Pow10Fits(scale);
    StepFits(first, scale, a + b, a);
    StepFits(second, scale, a + b, b);
    DividesExactly(CommonStep(first, second, a, b));
  }
}
