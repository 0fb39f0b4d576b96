/**
 A balanced plan that is accepted: two one-volt sources at one volt resolution
 share a listed sweep from 0 V to 2 V equally.
 */
module BalancedExample {
  import opened Wrappers
  import opened Divisibility
  import opened Lattice
  import opened Sweep
  import opened SweepScaling
  import opened Plan
  import opened Balanced
  import opened BalancedSplit
  import opened BalancedMeaning

  const UNIT: Increment := Decimal(1, 0)
  const DOUBLE: Increment := Decimal(2, 0)
  const RANGE := RangeSpec(1.0, Some(1.0), Some(UNIT), None)
  const PROFILE := Profile(1.0, 1.0, 2.0, 1.0, [RANGE])
  const SOURCE := SourceSpec(PROFILE, PROFILE, false)
  const CONFIG := Config(SOURCE, Iv, CustomList, 0.0, 0.0, 2.0, [0.0, 2.0], 2.0, 1.0, Some(1.0), 1.0)
  const SECOND := SecondSource(SOURCE, 1, 1, 1.0)
  const HALF := CONFIG.(step := 1.0, custom := [0.0, 1.0], sourceLimit := 1.0)
  const MIRROR := HALF.(custom := [0.0, -1.0])

  lemma OneRange(target: real)
    requires target <= 1.0
    ensures SelectRange(SOURCE, Iv, target, Some(1.0)) == Ok(Selection(1.0, 1.0, UNIT))
    ensures Value(UNIT) == 1.0
  {
    assert Quantized(PROFILE, 1.0) == Ok(1.0);
    assert PROFILE.ranges[..0] == [];
    assert Smallest(PROFILE.ranges[..0], Iv, target, Some(1.0)) == None;
    assert Smallest(PROFILE.ranges, Iv, target, Some(1.0)) == Some(0);
  }

  lemma CommonIncrement()
    ensures SplitIncrement(UNIT, UNIT, 1, 1) == Ok(DOUBLE) && Value(DOUBLE) == 2.0
  {
    var f := Step(UNIT, 0, 2, 1);
    assert f == Lattice.Fraction(2, 1);
    assert Gcd(2, 1) == 1 by { assert Gcd(1, 0) == 1; }
    assert Reduce(f) == f;
    assert Gcd(2, 2) == 2 by { assert Gcd(2, 0) == 2; }
    assert Gcd(1, 1) == 1;
    assert Common(f, f) == f;
    assert Divide(2, 1, 0) == Ok(DOUBLE);
  }

  lemma WholeIsExact(n: int)
    ensures Terminates(n as real)
  {
    RealProduct(n, Pow10(MAX_SCALE));
    WholeTerminates(n as real, n * Pow10(MAX_SCALE));
  }

  lemma Largest(x: real)
    ensures MaxSize([0.0, x]) == Size(x)
  {
    assert [0.0, x][..1] == [0.0];
    assert [0.0][..0] == [];
    assert MaxSize([0.0]) == 0.0;
  }

  lemma HalvesPlan(config: Config, x: real)
    requires config == HALF.(custom := [0.0, x], rampStep := config.rampStep) && (x == 1.0 || x == -1.0)
    ensures Prepare(config) == Ok(config.(rampStep := 1.0))
    ensures PlanSingle(config).Ok? && |PlanSingle(config).value.points| == 2
  {
    Largest(x);
    OneRange(1.0);
    assert CeilTo(0.01, 1.0) == 1.0;
    var s := Selection(1.0, 1.0, UNIT);
    assert OwnSelection(config) == Ok(s);
    assert Prepare(config) == Ok(config.(rampStep := 1.0));
    var ready := config.(rampStep := 1.0);
    assert AllAligned([0.0, x], 1.0);
    assert AlignedRoute(ready, 1.0) == Ok([0.0, x]);
    assert Quantized(PROFILE, 1.0) == Ok(1.0);
  }

  lemma DerivedHalves()
    ensures SourceConfig(CONFIG, SOURCE, 1.0, 2.0, 1, 2, 1.0) == Ok(HALF)
    ensures SourceConfig(CONFIG, SOURCE, -1.0, 2.0, 1, 2, 1.0) == Ok(MIRROR)
  {
    WholeIsExact(0);
    WholeIsExact(1);
    WholeIsExact(-1);
    assert Weight(1, 2) == 0.5;
    assert Scale(Scale([0.0, 2.0], 1.0), 0.5) == [0.0, 1.0];
    assert Scale(Scale([0.0, 2.0], -1.0), 0.5) == [0.0, -1.0];
  }

  lemma CommonRampIsTwo()
    ensures CommonRamp(HALF, MIRROR, Selection(1.0, 1.0, UNIT), Selection(1.0, 1.0, UNIT), DOUBLE, SECOND) == Ok(2.0)
  {
    CommonIncrement();
    WholeIsExact(1);
    assert Weight(1, 2) == 0.5;
    assert SlowerRamp(HALF, MIRROR, SECOND) == 2.0;
    assert CeilTo(2.0, 2.0) == 2.0;
  }

  lemma ExampleIsPrepared()
    ensures PrepareBalanced(CONFIG, SECOND) ==
            Ok(Settings(CONFIG.(rampStep := 2.0), HALF, MIRROR, DOUBLE))
  {
    hide SelectRange, SplitIncrement, SourceConfig, Prepare, CommonRamp;
    Largest(2.0);
    OneRange(1.0);
    CommonIncrement();
    DerivedHalves();
    HalvesPlan(HALF, 1.0);
    HalvesPlan(MIRROR, -1.0);
    CommonRampIsTwo();
    assert Weight(1, 2) == 0.5;
    assert ExactProtection(SOURCE, 1.0).None?;
    assert CommonStepSize(2.0, DOUBLE) == 2.0;
  }

  /** The theorems about balanced plans speak of plans that exist. */
  lemma BalancedPlansExist()
    ensures PlanBalanced(CONFIG, SECOND).Ok? && |PlanBalanced(CONFIG, SECOND).value.points| == 2
  {
    hide PrepareBalanced, PlanSingle, PlanBalanced;
    ExampleIsPrepared();
    HalvesPlan(HALF, 1.0);
    HalvesPlan(MIRROR, -1.0);
    DualPlansExactly(CONFIG, SECOND);
    PlansAreTheSources(CONFIG, SECOND);
    SourcesSplitTheDifferential(CONFIG, SECOND);
  }
}
