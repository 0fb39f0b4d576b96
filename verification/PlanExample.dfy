/** The shipped default configuration on the Yokogawa GS210, planned. */
module PlanExample {
  import opened Wrappers
  import opened Lattice
  import opened Sweep
  import opened Plan
  import opened PlanSafety

  const VOLTAGE_RANGES := [
    RangeSpec(0.01, Some(0.012), Some(Decimal(1, 7)), Some(0.2)),
    RangeSpec(0.1, Some(0.12), Some(Decimal(1, 6)), Some(0.2)),
    RangeSpec(1.0, Some(1.2), Some(Decimal(1, 5)), None),
    RangeSpec(10.0, Some(12.0), Some(Decimal(1, 4)), None),
    RangeSpec(30.0, Some(32.0), Some(Decimal(1, 3)), None)]

  const CURRENT_RANGES := [
    RangeSpec(0.001, Some(0.0012), Some(Decimal(1, 8)), None),
    RangeSpec(0.01, Some(0.012), Some(Decimal(1, 7)), None),
    RangeSpec(0.1, Some(0.12), Some(Decimal(1, 6)), None),
    RangeSpec(0.2, Some(0.2), Some(Decimal(1, 6)), None)]

  const GS210 := SourceSpec(
    Profile(32.0, 0.001, 0.2, 0.001, VOLTAGE_RANGES), Profile(0.2, 1.0, 30.0, 1.0, CURRENT_RANGES), false)

  const DEFAULT := Config(GS210, Iv, ZeroCentered, -0.001, 0.001, 0.0001, [], 0.001, 0.001, None, 0.0001)

  lemma {:induction false} MaxSizeWithin(p: seq<real>, bound: real)
    requires bound >= 0.0 && forall i :: 0 <= i < |p| ==> Size(p[i]) <= bound
    ensures MaxSize(p) <= bound
    decreases |p|
  {
    if p != [] {
      MaxSizeWithin(p[..|p| - 1], bound);
    }
  }

  lemma TenMillivoltRange()
    ensures SelectRange(GS210, Iv, 0.001, None) == Ok(Selection(0.01, 0.012, Decimal(1, 7)))
    ensures Value(Decimal(1, 7)) == 0.0000001
  {
    var r := VOLTAGE_RANGES;
    SmallestIsSmallest(r, Iv, 0.001, None);
    assert Candidate(r[0], Iv, 0.001, None);
    assert Smallest(r, Iv, 0.001, None) == Some(0);
    assert Pow10(7) == 10_000_000;
  }

  lemma DefaultIsPrepared()
    ensures Prepare(DEFAULT) == Ok(DEFAULT)
  {
    TenMillivoltRange();
    assert LargestTarget(DEFAULT) == 0.001;
    assert Aligned(0.0001, 0.0000001);
    assert CeilTo(0.01 / 100.0, 0.0000001) == 0.0001;
  }

  lemma DefaultRoute()
    ensures AlignedRoute(DEFAULT, 0.0000001).Ok?
    ensures MaxSize(AlignedRoute(DEFAULT, 0.0000001).value) <= 0.001
  {
    assert Intervals(0.0, 0.001, 0.0001) == 10 && Intervals(-0.001, 0.0, 0.0001) == 10;
    assert Intervals(0.001, -0.001, 0.0001) == 20;
    RouteIsATour(ZeroCentered, -0.001, 0.001, 0.0001, []);
    RouteIsCovered(DEFAULT, 0.0000001);
    MaxSizeWithin(AlignedRoute(DEFAULT, 0.0000001).value, 0.001);
  }

  lemma DefaultIsPlanned()
    ensures PlanSingle(DEFAULT).Ok?
  {
    hide Walk, Sweep.Route, SelectRange;
    TenMillivoltRange();
    DefaultIsPrepared();
    DefaultRoute();
    assert Aligned(0.0001, 0.0000001) && Aligned(0.001, 0.0000001) && Aligned(-0.001, 0.0000001);
    assert Quantized(GS210.voltage, 0.001) == Ok(0.001);
  }

  /** Without an explicit limit the default configuration stops at 1 mA and is protected at 200 mA. */
  lemma ImplicitProtectionCanBeWeakened()
    ensures DEFAULT.sourceCompliance == None && DistinctCommands(GS210.voltage.ranges)
    ensures Quantized(GS210.voltage, DEFAULT.compliance) == Ok(0.001)
    ensures PlanSingle(DEFAULT).Ok? && PlanSingle(DEFAULT).value.compliance == 0.2
  {
    hide Walk, Sweep.Route, SelectRange, Prepare, AlignedRoute, MaxSize, Aligned;
    DefaultIsPlanned();
    DefaultIsPrepared();
    TenMillivoltRange();
    assert FixedLimit(VOLTAGE_RANGES, 0.01) == Some(0.2);
    assert Quantized(GS210.voltage, 0.001) == Ok(0.001);
  }
}
