/** When a balanced pair of plans exists, and what the pair then guarantees beyond splitting the differential. */
module BalancedMeaning {
  import opened Wrappers
  import opened Lattice
  import opened Sweep
  import opened SweepScaling
  import opened Plan
  import opened PlanSafety
  import opened PlanMeaning
  import opened Balanced
  import opened BalancedSplit

  // ---- Two plans are enough ----

  /** A value both of whose signed shares are on the sources' grids is on the common grid. */
  lemma SharedIsMultiple(v: real, first: Increment, second: Increment, a: nat, b: nat)
    requires a > 0 && b > 0 && SplitIncrement(first, second, a, b).Ok?
    requires Multiple(By(1.0 * Weight(a, a + b), v), Value(first))
    requires Multiple(By(-1.0 * Weight(b, a + b), v), Value(second))
    ensures Multiple(v, Value(SplitIncrement(first, second, a, b).value))
  {
    hide SplitIncrement, Weight, Value;
    var f, g := Weight(a, a + b), Weight(b, a + b);
    NegatedWeight(f, g, v);
    MultipleNegates(-By(g, v), Value(second));
    IncrementIsTheCommonGrid(first, second, a, b, v);
    ShareIsProduct(v, a, a + b);
    ShareIsProduct(v, b, a + b);
  }

  lemma RouteExistsFollowing(source: Config, whole: Config, c: real)
    requires Follows(source, whole, c) && c != 0.0
    requires Sweep.Route(source.pattern, source.start, source.stop, source.step, source.custom).Ok?
    ensures Sweep.Route(whole.pattern, whole.start, whole.stop, whole.step, whole.custom).Ok?
  {
    RouteScales(whole.pattern, whole.start, whole.stop, whole.step, whole.custom, c);
    RouteIgnoresStepSign(source.pattern, source.start, source.stop, By(c, whole.step), source.step, source.custom);
  }

  /** What an accepted plan of a source on its own grid says of its targets. */
  lemma SourceIsOnGrid(source: Config)
    requires OnOwnGrid(source) && PlanSingle(source).Ok?
    ensures var r := Grid(OwnSelection(source).value);
      && (source.pattern == CustomList ==> forall x | x in source.custom :: Multiple(x, r))
      && (source.pattern != CustomList ==> Multiple(source.start, r) && Multiple(source.stop, r))
      && Sweep.Route(source.pattern, source.start, source.stop, source.step, source.custom).Ok?
      && LargestTarget(source) <= source.sourceLimit
  {
    hide Smallest, LargestTarget;
    PlansExactly(source);
    OnGridStepIsKept(source);
    PlanIsItsRoute(source);
  }

  /** If both sources can be planned, the differential targets are on the common grid and can be walked. */
  lemma BaseExists(differential: Config, first: Config, second: Config, s1: Selection, s2: Selection, inc: Increment,
      a: nat, b: nat)
    requires a > 0 && b > 0 && SplitIncrement(s1.resolution, s2.resolution, a, b) == Ok(inc)
    requires Follows(first, differential, 1.0 * Weight(a, a + b))
    requires Follows(second, differential, -1.0 * Weight(b, a + b))
    requires OnOwnGrid(first) && OwnSelection(first) == Ok(s1) && PlanSingle(first).Ok?
    requires OnOwnGrid(second) && OwnSelection(second) == Ok(s2) && PlanSingle(second).Ok?
    requires differential.step != 0.0 && Multiple(Size(differential.step), Value(inc))
    ensures BasePoints(differential, inc).Ok?
  {
    hide SplitIncrement, OnOwnGrid, OwnSelection, PlanSingle, Multiple, Value, Weight, Sweep.Route, LargestTarget;
    SourceIsOnGrid(first);
    SourceIsOnGrid(second);
    ValueIsPositive(inc);
    var r := Value(inc);
    WeightIsPositive(a, a + b);
    RouteExistsFollowing(first, differential, 1.0 * Weight(a, a + b));
    NegationIsMultiple(differential.step, r);
    AlignedIsMultiple(differential.step, r);
    if differential.pattern == CustomList {
      forall i | 0 <= i < |differential.custom| ensures Aligned(differential.custom[i], r) {
        assert first.custom[i] in first.custom && second.custom[i] in second.custom;
        SharedIsMultiple(differential.custom[i], s1.resolution, s2.resolution, a, b);
        AlignedIsMultiple(differential.custom[i], r);
      }
    } else {
      SharedIsMultiple(differential.start, s1.resolution, s2.resolution, a, b);
      SharedIsMultiple(differential.stop, s1.resolution, s2.resolution, a, b);
      AlignedIsMultiple(differential.start, r);
      AlignedIsMultiple(differential.stop, r);
    }
  }

  lemma LimitScales(f: real, x: real, limit: real)
    requires f > 0.0 && By(f, x) <= limit * f
    ensures x <= limit
  {
    assert limit * f == By(f, limit);
    OrderScales(f, x, limit);
  }

  /** No differential target is beyond the limit if source 1's share of it is within its share of the limit. */
  lemma BaseIsWithinLimit(differential: Config, first: Config, inc: Increment, f: real)
    requires Follows(first, differential, 1.0 * f) && f > 0.0 && OnOwnGrid(first) && PlanSingle(first).Ok?
    requires first.sourceLimit == differential.sourceLimit * f && differential.step != 0.0
    requires BasePoints(differential, inc).Ok?
    ensures MaxSize(BasePoints(differential, inc).value) <= differential.sourceLimit
  {
    hide OnOwnGrid, PlanSingle, Value, Sweep.Route, MaxSize, LargestTarget;
    SourceIsOnGrid(first);
    LargestTargetFollows(first, differential, 1.0 * f);
    ValueIsPositive(inc);
    LargestIsReached(differential, BasePoints(differential, inc).value, differential.step);
    assert Size(1.0 * f) == f;
    LimitScales(f, LargestTarget(differential), differential.sourceLimit);
  }

  /**
   A balanced plan exists exactly when its settings can be prepared and each of the two sources can be planned: of
   the later checks, on the common grid, the differential limit and the point counts, none can fail.
   */
  lemma DualPlansExactly(config: Config, two: SecondSource)
    ensures PlanBalanced(config, two).Ok? <==>
      var prepared := PrepareBalanced(config, two);
      prepared.Ok? && PlanSingle(prepared.value.first).Ok? && PlanSingle(prepared.value.second).Ok?
  {
    hide PrepareBalanced, PlanSingle, BasePoints, Selections, SplitIncrement, Weight, OnOwnGrid, MaxSize, Value;
    var prepared := PrepareBalanced(config, two);
    if prepared.Ok? && PlanSingle(prepared.value.first).Ok? && PlanSingle(prepared.value.second).Ok? {
      var s := prepared.value;
      SourcesFollow(config, two);
      SourcesKeepTheirLimits(config, two);
      DifferentialStep(config, two);
      var chosen := Selections(config, two).value;
      BaseExists(s.differential, s.first, s.second, chosen.0, chosen.1, s.increment, two.part1, two.part2);
      WeightIsPositive(two.part1, two.part1 + two.part2);
      BaseIsWithinLimit(s.differential, s.first, s.increment, Weight(two.part1, two.part1 + two.part2));
      PlansAreScaled(config, two);
    }
  }

  /** A balanced plan carries the two prepared configurations, their own plans and the common increment. */
  lemma PlansAreTheSources(config: Config, two: SecondSource)
    requires PlanBalanced(config, two).Ok?
    ensures var s := PrepareBalanced(config, two).value;
      var p := PlanBalanced(config, two).value;
      && p.first == s.first && p.second == s.second && p.increment == s.increment
      && PlanSingle(s.first) == Ok(p.plan1) && PlanSingle(s.second) == Ok(p.plan2)
  {
    hide PrepareBalanced, PlanSingle, BasePoints;
  }

  /** The differential settings are the configured ones with a common step and a common ramp. */
  lemma DifferentialStep(config: Config, two: SecondSource)
    requires PrepareBalanced(config, two).Ok?
    ensures var s := PrepareBalanced(config, two).value;
      && s.differential == config.(step := s.differential.step, rampStep := s.differential.rampStep)
      && s.differential.step != 0.0 && Multiple(Size(s.differential.step), Value(s.increment))
      && Size(config.step) <= Size(s.differential.step) < Size(config.step) + Value(s.increment)
      && (s.differential.step > 0.0 <==> config.step > 0.0)
  {
    hide PrepareBalanced, Selections, SplitIncrement, SourceConfig, Prepare, Multiple, Value, CommonStepSize;
    var s1, s2 := PreparedParts(config, two);
    CommonStepIsAMultiple(config.step, PrepareBalanced(config, two).value.increment);
  }

  // ---- What the pair guarantees ----

  function DualTargets(p: DualPlan): seq<real> {
    seq(|p.points|, i requires 0 <= i < |p.points| => p.points[i].target)
  }

  /** The differential points are the route between the configured ends in common steps, directed as it moves. */
  lemma DualPlanIsItsRoute(config: Config, two: SecondSource)
    requires PlanBalanced(config, two).Ok?
    ensures var p := PlanBalanced(config, two).value;
      var step := PrepareBalanced(config, two).value.differential.step;
      && Sweep.Route(config.pattern, config.start, config.stop, step, config.custom) == Ok(DualTargets(p))
      && Directed(DualTargets(p), seq(|p.points|, i requires 0 <= i < |p.points| => p.points[i].direction))
  {
    hide PrepareBalanced, PlanSingle, BasePoints;
    DifferentialStep(config, two);
    var s := PrepareBalanced(config, two).value;
    var base := BasePoints(s.differential, s.increment).value;
    var p := PlanBalanced(config, two).value;
    BaseIsTheRoute(s.differential, s.increment);
    assert p.points == SweepPoints(base);
    assert DualTargets(p) == base;
    assert seq(|p.points|, i requires 0 <= i < |p.points| => p.points[i].direction) == Headings(base);
    HeadingsAreDirected(base);
  }

  lemma BaseIsTheRoute(differential: Config, inc: Increment)
    requires BasePoints(differential, inc).Ok?
    ensures Sweep.Route(differential.pattern, differential.start, differential.stop, differential.step,
                        differential.custom)
         == Ok(BasePoints(differential, inc).value)
  {
  }

  /** Every differential target is within the configured limit, and every share within its source's part of it. */
  lemma DualTargetsAreSafe(config: Config, two: SecondSource, i: nat)
    requires PlanBalanced(config, two).Ok? && i < |PlanBalanced(config, two).value.points|
    ensures 0 < two.part1 && 0 < two.part2
    ensures var p := PlanBalanced(config, two).value;
      var total := two.part1 + two.part2;
      && |p.plan1.points| == |p.plan2.points| == |p.points|
      && Size(p.points[i].target) <= config.sourceLimit
      && Size(p.plan1.points[i].target) <= config.sourceLimit * Weight(two.part1, total)
      && Size(p.plan1.points[i].target) <= config.source.voltage.hardMaximum
      && Size(p.plan2.points[i].target) <= config.sourceLimit * Weight(two.part2, total)
      && Size(p.plan2.points[i].target) <= two.source.voltage.hardMaximum
  {
    hide PrepareBalanced, PlanSingle, BasePoints, Weight, ExactProtection, SelectRange, Multiple, LargestTarget;
    SourcesKeepTheirLimits(config, two);
    SourcesSplitTheDifferential(config, two);
    DifferentialStep(config, two);
    var s := PrepareBalanced(config, two).value;
    PlannedTargetsAreSafe(s.first);
    PlannedTargetsAreSafe(s.second);
    var base := BasePoints(s.differential, s.increment).value;
    assert Size(base[i]) <= MaxSize(base);
  }

  /** Each source is programmed with exactly the protection asked for it, or by a fixed limiter below that. */
  lemma DualProtectionIsExact(config: Config, two: SecondSource)
    requires DistinctCommands(config.source.voltage.ranges) && DistinctCommands(two.source.voltage.ranges)
    requires PlanBalanced(config, two).Ok?
    ensures var p := PlanBalanced(config, two).value;
      var fixed1 := FixedLimit(config.source.voltage.ranges, p.plan1.range);
      var fixed2 := FixedLimit(two.source.voltage.ranges, p.plan2.range);
      && (if fixed1.Some? then p.plan1.compliance == fixed1.value <= Protection(config)
          else p.plan1.compliance == Protection(config))
      && (if fixed2.Some? then p.plan2.compliance == fixed2.value <= two.compliance
          else p.plan2.compliance == two.compliance)
  {
    hide PrepareBalanced, PlanSingle, BasePoints, ExactProtection, Quantized, FixedLimit;
    SourcesKeepTheirLimits(config, two);
    DualProtectionIsNeverWeakened(config, two);
    var s := PrepareBalanced(config, two).value;
    ProtectionIsAsAsked(s.first);
    ProtectionIsAsAsked(s.second);
  }

  /** A balanced plan is made in volts, for a ratio of parts up to 1000; its ramps are the shares of the common ramp. */
  lemma RampsAreShared(config: Config, two: SecondSource)
    requires PrepareBalanced(config, two).Ok?
    ensures var s := PrepareBalanced(config, two).value;
      var total := two.part1 + two.part2;
      && config.mode == Iv && 1 <= two.part1 <= 1000 && 1 <= two.part2 <= 1000
      && s.first.rampStep == By(Weight(two.part1, total), s.differential.rampStep)
      && s.second.rampStep == By(Weight(two.part2, total), s.differential.rampStep)
      && s.first.rampStep + s.second.rampStep == s.differential.rampStep
  {
    hide SplitIncrement, SourceConfig, Prepare, CommonRamp, Weight, SelectRange, ExactProtection;
    var s := PrepareBalanced(config, two).value;
    WeightsSum(two.part1, two.part2, s.differential.rampStep);
    NegatedWeight(Weight(two.part1, two.part1 + two.part2), Weight(two.part2, two.part1 + two.part2),
        s.differential.rampStep);
  }

  /** The slower ramp is the fastest differential ramp that neither source's automatic ramp forbids. */
  lemma SlowerRampFits(first: Config, second: Config, two: SecondSource)
    requires two.part1 > 0 && two.part2 > 0
    ensures var ramp := SlowerRamp(first, second, two);
      var total := two.part1 + two.part2;
      var ramp1, ramp2 := By(Weight(two.part1, total), ramp), By(Weight(two.part2, total), ramp);
      && ramp1 <= first.rampStep && ramp2 <= second.rampStep
      && (ramp1 == first.rampStep || ramp2 == second.rampStep)
  {
    hide Weight, By;
    var total := two.part1 + two.part2;
    var whole1 := WholeRamp(first.rampStep, two.part1, total);
    var whole2 := WholeRamp(second.rampStep, two.part2, total);
    var ramp := SlowerRamp(first, second, two);
    assert ramp == Least(whole1, whole2);
    WeightKeepsOrder(two.part1, total, ramp, whole1);
    WeightKeepsOrder(two.part2, total, ramp, whole2);
  }

  lemma WeightKeepsOrder(part: nat, total: nat, x: real, y: real)
    requires 0 < part <= total && x <= y
    ensures By(Weight(part, total), x) <= By(Weight(part, total), y)
  {
    WeightIsPositive(part, total);
    OrderScales(Weight(part, total), x, y);
  }

  /** The differential ramp whose share is a source's own ramp. */
  lemma WholeRamp(ramp: real, part: nat, total: nat) returns (whole: real)
    requires 0 < part <= total
    ensures whole == ramp * total as real / part as real
    ensures By(Weight(part, total), whole) == ramp
  {
    var p, t, f := part as real, total as real, Weight(part, total);
    whole := ramp * t / p;
    assert whole * p == ramp * t;
    assert f * t == p;
    Unweigh(f, t, p, whole, ramp);
  }

  lemma Unweigh(f: real, t: real, p: real, whole: real, ramp: real)
    requires t > 0.0 && f * t == p && whole * p == ramp * t
    ensures By(f, whole) == ramp
  {
    var share := f * whole;
    assert t * share == whole * (f * t);
    CancelReal(t, share, ramp);
  }

  // ---- When the settings can be prepared ----

  lemma ExactProtectionMeans(source: SourceSpec, requested: real)
    ensures ExactProtection(source, requested).None? <==> Quantized(source.voltage, requested) == Ok(requested)
  {
    if Quantized(source.voltage, requested).Ok? {
      QuantizedCovers(source.voltage, requested);
    }
  }

  /**
   Two ranges are found exactly for a voltage sweep in a ratio of parts from 1 to 1000, with protections that both
   sources can be programmed with as they are, and a range on each source for its share of the largest target.
   */
  lemma SelectsBothExactly(config: Config, two: SecondSource)
    ensures Selections(config, two).Ok? <==>
      && config.mode == Iv && 1 <= two.part1 <= 1000 && 1 <= two.part2 <= 1000
      && two.compliance > 0.0 && Protection(config) > 0.0
      && Quantized(config.source.voltage, Protection(config)) == Ok(Protection(config))
      && Quantized(two.source.voltage, two.compliance) == Ok(two.compliance)
      && var total := two.part1 + two.part2;
         var largest := LargestTarget(config);
         && SelectRange(config.source, Iv, By(Weight(two.part1, total), largest), Some(Protection(config))).Ok?
         && SelectRange(two.source, Iv, By(Weight(two.part2, total), largest), Some(two.compliance)).Ok?
  {
    hide ExactProtection, Quantized, SelectRange, LargestTarget, Weight;
    ExactProtectionMeans(config.source, Protection(config));
    ExactProtectionMeans(two.source, two.compliance);
  }

  /** A share exists exactly when 28 decimal places hold it. */
  lemma SourceConfigExactly(config: Config, source: SourceSpec, sign: real, step: real, part: nat, total: nat,
      limit: real)
    requires total > 0
    ensures SourceConfig(config, source, sign, step, part, total, limit).Ok? <==>
      var f := Weight(part, total);
      && Terminates(By(f, By(sign, config.start))) && Terminates(By(f, By(sign, config.stop)))
      && Terminates(By(f, step))
      && forall i | 0 <= i < |config.custom| :: Terminates(By(f, By(sign, config.custom[i])))
  {
    hide Terminates, Weight;
    var f := Weight(part, total);
    var shares := Scale(Scale(config.custom, sign), f);
    forall i | 0 <= i < |config.custom| ensures shares[i] == By(f, By(sign, config.custom[i])) {
    }
    if forall i | 0 <= i < |config.custom| :: Terminates(By(f, By(sign, config.custom[i]))) {
      assert forall i | 0 <= i < |shares| :: Terminates(shares[i]);
    }
  }

  /** A common ramp exists exactly when it is positive, its shares can be held and they fit both ranges. */
  lemma CommonRampExactly(first: Config, second: Config, s1: Selection, s2: Selection, inc: Increment,
      two: SecondSource)
    requires two.part1 > 0 && two.part2 > 0 && Value(inc) > 0.0
    ensures var total := two.part1 + two.part2;
      var ramp := CeilTo(SlowerRamp(first, second, two), Value(inc));
      var ramp1, ramp2 := By(Weight(two.part1, total), ramp), By(Weight(two.part2, total), ramp);
      CommonRamp(first, second, s1, s2, inc, two).Ok? <==>
        && SlowerRamp(first, second, two) > 0.0 && Terminates(ramp1) && Terminates(ramp2)
        && ramp1 <= s1.maximum && ramp2 <= s2.maximum
  {
    hide Terminates, Weight, SlowerRamp, CeilTo, Value;
  }

  /**
   A balanced sweep can be prepared exactly when both ranges and their common increment are found, there is a step,
   all shares can be held, and a common ramp fits.
   */
  lemma PreparesBothExactly(config: Config, two: SecondSource)
    ensures PrepareBalanced(config, two).Ok? <==>
      && Selections(config, two).Ok? && config.step != 0.0
      && 0 < two.part1 && 0 < two.part2
      && var (s1, s2) := Selections(config, two).value;
         var inc := SplitIncrement(s1.resolution, s2.resolution, two.part1, two.part2);
         && inc.Ok? && Resolution(inc.value)
         && var total := two.part1 + two.part2;
            var step := CommonStepSize(config.step, inc.value);
            var raw1 := SourceConfig(config, config.source, 1.0, step, two.part1, total, Protection(config));
            var raw2 := SourceConfig(config, two.source, -1.0, step, two.part2, total, two.compliance);
            && raw1.Ok? && raw2.Ok? && Prepare(raw1.value).Ok? && Prepare(raw2.value).Ok?
            && CommonRamp(Prepare(raw1.value).value, Prepare(raw2.value).value, s1, s2, inc.value, two).Ok?
  {
    hide Selections, SplitIncrement, SourceConfig, Prepare, CommonRamp, CommonStepSize, Resolution;
    if Selections(config, two).Ok? {
      SelectedParts(config, two);
      var (s1, s2) := Selections(config, two).value;
      if SplitIncrement(s1.resolution, s2.resolution, two.part1, two.part2).Ok? {
        SplitIncrementIsResolution(s1.resolution, s2.resolution, two.part1, two.part2);
      }
    }
  }

  /** Preparing a source never fails for want of a range: the one found for its largest share is it. */
  lemma SharesArePreparable(config: Config, source: SourceSpec, sign: real, step: real, part: nat, total: nat,
      limit: real)
    requires 0 < part <= total && (sign == 1.0 || sign == -1.0) && step != 0.0 && config.mode == Iv
    requires SourceConfig(config, source, sign, step, part, total, limit).Ok?
    requires SelectRange(source, Iv, By(Weight(part, total), LargestTarget(config)), Some(limit)).Ok?
    ensures Prepare(SourceConfig(config, source, sign, step, part, total, limit).value).Ok?
  {
    hide SourceConfig, SelectRange, Prepare, Weight, LargestTarget;
    var raw := SourceConfig(config, source, sign, step, part, total, limit).value;
    WeightIsPositive(part, total);
    RawFields(config, source, sign, step, part, total, limit);
    RawTarget(config, source, sign, step, part, total, limit);
    NonZeroBy(Weight(part, total), step);
    PreparesExactly(raw);
  }
}
