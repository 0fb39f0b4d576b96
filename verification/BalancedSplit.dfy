/**
 The two independently planned sources follow the differential plan exactly, at
 every point and for every pattern, so the point-count check never fires.
 */
module BalancedSplit {
  import opened Wrappers
  import opened Lattice
  import opened Sweep
  import opened SweepScaling
  import opened Plan
  import opened PlanSafety
  import opened Balanced

  // ---- Scaling a whole configuration ----

  /** Only the size of the step matters to a route. */
  lemma RouteIgnoresStepSign(pattern: Pattern, start: real, stop: real, step: real, step': real, custom: seq<real>)
    requires Size(step) == Size(step')
    ensures Sweep.Route(pattern, start, stop, step, custom) == Sweep.Route(pattern, start, stop, step', custom)
  {
  }

  lemma SizeBy(c: real, x: real)
    ensures Size(By(c, x)) == By(Size(c), Size(x))
  {
    SizeScales(c, x);
  }

  lemma GreatestBy(k: real, x: real, y: real, x': real, y': real)
    requires k >= 0.0 && x' == By(k, x) && y' == By(k, y)
    ensures Greatest(x', y') == By(k, Greatest(x, y))
  {
    if k > 0.0 {
      Compare(k, y, x, y', x');
    }
  }

  lemma {:induction false} MaxSizeScales(p: seq<real>, c: real)
    ensures MaxSize(Scale(p, c)) == By(Size(c), MaxSize(p))
    decreases |p|
  {
    if p != [] {
      var n := |p| - 1;
      MaxSizeScales(p[..n], c);
      assert Scale(p, c)[..n] == Scale(p[..n], c);
      SizeBy(c, p[n]);
      GreatestBy(Size(c), MaxSize(p[..n]), Size(p[n]), MaxSize(Scale(p[..n], c)), Size(Scale(p, c)[n]));
    }
  }

  /** One configuration is the other's targets times `c`, the step up to sign. */
  ghost predicate Follows(source: Config, whole: Config, c: real) {
    && source.pattern == whole.pattern
    && source.start == By(c, whole.start) && source.stop == By(c, whole.stop)
    && source.custom == Scale(whole.custom, c)
    && Size(source.step) == Size(By(c, whole.step))
  }

  lemma LargestTargetFollows(source: Config, whole: Config, c: real)
    requires Follows(source, whole, c)
    ensures LargestTarget(source) == By(Size(c), LargestTarget(whole))
  {
    MaxSizeScales(whole.custom, c);
    SizeBy(c, whole.start);
    SizeBy(c, whole.stop);
    GreatestBy(Size(c), Size(whole.start), Size(whole.stop), Size(source.start), Size(source.stop));
  }

  lemma RouteFollows(source: Config, whole: Config, c: real, r: real, r': real)
    requires Follows(source, whole, c) && c != 0.0 && r > 0.0 && r' > 0.0
    requires AlignedRoute(source, r).Ok? && AlignedRoute(whole, r').Ok?
    ensures AlignedRoute(source, r).value == Scale(AlignedRoute(whole, r').value, c)
  {
    RouteScales(whole.pattern, whole.start, whole.stop, whole.step, whole.custom, c);
    RouteIgnoresStepSign(source.pattern, source.start, source.stop, By(c, whole.step), source.step, source.custom);
  }

  // ---- The derived configurations ----

  lemma ShareIsProduct(value: real, part: nat, total: nat)
    requires total > 0
    ensures value * part as real / total as real == By(Weight(part, total), value)
  {
    var t := total as real;
    var f := Weight(part, total);
    assert f * t == part as real;
    var x := value * part as real / t;
    assert x * t == value * part as real;
    assert t * x == t * By(f, value) by {
      assert t * By(f, value) == value * (f * t);
    }
    CancelReal(t, x, By(f, value));
  }

  lemma MultipleIsShared(v: real, first: Increment, second: Increment, a: nat, b: nat)
    requires a > 0 && b > 0 && SplitIncrement(first, second, a, b).Ok?
    requires Multiple(v, Value(SplitIncrement(first, second, a, b).value))
    ensures Multiple(By(Weight(a, a + b), v), Value(first))
    ensures Multiple(By(Weight(b, a + b), v), Value(second))
  {
    IncrementIsTheCommonGrid(first, second, a, b, v);
    ShareIsProduct(v, a, a + b);
    ShareIsProduct(v, b, a + b);
  }

  /** The common step is a whole number of increments, at least the requested step, in its direction. */
  lemma CommonStepIsAMultiple(step: real, inc: Increment)
    requires step != 0.0
    ensures Value(inc) > 0.0 && Multiple(Size(CommonStepSize(step, inc)), Value(inc))
    ensures Size(step) <= Size(CommonStepSize(step, inc)) < Size(step) + Value(inc)
    ensures CommonStepSize(step, inc) > 0.0 <==> step > 0.0
  {
    ValueIsPositive(inc);
    var up := CeilTo(Size(step), Value(inc));
    CeilToBounds(Size(step), Value(inc));
    assert up == Steps(Ceil(Size(step) / Value(inc)), Value(inc));
  }

  lemma Associate(f: real, sign: real, x: real)
    ensures By(f, By(sign, x)) == By(sign * f, x)
  {
  }

  lemma ScaleTwice(p: seq<real>, sign: real, f: real)
    ensures Scale(Scale(p, sign), f) == Scale(p, sign * f)
  {
    var q := Scale(Scale(p, sign), f);
    forall i | 0 <= i < |p| ensures q[i] == Scale(p, sign * f)[i] {
      Associate(f, sign, p[i]);
    }
  }

  lemma SizeIgnoresSign(f: real, sign: real, x: real)
    requires sign == 1.0 || sign == -1.0
    ensures Size(By(sign * f, x)) == Size(By(f, x))
  {
    assert By(1.0 * f, x) == By(f, x);
    assert By(-1.0 * f, x) == -By(f, x);
  }

  /** A source's derived configuration follows the differential one by its signed weight. */
  lemma SourceConfigFollows(config: Config, source: SourceSpec, sign: real, step: real, part: nat, total: nat,
      limit: real)
    requires total > 0 && part > 0 && (sign == 1.0 || sign == -1.0)
    requires SourceConfig(config, source, sign, step, part, total, limit).Ok?
    ensures Follows(SourceConfig(config, source, sign, step, part, total, limit).value,
                    config.(step := step), sign * Weight(part, total))
  {
    var f := Weight(part, total);
    ScaleTwice(config.custom, sign, f);
    Associate(f, sign, config.start);
    Associate(f, sign, config.stop);
    SizeIgnoresSign(f, sign, step);
  }

  // ---- Planning a follower ----

  /** The range a configuration's own planning selects. */
  function OwnSelection(config: Config): Result<Selection, PlanError> {
    SelectRange(config.source, config.mode, LargestTarget(config), config.sourceCompliance)
  }

  /** The step needs no snapping: it is a nonzero whole number of the selected range's increments. */
  ghost predicate OnOwnGrid(config: Config) {
    config.step != 0.0 && OwnSelection(config).Ok? && Multiple(Size(config.step), Grid(OwnSelection(config).value))
  }

  lemma OnGridStepIsKept(config: Config)
    requires OnOwnGrid(config) && Prepare(config).Ok?
    ensures Prepare(config).value == config.(rampStep := Prepare(config).value.rampStep)
  {
    AlignedIsMultiple(Size(config.step), Grid(OwnSelection(config).value));
  }

  /** A source whose settings follow the whole is planned as the whole, scaled. */
  lemma PlanFollows(source: Config, whole: Config, c: real, r: real)
    requires Follows(source, whole, c) && c != 0.0 && OnOwnGrid(source)
    requires PlanSingle(source).Ok? && r > 0.0 && AlignedRoute(whole, r).Ok?
    ensures PlanSingle(source).value.points == SweepPoints(Scale(AlignedRoute(whole, r).value, c))
  {
    OnGridStepIsKept(source);
    var prepared := Prepare(source).value;
    RouteFollows(prepared, whole, c, Grid(OwnSelection(prepared).value), r);
  }

  lemma RawFields(config: Config, source: SourceSpec, sign: real, step: real, part: nat, total: nat, limit: real)
    requires 0 < part <= total && SourceConfig(config, source, sign, step, part, total, limit).Ok?
    ensures var raw := SourceConfig(config, source, sign, step, part, total, limit).value;
            raw.source == source && raw.mode == config.mode && raw.sourceCompliance == Some(limit) &&
            raw.sourceLimit == config.sourceLimit * Weight(part, total) && raw.step == By(Weight(part, total), step)
  {
  }

  /** The largest target a derived source is asked to cover. */
  lemma RawTarget(config: Config, source: SourceSpec, sign: real, step: real, part: nat, total: nat, limit: real)
    requires 0 < part <= total && (sign == 1.0 || sign == -1.0)
    requires SourceConfig(config, source, sign, step, part, total, limit).Ok?
    ensures LargestTarget(SourceConfig(config, source, sign, step, part, total, limit).value) ==
            By(Weight(part, total), LargestTarget(config))
  {
    hide SourceConfig, LargestTarget, Weight;
    var f := Weight(part, total);
    WeightIsPositive(part, total);
    SourceConfigFollows(config, source, sign, step, part, total, limit);
    LargestTargetFollows(SourceConfig(config, source, sign, step, part, total, limit).value, config.(step := step),
        sign * f);
    SameTargets(config, config.(step := step));
    assert sign * f == f || sign * f == -f;
  }

  /** One derived source: it follows the differential settings and is on its own grid. */
  lemma DerivedSource(config: Config, source: SourceSpec, sign: real, step: real, part: nat, total: nat, limit: real,
                      s: Selection, ramp: real)
    requires 0 < part <= total && (sign == 1.0 || sign == -1.0) && step != 0.0 && config.mode == Iv
    requires SourceConfig(config, source, sign, step, part, total, limit).Ok?
    requires SelectRange(source, Iv, By(Weight(part, total), LargestTarget(config)), Some(limit)) == Ok(s)
    requires Multiple(By(Weight(part, total), Size(step)), Grid(s))
    requires Prepare(SourceConfig(config, source, sign, step, part, total, limit).value).Ok?
    ensures var raw := SourceConfig(config, source, sign, step, part, total, limit).value;
            var derived := Prepare(raw).value.(rampStep := ramp);
            Follows(derived, config.(step := step), sign * Weight(part, total)) && OnOwnGrid(derived) &&
            OwnSelection(derived) == Ok(s)
  {
    hide SourceConfig, SelectRange, Prepare, Weight, LargestTarget;
    var f := Weight(part, total);
    WeightIsPositive(part, total);
    var raw := SourceConfig(config, source, sign, step, part, total, limit).value;
    SourceConfigFollows(config, source, sign, step, part, total, limit);
    RawFields(config, source, sign, step, part, total, limit);
    RawTarget(config, source, sign, step, part, total, limit);
    SizeBy(f, step);
    NonZeroBy(f, step);
    OnGridStepIsKept(raw);
    SameTargets(raw, Prepare(raw).value.(rampStep := ramp));
  }

  lemma NonZeroBy(f: real, x: real)
    requires f > 0.0 && x != 0.0
    ensures By(f, x) != 0.0 && Size(f) == f
  {
    EqualityScales(f, x, 0.0);
    assert f * 0.0 == 0.0;
  }

  lemma SameTargets(config: Config, config': Config)
    requires config' == config.(step := config'.step, rampStep := config'.rampStep)
    ensures LargestTarget(config') == LargestTarget(config)
  {
  }

  lemma WeightIsPositive(part: nat, total: nat)
    requires 0 < part <= total
    ensures 0.0 < Weight(part, total) <= 1.0
  {
    var f := Weight(part, total);
    assert f * total as real == part as real;
    assert f <= 0.0 ==> f * total as real <= 0.0;
    assert f > 1.0 ==> f * total as real > total as real;
  }

  /** What a successful preparation consists of. */
  lemma PreparedParts(config: Config, two: SecondSource) returns (s1: Selection, s2: Selection)
    requires PrepareBalanced(config, two).Ok?
    ensures var s := PrepareBalanced(config, two).value;
            Selections(config, two) == Ok((s1, s2)) && config.step != 0.0 &&
            SplitsInto(config, two, s1, s2, s)
  {
    hide Selections, SplitIncrement, SourceConfig, Prepare, CommonRamp;
    s1, s2 := Selections(config, two).value.0, Selections(config, two).value.1;
    assert 0 < two.part1 && 0 < two.part2 by {
      SelectedParts(config, two);
    }
  }

  ghost predicate SplitsInto(config: Config, two: SecondSource, s1: Selection, s2: Selection, s: Settings) {
    var step := CommonStepSize(config.step, s.increment);
    var total := two.part1 + two.part2;
    && 0 < two.part1 && 0 < two.part2
    && SplitIncrement(s1.resolution, s2.resolution, two.part1, two.part2) ==
              Ok(s.increment)
    && s.differential == config.(step := step, rampStep := s.differential.rampStep)
    && (var raw := SourceConfig(config, config.source, 1.0, step, two.part1, total, Protection(config));
        raw.Ok? && Prepare(raw.value).Ok? && s.first == Prepare(raw.value).value.(rampStep := s.first.rampStep))
    && (var raw := SourceConfig(config, two.source, -1.0, step, two.part2, total, two.compliance);
        raw.Ok? && Prepare(raw.value).Ok? && s.second == Prepare(raw.value).value.(rampStep := s.second.rampStep))
  }

  lemma SelectedParts(config: Config, two: SecondSource)
    requires Selections(config, two).Ok?
    ensures 0 < two.part1 && 0 < two.part2 && config.mode == Iv
    ensures var (s1, s2) := Selections(config, two).value;
            var total := two.part1 + two.part2;
            var target1 := By(Weight(two.part1, total), LargestTarget(config));
            var target2 := By(Weight(two.part2, total), LargestTarget(config));
            SelectRange(config.source, Iv, target1, Some(Protection(config))) == Ok(s1) &&
            SelectRange(two.source, Iv, target2, Some(two.compliance)) == Ok(s2)
  {
  }

  /** Both derived configurations follow the differential one and are on their own grids. */
  lemma SourcesFollow(config: Config, two: SecondSource)
    requires PrepareBalanced(config, two).Ok?
    ensures 0 < two.part1 && 0 < two.part2
    ensures var s := PrepareBalanced(config, two).value;
            var total := two.part1 + two.part2;
            Follows(s.first, s.differential, 1.0 * Weight(two.part1, total)) && OnOwnGrid(s.first) &&
            Follows(s.second, s.differential, -1.0 * Weight(two.part2, total)) && OnOwnGrid(s.second)
    ensures var s := PrepareBalanced(config, two).value;
            var chosen := Selections(config, two);
            chosen.Ok? && OwnSelection(s.first) == Ok(chosen.value.0) && OwnSelection(s.second) == Ok(chosen.value.1) &&
            SplitIncrement(chosen.value.0.resolution, chosen.value.1.resolution, two.part1, two.part2) ==
              Ok(s.increment)
  {
    hide PrepareBalanced, Selections, SplitIncrement, SourceConfig, Prepare, SelectRange;
    var s1, s2 := PreparedParts(config, two);
    SelectedParts(config, two);
    var s := PrepareBalanced(config, two).value;
    var total := two.part1 + two.part2;
    var step := s.differential.step;
    CommonStepIsAMultiple(config.step, s.increment);
    MultipleIsShared(Size(step), s1.resolution, s2.resolution, two.part1, two.part2);
    DerivedSource(config, config.source, 1.0, step, two.part1, total, Protection(config), s1, s.first.rampStep);
    DerivedSource(config, two.source, -1.0, step, two.part2, total, two.compliance, s2, s.second.rampStep);
  }

  // ---- The theorems ----

  lemma PlansAreScaled(config: Config, two: SecondSource)
    requires PrepareBalanced(config, two).Ok?
    requires var s := PrepareBalanced(config, two).value;
             PlanSingle(s.first).Ok? && PlanSingle(s.second).Ok? && BasePoints(s.differential, s.increment).Ok?
    ensures 0 < two.part1 && 0 < two.part2
    ensures var s := PrepareBalanced(config, two).value;
            var base := BasePoints(s.differential, s.increment).value;
            var total := two.part1 + two.part2;
            PlanSingle(s.first).value.points == SweepPoints(Scale(base, 1.0 * Weight(two.part1, total))) &&
            PlanSingle(s.second).value.points == SweepPoints(Scale(base, -1.0 * Weight(two.part2, total)))
  {
    hide PrepareBalanced, PlanSingle, Selections, SplitIncrement, OnOwnGrid, OwnSelection, Follows, Weight;
    SourcesFollow(config, two);
    var s := PrepareBalanced(config, two).value;
    var total := two.part1 + two.part2;
    WeightIsPositive(two.part1, total);
    WeightIsPositive(two.part2, total);
    ValueIsPositive(s.increment);
    PlanFollows(s.first, s.differential, 1.0 * Weight(two.part1, total), Value(s.increment));
    PlanFollows(s.second, s.differential, -1.0 * Weight(two.part2, total), Value(s.increment));
  }

  /** The final check on the point counts can never fail. */
  lemma PointCountsAlwaysMatch(config: Config, two: SecondSource)
    ensures PlanBalanced(config, two) != Err(PointCountMismatch)
  {
    hide PrepareBalanced, PlanSingle, BasePoints, Scale;
    NoOtherMismatch(config, two);
    var prepared := PrepareBalanced(config, two);
    if prepared.Ok? {
      var s := prepared.value;
      NoSourceMismatch(s.first);
      NoSourceMismatch(s.second);
      NoBaseMismatch(s.differential, s.increment);
      if PlanSingle(s.first).Ok? && PlanSingle(s.second).Ok? && BasePoints(s.differential, s.increment).Ok? {
        PlansAreScaled(config, two);
      }
    }
  }

  lemma NoOtherMismatch(config: Config, two: SecondSource)
    ensures PrepareBalanced(config, two) != Err(PointCountMismatch)
  {
    hide SplitIncrement, SourceConfig, CommonStepSize, LargestTarget, SnappedStep, Smallest, CeilTo, Share, Weight;
  }

  lemma NoSourceMismatch(config: Config)
    ensures PlanSingle(config) != Err(PointCountMismatch)
  {
  }

  lemma NoBaseMismatch(differential: Config, inc: Increment)
    ensures BasePoints(differential, inc) != Err(PointCountMismatch)
  {
  }

  /** The three point sequences of a dual plan, from one sequence of differential targets. */
  lemma DualPlanPoints(config: Config, two: SecondSource) returns (base: seq<real>)
    requires PlanBalanced(config, two).Ok?
    ensures 0 < two.part1 && 0 < two.part2
    ensures var p := PlanBalanced(config, two).value;
            var total := two.part1 + two.part2;
            p.points == SweepPoints(base) &&
            p.plan1.points == SweepPoints(Scale(base, 1.0 * Weight(two.part1, total))) &&
            p.plan2.points == SweepPoints(Scale(base, -1.0 * Weight(two.part2, total)))
  {
    hide PrepareBalanced, PlanSingle, BasePoints, Weight;
    PlansAreScaled(config, two);
    var s := PrepareBalanced(config, two).value;
    base := BasePoints(s.differential, s.increment).value;
  }

  /**
   The two sources follow the differential plan at every point of every pattern: as many points,
   V1 = a/(a+b) D, V2 = -b/(a+b) D, hence V1 - V2 = D.
   */
  lemma SourcesSplitTheDifferential(config: Config, two: SecondSource)
    requires PlanBalanced(config, two).Ok?
    ensures 0 < two.part1 && 0 < two.part2
    ensures var p := PlanBalanced(config, two).value;
            var total := two.part1 + two.part2;
            |p.plan1.points| == |p.plan2.points| == |p.points| &&
            forall i :: 0 <= i < |p.points| ==>
              var d, v1, v2 := p.points[i].target, p.plan1.points[i].target, p.plan2.points[i].target;
              v1 == By(Weight(two.part1, total), d) && v2 == -By(Weight(two.part2, total), d) && v1 - v2 == d
  {
    hide PlanBalanced, Weight, Heading;
    var base := DualPlanPoints(config, two);
    forall i | 0 <= i < |base|
      ensures var total := two.part1 + two.part2;
              var v1, v2 := By(1.0 * Weight(two.part1, total), base[i]), By(-1.0 * Weight(two.part2, total), base[i]);
              v1 == By(Weight(two.part1, total), base[i]) && v2 == -By(Weight(two.part2, total), base[i]) &&
              v1 - v2 == base[i]
    {
      WeightsSum(two.part1, two.part2, base[i]);
    }
  }

  /**
   Source 1 reports the differential directions. Source 2 reports the opposite ones, except
   while nothing has moved yet, when both report forward.
   */
  lemma DirectionsMirror(config: Config, two: SecondSource)
    requires PlanBalanced(config, two).Ok?
    ensures var p := PlanBalanced(config, two).value;
            |p.plan1.points| == |p.plan2.points| == |p.points| &&
            forall i :: 0 <= i < |p.points| ==>
              p.plan1.points[i].direction == p.points[i].direction &&
              (p.plan2.points[i].direction == p.points[i].direction ==>
                p.points[i].direction == Direction.Forward &&
                forall j :: 0 <= j <= i ==> p.points[j].target == p.points[0].target)
  {
    hide PlanBalanced, Weight, Heading;
    var base := DualPlanPoints(config, two);
    var total := two.part1 + two.part2;
    WeightIsPositive(two.part1, total);
    WeightIsPositive(two.part2, total);
    forall i | 0 <= i < |base|
      ensures Heading(Scale(base, 1.0 * Weight(two.part1, total)), i) == Heading(base, i)
      ensures Heading(Scale(base, -1.0 * Weight(two.part2, total)), i) == Heading(base, i) ==>
                Heading(base, i) == Direction.Forward && forall j :: 0 <= j <= i ==> base[j] == base[0]
    {
      HeadingFollows(base, i, 1.0 * Weight(two.part1, total));
      MirrorsOnlyAtRest(base, i, -1.0 * Weight(two.part2, total));
    }
  }

  lemma MirrorsOnlyAtRest(points: seq<real>, i: nat, c: real)
    requires i < |points| && c < 0.0
    ensures Heading(Scale(points, c), i) == Heading(points, i) ==>
              Heading(points, i) == Direction.Forward && forall j :: 0 <= j <= i ==> points[j] == points[0]
  {
    HeadingMirrors(points, i, c);
    if Heading(Scale(points, c), i) == Heading(points, i) {
      StandsStill(points, i);
    }
  }

  lemma SumToOne(f: real, g: real, t: real, a: real, b: real)
    requires t != 0.0 && f * t == a && g * t == b && a + b == t
    ensures f + g == 1.0
  {
    var e := f + g - 1.0;
    assert e * t == 0.0;
    NoZeroDivisor(e, t);
  }

  lemma WeightsSum(a: nat, b: nat, d: real)
    requires 0 < a && 0 < b
    ensures By(1.0 * Weight(a, a + b), d) - By(-1.0 * Weight(b, a + b), d) == d
    ensures By(-1.0 * Weight(b, a + b), d) == -By(Weight(b, a + b), d)
  {
    var f, g := Weight(a, a + b), Weight(b, a + b);
    var t := (a + b) as real;
    assert f * t == a as real && g * t == b as real;
    SumToOne(f, g, t, a as real, b as real);
    assert f * d + g * d == (f + g) * d;
  }

  lemma {:induction false} StandsStill(points: seq<real>, i: nat)
    requires i < |points| && forall j :: 0 <= j <= i ==> Move(points, j) == 0.0
    ensures forall j :: 0 <= j <= i ==> points[j] == points[0]
  {
    if i > 0 {
      StandsStill(points, i - 1);
      assert Move(points, i) == 0.0;
    }
  }

  // ---- Protection of both sources ----

  lemma PreparedFields(config: Config)
    requires Prepare(config).Ok?
    ensures var c := Prepare(config).value;
            c.source == config.source && c.mode == config.mode && c.sourceCompliance == config.sourceCompliance &&
            c.sourceLimit == config.sourceLimit
  {
  }

  lemma ExactIsQuantized(source: SourceSpec, requested: real)
    requires ExactProtection(source, requested).None?
    ensures Quantized(source.voltage, requested) == Ok(requested)
  {
    QuantizedCovers(source.voltage, requested);
  }

  lemma SelectionsAreProtected(config: Config, two: SecondSource)
    requires Selections(config, two).Ok?
    ensures config.mode == Iv
    ensures ExactProtection(config.source, Protection(config)).None?
    ensures ExactProtection(two.source, two.compliance).None?
  {
  }

  lemma SourcesKeepTheirLimits(config: Config, two: SecondSource)
    requires PrepareBalanced(config, two).Ok?
    ensures config.mode == Iv
    ensures ExactProtection(config.source, Protection(config)).None?
    ensures ExactProtection(two.source, two.compliance).None?
    ensures var s := PrepareBalanced(config, two).value;
            s.first.source == config.source && s.first.mode == Iv &&
            s.first.sourceCompliance == Some(Protection(config)) &&
            s.second.source == two.source && s.second.mode == Iv && s.second.sourceCompliance == Some(two.compliance)
    ensures 0 < two.part1 && 0 < two.part2
    ensures var s := PrepareBalanced(config, two).value;
            var total := two.part1 + two.part2;
            s.first.sourceLimit == config.sourceLimit * Weight(two.part1, total) &&
            s.second.sourceLimit == config.sourceLimit * Weight(two.part2, total)
  {
    hide PrepareBalanced, Selections, SplitIncrement, SourceConfig, Prepare, ExactProtection;
    var s1, s2 := PreparedParts(config, two);
    SelectionsAreProtected(config, two);
    var total := two.part1 + two.part2;
    var step := PrepareBalanced(config, two).value.differential.step;
    RawFields(config, config.source, 1.0, step, two.part1, total, Protection(config));
    RawFields(config, two.source, -1.0, step, two.part2, total, two.compliance);
    PreparedFields(SourceConfig(config, config.source, 1.0, step, two.part1, total, Protection(config)).value);
    PreparedFields(SourceConfig(config, two.source, -1.0, step, two.part2, total, two.compliance).value);
  }

  /** A dual plan never programs a protection above the requested one, on either source. */
  lemma DualProtectionIsNeverWeakened(config: Config, two: SecondSource)
    requires DistinctCommands(config.source.voltage.ranges) && DistinctCommands(two.source.voltage.ranges)
    requires PlanBalanced(config, two).Ok?
    ensures PlanBalanced(config, two).value.plan1.compliance <= Protection(config)
    ensures PlanBalanced(config, two).value.plan2.compliance <= two.compliance
  {
    hide PrepareBalanced, PlanSingle, BasePoints, ExactProtection, Quantized;
    SourcesKeepTheirLimits(config, two);
    ExactIsQuantized(config.source, Protection(config));
    ExactIsQuantized(two.source, two.compliance);
    var s := PrepareBalanced(config, two).value;
    ProtectionIsNeverWeakened(s.first, Protection(config));
    ProtectionIsNeverWeakened(s.second, two.compliance);
  }

  // ---- Exact shares and the common ramp ----

  lemma WholeTerminates(x: real, n: int)
    requires Shifted(x) == n as real
    ensures Terminates(x)
  {
    hide Shifted;
  }

  /** A whole number of steps of a stored decimal has at most 28 places. */
  lemma MultiplesTerminate(x: real, r: Increment)
    requires Multiple(x, Value(r))
    ensures Terminates(x)
  {
    hide Pow10, Terminates;
    var k: int :| x == Steps(k, Value(r));
    var places := MAX_SCALE - r.scale;
    Pow10Sum(r.scale, places);
    var p, q := Pow10(r.scale), Pow10(places);
    RealProduct(p, q);
    RealProduct(k, r.mantissa);
    RealProduct(k * r.mantissa, q);
    ShiftedSteps(x, k as real, r.mantissa as real, p as real, q as real, Value(r));
    WholeTerminates(x, k * r.mantissa * q);
  }

  lemma ShiftedSteps(x: real, k: real, m: real, p: real, q: real, v: real)
    requires p > 0.0 && x == k * v && v == m / p
    ensures x * (p * q) == k * m * q
  {
    assert v * p == m;
    assert x * p == k * (v * p);
  }

  /** A target on the combined grid is never refused as inexact by either source. */
  lemma CombinedGridSplitsExactly(v: real, first: Increment, second: Increment, a: nat, b: nat)
    requires a > 0 && b > 0 && SplitIncrement(first, second, a, b).Ok?
    requires Multiple(v, Value(SplitIncrement(first, second, a, b).value))
    ensures Share(v, a, a + b).Ok? && Share(-v, b, a + b).Ok?
  {
    hide SplitIncrement, Multiple, Terminates, Weight, Value;
    MultipleIsShared(v, first, second, a, b);
    MultiplesTerminate(By(Weight(a, a + b), v), first);
    MultipleNegates(By(Weight(b, a + b), v), Value(second));
    NegatedShare(Weight(b, a + b), v);
    MultiplesTerminate(By(Weight(b, a + b), -v), second);
  }

  lemma NegatedShare(w: real, v: real)
    ensures By(w, -v) == -By(w, v)
  {
  }

  lemma CeilToIsMultiple(value: real, r: real)
    requires r > 0.0
    ensures Multiple(CeilTo(value, r), r)
  {
    assert CeilTo(value, r) == Steps(Ceil(value / r), r);
  }

  /**
   The common ramp is a whole number of common increments, less than one above the slower of the
   two automatic ramps, and its shares are ramps of the two sources on their own grids.
   */
  lemma CommonRampIsShared(first: Config, second: Config, s1: Selection, s2: Selection, inc: Increment,
      two: SecondSource)
    requires two.part1 > 0 && two.part2 > 0
    requires SplitIncrement(s1.resolution, s2.resolution, two.part1, two.part2) == Ok(inc)
    requires CommonRamp(first, second, s1, s2, inc, two).Ok?
    ensures var ramp := CommonRamp(first, second, s1, s2, inc, two).value;
            var total := two.part1 + two.part2;
            var ramp1, ramp2 := By(Weight(two.part1, total), ramp), By(Weight(two.part2, total), ramp);
            ramp1 + ramp2 == ramp && ramp1 <= s1.maximum && ramp2 <= s2.maximum &&
            Multiple(ramp1, Value(s1.resolution)) && Multiple(ramp2, Value(s2.resolution))
    ensures var ramp := CommonRamp(first, second, s1, s2, inc, two).value;
            Multiple(ramp, Value(inc)) &&
            SlowerRamp(first, second, two) <= ramp < SlowerRamp(first, second, two) + Value(inc)
  {
    hide SplitIncrement, SlowerRamp, Weight, CeilTo, Terminates, Multiple;
    var ramp := CommonRamp(first, second, s1, s2, inc, two).value;
    ValueIsPositive(inc);
    CeilToBounds(SlowerRamp(first, second, two), Value(inc));
    CeilToIsMultiple(SlowerRamp(first, second, two), Value(inc));
    MultipleIsShared(ramp, s1.resolution, s2.resolution, two.part1, two.part2);
    WeightsSum(two.part1, two.part2, ramp);
    NegatedWeight(Weight(two.part1, two.part1 + two.part2), Weight(two.part2, two.part1 + two.part2), ramp);
  }

  lemma NegatedWeight(f: real, g: real, d: real)
    ensures By(1.0 * f, d) == By(f, d) && By(-1.0 * g, d) == -By(g, d)
  {
  }
}
