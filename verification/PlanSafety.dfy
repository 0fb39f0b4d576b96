/**
 What every accepted single-source plan guarantees: targets within every limit
 and on the DAC grid, and a protection no weaker than the one asked for.
 */
module PlanSafety {
  import opened Wrappers
  import opened Lattice
  import opened Sweep
  import opened SweepScaling
  import opened Plan

  // ---- Preparing settings ----

  lemma SnappedStepBounds(step: real, r: real)
    requires r > 0.0 && step != 0.0
    ensures Size(step) <= SnappedStep(step, r) < Size(step) + r
    ensures Aligned(SnappedStep(step, r), r)
  {
    CeilToBounds(Size(step), r);
    var up := CeilTo(Size(step), r);
    assert up == Steps(Ceil(Size(step) / r), r);
    AlignedIsMultiple(up, r);
  }

  /** The step keeps its direction and is the next hardware increment up; the ramp stays inside the range. */
  lemma PreparedSettings(config: Config)
    requires Prepare(config).Ok?
    ensures var s := SelectRange(config.source, config.mode, LargestTarget(config), config.sourceCompliance);
            s.Ok? && Prepare(config).value.rampStep <= s.value.maximum &&
            Aligned(Size(Prepare(config).value.step), Grid(s.value)) &&
            Size(config.step) <= Size(Prepare(config).value.step) < Size(config.step) + Grid(s.value)
    ensures Prepare(config).value.step > 0.0 <==> config.step > 0.0
    ensures Prepare(config).value.step != 0.0
  {
    var s := SelectRange(config.source, config.mode, LargestTarget(config), config.sourceCompliance);
    SnappedStepBounds(config.step, Grid(s.value));
  }

  /**
   The ramp is the range's maximum or at least both the step and one percent of the nominal
   range; when more than the step it is less than one increment above that percent.
   */
  lemma AutomaticRamp(config: Config)
    requires Prepare(config).Ok?
    ensures var s := SelectRange(config.source, config.mode, LargestTarget(config), config.sourceCompliance).value;
            var percent := (if config.source.commandsAreCodes then s.maximum else s.command) / 100.0;
            var c := Prepare(config).value;
            (c.rampStep == s.maximum || (percent <= c.rampStep && Size(c.step) <= c.rampStep)) &&
            (c.rampStep > Size(c.step) ==> c.rampStep < percent + Grid(s))
  {
    var s := SelectRange(config.source, config.mode, LargestTarget(config), config.sourceCompliance).value;
    CeilToBounds((if config.source.commandsAreCodes then s.maximum else s.command) / 100.0, Grid(s));
  }

  /** Preparing prepared settings changes nothing, so planning them again selects the same range. */
  lemma PrepareIsIdempotent(config: Config)
    requires Prepare(config).Ok?
    ensures Prepare(Prepare(config).value) == Prepare(config)
  {
    PreparedSettings(config);
  }

  // ---- Targets ----

  /** No planned target is larger than the configured ones. */
  lemma RouteIsCovered(config: Config, r: real)
    requires r > 0.0 && config.step != 0.0 && AlignedRoute(config, r).Ok?
    ensures forall i :: 0 <= i < |AlignedRoute(config, r).value| ==>
              Size(AlignedRoute(config, r).value[i]) <= LargestTarget(config)
  {
    if config.pattern != CustomList {
      RouteIsATour(config.pattern, config.start, config.stop, config.step, config.custom);
    }
  }

  lemma AlignedRouteOnGrid(config: Config, r: real)
    requires r > 0.0 && GridError(config, r).None? && AlignedRoute(config, r).Ok?
    ensures AllMultiples(AlignedRoute(config, r).value, r)
  {
    if config.pattern == CustomList {
      forall x | x in config.custom ensures Multiple(x, r) {
        AlignedIsMultiple(x, r);
      }
    } else {
      AlignedIsMultiple(config.start, r);
      AlignedIsMultiple(config.stop, r);
      AlignedIsMultiple(config.step, r);
      var none: seq<real> := [];
      assert AllMultiples(none, r);
      RouteOnGrid(config.pattern, config.start, config.stop, config.step, none, r);
    }
  }

  /**
   Every target of an accepted plan is inside the selected range, the requested limit and the
   hardware's limit, and is a whole number of the selected range's increments.
   */
  lemma PlannedTargetsAreSafe(config: Config)
    requires PlanSingle(config).Ok?
    ensures var s := SelectRange(config.source, config.mode, LargestTarget(config), config.sourceCompliance);
            var plan := PlanSingle(config).value;
            s.Ok? && plan.range == s.value.command && 0 < |plan.points| <= MAX_POINTS &&
            forall i :: 0 <= i < |plan.points| ==>
              var target := plan.points[i].target;
              Size(target) <= s.value.maximum && Size(target) <= config.sourceLimit &&
              Size(target) <= ProfileOf(config.source, config.mode).hardMaximum &&
              Multiple(target, Grid(s.value))
  {
    PreparedSettings(config);
    var prepared := Prepare(config).value;
    var s := SelectRange(config.source, config.mode, LargestTarget(config), config.sourceCompliance);
    var route := AlignedRoute(prepared, Grid(s.value)).value;
    RouteIsCovered(prepared, Grid(s.value));
    AlignedRouteOnGrid(prepared, Grid(s.value));
    var plan := PlanSingle(config).value;
    forall i | 0 <= i < |plan.points|
      ensures var target := plan.points[i].target;
              Size(target) <= s.value.maximum && Size(target) <= config.sourceLimit &&
              Size(target) <= ProfileOf(config.source, config.mode).hardMaximum &&
              Multiple(target, Grid(s.value))
    {
      assert route[i] in route;
    }
  }

  // ---- Protection ----

  /** The profile tables give each range its own command. */
  ghost predicate DistinctCommands(ranges: seq<RangeSpec>) {
    forall i, j :: 0 <= i < j < |ranges| ==> ranges[i].command != ranges[j].command
  }

  lemma {:induction false} FixedLimitOf(ranges: seq<RangeSpec>, i: nat)
    requires DistinctCommands(ranges) && i < |ranges|
    ensures FixedLimit(ranges, ranges[i].command) == ranges[i].fixedCurrent
    decreases |ranges|
  {
    if i > 0 {
      FixedLimitOf(ranges[1..], i - 1);
    }
  }

  /**
   With an explicit protection limit, the programmed protection is at most the quantized limit,
   even on ranges with a fixed limiter, and so less than one increment above the request.
   */
  lemma ProtectionIsNeverWeakened(config: Config, limit: real)
    requires config.sourceCompliance == Some(limit)
    requires DistinctCommands(ProfileOf(config.source, config.mode).ranges)
    requires PlanSingle(config).Ok?
    ensures var profile := ProfileOf(config.source, config.mode);
            Quantized(profile, limit).Ok? &&
            PlanSingle(config).value.compliance <= Quantized(profile, limit).value <
              Greatest(limit, profile.limitMin) + profile.limitStep
  {
    var profile := ProfileOf(config.source, config.mode);
    QuantizedCovers(profile, limit);
    var effective := EffectiveLimit(profile, Some(limit)).value;
    var best := Smallest(profile.ranges, config.mode, LargestTarget(config), effective);
    FixedLimitOf(profile.ranges, best.value);
  }

  /**
   Without an explicit limit the stop limit is quantized instead, and then the programmed protection
   stays within it exactly when the selected voltage range has no fixed limiter above it.
   */
  lemma ImplicitProtectionExactly(config: Config)
    requires config.sourceCompliance == None && PlanSingle(config).Ok?
    ensures var profile := ProfileOf(config.source, config.mode);
            Quantized(profile, config.compliance).Ok? &&
            var limit := Quantized(profile, config.compliance).value;
            var s := SelectRange(config.source, config.mode, LargestTarget(config), None);
            s.Ok? &&
            var fixed := FixedLimit(profile.ranges, s.value.command);
            (PlanSingle(config).value.compliance <= limit <==>
              (config.mode == Iv && fixed.Some? ==> fixed.value <= limit))
  {
    PreparedSettings(config);
  }
}
