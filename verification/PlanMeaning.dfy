/** When a single-source plan is accepted, and what it then is: its route, its directions, its range, its protection. */
module PlanMeaning {
  import opened Wrappers
  import opened Lattice
  import opened Sweep
  import opened SweepScaling
  import opened Plan
  import opened PlanSafety

  /** The range selected for a configuration. */
  function Chosen(config: Config): Result<Selection, PlanError> {
    SelectRange(config.source, config.mode, LargestTarget(config), config.sourceCompliance)
  }

  // ---- Range and protection ----

  /** Everything a range must offer to be usable for a target under a protection limit. */
  ghost predicate Usable(e: RangeSpec, mode: Mode, target: real, limit: Option<real>) {
    && e.maximum.Some? && e.resolution.Some? && target <= e.maximum.value
    && (mode == Iv && limit.Some? && e.fixedCurrent.Some? ==> e.fixedCurrent.value <= limit.value)
  }

  /**
   A range is selected exactly when the requested protection, if any, can be programmed and some range is usable
   under it; it is then the smallest of these.
   */
  lemma SelectsTheSmallest(source: SourceSpec, mode: Mode, target: real, requested: Option<real>)
    ensures var profile := ProfileOf(source, mode);
      var s := SelectRange(source, mode, target, requested);
      var settable := requested.Some? ==> requested.value > 0.0 && Quantized(profile, requested.value).Ok?;
      var limit := if requested.Some? && settable then Some(Quantized(profile, requested.value).value) else None;
      && (s.Ok? <==> settable && exists e :: e in profile.ranges && Usable(e, mode, target, limit))
      && (s.Ok? ==> exists e ::
            && e in profile.ranges && Usable(e, mode, target, limit)
            && s.value == Selection(e.command, e.maximum.value, e.resolution.value)
            && forall other | other in profile.ranges && Usable(other, mode, target, limit) ::
                 e.maximum.value <= other.maximum.value)
  {
    var profile := ProfileOf(source, mode);
    var limit := EffectiveLimit(profile, requested);
    if limit.Ok? {
      var best := Smallest(profile.ranges, mode, target, limit.value);
      SmallestIsSmallest(profile.ranges, mode, target, limit.value);
      forall e | e in profile.ranges && Usable(e, mode, target, limit.value)
        ensures best.Some? && profile.ranges[best.value].maximum.value <= e.maximum.value
      {
        var i :| 0 <= i < |profile.ranges| && profile.ranges[i] == e;
        assert Candidate(profile.ranges[i], mode, target, limit.value);
      }
      if best.Some? {
        assert profile.ranges[best.value] in profile.ranges;
        assert Usable(profile.ranges[best.value], mode, target, limit.value);
      }
    }
  }

  /** A limit can be programmed exactly up to the hardware's own, and is then the least step covering it or that. */
  lemma QuantizedExactly(profile: Profile, requested: real)
    ensures var q := Quantized(profile, requested);
      var wanted := Greatest(requested, profile.limitMin);
      && (q.Ok? <==> requested <= profile.limitMax && profile.limitStep > 0.0)
      && (q.Ok? ==> q.value == profile.limitMax || exists k: int :: q.value == Steps(k, profile.limitStep))
      && (q.Ok? ==> q.value >= wanted || q.value == profile.limitMax)
      && (q.Ok? && q.value >= wanted ==> q.value < wanted + profile.limitStep)
  {
    if requested <= profile.limitMax && profile.limitStep > 0.0 {
      var wanted := Greatest(requested, profile.limitMin);
      CeilToBounds(wanted, profile.limitStep);
      assert CeilTo(wanted, profile.limitStep) == Steps(Ceil(wanted / profile.limitStep), profile.limitStep);
    }
  }

  /**
   The protection of a plan is the fixed limiter of the selected voltage range where there is one, and otherwise
   covers the protection asked for by less than one increment, within the hardware's limit.
   */
  lemma ProtectionIsAsAsked(config: Config)
    requires PlanSingle(config).Ok?
    ensures var profile := ProfileOf(config.source, config.mode);
      var asked := if config.sourceCompliance.Some? then config.sourceCompliance.value else config.compliance;
      var p := PlanSingle(config).value;
      var fixed := FixedLimit(profile.ranges, p.range);
      if config.mode == Iv && fixed.Some? then p.compliance == fixed.value
      else asked <= p.compliance <= profile.limitMax
           && p.compliance < Greatest(asked, profile.limitMin) + profile.limitStep
  {
    PreparedSettings(config);
    QuantizedCovers(ProfileOf(config.source, config.mode), Protection(config));
  }

  /** The fixed limiter reported for a command is that of the first range with this command. */
  lemma {:induction false} FixedLimitIsFirst(ranges: seq<RangeSpec>, i: nat)
    requires i < |ranges| && forall j | 0 <= j < i :: ranges[j].command != ranges[i].command
    ensures FixedLimit(ranges, ranges[i].command) == ranges[i].fixedCurrent
    decreases |ranges|
  {
    if i > 0 {
      assert ranges[0].command != ranges[i].command;
      FixedLimitIsFirst(ranges[1..], i - 1);
    }
  }

  // ---- Settings ----

  /** Preparing changes nothing but the step and the ramp, and fails only for want of a range or a step. */
  lemma PreparesExactly(config: Config)
    ensures Prepare(config).Ok? <==> Chosen(config).Ok? && config.step != 0.0
    ensures Prepare(config).Ok? ==>
      Prepare(config).value.(step := config.step, rampStep := config.rampStep) == config
    ensures Prepare(config).Ok? ==> Chosen(Prepare(config).value) == Chosen(config)
  {
  }

  // ---- The route ----

  function Targets(plan: SourcePlan): seq<real> {
    seq(|plan.points|, i requires 0 <= i < |plan.points| => plan.points[i].target)
  }

  function Reported(plan: SourcePlan): seq<Direction> {
    seq(|plan.points|, i requires 0 <= i < |plan.points| => plan.points[i].direction)
  }

  /** The points of a plan are the route of its prepared settings, numbered from 1, with the directions of its moves. */
  lemma PlanIsItsRoute(config: Config)
    requires PlanSingle(config).Ok?
    ensures var plan := PlanSingle(config).value;
      && Prepare(config).Ok?
      && Sweep.Route(config.pattern, config.start, config.stop, Prepare(config).value.step, config.custom)
         == Ok(Targets(plan))
      && Directed(Targets(plan), Reported(plan))
      && forall i | 0 <= i < |plan.points| :: plan.points[i].index == i + 1 && plan.points[i].total == |plan.points|
  {
    PreparesExactly(config);
    PreparedSettings(config);
    var prepared := Prepare(config).value;
    var route := AlignedRoute(prepared, Grid(Chosen(config).value)).value;
    var plan := PlanSingle(config).value;
    assert plan.points == SweepPoints(route);
    assert Targets(plan) == route;
    assert Reported(plan) == Headings(route);
    HeadingsAreDirected(route);
  }

  /**
   A planned sweep visits its start and stop (and zero when centred on it), ends where it should, never stands
   still, never moves by more than the prepared step and never leaves the interval; a list is taken as it is.
   */
  lemma PlanIsATour(config: Config)
    requires PlanSingle(config).Ok?
    ensures var p := Targets(PlanSingle(config).value);
      var home := if config.pattern == ZeroCentered then 0.0 else config.start;
      var last := if config.pattern == Linear then config.stop else home;
      if config.pattern == CustomList then p == config.custom
      else
        && Tour(p, home, last, Least(config.start, config.stop), Greatest(config.start, config.stop),
                Size(Prepare(config).value.step))
        && config.start in p && config.stop in p
  {
    PlanIsItsRoute(config);
    PreparedSettings(config);
    if config.pattern != CustomList {
      RouteIsATour(config.pattern, config.start, config.stop, Prepare(config).value.step, config.custom);
    }
  }

  /** A planned linear sweep keeps one direction, and a planned round trip turns once, at its stop. */
  lemma PlannedDirections(config: Config, i: nat)
    requires PlanSingle(config).Ok? && i < |PlanSingle(config).value.points|
    ensures var points := PlanSingle(config).value.points;
      var turn := Intervals(config.start, config.stop, Prepare(config).value.step);
      && (config.pattern == Linear ==>
            points[i].direction == if config.start <= config.stop then Direction.Forward else Backward)
      && (config.pattern == RoundTrip && config.start != config.stop ==>
            && 0 < turn < |points| && points[turn].target == config.stop
            && points[i].direction ==
                 if (i <= turn) == (config.start < config.stop) then Direction.Forward else Backward)
  {
    PlanIsItsRoute(config);
    PreparedSettings(config);
    var plan := PlanSingle(config).value;
    var step := Prepare(config).value.step;
    var route := Targets(plan);
    assert forall k | 0 <= k < |plan.points| :: route[k] == plan.points[k].target;
    assert plan.points[i].direction == Heading(route, i) by {
      PointIsHeading(config, i);
    }
    if config.pattern == Linear {
      LinearDirections(config.start, config.stop, step, i);
    } else if config.pattern == RoundTrip && config.start != config.stop {
      RoundTripDirections(config.start, config.stop, step, i);
    }
  }

  lemma PointIsHeading(config: Config, i: nat)
    requires PlanSingle(config).Ok? && i < |PlanSingle(config).value.points|
    ensures PlanSingle(config).value.points[i].direction == Heading(Targets(PlanSingle(config).value), i)
  {
    var prepared := Prepare(config).value;
    PreparesExactly(config);
    PreparedSettings(config);
    var route := AlignedRoute(prepared, Grid(Chosen(config).value)).value;
    assert PlanSingle(config).value.points == SweepPoints(route);
    assert Targets(PlanSingle(config).value) == route;
  }

  // ---- When there is a plan ----

  /** The start, the stop and every listed point lie on the selected range's grid, and the ramp does too. */
  ghost predicate OnGrid(config: Config, grid: real)
    requires Prepare(config).Ok?
  {
    && Multiple(Prepare(config).value.rampStep, grid)
    && if config.pattern == CustomList then forall x | x in config.custom :: Multiple(x, grid)
       else Multiple(config.start, grid) && Multiple(config.stop, grid)
  }

  /** The sweep has a first point and at most a million, and a centred one contains zero. */
  ghost predicate Countable(config: Config, step: real)
    requires step != 0.0
  {
    if config.pattern == CustomList then 1 <= |config.custom| <= 1_000_000
    else
      && RouteLength(config.pattern, config.start, config.stop, step) <= 1_000_000
      && (config.pattern == ZeroCentered ==>
            Least(config.start, config.stop) <= 0.0 <= Greatest(config.start, config.stop))
  }

  /** Protection, limit and ramp make sense to the hardware. */
  ghost predicate Settable(config: Config) {
    var profile := ProfileOf(config.source, config.mode);
    && config.sourceLimit > 0.0 && config.compliance > 0.0
    && Prepare(config).Ok? && Prepare(config).value.rampStep > 0.0
    && 0.0 < Protection(config) <= profile.limitMax && profile.limitStep > 0.0
  }

  /**
   A sweep is planned exactly when its settings make sense, a range can be selected, start, stop and ramp are on its
   grid, the points can be counted, and no target is beyond the requested and the hardware's limit.
   */
  lemma PlansExactly(config: Config)
    ensures PlanSingle(config).Ok? <==>
      && Settable(config)
      && OnGrid(config, Grid(Chosen(config).value))
      && Countable(config, Prepare(config).value.step)
      && LargestTarget(config) <= config.sourceLimit
      && LargestTarget(config) <= ProfileOf(config.source, config.mode).hardMaximum
  {
    PreparesExactly(config);
    if Settable(config) {
      PreparedSettings(config);
      var c := Prepare(config).value;
      var grid := Grid(Chosen(config).value);
      GridErrorExactly(config, c, grid);
      AlignedIsMultiple(c.rampStep, grid);
      RouteExactly(config, c.step, grid);
      if AlignedRoute(c, grid).Ok? {
        LargestIsReached(config, AlignedRoute(c, grid).value, c.step);
      }
    }
  }

  lemma GridErrorExactly(config: Config, c: Config, grid: real)
    requires grid > 0.0 && Prepare(config) == Ok(c) && Chosen(config).Ok? && grid == Grid(Chosen(config).value)
    ensures GridError(c, grid).None? <==>
      (config.pattern != CustomList ==> Multiple(config.start, grid) && Multiple(config.stop, grid))
  {
    PreparedSettings(config);
    AlignedIsMultiple(config.start, grid);
    AlignedIsMultiple(config.stop, grid);
    AlignedIsMultiple(c.step, grid);
    AlignedIsMultiple(Size(c.step), grid);
    NegationIsMultiple(c.step, grid);
  }

  lemma NegationIsMultiple(x: real, grid: real)
    ensures Multiple(Size(x), grid) ==> Multiple(x, grid)
  {
    if Multiple(Size(x), grid) {
      var k: int :| Size(x) == Steps(k, grid);
      assert x == Steps(k, grid) || x == Steps(-k, grid);
    }
  }

  lemma RouteExactly(config: Config, step: real, grid: real)
    requires step != 0.0 && grid > 0.0
    ensures AlignedRoute(config.(step := step), grid).Ok? <==>
      Countable(config, step) && (config.pattern == CustomList ==> forall x | x in config.custom :: Multiple(x, grid))
  {
    if config.pattern == CustomList {
      forall x | x in config.custom ensures Aligned(x, grid) <==> Multiple(x, grid) {
        AlignedIsMultiple(x, grid);
      }
      assert AllAligned(config.custom, grid) <==> forall x | x in config.custom :: Aligned(x, grid);
    } else {
      RouteIsATour(config.pattern, config.start, config.stop, step, config.custom);
    }
  }

  lemma LargestOfInterval(route: seq<real>, start: real, stop: real)
    requires start in route && stop in route
    requires forall i | 0 <= i < |route| :: Least(start, stop) <= route[i] <= Greatest(start, stop)
    ensures MaxSize(route) == Greatest(Size(start), Size(stop))
  {
    MaxSizeIsReached(route);
    var a :| 0 <= a < |route| && route[a] == start;
    var b :| 0 <= b < |route| && route[b] == stop;
    assert Size(route[a]) <= MaxSize(route) && Size(route[b]) <= MaxSize(route);
  }

  /** The largest target configured is the largest of the route. */
  lemma LargestIsReached(config: Config, route: seq<real>, step: real)
    requires step != 0.0
    requires Sweep.Route(config.pattern, config.start, config.stop, step, config.custom) == Ok(route)
    ensures MaxSize(route) == LargestTarget(config)
  {
    hide MaxSize, Size, RouteLength;
    if config.pattern != CustomList {
      RouteIsATour(config.pattern, config.start, config.stop, step, config.custom);
      LargestOfInterval(route, config.start, config.stop);
    }
  }

  lemma {:induction false} MaxSizeIsReached(p: seq<real>)
    ensures p != [] ==> exists i :: 0 <= i < |p| && MaxSize(p) == Size(p[i])
  {
    if |p| == 1 {
      assert MaxSize(p) == Size(p[0]);
    } else if p != [] {
      var n := |p| - 1;
      MaxSizeIsReached(p[..n]);
      if MaxSize(p) != Size(p[n]) {
        var i :| 0 <= i < |p[..n]| && MaxSize(p[..n]) == Size(p[..n][i]);
        assert MaxSize(p) == Size(p[i]);
      }
    }
  }

  // ---- When there is none ----

  /** A refused plan names what is wrong with it. */
  lemma PlanErrorsAreTrue(config: Config)
    requires PlanSingle(config).Err?
    ensures var profile := ProfileOf(config.source, config.mode);
      match PlanSingle(config).error
      case NotPositive =>
        config.sourceLimit <= 0.0 || config.compliance <= 0.0 || Protection(config) <= 0.0
        || (Prepare(config).Ok? && Prepare(config).value.rampStep <= 0.0)
      case ProtectionTooHigh => Protection(config) > profile.limitMax
      case NoComplianceIncrement => profile.limitStep <= 0.0
      case OutOfRange =>
        forall e | e in profile.ranges :: e.maximum.Some? && e.resolution.Some? && e.fixedCurrent.None? ==>
          LargestTarget(config) > e.maximum.value
      case NotAligned => Prepare(config).Ok? && !OnGrid(config, Grid(Chosen(config).value))
      case TargetTooLarge =>
        LargestTarget(config) > config.sourceLimit || LargestTarget(config) > profile.hardMaximum
      case Route(e) =>
        if e.ZeroStep? then config.step == 0.0
        else if e.EmptyList? then config.pattern == CustomList && config.custom == []
        else if e.ZeroOutside? then
          config.pattern == ZeroCentered
          && !(Least(config.start, config.stop) <= 0.0 <= Greatest(config.start, config.stop))
        else e.TooManyPoints?
      case _ => false
  {
    PreparesExactly(config);
    if Chosen(config).Err? {
      NoRange(config);
    }
    if Prepare(config).Ok? {
      PreparedSettings(config);
      var c := Prepare(config).value;
      var grid := Grid(Chosen(config).value);
      GridErrorExactly(config, c, grid);
      AlignedIsMultiple(c.rampStep, grid);
      RouteExactly(config, c.step, grid);
      RouteErrors(config, c.step, grid);
      if AlignedRoute(c, grid).Ok? {
        LargestIsReached(config, AlignedRoute(c, grid).value, c.step);
      }
    }
  }

  lemma RouteErrors(config: Config, step: real, grid: real)
    requires step != 0.0 && grid > 0.0
    ensures var r := AlignedRoute(config.(step := step), grid);
      r.Err? ==>
        match r.error
        case NotAligned => config.pattern == CustomList
        case Route(e) =>
          if e.EmptyList? then config.pattern == CustomList && config.custom == []
          else if e.ZeroOutside? then
            config.pattern == ZeroCentered
            && !(Least(config.start, config.stop) <= 0.0 <= Greatest(config.start, config.stop))
          else e.TooManyPoints?
        case _ => false
  {
    if config.pattern != CustomList {
      RouteIsATour(config.pattern, config.start, config.stop, step, config.custom);
    }
  }

  /** Why no range is selected. */
  lemma NoRange(config: Config)
    requires Chosen(config).Err?
    ensures var profile := ProfileOf(config.source, config.mode);
      match Chosen(config).error
      case NotPositive => config.sourceCompliance.Some? && config.sourceCompliance.value <= 0.0
      case ProtectionTooHigh => config.sourceCompliance.Some? && config.sourceCompliance.value > profile.limitMax
      case NoComplianceIncrement => profile.limitStep <= 0.0
      case OutOfRange =>
        forall e | e in profile.ranges :: e.maximum.Some? && e.resolution.Some? && e.fixedCurrent.None? ==>
          LargestTarget(config) > e.maximum.value
      case _ => false
  {
    var profile := ProfileOf(config.source, config.mode);
    var limit := EffectiveLimit(profile, config.sourceCompliance);
    if limit.Ok? {
      SmallestIsSmallest(profile.ranges, config.mode, LargestTarget(config), limit.value);
      forall e | e in profile.ranges && e.maximum.Some? && e.resolution.Some? && e.fixedCurrent.None?
        ensures LargestTarget(config) > e.maximum.value
      {
        var i :| 0 <= i < |profile.ranges| && profile.ranges[i] == e;
        assert !Candidate(profile.ranges[i], config.mode, LargestTarget(config), limit.value);
      }
    }
  }
}
