/**
 Planning two sources that share a differential voltage D in the ratio a : b,
 V1 = a/(a+b) D and V2 = -b/(a+b) D: both are planned independently, on settings
 derived from their common grid.
 */
module Balanced {
  import opened Wrappers
  import opened Lattice
  import opened Sweep
  import opened SweepScaling
  import opened Plan

  const MAX_PART: nat := 1000

  datatype SecondSource = SecondSource(source: SourceSpec, part1: nat, part2: nat, compliance: real)

  datatype Settings = Settings(differential: Config, first: Config, second: Config, increment: Increment)

  datatype DualPlan = DualPlan(first: Config, second: Config, plan1: SourcePlan, plan2: SourcePlan,
                               points: seq<SweepPoint>, increment: Increment)

  /** Can a decimal of at most 28 places hold the value? */
  predicate Terminates(x: real) {
    Shifted(x).Floor as real == Shifted(x)
  }

  /** The value in units of the 28th place. */
  function Shifted(x: real): real {
    x * Pow10(MAX_SCALE) as real
  }

  function Weight(part: nat, total: nat): real
    requires total > 0
  {
    part as real / total as real
  }

  /** A value's share, when a decimal holds it exactly. */
  function Share(value: real, part: nat, total: nat): Result<real, PlanError>
    requires total > 0
  {
    var share := By(Weight(part, total), value);
    if Terminates(share) then Ok(share) else Err(NotExact)
  }

  function Shares(values: seq<real>, part: nat, total: nat): Result<seq<real>, PlanError>
    requires total > 0
  {
    var shares := Scale(values, Weight(part, total));
    if forall i :: 0 <= i < |shares| ==> Terminates(shares[i]) then Ok(shares) else Err(NotExact)
  }

  /** The quantized protection must not exceed the requested one. */
  function ExactProtection(source: SourceSpec, requested: real): Option<PlanError> {
    var q := Quantized(source.voltage, requested);
    if q.Err? then Some(q.error) else if q.value > requested then Some(InexactProtection) else None
  }

  /** One source's configuration: its shares of the targets, the step and the limit. */
  function SourceConfig(config: Config, source: SourceSpec, sign: real, step: real, part: nat, total: nat, limit: real)
    : Result<Config, PlanError>
    requires total > 0
  {
    var start := Share(By(sign, config.start), part, total);
    var stop := Share(By(sign, config.stop), part, total);
    var own := Share(step, part, total);
    var custom := Shares(Scale(config.custom, sign), part, total);
    if start.Err? || stop.Err? || own.Err? || custom.Err? then Err(NotExact)
    else
      Ok(config.(source := source, start := start.value, stop := stop.value, step := own.value,
                 custom := custom.value, sourceLimit := config.sourceLimit * Weight(part, total),
                 sourceCompliance := Some(limit)))
  }

  /** The differential ramp step that the slower of two automatic ramps allows. */
  function SlowerRamp(first: Config, second: Config, two: SecondSource): real
    requires two.part1 > 0 && two.part2 > 0
  {
    var total := (two.part1 + two.part2) as real;
    Least(first.rampStep * total / two.part1 as real, second.rampStep * total / two.part2 as real)
  }

  /** Ramp on the common grid, as fast as both automatic ramps allow, within both ranges. */
  function CommonRamp(first: Config, second: Config, s1: Selection, s2: Selection, inc: Increment, two: SecondSource)
    : Result<real, PlanError>
    requires two.part1 > 0 && two.part2 > 0
  {
    ValueIsPositive(inc);
    var total := two.part1 + two.part2;
    var candidate := SlowerRamp(first, second, two);
    if candidate <= 0.0 then Err(NotPositive)
    else
      var ramp := CeilTo(candidate, Value(inc));
      var ramp1, ramp2 := Share(ramp, two.part1, total), Share(ramp, two.part2, total);
      if ramp1.Err? || ramp2.Err? then Err(NotExact)
      else if ramp1.value > s1.maximum || ramp2.value > s2.maximum then Err(RampTooLarge)
      else Ok(ramp)
  }

  /** The checks made before any target is split, and the two selections they lead to. */
  function Selections(config: Config, two: SecondSource): Result<(Selection, Selection), PlanError> {
    if config.mode != Iv then Err(NotVoltage)
    else if !(0 < two.part1 <= MAX_PART && 0 < two.part2 <= MAX_PART) then Err(BadRatio)
    else if two.compliance <= 0.0 || Protection(config) <= 0.0 then Err(NotPositive)
    else if ExactProtection(config.source, Protection(config)).Some? then
      Err(ExactProtection(config.source, Protection(config)).value)
    else if ExactProtection(two.source, two.compliance).Some? then
      Err(ExactProtection(two.source, two.compliance).value)
    else
      var total := two.part1 + two.part2;
      var largest := LargestTarget(config);
      var s1 := SelectRange(config.source, Iv, By(Weight(two.part1, total), largest), Some(Protection(config)));
      if s1.Err? then Err(s1.error)
      else
        var s2 := SelectRange(two.source, Iv, By(Weight(two.part2, total), largest), Some(two.compliance));
        if s2.Err? then Err(s2.error) else Ok((s1.value, s2.value))
  }

  /** The requested step, rounded up to the common increment, in its own direction. */
  function CommonStepSize(step: real, inc: Increment): real {
    ValueIsPositive(inc);
    CopySign(CeilTo(Size(step), Value(inc)), step)
  }

  function PrepareBalanced(config: Config, two: SecondSource): Result<Settings, PlanError> {
    var chosen := Selections(config, two);
    if chosen.Err? then Err(chosen.error)
    else
      var (s1, s2) := chosen.value;
      var total := two.part1 + two.part2;
      var inc := SplitIncrement(s1.resolution, s2.resolution, two.part1, two.part2);
      if inc.Err? then Err(NoCommonIncrement)
      else if config.step == 0.0 then Err(Route(ZeroStep))
      else
        SplitIncrementIsResolution(s1.resolution, s2.resolution, two.part1, two.part2);
        var step := CommonStepSize(config.step, inc.value);
        var raw1 := SourceConfig(config, config.source, 1.0, step, two.part1, total, Protection(config));
        var raw2 := SourceConfig(config, two.source, -1.0, step, two.part2, total, two.compliance);
        if raw1.Err? || raw2.Err? then Err(NotExact)
        else
          var first, second := Prepare(raw1.value), Prepare(raw2.value);
          if first.Err? then Err(first.error)
          else if second.Err? then Err(second.error)
          else
            var ramp := CommonRamp(first.value, second.value, s1, s2, inc.value, two);
            if ramp.Err? then Err(ramp.error)
            else
              Ok(Settings(
                config.(step := step, rampStep := ramp.value),
                first.value.(rampStep := By(Weight(two.part1, total), ramp.value)),
                second.value.(rampStep := By(Weight(two.part2, total), ramp.value)),
                inc.value))
  }

  lemma SplitIncrementIsResolution(first: Increment, second: Increment, a: nat, b: nat)
    requires a > 0 && b > 0 && SplitIncrement(first, second, a, b).Ok?
    ensures Resolution(SplitIncrement(first, second, a, b).value)
  {
    IncrementIsTheCommonGrid(first, second, a, b, 0.0);
  }

  /** The differential targets themselves, on the common grid. */
  function BasePoints(differential: Config, inc: Increment): Result<seq<real>, PlanError> {
    ValueIsPositive(inc);
    var r := Value(inc);
    if GridError(differential, r).Some? then Err(GridError(differential, r).value)
    else AlignedRoute(differential, r)
  }

  function PlanBalanced(config: Config, two: SecondSource): Result<DualPlan, PlanError> {
    var prepared := PrepareBalanced(config, two);
    if prepared.Err? then Err(prepared.error)
    else
      var s := prepared.value;
      var plan1 := PlanSingle(s.first);
      if plan1.Err? then Err(plan1.error)
      else
        var plan2 := PlanSingle(s.second);
        if plan2.Err? then Err(plan2.error)
        else
          var base := BasePoints(s.differential, s.increment);
          if base.Err? then Err(base.error)
          else if MaxSize(base.value) > s.differential.sourceLimit then Err(TargetTooLarge)
          else
            var points := SweepPoints(base.value);
            if |plan1.value.points| != |points| || |plan2.value.points| != |points| then Err(PointCountMismatch)
            else Ok(DualPlan(s.first, s.second, plan1.value, plan2.value, points, s.increment))
  }
}
