/**
 Planning one source: the range and protection chosen from its profile, the
 settings snapped to its DAC grid, and the checked sequence of points.
 */
module Plan {
  import opened Wrappers
  import opened Lattice
  import opened Sweep

  type Increment = d: Decimal | Resolution(d) witness Decimal(1, 0)

  datatype Mode = Iv | Vi

  /** One output range; its limits are absent when the profile does not give them for this quantity. */
  datatype RangeSpec = RangeSpec(command: real, maximum: Option<real>, resolution: Option<Increment>,
                                 fixedCurrent: Option<real>)

  /** What a source offers in one mode: its sourced quantity's ranges and its opposite quantity's limits. */
  datatype Profile = Profile(hardMaximum: real, limitMin: real, limitMax: real, limitStep: real,
                             ranges: seq<RangeSpec>)

  datatype SourceSpec = SourceSpec(voltage: Profile, current: Profile, commandsAreCodes: bool)

  datatype Config = Config(
    source: SourceSpec, mode: Mode, pattern: Pattern,
    start: real, stop: real, step: real, custom: seq<real>,
    sourceLimit: real, compliance: real, sourceCompliance: Option<real>, rampStep: real)

  datatype Selection = Selection(command: real, maximum: real, resolution: Increment)

  datatype PlanError =
    | Route(error: SweepError) | NotPositive | ProtectionTooHigh | NoComplianceIncrement | OutOfRange
    | NotAligned | RampTooLarge | TargetTooLarge
    | NotVoltage | BadRatio | InexactProtection | NoCommonIncrement | NotExact | PointCountMismatch

  datatype SweepPoint = SweepPoint(target: real, direction: Direction, index: nat, total: nat)

  datatype SourcePlan = SourcePlan(points: seq<SweepPoint>, range: real, compliance: real)

  function ProfileOf(source: SourceSpec, mode: Mode): Profile {
    if mode == Iv then source.voltage else source.current
  }

  // ---- Protection ----

  function CeilTo(value: real, increment: real): real
    requires increment > 0.0
  {
    Ceil(value / increment) as real * increment
  }

  /** The protection the hardware is programmed with for a requested one. */
  function Quantized(profile: Profile, requested: real): Result<real, PlanError> {
    if requested > profile.limitMax then Err(ProtectionTooHigh)
    else if profile.limitStep <= 0.0 then Err(NoComplianceIncrement)
    else Ok(Least(CeilTo(Greatest(requested, profile.limitMin), profile.limitStep), profile.limitMax))
  }

  lemma CeilToBounds(value: real, increment: real)
    requires increment > 0.0
    ensures value <= CeilTo(value, increment) < value + increment
  {
    var q := value / increment;
    Widen(q, Ceil(q) as real, increment, value, CeilTo(value, increment));
  }

  /** The products are named so that their order is a linear fact. */
  lemma Widen(q: real, n: real, r: real, x: real, y: real)
    requires r > 0.0 && q <= n < q + 1.0 && x == q * r && y == n * r
    ensures x <= y < x + r
  {
    var e, f := n - q, q + 1.0 - n;
    assert e * r >= 0.0;
    assert e * r == y - x;
    assert f * r > 0.0;
    assert f * r == x + r - y;
  }

  lemma QuotientOrder(x: real, y: real, r: real)
    requires r > 0.0 && x <= y
    ensures x / r <= y / r
  {
    var p, q := x / r, y / r;
    assert p * r == x && q * r == y;
    assert (p - q) * r <= 0.0;
    assert p - q > 0.0 ==> (p - q) * r > 0.0;
  }

  lemma CeilToIsMonotone(x: real, y: real, increment: real)
    requires increment > 0.0 && x <= y
    ensures CeilTo(x, increment) <= CeilTo(y, increment)
  {
    QuotientOrder(x, y, increment);
    var m, n := Ceil(x / increment), Ceil(y / increment);
    assert m <= n;
    assert (n - m) as real * increment >= 0.0;
    assert (n - m) as real * increment == n as real * increment - m as real * increment;
  }

  lemma CeilToOfMultiple(value: real, k: int, increment: real)
    requires increment > 0.0 && value == k as real * increment
    ensures CeilTo(value, increment) == value
  {
    var q := value / increment;
    assert q * increment == value;
    CancelReal(increment, q, k as real);
    assert Ceil(q) == k;
  }

  /** Never below the request, and less than one increment above what the hardware can do. */
  lemma QuantizedCovers(profile: Profile, requested: real)
    requires Quantized(profile, requested).Ok?
    ensures requested <= Quantized(profile, requested).value
    ensures Quantized(profile, requested).value < Greatest(requested, profile.limitMin) + profile.limitStep
    ensures Quantized(profile, requested).value <= profile.limitMax
  {
    CeilToBounds(Greatest(requested, profile.limitMin), profile.limitStep);
  }

  lemma QuantizedIsMonotone(profile: Profile, x: real, y: real)
    requires x <= y && Quantized(profile, y).Ok?
    ensures Quantized(profile, x).Ok? && Quantized(profile, x).value <= Quantized(profile, y).value
  {
    CeilToIsMonotone(Greatest(x, profile.limitMin), Greatest(y, profile.limitMin), profile.limitStep);
  }

  lemma CeilToIsIdempotent(value: real, increment: real)
    requires increment > 0.0
    ensures CeilTo(CeilTo(value, increment), increment) == CeilTo(value, increment)
  {
    CeilToOfMultiple(CeilTo(value, increment), Ceil(value / increment), increment);
  }

  /** Programming a quantized limit programs that limit. */
  lemma QuantizedIsIdempotent(profile: Profile, requested: real)
    requires Quantized(profile, requested).Ok?
    ensures Quantized(profile, Quantized(profile, requested).value) == Quantized(profile, requested)
  {
    var wanted := Greatest(requested, profile.limitMin);
    CeilToBounds(wanted, profile.limitStep);
    CeilToIsIdempotent(wanted, profile.limitStep);
    CeilToBounds(Greatest(profile.limitMax, profile.limitMin), profile.limitStep);
  }

  // ---- Range selection ----

  function EffectiveLimit(profile: Profile, requested: Option<real>): Result<Option<real>, PlanError> {
    if requested.None? then Ok(None)
    else if requested.value <= 0.0 then Err(NotPositive)
    else
      var q := Quantized(profile, requested.value);
      if q.Err? then Err(q.error) else Ok(Some(q.value))
  }

  /** A range the limit allows and the profile describes, that covers the target. */
  predicate Candidate(entry: RangeSpec, mode: Mode, target: real, limit: Option<real>) {
    && (mode == Iv && limit.Some? && entry.fixedCurrent.Some? ==> entry.fixedCurrent.value <= limit.value)
    && entry.maximum.Some? && entry.resolution.Some?
    && target <= entry.maximum.value
  }

  /** The index of the first smallest candidate. */
  function Smallest(ranges: seq<RangeSpec>, mode: Mode, target: real, limit: Option<real>): (r: Option<nat>)
    ensures r.Some? ==> r.value < |ranges| && Candidate(ranges[r.value], mode, target, limit)
    decreases |ranges|
  {
    if ranges == [] then None
    else
      var n := |ranges| - 1;
      var best := Smallest(ranges[..n], mode, target, limit);
      if !Candidate(ranges[n], mode, target, limit) then best
      else if best.None? || ranges[n].maximum.value < ranges[best.value].maximum.value then Some(n)
      else best
  }

  function SelectRange(source: SourceSpec, mode: Mode, target: real, requested: Option<real>)
    : Result<Selection, PlanError>
  {
    var profile := ProfileOf(source, mode);
    var limit := EffectiveLimit(profile, requested);
    if limit.Err? then Err(limit.error)
    else
      var best := Smallest(profile.ranges, mode, target, limit.value);
      if best.None? then Err(OutOfRange)
      else
        var entry := profile.ranges[best.value];
        Ok(Selection(entry.command, entry.maximum.value, entry.resolution.value))
  }

  /** The selection is the smallest candidate, the first of equals; there is one if there is any candidate. */
  lemma {:induction false} SmallestIsSmallest(ranges: seq<RangeSpec>, mode: Mode, target: real, limit: Option<real>)
    ensures var r := Smallest(ranges, mode, target, limit);
            forall i :: 0 <= i < |ranges| && Candidate(ranges[i], mode, target, limit) ==>
              r.Some? && ranges[r.value].maximum.value <= ranges[i].maximum.value &&
              (i < r.value ==> ranges[r.value].maximum.value < ranges[i].maximum.value)
    decreases |ranges|
  {
    if ranges != [] {
      var n := |ranges| - 1;
      SmallestIsSmallest(ranges[..n], mode, target, limit);
      forall i | 0 <= i < |ranges| && Candidate(ranges[i], mode, target, limit)
        ensures var r := Smallest(ranges, mode, target, limit);
                r.Some? && ranges[r.value].maximum.value <= ranges[i].maximum.value &&
                (i < r.value ==> ranges[r.value].maximum.value < ranges[i].maximum.value)
      {
        if i < n {
          assert ranges[..n][i] == ranges[i];
        }
      }
    }
  }

  // ---- Targets and the grid ----

  function MaxSize(p: seq<real>): (m: real)
    ensures m >= 0.0 && forall i :: 0 <= i < |p| ==> Size(p[i]) <= m
  {
    if p == [] then 0.0 else Greatest(MaxSize(p[..|p| - 1]), Size(p[|p| - 1]))
  }

  function LargestTarget(config: Config): real {
    if config.pattern == CustomList then MaxSize(config.custom)
    else Greatest(Size(config.start), Size(config.stop))
  }

  /** Is the value a whole number of increments? */
  predicate Aligned(value: real, r: real)
    requires r > 0.0
  {
    (value / r).Floor as real * r == value
  }

  lemma AlignedIsMultiple(value: real, r: real)
    requires r > 0.0
    ensures Aligned(value, r) <==> Multiple(value, r)
  {
    if Aligned(value, r) {
      assert value == Steps((value / r).Floor, r);
    }
    if Multiple(value, r) {
      var k: int :| value == Steps(k, r);
      var q := value / r;
      assert q * r == value;
      assert (q - k as real) * r == 0.0;
      NoZeroDivisor(q - k as real, r);
    }
  }

  lemma ValueIsPositive(d: Decimal)
    requires Resolution(d)
    ensures Value(d) > 0.0
  {
    var p := Pow10(d.scale) as real;
    var v := Value(d);
    assert v * p == d.mantissa as real;
    assert v <= 0.0 ==> v * p <= 0.0;
  }

  function Grid(selection: Selection): (r: real)
    ensures r > 0.0
  {
    ValueIsPositive(selection.resolution);
    Value(selection.resolution)
  }

  function SnappedStep(step: real, r: real): real
    requires r > 0.0
  {
    if Aligned(Size(step), r) then Size(step) else CeilTo(Size(step), r)
  }

  function CopySign(size: real, sign: real): real {
    if sign < 0.0 then -size else size
  }

  /** Hardware-dependent settings: the step on the grid and the automatic ramp. */
  function Prepare(config: Config): Result<Config, PlanError> {
    var s := SelectRange(config.source, config.mode, LargestTarget(config), config.sourceCompliance);
    if s.Err? then Err(s.error)
    else if config.step == 0.0 then Err(Route(ZeroStep))
    else
      var size := SnappedStep(config.step, Grid(s.value));
      var nominal := if config.source.commandsAreCodes then s.value.maximum else s.value.command;
      var ramp := CeilTo(nominal / 100.0, Grid(s.value));
      Ok(config.(step := CopySign(size, config.step),
                 rampStep := Least(Greatest(ramp, size), s.value.maximum)))
  }

  // ---- The plan ----

  predicate AllAligned(p: seq<real>, r: real)
    requires r > 0.0
  {
    forall i :: 0 <= i < |p| ==> Aligned(p[i], r)
  }

  /** Start, stop and step must be on the grid, unless the points are listed. */
  function GridError(config: Config, r: real): Option<PlanError>
    requires r > 0.0
  {
    if config.pattern != CustomList
       && !(Aligned(config.start, r) && Aligned(config.stop, r) && Aligned(config.step, r)) then
      Some(NotAligned)
    else if config.step == 0.0 then Some(Route(ZeroStep))
    else None
  }

  /** The base points of a pattern; listed points must be on the grid. */
  function AlignedRoute(config: Config, r: real): Result<seq<real>, PlanError>
    requires r > 0.0
  {
    var route := Sweep.Route(config.pattern, config.start, config.stop, config.step, config.custom);
    if route.Err? then Err(Route(route.error))
    else if config.pattern == CustomList && !AllAligned(config.custom, r) then Err(NotAligned)
    else Ok(route.value)
  }

  function SweepPoints(targets: seq<real>): (points: seq<SweepPoint>)
    ensures |points| == |targets|
  {
    seq(|targets|, i requires 0 <= i < |targets| => SweepPoint(targets[i], Heading(targets, i), i + 1, |targets|))
  }

  /** The first range carrying a command: the one whose fixed limiter is reported. */
  function FixedLimit(ranges: seq<RangeSpec>, command: real): Option<real> {
    if ranges == [] then None
    else if ranges[0].command == command then ranges[0].fixedCurrent
    else FixedLimit(ranges[1..], command)
  }

  function HardwareCompliance(profile: Profile, mode: Mode, command: real, quantized: real): real {
    if mode == Iv then
      var fixed := FixedLimit(profile.ranges, command);
      if fixed.Some? then fixed.value else quantized
    else quantized
  }

  function Protection(config: Config): real {
    if config.sourceCompliance.Some? then config.sourceCompliance.value else config.compliance
  }

  function PlanPrepared(config: Config): Result<SourcePlan, PlanError> {
    var profile := ProfileOf(config.source, config.mode);
    if config.sourceLimit <= 0.0 || config.compliance <= 0.0 || Protection(config) <= 0.0 || config.rampStep <= 0.0 then
      Err(NotPositive)
    else
      var s := SelectRange(config.source, config.mode, LargestTarget(config), config.sourceCompliance);
      if s.Err? then Err(s.error)
      else if GridError(config, Grid(s.value)).Some? then Err(GridError(config, Grid(s.value)).value)
      else if config.rampStep > s.value.maximum then Err(RampTooLarge)
      else if !Aligned(config.rampStep, Grid(s.value)) then Err(NotAligned)
      else
        var route := AlignedRoute(config, Grid(s.value));
        if route.Err? then Err(route.error)
        else if MaxSize(route.value) > Least(config.sourceLimit, profile.hardMaximum) then Err(TargetTooLarge)
        else
          var q := Quantized(profile, Protection(config));
          if q.Err? then Err(q.error)
          else
            Ok(SourcePlan(SweepPoints(route.value), s.value.command,
                          HardwareCompliance(profile, config.mode, s.value.command, q.value)))
  }

  function PlanSingle(config: Config): Result<SourcePlan, PlanError> {
    var prepared := Prepare(config);
    if prepared.Err? then Err(prepared.error) else PlanPrepared(prepared.value)
  }
}
