/**
 The dual ramp: an iterator over the levels strictly between two differential
 voltages, each split between the sources.
 */
module Ramp {
  import opened Wrappers
  import opened Lattice
  import opened Sweep
  import opened SweepScaling
  import opened Plan
  import opened Balanced
  import opened BalancedSplit

  datatype RampError = StepNotPositive | TooManySteps

  function StepToward(level: real, target: real, step: real): real {
    level + if target > level then step else -step
  }

  /** How far there is to go, in steps rounded up. */
  function StepsLeft(level: real, target: real, step: real): (n: nat)
    requires step > 0.0
  {
    CeilOfQuotient(Size(target - level), step);
    Ceil(Size(target - level) / step)
  }

  /** Every level the ramp still visits, the target excluded. */
  function Levels(level: real, target: real, step: real): seq<real>
    requires step > 0.0
    decreases StepsLeft(level, target, step)
  {
    if Size(target - level) <= step then []
    else
      var next := StepToward(level, target, step);
      OneStepLess(level, target, step);
      [next] + Levels(next, target, step)
  }

  lemma OneStepLess(level: real, target: real, step: real)
    requires step > 0.0 && Size(target - level) > step
    ensures StepsLeft(StepToward(level, target, step), target, step) == StepsLeft(level, target, step) - 1
    ensures StepToward(level, target, step) < target <==> level < target
  {
    CeilOfQuotient(Size(target - level), step);
    assert Size(target - StepToward(level, target, step)) == Size(target - level) - step;
  }

  /** The two sources' shares of a level, if decimals hold them. */
  function Split(level: real, a: nat, b: nat): Result<(real, real), PlanError>
    requires a > 0 && b > 0
  {
    var v1, v2 := Share(level, a, a + b), Share(-level, b, a + b);
    if v1.Err? || v2.Err? then Err(NotExact) else Ok((v1.value, v2.value))
  }

  class Targets {
    var level: real
    const target: real
    const step: real
    const part1: nat
    const part2: nat

    ghost predicate Valid() {
      step > 0.0 && part1 > 0 && part2 > 0
    }

    ghost function Remaining(): seq<real>
      requires Valid()
      reads this
    {
      Levels(level, target, step)
    }

    constructor (from: real, to: real, gap: real, a: nat, b: nat)
      requires gap > 0.0 && a > 0 && b > 0
      ensures Valid() && level == from && target == to && step == gap && part1 == a && part2 == b
    {
      level, target, step, part1, part2 := from, to, gap, a, b;
    }

    method Next() returns (item: Option<Result<(real, real), PlanError>>)
      requires Valid()
      modifies this`level
      ensures old(Remaining()) == [] ==> item == None && level == old(level) && Size(target - level) <= step
      ensures old(Remaining()) != [] ==>
                old(Remaining()) == [level] + Remaining() && item == Some(Split(level, part1, part2))
    {
      if Size(target - level) <= step {
        return None;
      }
      level := level + if target > level then step else -step;
      item := Some(Split(level, part1, part2));
    }
  }

  method RampTargets(from: real, to: real, step: real, a: nat, b: nat) returns (r: Result<Targets, RampError>)
    requires a > 0 && b > 0
    ensures r.Err? <==> step <= 0.0 || Size(to - from) / step > MAX_POINTS as real
    ensures r.Err? ==> r.error == if step <= 0.0 then StepNotPositive else TooManySteps
    ensures r.Ok? ==> fresh(r.value) && r.value.Valid() && r.value.Remaining() == Levels(from, to, step) &&
                      r.value.part1 == a && r.value.part2 == b
  {
    if step <= 0.0 {
      return Err(StepNotPositive);
    }
    if Size(to - from) / step > MAX_POINTS as real {
      return Err(TooManySteps);
    }
    var ramp := new Targets(from, to, step, a, b);
    return Ok(ramp);
  }

  // ---- What the ramp visits ----

  /**
   The ramp from one level to another is the sweep between them without its two ends: it ends,
   moves by exactly one step, stays strictly between, and leaves at most one step to the target.
   */
  lemma {:induction false} RampIsTheSweepsInterior(level: real, target: real, step: real, room: nat)
    requires step > 0.0 && level != target && StepsLeft(level, target, step) < room
    ensures Walk(level, target, if target >= level then step else -step, room) ==
            Ok([level] + Levels(level, target, step) + [target])
    decreases StepsLeft(level, target, step)
  {
    CeilOfQuotient(Size(target - level), step);
    var signed := if target >= level then step else -step;
    if Size(target - level) <= step {
      assert Walk(target, target, signed, room - 1) == Ok([target]);
      assert [level] + [] + [target] == [level] + [target];
    } else {
      var next := StepToward(level, target, step);
      OneStepLess(level, target, step);
      CeilOfQuotient(Size(target - next), step);
      RampIsTheSweepsInterior(next, target, step, room - 1);
      var rest := Levels(next, target, step);
      assert [level] + ([next] + rest + [target]) == [level] + ([next] + rest) + [target];
    }
  }

  /** A ramp with its two ends is exactly the planned segment between them. */
  lemma RampIsASegment(from: real, to: real, step: real)
    requires step > 0.0 && from != to
    ensures Segment([from] + Levels(from, to, step) + [to], from, to, step)
  {
    var signed := if to >= from then step else -step;
    var room := StepsLeft(from, to, step) + 1;
    WalkShape(from, to, signed, room);
    RampIsTheSweepsInterior(from, to, step, room);
    ClosedFormIsSegment([from] + Levels(from, to, step) + [to], from, to, signed);
  }

  lemma {:induction false} LevelsShape(level: real, target: real, step: real)
    requires step > 0.0
    ensures var p := [level] + Levels(level, target, step);
            (forall i :: 0 <= i < |p| - 1 ==> Size(p[i + 1] - p[i]) == step) &&
            Size(target - p[|p| - 1]) <= step && (level != target ==> p[|p| - 1] != target) &&
            (forall i :: 0 < i < |p| ==> Least(level, target) < p[i] < Greatest(level, target))
    decreases StepsLeft(level, target, step)
  {
    if Size(target - level) > step {
      var next := StepToward(level, target, step);
      OneStepLess(level, target, step);
      LevelsShape(next, target, step);
      var p, q := [level] + Levels(level, target, step), [next] + Levels(next, target, step);
      assert p == [level] + q;
    }
  }

  /** Each successful item splits its level exactly in the ratio of the weights. */
  lemma ItemsSplitTheirLevel(level: real, a: nat, b: nat)
    requires a > 0 && b > 0 && Split(level, a, b).Ok?
    ensures var (v1, v2) := Split(level, a, b).value;
            v1 - v2 == level && v1 * b as real == -v2 * a as real
  {
    WeightsSum(a, b, level);
    var f, g := Weight(a, a + b), Weight(b, a + b);
    var t := (a + b) as real;
    assert By(g, -level) == -By(g, level);
    ShareRatio(f, g, t, a as real, b as real, level);
  }

  lemma ShareRatio(f: real, g: real, t: real, a: real, b: real, level: real)
    requires t > 0.0 && f * t == a && g * t == b
    ensures f * level * b == g * level * a
  {
    assert f * level * (g * t) == g * level * (f * t);
  }

  /** Every level of a ramp from a grid level by a grid step is on the grid. */
  lemma {:induction false} LevelsOnGrid(level: real, target: real, step: real, r: real)
    requires step > 0.0 && Multiple(level, r) && Multiple(step, r)
    ensures AllMultiples(Levels(level, target, step), r)
    decreases StepsLeft(level, target, step)
  {
    hide Multiple;
    if Size(target - level) > step {
      var next := StepToward(level, target, step);
      OneStepLess(level, target, step);
      MultipleNegates(step, r);
      MultipleSum(level, step, r);
      MultipleSum(level, -step, r);
      LevelsOnGrid(next, target, step, r);
    }
  }

  /**
   A ramp that starts on the combined grid and moves by a multiple of the increment never yields a
   failed item, whatever its target: each of its levels is split exactly.
   */
  lemma GridRampNeverFails(from: real, to: real, step: real, first: Increment, second: Increment, a: nat, b: nat)
    requires step > 0.0 && a > 0 && b > 0 && SplitIncrement(first, second, a, b).Ok?
    requires Multiple(from, Value(SplitIncrement(first, second, a, b).value))
    requires Multiple(step, Value(SplitIncrement(first, second, a, b).value))
    ensures forall level :: level in Levels(from, to, step) ==> Split(level, a, b).Ok?
  {
    hide SplitIncrement, Multiple, Share, Value;
    LevelsOnGrid(from, to, step, Value(SplitIncrement(first, second, a, b).value));
    forall level | level in Levels(from, to, step) ensures Split(level, a, b).Ok? {
      CombinedGridSplitsExactly(level, first, second, a, b);
    }
  }
}
