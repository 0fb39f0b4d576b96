/**
 Sweep routes over exact decimals: one segment, joined segments, the four
 patterns, and the direction reported with each point.
 */
module Sweep {
  import opened Wrappers

  const MAX_POINTS: nat := 1_000_000

  datatype SweepError = ZeroStep | WrongWay | TooManyPoints | ZeroOutside | EmptyList

  datatype Pattern = Linear | RoundTrip | ZeroCentered | CustomList

  function Size(x: real): (r: real)
    ensures r >= 0.0 && (r == x || r == -x)
  {
    if x < 0.0 then -x else x
  }

  // ---- One segment ----

  /** The last interval is shortened so that the endpoint is exact. */
  function Advance(current: real, stop: real, step: real): real {
    if Size(stop - current) <= Size(step) then stop else current + step
  }

  /** The points from `current` on, with room for `room` more. */
  function Walk(current: real, stop: real, step: real, room: nat): Result<seq<real>, SweepError>
    decreases room, current, stop, step
  {
    if room == 0 then Err(TooManyPoints)
    else if current == stop then Ok([current])
    else Prepend([current], Walk(Advance(current, stop, step), stop, step, room - 1))
  }

  function Prepend(points: seq<real>, rest: Result<seq<real>, SweepError>): Result<seq<real>, SweepError> {
    if rest.Err? then rest else Ok(points + rest.value)
  }

  lemma PrependNothing(rest: Result<seq<real>, SweepError>)
    ensures Prepend([], rest) == rest
  {
    assert rest.Ok? ==> [] + rest.value == rest.value;
  }

  lemma PrependJoins(p: seq<real>, q: seq<real>, rest: Result<seq<real>, SweepError>)
    ensures Prepend(p, Prepend(q, rest)) == Prepend(p + q, rest)
  {
    assert rest.Ok? ==> p + (q + rest.value) == (p + q) + rest.value;
  }

  function Range(start: real, stop: real, step: real): Result<seq<real>, SweepError> {
    if step == 0.0 then Err(ZeroStep)
    else if step > 0.0 && start > stop then Err(WrongWay)
    else if step < 0.0 && start < stop then Err(WrongWay)
    else Walk(start, stop, step, MAX_POINTS)
  }

  method DecimalRange(start: real, stop: real, step: real) returns (r: Result<seq<real>, SweepError>)
    ensures r == Range(start, stop, step)
  {
    if step == 0.0 {
      return Err(ZeroStep);
    }
    if step > 0.0 && start > stop {
      return Err(WrongWay);
    }
    if step < 0.0 && start < stop {
      return Err(WrongWay);
    }
    var current := start;
    var points: seq<real> := [];
    PrependNothing(Walk(start, stop, step, MAX_POINTS));
    while true
      invariant |points| <= MAX_POINTS
      invariant Range(start, stop, step) == Prepend(points, Walk(current, stop, step, MAX_POINTS - |points|))
      decreases MAX_POINTS - |points|
    {
      if |points| >= MAX_POINTS {
        return Err(TooManyPoints);
      }
      ghost var before := points;
      points := points + [current];
      if current == stop {
        break;
      }
      current := Advance(current, stop, step);
      PrependJoins(before, [points[|before|]], Walk(current, stop, step, MAX_POINTS - |points|));
    }
    return Ok(points);
  }

  // ---- Its shape ----

  function Ceil(x: real): int {
    -((-x).Floor)
  }

  /** How many intervals of at most |step| cover the segment. */
  function Intervals(start: real, stop: real, step: real): int
    requires step != 0.0
  {
    Ceil(Size(stop - start) / Size(step))
  }

  predicate Toward(start: real, stop: real, step: real) {
    step != 0.0 && (step > 0.0 ==> start <= stop) && (step < 0.0 ==> start >= stop)
  }

  /** The i-th point counted from the start. */
  function PointAt(start: real, stop: real, step: real, i: int): real
    requires step != 0.0
  {
    if i >= Intervals(start, stop, step) then stop else start + i as real * step
  }

  lemma NoZeroDivisor(e: real, s: real)
    requires s != 0.0 && e * s == 0.0
    ensures e == 0.0
  {
  }

  lemma CeilOfQuotient(d: real, s: real)
    requires d >= 0.0 && s > 0.0
    ensures d == 0.0 ==> Ceil(d / s) == 0
    ensures 0.0 < d <= s ==> Ceil(d / s) == 1
    ensures d > s ==> Ceil(d / s) >= 2 && Ceil((d - s) / s) == Ceil(d / s) - 1
  {
    var q := d / s;
    assert q * s == d;
    if d > 0.0 {
      assert q > 0.0 by {
        assert q <= 0.0 ==> q * s <= 0.0;
      }
      if d <= s {
        assert q <= 1.0 by {
          assert q > 1.0 ==> q * s > s;
        }
      } else {
        assert q > 1.0 by {
          assert q <= 1.0 ==> q * s <= s;
        }
        var p := (d - s) / s;
        assert (p - (q - 1.0)) * s == p * s - q * s + s == 0.0;
        NoZeroDivisor(p - (q - 1.0), s);
      }
    }
  }

  /** Advancing drops the first point of the closed form. */
  lemma NextPoint(current: real, stop: real, step: real, i: nat)
    requires Toward(current, stop, step) && current != stop
    ensures var next := Advance(current, stop, step);
            Toward(next, stop, step) &&
            Intervals(next, stop, step) == Intervals(current, stop, step) - 1 >= 0 &&
            PointAt(next, stop, step, i) == PointAt(current, stop, step, i + 1)
  {
    var next := Advance(current, stop, step);
    CeilOfQuotient(Size(stop - current), Size(step));
    CeilOfQuotient(0.0, Size(step));
    if Size(stop - current) > Size(step) {
      assert Size(stop - next) == Size(stop - current) - Size(step);
      assert (i + 1) as real * step == i as real * step + step;
    }
  }

  /** The walk in closed form, and exactly when it does not fit. */
  lemma {:induction false} WalkShape(current: real, stop: real, step: real, room: nat)
    requires Toward(current, stop, step)
    ensures Intervals(current, stop, step) >= 0
    ensures Walk(current, stop, step, room).Ok? <==> Intervals(current, stop, step) < room
    ensures Walk(current, stop, step, room).Err? ==> Walk(current, stop, step, room).error == TooManyPoints
    ensures var w := Walk(current, stop, step, room);
            w.Ok? ==> |w.value| == Intervals(current, stop, step) + 1 &&
                      forall i :: 0 <= i < |w.value| ==> w.value[i] == PointAt(current, stop, step, i)
    decreases room
  {
    CeilOfQuotient(Size(stop - current), Size(step));
    if room > 0 && current != stop {
      var next := Advance(current, stop, step);
      NextPoint(current, stop, step, 0);
      WalkShape(next, stop, step, room - 1);
      var w := Walk(current, stop, step, room);
      if w.Ok? {
        forall i | 0 <= i < |w.value| ensures w.value[i] == PointAt(current, stop, step, i) {
          if i > 0 {
            NextPoint(current, stop, step, i - 1);
          }
        }
      }
    }
  }

  // ---- Routes ----

  function ForwardPoints(start: real, stop: real, step: real): Result<seq<real>, SweepError> {
    Range(start, stop, if stop >= start then Size(step) else -Size(step))
  }

  /** Appending a segment that starts where the points end does not repeat the joint. */
  function Joined(points: seq<real>, segment: seq<real>): seq<real> {
    if |points| > 0 && |segment| > 0 && points[|points| - 1] == segment[0] then points + segment[1..]
    else points + segment
  }

  function Join(left: Result<seq<real>, SweepError>, right: Result<seq<real>, SweepError>)
    : Result<seq<real>, SweepError>
  {
    if left.Err? then left else if right.Err? then right else Ok(Joined(left.value, right.value))
  }

  function Least(x: real, y: real): real {
    if x <= y then x else y
  }

  function Greatest(x: real, y: real): real {
    if x >= y then x else y
  }

  /** The unchecked points of a pattern. */
  function Points(pattern: Pattern, start: real, stop: real, step: real, custom: seq<real>)
    : Result<seq<real>, SweepError>
  {
    match pattern
    case CustomList =>
      if custom == [] then Err(EmptyList) else if |custom| > MAX_POINTS then Err(TooManyPoints) else Ok(custom)
    case Linear => ForwardPoints(start, stop, step)
    case RoundTrip => Join(ForwardPoints(start, stop, step), ForwardPoints(stop, start, step))
    case ZeroCentered =>
      if Least(start, stop) > 0.0 || Greatest(start, stop) < 0.0 then Err(ZeroOutside)
      else
        Join(Join(ForwardPoints(0.0, stop, step), ForwardPoints(stop, start, step)),
             ForwardPoints(start, 0.0, step))
  }

  /** The base points of a plan: the pattern's points, within the cap. */
  function Route(pattern: Pattern, start: real, stop: real, step: real, custom: seq<real>)
    : Result<seq<real>, SweepError>
  {
    var points := Points(pattern, start, stop, step, custom);
    if points.Ok? && (points.value == [] || |points.value| > MAX_POINTS) then Err(TooManyPoints) else points
  }

  // ---- What a route is ----

  /** One monotone pass in equal intervals, the last one possibly shorter. */
  ghost predicate Segment(p: seq<real>, start: real, stop: real, gap: real) {
    && gap > 0.0
    && |p| == Ceil(Size(stop - start) / gap) + 1 >= 1
    && p[0] == start && p[|p| - 1] == stop
    && (forall i :: 0 <= i < |p| - 2 ==> p[i + 1] - p[i] == if start <= stop then gap else -gap)
    && (|p| >= 2 && start <= stop ==> 0.0 < stop - p[|p| - 2] <= gap)
    && (|p| >= 2 && start > stop ==> 0.0 < p[|p| - 2] - stop <= gap)
  }

  /** A chain of moves of at most `gap` from one level to another, inside an interval, never standing still. */
  ghost predicate Tour(p: seq<real>, from: real, to: real, low: real, high: real, gap: real) {
    && |p| >= 1 && p[0] == from && p[|p| - 1] == to
    && (forall i :: 0 <= i < |p| ==> low <= p[i] <= high)
    && (forall i :: 0 <= i < |p| - 1 ==> 0.0 < Size(p[i + 1] - p[i]) <= gap)
  }

  /** The gap before the endpoint: what is left after the equal intervals. */
  lemma LastGap(d: real, s: real)
    requires d > 0.0 && s > 0.0
    ensures Ceil(d / s) >= 1
    ensures 0.0 < d - (Ceil(d / s) - 1) as real * s <= s
  {
    CeilOfQuotient(d, s);
    var q := d / s;
    var n := Ceil(q);
    assert q * s == d;
    assert 0.0 < q - (n - 1) as real <= 1.0;
    var e := q - (n - 1) as real;
    assert e * s == d - (n - 1) as real * s;
    assert 0.0 < e * s <= s;
  }

  lemma EqualGap(start: real, stop: real, step: real, i: nat)
    requires step != 0.0 && i < Intervals(start, stop, step) - 1
    ensures PointAt(start, stop, step, i + 1) - PointAt(start, stop, step, i) == step
  {
    assert (i + 1) as real * step == i as real * step + step;
  }

  lemma FinalGap(start: real, stop: real, step: real)
    requires Toward(start, stop, step) && start != stop
    ensures Intervals(start, stop, step) >= 1
    ensures var last := PointAt(start, stop, step, Intervals(start, stop, step) - 1);
            0.0 < Size(stop - last) <= Size(step) && (step > 0.0 <==> last < stop)
  {
    var n := Intervals(start, stop, step);
    LastGap(Size(stop - start), Size(step));
    var x := (n - 1) as real;
    assert x * -step == -(x * step);
  }

  lemma ClosedFormIsSegment(p: seq<real>, start: real, stop: real, step: real)
    requires Toward(start, stop, step)
    requires step > 0.0 <==> start <= stop
    requires |p| == Intervals(start, stop, step) + 1
    requires forall i :: 0 <= i < |p| ==> p[i] == PointAt(start, stop, step, i)
    ensures Segment(p, start, stop, Size(step))
  {
    CeilOfQuotient(Size(stop - start), Size(step));
    forall i | 0 <= i < |p| - 2 ensures p[i + 1] - p[i] == step {
      EqualGap(start, stop, step, i);
    }
    if start != stop {
      FinalGap(start, stop, step);
    }
  }

  /** A forward pass is a segment, and fails exactly when it would exceed the cap. */
  lemma ForwardIsSegment(start: real, stop: real, step: real)
    requires step != 0.0
    ensures var r := ForwardPoints(start, stop, step);
            (r.Ok? <==> Ceil(Size(stop - start) / Size(step)) < MAX_POINTS) &&
            (r.Ok? ==> Segment(r.value, start, stop, Size(step))) &&
            (r.Err? ==> r.error == TooManyPoints)
  {
    var signed := if stop >= start then Size(step) else -Size(step);
    var r := ForwardPoints(start, stop, step);
    WalkShape(start, stop, signed, MAX_POINTS);
    if r.Ok? {
      ClosedFormIsSegment(r.value, start, stop, signed);
    }
  }

  lemma SegmentRises(p: seq<real>, start: real, stop: real, gap: real, i: nat)
    requires Segment(p, start, stop, gap) && i < |p|
    ensures start <= stop ==> start <= p[i] <= stop
    ensures start >= stop ==> stop <= p[i] <= start
  {
    if start <= stop {
      Rises(p, 0, i);
      Rises(p, i, |p| - 1);
    } else {
      Falls(p, 0, i);
      Falls(p, i, |p| - 1);
    }
  }

  lemma {:induction false} Rises(p: seq<real>, i: nat, j: nat)
    requires i <= j < |p| && forall k :: i <= k < j ==> p[k + 1] > p[k]
    ensures p[i] <= p[j] && (i < j ==> p[i] < p[j])
    decreases j - i
  {
    if i < j {
      Rises(p, i + 1, j);
    }
  }

  lemma {:induction false} Falls(p: seq<real>, i: nat, j: nat)
    requires i <= j < |p| && forall k :: i <= k < j ==> p[k + 1] < p[k]
    ensures p[i] >= p[j] && (i < j ==> p[i] > p[j])
    decreases j - i
  {
    if i < j {
      Falls(p, i + 1, j);
    }
  }

  /** A segment never turns: any two of its points are in the order of its endpoints. */
  lemma SegmentIsMonotone(p: seq<real>, start: real, stop: real, gap: real)
    requires Segment(p, start, stop, gap)
    ensures start <= stop ==> forall i, j :: 0 <= i < j < |p| ==> p[i] < p[j]
    ensures start >= stop ==> forall i, j :: 0 <= i < j < |p| ==> p[i] > p[j]
  {
    if start < stop {
      forall i, j | 0 <= i < j < |p| ensures p[i] < p[j] {
        Rises(p, i, j);
      }
    } else if start > stop {
      forall i, j | 0 <= i < j < |p| ensures p[i] > p[j] {
        Falls(p, i, j);
      }
    } else {
      CeilOfQuotient(0.0, gap);
    }
  }

  lemma SegmentIsTour(p: seq<real>, start: real, stop: real, low: real, high: real, gap: real)
    requires Segment(p, start, stop, gap)
    requires low <= start <= high && low <= stop <= high
    ensures Tour(p, start, stop, low, high, gap)
  {
    forall i | 0 <= i < |p| ensures low <= p[i] <= high {
      SegmentRises(p, start, stop, gap, i);
    }
    forall i | 0 <= i < |p| - 1 ensures 0.0 < Size(p[i + 1] - p[i]) <= gap {
      if i == |p| - 2 {
        assert p[i + 1] == stop;
      }
    }
  }

  /** Tours join into tours whose length is the sum less the joint. */
  lemma TourJoins(p: seq<real>, q: seq<real>, from: real, joint: real, to: real, low: real, high: real, gap: real)
    requires Tour(p, from, joint, low, high, gap) && Tour(q, joint, to, low, high, gap)
    ensures Tour(Joined(p, q), from, to, low, high, gap)
    ensures |Joined(p, q)| == |p| + |q| - 1
  {
    var r := Joined(p, q);
    forall i | |p| - 1 <= i < |r| ensures r[i] == q[i - |p| + 1] {
    }
    forall i | 0 <= i < |r| - 1 ensures 0.0 < Size(r[i + 1] - r[i]) <= gap {
      if i >= |p| - 1 {
        assert r[i + 1] == q[i - |p| + 2];
      }
    }
  }

  lemma JoinedVisits(p: seq<real>, q: seq<real>)
    requires |p| > 0 && |q| > 0 && p[|p| - 1] == q[0]
    ensures forall x :: x in Joined(p, q) <==> x in p || x in q
  {
    assert q == [q[0]] + q[1..];
    assert p[|p| - 1] in p;
  }

  // ---- Every route ----

  function RouteLength(pattern: Pattern, start: real, stop: real, step: real): int
    requires step != 0.0 && pattern != CustomList
  {
    match pattern
    case Linear => Intervals(start, stop, step) + 1
    case RoundTrip => Intervals(start, stop, step) + Intervals(stop, start, step) + 1
    case ZeroCentered => Intervals(0.0, stop, step) + Intervals(stop, start, step) + Intervals(start, 0.0, step) + 1
  }

  /** A pass, as a tour of any interval holding its endpoints. */
  lemma Pass(start: real, stop: real, step: real, low: real, high: real)
    requires step != 0.0 && low <= start <= high && low <= stop <= high
    ensures Intervals(start, stop, step) >= 0
    ensures var r := ForwardPoints(start, stop, step);
            (r.Ok? <==> Intervals(start, stop, step) < MAX_POINTS) &&
            (r.Ok? ==> Tour(r.value, start, stop, low, high, Size(step)) &&
                       |r.value| == Intervals(start, stop, step) + 1) &&
            (r.Err? ==> r.error == TooManyPoints)
  {
    ForwardIsSegment(start, stop, step);
    CeilOfQuotient(Size(stop - start), Size(step));
    var r := ForwardPoints(start, stop, step);
    if r.Ok? {
      SegmentIsTour(r.value, start, stop, low, high, Size(step));
    }
  }

  lemma LinearIsATour(start: real, stop: real, step: real, low: real, high: real)
    requires step != 0.0 && low <= start <= high && low <= stop <= high
    ensures var r := ForwardPoints(start, stop, step);
            (r.Ok? <==> Intervals(start, stop, step) < MAX_POINTS) &&
            (r.Ok? ==> Tour(r.value, start, stop, low, high, Size(step)) && start in r.value && stop in r.value &&
                       |r.value| == Intervals(start, stop, step) + 1) &&
            (r.Err? ==> r.error == TooManyPoints)
  {
    Pass(start, stop, step, low, high);
    var r := ForwardPoints(start, stop, step);
    if r.Ok? {
      assert r.value[0] in r.value && r.value[|r.value| - 1] in r.value;
    }
  }

  lemma RoundTripIsATour(start: real, stop: real, step: real, low: real, high: real)
    requires step != 0.0 && low <= start <= high && low <= stop <= high
    ensures var r := Join(ForwardPoints(start, stop, step), ForwardPoints(stop, start, step));
            (Intervals(start, stop, step) + Intervals(stop, start, step) < MAX_POINTS ==> r.Ok?) &&
            (r.Ok? ==> Tour(r.value, start, start, low, high, Size(step)) && start in r.value && stop in r.value &&
                       |r.value| == Intervals(start, stop, step) + Intervals(stop, start, step) + 1) &&
            (r.Err? ==> r.error == TooManyPoints)
  {
    Pass(start, stop, step, low, high);
    Pass(stop, start, step, low, high);
    var p, q := ForwardPoints(start, stop, step), ForwardPoints(stop, start, step);
    if p.Ok? && q.Ok? {
      TourJoins(p.value, q.value, start, stop, start, low, high, Size(step));
      JoinedVisits(p.value, q.value);
      assert q.value[0] in q.value;
    }
  }

  lemma ZeroCenteredIsATour(start: real, stop: real, step: real, low: real, high: real)
    requires step != 0.0 && low <= start <= high && low <= stop <= high && low <= 0.0 <= high
    ensures var r := Join(Join(ForwardPoints(0.0, stop, step), ForwardPoints(stop, start, step)),
                          ForwardPoints(start, 0.0, step));
            (RouteLength(ZeroCentered, start, stop, step) <= MAX_POINTS ==> r.Ok?) &&
            (r.Ok? ==> Tour(r.value, 0.0, 0.0, low, high, Size(step)) &&
                       0.0 in r.value && start in r.value && stop in r.value &&
                       |r.value| == RouteLength(ZeroCentered, start, stop, step)) &&
            (r.Err? ==> r.error == TooManyPoints)
  {
    Pass(0.0, stop, step, low, high);
    Pass(stop, start, step, low, high);
    Pass(start, 0.0, step, low, high);
    var p, q := ForwardPoints(0.0, stop, step), ForwardPoints(stop, start, step);
    var t := ForwardPoints(start, 0.0, step);
    if p.Ok? && q.Ok? && t.Ok? {
      TourJoins(p.value, q.value, 0.0, stop, start, low, high, Size(step));
      JoinedVisits(p.value, q.value);
      assert q.value[0] in q.value;
      var pq := Joined(p.value, q.value);
      TourJoins(pq, t.value, 0.0, start, 0.0, low, high, Size(step));
      JoinedVisits(pq, t.value);
      assert t.value[0] in t.value;
      assert t.value[|t.value| - 1] in t.value;
    }
  }

  /**
   Every route but a custom list moves by at most one step at a time, never stands still, never
   leaves the interval, visits both endpoints (and zero when centred on it), ends where it should,
   has exactly the predicted length, and exists exactly when that length is within the cap.
   */
  lemma RouteIsATour(pattern: Pattern, start: real, stop: real, step: real, custom: seq<real>)
    requires step != 0.0 && pattern != CustomList
    ensures var r := Route(pattern, start, stop, step, custom);
            var low, high := Least(start, stop), Greatest(start, stop);
            var inside := pattern == ZeroCentered ==> low <= 0.0 <= high;
            (r.Ok? <==> inside && RouteLength(pattern, start, stop, step) <= MAX_POINTS) &&
            (r.Err? ==> r.error == if inside then TooManyPoints else ZeroOutside)
    ensures var r := Route(pattern, start, stop, step, custom);
            var home := if pattern == ZeroCentered then 0.0 else start;
            var last := if pattern == Linear then stop else home;
            r.Ok? ==>
              Tour(r.value, home, last, Least(start, stop), Greatest(start, stop), Size(step)) &&
              start in r.value && stop in r.value && (pattern == ZeroCentered ==> 0.0 in r.value) &&
              |r.value| == RouteLength(pattern, start, stop, step)
  {
    var low, high := Least(start, stop), Greatest(start, stop);
    match pattern {
      case Linear =>
        LinearIsATour(start, stop, step, low, high);
      case RoundTrip =>
        RoundTripIsATour(start, stop, step, low, high);
      case ZeroCentered =>
        if low <= 0.0 <= high {
          ZeroCenteredIsATour(start, stop, step, low, high);
        }
    }
  }

  /** A list is taken as it is, if it has a point and at most a million; without a step there is no other route. */
  lemma DegenerateRoutes(pattern: Pattern, start: real, stop: real, step: real, custom: seq<real>)
    requires pattern == CustomList || step == 0.0
    ensures Route(pattern, start, stop, step, custom) ==
            if pattern == CustomList then
              if custom == [] then Err(EmptyList) else if |custom| > 1_000_000 then Err(TooManyPoints) else Ok(custom)
            else if pattern == ZeroCentered && (Least(start, stop) > 0.0 || Greatest(start, stop) < 0.0)
            then Err(ZeroOutside) else Err(ZeroStep)
  {
  }

  /** A range is refused without a step, against its step, or beyond a million points, and for no other reason. */
  lemma RangeErrors(start: real, stop: real, step: real)
    ensures var r := Range(start, stop, step);
      && (r == Err(ZeroStep) <==> step == 0.0)
      && (r == Err(WrongWay) <==> (step > 0.0 && start > stop) || (step < 0.0 && start < stop))
      && (r == Err(TooManyPoints) <==> Toward(start, stop, step) && Intervals(start, stop, step) >= 1_000_000)
  {
    if Toward(start, stop, step) {
      WalkShape(start, stop, step, MAX_POINTS);
    }
  }

  // ---- Building a route in place ----

  method AppendJoined(points: seq<real>, segment: seq<real>) returns (joined: seq<real>)
    ensures joined == Joined(points, segment)
    ensures points == [] ==> joined == segment
  {
    var skip := 0;
    if |points| > 0 && |segment| > 0 && segment[0] == points[|points| - 1] {
      skip := 1;
    }
    joined := points + segment[skip..];
  }

  method Forward(start: real, stop: real, step: real) returns (r: Result<seq<real>, SweepError>)
    ensures r == ForwardPoints(start, stop, step)
  {
    var signed := if stop >= start then Size(step) else -Size(step);
    r := DecimalRange(start, stop, signed);
  }

  method BuildRoute(pattern: Pattern, start: real, stop: real, step: real, custom: seq<real>)
    returns (r: Result<seq<real>, SweepError>)
    ensures r == Route(pattern, start, stop, step, custom)
  {
    var points: seq<real> := [];
    match pattern {
      case CustomList =>
        if custom == [] {
          return Err(EmptyList);
        }
        if |custom| > MAX_POINTS {
          return Err(TooManyPoints);
        }
        points := custom;
      case Linear =>
        var pass := Forward(start, stop, step);
        if pass.Err? {
          return pass;
        }
        points := pass.value;
      case RoundTrip =>
        var pass := Forward(start, stop, step);
        if pass.Err? {
          return pass;
        }
        points := pass.value;
        pass := Forward(stop, start, step);
        if pass.Err? {
          return pass;
        }
        points := AppendJoined(points, pass.value);
      case ZeroCentered =>
        if Least(start, stop) > 0.0 || Greatest(start, stop) < 0.0 {
          return Err(ZeroOutside);
        }
        var pass := Forward(0.0, stop, step);
        if pass.Err? {
          return pass;
        }
        points := AppendJoined(points, pass.value);
        pass := Forward(stop, start, step);
        if pass.Err? {
          return pass;
        }
        points := AppendJoined(points, pass.value);
        pass := Forward(start, 0.0, step);
        if pass.Err? {
          return pass;
        }
        points := AppendJoined(points, pass.value);
    }
    if |points| == 0 || |points| > MAX_POINTS {
      return Err(TooManyPoints);
    }
    return Ok(points);
  }

  // ---- Directions ----

  datatype Direction = Forward | Backward

  /** The move a point's direction is judged by: the one into it, or out of it for the first point. */
  function Move(points: seq<real>, i: nat): real
    requires i < |points|
  {
    if i > 0 then points[i] - points[i - 1]
    else if |points| > 1 then points[1] - points[0]
    else 0.0
  }

  /** The direction of the last move that was a move at all; forward before any. */
  function Heading(points: seq<real>, i: nat): Direction
    requires i < |points|
  {
    if Move(points, i) > 0.0 then Direction.Forward
    else if Move(points, i) < 0.0 then Backward
    else if i == 0 then Direction.Forward
    else Heading(points, i - 1)
  }

  /**
   What the directions of a list of points must be: forward on a rise, backward on a fall, unchanged where the
   points rest; the first follows the first move, and is forward if there is none.
   */
  ghost predicate Directed(points: seq<real>, d: seq<Direction>) {
    && |d| == |points|
    && (forall i | 0 < i < |d| ::
          && (points[i] > points[i - 1] ==> d[i] == Direction.Forward)
          && (points[i] < points[i - 1] ==> d[i] == Backward)
          && (points[i] == points[i - 1] ==> d[i] == d[i - 1]))
    && (|d| > 0 ==> d[0] == if |points| > 1 && points[1] < points[0] then Backward else Direction.Forward)
  }

  function Headings(points: seq<real>): (d: seq<Direction>)
    ensures |d| == |points|
  {
    seq(|points|, i requires 0 <= i < |points| => Heading(points, i))
  }

  lemma HeadingsAreDirected(points: seq<real>)
    ensures Directed(points, Headings(points))
  {
  }

  method Directions(points: seq<real>) returns (d: seq<Direction>)
    requires |points| > 0
    ensures Directed(points, d)
    ensures |d| == |points| && forall i :: 0 <= i < |d| ==> d[i] == Heading(points, i)
  {
    HeadingsAreDirected(points);
    var previous := points[0];
    var direction := Direction.Forward;
    d := [];
    for index := 0 to |points|
      invariant |d| == index
      invariant index > 0 ==> previous == points[index - 1] && direction == Heading(points, index - 1)
      invariant index == 0 ==> previous == points[0] && direction == Direction.Forward
      invariant forall i :: 0 <= i < index ==> d[i] == Heading(points, i)
    {
      var target := points[index];
      var delta := if index == 0 && |points| > 1 then points[1] - target else target - previous;
      if delta > 0.0 {
        direction := Direction.Forward;
      }
      if delta < 0.0 {
        direction := Backward;
      }
      previous := target;
      d := d + [direction];
    }
    assert d == Headings(points);
  }

  /** A single pass is reported forward throughout when it goes up, and backward throughout when it goes down. */
  lemma LinearDirections(start: real, stop: real, step: real, i: nat)
    requires step != 0.0 && ForwardPoints(start, stop, step).Ok? && i < |ForwardPoints(start, stop, step).value|
    ensures Heading(ForwardPoints(start, stop, step).value, i) ==
            if start <= stop then Direction.Forward else Backward
  {
    var p := ForwardPoints(start, stop, step).value;
    ForwardIsSegment(start, stop, step);
    SegmentIsMonotone(p, start, stop, Size(step));
    assert |p| == 1 ==> start == stop;
  }

  /** A round trip turns once: one direction up to and including its far end, the other on the way back. */
  lemma RoundTripDirections(start: real, stop: real, step: real, i: nat)
    requires step != 0.0 && start != stop
    requires Join(ForwardPoints(start, stop, step), ForwardPoints(stop, start, step)).Ok?
    requires i < |Join(ForwardPoints(start, stop, step), ForwardPoints(stop, start, step)).value|
    ensures var r := Join(ForwardPoints(start, stop, step), ForwardPoints(stop, start, step)).value;
      var turn := Intervals(start, stop, step);
      && 0 < turn < |r| && r[turn] == stop
      && Heading(r, i) == if (i <= turn) == (start < stop) then Direction.Forward else Backward
  {
    var p, q := ForwardPoints(start, stop, step).value, ForwardPoints(stop, start, step).value;
    var r := Joined(p, q);
    ForwardIsSegment(start, stop, step);
    ForwardIsSegment(stop, start, step);
    SegmentIsMonotone(p, start, stop, Size(step));
    SegmentIsMonotone(q, stop, start, Size(step));
    assert |p| > 1 && |q| > 1;
    var turn := |p| - 1;
    assert turn == Intervals(start, stop, step);
    if 0 < i <= turn {
      assert r[i] == p[i] && r[i - 1] == p[i - 1];
    } else if i > turn {
      assert r[i] == q[i - turn] && r[i - 1] == q[i - turn - 1];
    } else {
      assert r[0] == p[0] && r[1] == p[1];
    }
  }

  /** A zero-centred tour goes out to the stop, over to the start and back: the three legs keep their directions. */
  lemma ZeroCenteredDirections(start: real, stop: real, step: real, i: nat)
    requires step != 0.0 && start < 0.0 < stop
    requires Join(Join(ForwardPoints(0.0, stop, step), ForwardPoints(stop, start, step)),
                  ForwardPoints(start, 0.0, step)).Ok?
    requires i < |Join(Join(ForwardPoints(0.0, stop, step), ForwardPoints(stop, start, step)),
                       ForwardPoints(start, 0.0, step)).value|
    ensures var r := Join(Join(ForwardPoints(0.0, stop, step), ForwardPoints(stop, start, step)),
                          ForwardPoints(start, 0.0, step)).value;
      var out := Intervals(0.0, stop, step);
      var back := out + Intervals(stop, start, step);
      && 0 < out < back < |r| && r[out] == stop && r[back] == start
      && Heading(r, i) == if out < i <= back then Backward else Direction.Forward
  {
    var p, q := ForwardPoints(0.0, stop, step).value, ForwardPoints(stop, start, step).value;
    var t := ForwardPoints(start, 0.0, step).value;
    ForwardIsSegment(0.0, stop, step);
    ForwardIsSegment(stop, start, step);
    ForwardIsSegment(start, 0.0, step);
    SegmentIsMonotone(p, 0.0, stop, Size(step));
    SegmentIsMonotone(q, stop, start, Size(step));
    SegmentIsMonotone(t, start, 0.0, Size(step));
    assert |p| > 1 && |q| > 1 && |t| > 1;
    ThreeLegs(p, q, t, i);
  }

  lemma ThreeLegs(p: seq<real>, q: seq<real>, t: seq<real>, i: nat)
    requires |p| > 1 && |q| > 1 && |t| > 1 && p[|p| - 1] == q[0] && q[|q| - 1] == t[0]
    requires forall i, j | 0 <= i < j < |p| :: p[i] < p[j]
    requires forall i, j | 0 <= i < j < |q| :: q[i] > q[j]
    requires forall i, j | 0 <= i < j < |t| :: t[i] < t[j]
    requires i < |Joined(Joined(p, q), t)|
    ensures var r := Joined(Joined(p, q), t);
      var out := |p| - 1;
      var back := out + |q| - 1;
      && back < |r| && r[out] == q[0] && r[back] == t[0]
      && Heading(r, i) == if out < i <= back then Backward else Direction.Forward
  {
    var pq := Joined(p, q);
    var r := Joined(pq, t);
    var out := |p| - 1;
    var back := out + |q| - 1;
    assert pq[out] == q[0] && pq[back] == q[|q| - 1] && |pq| == back + 1;
    if 0 < i <= out {
      assert r[i] == p[i] && r[i - 1] == p[i - 1];
    } else if out < i <= back {
      assert r[i] == q[i - out] && r[i - 1] == q[i - out - 1];
    } else if i > back {
      assert r[i] == t[i - back] && r[i - 1] == t[i - back - 1];
    } else {
      assert r[0] == p[0] && r[1] == p[1];
    }
  }
}
