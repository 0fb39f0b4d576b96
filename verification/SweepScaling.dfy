/**
 Sweep planning commutes with scaling: multiplying start, stop, step and custom
 points by a nonzero factor multiplies every planned point by it, of either sign.
 */
module SweepScaling {
  import opened Wrappers
  import opened Lattice
  import opened Sweep

  function By(c: real, x: real): real {
    c * x
  }

  function Scale(p: seq<real>, c: real): (q: seq<real>)
    ensures |q| == |p| && forall i :: 0 <= i < |p| ==> q[i] == By(c, p[i])
  {
    seq(|p|, i requires 0 <= i < |p| => By(c, p[i]))
  }

  lemma ScaleAppends(p: seq<real>, q: seq<real>, c: real)
    ensures Scale(p + q, c) == Scale(p, c) + Scale(q, c)
  {
    var r := Scale(p, c) + Scale(q, c);
    forall i | 0 <= i < |p| + |q| ensures Scale(p + q, c)[i] == r[i] {
      assert (p + q)[i] == if i < |p| then p[i] else q[i - |p|];
    }
  }

  lemma ScaleDrops(q: seq<real>, c: real)
    requires |q| > 0
    ensures Scale(q[1..], c) == Scale(q, c)[1..]
  {
  }

  function Scaled(r: Result<seq<real>, SweepError>, c: real): Result<seq<real>, SweepError> {
    if r.Err? then r else Ok(Scale(r.value, c))
  }

  // ---- Products of reals, one law at a time ----

  lemma SizeScales(c: real, x: real)
    ensures Size(c * x) == Size(c) * Size(x)
  {
    assert c >= 0.0 && x >= 0.0 ==> c * x >= 0.0;
    assert c < 0.0 && x < 0.0 ==> c * x >= 0.0;
    assert c < 0.0 && x >= 0.0 ==> c * x <= 0.0;
    assert c >= 0.0 && x < 0.0 ==> c * x <= 0.0;
  }

  lemma OrderScales(c: real, x: real, y: real)
    requires c > 0.0
    ensures x <= y <==> c * x <= c * y
    ensures x == y <==> c * x == c * y
  {
    assert c * (y - x) == c * y - c * x;
    assert y - x > 0.0 ==> c * (y - x) > 0.0;
    assert y - x < 0.0 ==> c * (y - x) < 0.0;
  }

  lemma OrderFlips(c: real, x: real, y: real)
    requires c < 0.0
    ensures x <= y <==> c * y <= c * x
    ensures x == y <==> c * x == c * y
  {
    OrderScales(-c, x, y);
    assert -c * x == -(c * x) && -c * y == -(c * y);
  }

  lemma EqualityScales(c: real, x: real, y: real)
    requires c != 0.0
    ensures x == y <==> c * x == c * y
  {
    if c > 0.0 {
      OrderScales(c, x, y);
    } else {
      OrderFlips(c, x, y);
    }
  }

  lemma Distance(c: real, x: real, y: real)
    ensures Size(c * y - c * x) == Size(c) * Size(y - x)
  {
    assert c * y - c * x == c * (y - x);
    SizeScales(c, y - x);
  }

  // ---- One segment ----

  lemma AdvanceScales(current: real, stop: real, step: real, c: real)
    requires c != 0.0
    ensures Advance(By(c, current), By(c, stop), By(c, step)) == c * Advance(current, stop, step)
  {
    Distance(c, current, stop);
    SizeScales(c, step);
    Compare(Size(c), Size(stop - current), Size(step), Size(By(c, stop) - By(c, current)), Size(By(c, step)));
    assert By(c, current) + By(c, step) == By(c, current + step);
  }

  lemma Compare(k: real, x: real, y: real, x': real, y': real)
    requires k > 0.0 && x' == k * x && y' == k * y
    ensures x' <= y' <==> x <= y
  {
    OrderScales(k, x, y);
  }

  lemma {:induction false} WalkScales(current: real, stop: real, step: real, room: nat, c: real)
    requires c != 0.0
    ensures Walk(By(c, current), By(c, stop), By(c, step), room) == Scaled(Walk(current, stop, step, room), c)
    decreases room
  {
    EqualityScales(c, current, stop);
    assert By(c, current) == By(c, stop) <==> current == stop;
    if room > 0 {
      if current == stop {
        assert Scale([current], c) == [By(c, current)];
      } else {
        AdvanceScales(current, stop, step, c);
        var next := Advance(current, stop, step);
        WalkScales(next, stop, step, room - 1, c);
        assert Walk(By(c, current), By(c, stop), By(c, step), room) ==
               Prepend([By(c, current)], Scaled(Walk(next, stop, step, room - 1), c));
        var rest := Walk(next, stop, step, room - 1);
        if rest.Ok? {
          ScaleAppends([current], rest.value, c);
          assert Scale([current], c) == [By(c, current)];
        }
      }
    }
  }

  /** A walk that starts at its end does not depend on the step. */
  lemma WalkStill(x: real, step: real, step': real, room: nat)
    ensures Walk(x, x, step, room) == Walk(x, x, step', room)
  {
  }

  lemma ForwardScales(start: real, stop: real, step: real, c: real)
    requires c != 0.0
    ensures ForwardPoints(By(c, start), By(c, stop), By(c, step)) == Scaled(ForwardPoints(start, stop, step), c)
  {
    EqualityScales(c, step, 0.0);
    SizeScales(c, step);
    var signed := if stop >= start then Size(step) else -Size(step);
    var signed' := if By(c, stop) >= By(c, start) then Size(By(c, step)) else -Size(By(c, step));
    if step != 0.0 {
      WalkScales(start, stop, signed, MAX_POINTS, c);
      EqualityScales(c, start, stop);
      if start == stop {
        WalkStill(By(c, start), By(c, signed), signed', MAX_POINTS);
      } else {
        SignedScales(start, stop, step, c);
      }
    }
  }

  lemma SignedScales(start: real, stop: real, step: real, c: real)
    requires c != 0.0 && start != stop
    ensures var signed := if stop >= start then Size(step) else -Size(step);
            By(c, signed) == if By(c, stop) >= By(c, start) then Size(By(c, step)) else -Size(By(c, step))
  {
    SizeScales(c, step);
    if c > 0.0 {
      OrderScales(c, start, stop);
    } else {
      OrderFlips(c, start, stop);
    }
    assert c * -Size(step) == -(c * Size(step));
  }

  // ---- Routes ----

  lemma JoinScales(left: Result<seq<real>, SweepError>, right: Result<seq<real>, SweepError>, c: real)
    requires c != 0.0
    ensures Join(Scaled(left, c), Scaled(right, c)) == Scaled(Join(left, right), c)
  {
    if left.Ok? && right.Ok? {
      var p, q := left.value, right.value;
      if |p| > 0 && |q| > 0 {
        EqualityScales(c, p[|p| - 1], q[0]);
        ScaleDrops(q, c);
        ScaleAppends(p, q[1..], c);
      }
      ScaleAppends(p, q, c);
    }
  }

  lemma StraddlesScales(start: real, stop: real, c: real)
    requires c != 0.0
    ensures Least(start, stop) > 0.0 || Greatest(start, stop) < 0.0 <==>
            Least(By(c, start), By(c, stop)) > 0.0 || Greatest(By(c, start), By(c, stop)) < 0.0
  {
    SignScales(c, start);
    SignScales(c, stop);
  }

  lemma SignScales(c: real, x: real)
    requires c != 0.0
    ensures c > 0.0 ==> (By(c, x) > 0.0 <==> x > 0.0) && (By(c, x) < 0.0 <==> x < 0.0)
    ensures c < 0.0 ==> (By(c, x) > 0.0 <==> x < 0.0) && (By(c, x) < 0.0 <==> x > 0.0)
  {
    var zero := By(c, 0.0);
    assert zero == 0.0;
    if c > 0.0 {
      OrderScales(c, x, 0.0);
      OrderScales(c, 0.0, x);
    } else {
      OrderFlips(c, x, 0.0);
      OrderFlips(c, 0.0, x);
    }
  }

  lemma PointsScale(pattern: Pattern, start: real, stop: real, step: real, custom: seq<real>, c: real)
    requires c != 0.0
    ensures Points(pattern, By(c, start), By(c, stop), By(c, step), Scale(custom, c)) ==
            Scaled(Points(pattern, start, stop, step, custom), c)
  {
    match pattern {
      case CustomList =>
      case Linear =>
        ForwardScales(start, stop, step, c);
      case RoundTrip =>
        ForwardScales(start, stop, step, c);
        ForwardScales(stop, start, step, c);
        JoinScales(ForwardPoints(start, stop, step), ForwardPoints(stop, start, step), c);
      case ZeroCentered =>
        StraddlesScales(start, stop, c);
        assert c * 0.0 == 0.0;
        ForwardScales(0.0, stop, step, c);
        ForwardScales(stop, start, step, c);
        ForwardScales(start, 0.0, step, c);
        var p, q := ForwardPoints(0.0, stop, step), ForwardPoints(stop, start, step);
        JoinScales(p, q, c);
        JoinScales(Join(p, q), ForwardPoints(start, 0.0, step), c);
    }
  }

  /** Planning commutes with scaling, for all four patterns, errors included. */
  lemma RouteScales(pattern: Pattern, start: real, stop: real, step: real, custom: seq<real>, c: real)
    requires c != 0.0
    ensures Route(pattern, By(c, start), By(c, stop), By(c, step), Scale(custom, c)) ==
            Scaled(Route(pattern, start, stop, step, custom), c)
  {
    PointsScale(pattern, start, stop, step, custom, c);
  }

  // ---- Directions ----

  function Opposite(d: Direction): Direction {
    match d
    case Forward => Backward
    case Backward => Forward
  }

  lemma MoveScales(points: seq<real>, i: nat, c: real)
    requires i < |points|
    ensures Move(Scale(points, c), i) == c * Move(points, i)
  {
  }

  /** A source that follows the total reports the same directions. */
  lemma {:induction false} HeadingFollows(points: seq<real>, i: nat, c: real)
    requires i < |points| && c > 0.0
    ensures Heading(Scale(points, c), i) == Heading(points, i)
  {
    MoveScales(points, i, c);
    assert c * 0.0 == 0.0;
    OrderScales(c, Move(points, i), 0.0);
    OrderScales(c, 0.0, Move(points, i));
    if i > 0 {
      HeadingFollows(points, i - 1, c);
    }
  }

  /** A source that mirrors the total reports opposite directions from the first move on. */
  lemma {:induction false} HeadingMirrors(points: seq<real>, i: nat, c: real)
    requires i < |points| && c < 0.0
    ensures Heading(Scale(points, c), i) ==
            if exists j :: 0 <= j <= i && Move(points, j) != 0.0 then Opposite(Heading(points, i))
            else Direction.Forward
  {
    MoveScales(points, i, c);
    assert c * 0.0 == 0.0;
    OrderFlips(c, Move(points, i), 0.0);
    OrderFlips(c, 0.0, Move(points, i));
    if i > 0 {
      HeadingMirrors(points, i - 1, c);
    }
  }

  // ---- The grid ----

  lemma MultipleSum(x: real, y: real, r: real)
    requires Multiple(x, r) && Multiple(y, r)
    ensures Multiple(x + y, r)
  {
    var k: int :| x == Steps(k, r);
    var l: int :| y == Steps(l, r);
    assert (k + l) as real * r == k as real * r + l as real * r;
    assert x + y == Steps(k + l, r);
  }

  lemma MultipleNegates(x: real, r: real)
    requires Multiple(x, r)
    ensures Multiple(-x, r)
  {
    var k: int :| x == Steps(k, r);
    assert (-k) as real * r == -(k as real * r);
    assert -x == Steps(-k, r);
  }

  ghost predicate AllMultiples(p: seq<real>, r: real) {
    forall x :: x in p ==> Multiple(x, r)
  }

  lemma {:induction false} WalkOnGrid(current: real, stop: real, step: real, room: nat, r: real)
    requires Multiple(current, r) && Multiple(stop, r) && Multiple(step, r)
    ensures var w := Walk(current, stop, step, room); w.Ok? ==> AllMultiples(w.value, r)
    decreases room
  {
    if room > 0 && current != stop {
      MultipleSum(current, step, r);
      WalkOnGrid(Advance(current, stop, step), stop, step, room - 1, r);
    }
  }

  lemma ForwardOnGrid(start: real, stop: real, step: real, r: real)
    requires Multiple(start, r) && Multiple(stop, r) && Multiple(step, r)
    ensures var w := ForwardPoints(start, stop, step); w.Ok? ==> AllMultiples(w.value, r)
  {
    MultipleNegates(step, r);
    WalkOnGrid(start, stop, if stop >= start then Size(step) else -Size(step), MAX_POINTS, r);
  }

  /** A route between multiples of an increment by multiples of it programs only multiples of it. */
  lemma RouteOnGrid(pattern: Pattern, start: real, stop: real, step: real, custom: seq<real>, r: real)
    requires Multiple(start, r) && Multiple(stop, r) && Multiple(step, r) && AllMultiples(custom, r)
    ensures var w := Route(pattern, start, stop, step, custom); w.Ok? ==> AllMultiples(w.value, r)
  {
    assert Multiple(0.0, r) by {
      assert 0.0 == Steps(0, r);
    }
    ForwardOnGrid(start, stop, step, r);
    ForwardOnGrid(stop, start, step, r);
    ForwardOnGrid(0.0, stop, step, r);
    ForwardOnGrid(start, 0.0, step, r);
  }
}
