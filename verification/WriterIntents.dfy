/**
 What becomes of an accepted safety intent: it is written when the writer is left
 alone, and the exact condition under which it is answered promptly.
 */
module WriterIntents {
  import opened Wrappers
  import opened Writer

  // ---- An intent left to the writer is written ----

  function Rank(place: Place): nat {
    match place
    case Dead => 0
    case Clearing(_) => 0
    case WritingSafety(_) => 1
    case Selecting => 2
    case Draining(left) => 3 + left
    case Top => 20
    case Writing(_) => 22
    case Beating => 22
    case Rechecking(_) => 23
    case Polling => 24
  }

  /** How many successful steps the writer can make before every set bit is written. */
  function Budget(p: Pipe): nat {
    |p.bits| * 25 + Rank(p.place)
  }

  lemma BudgetBound(p: Pipe)
    requires Drained(p)
    ensures Budget(p) <= 174
  {
    var all := {Stop, GateOff, SourceOff, Source2Off, OutputOff, Shutdown};
    forall l | l in p.bits ensures l in all {
      match l {
        case Stop =>
        case GateOff =>
        case SourceOff =>
        case Source2Off =>
        case OutputOff =>
        case Shutdown =>
      }
    }
    assert all == p.bits + (all - p.bits);
  }

  lemma RaisingShrinks(bits: set<Level>)
    requires bits != {}
    ensures |RaiseShutdown(bits)| <= |bits|
  {
    var l :| l in bits;
    assert bits == {l} + (bits - {l});
  }

  /** The wire ended: a shutdown was the last line written. */
  predicate Ended(p: Pipe) {
    p.place.Dead? && p.wire != [] && p.wire[|p.wire| - 1] == SafetyLine(Shutdown)
  }

  ghost predicate Settled(p: Pipe, m: Mark) {
    AnsweredBefore(p.wire, m, |p.wire|) || Ended(p)
  }

  /** Each step of a writer whose lines are taken brings an unanswered intent nearer. */
  lemma StepComesNearer(p: Pipe, beat: bool, m: Mark)
    requires Drained(p) && !p.place.Dead? && Waiting(p, m) && m.length <= |p.wire|
    ensures var t := WriterStep(p, true, beat); Settled(t, m) || (!t.place.Dead? && Budget(t) < Budget(p))
  {
    var t := WriterStep(p, true, beat);
    assert p.bits != {};
    if p.place.Clearing? {
      ClearingComesNearer(p, beat);
    } else if p.place.WritingSafety? && Answers(SafetyLine(p.place.level), m.level) {
      assert t.wire[|p.wire|] == SafetyLine(p.place.level);
    } else if p.place.Draining? || p.place.Polling? {
      RaisingShrinks(p.bits);
    }
  }

  lemma ClearingComesNearer(p: Pipe, beat: bool)
    requires Drained(p) && p.place.Clearing?
    ensures var t := WriterStep(p, true, beat); Ended(t) || (!t.place.Dead? && Budget(t) < Budget(p))
  {
    var t := WriterStep(p, true, beat);
    assert t.bits == p.bits - {p.place.level};
    assert |t.bits| == |p.bits| - 1;
  }

  /** The writer left alone, every line taken; `beats` says when a heartbeat is due. */
  function Drive(p: Pipe, beats: seq<bool>): Pipe
    decreases |beats|
  {
    if beats == [] || p.place.Dead? then p else Drive(WriterStep(p, true, beats[0]), beats[1..])
  }

  lemma {:induction false} SettledStays(p: Pipe, beats: seq<bool>, m: Mark)
    requires Settled(p, m)
    ensures Settled(Drive(p, beats), m)
    decreases |beats|
  {
    if beats != [] && !p.place.Dead? {
      var t := WriterStep(p, true, beats[0]);
      assert p.wire <= t.wire;
      var k :| m.length <= k < |p.wire| && Answers(p.wire[k], m.level);
      assert Answers(t.wire[k], m.level);
      SettledStays(t, beats[1..], m);
    }
  }

  lemma StepHonours(p: Pipe, beat: bool, m: Mark)
    requires Inv(p) && Honoured(p, m) && !p.place.Dead?
    ensures Honoured(WriterStep(p, true, beat), m)
  {
    hide Inv, Honoured;
    if p.place.WritingSafety? || p.place.Writing? || p.place.Beating? {
      WritingHonours(p, true, beat, m);
    } else {
      MovingHonours(p, true, beat, m);
    }
  }

  lemma {:induction false} DriveSettles(p: Pipe, beats: seq<bool>, m: Mark)
    requires Inv(p) && !p.place.Dead? && Honoured(p, m) && !m.absorbed
    requires |beats| > Budget(p)
    ensures Settled(Drive(p, beats), m)
    decreases |beats|
  {
    var t := WriterStep(p, true, beats[0]);
    if AnsweredBefore(p.wire, m, |p.wire|) {
      SettledStays(p, beats, m);
    } else {
      StepComesNearer(p, beats[0], m);
      if Settled(t, m) {
        SettledStays(t, beats[1..], m);
      } else {
        NextKeeps(p, Proceed(true, beats[0]));
        StepHonours(p, beats[0], m);
        DriveSettles(t, beats[1..], m);
      }
    }
  }

  /**
   No accepted request is lost. From any reachable state, a writer that is left alone and whose
   lines are taken answers every intent that was not absorbed within 175 steps, unless a shutdown
   ended the wire first.
   */
  lemma AcceptedIntentsAreWritten(steps: seq<Step>, i: nat, beats: seq<bool>)
    requires Runnable(START, steps) && i < |Run(START, steps).intents| && !Run(START, steps).intents[i].absorbed
    requires !Run(START, steps).place.Dead? && |beats| >= 175
    ensures Settled(Drive(Run(START, steps), beats), Run(START, steps).intents[i])
  {
    RunKeeps(START, steps);
    BudgetBound(Run(START, steps));
    assert Honoured(Run(START, steps), Run(START, steps).intents[i]);
    DriveSettles(Run(START, steps), beats, Run(START, steps).intents[i]);
  }

  // ---- When an absorbed intent is not answered ----

  ghost predicate Reaches(p: Pipe, steps: seq<Step>, t: Pipe) {
    Runnable(p, steps) && Run(p, steps) == t
  }

  lemma {:induction false} ReachesOn(p: Pipe, first: seq<Step>, q: Pipe, next: seq<Step>, t: Pipe)
    requires Reaches(p, first, q) && Reaches(q, next, t)
    ensures Reaches(p, first + next, t)
    decreases |first|
  {
    if first == [] {
      assert first + next == next;
    } else {
      assert (first + next)[1..] == first[1..] + next;
      ReachesOn(Next(p, first[0]), first[1..], q, next, t);
    }
  }

  /** One successful step of the writer with a heartbeat due. */
  function Go(p: Pipe): Pipe {
    if p.place.Dead? then p else WriterStep(p, true, true)
  }

  lemma GoReaches(p: Pipe)
    requires !p.place.Dead?
    ensures Reaches(p, [Proceed(true, true)], Go(p))
  {
    assert [Proceed(true, true)][1..] == [];
  }

  lemma GoThenReaches(p: Pipe, next: seq<Step>, t: Pipe)
    requires !p.place.Dead? && Reaches(Go(p), next, t)
    ensures Reaches(p, [Proceed(true, true)] + next, t)
  {
    GoReaches(p);
    ReachesOn(p, [Proceed(true, true)], Go(p), next, t);
  }

  /** Draining ends with the same bits and wire. */
  lemma {:induction false} DrainEnds(p: Pipe) returns (steps: seq<Step>, t: Pipe)
    requires p.place.Draining? && p.senders
    ensures Reaches(p, steps, t)
    ensures t.place.Selecting? && t.senders && t.bits == p.bits && t.wire == p.wire
    decreases p.place.left
  {
    if Go(p).place.Selecting? {
      steps, t := [Proceed(true, true)], Go(p);
      GoReaches(p);
    } else {
      var rest;
      rest, t := DrainEnds(Go(p));
      steps := [Proceed(true, true)] + rest;
      GoThenReaches(p, rest, t);
    }
  }

  /** The writer between turns, still served. */
  predicate Idle(p: Pipe) {
    p.place.Top? && p.senders
  }

  /** Later than `p`, between turns, with nothing for `level` written since. */
  ghost predicate Unanswered(p: Pipe, t: Pipe, level: Level) {
    && Idle(t) && p.wire <= t.wire
    && forall k | |p.wire| <= k < |t.wire| :: !Answers(t.wire[k], level)
  }

  /** One turn writes one of the set bits. */
  lemma OneTurn(p: Pipe) returns (steps: seq<Step>, t: Pipe, level: Level)
    requires Idle(p) && p.bits != {} && Shutdown !in p.bits
    ensures Reaches(p, steps, t) && level in p.bits
    ensures Idle(t) && t.bits == p.bits - {level} && t.wire == p.wire + [SafetyLine(level)]
  {
    var drain, q := DrainEnds(Go(p));
    level := SafetyCommand(q.bits);
    var w := Go(q);
    var c := Go(w);
    t := Go(c);
    GoReaches(c);
    GoThenReaches(w, [Proceed(true, true)], t);
    var tail := [Proceed(true, true)] + [Proceed(true, true)];
    GoThenReaches(q, tail, t);
    ReachesOn(Go(p), drain, q, [Proceed(true, true)] + tail, t);
    steps := [Proceed(true, true)] + (drain + ([Proceed(true, true)] + tail));
    GoThenReaches(p, drain + ([Proceed(true, true)] + tail), t);
  }

  /** All set bits are written, none of them for `level`. */
  lemma {:induction false} AllTurns(p: Pipe, level: Level) returns (steps: seq<Step>, t: Pipe)
    requires Idle(p) && Shutdown !in p.bits && level !in p.bits
    ensures Reaches(p, steps, t) && Unanswered(p, t, level) && t.bits == {}
    decreases |p.bits|
  {
    if p.bits == {} {
      steps, t := [], p;
    } else {
      var one, q, written := OneTurn(p);
      var rest;
      rest, t := AllTurns(q, level);
      steps := one + rest;
      ReachesOn(p, one, q, rest, t);
      forall k | |p.wire| <= k < |t.wire| ensures !Answers(t.wire[k], level) {
        assert q.wire[|p.wire|] == t.wire[|p.wire|];
      }
    }
  }

  /** With nothing requested, the idle writer puts one more ordinary line on the wire. */
  lemma OneMoreLine(p: Pipe) returns (steps: seq<Step>, t: Pipe)
    requires Idle(p) && p.bits == {}
    ensures Reaches(p, steps, t) && Idle(t) && t.bits == {}
    ensures |t.wire| == |p.wire| + 1 && p.wire <= t.wire && !t.wire[|p.wire|].SafetyLine?
  {
    var go := [Proceed(true, true)];
    var a := Go(p);
    var b := Go(a);
    var c := Go(b);
    GoReaches(b);
    GoThenReaches(a, go, c);
    GoThenReaches(p, go + go, c);
    steps, t := go + (go + go), c;
    if c.place.Writing? {
      t := Go(c);
      GoReaches(c);
      ReachesOn(p, steps, c, go, t);
      steps := steps + go;
    }
  }

  /** An absorbed intent can be followed by two ordinary lines with no answer between. */
  lemma AbsorbedIntentIsNotRepeated(p: Pipe, level: Level) returns (steps: seq<Step>)
    requires !p.place.Dead? && Absorbs(p, level) && level != Shutdown && p.senders
    ensures var t := Submit(p, Intent(level)).0;
      Runnable(t, steps) && !Prompted(Run(t, steps).wire, NewMark(p, level))
  {
    var t := Submit(p, Intent(level)).0;
    var c := Go(t);
    var turns, q := AllTurns(c, level);
    var first, r := OneMoreLine(q);
    var second, e := OneMoreLine(r);
    ReachesOn(r, [], r, second, e);
    ReachesOn(q, first, r, second, e);
    ReachesOn(c, turns, q, first + second, e);
    steps := [Proceed(true, true)] + (turns + (first + second));
    GoThenReaches(t, turns + (first + second), e);
    TwoLinesUnprompted(p, q, r, e, level);
  }

  lemma TwoLinesUnprompted(p: Pipe, q: Pipe, r: Pipe, e: Pipe, level: Level)
    requires p.wire <= q.wire && forall k | |p.wire| <= k < |q.wire| :: !Answers(q.wire[k], level)
    requires |r.wire| == |q.wire| + 1 && q.wire <= r.wire && !r.wire[|q.wire|].SafetyLine?
    requires |e.wire| == |r.wire| + 1 && r.wire <= e.wire && !e.wire[|r.wire|].SafetyLine?
    ensures !Prompted(e.wire, NewMark(p, level))
  {
    forall k | |p.wire| <= k < |r.wire| ensures !Answers(e.wire[k], level) {
      assert e.wire[k] == r.wire[k];
      assert k < |q.wire| ==> r.wire[k] == q.wire[k];
    }
    assert !e.wire[|r.wire|].SafetyLine?;
    assert !AnsweredBefore(e.wire, NewMark(p, level), |r.wire|);
  }

  lemma {:induction false} AfterShutdownSilence(p: Pipe, steps: seq<Step>)
    requires Runnable(p, steps) && (p.place == Clearing(Shutdown) || p.place.Dead?)
    ensures Run(p, steps).wire == p.wire
    decreases |steps|
  {
    if steps != [] {
      AfterShutdownSilence(Next(p, steps[0]), steps[1..]);
    }
  }

  /**
   Exactly when an intent is sure to be answered before any ordinary line but the very next,
   whatever happens afterwards: unless its bit is the one about to be cleared and no shutdown is
   pending; a request for the shutdown that ends the wire is always safe.
   */
  lemma PromptExactlyUnlessAbsorbed(before: seq<Step>, level: Level)
    requires Runnable(START, before)
    requires !Run(START, before).place.Dead? && Run(START, before).senders
    ensures var p := Run(START, before);
      var t := Submit(p, Intent(level)).0;
      (forall steps | Runnable(t, steps) :: Prompted(Run(t, steps).wire, NewMark(p, level))) <==>
        (p.place != Clearing(level) || Shutdown in p.bits)
  {
    var p := Run(START, before);
    var t := Submit(p, Intent(level)).0;
    var m := NewMark(p, level);
    RunKeeps(START, before);
    NextKeeps(p, Submitted(Intent(level)));
    assert t.intents[|p.intents|] == m;
    if !Absorbs(p, level) {
      forall steps | Runnable(t, steps) ensures Prompted(Run(t, steps).wire, m) {
        RunKeeps(t, steps);
        assert Run(t, steps).intents[|p.intents|] == m;
        assert Honoured(Run(t, steps), m);
      }
    } else if level == Shutdown {
      forall steps | Runnable(t, steps) ensures Prompted(Run(t, steps).wire, m) {
        AfterShutdownSilence(t, steps);
      }
    } else {
      var steps := AbsorbedIntentIsNotRepeated(p, level);
    }
  }

  /** A run in which a second Stop is absorbed: it is accepted, and two heartbeats follow without another Stop. */
  lemma SecondStopIsAbsorbed() returns (steps: seq<Step>)
    ensures Runnable(START, steps)
    ensures var p := Run(START, steps);
      && |p.intents| >= 2 && p.intents[1].level == Stop && p.intents[1].length == 1
      && |p.wire| >= 1 && p.wire[0] == SafetyLine(Stop)
      && !Prompted(p.wire, p.intents[1])
  {
    var go := [Proceed(true, true)];
    var a := Next(START, Submitted(Intent(Stop)));
    var b := Go(a);
    var c := Go(b);
    var d := Go(c);
    var p := Go(d);
    assert Reaches(START, [Submitted(Intent(Stop))], a) by {
      assert [Submitted(Intent(Stop))][1..] == [];
    }
    GoReaches(d);
    GoThenReaches(c, go, p);
    GoThenReaches(b, go + go, p);
    GoThenReaches(a, go + (go + go), p);
    ReachesOn(START, [Submitted(Intent(Stop))], a, go + (go + (go + go)), p);
    var before := [Submitted(Intent(Stop))] + (go + (go + (go + go)));
    assert p.place == Clearing(Stop) && p.bits == {Stop} && p.wire == [SafetyLine(Stop)];
    var t := Submit(p, Intent(Stop)).0;
    var more := AbsorbedIntentIsNotRepeated(p, Stop);
    assert Reaches(p, [Submitted(Intent(Stop))], t) by {
      assert [Submitted(Intent(Stop))][1..] == [];
    }
    ReachesOn(p, [Submitted(Intent(Stop))], t, more, Run(t, more));
    ReachesOn(START, before, p, [Submitted(Intent(Stop))] + more, Run(t, more));
    steps := before + ([Submitted(Intent(Stop))] + more);
    WireGrows(t, more);
    assert t.intents[1] == NewMark(p, Stop) && t.wire[0] == SafetyLine(Stop);
  }

  lemma {:induction false} WireGrows(p: Pipe, steps: seq<Step>)
    requires Runnable(p, steps)
    ensures p.wire <= Run(p, steps).wire && p.intents <= Run(p, steps).intents
    decreases |steps|
  {
    if steps != [] {
      WireGrows(Next(p, steps[0]), steps[1..]);
    }
  }
}
