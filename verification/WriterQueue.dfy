/**
 What becomes of ordinary commands: they reach the wire once, in the order of their acceptance, and only a
 safety request or the death of the writer makes one of them disappear.
 */
module WriterQueue {
  import opened Wrappers
  import opened Writer
  import opened WriterIntents

  function Number(c: Normal): nat {
    c.number
  }

  /** The ordinary commands on the wire, oldest first. */
  function Written(wire: seq<Line>): seq<Normal> {
    if wire == [] then []
    else
      var last := wire[|wire| - 1];
      Written(wire[..|wire| - 1]) + (if last.NormalLine? then [last.command] else [])
  }

  /** The command the writer has taken from the queue and not yet written. */
  function Hand(place: Place): seq<Normal> {
    match place
    case Rechecking(command) => [command]
    case Writing(command) => [command]
    case _ => []
  }

  /** Accepted and not yet on the wire: in the writer's hand, deferred, queued. */
  function Pending(p: Pipe): seq<Normal> {
    Hand(p.place) + (if p.deferred.Some? then [p.deferred.value] else []) + p.queue
  }

  /** Every ordinary command that is not lost: written or pending. */
  function Kept(p: Pipe): seq<Normal> {
    Written(p.wire) + Pending(p)
  }

  ghost predicate Ascending(cs: seq<Normal>) {
    forall i, j | 0 <= i < j < |cs| :: Number(cs[i]) < Number(cs[j])
  }

  /** The commands kept are, in ascending order, entries of the list of accepted ones. */
  ghost predicate InLine(p: Pipe, accepted: seq<Normal>) {
    && |accepted| == p.accepted
    && Ascending(Kept(p))
    && (forall c | c in Kept(p) :: Number(c) < |accepted| && accepted[Number(c)] == c)
    && Deferring(p)
  }

  lemma WriteExtends(wire: seq<Line>, line: Line)
    ensures Written(wire + [line]) == Written(wire) + if line.NormalLine? then [line.command] else []
  {
    assert (wire + [line])[..|wire|] == wire;
  }

  // ---- Submission ----

  /** The command a submission stands for, numbered in the order of acceptance. */
  function Submitted(s: Submission, number: nat): seq<Normal> {
    match s
    case Intent(_) => []
    case SwitchOn => [On(number)]
    case Ordinary => [Plain(number)]
  }

  /**
   A safety intent is refused only by a dead writer, and otherwise sets its bit beside the queue. A command goes to
   the end of the queue unless the writer is dead or 16 commands wait, and a switch-on command also not while any
   safety request is pending.
   */
  lemma SubmissionsAreQueued(p: Pipe, s: Submission)
    ensures var (t, refusal) := Submit(p, s);
      && (refusal.None? <==>
            if s.Intent? then !p.place.Dead?
            else !p.place.Dead? && |p.queue| < 16 && (s.SwitchOn? ==> p.bits == {}))
      && (refusal.Some? ==>
            refusal.value ==
            if s.SwitchOn? && p.bits != {} then SafetyPending else if p.place.Dead? then Disconnected else Full)
      && t.bits == (if s.Intent? && refusal.None? then p.bits + {s.level} else p.bits)
      && t.queue == p.queue + (if refusal.None? then Submitted(s, p.accepted) else [])
      && t.accepted == p.accepted + (if refusal.None? then |Submitted(s, p.accepted)| else 0)
      && t.place == p.place && t.deferred == p.deferred && t.wire == p.wire
  {
  }

  // ---- Order ----

  /** What a step accepts. */
  function Accepts(p: Pipe, step: Step): seq<Normal> {
    if step.Submitted? && Submit(p, step.s).1.None? then Submitted(step.s, p.accepted) else []
  }

  /** `later` lacks at most one of the commands of `earlier`. */
  ghost predicate Drops(earlier: seq<Normal>, later: seq<Normal>) {
    later == earlier || exists k :: 0 <= k < |earlier| && later == earlier[..k] + earlier[k + 1..]
  }

  /** A deferred command waits only for the next turn, which discards it. */
  ghost predicate Deferring(p: Pipe) {
    p.deferred.Some? ==> p.place.Top? && p.bits != {}
  }

  lemma DiscardingDrops(p: Pipe, writes: bool, beat: bool)
    requires p.place.Top? || p.place.Draining?
    requires Drained(p) && Deferring(p)
    ensures Drops(Kept(p), Kept(WriterStep(p, writes, beat)))
    ensures p.bits == {} ==> Kept(WriterStep(p, writes, beat)) == Kept(p)
  {
    hide Written;
    var t := WriterStep(p, writes, beat);
    var w := Written(p.wire);
    if p.deferred.Some? {
      assert Kept(p) == w + [p.deferred.value] + p.queue && Kept(t) == w + p.queue;
      assert Kept(t) == Kept(p)[..|w|] + Kept(p)[|w| + 1..];
    } else if p.place.Draining? && p.place.left > 0 && p.queue != [] {
      assert Kept(p) == w + p.queue && Kept(t) == w + p.queue[1..];
      assert Kept(t) == Kept(p)[..|w|] + Kept(p)[|w| + 1..];
    }
  }

  lemma MovingKeeps(p: Pipe, writes: bool, beat: bool)
    requires p.place.Selecting? || p.place.Clearing? || p.place.Polling? || p.place.Rechecking?
    requires p.deferred.None?
    ensures Kept(WriterStep(p, writes, beat)) == Kept(p)
  {
    hide Written;
    if p.place.Polling? && p.queue != [] {
      assert [p.queue[0]] + p.queue[1..] == p.queue;
    }
    assert Pending(WriterStep(p, writes, beat)) == Pending(p);
  }

  lemma OtherLinesKeep(p: Pipe, writes: bool, beat: bool)
    requires p.place.WritingSafety? || p.place.Beating?
    ensures Kept(WriterStep(p, writes, beat)) == Kept(p)
  {
    WriteExtends(p.wire, if p.place.Beating? then Heartbeat else SafetyLine(p.place.level));
  }

  lemma WritingKeepsOrDrops(p: Pipe, command: Normal, writes: bool, beat: bool)
    requires p.place == Writing(command) && p.deferred.None?
    ensures var t := WriterStep(p, writes, beat);
      if writes then Kept(t) == Kept(p) else Drops(Kept(p), Kept(t))
  {
    var t := WriterStep(p, writes, beat);
    var w := Written(p.wire);
    WriteExtends(p.wire, NormalLine(command));
    assert Kept(p) == w + [command] + p.queue;
    if writes {
      assert Kept(t) == w + [command] + p.queue;
    } else {
      assert Kept(t) == Kept(p)[..|w|] + Kept(p)[|w| + 1..];
    }
  }

  lemma DeferringKept(p: Pipe, writes: bool, beat: bool)
    requires Deferring(p) && !p.place.Dead?
    ensures Deferring(WriterStep(p, writes, beat)) && WriterStep(p, writes, beat).accepted == p.accepted
  {
  }

  /** The writer keeps what there is or drops one command, and drops none without a safety request or its own death. */
  lemma WriterKeepsOrDrops(p: Pipe, writes: bool, beat: bool)
    requires Drained(p) && Deferring(p) && !p.place.Dead?
    ensures var t := WriterStep(p, writes, beat);
      Drops(Kept(p), Kept(t)) && (p.bits == {} && !t.place.Dead? ==> Kept(t) == Kept(p))
  {
    hide Kept, Drained;
    match p.place {
      case Top => DiscardingDrops(p, writes, beat);
      case Draining(_) => DiscardingDrops(p, writes, beat);
      case Writing(command) => WritingKeepsOrDrops(p, command, writes, beat);
      case WritingSafety(_) => OtherLinesKeep(p, writes, beat);
      case Beating => OtherLinesKeep(p, writes, beat);
      case _ => MovingKeeps(p, writes, beat);
    }
  }

  lemma DroppingKeepsLine(earlier: seq<Normal>, later: seq<Normal>)
    requires Drops(earlier, later) && Ascending(earlier)
    ensures Ascending(later) && forall c | c in later :: c in earlier
  {
  }

  lemma WriterKeepsLine(p: Pipe, writes: bool, beat: bool, accepted: seq<Normal>)
    requires Drained(p) && InLine(p, accepted) && !p.place.Dead?
    ensures InLine(WriterStep(p, writes, beat), accepted)
  {
    hide Drained, Kept, WriterStep;
    DeferringKept(p, writes, beat);
    WriterKeepsOrDrops(p, writes, beat);
    DroppingKeepsLine(Kept(p), Kept(WriterStep(p, writes, beat)));
  }

  lemma SubmissionKeepsLine(p: Pipe, s: Submission, accepted: seq<Normal>)
    requires InLine(p, accepted) && p.senders
    ensures InLine(Submit(p, s).0, accepted + Accepts(p, Step.Submitted(s)))
  {
    var t := Submit(p, s).0;
    SubmissionsAreQueued(p, s);
    assert Kept(t) == Kept(p) + Accepts(p, Step.Submitted(s));
  }

  lemma StepKeepsLine(p: Pipe, step: Step, accepted: seq<Normal>)
    requires Drained(p) && InLine(p, accepted) && Enabled(p, step)
    ensures InLine(Next(p, step), accepted + Accepts(p, step))
  {
    hide Drained, WriterStep, Submit;
    assert accepted + [] == accepted;
    match step
    case Submitted(s) => SubmissionKeepsLine(p, s, accepted);
    case SendersGone => assert Kept(Next(p, step)) == Kept(p);
    case Proceed(writes, beat) => WriterKeepsLine(p, writes, beat, accepted);
  }

  lemma StartIsInLine()
    ensures Inv(START) && InLine(START, [])
  {
  }

  /** The ordinary commands accepted along a run, in order. */
  ghost function AcceptedBy(p: Pipe, steps: seq<Step>): seq<Normal>
    requires Runnable(p, steps)
    decreases |steps|
  {
    if steps == [] then [] else Accepts(p, steps[0]) + AcceptedBy(Next(p, steps[0]), steps[1..])
  }

  lemma {:induction false} RunKeepsLine(p: Pipe, steps: seq<Step>, accepted: seq<Normal>)
    requires Inv(p) && InLine(p, accepted) && Runnable(p, steps)
    ensures InLine(Run(p, steps), accepted + AcceptedBy(p, steps))
    decreases |steps|
  {
    hide Next, InLine, Accepts;
    if steps == [] {
      assert accepted + [] == accepted;
    } else {
      StepKeepsLine(p, steps[0], accepted);
      NextKeeps(p, steps[0]);
      RunKeepsLine(Next(p, steps[0]), steps[1..], accepted + Accepts(p, steps[0]));
      assert accepted + AcceptedBy(p, steps)
          == (accepted + Accepts(p, steps[0])) + AcceptedBy(Next(p, steps[0]), steps[1..]);
    }
  }

  /**
   First in, first out. In every run the commands on the wire, followed by those in the writer's hand, deferred
   and queued, are accepted commands in strictly ascending order of acceptance: none is written twice, out of
   turn, or without having been accepted.
   */
  lemma CommandsStayInOrder(steps: seq<Step>)
    requires Runnable(START, steps)
    ensures var p := Run(START, steps);
      var accepted := AcceptedBy(START, steps);
      && |accepted| == p.accepted
      && (forall i, j | 0 <= i < j < |Kept(p)| :: Kept(p)[i].number < Kept(p)[j].number)
      && (forall c | c in Kept(p) :: c.number < |accepted| && accepted[c.number] == c)
  {
    StartIsInLine();
    RunKeepsLine(START, steps, []);
    assert [] + AcceptedBy(START, steps) == AcceptedBy(START, steps);
  }

  // ---- Nothing is lost without a reason ----

  /** A safety request is pending, or the writer is gone. */
  predicate Disturbed(p: Pipe) {
    p.bits != {} || p.place.Dead?
  }

  lemma {:induction false} LostOnlyToSafety(p: Pipe, steps: seq<Step>, accepted: seq<Normal>, c: Normal)
    returns (i: nat)
    requires Inv(p) && InLine(p, accepted) && Runnable(p, steps)
    requires c in Kept(p) && c !in Kept(Run(p, steps))
    ensures i <= |steps| && Runnable(p, steps[..i]) && Disturbed(Run(p, steps[..i]))
    decreases |steps|
  {
    hide Next, InLine;
    assert steps[..0] == [];
    if Disturbed(p) {
      i := 0;
    } else {
      var t := Next(p, steps[0]);
      QuietStepKeeps(p, steps[0], accepted);
      StepKeepsLine(p, steps[0], accepted);
      NextKeeps(p, steps[0]);
      if c in Kept(t) {
        var k := LostOnlyToSafety(t, steps[1..], accepted + Accepts(p, steps[0]), c);
        i := k + 1;
        assert steps[..i][0] == steps[0] && steps[..i][1..] == steps[1..][..k];
      } else {
        i := 1;
        assert steps[..1] == [steps[0]] && steps[..1][1..] == [];
      }
    }
  }

  lemma QuietStepKeeps(p: Pipe, step: Step, accepted: seq<Normal>)
    requires Drained(p) && InLine(p, accepted) && Enabled(p, step) && p.bits == {}
    ensures Next(p, step).place.Dead? || Kept(Next(p, step)) == Kept(p) + Accepts(p, step)
  {
    match step
    case Submitted(s) => SubmissionsAreQueued(p, s);
    case SendersGone => assert Kept(Next(p, step)) == Kept(p) + [];
    case Proceed(writes, beat) =>
      WriterKeepsOrDrops(p, writes, beat);
      assert Kept(p) + [] == Kept(p);
  }

  /**
   An accepted command is on the wire, in the writer's hand, deferred or queued at every later point of every run,
   unless since its acceptance a safety or shutdown request was pending or the writer died.
   */
  lemma AcceptedCommandsAreKept(before: seq<Step>, s: Submission, after: seq<Step>)
    requires Runnable(START, before) && Enabled(Run(START, before), Step.Submitted(s)) && !s.Intent?
    requires Submit(Run(START, before), s).1.None?
    requires Runnable(Next(Run(START, before), Step.Submitted(s)), after)
    ensures var p := Run(START, before);
      var t := Next(p, Step.Submitted(s));
      || (if s.SwitchOn? then On(p.accepted) else Plain(p.accepted)) in Kept(Run(t, after))
      || exists i :: 0 <= i <= |after| && Runnable(t, after[..i]) && Disturbed(Run(t, after[..i]))
  {
    hide Next, InLine, Inv, Kept, Accepts, Submit;
    var p := Run(START, before);
    var t := Next(p, Step.Submitted(s));
    StartIsInLine();
    RunKeepsLine(START, before, []);
    RunKeeps(START, before);
    StepKeepsLine(p, Step.Submitted(s), [] + AcceptedBy(START, before));
    NextKeeps(p, Step.Submitted(s));
    var c := if s.SwitchOn? then On(p.accepted) else Plain(p.accepted);
    NewCommandIsKept(p, s, c);
    if c !in Kept(Run(t, after)) {
      var i := LostOnlyToSafety(t, after, ([] + AcceptedBy(START, before)) + Accepts(p, Step.Submitted(s)), c);
    }
  }

  lemma NewCommandIsKept(p: Pipe, s: Submission, c: Normal)
    requires !s.Intent? && Submit(p, s).1.None? && Enabled(p, Step.Submitted(s))
    requires c == if s.SwitchOn? then On(p.accepted) else Plain(p.accepted)
    ensures c in Kept(Next(p, Step.Submitted(s)))
  {
    var t := Next(p, Step.Submitted(s));
    SubmissionsAreQueued(p, s);
    assert t.queue[|p.queue|] == c;
    assert c in t.queue;
  }

  // ---- A writer left alone writes what waits ----

  function Lines(commands: seq<Normal>): seq<Line> {
    seq(|commands|, i requires 0 <= i < |commands| => NormalLine(commands[i]))
  }

  /** How many steps an undisturbed writer takes until nothing waits. */
  function StepsToGo(p: Pipe): nat {
    if Pending(p) == [] then 0
    else match p.place
      case Polling => if p.queue == [] then 0 else 4 * |p.queue| - 1
      case Rechecking(_) => 4 * |p.queue| + 2
      case Writing(_) => 4 * |p.queue| + 1
      case Beating => 4 * |p.queue| + 1
      case _ => 4 * |p.queue|
  }

  /**
   From any state without a safety request, a writer whose lines are taken puts exactly the waiting commands on
   the wire, in order, in at most four steps each and with no other line than a heartbeat already begun.
   */
  lemma {:induction false} WaitingCommandsAreWritten(p: Pipe, beats: seq<bool>)
    requires Drained(p) && Deferring(p) && p.bits == {} && !p.place.Dead?
    requires |beats| == StepsToGo(p)
    ensures var t := Drive(p, beats);
      && t.wire == p.wire + Ahead(p) + Lines(Pending(p))
      && Pending(t) == [] && t.bits == {} && !t.place.Dead?
    decreases |beats|
  {
    hide Drained, WriterStep, Pending, Written, Ahead, Lines;
    if beats == [] {
      NothingWaits(p);
    } else {
      var t := WriterStep(p, true, beats[0]);
      SomethingWaits(p);
      StepGoesOn(p, beats[0]);
      DeferringKept(p, true, beats[0]);
      WriterKeepsDrained(p, true, beats[0]);
      WaitingCommandsAreWritten(t, beats[1..]);
      assert Drive(p, beats) == Drive(t, beats[1..]);
      assert t.wire + Ahead(t) + Lines(Pending(t)) == p.wire + Ahead(p) + Lines(Pending(p));
    }
  }

  /** A heartbeat that is already due goes ahead of what waits. */
  function Ahead(p: Pipe): seq<Line> {
    if p.place.Beating? && p.queue != [] then [Heartbeat] else []
  }

  lemma NothingWaits(p: Pipe)
    requires StepsToGo(p) == 0 && Deferring(p) && p.bits == {} && !p.place.Dead?
    ensures Pending(p) == [] && Ahead(p) == [] && Lines(Pending(p)) == []
  {
  }

  lemma SomethingWaits(p: Pipe)
    requires StepsToGo(p) > 0
    ensures Pending(p) != []
  {
  }

  /** One step of a writer whose lines are taken neither loses, repeats nor reorders what waits. */
  ghost predicate GoesOn(p: Pipe, t: Pipe) {
    && t.bits == {} && !t.place.Dead? && StepsToGo(t) == StepsToGo(p) - 1
    && t.wire + Ahead(t) + Lines(Pending(t)) == p.wire + Ahead(p) + Lines(Pending(p))
  }

  lemma TakingGoesOn(p: Pipe, beat: bool)
    requires p.place.Polling? && p.deferred.None? && p.bits == {} && p.queue != []
    ensures GoesOn(p, WriterStep(p, true, beat))
  {
    assert [p.queue[0]] + p.queue[1..] == p.queue;
    assert Pending(WriterStep(p, true, beat)) == Pending(p);
  }

  lemma RestGoesOn(p: Pipe, beat: bool)
    requires p.place.Top? || p.place.Rechecking? || p.place.Beating?
    requires p.deferred.None? && p.bits == {} && Pending(p) != []
    ensures GoesOn(p, WriterStep(p, true, beat))
  {
    assert Pending(WriterStep(p, true, beat)) == Pending(p);
  }

  lemma StepGoesOn(p: Pipe, beat: bool)
    requires Drained(p) && Deferring(p) && p.bits == {} && !p.place.Dead? && Pending(p) != []
    ensures GoesOn(p, WriterStep(p, true, beat))
  {
    assert p.place.Top? || p.place.Polling? || p.place.Rechecking? || p.place.Writing? || p.place.Beating?;
    hide Drained, WriterStep, GoesOn;
    if p.place.Writing? {
      WritingGoesOn(p, beat);
    } else if p.place.Polling? {
      TakingGoesOn(p, beat);
    } else {
      RestGoesOn(p, beat);
    }
  }

  lemma WritingGoesOn(p: Pipe, beat: bool)
    requires p.place.Writing? && p.deferred.None? && p.bits == {}
    ensures GoesOn(p, WriterStep(p, true, beat))
  {
    assert Pending(p) == [p.place.command] + p.queue;
    assert Lines([p.place.command] + p.queue) == [NormalLine(p.place.command)] + Lines(p.queue);
    assert Pending(WriterStep(p, true, beat)) == p.queue;
  }

  /**
   In every run, at any instant without a safety request, a writer then left alone puts exactly the waiting
   commands on the wire, in order, in at most four steps each and one more, with no other line between than a
   heartbeat that was already due.
   */
  lemma QueuedCommandsAreWritten(steps: seq<Step>, beats: seq<bool>)
    requires Runnable(START, steps) && !Disturbed(Run(START, steps))
    requires |beats| == StepsToGo(Run(START, steps))
    ensures var p := Run(START, steps);
      && |beats| <= 4 * |Pending(p)| + 1
      && Drive(p, beats).wire ==
         p.wire + (if p.place.Beating? && p.queue != [] then [Heartbeat] else []) + Lines(Pending(p))
  {
    hide InLine, Inv, Kept, Pending, Drive, Lines, StepsToGo, Runnable, Run;
    var p := Run(START, steps);
    StartIsInLine();
    RunKeepsLine(START, steps, []);
    RunKeeps(START, steps);
    InvDrained(p);
    LineDefers(p, [] + AcceptedBy(START, steps));
    StepsBound(p);
    WaitingCommandsAreWritten(p, beats);
  }

  lemma LineDefers(p: Pipe, accepted: seq<Normal>)
    requires InLine(p, accepted)
    ensures Deferring(p)
  {
  }

  lemma StepsBound(p: Pipe)
    requires Drained(p) && Deferring(p) && !Disturbed(p)
    ensures StepsToGo(p) <= 4 * |Pending(p)| + 1
  {
  }

  /** With nothing to write a writer sends the heartbeat that is due. */
  lemma IdleWriterBeats(p: Pipe)
    requires p.place.Top? && p.bits == {} && p.queue == [] && p.senders
    ensures Drive(p, [true, true, true]).wire == p.wire + [Heartbeat]
  {
    var a := WriterStep(p, true, true);
    var b := WriterStep(a, true, true);
    assert [true, true, true][1..] == [true, true] && [true, true][1..] == [true] && [true][1..] == [];
    assert Drive(p, [true, true, true]) == Drive(a, [true, true]) == Drive(b, [true]);
    assert Drive(b, [true]) == Drive(WriterStep(b, true, true), []);
  }

  // ---- When the client is gone ----

  /** A request for a shutdown, as if made now. */
  function Departure(p: Pipe): Mark {
    Mark(Shutdown, |p.wire|, p.accepted, false, true)
  }

  lemma ShutdownIsWritten(p: Pipe, beats: seq<bool>)
    requires Inv(p) && !p.place.Dead? && Shutdown in p.bits && |beats| >= 175
    ensures SafetyLine(Shutdown) in Drive(p, beats).wire
  {
    if p.place == Clearing(Shutdown) {
      assert p.wire[|p.wire| - 1] == SafetyLine(Shutdown);
      WireOnlyGrows(p, beats);
      assert Drive(p, beats).wire[|p.wire| - 1] == SafetyLine(Shutdown);
    } else {
      var m := Departure(p);
      assert Honoured(p, m);
      BudgetBound(p);
      DriveSettles(p, beats, m);
    }
  }

  lemma {:induction false} WireOnlyGrows(p: Pipe, beats: seq<bool>)
    ensures p.wire <= Drive(p, beats).wire
    decreases |beats|
  {
    if beats != [] && !p.place.Dead? {
      WireOnlyGrows(WriterStep(p, true, beats[0]), beats[1..]);
    }
  }

  /** How many steps the writer has until it notices that its client is gone. */
  function StepsToNotice(p: Pipe): nat {
    if p.bits != {} then Budget(p) + 70
    else match p.place
      case Top => 4 * |p.queue| + 2
      case Polling => 4 * |p.queue| + 1
      case Rechecking(_) => 4 * |p.queue| + 4
      case Writing(_) => 4 * |p.queue| + 3
      case Beating => 4 * |p.queue| + 3
      case _ => 0
  }

  lemma NoticeComesNearer(p: Pipe, beat: bool)
    requires Drained(p) && !p.place.Dead? && !p.senders && Shutdown !in p.bits
    ensures var t := WriterStep(p, true, beat);
      && !t.place.Dead? && !t.senders && StepsToNotice(p) > 0
      && (Shutdown in t.bits || StepsToNotice(t) < StepsToNotice(p))
  {
    var t := WriterStep(p, true, beat);
    if p.place.Clearing? {
      assert t.bits == p.bits - {p.place.level};
      assert |t.bits| == |p.bits| - 1;
    }
  }

  lemma NoticeBound(p: Pipe)
    requires Drained(p)
    ensures StepsToNotice(p) <= 244
  {
    BudgetBound(p);
  }

  lemma InvDrained(p: Pipe)
    requires Inv(p)
    ensures Drained(p)
  {
  }

  lemma {:induction false} DepartureIsNoticed(p: Pipe, beats: seq<bool>)
    requires Inv(p) && !p.place.Dead? && !p.senders && |beats| >= StepsToNotice(p) + 175
    ensures SafetyLine(Shutdown) in Drive(p, beats).wire
    decreases |beats|
  {
    hide Inv, WriterStep, StepsToNotice;
    if Shutdown in p.bits {
      ShutdownIsWritten(p, beats);
    } else {
      InvDrained(p);
      NoticeComesNearer(p, beats[0]);
      var t := WriterStep(p, true, beats[0]);
      assert Inv(t) by {
        NextKeeps(p, Proceed(true, beats[0]));
      }
      if Shutdown in t.bits {
        ShutdownIsWritten(t, beats[1..]);
      } else {
        DepartureIsNoticed(t, beats[1..]);
      }
    }
  }

  /**
   The engine is never left running by a client that has gone: from every reachable state the writer, its lines
   taken, tells it to shut down within 419 steps of the client's departure.
   */
  lemma DepartureShutsDown(steps: seq<Step>, beats: seq<bool>)
    requires Runnable(START, steps) && !Run(START, steps).senders && !Run(START, steps).place.Dead?
    requires |beats| >= 419
    ensures SafetyLine(Shutdown) in Drive(Run(START, steps), beats).wire
  {
    RunKeeps(START, steps);
    NoticeBound(Run(START, steps));
    DepartureIsNoticed(Run(START, steps), beats);
  }
}
