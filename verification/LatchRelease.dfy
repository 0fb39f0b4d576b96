/** What cancels, until when, and in which order commands are carried out. */
module LatchRelease {
  import opened Wrappers
  import opened Latch

  // ---- What cancels ----

  /** From the moment the engine closes, every later point of every run is cancelled. */
  lemma ClosingCancelsForGood(before: seq<Step>, after: seq<Step>, stale: bool)
    requires Runnable(START, before) && After(START, before).closed && Runnable(After(START, before), after)
    ensures Cancelled(After(After(START, before), after), stale)
  {
    ClosedForGood(After(START, before), after);
  }

  /** Losing whoever takes the engine's results closes it, and so cancels every later point. */
  lemma LostConsumerCancels(before: seq<Step>, after: seq<Step>, stale: bool)
    requires Runnable(START, before)
    requires Runnable(Next(After(START, before), ConsumerLost), after)
    ensures Cancelled(After(Next(After(START, before), ConsumerLost), after), stale)
  {
    ClosedForGood(Next(After(START, before), ConsumerLost), after);
  }

  /** A client that has fallen silent cancels, whatever the flags say. */
  lemma SilenceCancels(c: Control)
    ensures Cancelled(c, true)
  {
  }

  /** A latched request of any kind cancels by itself. */
  lemma RequestsCancel(c: Control, kind: Kind, stale: bool)
    requires kind in c.pending
    ensures Cancelled(c, stale)
  {
  }

  /**
   Why the flag and not only the bitmask: a Stop whose bit is cleared by the acknowledgement of the Stop before it
   is still seen through the flag, which its reader sets later.
   */
  lemma StopFlagAloneCancels() returns (steps: seq<Step>)
    ensures Runnable(START, steps)
    ensures var c := After(START, steps);
      && Outstanding(c, StopAll) == 1 && c.pending == {} && !c.closed
      && Cancelled(c, false)
  {
    var stop := Safety(StopAll);
    var script := [Receive(stop), Read(true), Read(true), Own(false), Own(true), Receive(stop), Own(false), Own(false),
                   Own(false), Own(false), Read(true)];
    var states := [
      START,
      START.(pending := {StopAll}, reader := Latched(StopAll)),
      START.(pending := {StopAll}, stop := true, reader := Sending(stop)),
      START.(pending := {StopAll}, stop := true, queue := [stop]),
      START.(pending := {StopAll}, stop := true, queue := [stop], owner := Receiving),
      START.(pending := {StopAll}, stop := true, owner := Executing(stop)),
      START.(pending := {StopAll}, stop := true, owner := Executing(stop), reader := Latched(StopAll)),
      START.(stop := true, owner := Acknowledged, reader := Latched(StopAll)),
      START.(stop := true, owner := ZeroSeen, reader := Latched(StopAll)),
      START.(owner := StopCleared, reader := Latched(StopAll)),
      START.(owner := Reporting, reader := Latched(StopAll)),
      START.(stop := true, owner := Reporting, reader := Sending(stop))];
    steps := [];
    for i := 0 to 11
      invariant Runnable(START, steps) && After(START, steps) == states[i]
    {
      assert Enabled(states[i], script[i]) && Next(states[i], script[i]) == states[i + 1];
      Extend(START, steps, script[i]);
      steps := steps + [script[i]];
    }
  }

  // ---- Until when ----

  /** Some safety request has been received and not yet acknowledged. */
  ghost predicate Busy(c: Control) {
    exists kind :: Outstanding(c, kind) > 0
  }

  /** A set flag has a reason: the engine is closed, a request is outstanding, or its acknowledgement is under way. */
  ghost predicate Justified(c: Control) {
    && (forall kind | kind in c.pending :: c.closed || Outstanding(c, kind) > 0)
    && (c.stop ==> c.closed || Busy(c) || c.owner.Acknowledged? || c.owner.ZeroSeen?)
    && (c.off ==> c.closed || Busy(c) || c.owner.Acknowledged? || c.owner.ZeroSeen? || c.owner.StopCleared?)
    && (c.reader.Stopping? ==> c.closed)
  }

  lemma SendKeepsFlags(c: Control, command: Command, fits: bool)
    ensures var t := Send(c, command, fits);
      t.stop == c.stop && t.off == c.off && t.pending == c.pending && t.owner == c.owner && !t.reader.Stopping?
  {
  }

  /** The reader sets a flag only for the request in its hand, or on a closed engine. */
  lemma ReaderJustifies(c: Control, fits: bool)
    requires Justified(c) && Enabled(c, Read(fits))
    ensures var t := ReaderStep(c, fits);
      && (t.stop ==> c.stop || t.closed || InHand(t.reader).Safety?)
      && (t.off ==> c.off || InHand(t.reader).Safety?)
      && (t.reader.Stopping? ==> t.closed)
      && t.pending == c.pending && t.owner == c.owner
  {
    hide Send, Outstanding, Busy;
    if c.reader.Sending? {
      SendKeepsFlags(c, c.reader.command, fits);
    }
  }

  lemma HandIsBusy(c: Control)
    requires InHand(c.reader).Safety?
    ensures Busy(c)
  {
    assert Outstanding(c, InHand(c.reader).kind) > 0;
  }

  /** Requests stay outstanding through every step but an acknowledgement, unless the engine closes. */
  lemma BusyStays(c: Control, step: Step)
    requires Enabled(c, step) && Busy(c) && !(step.Own? && c.owner.Executing? && c.owner.command.Safety?)
    ensures Busy(Next(c, step)) || Next(c, step).closed
  {
    hide Next, Outstanding;
    var kind :| Outstanding(c, kind) > 0;
    OutstandingMoves(c, step, kind);
    BitMoves(c, step, kind);
  }

  lemma PendingStaysJustified(c: Control, step: Step)
    requires Enabled(c, step) && forall kind | kind in c.pending :: c.closed || Outstanding(c, kind) > 0
    ensures var t := Next(c, step); forall kind | kind in t.pending :: t.closed || Outstanding(t, kind) > 0
  {
    hide Next, Outstanding;
    var t := Next(c, step);
    forall kind | kind in t.pending ensures t.closed || Outstanding(t, kind) > 0 {
      OutstandingMoves(c, step, kind);
      BitMoves(c, step, kind);
    }
  }

  lemma PendingIsBusy(c: Control)
    requires Justified(c) && c.pending != {}
    ensures c.closed || Busy(c)
  {
    var kind :| kind in c.pending;
  }

  lemma OwnerStaysJustified(c: Control, more: bool)
    requires Justified(c) && Enabled(c, Own(more))
    ensures Justified(OwnerStep(c, more))
  {
    hide Outstanding, Busy;
    PendingStaysJustified(c, Own(more));
    if c.pending != {} {
      PendingIsBusy(c);
    }
    if Busy(c) && !(c.owner.Executing? && c.owner.command.Safety?) {
      BusyStays(c, Own(more));
    }
    assert OwnerStep(c, more) == Next(c, Own(more));
  }

  lemma ReaderStaysJustified(c: Control, fits: bool)
    requires Justified(c) && Enabled(c, Read(fits))
    ensures Justified(ReaderStep(c, fits))
  {
    hide Outstanding, Busy, ReaderStep, InHand;
    var t := ReaderStep(c, fits);
    PendingStaysJustified(c, Read(fits));
    ReaderJustifies(c, fits);
    ReaderNeverReopens(c, fits);
    if Busy(c) {
      BusyStays(c, Read(fits));
    }
    if InHand(t.reader).Safety? {
      HandIsBusy(t);
    }
    assert t == Next(c, Read(fits));
  }

  lemma JustifiedKept(c: Control, step: Step)
    requires Justified(c) && Enabled(c, step)
    ensures Justified(Next(c, step))
  {
    match step
    case Read(fits) => ReaderStaysJustified(c, fits);
    case Own(more) => OwnerStaysJustified(c, more);
    case _ =>
      hide Outstanding, Busy;
      PendingStaysJustified(c, step);
      if Busy(c) {
        BusyStays(c, step);
      }
  }

  lemma {:induction false} JustifiedAlong(c: Control, steps: seq<Step>)
    requires Justified(c) && Runnable(c, steps)
    ensures Justified(After(c, steps))
    decreases |steps|
  {
    hide Justified, Next;
    if steps != [] {
      JustifiedKept(c, steps[0]);
      JustifiedAlong(Next(c, steps[0]), steps[1..]);
    }
  }

  /**
   Cancellation ends. At every interleaving point at which no request is outstanding, none is just being
   acknowledged and the engine is open, no flag is left over: an engine whose client is alive is not cancelled.
   */
  lemma NothingIsCancelledForNothing(steps: seq<Step>)
    requires Runnable(START, steps)
    ensures var c := After(START, steps);
      !c.closed && (forall kind :: Outstanding(c, kind) == 0)
      && !c.owner.Acknowledged? && !c.owner.ZeroSeen? && !c.owner.StopCleared? ==>
        !Cancelled(c, false) && !c.off
  {
    JustifiedAlong(START, steps);
    var c := After(START, steps);
    if !c.closed && forall kind :: Outstanding(c, kind) == 0 {
      assert !Busy(c);
      if c.pending != {} {
        PendingIsBusy(c);
      }
    }
  }

  // ---- What the owner does next ----

  /** The owner left alone; `mores` says when its queue yields a command in time. */
  function OwnerDrives(c: Control, mores: seq<bool>): Control
    decreases |mores|
  {
    if mores == [] || c.owner.Left? then c
    else OwnerDrives(OwnerStep(c, mores[0] && c.queue != []), mores[1..])
  }

  /** How many steps the owner still takes before it looks at `closed`, at most. */
  function StepsToLook(o: Owner): nat {
    match o
    case Left => 0
    case Waiting => 1
    case Reporting => 2
    case Finishing(_) => 3
    case StopCleared => 3
    case ZeroSeen => 4
    case Acknowledged => 5
    case Executing(_) => 6
    case Receiving => 7
  }

  /** Once the engine is closed its owner finishes at most one more command and leaves, within seven steps. */
  lemma {:induction false} ClosedEngineIsLeft(c: Control, mores: seq<bool>)
    requires c.closed && |mores| >= StepsToLook(c.owner)
    ensures OwnerDrives(c, mores).owner.Left?
    decreases |mores|
  {
    if !c.owner.Left? {
      ClosedEngineIsLeft(OwnerStep(c, mores[0] && c.queue != []), mores[1..]);
    }
  }

  /** While the engine is open its owner never leaves. */
  lemma OpenEngineIsKept(c: Control, step: Step)
    requires Enabled(c, step) && !c.closed && !c.owner.Left?
    ensures !Next(c, step).owner.Left?
  {
    match step
    case Own(more) => hide ReaderStep;
    case _ => hide OwnerStep;
  }

  /** With every report the refusals of before are settled: each operation may be refused once more. */
  lemma ReportsSettleRefusals(c: Control, more: bool, op: Operation, fits: bool)
    requires c.owner.Reporting?
    ensures var t := OwnerStep(c, more);
      && t.owner.Waiting? && t.rejected == {}
      && ReaderStep(t.(reader := Refusing(op)), fits).reader.Reading?
  {
  }

  // ---- In which order ----

  /** The command this step puts into the queue. */
  function Enqueues(c: Control, step: Step): seq<Command> {
    if step == Read(true) && c.reader.Sending? then [c.reader.command] else []
  }

  /** The command the owner sets out to carry out by this step. */
  function Takes(c: Control, step: Step): seq<Command>
    requires Enabled(c, step)
  {
    var o := Next(c, step).owner;
    if step.Own? && !c.owner.Executing? && o.Executing? then [o.command] else []
  }

  ghost function Enqueued(c: Control, steps: seq<Step>): seq<Command>
    requires Runnable(c, steps)
    decreases |steps|
  {
    if steps == [] then [] else Enqueues(c, steps[0]) + Enqueued(Next(c, steps[0]), steps[1..])
  }

  ghost function Taken(c: Control, steps: seq<Step>): seq<Command>
    requires Runnable(c, steps)
    decreases |steps|
  {
    if steps == [] then [] else Takes(c, steps[0]) + Taken(Next(c, steps[0]), steps[1..])
  }

  lemma SendingQueues(c: Control, fits: bool)
    requires c.reader.Sending?
    ensures ReaderStep(c, fits).queue == if fits then c.queue + [c.reader.command] else c.queue
  {
  }

  lemma QueueMoves(c: Control, step: Step)
    requires Enabled(c, step)
    ensures c.queue + Enqueues(c, step) == Takes(c, step) + Next(c, step).queue
  {
    match step
    case Own(more) =>
      hide OwnerStep;
      OwnerMoves(c, more);
      if c.owner.Receiving? && more {
        assert c.queue == [c.queue[0]] + c.queue[1..];
      }
    case Read(fits) =>
      hide ReaderStep;
      if c.reader.Sending? {
        SendingQueues(c, fits);
      } else {
        ReaderKeepsQueue(c, fits);
      }
    case _ =>
  }

  lemma {:induction false} FirstInFirstOut(c: Control, steps: seq<Step>)
    requires Runnable(c, steps)
    ensures c.queue + Enqueued(c, steps) == Taken(c, steps) + After(c, steps).queue
    decreases |steps|
  {
    hide Next, Takes, Enqueues;
    if steps != [] {
      var t := Next(c, steps[0]);
      QueueMoves(c, steps[0]);
      FirstInFirstOut(t, steps[1..]);
      var e, k := Enqueued(t, steps[1..]), Taken(t, steps[1..]);
      assert c.queue + (Enqueues(c, steps[0]) + e) == (c.queue + Enqueues(c, steps[0])) + e;
      assert Takes(c, steps[0]) + (t.queue + e) == (Takes(c, steps[0]) + t.queue) + e;
      assert Takes(c, steps[0]) + (k + After(c, steps).queue) == (Takes(c, steps[0]) + k) + After(c, steps).queue;
    }
  }

  /** In every run the owner carries out exactly the queued commands, in the order they were queued, none twice. */
  lemma CommandsAreTakenInOrder(steps: seq<Step>)
    requires Runnable(START, steps)
    ensures Enqueued(START, steps) == Taken(START, steps) + After(START, steps).queue
  {
    FirstInFirstOut(START, steps);
    assert [] + Enqueued(START, steps) == Enqueued(START, steps);
  }
}
