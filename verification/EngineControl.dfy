/**
 The engine's flags as an object. Each method is one thread's whole pass over
 them; run without interruption it has the effect of that thread's micro-steps.
 */
module EngineControl {
  import opened Latch

  /** How many micro-steps the owner has before it reports. */
  function OwnerRank(o: Owner): nat {
    match o
    case Executing(_) => 5
    case Acknowledged => 4
    case ZeroSeen => 3
    case StopCleared => 2
    case Finishing(_) => 1
    case _ => 0
  }

  /** The owner's micro-steps from a finished command to its report. */
  function OwnerReports(c: Latch.Control): Latch.Control
    decreases OwnerRank(c.owner)
  {
    if OwnerRank(c.owner) == 0 then c else OwnerReports(OwnerStep(c, false))
  }

  /** How many micro-steps the reader has before it reads again or ends. */
  function ReaderRank(r: Reader): nat {
    match r
    case Idle(_) => 8
    case Clear(_) => 7
    case Latched(_) => 7
    case Offed(_) => 6
    case Sending(_) => 5
    case Unreserved => 4
    case Refusing(_) => 4
    case Ending => 3
    case Stopping => 2
    case Reading => 0
    case Ended => 0
  }

  /** The reader's micro-steps until it reads again or ends. */
  function ReaderFinishes(c: Latch.Control, fits: bool): Latch.Control
    decreases ReaderRank(c.reader)
  {
    if ReaderRank(c.reader) == 0 then c else ReaderFinishes(ReaderStep(c, fits), fits)
  }

  lemma ReportsSafety(c: Latch.Control, kind: Kind)
    requires c.owner == Executing(Safety(kind))
    ensures OwnerReports(c) ==
            if c.pending - {kind} == {} then c.(pending := {}, stop := false, off := false, owner := Reporting)
            else c.(pending := c.pending - {kind}, owner := Reporting)
  {
    var c1 := OwnerStep(c, false);
    var c2 := OwnerStep(c1, false);
    assert OwnerReports(c) == OwnerReports(c1) == OwnerReports(c2);
    if c1.pending == {} {
      var c3 := OwnerStep(c2, false);
      var c4 := OwnerStep(c3, false);
      assert OwnerReports(c2) == OwnerReports(c3) == OwnerReports(c4) == c4;
    }
  }

  lemma ReportsOther(c: Latch.Control, command: Command)
    requires c.owner == Executing(command) && !command.Safety?
    ensures OwnerReports(c) == c.(running := c.running && !command.Output?, owner := Reporting)
  {
    var c1 := OwnerStep(c, false);
    assert OwnerReports(c) == OwnerReports(c1) == OwnerStep(c1, false);
  }

  /** What the reader leaves behind when it breaks out of its loop. */
  function Broken(c: Latch.Control): Latch.Control {
    c.(closed := true, stop := true, reader := Ended)
  }

  lemma BreaksOut(c: Latch.Control, fits: bool)
    requires c.reader == Ending
    ensures ReaderFinishes(c, fits) == Broken(c)
  {
    var c1 := ReaderStep(c, fits);
    assert ReaderFinishes(c, fits) == ReaderFinishes(c1, fits) == ReaderStep(c1, fits);
  }

  lemma FinishesSending(c: Latch.Control, command: Command, fits: bool)
    requires c.reader == Sending(command)
    ensures ReaderFinishes(c, fits) ==
            if fits then c.(queue := c.queue + [command], reader := Reading)
            else if command.Safety? && !command.kind.StopAll? then c.(closed := true, reader := Reading)
            else Broken(c.(running := c.running && !command.Output?))
  {
    var c1 := ReaderStep(c, fits);
    assert ReaderFinishes(c, fits) == ReaderFinishes(c1, fits);
    if c1.reader == Unreserved {
      assert ReaderFinishes(c1, fits) == ReaderFinishes(ReaderStep(c1, fits), fits);
      BreaksOut(ReaderStep(c1, fits), fits);
    } else if c1.reader == Ending {
      BreaksOut(c1, fits);
    }
  }

  lemma FinishesSafety(c: Latch.Control, kind: Kind, fits: bool)
    requires c.reader == Latched(kind)
    ensures ReaderFinishes(c, fits) ==
            ReaderFinishes(c.(off := c.off || !kind.StopAll?, stop := true, reader := Sending(Safety(kind))), fits)
  {
    var c1 := ReaderStep(c, fits);
    assert ReaderFinishes(c, fits) == ReaderFinishes(c1, fits);
    if !kind.StopAll? {
      assert ReaderFinishes(c1, fits) == ReaderFinishes(ReaderStep(c1, fits), fits);
    }
  }

  lemma FinishesOutput(c: Latch.Control, op: Operation, fits: bool)
    requires c.reader == if c.running then Refusing(op) else Idle(op)
    ensures ReaderFinishes(c, fits) ==
            if !c.running && c.pending == {} then
              ReaderFinishes(c.(running := true, reader := Sending(Output(op))), fits)
            else if op in c.rejected then Broken(c)
            else c.(rejected := c.rejected + {op}, reader := Reading)
  {
    var c1 := if c.running then c else ReaderStep(c, fits);
    assert ReaderFinishes(c, fits) == ReaderFinishes(c1, fits);
    var c2 := ReaderStep(c1, fits);
    assert ReaderFinishes(c1, fits) == ReaderFinishes(c2, fits);
    if c2.reader == Ending {
      BreaksOut(c2, fits);
    }
  }

  /** The reader's whole handling of one command, in one step. */
  function Admitted(c: Latch.Control, command: Command, fits: bool): Latch.Control {
    match command
    case Safety(kind) =>
      var d := c.(pending := c.pending + {kind}, off := c.off || !kind.StopAll?, stop := true);
      if fits then d.(queue := d.queue + [command], reader := Reading)
      else if kind.StopAll? then Broken(d)
      else d.(closed := true, reader := Reading)
    case Output(op) =>
      if !c.running && c.pending == {} then
        if fits then c.(running := true, queue := c.queue + [command], reader := Reading) else Broken(c)
      else if op in c.rejected then Broken(c)
      else c.(rejected := c.rejected + {op}, reader := Reading)
    case Other =>
      if fits then c.(queue := c.queue + [command], reader := Reading) else Broken(c)
  }

  lemma AdmissionIsItsSteps(c: Latch.Control, command: Command, fits: bool)
    requires c.reader == Reading
    ensures ReaderFinishes(Arrive(c, command), fits) == Admitted(c, command, fits)
  {
    hide ReaderFinishes, ReaderStep;
    var d := Arrive(c, command);
    match command {
      case Safety(kind) =>
        FinishesSafety(d, kind, fits);
        FinishesSending(d.(off := d.off || !kind.StopAll?, stop := true, reader := Sending(command)), command, fits);
      case Output(op) =>
        FinishesOutput(d, op, fits);
        FinishesSending(d.(running := true, reader := Sending(command)), command, fits);
      case Other =>
        FinishesSending(d, command, fits);
    }
  }

  class Control {
    var stop: bool
    var off: bool
    var pending: set<Kind>
    var running: bool
    var closed: bool
    var rejected: set<Operation>
    var queue: seq<Command>

    ghost function View(reader: Reader, owner: Owner): Latch.Control
      reads this
    {
      Latch.Control(stop, off, pending, running, closed, rejected, queue, reader, owner)
    }

    constructor ()
      ensures View(Reading, Waiting) == START
    {
      stop, off, pending, running, closed, rejected, queue := false, false, {}, false, false, {}, [];
    }

    method Cancelled(stale: bool) returns (cancelled: bool)
      ensures forall r, o :: cancelled == Latch.Cancelled(View(r, o), stale)
    {
      cancelled := stop || pending != {} || closed || stale;
    }

    /** Clear only the completed command's own request; the hints fall when no request is left. */
    method AcknowledgeSafety(kind: Kind, ghost reader: Reader)
      modifies this
      ensures View(reader, Reporting) == OwnerReports(old(View(reader, Executing(Safety(kind)))))
    {
      ReportsSafety(View(reader, Executing(Safety(kind))), kind);
      pending := pending - {kind};
      if pending == {} {
        stop := false;
        off := false;
      }
    }

    /** Complete a command; only an output operation gives up its reservation. */
    method Complete(command: Command, ghost reader: Reader)
      requires !command.Safety?
      modifies this
      ensures View(reader, Reporting) == OwnerReports(old(View(reader, Executing(command))))
    {
      ReportsOther(View(reader, Executing(command)), command);
      if command.Output? {
        running := false;
      }
    }

    method TrySend(command: Command, listening: bool) returns (sent: bool)
      modifies this`queue
      ensures sent == (|old(queue)| < CAPACITY && listening)
      ensures queue == if sent then old(queue) + [command] else old(queue)
    {
      sent := |queue| < CAPACITY && listening;
      if sent {
        queue := queue + [command];
      }
    }

    /** The reader's handling of one command; false ends the reader, which then closes the engine. */
    method Admit(command: Command, ghost owner: Owner, listening: bool) returns (more: bool)
      requires listening == !owner.Left?
      modifies this
      ensures View(if more then Reading else Ended, owner) ==
              ReaderFinishes(Arrive(old(View(Reading, owner)), command), |old(queue)| < CAPACITY && listening)
    {
      hide ReaderFinishes, ReaderStep, Arrive;
      AdmissionIsItsSteps(View(Reading, owner), command, |queue| < CAPACITY && listening);
      more := true;
      match command {
        case Safety(kind) =>
          pending := pending + {kind};
          if !kind.StopAll? {
            off := true;
          }
          stop := true;
          var sent := TrySend(command, listening);
          if !sent {
            closed := true;
            more := !kind.StopAll?;
          }
        case Output(op) =>
          if running || pending != {} {
            if op in rejected {
              more := false;
            } else {
              rejected := rejected + {op};
            }
          } else {
            running := true;
            var sent := TrySend(command, listening);
            if !sent {
              running := false;
              closed := true;
              more := false;
            }
          }
        case Other =>
          var sent := TrySend(command, listening);
          if !sent {
            closed := true;
            more := false;
          }
      }
      if !more {
        closed := true;
        stop := true;
      }
    }
  }
}
