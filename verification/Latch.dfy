/**
 The engine's cancellation latch: a reader thread admits commands from the pipe,
 an owner thread carries them out, and they share flags that each thread loads
 and stores one at a time. Every micro-step below is one such load, store or
 queue operation, and any interleaving of the two threads is a run.
 */
module Latch {
  import opened Wrappers

  datatype Kind = StopAll | GateOff | SourceOff | Source2Off | AllOff

  datatype Operation = Run | SetGate | SetSource

  datatype Command = Safety(kind: Kind) | Output(op: Operation) | Other

  const CAPACITY := 8

  datatype Reader =
    | Reading
    | Latched(kind: Kind)
    | Offed(kind: Kind)
    | Sending(command: Command)
    | Idle(op: Operation)
    | Clear(op: Operation)
    | Refusing(op: Operation)
    | Unreserved
    | Ending
    | Stopping
    | Ended

  datatype Owner =
    | Waiting
    | Receiving
    | Executing(command: Command)
    | Acknowledged
    | ZeroSeen
    | StopCleared
    | Finishing(command: Command)
    | Reporting
    | Left

  /** `off` and `stop` are hints; `pending` is the bitmask of unprocessed safety requests. */
  datatype Control = Control(
    stop: bool,
    off: bool,
    pending: set<Kind>,
    running: bool,
    closed: bool,
    rejected: set<Operation>,
    queue: seq<Command>,
    reader: Reader,
    owner: Owner)

  const START := Control(false, false, {}, false, false, {}, [], Reading, Waiting)

  /** `fits` is whether the bounded queue took the command; `stale` heartbeats only add cancellations. */
  datatype Step = Receive(command: Command) | Hangup | Read(fits: bool) | Own(more: bool) | ConsumerLost

  predicate Cancelled(c: Control, stale: bool) {
    c.stop || c.pending != {} || c.closed || stale
  }

  predicate Enabled(c: Control, step: Step) {
    match step
    case Receive(_) => c.reader.Reading?
    case Hangup => c.reader.Reading?
    case Read(fits) =>
      && !c.reader.Reading? && !c.reader.Ended?
      && (c.reader.Sending? ==> (fits ==> |c.queue| < CAPACITY) && (!fits ==> |c.queue| >= CAPACITY || c.owner.Left?))
    case Own(more) => !c.owner.Left? && (c.owner.Receiving? && more ==> c.queue != [])
    case ConsumerLost => true
  }

  function Next(c: Control, step: Step): Control
    requires Enabled(c, step)
  {
    match step
    case Receive(command) => Arrive(c, command)
    case Hangup => c.(reader := Ending)
    case Read(fits) => ReaderStep(c, fits)
    case Own(more) => OwnerStep(c, more)
    case ConsumerLost => c.(closed := true, stop := true)
  }

  /** The first access a command causes: latch a safety bit, or look at `running`. */
  function Arrive(c: Control, command: Command): Control {
    match command
    case Safety(kind) => c.(pending := c.pending + {kind}, reader := Latched(kind))
    case Output(op) => c.(reader := if c.running then Refusing(op) else Idle(op))
    case Other => c.(reader := Sending(Other))
  }

  function ReaderStep(c: Control, fits: bool): Control
    requires !c.reader.Reading? && !c.reader.Ended?
  {
    match c.reader
    case Latched(kind) =>
      if kind.StopAll? then c.(stop := true, reader := Sending(Safety(kind)))
      else c.(off := true, reader := Offed(kind))
    case Offed(kind) => c.(stop := true, reader := Sending(Safety(kind)))
    case Idle(op) => c.(reader := if c.pending != {} then Refusing(op) else Clear(op))
    case Clear(op) => c.(running := true, reader := Sending(Output(op)))
    case Refusing(op) =>
      if op in c.rejected then c.(reader := Ending) else c.(rejected := c.rejected + {op}, reader := Reading)
    case Sending(command) => Send(c, command, fits)
    case Unreserved => c.(closed := true, reader := Ending)
    case Ending => c.(closed := true, reader := Stopping)
    case Stopping => c.(stop := true, reader := Ended)
  }

  /** A full queue turns any command into a closing engine; a reservation is undone first. */
  function Send(c: Control, command: Command, fits: bool): Control {
    if fits then c.(queue := c.queue + [command], reader := Reading)
    else if command.Output? then c.(running := false, reader := Unreserved)
    else if command.Safety? && !command.kind.StopAll? then c.(closed := true, reader := Reading)
    else c.(closed := true, reader := Ending)
  }

  function OwnerStep(c: Control, more: bool): Control
    requires !c.owner.Left? && (c.owner.Receiving? && more ==> c.queue != [])
  {
    match c.owner
    case Waiting => c.(owner := if c.closed then Left else Receiving)
    case Receiving =>
      if more then c.(queue := c.queue[1..], owner := Executing(c.queue[0])) else c.(owner := Waiting)
    case Executing(command) =>
      if command.Safety? then c.(pending := c.pending - {command.kind}, owner := Acknowledged)
      else c.(owner := Finishing(command))
    case Acknowledged => c.(owner := if c.pending == {} then ZeroSeen else Reporting)
    case ZeroSeen => c.(stop := false, owner := StopCleared)
    case StopCleared => c.(off := false, owner := Reporting)
    case Finishing(command) => c.(running := if command.Output? then false else c.running, owner := Reporting)
    case Reporting => c.(rejected := {}, owner := Waiting)
  }

  ghost predicate Runnable(c: Control, steps: seq<Step>)
    decreases |steps|
  {
    steps != [] ==> Enabled(c, steps[0]) && Runnable(Next(c, steps[0]), steps[1..])
  }

  ghost function After(c: Control, steps: seq<Step>): Control
    requires Runnable(c, steps)
    decreases |steps|
  {
    if steps == [] then c else After(Next(c, steps[0]), steps[1..])
  }

  // ---- At most one output operation ----

  function Outputs(q: seq<Command>): nat {
    if q == [] then 0 else Bit(q[0].Output?) + Outputs(q[1..])
  }

  /** Output operations admitted and not yet finished. */
  function InFlight(c: Control): nat {
    Bit(c.reader.Sending? && c.reader.command.Output?)
    + Outputs(c.queue)
    + Bit((c.owner.Executing? || c.owner.Finishing?) && c.owner.command.Output?)
  }

  ghost predicate OneOutput(c: Control) {
    && InFlight(c) == Bit(c.running)
    && (c.reader.Idle? || c.reader.Clear? || c.reader.Unreserved? ==> !c.running)
  }

  lemma {:induction false} OutputsJoin(p: seq<Command>, q: seq<Command>)
    ensures Outputs(p + q) == Outputs(p) + Outputs(q)
  {
    if p == [] {
      assert p + q == q;
    } else {
      assert (p + q)[1..] == p[1..] + q;
      OutputsJoin(p[1..], q);
    }
  }

  /** The two steps that move a command through the queue. */
  predicate MovesQueue(c: Control, step: Step) {
    (step.Read? && c.reader.Sending?) || (step.Own? && c.owner.Receiving?)
  }

  lemma QueueMoveKeepsOneOutput(c: Control, step: Step)
    requires OneOutput(c) && Enabled(c, step) && MovesQueue(c, step)
    ensures OneOutput(Next(c, step))
  {
    if step.Read? {
      OutputsJoin(c.queue, [c.reader.command]);
      assert Outputs([c.reader.command]) == Bit(c.reader.command.Output?);
    }
  }

  lemma OwnerFlagKeepsOneOutput(c: Control, step: Step)
    requires OneOutput(c) && Enabled(c, step) && step.Own? && !c.owner.Receiving?
    ensures OneOutput(Next(c, step))
  {
  }

  lemma ReaderFlagKeepsOneOutput(c: Control, step: Step)
    requires OneOutput(c) && Enabled(c, step) && step.Read? && !c.reader.Sending?
    ensures OneOutput(Next(c, step))
  {
    assert Next(c, step).queue == c.queue && Next(c, step).owner == c.owner;
  }

  lemma OneOutputKept(c: Control, step: Step)
    requires OneOutput(c) && Enabled(c, step)
    ensures OneOutput(Next(c, step))
  {
    if MovesQueue(c, step) {
      QueueMoveKeepsOneOutput(c, step);
    } else if step.Own? {
      OwnerFlagKeepsOneOutput(c, step);
    } else if step.Read? {
      ReaderFlagKeepsOneOutput(c, step);
    }
  }

  /**
   At every interleaving point at most one output operation is admitted and
   unfinished, and `running` is set exactly then.
   */
  lemma AtMostOneOutputOperation(steps: seq<Step>)
    requires Runnable(START, steps)
    ensures var c := After(START, steps);
      InFlight(c) <= 1 && (c.running <==> InFlight(c) == 1)
  {
    OneOutputAlong(START, steps);
  }

  lemma {:induction false} OneOutputAlong(c: Control, steps: seq<Step>)
    requires OneOutput(c) && Runnable(c, steps)
    ensures OneOutput(After(c, steps))
    decreases |steps|
  {
    if steps != [] {
      OneOutputKept(c, steps[0]);
      OneOutputAlong(Next(c, steps[0]), steps[1..]);
    }
  }

  // ---- Cancellation ----

  function Requests(q: seq<Command>, kind: Kind): nat {
    if q == [] then 0 else Bit(q[0] == Safety(kind)) + Requests(q[1..], kind)
  }

  /** The command the reader is working on; `Other` while it has none that counts. */
  function InHand(r: Reader): Command {
    match r
    case Latched(kind) => Safety(kind)
    case Offed(kind) => Safety(kind)
    case Sending(command) => command
    case _ => Other
  }

  /** Safety requests of one kind received and not yet acknowledged. */
  function Outstanding(c: Control, kind: Kind): nat {
    Bit(InHand(c.reader) == Safety(kind))
    + Requests(c.queue, kind)
    + Bit(c.owner == Executing(Safety(kind)))
  }

  lemma {:induction false} RequestsJoin(p: seq<Command>, q: seq<Command>, kind: Kind)
    ensures Requests(p + q, kind) == Requests(p, kind) + Requests(q, kind)
  {
    if p == [] {
      assert p + q == q;
    } else {
      assert (p + q)[1..] == p[1..] + q;
      RequestsJoin(p[1..], q, kind);
    }
  }

  predicate Receives(step: Step, kind: Kind) {
    step == Receive(Safety(kind))
  }

  /** The owner clears the bit of `kind`. */
  predicate Acknowledges(c: Control, step: Step, kind: Kind) {
    step.Own? && c.owner == Executing(Safety(kind))
  }

  /** The queue refused a request of `kind`, which closes the engine instead. */
  predicate Overflows(c: Control, step: Step, kind: Kind) {
    step == Read(false) && c.reader == Sending(Safety(kind))
  }

  lemma ReaderKeepsQueue(c: Control, fits: bool)
    requires !c.reader.Reading? && !c.reader.Ended? && !c.reader.Sending?
    ensures ReaderStep(c, fits).owner == c.owner && ReaderStep(c, fits).queue == c.queue
  {
    hide Send;
  }

  lemma ReaderKeepsHand(c: Control, fits: bool, kind: Kind)
    requires !c.reader.Reading? && !c.reader.Ended? && !c.reader.Sending?
    ensures InHand(ReaderStep(c, fits).reader) == Safety(kind) <==> InHand(c.reader) == Safety(kind)
  {
    hide Send;
  }

  lemma SendingMovesRequests(c: Control, command: Command, fits: bool, kind: Kind)
    requires c.reader == Sending(command)
    ensures Outstanding(Send(c, command, fits), kind) == Outstanding(c, kind) - Bit(!fits && command == Safety(kind))
  {
    if fits {
      RequestsJoin(c.queue, [command], kind);
      assert Requests([command], kind) == Bit(command == Safety(kind));
    }
  }

  lemma ReaderNeverReopens(c: Control, fits: bool)
    requires Enabled(c, Read(fits))
    ensures c.closed ==> ReaderStep(c, fits).closed
    ensures c.reader.Sending? && !fits && c.reader.command.Safety? ==> ReaderStep(c, fits).closed
    ensures ReaderStep(c, fits).pending == c.pending
  {
  }

  lemma OwnerMoves(c: Control, more: bool)
    requires Enabled(c, Own(more))
    ensures var t := OwnerStep(c, more);
      && t.reader == c.reader && t.closed == c.closed
      && t.pending == (if c.owner.Executing? && c.owner.command.Safety?
                       then c.pending - {c.owner.command.kind} else c.pending)
      && (if c.owner.Receiving? && more then t.queue == c.queue[1..] && t.owner == Executing(c.queue[0])
          else t.queue == c.queue && !t.owner.Executing?)
  {
  }

  lemma ReaderMovesRequests(c: Control, fits: bool, kind: Kind)
    requires Enabled(c, Read(fits))
    ensures Outstanding(ReaderStep(c, fits), kind) == Outstanding(c, kind) - Bit(Overflows(c, Read(fits), kind))
  {
    if c.reader.Sending? {
      hide Outstanding, Send;
      SendingMovesRequests(c, c.reader.command, fits, kind);
    } else {
      hide ReaderStep;
      ReaderKeepsQueue(c, fits);
      ReaderKeepsHand(c, fits, kind);
    }
  }

  lemma OwnerMovesRequests(c: Control, more: bool, kind: Kind)
    requires Enabled(c, Own(more))
    ensures Outstanding(OwnerStep(c, more), kind) == Outstanding(c, kind) - Bit(Acknowledges(c, Own(more), kind))
  {
    OwnerMoves(c, more);
  }

  lemma ArrivalMovesRequests(c: Control, command: Command, kind: Kind)
    requires c.reader.Reading?
    ensures Outstanding(Arrive(c, command), kind) == Outstanding(c, kind) + Bit(command == Safety(kind))
  {
  }

  /** Only receipt adds a request, and only acknowledgement or an overflowing queue takes one away. */
  lemma OutstandingMoves(c: Control, step: Step, kind: Kind)
    requires Enabled(c, step)
    ensures Outstanding(Next(c, step), kind)
         == Outstanding(c, kind) + Bit(Receives(step, kind))
            - Bit(Acknowledges(c, step, kind)) - Bit(Overflows(c, step, kind))
  {
    match step
    case Receive(command) => ArrivalMovesRequests(c, command, kind);
    case Read(fits) => ReaderMovesRequests(c, fits, kind);
    case Own(more) => OwnerMovesRequests(c, more, kind);
    case _ =>
  }

  lemma BitMoves(c: Control, step: Step, kind: Kind)
    requires Enabled(c, step)
    ensures var t := Next(c, step);
      && (kind in t.pending <==> Receives(step, kind) || (kind in c.pending && !Acknowledges(c, step, kind)))
      && (c.closed || Overflows(c, step, kind) ==> t.closed)
  {
    match step
    case Read(fits) => ReaderNeverReopens(c, fits);
    case Own(more) => OwnerMoves(c, more);
    case _ =>
  }

  /** Every outstanding request of `kind` is still latched. */
  predicate Holds(c: Control, kind: Kind) {
    Outstanding(c, kind) > 0 ==> kind in c.pending
  }

  ghost predicate HoldsThroughout(c: Control, steps: seq<Step>, kind: Kind)
    requires Runnable(c, steps)
    decreases |steps|
  {
    Holds(c, kind) && (steps != [] ==> HoldsThroughout(Next(c, steps[0]), steps[1..], kind))
  }

  /** No request of `kind` arrives while another is outstanding. */
  ghost predicate NeverDoubled(c: Control, steps: seq<Step>, kind: Kind)
    requires Runnable(c, steps)
    decreases |steps|
  {
    steps != [] ==>
      && (Receives(steps[0], kind) ==> Outstanding(c, kind) == 0)
      && NeverDoubled(Next(c, steps[0]), steps[1..], kind)
  }

  lemma {:induction false} SingleRequestsStayLatched(c: Control, steps: seq<Step>, kind: Kind)
    requires Runnable(c, steps) && NeverDoubled(c, steps, kind)
    requires Holds(c, kind) && Outstanding(c, kind) <= 1
    ensures HoldsThroughout(c, steps, kind)
    decreases |steps|
  {
    if steps != [] {
      OutstandingMoves(c, steps[0], kind);
      BitMoves(c, steps[0], kind);
      SingleRequestsStayLatched(Next(c, steps[0]), steps[1..], kind);
    }
  }

  lemma {:induction false} ClosedForGood(c: Control, steps: seq<Step>)
    requires Runnable(c, steps) && c.closed
    ensures After(c, steps).closed
    decreases |steps|
  {
    if steps != [] {
      BitMoves(c, steps[0], StopAll);
      ClosedForGood(Next(c, steps[0]), steps[1..]);
    }
  }

  /** Two outstanding requests cannot both drain without one of them losing its bit. */
  lemma {:induction false} DoubledRequestsLoseTheLatch(c: Control, steps: seq<Step>, kind: Kind)
    requires Runnable(c, steps) && Outstanding(c, kind) >= 2
    requires Outstanding(After(c, steps), kind) == 0 && !After(c, steps).closed
    ensures !HoldsThroughout(c, steps, kind)
    decreases |steps|
  {
    var t := Next(c, steps[0]);
    OutstandingMoves(c, steps[0], kind);
    BitMoves(c, steps[0], kind);
    if t.closed {
      ClosedForGood(t, steps[1..]);
    } else if Outstanding(t, kind) >= 2 {
      DoubledRequestsLoseTheLatch(t, steps[1..], kind);
    } else {
      assert !Holds(t, kind);
    }
  }

  lemma {:induction false} DoublingLosesTheLatch(c: Control, steps: seq<Step>, kind: Kind)
    requires Runnable(c, steps) && !NeverDoubled(c, steps, kind)
    requires Outstanding(After(c, steps), kind) == 0 && !After(c, steps).closed
    ensures !HoldsThroughout(c, steps, kind)
    decreases |steps|
  {
    OutstandingMoves(c, steps[0], kind);
    if Receives(steps[0], kind) && Outstanding(c, kind) > 0 {
      DoubledRequestsLoseTheLatch(Next(c, steps[0]), steps[1..], kind);
    } else {
      DoublingLosesTheLatch(Next(c, steps[0]), steps[1..], kind);
    }
  }

  /**
   When the latch can be relied on. In a run that answers its requests of a kind
   with the engine still open, each of them stays latched from receipt to
   acknowledgement if and only if none arrives while another is outstanding.
   */
  lemma LatchHoldsIffRequestsDoNotOverlap(steps: seq<Step>, kind: Kind)
    requires Runnable(START, steps)
    requires Outstanding(After(START, steps), kind) == 0 && !After(START, steps).closed
    ensures HoldsThroughout(START, steps, kind) <==> NeverDoubled(START, steps, kind)
  {
    if NeverDoubled(START, steps, kind) {
      SingleRequestsStayLatched(START, steps, kind);
    } else {
      DoublingLosesTheLatch(START, steps, kind);
    }
  }

  /**
   Cancellation is seen at every interleaving point from the receipt of a safety
   request to its acknowledgement, between any two stores of either thread, as
   long as requests of its kind do not overlap. Open or closed, drained or not.
   */
  lemma CancelledWhileOutstanding(steps: seq<Step>, kind: Kind, stale: bool)
    requires Runnable(START, steps) && NeverDoubled(START, steps, kind)
    requires Outstanding(After(START, steps), kind) > 0
    ensures Cancelled(After(START, steps), stale)
  {
    SingleRequestsStayLatched(START, steps, kind);
    HoldsAtTheEnd(START, steps, kind);
  }

  lemma {:induction false} HoldsAtTheEnd(c: Control, steps: seq<Step>, kind: Kind)
    requires Runnable(c, steps) && HoldsThroughout(c, steps, kind)
    ensures Holds(After(c, steps), kind)
    decreases |steps|
  {
    if steps != [] {
      HoldsAtTheEnd(Next(c, steps[0]), steps[1..], kind);
    }
  }

  /** The reader has found nothing pending and is reserving an output operation. */
  predicate Admitting(r: Reader) {
    r.Clear? || (r.Sending? && r.command.Output?)
  }

  /** Admission begins only when nothing is pending, and no request is received during it. */
  lemma AdmissionBegins(c: Control, step: Step, kind: Kind)
    requires Enabled(c, step) && Admitting(Next(c, step).reader)
    ensures Admitting(c.reader) || c.pending == {}
    ensures !Receives(step, kind)
  {
    match step {
      case Own(more) =>
        hide OwnerStep;
        OwnerMoves(c, more);
      case Read(fits) =>
        hide Send;
        if c.reader.Sending? {
          SendNeverAdmits(c, c.reader.command, fits);
        }
      case _ =>
    }
  }

  lemma SendNeverAdmits(c: Control, command: Command, fits: bool)
    ensures !Admitting(Send(c, command, fits).reader)
  {
  }

  /** What a step makes of the fact that nothing is outstanding while the reader admits. */
  lemma AdmissionMoves(c: Control, step: Step, kind: Kind)
    requires Enabled(c, step) && Holds(c, kind)
    requires Admitting(c.reader) ==> Outstanding(c, kind) == 0
    ensures Admitting(Next(c, step).reader) ==> Outstanding(Next(c, step), kind) == 0
  {
    hide Next, Outstanding, Admitting;
    if Admitting(Next(c, step).reader) {
      OutstandingMoves(c, step, kind);
      AdmissionBegins(c, step, kind);
    }
  }

  /**
   Nothing is switched on past a request. At every interleaving point at which an output operation
   is being admitted, no safety request of a kind that never overlapped is outstanding.
   */
  lemma NothingAdmittedPastARequest(steps: seq<Step>, kind: Kind)
    requires Runnable(START, steps) && NeverDoubled(START, steps, kind) && Admitting(After(START, steps).reader)
    ensures Outstanding(After(START, steps), kind) == 0
  {
    AdmissionAlong(START, steps, kind);
  }

  lemma {:induction false} AdmissionAlong(c: Control, steps: seq<Step>, kind: Kind)
    requires Runnable(c, steps) && NeverDoubled(c, steps, kind)
    requires Holds(c, kind) && Outstanding(c, kind) <= 1
    requires Admitting(c.reader) ==> Outstanding(c, kind) == 0
    ensures Admitting(After(c, steps).reader) ==> Outstanding(After(c, steps), kind) == 0
    decreases |steps|
  {
    hide Next, Outstanding;
    if steps != [] {
      OutstandingMoves(c, steps[0], kind);
      BitMoves(c, steps[0], kind);
      AdmissionMoves(c, steps[0], kind);
      AdmissionAlong(Next(c, steps[0]), steps[1..], kind);
    }
  }

  // ---- Two runs worth knowing ----

  lemma {:induction false} Extend(c: Control, steps: seq<Step>, step: Step)
    requires Runnable(c, steps) && Enabled(After(c, steps), step)
    ensures Runnable(c, steps + [step]) && After(c, steps + [step]) == Next(After(c, steps), step)
    ensures NeverDoubled(c, steps, StopAll) && (Receives(step, StopAll) ==> Outstanding(After(c, steps), StopAll) == 0)
            ==> NeverDoubled(c, steps + [step], StopAll)
    decreases |steps|
  {
    if steps == [] {
      assert (steps + [step])[1..] == [];
    } else {
      assert (steps + [step])[1..] == steps[1..] + [step];
      Extend(Next(c, steps[0]), steps[1..], step);
    }
  }

  /** The reader takes in one Stop, from the latch to the queue. */
  lemma TakeStop(steps: seq<Step>) returns (more: seq<Step>)
    requires Runnable(START, steps) && After(START, steps).reader.Reading? && |After(START, steps).queue| < CAPACITY
    ensures Runnable(START, more)
    ensures var c := After(START, steps);
      After(START, more) == c.(pending := c.pending + {StopAll}, stop := true, queue := c.queue + [Safety(StopAll)])
  {
    Extend(START, steps, Receive(Safety(StopAll)));
    more := steps + [Receive(Safety(StopAll))];
    Extend(START, more, Read(true));
    more := more + [Read(true)];
    Extend(START, more, Read(true));
    more := more + [Read(true)];
  }

  /** The waiting owner takes the next command from the queue. */
  lemma TakeCommand(steps: seq<Step>) returns (more: seq<Step>)
    requires Runnable(START, steps) && After(START, steps).owner.Waiting?
    requires After(START, steps).queue != [] && !After(START, steps).closed
    ensures Runnable(START, more)
    ensures var c := After(START, steps);
      After(START, more) == c.(queue := c.queue[1..], owner := Executing(c.queue[0]))
  {
    Extend(START, steps, Own(false));
    more := steps + [Own(false)];
    Extend(START, more, Own(true));
    more := more + [Own(true)];
  }

  /** The owner acknowledges a Stop that was the only bit set, and is back at its queue. */
  lemma AcknowledgeStop(steps: seq<Step>) returns (more: seq<Step>)
    requires Runnable(START, steps) && After(START, steps).owner == Executing(Safety(StopAll))
    requires After(START, steps).pending <= {StopAll} && After(START, steps).rejected == {}
    ensures Runnable(START, more)
    ensures var c := After(START, steps);
      After(START, more) == c.(pending := {}, stop := false, off := false, owner := Waiting)
  {
    hide After, Runnable, NeverDoubled, Outstanding;
    more := steps;
    for i := 0 to 5
      invariant Runnable(START, more)
      invariant var c, d := After(START, steps), After(START, more);
        d == match i
             case 0 => c
             case 1 => c.(pending := {}, owner := Acknowledged)
             case 2 => c.(pending := {}, owner := ZeroSeen)
             case 3 => c.(pending := {}, stop := false, owner := StopCleared)
             case 4 => c.(pending := {}, stop := false, off := false, owner := Reporting)
             case _ => c.(pending := {}, stop := false, off := false, owner := Waiting)
    {
      Extend(START, more, Own(false));
      more := more + [Own(false)];
    }
  }

  /**
   What overlapping requests cost: after Stop, Stop, Run, Stop the second
   acknowledgement clears the third Stop's bit, and the run starts uncancelled
   while that Stop is still waiting behind it.
   */
  lemma OverlappingStopsMissOne() returns (steps: seq<Step>)
    ensures Runnable(START, steps)
    ensures var c := After(START, steps);
      c.owner == Executing(Output(Run)) && Outstanding(c, StopAll) == 1 && !Cancelled(c, false)
  {
    steps := TakeStop([]);
    steps := TakeStop(steps);
    steps := TakeCommand(steps);
    steps := AcknowledgeStop(steps);
    Extend(START, steps, Receive(Output(Run)));
    steps := steps + [Receive(Output(Run))];
    for i := 0 to 3
      invariant Runnable(START, steps)
      invariant After(START, steps) == Control(false, false, {}, i >= 2, false, {},
        if i == 3 then [Safety(StopAll), Output(Run)] else [Safety(StopAll)],
        match i case 0 => Idle(Run) case 1 => Clear(Run) case 2 => Sending(Output(Run)) case _ => Reading, Waiting)
    {
      Extend(START, steps, Read(true));
      steps := steps + [Read(true)];
    }
    steps := TakeStop(steps);
    steps := TakeCommand(steps);
    steps := AcknowledgeStop(steps);
    steps := TakeCommand(steps);
    assert After(START, steps).queue == [Safety(StopAll)];
    assert Requests([Safety(StopAll)], StopAll) == 1;
  }

  /** Why the bitmask and not the flag: a Stop arriving between two stores of the acknowledgement loses the flag. */
  lemma StopFlagAloneMissesOne() returns (steps: seq<Step>)
    ensures Runnable(START, steps) && NeverDoubled(START, steps, StopAll)
    ensures var c := After(START, steps);
      Outstanding(c, StopAll) == 1 && !c.stop && !c.closed && Cancelled(c, false)
  {
    var script := [Receive(Safety(StopAll)), Read(true), Read(true), Own(false), Own(true), Own(false), Own(false),
                   Receive(Safety(StopAll)), Read(true), Own(false)];
    var stop := Safety(StopAll);
    var states := [
      START,
      START.(pending := {StopAll}, reader := Latched(StopAll)),
      START.(pending := {StopAll}, stop := true, reader := Sending(stop)),
      START.(pending := {StopAll}, stop := true, queue := [stop]),
      START.(pending := {StopAll}, stop := true, queue := [stop], owner := Receiving),
      START.(pending := {StopAll}, stop := true, owner := Executing(stop)),
      START.(stop := true, owner := Acknowledged),
      START.(stop := true, owner := ZeroSeen),
      START.(pending := {StopAll}, stop := true, reader := Latched(StopAll), owner := ZeroSeen),
      START.(pending := {StopAll}, stop := true, reader := Sending(stop), owner := ZeroSeen),
      START.(pending := {StopAll}, reader := Sending(stop), owner := StopCleared)];
    steps := [];
    for i := 0 to 10
      invariant Runnable(START, steps) && NeverDoubled(START, steps, StopAll)
      invariant After(START, steps) == states[i]
    {
      assert Enabled(states[i], script[i]) && Next(states[i], script[i]) == states[i + 1];
      assert Receives(script[i], StopAll) ==> Outstanding(states[i], StopAll) == 0;
      Extend(START, steps, script[i]);
      steps := steps + [script[i]];
    }
  }
}
