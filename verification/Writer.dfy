/**
 The client's command writer: ordinary commands wait in a bounded queue, safety
 commands in a bitmask beside it. Every micro-step of the writer thread is one
 load, store, queue operation or write; submissions interleave between them.
 */
module Writer {
  import opened Wrappers

  datatype Level = Stop | GateOff | SourceOff | Source2Off | OutputOff | Shutdown

  /** `On` is a Run, SetGateVoltage or SetSourceDc; `number` is the order of acceptance. */
  datatype Normal = On(number: nat) | Plain(number: nat)

  datatype Line = SafetyLine(level: Level) | NormalLine(command: Normal) | Heartbeat

  const CAPACITY := 16

  datatype Place =
    | Top
    | Draining(left: nat)
    | Selecting
    | WritingSafety(level: Level)
    | Clearing(level: Level)
    | Polling
    | Rechecking(command: Normal)
    | Writing(command: Normal)
    | Beating
    | Dead

  /**
   `wire` and `intents` only record: each accepted intent keeps how long the wire was
   and how many ordinary commands had been accepted when it came.
   */
  datatype Pipe = Pipe(
    bits: set<Level>,
    queue: seq<Normal>,
    deferred: Option<Normal>,
    senders: bool,
    place: Place,
    accepted: nat,
    wire: seq<Line>,
    intents: seq<Mark>)

  /**
   An accepted intent. It is absorbed when the very command it asks for was just written
   and its bit is about to be cleared; `chosen` if another safety line was already chosen.
   */
  datatype Mark = Mark(level: Level, length: nat, accepted: nat, absorbed: bool, chosen: bool)

  const START := Pipe({}, [], None, true, Top, 0, [], [])

  datatype Refusal = Disconnected | SafetyPending | Full

  datatype Submission = Intent(level: Level) | SwitchOn | Ordinary

  /** `submit_command`, by the one thread that owns the client. */
  function Submit(p: Pipe, s: Submission): (Pipe, Option<Refusal>) {
    match s
    case Intent(level) =>
      if p.place.Dead? then (p, Some(Disconnected))
      else (p.(bits := p.bits + {level}, intents := p.intents + [NewMark(p, level)]), None)
    case SwitchOn => if p.bits != {} then (p, Some(SafetyPending)) else Push(p, On(p.accepted))
    case Ordinary => Push(p, Plain(p.accepted))
  }

  function NewMark(p: Pipe, level: Level): Mark {
    Mark(level, |p.wire|, p.accepted, Absorbs(p, level), p.place.WritingSafety?)
  }

  /** The bit the intent sets is cleared next, and no shutdown is pending that would answer it all the same. */
  predicate Absorbs(p: Pipe, level: Level) {
    p.place == Clearing(level) && (level == Shutdown || Shutdown !in p.bits)
  }

  function Push(p: Pipe, command: Normal): (Pipe, Option<Refusal>) {
    if p.place.Dead? then (p, Some(Disconnected))
    else if |p.queue| >= CAPACITY then (p, Some(Full))
    else (p.(queue := p.queue + [command], accepted := p.accepted + 1), None)
  }

  /** Smaller is more urgent. */
  function Urgency(level: Level): nat {
    match level
    case Shutdown => 0
    case OutputOff => 1
    case GateOff => 2
    case SourceOff => 3
    case Source2Off => 4
    case Stop => 5
  }

  /** Global OFFs first, then each source's OFF, then a plain Stop: nothing more urgent is set. */
  function SafetyCommand(bits: set<Level>): (level: Level)
    requires bits != {}
    ensures level in bits
    ensures forall other :: other in bits ==> Urgency(level) <= Urgency(other)
  {
    if Shutdown in bits then Shutdown
    else if OutputOff in bits then OutputOff
    else if GateOff in bits then GateOff
    else if SourceOff in bits then SourceOff
    else if Source2Off in bits then Source2Off
    else
      assert Stop in bits by { var l :| l in bits; assert l.Stop?; }
      Stop
  }

  /** `fetch_max` with the highest bit: any smaller mask is replaced by it alone. */
  function RaiseShutdown(bits: set<Level>): set<Level> {
    if Shutdown in bits then bits else {Shutdown}
  }

  datatype Step =
    | Submitted(s: Submission)
    | SendersGone
    | Proceed(writes: bool, beat: bool)

  predicate Enabled(p: Pipe, step: Step) {
    match step
    case Submitted(_) => p.senders
    case SendersGone => p.senders
    case Proceed(_, _) => !p.place.Dead?
  }

  function Next(p: Pipe, step: Step): Pipe
    requires Enabled(p, step)
  {
    match step
    case Submitted(s) => Submit(p, s).0
    case SendersGone => p.(senders := false)
    case Proceed(writes, beat) => WriterStep(p, writes, beat)
  }

  /** `writes`: the pipe takes the line; `beat`: a heartbeat is due when the timed receive gives up. */
  function WriterStep(p: Pipe, writes: bool, beat: bool): Pipe
    requires !p.place.Dead?
  {
    match p.place
    case Top => if p.bits != {} then p.(deferred := None, place := Draining(CAPACITY)) else p.(place := Polling)
    case Draining(left) =>
      if left == 0 then p.(place := Selecting)
      else if p.queue != [] then p.(queue := p.queue[1..], place := Draining(left - 1))
      else if p.senders then p.(place := Selecting)
      else p.(bits := RaiseShutdown(p.bits), place := Selecting)
    case Selecting => if p.bits == {} then p.(place := Top) else p.(place := WritingSafety(SafetyCommand(p.bits)))
    case WritingSafety(level) =>
      if writes then p.(wire := p.wire + [SafetyLine(level)], place := Clearing(level)) else p.(place := Dead)
    case Clearing(level) => p.(bits := p.bits - {level}, place := if level.Shutdown? then Dead else Top)
    case Polling =>
      if p.queue != [] then p.(queue := p.queue[1..], place := Rechecking(p.queue[0]))
      else if p.queue == [] && !p.senders then
        p.(bits := RaiseShutdown(p.bits), place := Top)
      else if beat then p.(place := Beating)
      else p.(place := Top)
    case Rechecking(command) =>
      if p.bits != {} then p.(deferred := Some(command), place := Top) else p.(place := Writing(command))
    case Writing(command) => if writes then Wrote(p, NormalLine(command)) else p.(place := Dead)
    case Beating => if writes then Wrote(p, Heartbeat) else p.(place := Dead)
  }

  function Wrote(p: Pipe, line: Line): Pipe {
    p.(wire := p.wire + [line], place := Top)
  }

  ghost predicate Runnable(p: Pipe, steps: seq<Step>)
    decreases |steps|
  {
    steps != [] ==> Enabled(p, steps[0]) && Runnable(Next(p, steps[0]), steps[1..])
  }

  ghost function Run(p: Pipe, steps: seq<Step>): Pipe
    requires Runnable(p, steps)
    decreases |steps|
  {
    if steps == [] then p else Run(Next(p, steps[0]), steps[1..])
  }

  // ---- What every step keeps ----

  /** The writer may still put one ordinary line on the wire without looking at the bits again. */
  predicate Committed(place: Place) {
    place.Polling? || place.Writing? || place.Beating?
  }

  /** Command `number` may still be written: queued, deferred, or in the writer's hand. */
  ghost predicate Live(p: Pipe, number: nat) {
    || On(number) in p.queue
    || p.deferred == Some(On(number))
    || (p.place.Rechecking? && p.place.command == On(number))
    || (p.place.Writing? && p.place.command == On(number))
  }

  /** Draining leaves no switch-on command behind: what is left of them is within its reach. */
  ghost predicate Drained(p: Pipe) {
    && |p.queue| <= CAPACITY
    && (forall number: nat :: Live(p, number) ==> number < p.accepted)
    && (p.place.Draining? ==> p.place.left <= CAPACITY)
    && (p.place.Draining? || p.place.Selecting? ==> p.bits != {})
    && (p.place.WritingSafety? || p.place.Clearing? ==> p.place.level in p.bits)
    && (p.place.Clearing? ==> p.wire != [] && p.wire[|p.wire| - 1] == SafetyLine(p.place.level))
    && (p.place.Draining? ==> p.deferred.None? && forall i | p.place.left <= i < |p.queue| :: p.queue[i].Plain?)
    && (p.place.Selecting? || p.place.WritingSafety? || p.place.Clearing? ==> forall number: nat :: !Live(p, number))
  }

  /** The line carries out a request of this level: its own command, or the shutdown that ends the wire. */
  predicate Answers(line: Line, level: Level) {
    line == SafetyLine(level) || line == SafetyLine(Shutdown)
  }

  /** The intent was answered by one of the lines before `end`. */
  predicate AnsweredBefore(wire: seq<Line>, m: Mark, end: int) {
    exists k :: m.length <= k < end && k < |wire| && Answers(wire[k], m.level)
  }

  /** The bits that will still be set after the one now being cleared. */
  function Remaining(p: Pipe): set<Level> {
    if p.place.Clearing? then p.bits - {p.place.level} else p.bits
  }

  /** No command accepted before the intent is written after it, save one that was past its last check. */
  ghost predicate Silences(p: Pipe, m: Mark) {
    forall k | m.length < k < |p.wire| && p.wire[k].NormalLine? && p.wire[k].command.On? ::
      p.wire[k].command.number >= m.accepted
  }

  ghost predicate NoneLive(p: Pipe, m: Mark) {
    forall number: nat :: Live(p, number) ==> number >= m.accepted
  }

  /** Only the very next line may be an ordinary one before the intent is answered. */
  ghost predicate Prompted(wire: seq<Line>, m: Mark) {
    forall k | m.length < k < |wire| && !wire[k].SafetyLine? :: AnsweredBefore(wire, m, k)
  }

  /** Nothing less urgent is written before the answer, save one line that was already chosen. */
  ghost predicate Ordered(wire: seq<Line>, m: Mark) {
    forall k | m.length + (if m.chosen then 1 else 0) <= k < |wire| && wire[k].SafetyLine?
               && Urgency(wire[k].level) > Urgency(m.level) :: AnsweredBefore(wire, m, k)
  }

  /** An intent not yet answered: its bit, or a shutdown, stays set until it is. */
  ghost predicate Waiting(p: Pipe, m: Mark) {
    && (m.level in Remaining(p) || Shutdown in Remaining(p))
    && (Committed(p.place) ==> |p.wire| == m.length)
    && (forall k | m.length < k < |p.wire| :: p.wire[k].SafetyLine?)
    && (p.place.WritingSafety? ==>
          Urgency(p.place.level) <= Urgency(m.level) || (m.chosen && |p.wire| == m.length))
  }

  /** What one accepted intent guarantees, once written and while waiting. */
  ghost predicate Honoured(p: Pipe, m: Mark) {
    && m.length <= |p.wire| && m.accepted <= p.accepted && Silences(p, m)
    && (if m.absorbed then
          NoneLive(p, m) && 0 < m.length && p.wire[m.length - 1] == SafetyLine(m.level)
        else
          && Prompted(p.wire, m) && Ordered(p.wire, m)
          && (p.place.Dead?
              || (if AnsweredBefore(p.wire, m, |p.wire|) then NoneLive(p, m) else Waiting(p, m))))
  }

  ghost predicate Inv(p: Pipe) {
    Drained(p) && forall i | 0 <= i < |p.intents| :: Honoured(p, p.intents[i])
  }

  lemma SubmitMovesLive(p: Pipe, s: Submission, number: nat)
    requires Drained(p)
    ensures var t := Submit(p, s).0;
      && p.accepted <= t.accepted <= p.accepted + 1
      && (Live(t, number) ==> Live(p, number) || (number == p.accepted && t.accepted > p.accepted && p.bits == {}))
  {
  }

  lemma SubmitKeepsDrained(p: Pipe, s: Submission)
    requires Drained(p)
    ensures Drained(Submit(p, s).0)
  {
    var t := Submit(p, s).0;
    forall number: nat
      ensures Live(t, number) ==>
        Live(p, number) || (number == p.accepted && t.accepted > p.accepted && p.bits == {})
    {
      SubmitMovesLive(p, s, number);
    }
  }

  lemma WriterMovesLive(p: Pipe, writes: bool, beat: bool, number: nat)
    requires !p.place.Dead?
    ensures Live(WriterStep(p, writes, beat), number) ==> Live(p, number)
  {
  }

  lemma QueuedSwitchIsLive(p: Pipe, i: nat)
    requires i < |p.queue| && p.queue[i].On?
    ensures Live(p, p.queue[i].number)
  {
  }

  lemma WriterKeepsDrained(p: Pipe, writes: bool, beat: bool)
    requires Drained(p) && !p.place.Dead?
    ensures Drained(WriterStep(p, writes, beat))
  {
    var t := WriterStep(p, writes, beat);
    forall number: nat ensures Live(t, number) ==> Live(p, number) {
      WriterMovesLive(p, writes, beat, number);
    }
  }

  lemma SubmitHonours(p: Pipe, s: Submission, m: Mark)
    requires Inv(p) && Honoured(p, m)
    ensures Honoured(Submit(p, s).0, m)
  {
    var t := Submit(p, s).0;
    assert t.wire == p.wire;
    forall number: nat | Live(t, number) ensures Live(p, number) || number >= p.accepted {
      SubmitMovesLive(p, s, number);
    }
  }

  lemma NewIntentIsHonoured(p: Pipe, level: Level)
    requires Inv(p) && !p.place.Dead?
    ensures Honoured(Submit(p, Intent(level)).0, NewMark(p, level))
  {
    var t := Submit(p, Intent(level)).0;
    forall number: nat ensures Live(t, number) ==> Live(p, number) {
      SubmitMovesLive(p, Intent(level), number);
    }
    assert level in t.bits;
  }

  /** Answered stays answered when the wire grows. */
  lemma GrowthKeepsAnswers(wire: seq<Line>, line: Line, m: Mark)
    requires m.length <= |wire|
    ensures forall k | k <= |wire| :: AnsweredBefore(wire + [line], m, k) <==> AnsweredBefore(wire, m, k)
    ensures AnsweredBefore(wire + [line], m, |wire| + 1) <==> AnsweredBefore(wire, m, |wire|) || Answers(line, m.level)
  {
    var longer := wire + [line];
    assert wire == longer[..|wire|];
    if Answers(line, m.level) {
      assert Answers(longer[|wire|], m.level);
    }
    forall k | k <= |wire| ensures AnsweredBefore(longer, m, k) <==> AnsweredBefore(wire, m, k) {
      if AnsweredBefore(longer, m, k) {
        var j :| m.length <= j < k && j < |longer| && Answers(longer[j], m.level);
        assert Answers(wire[j], m.level);
      }
      if AnsweredBefore(wire, m, k) {
        var j :| m.length <= j < k && j < |wire| && Answers(wire[j], m.level);
        assert Answers(longer[j], m.level);
      }
    }
    if AnsweredBefore(wire, m, |wire|) {
      assert AnsweredBefore(longer, m, |wire|);
    }
  }

  lemma SafetyLineHonours(p: Pipe, beat: bool, m: Mark)
    requires Inv(p) && Honoured(p, m) && p.place.WritingSafety?
    ensures Honoured(WriterStep(p, true, beat), m)
  {
    var t := WriterStep(p, true, beat);
    var line := SafetyLine(p.place.level);
    GrowthKeepsAnswers(p.wire, line, m);
    forall number: nat ensures Live(t, number) ==> Live(p, number) {
      WriterMovesLive(p, true, beat, number);
    }
    assert p.wire == t.wire[..|p.wire|];
  }

  lemma OrdinaryLineHonours(p: Pipe, beat: bool, m: Mark)
    requires Inv(p) && Honoured(p, m) && (p.place.Writing? || p.place.Beating?)
    ensures Honoured(WriterStep(p, true, beat), m)
  {
    var t := WriterStep(p, true, beat);
    GrowthKeepsAnswers(p.wire, t.wire[|p.wire|], m);
    assert t.wire == p.wire + [t.wire[|p.wire|]];
    forall number: nat ensures Live(t, number) ==> Live(p, number) {
      WriterMovesLive(p, true, beat, number);
    }
    assert p.wire == t.wire[..|p.wire|];
    if p.place.Writing? && p.place.command.On? {
      assert Live(p, p.place.command.number);
    }
  }

  lemma WritingHonours(p: Pipe, writes: bool, beat: bool, m: Mark)
    requires Inv(p) && Honoured(p, m) && !p.place.Dead?
    requires p.place.WritingSafety? || p.place.Writing? || p.place.Beating?
    ensures Honoured(WriterStep(p, writes, beat), m)
  {
    if !writes {
      MovingHonours(p, writes, beat, m);
    } else if p.place.WritingSafety? {
      SafetyLineHonours(p, beat, m);
    } else {
      OrdinaryLineHonours(p, beat, m);
    }
  }

  lemma MovingHonours(p: Pipe, writes: bool, beat: bool, m: Mark)
    requires Inv(p) && Honoured(p, m) && !p.place.Dead?
    requires WriterStep(p, writes, beat).wire == p.wire
    ensures Honoured(WriterStep(p, writes, beat), m)
  {
    var t := WriterStep(p, writes, beat);
    forall number: nat ensures Live(t, number) ==> Live(p, number) {
      WriterMovesLive(p, writes, beat, number);
    }
  }

  lemma SubmitKeeps(p: Pipe, s: Submission)
    requires Inv(p)
    ensures var t := Submit(p, s).0;
      Drained(t) && forall i | 0 <= i < |t.intents| :: Honoured(t, t.intents[i])
  {
    var t := Submit(p, s).0;
    SubmitKeepsDrained(p, s);
    forall i | 0 <= i < |t.intents| ensures Honoured(t, t.intents[i]) {
      if i < |p.intents| {
        assert t.intents[i] == p.intents[i];
        SubmitHonours(p, s, p.intents[i]);
      } else {
        NewIntentIsHonoured(p, s.level);
      }
    }
  }

  lemma WriterKeeps(p: Pipe, writes: bool, beat: bool)
    requires Inv(p) && !p.place.Dead?
    ensures var t := WriterStep(p, writes, beat);
      Drained(t) && t.intents == p.intents && forall i | 0 <= i < |t.intents| :: Honoured(t, t.intents[i])
  {
    WriterKeepsDrained(p, writes, beat);
    forall i | 0 <= i < |p.intents| ensures Honoured(WriterStep(p, writes, beat), p.intents[i]) {
      if p.place.WritingSafety? || p.place.Writing? || p.place.Beating? {
        WritingHonours(p, writes, beat, p.intents[i]);
      } else {
        MovingHonours(p, writes, beat, p.intents[i]);
      }
    }
  }

  lemma SendersGoneKeeps(p: Pipe)
    requires Inv(p)
    ensures Inv(p.(senders := false))
  {
    var t := p.(senders := false);
    forall number: nat ensures Live(t, number) <==> Live(p, number) {
    }
    forall i | 0 <= i < |t.intents| ensures Honoured(t, t.intents[i]) {
      assert Honoured(p, p.intents[i]);
    }
  }

  lemma NextKeeps(p: Pipe, step: Step)
    requires Inv(p) && Enabled(p, step)
    ensures Inv(Next(p, step)) && p.intents <= Next(p, step).intents
  {
    match step
    case Submitted(s) => SubmitKeeps(p, s);
    case SendersGone => SendersGoneKeeps(p);
    case Proceed(writes, beat) => WriterKeeps(p, writes, beat);
  }

  lemma {:induction false} RunKeeps(p: Pipe, steps: seq<Step>)
    requires Inv(p) && Runnable(p, steps)
    ensures Inv(Run(p, steps)) && p.intents <= Run(p, steps).intents
    decreases |steps|
  {
    if steps != [] {
      NextKeeps(p, steps[0]);
      RunKeeps(Next(p, steps[0]), steps[1..]);
    }
  }

  /**
   Stale commands lose. In every run, a switch-on command accepted before a safety intent is
   on the wire before it, or is the one line that was past its last check, or is never written.
   Unless absorbed, the intent is answered, by its own command or a shutdown, before any ordinary
   line but the very next one and before anything less urgent but one line already chosen.
   */
  lemma SafetyOvertakes(steps: seq<Step>, i: nat)
    requires Runnable(START, steps) && i < |Run(START, steps).intents|
    ensures var p := Run(START, steps);
      var m := p.intents[i];
      && m.length <= |p.wire| && Silences(p, m)
      && (if m.absorbed then 0 < m.length && p.wire[m.length - 1] == SafetyLine(m.level)
          else Prompted(p.wire, m) && Ordered(p.wire, m))
  {
    RunKeeps(START, steps);
    assert Honoured(Run(START, steps), Run(START, steps).intents[i]);
  }

  /** In every run, no switch-on command is queued or deferred when a safety bit is cleared. */
  lemma ClearingLeavesNothingToSwitchOn(steps: seq<Step>)
    requires Runnable(START, steps) && Run(START, steps).place.Clearing?
    ensures var p := Run(START, steps);
      && (forall k | 0 <= k < |p.queue| :: p.queue[k].Plain?)
      && (p.deferred.Some? ==> p.deferred.value.Plain?)
  {
    RunKeeps(START, steps);
    var p := Run(START, steps);
    forall k | 0 <= k < |p.queue| ensures p.queue[k].Plain? {
      if p.queue[k].On? {
        QueuedSwitchIsLive(p, k);
      }
    }
    if p.deferred.Some? && p.deferred.value.On? {
      assert Live(p, p.deferred.value.number);
    }
  }
}
