/**
 The client's command pipe as an object: a submission, and one turn of the
 writer's loop. An undisturbed turn has the effect of the writer's micro-steps.
 */
module WriterLoop {
  import opened Wrappers
  import opened Writer

  /** How many micro-steps are left in a turn, at most. */
  function Rank(place: Place): nat {
    match place
    case Top => 0
    case Dead => 0
    case Draining(left) => 6 + left
    case Selecting => 5
    case WritingSafety(_) => 4
    case Clearing(_) => 3
    case Polling => 4
    case Rechecking(_) => 3
    case Writing(_) => 2
    case Beating => 2
  }

  /** The writer's micro-steps to the end of its turn. */
  function Settle(p: Pipe, writes: bool, beat: bool): Pipe
    decreases Rank(p.place)
  {
    if Rank(p.place) == 0 then p else Settle(WriterStep(p, writes, beat), writes, beat)
  }

  /** One micro-step on the way to the end of the turn. */
  lemma StepSettles(p: Pipe, q: Pipe, writes: bool, beat: bool)
    requires Rank(p.place) > 0 && WriterStep(p, writes, beat) == q
    ensures Settle(p, writes, beat) == Settle(q, writes, beat)
    ensures Rank(q.place) == 0 ==> Settle(p, writes, beat) == q
  {
  }

  /** A whole turn keeps what every micro-step keeps. */
  lemma {:induction false} SettleKeeps(p: Pipe, writes: bool, beat: bool)
    requires Inv(p)
    ensures Inv(Settle(p, writes, beat))
    decreases Rank(p.place)
  {
    hide Inv, WriterStep;
    if Rank(p.place) > 0 {
      StepIsNext(p, writes, beat);
      NextKeeps(p, Proceed(writes, beat));
      SettleKeeps(WriterStep(p, writes, beat), writes, beat);
    }
  }

  lemma StepIsNext(p: Pipe, writes: bool, beat: bool)
    requires Rank(p.place) > 0
    ensures Enabled(p, Proceed(writes, beat)) && Next(p, Proceed(writes, beat)) == WriterStep(p, writes, beat)
    ensures Rank(WriterStep(p, writes, beat).place) < Rank(p.place)
  {
  }

  lemma SubmissionKeeps(p: Pipe, s: Submission)
    requires Inv(p)
    ensures Inv(Writer.Submit(p, s).0)
  {
    SubmitKeeps(p, s);
  }

  lemma TurnKeeps(p: Pipe, writes: bool, beat: bool)
    requires Inv(p) && p.place.Top?
    ensures Inv(Settle(WriterStep(p, writes, beat), writes, beat))
  {
    NextKeeps(p, Proceed(writes, beat));
    SettleKeeps(WriterStep(p, writes, beat), writes, beat);
  }

  class CommandPipe {
    var safety: set<Level>
    var commands: seq<Normal>
    var pendingNormal: Option<Normal>
    var senders: bool
    var alive: bool
    var accepted: nat
    var output: seq<Line>
    ghost var intents: seq<Mark>

    ghost function At(place: Place): Pipe
      reads this
    {
      Pipe(safety, commands, pendingNormal, senders, place, accepted, output, intents)
    }

    /** Between turns. */
    ghost function View(): Pipe
      reads this
    {
      At(if alive then Top else Dead)
    }

    constructor ()
      ensures View() == START
    {
      safety, commands, pendingNormal, senders, alive := {}, [], None, true, true;
      accepted, output, intents := 0, [], [];
    }

    /** Between turns no command has just been written, so no intent is absorbed. */
    method Submit(s: Submission) returns (refusal: Option<Refusal>)
      modifies this
      ensures (View(), refusal) == Writer.Submit(old(View()), s)
      ensures old(Inv(View())) ==> Inv(View())
    {
      hide Inv;
      if Inv(View()) {
        SubmissionKeeps(View(), s);
      }
      refusal := None;
      match s {
        case Intent(level) =>
          if !alive {
            return Some(Disconnected);
          }
          intents := intents + [Mark(level, |output|, accepted, false, false)];
          safety := safety + {level};
        case SwitchOn =>
          if safety != {} {
            return Some(SafetyPending);
          }
          refusal := TrySend(On(accepted));
        case Ordinary =>
          refusal := TrySend(Plain(accepted));
      }
    }

    method TrySend(command: Normal) returns (refusal: Option<Refusal>)
      modifies this`commands, this`accepted
      ensures (View(), refusal) == Push(old(View()), command)
    {
      if !alive {
        return Some(Disconnected);
      }
      if |commands| >= CAPACITY {
        return Some(Full);
      }
      commands := commands + [command];
      accepted := accepted + 1;
      return None;
    }

    /** Discard what waits, at most a queue's worth; a lost sender asks for a shutdown. */
    method Drain(ghost writes: bool, ghost beat: bool)
      modifies this`safety, this`commands
      ensures Settle(old(At(Draining(CAPACITY))), writes, beat) == Settle(At(Selecting), writes, beat)
    {
      var n := 0;
      while n < CAPACITY
        invariant n <= CAPACITY
        invariant Settle(old(At(Draining(CAPACITY))), writes, beat) == Settle(At(Draining(CAPACITY - n)), writes, beat)
      {
        ghost var before := At(Draining(CAPACITY - n));
        if commands != [] {
          commands := commands[1..];
          assert WriterStep(before, writes, beat) == At(Draining(CAPACITY - (n + 1)));
        } else {
          if !senders {
            safety := RaiseShutdown(safety);
          }
          assert WriterStep(before, writes, beat) == At(Selecting);
          return;
        }
        n := n + 1;
      }
    }

    /** Write one safety command, the most urgent, and clear its bit. */
    method WriteSafety(writes: bool, ghost beat: bool)
      requires alive
      modifies this
      ensures View() == Settle(old(At(Selecting)), writes, beat)
    {
      if safety == {} {
        StepSettles(old(At(Selecting)), View(), writes, beat);
        return;
      }
      var level := SafetyCommand(safety);
      ghost var chosen := At(WritingSafety(level));
      StepSettles(At(Selecting), chosen, writes, beat);
      if !writes {
        alive := false;
        StepSettles(chosen, View(), writes, beat);
        return;
      }
      output := output + [SafetyLine(level)];
      ghost var written := At(Clearing(level));
      StepSettles(chosen, written, writes, beat);
      safety := safety - {level};
      if level.Shutdown? {
        alive := false;
      }
      StepSettles(written, View(), writes, beat);
    }

    /** One command is taken, or a heartbeat sent, or the loss of the senders noticed. */
    method WriteNormal(writes: bool, beat: bool)
      requires alive
      modifies this
      ensures View() == Settle(old(At(Polling)), writes, beat)
      ensures old(safety) == {} && old(commands) != [] && writes ==>
        alive && output == old(output) + [NormalLine(old(commands)[0])] && commands == old(commands)[1..]
      ensures old(commands) == [] && senders && beat && writes ==> alive && output == old(output) + [Heartbeat]
    {
      if commands != [] {
        var command := commands[0];
        commands := commands[1..];
        StepSettles(old(At(Polling)), At(Rechecking(command)), writes, beat);
        if safety != {} {
          pendingNormal := Some(command);
          return;
        }
        ghost var ready := At(Writing(command));
        StepSettles(At(Rechecking(command)), ready, writes, beat);
        Write(NormalLine(command), writes);
        StepSettles(ready, View(), writes, beat);
      } else if !senders {
        safety := RaiseShutdown(safety);
        StepSettles(old(At(Polling)), View(), writes, beat);
      } else if beat {
        ghost var ready := At(Beating);
        StepSettles(old(At(Polling)), ready, writes, beat);
        Write(Heartbeat, writes);
        StepSettles(ready, View(), writes, beat);
      } else {
        StepSettles(old(At(Polling)), View(), writes, beat);
      }
    }

    method Write(line: Line, writes: bool)
      requires alive
      modifies this`output, this`alive
      ensures View() == if writes then Wrote(old(View()), line) else old(At(Dead))
    {
      if writes {
        output := output + [line];
      } else {
        alive := false;
      }
    }

    /** One turn of the loop. */
    method Turn(writes: bool, beat: bool)
      requires alive
      modifies this
      ensures View() == Settle(WriterStep(old(View()), writes, beat), writes, beat)
      ensures old(safety) == {} && old(commands) != [] && writes ==>
        alive && output == old(output) + [NormalLine(old(commands)[0])] && commands == old(commands)[1..]
      ensures old(Inv(View())) ==> Inv(View())
    {
      hide Inv;
      if Inv(View()) {
        TurnKeeps(View(), writes, beat);
      }
      if safety != {} {
        pendingNormal := None;
        Drain(writes, beat);
        WriteSafety(writes, beat);
      } else {
        WriteNormal(writes, beat);
      }
    }
  }
}
