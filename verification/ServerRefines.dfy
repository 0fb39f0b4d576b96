/**
 The service around the controller adds nothing to it: every service run is a run of the controller, and every
 answer sent back is the controller's own, unless the command came too late to be handed to it.
 */
module ServerRefines {
  import opened Wrappers
  import opened HubTrace
  import opened HubCore
  import HubRuns
  import HubSafety
  import HubCleanup
  import opened Server
  import opened ServerSafety

  /** The command the worker picks in this step, if it picks one. */
  function Picked(h: Hub, step: Step): Option<Queued>
    requires Enabled(h, step)
  {
    if step.Begin? && h.work.pending[Pick(h.work)].Command? then Some(h.work.pending[Pick(h.work)]) else None
  }

  /** Why a command is not handed to the controller: its session is gone, its connection dead, its time over. */
  function TooLate(h: Hub, step: Step): Option<ErrorCode>
    requires Enabled(h, step) && Picked(h, step).Some?
  {
    var s := Picked(h, step).value.session;
    if s !in h.work.sessions then Some(ConnectionLost)
    else if !(s in h.conns && h.conns[s].alive) then Some(Cancelled)
    else if step.expired then Some(Deadline)
    else None
  }

  /** What a step of the service asks of the controller. */
  function Moves(h: Hub, step: Step): seq<HubRuns.Step>
    requires Enabled(h, step)
  {
    if step.Lose? then [HubRuns.Act(HubRuns.Drop(step.session, step.envs))]
    else if Picked(h, step).Some? && TooLate(h, step).None? then
      var e := Picked(h, step).value;
      [HubRuns.Act(HubRuns.Handle(e.session, h.work.sessions[e.session], e.envelope.request, step.remainingMs,
          step.envs))]
    else []
  }

  ghost function History(h: Hub, steps: seq<Step>): seq<HubRuns.Step>
    requires Runnable(h, steps)
    decreases |steps|
  {
    if steps == [] then [] else Moves(h, steps[0]) + History(Next(h, steps[0]), steps[1..])
  }

  lemma StepRefines(h: Hub, step: Step)
    requires Enabled(h, step)
    ensures HubRuns.Runnable(h.work.core, Moves(h, step))
    ensures HubRuns.Run(h.work.core, Moves(h, step)) == Next(h, step).work.core
  {
    hide Serve, Disconnect;
    if Moves(h, step) != [] {
      assert Moves(h, step)[1..] == [];
    }
  }

  lemma {:induction false} RunsJoin(s: State, first: seq<HubRuns.Step>, rest: seq<HubRuns.Step>)
    requires HubRuns.Runnable(s, first) && HubRuns.Runnable(HubRuns.Run(s, first), rest)
    ensures HubRuns.Runnable(s, first + rest)
    ensures HubRuns.Run(s, first + rest) == HubRuns.Run(HubRuns.Run(s, first), rest)
    decreases |first|
  {
    if first == [] {
      assert first + rest == rest;
    } else {
      assert (first + rest)[1..] == first[1..] + rest;
      RunsJoin(HubRuns.After(s, first[0]), first[1..], rest);
    }
  }

  /** Every run of the service is, seen from the controller, the run of what was handed to it. */
  lemma {:induction false} ServiceRefinesController(h: Hub, steps: seq<Step>)
    requires Runnable(h, steps)
    ensures HubRuns.Runnable(h.work.core, History(h, steps))
    ensures HubRuns.Run(h.work.core, History(h, steps)) == Run(h, steps).work.core
    decreases |steps|
  {
    hide Next, Moves;
    if steps != [] {
      StepRefines(h, steps[0]);
      ServiceRefinesController(Next(h, steps[0]), steps[1..]);
      RunsJoin(h.work.core, Moves(h, steps[0]), History(Next(h, steps[0]), steps[1..]));
    }
  }

  /** In state `p` the worker takes command `d` in `step` and gives the recorded answer. */
  ghost predicate AnsweredIn(p: Hub, step: Step, d: Dispatch) {
    && Enabled(p, step) && Picked(p, step) == Some(d.command)
    && var e := d.command;
       if TooLate(p, step).Some? then
         d.answer == Err(TooLate(p, step).value) && Next(p, step).work.core == p.work.core
       else
         (Next(p, step).work.core, d.answer) ==
         Serve(p.work.core, e.session, p.work.sessions[e.session], e.envelope.request, step.remainingMs, step.envs)
  }

  lemma StepAnswers(h: Hub, step: Step)
    requires Enabled(h, step)
    ensures var t := Next(h, step);
      && h.dispatched <= t.dispatched
      && (Picked(h, step).None? ==> t.dispatched == h.dispatched)
      && (Picked(h, step).Some? ==>
            |t.dispatched| == |h.dispatched| + 1 && AnsweredIn(h, step, t.dispatched[|h.dispatched|]))
  {
    hide Serve, Disconnect;
  }

  lemma {:induction false} DispatchesGrow(h: Hub, steps: seq<Step>)
    requires Runnable(h, steps)
    ensures h.dispatched <= Run(h, steps).dispatched
    decreases |steps|
  {
    hide Next;
    if steps != [] {
      StepAnswers(h, steps[0]);
      DispatchesGrow(Next(h, steps[0]), steps[1..]);
    }
  }

  /** `k` is the step of the run in which dispatch number `i` happened. */
  ghost predicate DispatchedBy(h: Hub, steps: seq<Step>, i: nat, k: nat)
    requires Runnable(h, steps)
  {
    && k < |steps| && Runnable(h, steps[..k]) && i < |Run(h, steps).dispatched|
    && |Run(h, steps[..k]).dispatched| == i
    && AnsweredIn(Run(h, steps[..k]), steps[k], Run(h, steps).dispatched[i])
  }

  /**
   Every answer on record is the one the controller gave in the state the run had reached, or names why the
   command was not handed to it.
   */
  lemma {:induction false} AnswersAreTheControllers(h: Hub, steps: seq<Step>, i: nat) returns (k: nat)
    requires Runnable(h, steps) && |h.dispatched| <= i < |Run(h, steps).dispatched|
    ensures DispatchedBy(h, steps, i, k)
    decreases |steps|
  {
    hide Next, AnsweredIn;
    StepAnswers(h, steps[0]);
    var t, rest := Next(h, steps[0]), steps[1..];
    if i < |t.dispatched| {
      k := 0;
      DispatchesGrow(t, rest);
      assert steps[..0] == [];
    } else {
      var later := AnswersAreTheControllers(t, rest, i);
      k := later + 1;
      assert steps[..k][0] == steps[0] && steps[..k][1..] == rest[..later];
    }
  }

  /** What a command did to the trace stays in the trace of every later state. */
  lemma {:induction false} TraceGrows(s: State, steps: seq<HubRuns.Step>)
    requires HubSafety.Inv(s) && HubRuns.Runnable(s, steps) && forall i | 0 <= i < |steps| :: steps[i].Act?
    ensures Prefix(s.trace, HubRuns.Run(s, steps).trace)
    decreases |steps|
  {
    hide HubSafety.Inv, HubRuns.Perform;
    if steps != [] {
      var t := HubRuns.After(s, steps[0]);
      HubRuns.AfterKeeps(s, steps[0]);
      PerformExtends(s, steps[0].action);
      TraceGrows(t, steps[1..]);
      PrefixTransitive(s.trace, t.trace, HubRuns.Run(s, steps).trace);
    }
  }

  lemma PerformExtends(s: State, action: HubRuns.Action)
    requires HubSafety.Inv(s)
    ensures Prefix(s.trace, HubRuns.Perform(s, action).trace)
  {
    HubCleanup.PerformExtends(s, action);
  }
}
