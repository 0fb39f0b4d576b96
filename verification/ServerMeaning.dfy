/** What a client may conclude from an answer: the whole way from its call to the bus and back. */
module ServerMeaning {
  import opened Wrappers
  import opened HubTrace
  import opened HubCore
  import HubRuns
  import HubSafety
  import HubAnswers
  import opened Server
  import opened ServerSafety
  import opened ServerTurns
  import opened ServerRuns
  import opened ServerRefines
  import opened ServerClient
  import opened HubClient

  function Services(actions: seq<Action>): seq<Step> {
    if actions == [] then []
    else (if actions[0].Service? then [actions[0].step] else []) + Services(actions[1..])
  }

  /** With its client taken away, a play is a run of the service. */
  lemma {:induction false} PlayIsARun(w: World, actions: seq<Action>)
    requires Possible(w, actions)
    ensures Runnable(w.hub, Services(actions)) && Run(w.hub, Services(actions)) == Play(w, actions).hub
    decreases |actions|
  {
    hide Next, Server.Enabled;
    if actions != [] {
      PlayIsARun(Act(w, actions[0]), actions[1..]);
      if actions[0].Service? {
        assert Services(actions)[0] == actions[0].step && Services(actions)[1..] == Services(actions[1..]);
      } else {
        assert Services(actions) == Services(actions[1..]);
      }
    }
  }

  lemma {:induction false} SplitRun(h: Hub, steps: seq<Step>, k: nat)
    requires Runnable(h, steps) && k < |steps|
    ensures Runnable(h, steps[..k])
    ensures var p := Run(h, steps[..k]);
      && Server.Enabled(p, steps[k])
      && Runnable(Next(p, steps[k]), steps[k + 1..])
      && Run(Next(p, steps[k]), steps[k + 1..]) == Run(h, steps)
    decreases |steps|
  {
    hide Next, Server.Enabled;
    if k == 0 {
      assert steps[..0] == [];
    } else {
      SplitRun(Next(h, steps[0]), steps[1..], k - 1);
      assert steps[..k][0] == steps[0] && steps[..k][1..] == steps[1..][..k - 1] && steps[k..] == steps[1..][k - 1..];
    }
  }

  /** The controller was asked `e` in `p`, and after `q` its bus and journal went on from there to `end`. */
  ghost predicate CarriedOut(p: State, q: State, end: State, session: string, request: HubCore.Request,
      reply: Payload)
  {
    && HubSafety.Inv(p) && Prefix(q.trace, end.trace)
    && HubAnswers.Effect(p, q, session, request, reply)
  }

  lemma DispatchWasCarriedOut(core: State, steps: seq<Step>, i: nat) returns (k: nat)
    requires HubSafety.Inv(core) && core.owners == map[] && Runnable(Start(core), steps)
    requires i < |Run(Start(core), steps).dispatched| && Run(Start(core), steps).dispatched[i].answer.Ok?
    ensures DispatchedBy(Start(core), steps, i, k)
    ensures Runnable(Start(core), steps[..k]) && k < |steps| && Server.Enabled(Run(Start(core), steps[..k]), steps[k])
    ensures var h := Run(Start(core), steps);
      var d := h.dispatched[i];
      var p := Run(Start(core), steps[..k]);
      d.command.Command? &&
      CarriedOut(p.work.core, Next(p, steps[k]).work.core, h.work.core, d.command.session, d.command.envelope.request,
                 d.answer.value)
  {
    hide Next, HubSafety.Inv, Serve, HubAnswers.Effect, Registration, OneToken, Envelopes, Accepted, Dispatched,
         Replies, InOrder;
    k := AnswersAreTheControllers(Start(core), steps, i);
    SplitRun(Start(core), steps, k);
    var p := Run(Start(core), steps[..k]);
    var q := Next(p, steps[k]);
    var d := Run(Start(core), steps).dispatched[i];
    var e := d.command;
    StartHolds(core);
    ServerRuns.RunKeeps(Start(core), steps[..k]);
    NextKeeps(p, steps[k]);
    HubAnswers.OkHasItsEffect(p.work.core, e.session, p.work.sessions[e.session], e.envelope.request,
        steps[k].remainingMs, steps[k].envs);
    ServiceRefinesController(q, steps[k + 1..]);
    HistoryActs(q, steps[k + 1..]);
    TraceGrows(q.work.core, History(q, steps[k + 1..]));
  }

  lemma {:induction false} HistoryActs(h: Hub, steps: seq<Step>)
    requires Runnable(h, steps)
    ensures forall i | 0 <= i < |History(h, steps)| :: History(h, steps)[i].Act?
    decreases |steps|
  {
    hide Next;
    if steps != [] {
      HistoryActs(Next(h, steps[0]), steps[1..]);
    }
  }

  /**
   Whatever the service, the other clients, the bus and the network do: a call that returned Ok returned the
   answer of the one and only dispatch of the very frame it sent, and in that dispatch the controller carried the
   request out. An Ok claim is a lease granted or already held, an Ok transfer one message on the bus, an Ok
   release or recovery a source switched off and out of every journal.
   */
  lemma OkMeansItWasDone(core: State, session: string, nonce: string, actions: seq<Action>, n: nat)
    returns (i: nat, k: nat)
    requires HubSafety.Inv(core) && core.owners == map[] && Possible(Opening(core, session, nonce), actions)
    requires n < |Play(Opening(core, session, nonce), actions).done|
    requires Play(Opening(core, session, nonce), actions).done[n].answer.Ok?
    ensures Runnable(Start(core), Services(actions))
    ensures var w := Play(Opening(core, session, nonce), actions);
      OnlyDispatch(w.hub, session, w.done[n], i) && DispatchedBy(Start(core), Services(actions), i, k)
    ensures Runnable(Start(core), Services(actions)[..k]) && k < |Services(actions)|
      && Server.Enabled(Run(Start(core), Services(actions)[..k]), Services(actions)[k])
    ensures var w := Play(Opening(core, session, nonce), actions);
      var p := Run(Start(core), Services(actions)[..k]);
      CarriedOut(p.work.core, Next(p, Services(actions)[k]).work.core, w.hub.work.core, session,
                 w.done[n].request, w.done[n].answer.value)
  {
    hide HubSafety.Inv, Next, Act, Allowed, CarriedOut, DispatchedBy;
    var w0 := Opening(core, session, nonce);
    OkIsTheDispatchOfThatCall(core, session, nonce, actions, n);
    SessionStays(w0, actions);
    var w := Play(w0, actions);
    i :| OnlyDispatch(w.hub, w.session, w.done[n], i);
    PlayIsARun(w0, actions);
    k := DispatchWasCarriedOut(core, Services(actions), i);
  }

  lemma {:induction false} SessionStays(w: World, actions: seq<Action>)
    requires Possible(w, actions)
    ensures Play(w, actions).session == w.session
    decreases |actions|
  {
    hide Next, Server.Enabled, Exchange, Allowed;
    if actions != [] {
      SessionStays(Act(w, actions[0]), actions[1..]);
    }
  }
}
