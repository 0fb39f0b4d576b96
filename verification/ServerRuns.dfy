/** Safety of the server over every run, and what a client may conclude from a reply. */
module ServerRuns {
  import opened Wrappers
  import opened HubCore
  import HubSafety
  import opened Server
  import opened ServerSafety
  import opened ServerTurns
  import opened HubClient

  predicate Ordinary(c: Queued) {
    c.Command? && !OffRequest(c.envelope.request)
  }

  /** Ordinary commands leave in arrival order: none waits behind a later one. */
  ghost predicate InOrder(h: Hub) {
    && (forall i, j | 0 <= i < |h.dispatched| && 0 <= j < |Queue(h)| && Ordinary(h.dispatched[i].command) ::
          h.dispatched[i].command.arrival < Queue(h)[j].arrival)
    && (forall i | 0 <= i < |h.dispatched| :: h.dispatched[i].command.arrival < h.arrivals)
    && (forall i, j | 0 <= i < j < |h.dispatched|
                      && Ordinary(h.dispatched[i].command) && Ordinary(h.dispatched[j].command) ::
          h.dispatched[i].command.arrival < h.dispatched[j].command.arrival)
  }

  lemma BeginKeepsOrder(h: Hub, step: Step, t: Hub)
    requires Registration(h) && InOrder(h) && Enabled(h, step) && Shape(h, step, t) && step.Begin?
    requires t.arrivals >= h.arrivals
    ensures InOrder(t)
  {
    var k := Pick(h.work);
    var q, r := Queue(h), Queue(t);
    forall j | 0 <= j < |r|
      ensures exists m :: 0 <= m < |q| && q[m] == r[j] && (k == 0 ==> m > 0)
    {
      WithoutIndex(q, k, j);
      assert q[if j < k then j else j + 1] == r[j];
    }
    assert q[k].arrival < h.arrivals;
    assert Ordinary(q[k]) ==> k == 0;
  }

  lemma OthersKeepOrder(h: Hub, step: Step, t: Hub)
    requires InOrder(h) && Enabled(h, step) && Shape(h, step, t) && !step.Begin?
    requires t.arrivals >= h.arrivals
    ensures InOrder(t)
  {
    assert t.dispatched == h.dispatched;
    forall j | |Queue(h)| <= j < |Queue(t)| ensures Queue(t)[j].arrival == h.arrivals {
    }
  }

  lemma InOrderKept(h: Hub, step: Step, t: Hub)
    requires Registration(h) && InOrder(h) && Enabled(h, step) && Shape(h, step, t)
    requires t.arrivals >= h.arrivals
    ensures InOrder(t)
  {
    if step.Begin? {
      BeginKeepsOrder(h, step, t);
    } else {
      OthersKeepOrder(h, step, t);
    }
  }

  ghost predicate Inv(h: Hub) {
    && Registration(h) && Leases(h.work) && OneToken(h)
    && Envelopes(h) && Accepted(h) && Dispatched(h) && Replies(h) && InOrder(h)
  }

  lemma NextKeeps(h: Hub, step: Step)
    requires Inv(h) && Enabled(h, step)
    ensures Inv(Next(h, step))
  {
    var t := Next(h, step);
    EveryStepHasShape(h, step);
    RegistrationKept(h, step);
    LeasesKept(h, step);
    OneTokenKept(h, step, t);
    EnvelopesKept(h, step, t);
    AcceptedKept(h, step, t);
    DispatchedKept(h, step, t);
    RepliesKept(h, step, t);
    ArrivalsGrow(h, step);
    InOrderKept(h, step, t);
  }

  lemma ArrivalsGrow(h: Hub, step: Step)
    requires Enabled(h, step)
    ensures Next(h, step).arrivals >= h.arrivals
  {
  }

  lemma {:induction false} RunKeeps(h: Hub, steps: seq<Step>)
    requires Inv(h) && Runnable(h, steps)
    ensures Inv(Run(h, steps))
    decreases |steps|
  {
    if steps != [] {
      NextKeeps(h, steps[0]);
      RunKeeps(Next(h, steps[0]), steps[1..]);
    }
  }

  lemma StartHolds(core: State)
    requires HubSafety.Inv(core) && core.owners == map[]
    ensures Inv(Start(core))
  {
    assert Queue(Start(core)) == [];
    assert Registration(Start(core)) && OneToken(Start(core));
    assert Envelopes(Start(core)) && Accepted(Start(core)) && Dispatched(Start(core));
    assert Replies(Start(core)) && InOrder(Start(core));
  }

  /**
   In every run: no connection has two commands (or a command and a reply, or a
   turn besides) between its reader and its writer; the queue stays within its
   bound; and every lease belongs to a registered session.
   */
  lemma OneOutstandingCommand(core: State, steps: seq<Step>, s: string)
    requires HubSafety.Inv(core) && core.owners == map[] && Runnable(Start(core), steps)
    ensures var h := Run(Start(core), steps);
      && (s in h.conns ==> Tokens(h, s) <= 1)
      && |h.work.pending| <= CAPACITY
      && (forall a | a in h.work.core.owners :: h.work.core.owners[a].session in h.work.sessions)
      && HubSafety.Inv(h.work.core)
  {
    hide Envelopes, Accepted, Dispatched, Replies, InOrder, HubSafety.Inv, Tokens;
    StartHolds(core);
    RunKeeps(Start(core), steps);
  }

  lemma DispatchOrder(h: Hub, i: nat, j: nat)
    requires Dispatched(h) && InOrder(h) && i < j < |h.dispatched|
    ensures var d, e := h.dispatched[i].command, h.dispatched[j].command;
      && d.Command? && e.Command?
      && (d.session == e.session ==> d.envelope.id < e.envelope.id)
      && (Ordinary(d) && Ordinary(e) ==> d.arrival < e.arrival)
  {
    assert DispatchedFits(h, h.dispatched[i].command) && DispatchedFits(h, h.dispatched[j].command);
  }

  /** In every run, OFF priority reorders neither one session's commands nor ordinary commands at all. */
  lemma PriorityReordersOnlyOffs(core: State, steps: seq<Step>)
    requires HubSafety.Inv(core) && core.owners == map[] && Runnable(Start(core), steps)
    ensures var log := Run(Start(core), steps).dispatched;
      forall i, j | 0 <= i < j < |log| :: var d, e := log[i].command, log[j].command;
        && d.Command? && e.Command?
        && (d.session == e.session ==> d.envelope.id < e.envelope.id)
        && (Ordinary(d) && Ordinary(e) ==> d.arrival < e.arrival)
  {
    hide Registration, Leases, OneToken, Envelopes, Accepted, Replies, HubSafety.Inv;
    StartHolds(core);
    RunKeeps(Start(core), steps);
    var h := Run(Start(core), steps);
    forall i, j | 0 <= i < j < |h.dispatched|
      ensures var d, e := h.dispatched[i].command, h.dispatched[j].command;
        && d.Command? && e.Command?
        && (d.session == e.session ==> d.envelope.id < e.envelope.id)
        && (Ordinary(d) && Ordinary(e) ==> d.arrival < e.arrival)
    {
      DispatchOrder(h, i, j);
    }
  }

  /** In every run, whatever is dispatched next is registered by then, unless its session was already lost. */
  lemma RegisteredBeforeDispatch(core: State, steps: seq<Step>)
    requires HubSafety.Inv(core) && core.owners == map[] && Runnable(Start(core), steps)
    ensures var h := Run(Start(core), steps);
      h.work.pending != [] && h.work.pending[Pick(h.work)].Command? ==>
        h.work.pending[Pick(h.work)].session in h.work.sessions || h.work.pending[Pick(h.work)].session in h.lost
  {
    StartHolds(core);
    RunKeeps(Start(core), steps);
    if Run(Start(core), steps).work.pending != [] {
      NoCommandBeforeItsRegistration(Run(Start(core), steps));
    }
  }

  lemma AcceptedIdsAreUnique(h: Hub, s: string, e: Envelope, f: Envelope)
    requires Accepted(h) && (s, e) in h.accepted && (s, f) in h.accepted && e.id == f.id
    ensures e == f
  {
    var i :| 0 <= i < |h.accepted| && h.accepted[i] == (s, e);
    var j :| 0 <= j < |h.accepted| && h.accepted[j] == (s, f);
    assert !(i < j) && !(j < i);
  }

  /**
   In every run, a client that sent `e` and returns Ok on a reply delivered to it
   holds the answer of exactly one dispatch, and that dispatch was of `e` itself.
   */
  lemma OkIsTheDispatchOfThatEnvelope(core: State, steps: seq<Step>, s: string, c: ClientState, request: Request,
      timeoutUs: nat, reply: Reply)
    returns (i: nat)
    requires HubSafety.Inv(core) && core.owners == map[] && Runnable(Start(core), steps)
    requires var h := Run(Start(core), steps);
      var (_, sent, answer) := Exchange(c, request, timeoutUs, Ok(reply));
      && answer.Ok? && (s, sent.value) in h.accepted && (s, reply) in h.delivered
    ensures var h := Run(Start(core), steps);
      var (_, sent, answer) := Exchange(c, request, timeoutUs, Ok(reply));
      && i < |h.dispatched| && h.dispatched[i].command.Command?
      && h.dispatched[i].command.session == s && h.dispatched[i].command.envelope == sent.value
      && h.dispatched[i].answer == answer
      && forall k | 0 <= k < |h.dispatched| && h.dispatched[k].command.Command? && h.dispatched[k].command.session == s
                    && h.dispatched[k].command.envelope == sent.value :: k == i
  {
    hide Registration, Leases, OneToken, Envelopes, InOrder, HubSafety.Inv;
    StartHolds(core);
    RunKeeps(Start(core), steps);
    var h := Run(Start(core), steps);
    var sent := Exchange(c, request, timeoutUs, Ok(reply)).1.value;
    var n :| 0 <= n < |h.delivered| && h.delivered[n] == (s, reply);
    assert Backed(h, s, reply);
    i :| 0 <= i < |h.dispatched| && h.dispatched[i].command.Command? && h.dispatched[i].command.session == s
         && h.dispatched[i].command.envelope.id == reply.id && h.dispatched[i].answer == reply.answer;
    assert DispatchedFits(h, h.dispatched[i].command);
    AcceptedIdsAreUnique(h, s, h.dispatched[i].command.envelope, sent);
    forall k | 0 <= k < |h.dispatched| && h.dispatched[k].command.Command? && h.dispatched[k].command.session == s
               && h.dispatched[k].command.envelope == sent
      ensures k == i
    {
      assert DispatchedFits(h, h.dispatched[k].command);
    }
  }

  /** The commands that switch an output off, as the two source dialects write them. */
  ghost predicate SwitchesOff(e: Queued) {
    e.Command? && exists a, timeoutMs, payload ::
      e.envelope.request == Transfer("WRITE", a, timeoutMs, payload) && payload in {":OUTP OFF\n", "O0;E\n"}
  }

  /** While an OFF of a registered session is pending the first of them goes next, otherwise the oldest event. */
  lemma OffsGoFirst(w: Work)
    requires w.pending != []
    ensures var k := Pick(w);
      if exists i :: 0 <= i < |w.pending| && w.pending[i].session in w.sessions && SwitchesOff(w.pending[i]) then
        && SwitchesOff(w.pending[k]) && w.pending[k].session in w.sessions
        && forall i | 0 <= i < k && w.pending[i].session in w.sessions :: !SwitchesOff(w.pending[i])
      else k == 0
  {
    forall e: Queued ensures Urgent(w.sessions, e) <==> e.session in w.sessions && SwitchesOff(e) {
      if Urgent(w.sessions, e) {
        var r := e.envelope.request;
        assert r == Transfer("WRITE", r.address, r.timeoutMs, r.payload);
      }
    }
  }
}
