/**
 One client and the service together. The client's frames reach its connection in the
 order they were sent, if at all; every other connection, the worker and the bus are free.
 */
module ServerClient {
  import opened Wrappers
  import opened HubCore
  import opened Server
  import opened ServerSafety
  import opened ServerTurns
  import opened ServerRuns
  import opened HubClient
  import HubSafety

  /** A call under way: its frame is sent, its reply not yet read. */
  datatype Pending = Pending(request: HubCore.Request, timeoutUs: nat, envelope: Envelope)

  /** A call that returned: what was asked, the frame sent, the answer returned. */
  datatype Done = Done(request: HubCore.Request, envelope: Envelope, answer: Answer)

  /** `sent` are the client's frames and `taken` how many of them its connection's reader took. */
  datatype World = World(
    hub: Hub, session: string, client: ClientState, calling: Option<Pending>,
    sent: seq<Envelope>, taken: nat, done: seq<Done>)

  datatype Action =
    | Service(step: Step)
    | Ask(request: HubCore.Request, timeoutUs: nat)
    | Return(exchange: Result<Reply, ErrorCode>)

  /** The frame a call sends, whatever comes back. */
  function Frame(c: ClientState, request: HubCore.Request, timeoutUs: nat): Option<Envelope> {
    Exchange(c, request, timeoutUs, Err(ConnectionLost)).1
  }

  predicate Allowed(w: World, a: Action) {
    match a
    case Service(step) =>
      && Enabled(w.hub, step)
      && (step.Read? && step.session == w.session ==> w.taken < |w.sent| && step.envelope == w.sent[w.taken])
    case Ask(_, _) => w.calling.None?
    case Return(exchange) => w.calling.Some? && (exchange.Ok? ==> (w.session, exchange.value) in w.hub.delivered)
  }

  function Act(w: World, a: Action): World
    requires Allowed(w, a)
  {
    match a
    case Service(step) =>
      w.(hub := Next(w.hub, step), taken := w.taken + if step.Read? && step.session == w.session then 1 else 0)
    case Ask(request, timeoutUs) =>
      var frame := Frame(w.client, request, timeoutUs);
      if frame.None? then w.(client := Exchange(w.client, request, timeoutUs, Err(ConnectionLost)).0)
      else w.(calling := Some(Pending(request, timeoutUs, frame.value)), sent := w.sent + [frame.value])
    case Return(exchange) =>
      var p := w.calling.value;
      var (client, _, answer) := Exchange(w.client, p.request, p.timeoutUs, exchange);
      w.(client := client, calling := None, done := w.done + [Done(p.request, p.envelope, answer)])
  }

  ghost predicate Possible(w: World, actions: seq<Action>)
    decreases |actions|
  {
    actions != [] ==> Allowed(w, actions[0]) && Possible(Act(w, actions[0]), actions[1..])
  }

  ghost function Play(w: World, actions: seq<Action>): World
    requires Possible(w, actions)
    decreases |actions|
  {
    if actions == [] then w else Play(Act(w, actions[0]), actions[1..])
  }

  /** A client about to make its first call on a service without connections. */
  function Opening(core: State, session: string, nonce: string): World {
    World(Start(core), session, ClientState(true, nonce, 1), None, [], 0, [])
  }

  // ---- What every action keeps ----

  /** Ids never repeat; the call under way sent the newest frame. */
  ghost predicate Numbered(w: World) {
    && (forall i, j | 0 <= i < j < |w.sent| :: w.sent[i].id < w.sent[j].id)
    && (if w.calling.None? then forall i | 0 <= i < |w.sent| :: w.sent[i].id < w.client.nextId
        else
          && Frame(w.client, w.calling.value.request, w.calling.value.timeoutUs) == Some(w.calling.value.envelope)
          && w.sent != [] && w.sent[|w.sent| - 1] == w.calling.value.envelope)
  }

  /** What the service accepted on the connection, the client had sent. */
  ghost predicate FromClient(w: World) {
    forall i | 0 <= i < |w.hub.accepted| && w.hub.accepted[i].0 == w.session :: w.hub.accepted[i].1 in w.sent
  }

  /** Dispatch `i` is the only one of this frame of the session, and gave this answer. */
  ghost predicate OnlyDispatch(h: Hub, s: string, d: Done, i: nat) {
    && i < |h.dispatched| && h.dispatched[i].command.Command?
    && h.dispatched[i].command.session == s && h.dispatched[i].command.envelope == d.envelope
    && h.dispatched[i].answer == d.answer
    && forall k | 0 <= k < |h.dispatched| && h.dispatched[k].command.Command? && h.dispatched[k].command.session == s
                  && h.dispatched[k].command.envelope == d.envelope :: k == i
  }

  ghost predicate Answered(w: World) {
    && (forall n | 0 <= n < |w.done| && w.done[n].answer.Ok? ::
          exists i :: OnlyDispatch(w.hub, w.session, w.done[n], i))
    && (forall n | 0 <= n < |w.done| :: w.done[n].envelope.request == w.done[n].request)
  }

  ghost predicate WorldInv(w: World) {
    Inv(w.hub) && Numbered(w) && FromClient(w) && Answered(w)
  }

  /** An earlier dispatch stays the only one of its frame. */
  lemma DispatchStays(h: Hub, t: Hub, s: string, d: Done, i: nat)
    requires Inv(t) && h.dispatched <= t.dispatched && OnlyDispatch(h, s, d, i)
    ensures OnlyDispatch(t, s, d, i)
  {
    hide Registration, Leases, OneToken, Envelopes, Accepted, Replies, InOrder;
    assert t.dispatched[i] == h.dispatched[i];
  }

  lemma ServiceOnlyAdds(h: Hub, step: Step)
    requires Enabled(h, step)
    ensures var t := Next(h, step);
      && h.dispatched <= t.dispatched
      && t.accepted == if step.Read? && Accepts(h.conns[step.session], step.envelope)
                       then h.accepted + [(step.session, step.envelope)] else h.accepted
  {
    EveryStepHasShape(h, step);
  }

  lemma ServiceKeeps(w: World, step: Step)
    requires WorldInv(w) && Allowed(w, Service(step))
    ensures WorldInv(Act(w, Service(step)))
  {
    hide Next, Inv;
    var t := Act(w, Service(step));
    NextKeeps(w.hub, step);
    ServiceOnlyAdds(w.hub, step);
    forall n | 0 <= n < |t.done| && t.done[n].answer.Ok?
      ensures exists i :: OnlyDispatch(t.hub, t.session, t.done[n], i)
    {
      var i :| OnlyDispatch(w.hub, w.session, w.done[n], i);
      DispatchStays(w.hub, t.hub, w.session, w.done[n], i);
    }
    assert FromClient(t);
  }

  lemma AskKeeps(w: World, request: HubCore.Request, timeoutUs: nat)
    requires WorldInv(w) && Allowed(w, Ask(request, timeoutUs))
    ensures WorldInv(Act(w, Ask(request, timeoutUs)))
  {
    hide Inv, OnlyDispatch;
    var t := Act(w, Ask(request, timeoutUs));
    assert w.sent <= t.sent;
    forall e | e in w.sent ensures e in t.sent {
    }
  }

  /** A reply with the id of a frame answers the dispatch of that frame. */
  lemma ReplyIsOfTheFrame(w: World, reply: Reply) returns (i: nat)
    requires WorldInv(w) && w.calling.Some? && (w.session, reply) in w.hub.delivered
    requires reply.id == w.calling.value.envelope.id
    ensures OnlyDispatch(w.hub, w.session, Done(w.calling.value.request, w.calling.value.envelope, reply.answer), i)
  {
    hide Registration, Leases, OneToken, Envelopes, InOrder, Answered, Frame;
    var h, s, e := w.hub, w.session, w.calling.value.envelope;
    var n :| 0 <= n < |h.delivered| && h.delivered[n] == (s, reply);
    assert Backed(h, s, reply);
    i :| 0 <= i < |h.dispatched| && h.dispatched[i].command.Command? && h.dispatched[i].command.session == s
         && h.dispatched[i].command.envelope.id == reply.id && h.dispatched[i].answer == reply.answer;
    assert DispatchedFits(h, h.dispatched[i].command);
    SameIdSameFrame(w, h.dispatched[i].command.envelope);
    forall k | 0 <= k < |h.dispatched| && h.dispatched[k].command.Command? && h.dispatched[k].command.session == s
               && h.dispatched[k].command.envelope == e
      ensures k == i
    {
      assert DispatchedFits(h, h.dispatched[k].command);
    }
  }

  lemma SameIdSameFrame(w: World, f: Envelope)
    requires Numbered(w) && FromClient(w) && w.calling.Some?
    requires (w.session, f) in w.hub.accepted && f.id == w.calling.value.envelope.id
    ensures f == w.calling.value.envelope
  {
    var n :| 0 <= n < |w.hub.accepted| && w.hub.accepted[n] == (w.session, f);
    assert f in w.sent;
    var j :| 0 <= j < |w.sent| && w.sent[j] == f;
  }

  lemma ReturnKeeps(w: World, exchange: Result<Reply, ErrorCode>)
    requires WorldInv(w) && Allowed(w, Return(exchange))
    ensures WorldInv(Act(w, Return(exchange)))
  {
    hide Inv, OnlyDispatch;
    var t := Act(w, Return(exchange));
    var last := t.done[|w.done|];
    if last.answer.Ok? {
      var i := ReplyIsOfTheFrame(w, exchange.value);
      assert OnlyDispatch(t.hub, t.session, last, i);
    }
    forall n | 0 <= n < |t.done| && t.done[n].answer.Ok?
      ensures exists i :: OnlyDispatch(t.hub, t.session, t.done[n], i)
    {
      if n < |w.done| {
        assert t.done[n] == w.done[n];
      }
    }
  }

  lemma {:induction false} PlayKeeps(w: World, actions: seq<Action>)
    requires WorldInv(w) && Possible(w, actions)
    ensures WorldInv(Play(w, actions))
    decreases |actions|
  {
    hide WorldInv, Allowed, Act;
    if actions != [] {
      match actions[0] {
        case Service(step) => ServiceKeeps(w, step);
        case Ask(request, timeoutUs) => AskKeeps(w, request, timeoutUs);
        case Return(exchange) => ReturnKeeps(w, exchange);
      }
      PlayKeeps(Act(w, actions[0]), actions[1..]);
    }
  }

  /**
   Whatever the service, the other clients, the bus and the network do: a call that returned Ok
   returned the answer of the one and only dispatch of the very frame it sent.
   */
  lemma OkIsTheDispatchOfThatCall(core: State, session: string, nonce: string, actions: seq<Action>, n: nat)
    requires HubSafety.Inv(core) && core.owners == map[] && Possible(Opening(core, session, nonce), actions)
    requires n < |Play(Opening(core, session, nonce), actions).done|
    requires Play(Opening(core, session, nonce), actions).done[n].answer.Ok?
    ensures var w := Play(Opening(core, session, nonce), actions);
      && w.done[n].envelope.request == w.done[n].request
      && exists i :: OnlyDispatch(w.hub, w.session, w.done[n], i)
  {
    StartHolds(core);
    assert WorldInv(Opening(core, session, nonce));
    PlayKeeps(Opening(core, session, nonce), actions);
  }
}
