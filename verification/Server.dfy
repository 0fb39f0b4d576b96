/**
 The loopback server around the controller: per-connection readers and writers,
 a bounded inbox, and one worker that owns every bus operation. Each function
 below is one indivisible step of one thread; a run interleaves them freely.
 */
module Server {
  import opened Wrappers
  import opened HubTrace
  import opened HubCore

  const CAPACITY := 64

  datatype Envelope = Envelope(id: nat, timeoutMs: nat, nonce: string, request: Request)

  datatype Reply = Reply(id: nat, answer: Answer, nonce: string)

  /** `arrival` numbers the events in the order the inbox took them in. */
  datatype Queued =
    | Register(session: string, app: string, arrival: nat)
    | Command(session: string, envelope: Envelope, arrival: nat)

  /** What the worker alone reads and writes. */
  datatype Work = Work(core: State, sessions: map<string, string>, pending: seq<Queued>)

  /**
   One connection: its alive flag, the turn token the next envelope must present,
   the envelope its reader has taken but not yet queued, the one-place reply slot.
   */
  datatype Connection = Connection(alive: bool, turn: Option<string>, hand: Option<Envelope>, slot: Option<Reply>,
      lastId: nat)

  /** The record of one command leaving the queue. */
  datatype Dispatch = Dispatch(command: Queued, answer: Answer)

  datatype Hub = Hub(
    work: Work,
    inbox: seq<Queued>,
    conns: map<string, Connection>,
    executing: Option<(string, Reply)>,
    lost: set<string>,
    arrivals: nat,
    accepted: seq<(string, Envelope)>,
    dispatched: seq<Dispatch>,
    delivered: seq<(string, Reply)>)

  /** A WRITE of one of the two OFF command forms. */
  predicate OffRequest(request: Request) {
    request.Transfer? && request.operation == "WRITE" && request.payload in {":OUTP OFF\n", "O0;E\n"}
  }

  predicate Urgent(sessions: map<string, string>, e: Queued) {
    e.Command? && e.session in sessions && OffRequest(e.envelope.request)
  }

  /** The first OFF of a registered session if there is one, otherwise the front. */
  function Pick(w: Work): (k: nat)
    requires w.pending != []
    ensures k < |w.pending|
    ensures k != 0 ==> Urgent(w.sessions, w.pending[k])
    ensures (exists i :: 0 <= i < |w.pending| && Urgent(w.sessions, w.pending[i])) ==>
      Urgent(w.sessions, w.pending[k]) && forall i | 0 <= i < k :: !Urgent(w.sessions, w.pending[i])
  {
    var first := FirstUrgent(w.sessions, w.pending);
    if first < |w.pending| then first else 0
  }

  function FirstUrgent(sessions: map<string, string>, pending: seq<Queued>): (k: nat)
    ensures k <= |pending|
    ensures k < |pending| ==> Urgent(sessions, pending[k])
    ensures forall i | 0 <= i < k :: !Urgent(sessions, pending[i])
  {
    if pending == [] || Urgent(sessions, pending[0]) then 0
    else 1 + FirstUrgent(sessions, pending[1..])
  }

  function Without<T>(s: seq<T>, k: nat): seq<T>
    requires k < |s|
  {
    s[..k] + s[k + 1..]
  }

  /** Take one event off the queue and act on it; commands yield an answer. */
  function Handle(w: Work, alive: set<string>, expired: bool, remainingMs: nat, envs: Environments)
    : (Work, Option<Answer>)
    requires w.pending != []
  {
    var e := w.pending[Pick(w)];
    var w1 := w.(pending := Without(w.pending, Pick(w)));
    match e
    case Register(session, app, _) => (w1.(sessions := w.sessions[session := app]), None)
    case Command(session, envelope, _) =>
      if session !in w.sessions then (w1, Some(Err(ConnectionLost)))
      else if session !in alive then (w1, Some(Err(Cancelled)))
      else if expired then (w1, Some(Err(Deadline)))
      else
        var (core, answer) := Serve(w.core, session, w.sessions[session], envelope.request, remainingMs, envs);
        (w1.(core := core), Some(answer))
  }

  function DropSession(w: Work, session: string, envs: Environments): Work {
    w.(core := Disconnect(w.core, session, true, envs).0, sessions := w.sessions - {session})
  }

  /** The top of the worker's loop: sessions found dead are cut off one after the other. */
  function DropSessions(w: Work, lost: seq<string>, envs: Environments): Work
    decreases |lost|
  {
    if lost == [] then w else DropSessions(DropSession(w, lost[0], envs), lost[1..], envs)
  }

  /** The loop after the stop flag: every session is cut off and cleaned up. */
  function DisconnectAll(core: State, order: seq<string>, envs: string -> Environments): State
    decreases |order|
  {
    if order == [] then core
    else DisconnectAll(Disconnect(core, order[0], true, envs(order[0])).0, order[1..], envs)
  }

  predicate ValidModel(model: string) {
    |model| <= 128 && '\r' !in model && '\n' !in model
    && exists i | 0 <= i < |model| :: model[i] != ' ' && model[i] != '\t'
  }

  predicate ValidRequest(request: Request) {
    match request
    case Claim(a, policy) => ValidAddress(a) && (policy.Source? ==> ValidModel(policy.model))
    case Transfer(operation, a, timeoutMs, payload) =>
      && ValidAddress(a) && 1 <= timeoutMs <= 30000 && |payload| <= MAX_PAYLOAD
      && (ClientOperation(operation) || operation == "REN")
    case Release(a) => ValidAddress(a)
    case Recover(a, model) => ValidAddress(a) && ValidModel(model)
    case _ => true
  }

  predicate ValidNonce(nonce: string) {
    0 < |nonce| <= 128 && '\r' !in nonce && '\n' !in nonce
  }

  predicate ValidEnvelope(e: Envelope) {
    1 <= e.timeoutMs <= 30000 && ValidNonce(e.nonce) && ValidRequest(e.request)
  }

  datatype Step =
    | Open(session: string, app: string, nonce: string)
    | Read(session: string, envelope: Envelope)
    | Enqueue(session: string)
    | Die(session: string)
    | Write(session: string, nonce: string, written: bool)
    | Admit
    | Begin(expired: bool, remainingMs: nat, envs: Environments)
    | Finish
    | Lose(session: string, envs: Environments)

  function Alive(h: Hub): set<string> {
    set s | s in h.conns && h.conns[s].alive
  }

  predicate Enabled(h: Hub, step: Step) {
    match step
    case Open(s, _, _) => s !in h.conns
    case Read(s, _) => s in h.conns && h.conns[s].alive && h.conns[s].hand.None?
    case Enqueue(s) => s in h.conns && h.conns[s].hand.Some?
    case Die(s) => s in h.conns
    case Write(s, _, _) => s in h.conns && h.conns[s].slot.Some?
    case Admit => h.inbox != [] && |h.work.pending| < CAPACITY
    case Begin(_, _, _) => h.work.pending != [] && h.executing.None?
    case Finish => h.executing.Some?
    case Lose(s, _) => s in h.work.sessions && s in h.conns && !h.conns[s].alive && h.executing.None?
  }

  function With(h: Hub, session: string, c: Connection): Hub {
    h.(conns := h.conns[session := c])
  }

  predicate Accepts(c: Connection, e: Envelope) {
    ValidEnvelope(e) && e.id > c.lastId && c.turn == Some(e.nonce)
  }

  function Next(h: Hub, step: Step): Hub
    requires Enabled(h, step)
  {
    if step.Begin? then
      var (work, answer) := Handle(h.work, Alive(h), step.expired, step.remainingMs, step.envs);
      Record(h, h.work.pending[Pick(h.work)], work, answer)
    else if step.Lose? then
      h.(work := DropSession(h.work, step.session, step.envs), lost := h.lost + {step.session})
    else Local(h, step)
  }

  /** The worker has handled `e`: a command's answer is now on its way back. */
  function Record(h: Hub, e: Queued, work: Work, answer: Option<Answer>): Hub {
    if e.Register? || answer.None? then h.(work := work)
    else h.(work := work,
            executing := Some((e.session, Reply(e.envelope.id, answer.value, ""))),
            dispatched := h.dispatched + [Dispatch(e, answer.value)])
  }

  /** The reader has a frame: it must be valid, newer than the last, and hold the turn. */
  function TakeTurn(c: Connection, e: Envelope): Connection {
    if Accepts(c, e) then c.(turn := None, hand := Some(e), lastId := e.id) else c.(alive := false)
  }

  /** The writer grants the next turn, which only the reply it then writes discloses. */
  function GiveTurn(c: Connection, nonce: string, written: bool): Connection {
    c.(turn := Some(nonce), slot := None, alive := c.alive && written)
  }

  /** The steps that leave the controller alone. */
  function Local(h: Hub, step: Step): Hub
    requires Enabled(h, step) && !step.Begin? && !step.Lose?
  {
    match step
    case Open(s, app, nonce) =>
      // A full inbox turns the connection away before it has a session.
      if |h.inbox| >= CAPACITY then h
      else With(h, s, Connection(true, Some(nonce), None, None, 0))
           .(inbox := h.inbox + [Register(s, app, h.arrivals)], arrivals := h.arrivals + 1)
    case Read(s, e) =>
      var t := With(h, s, TakeTurn(h.conns[s], e));
      if Accepts(h.conns[s], e) then t.(accepted := h.accepted + [(s, e)]) else t
    case Enqueue(s) =>
      var c := h.conns[s];
      if |h.inbox| < CAPACITY then
        With(h, s, c.(hand := None))
        .(inbox := h.inbox + [Command(s, c.hand.value, h.arrivals)], arrivals := h.arrivals + 1)
      else With(h, s, c.(hand := None, alive := false))
    case Die(s) => With(h, s, h.conns[s].(alive := false))
    case Write(s, nonce, written) =>
      var t := With(h, s, GiveTurn(h.conns[s], nonce, written));
      if written then t.(delivered := h.delivered + [(s, h.conns[s].slot.value.(nonce := nonce))]) else t
    case Admit =>
      h.(work := h.work.(pending := h.work.pending + [h.inbox[0]]), inbox := h.inbox[1..])
    case Finish =>
      var (s, reply) := h.executing.value;
      var h1 := h.(executing := None);
      // A full slot would lose the reply rather than block the worker.
      if s in h.conns && h.conns[s].slot.None? then With(h1, s, h.conns[s].(slot := Some(reply))) else h1
  }

  /** The service as it starts: no connections, whatever the controller loaded. */
  function Start(core: State): Hub {
    Hub(Work(core, map[], []), [], map[], None, {}, 0, [], [], [])
  }

  ghost predicate Runnable(h: Hub, steps: seq<Step>)
    decreases |steps|
  {
    steps != [] ==> Enabled(h, steps[0]) && Runnable(Next(h, steps[0]), steps[1..])
  }

  ghost function Run(h: Hub, steps: seq<Step>): Hub
    requires Runnable(h, steps)
    decreases |steps|
  {
    if steps == [] then h else Run(Next(h, steps[0]), steps[1..])
  }
}
