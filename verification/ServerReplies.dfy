/** Nothing is lost on a live connection: its one token never vanishes, and a returned turn means a delivered reply. */
module ServerReplies {
  import opened Wrappers
  import opened HubCore
  import HubSafety
  import opened Server
  import opened ServerSafety
  import opened ServerTurns
  import opened ServerRuns

  /** A live connection always holds its turn, or its command or reply is on the way. */
  ghost predicate Conserved(h: Hub) {
    forall s | s in h.conns && h.conns[s].alive :: Tokens(h, s) == 1
  }

  /** A reply to frame `id` of the session was delivered and disclosed `nonce`. */
  ghost predicate Replied(h: Hub, s: string, id: nat, nonce: string) {
    exists n :: 0 <= n < |h.delivered| && h.delivered[n].0 == s && h.delivered[n].1.id == id
                && h.delivered[n].1.nonce == nonce
  }

  /** A reply on the way answers the newest frame; a live connection with its turn has had that reply. */
  ghost predicate UpToDate(h: Hub) {
    && (h.executing.Some? && h.executing.value.0 in h.conns ==>
          h.executing.value.1.id == h.conns[h.executing.value.0].lastId)
    && (forall s | s in h.conns && h.conns[s].slot.Some? :: h.conns[s].slot.value.id == h.conns[s].lastId)
    && (forall s | s in h.conns && h.conns[s].alive && h.conns[s].turn.Some? ::
          h.conns[s].lastId == 0 || Replied(h, s, h.conns[s].lastId, h.conns[s].turn.value))
  }

  /** What a frame must be for the service to take it. */
  predicate WellFormed(e: Envelope) {
    && e.id >= 1 && 1 <= e.timeoutMs <= 30000
    && match e.request
       case Claim(a, policy) => 1 <= a <= 30 && (policy.Source? ==> 1 <= |policy.model| <= 128)
       case Transfer(operation, a, timeoutMs, payload) =>
         && 1 <= a <= 30 && 1 <= timeoutMs <= 30000 && |payload| <= 16384
         && operation in {"WRITE", "QUERY", "READ", "LOCAL", "CLEAR", "REN"}
       case Release(a) => 1 <= a <= 30
       case Recover(a, model) => 1 <= a <= 30 && 1 <= |model| <= 128
       case _ => true
  }

  /** Every frame taken is well formed and, after the first, presents the nonce of a reply since the frame before. */
  ghost predicate Presented(h: Hub) {
    && (forall i | 0 <= i < |h.accepted| :: WellFormed(h.accepted[i].1))
    && (forall i, j | 0 <= j < i < |h.accepted| && h.accepted[j].0 == h.accepted[i].0 ::
          exists id :: id >= h.accepted[j].1.id && Replied(h, h.accepted[i].0, id, h.accepted[i].1.nonce))
  }

  ghost predicate Complete(h: Hub) {
    Conserved(h) && UpToDate(h) && Presented(h)
  }

  lemma ConservedKept(h: Hub, step: Step, t: Hub)
    requires Registration(h) && OneToken(h) && Conserved(h) && Enabled(h, step) && Shape(h, step, t)
    ensures Conserved(t)
  {
    forall s | s in t.conns && t.conns[s].alive ensures Tokens(t, s) == 1 {
      if s in h.conns {
        TokenStays(h, step, t, s);
      } else {
        OnlyOpenConnects(h, step, t, s);
        CountMoves(h, step, t, s);
        NoCommandsCountZero(Queue(h), s);
        assert Count(Queue(t), s) == 0;
      }
    }
  }

  lemma TokenStays(h: Hub, step: Step, t: Hub, s: string)
    requires OneToken(h) && Enabled(h, step) && Shape(h, step, t) && s in h.conns && s in t.conns && t.conns[s].alive
    requires Conserved(h)
    ensures Tokens(t, s) == 1
  {
    hide Count, Queue;
    CountMoves(h, step, t, s);
    assert h.conns[s].alive;
    assert Tokens(h, s) == 1;
    if step.Begin? || step.Admit? || step.Lose? || (!step.Finish? && step.session != s) {
      OthersUntouched(h, step, t, s);
    }
  }

  lemma RepliedStays(h: Hub, t: Hub, s: string, id: nat, nonce: string)
    requires Replied(h, s, id, nonce) && h.delivered <= t.delivered
    ensures Replied(t, s, id, nonce)
  {
    var n :| 0 <= n < |h.delivered| && h.delivered[n].0 == s && h.delivered[n].1.id == id
             && h.delivered[n].1.nonce == nonce;
    assert t.delivered[n] == h.delivered[n];
  }

  lemma PickedIsLatest(h: Hub, step: Step, t: Hub)
    requires OneToken(h) && Envelopes(h) && Enabled(h, step) && Shape(h, step, t) && step.Begin?
    requires t.executing.Some? && t.executing != h.executing
    ensures var s := t.executing.value.0; s in h.conns && t.executing.value.1.id == h.conns[s].lastId
  {
    var e := h.work.pending[Pick(h.work)];
    assert Queue(h)[Pick(h.work)] == e;
    assert Latest(h, e.session, e.envelope);
  }

  lemma TurnIsUpToDate(h: Hub, step: Step, t: Hub, s: string)
    requires OneToken(h) && UpToDate(h) && Enabled(h, step) && Shape(h, step, t) && h.delivered <= t.delivered
    requires s in t.conns && t.conns[s].alive && t.conns[s].turn.Some?
    ensures t.conns[s].lastId == 0 || Replied(t, s, t.conns[s].lastId, t.conns[s].turn.value)
  {
    hide Replied, Queue, Count;
    if s in h.conns && t.conns[s].turn == h.conns[s].turn && t.conns[s].lastId == h.conns[s].lastId
       && h.conns[s].alive && h.conns[s].lastId != 0 {
      RepliedStays(h, t, s, h.conns[s].lastId, h.conns[s].turn.value);
    } else if s in h.conns && step.Write? && step.session == s {
      WriteReplies(h, step, t);
    }
  }

  lemma WriteReplies(h: Hub, step: Step, t: Hub)
    requires UpToDate(h) && Enabled(h, step) && Shape(h, step, t) && step.Write? && step.written
    ensures Replied(t, step.session, h.conns[step.session].lastId, step.nonce)
  {
    assert t.delivered[|h.delivered|].0 == step.session;
  }

  lemma SlotIsUpToDate(h: Hub, step: Step, t: Hub, s: string)
    requires OneToken(h) && UpToDate(h) && Enabled(h, step) && Shape(h, step, t)
    requires s in t.conns && t.conns[s].slot.Some?
    ensures t.conns[s].slot.value.id == t.conns[s].lastId
  {
    hide Replied, Queue, Count;
    if s in h.conns && h.conns[s].slot.Some? {
      assert Tokens(h, s) <= 1;
    }
  }

  lemma ExecutingIsUpToDate(h: Hub, step: Step, t: Hub)
    requires OneToken(h) && Envelopes(h) && UpToDate(h) && Enabled(h, step) && Shape(h, step, t)
    requires t.executing.Some? && t.executing.value.0 in t.conns
    ensures t.executing.value.1.id == t.conns[t.executing.value.0].lastId
  {
    hide Replied;
    if step.Begin? {
      if t.executing != h.executing {
        PickedIsLatest(h, step, t);
      }
    } else {
      assert t.executing == h.executing;
      assert Tokens(h, t.executing.value.0) <= 1;
    }
  }

  lemma DeliveriesGrow(h: Hub, step: Step, t: Hub)
    requires Enabled(h, step) && Shape(h, step, t)
    ensures h.delivered <= t.delivered
  {
  }

  lemma UpToDateKept(h: Hub, step: Step, t: Hub)
    requires OneToken(h) && Envelopes(h) && UpToDate(h) && Enabled(h, step) && Shape(h, step, t)
    ensures UpToDate(t)
  {
    hide Shape, Enabled, Replied;
    DeliveriesGrow(h, step, t);
    if t.executing.Some? && t.executing.value.0 in t.conns {
      ExecutingIsUpToDate(h, step, t);
    }
    forall s | s in t.conns && t.conns[s].slot.Some? ensures t.conns[s].slot.value.id == t.conns[s].lastId {
      SlotIsUpToDate(h, step, t, s);
    }
    forall s | s in t.conns && t.conns[s].alive && t.conns[s].turn.Some?
      ensures t.conns[s].lastId == 0 || Replied(t, s, t.conns[s].lastId, t.conns[s].turn.value)
    {
      TurnIsUpToDate(h, step, t, s);
    }
  }

  lemma AcceptedIsWellFormed(c: Connection, e: Envelope)
    requires Accepts(c, e)
    ensures WellFormed(e)
  {
  }

  lemma NewFrameIsPresented(h: Hub, s: string, e: Envelope, j: nat)
    requires Accepted(h) && UpToDate(h) && Presented(h)
    requires s in h.conns && h.conns[s].alive && Accepts(h.conns[s], e)
    requires j < |h.accepted| && h.accepted[j].0 == s
    ensures h.conns[s].lastId >= h.accepted[j].1.id && Replied(h, s, h.conns[s].lastId, e.nonce)
  {
    assert WellFormed(h.accepted[j].1);
  }

  lemma PresentedKept(h: Hub, step: Step, t: Hub)
    requires Accepted(h) && UpToDate(h) && Presented(h) && Enabled(h, step) && Shape(h, step, t)
    ensures Presented(t)
  {
    hide Replied, WellFormed;
    DeliveriesGrow(h, step, t);
    var taken := step.Read? && Accepts(h.conns[step.session], step.envelope);
    assert t.accepted == if taken then h.accepted + [(step.session, step.envelope)] else h.accepted;
    if taken {
      AcceptedIsWellFormed(h.conns[step.session], step.envelope);
    }
    forall i, j | 0 <= j < i < |t.accepted| && t.accepted[j].0 == t.accepted[i].0
      ensures exists id :: id >= t.accepted[j].1.id && Replied(t, t.accepted[i].0, id, t.accepted[i].1.nonce)
    {
      var id: nat;
      if i < |h.accepted| {
        id :| id >= h.accepted[j].1.id && Replied(h, h.accepted[i].0, id, h.accepted[i].1.nonce);
      } else {
        NewFrameIsPresented(h, step.session, step.envelope, j);
        id := h.conns[step.session].lastId;
      }
      RepliedStays(h, t, t.accepted[i].0, id, t.accepted[i].1.nonce);
    }
  }

  predicate OneLine(text: string) {
    1 <= |text| <= 128 && '\r' !in text && '\n' !in text
  }

  /** A model names something. */
  predicate NotBlank(text: string) {
    exists i | 0 <= i < |text| :: text[i] !in {' ', '\t'}
  }

  /** The model a request names, if it names one. */
  function Model(request: HubCore.Request): Option<string> {
    match request
    case Claim(_, Source(model)) => Some(model)
    case Recover(_, model) => Some(model)
    case _ => None
  }

  /**
   The reader takes a frame exactly when it is well formed, newer than the last and presents the current turn;
   any other frame kills the connection.
   */
  lemma FramesAreTaken(h: Hub, s: string, e: Envelope)
    requires Enabled(h, Read(s, e))
    ensures var t := Next(h, Read(s, e));
      var m := Model(e.request);
      var good := WellFormed(e) && OneLine(e.nonce) && e.id > h.conns[s].lastId && h.conns[s].turn == Some(e.nonce)
                  && (m.Some? ==> OneLine(m.value) && NotBlank(m.value));
      if good then
        && t.accepted == h.accepted + [(s, e)]
        && t.conns[s].alive && t.conns[s].hand == Some(e) && t.conns[s].turn.None? && t.conns[s].lastId == e.id
      else t.accepted == h.accepted && t.conns[s] == h.conns[s].(alive := false)
  {
    if Model(e.request).Some? {
      ModelRule(e.request);
    }
    assert OneLine(e.nonce) <==> ValidNonce(e.nonce);
    var m := Model(e.request);
    var clean := m.Some? ==> OneLine(m.value) && NotBlank(m.value);
    assert ValidEnvelope(e) && e.id >= 1 <==> WellFormed(e) && OneLine(e.nonce) && clean;
  }

  lemma ModelRule(request: HubCore.Request)
    requires Model(request).Some?
    ensures var model := Model(request).value;
      ValidModel(model) <==> OneLine(model) && NotBlank(model)
  {
    var model := Model(request).value;
    if ValidModel(model) {
      var i :| 0 <= i < |model| && model[i] != ' ' && model[i] != '\t';
      assert NotBlank(model);
    }
    if NotBlank(model) {
      var i :| 0 <= i < |model| && model[i] !in {' ', '\t'};
      assert model[i] != ' ' && model[i] != '\t';
    }
  }

  lemma {:induction false} CompleteRuns(h: Hub, steps: seq<Step>)
    requires Inv(h) && Complete(h) && Runnable(h, steps)
    ensures Complete(Run(h, steps))
    decreases |steps|
  {
    hide Conserved, UpToDate, Presented, Registration, Leases, OneToken, Envelopes, Accepted, Dispatched, Replies,
         InOrder, Next, Shape, Enabled;
    if steps != [] {
      var t := Next(h, steps[0]);
      EveryStepHasShape(h, steps[0]);
      ConservedKept(h, steps[0], t);
      UpToDateKept(h, steps[0], t);
      PresentedKept(h, steps[0], t);
      NextKeeps(h, steps[0]);
      CompleteRuns(t, steps[1..]);
    }
  }

  /**
   In every run, a live connection holds exactly one of: its turn, its command on the way to the worker or under
   its hands, its reply on the way back. When it holds its turn again, the reply to its newest frame has been
   delivered. Every frame taken was well formed and, after the first, presented the nonce which a reply to the
   frame before it, or a later one, had disclosed.
   */
  lemma NothingIsLost(core: State, steps: seq<Step>)
    requires HubSafety.Inv(core) && core.owners == map[] && Runnable(Start(core), steps)
    ensures Complete(Run(Start(core), steps))
  {
    StartHolds(core);
    assert Complete(Start(core));
    CompleteRuns(Start(core), steps);
  }

  // ---- Names ----

  /** The name under which each session connected, along a run. */
  ghost function Names(h: Hub, steps: seq<Step>, before: map<string, string>): map<string, string>
    requires Runnable(h, steps)
    decreases |steps|
  {
    if steps == [] then before
    else Names(Next(h, steps[0]), steps[1..], Joined(h, steps[0], before))
  }

  /** A connection that is let in brings its name. */
  function Joined(h: Hub, step: Step, names: map<string, string>): map<string, string> {
    if step.Open? && |h.inbox| < 64 then names[step.session := step.app] else names
  }

  /** The worker knows every session by the name it connected under. */
  ghost predicate Named(h: Hub, names: map<string, string>) {
    && h.conns.Keys == names.Keys
    && (forall s | s in h.work.sessions :: s in names && h.work.sessions[s] == names[s])
    && (forall i | 0 <= i < |Queue(h)| && Queue(h)[i].Register? ::
          Queue(h)[i].session in names && Queue(h)[i].app == names[Queue(h)[i].session])
  }

  lemma SessionsMove(h: Hub, step: Step)
    requires Enabled(h, step)
    ensures var t := Next(h, step);
      forall s | s in t.work.sessions ::
        || (s in h.work.sessions && t.work.sessions[s] == h.work.sessions[s])
        || (step.Begin? && h.work.pending[Pick(h.work)] == Register(s, t.work.sessions[s],
                                                                   h.work.pending[Pick(h.work)].arrival))
  {
    hide Serve, Disconnect;
  }

  lemma NamedQueue(h: Hub, step: Step, t: Hub, names: map<string, string>, i: nat)
    requires Named(h, names) && Enabled(h, step) && Shape(h, step, t) && i < |Queue(t)| && Queue(t)[i].Register?
    ensures var later := Joined(h, step, names);
      Queue(t)[i].session in later && Queue(t)[i].app == later[Queue(t)[i].session]
  {
    if step.Begin? {
      WithoutIndex(Queue(h), Pick(h.work), i);
    } else if i < |Queue(h)| {
      assert Queue(t)[i] == Queue(h)[i];
      assert step.Open? ==> step.session !in h.conns;
    }
  }

  lemma SessionsAreNamed(h: Hub, step: Step, names: map<string, string>)
    requires Named(h, names) && Enabled(h, step)
    ensures var t := Next(h, step);
      forall s | s in t.work.sessions :: s in names && t.work.sessions[s] == names[s]
  {
    hide Next;
    SessionsMove(h, step);
    if step.Begin? {
      assert Queue(h)[Pick(h.work)] == h.work.pending[Pick(h.work)];
    }
  }

  lemma ConnectionsAreNamed(h: Hub, step: Step, t: Hub, names: map<string, string>)
    requires Named(h, names) && Enabled(h, step) && Shape(h, step, t)
    ensures t.conns.Keys == Joined(h, step, names).Keys
    ensures step.Open? ==> step.session !in names
  {
  }

  lemma NamedKept(h: Hub, step: Step, names: map<string, string>)
    requires Named(h, names) && Enabled(h, step)
    ensures Named(Next(h, step), Joined(h, step, names))
  {
    hide Next, Queue, Shape;
    var t := Next(h, step);
    EveryStepHasShape(h, step);
    SessionsAreNamed(h, step, names);
    ConnectionsAreNamed(h, step, t, names);
    forall i | 0 <= i < |Queue(t)| && Queue(t)[i].Register?
      ensures var later := Joined(h, step, names);
        Queue(t)[i].session in later && Queue(t)[i].app == later[Queue(t)[i].session]
    {
      NamedQueue(h, step, t, names, i);
    }
  }

  lemma {:induction false} NamesAlong(h: Hub, steps: seq<Step>, names: map<string, string>)
    requires Named(h, names) && Runnable(h, steps)
    ensures Named(Run(h, steps), Names(h, steps, names))
    decreases |steps|
  {
    hide Named, Next, Joined;
    if steps != [] {
      NamedKept(h, steps[0], names);
      NamesAlong(Next(h, steps[0]), steps[1..], Joined(h, steps[0], names));
    }
  }

  /** In every run each registered session goes by the name it connected under. */
  lemma SessionsKeepTheirNames(core: State, steps: seq<Step>, s: string)
    requires Runnable(Start(core), steps) && s in Run(Start(core), steps).work.sessions
    ensures var names := Names(Start(core), steps, map[]);
      s in names && Run(Start(core), steps).work.sessions[s] == names[s]
  {
    NamesAlong(Start(core), steps, map[]);
  }

  /** No thread can be stuck: whatever holds a connection's token up, the step that moves it on is possible. */
  lemma NothingBlocks(h: Hub, s: string, e: Envelope, nonce: string, envs: Environments)
    ensures h.executing.Some? ==> Enabled(h, Finish)
    ensures h.work.pending != [] && h.executing.None? ==> Enabled(h, Begin(false, 0, envs))
    ensures h.inbox != [] && |h.work.pending| < 64 ==> Enabled(h, Admit)
    ensures s in h.conns && h.conns[s].slot.Some? ==> Enabled(h, Write(s, nonce, true))
    ensures s in h.conns && h.conns[s].hand.Some? ==> Enabled(h, Enqueue(s))
    ensures s in h.conns && h.conns[s].alive && h.conns[s].hand.None? ==> Enabled(h, Read(s, e))
    ensures s in h.work.sessions && s in h.conns && !h.conns[s].alive && h.executing.None? ==> Enabled(h, Lose(s, envs))
  {
  }
}
