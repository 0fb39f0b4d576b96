/**
 Turn taking: a connection owns one token, which is its turn, its command on the
 way to the worker, or its reply on the way back, and never two of them.
 */
module ServerTurns {
  import opened Wrappers
  import opened HubCore
  import opened Server
  import opened ServerSafety

  predicate CommandOf(e: Queued, s: string) {
    e.Command? && e.session == s
  }

  function Count(q: seq<Queued>, s: string): nat {
    if q == [] then 0 else Bit(CommandOf(q[0], s)) + Count(q[1..], s)
  }

  lemma {:induction false} CountJoins(p: seq<Queued>, q: seq<Queued>, s: string)
    ensures Count(p + q, s) == Count(p, s) + Count(q, s)
  {
    if p == [] {
      assert p + q == q;
    } else {
      assert (p + q)[1..] == p[1..] + q;
      CountJoins(p[1..], q, s);
    }
  }

  lemma CountWithout(q: seq<Queued>, k: nat, s: string)
    requires k < |q|
    ensures Count(q, s) == Count(Without(q, k), s) + Bit(CommandOf(q[k], s))
  {
    assert q == q[..k] + ([q[k]] + q[k + 1..]);
    CountJoins(q[..k], [q[k]] + q[k + 1..], s);
    CountJoins([q[k]], q[k + 1..], s);
    CountJoins(q[..k], q[k + 1..], s);
  }

  lemma CountFinds(q: seq<Queued>, i: nat, s: string)
    requires i < |q| && CommandOf(q[i], s)
    ensures Count(q, s) > 0
  {
    CountWithout(q, i, s);
  }

  function Tokens(h: Hub, s: string): nat
    requires s in h.conns
  {
    var c := h.conns[s];
    Bit(c.turn.Some?) + Bit(c.hand.Some?) + Count(Queue(h), s)
    + Bit(h.executing.Some? && h.executing.value.0 == s) + Bit(c.slot.Some?)
  }

  ghost predicate OneToken(h: Hub) {
    && (forall s | s in h.conns :: Tokens(h, s) <= 1)
    && (h.executing.Some? ==> h.executing.value.0 in h.conns)
  }

  /** What one step can do outside the controller, from `h` to `t`. */
  ghost predicate Shape(h: Hub, step: Step, t: Hub)
    requires Enabled(h, step)
  {
    if step.Begin? then
      var e := h.work.pending[Pick(h.work)];
      && t.conns == h.conns && t.accepted == h.accepted && t.delivered == h.delivered
      && Queue(t) == Without(Queue(h), Pick(h.work)) && Queue(h)[Pick(h.work)] == e
      && (if e.Register? then t.executing == h.executing && t.dispatched == h.dispatched
          else exists answer ::
            && t.executing == Some((e.session, Reply(e.envelope.id, answer, "")))
            && t.dispatched == h.dispatched + [Dispatch(e, answer)])
    else if step.Lose? then
      && Queue(t) == Queue(h)
      && t == h.(work := t.work, lost := t.lost)
    else
      && t == Local(h, step)
      && (if |h.inbox| < CAPACITY && step.Open? then
            Queue(t) == Queue(h) + [Register(step.session, step.app, h.arrivals)]
          else if |h.inbox| < CAPACITY && step.Enqueue? then
            Queue(t) == Queue(h) + [Command(step.session, h.conns[step.session].hand.value, h.arrivals)]
          else Queue(t) == Queue(h))
  }

  lemma EveryStepHasShape(h: Hub, step: Step)
    requires Enabled(h, step)
    ensures Shape(h, step, Next(h, step))
  {
    var t := Next(h, step);
    if step.Begin? {
      PopFromPending(h, Pick(h.work));
      var e := h.work.pending[Pick(h.work)];
      if e.Command? {
        var answer := Handle(h.work, Alive(h), step.expired, step.remainingMs, step.envs).1.value;
        assert t.executing == Some((e.session, Reply(e.envelope.id, answer, "")));
      }
    } else {
      assert step.Admit? ==> Queue(t) == Queue(h);
    }
  }

  predicate Queues(h: Hub, step: Step, s: string) {
    step.Enqueue? && |h.inbox| < CAPACITY && step.session == s
  }

  predicate Pops(h: Hub, step: Step, s: string)
    requires Enabled(h, step)
  {
    step.Begin? && CommandOf(h.work.pending[Pick(h.work)], s)
  }

  lemma CountMoves(h: Hub, step: Step, t: Hub, s: string)
    requires Enabled(h, step) && Shape(h, step, t)
    ensures Count(Queue(t), s) == Count(Queue(h), s) + Bit(Queues(h, step, s)) - Bit(Pops(h, step, s))
  {
    if step.Begin? {
      CountWithout(Queue(h), Pick(h.work), s);
    } else if |h.inbox| < CAPACITY && step.Open? {
      CountJoins(Queue(h), [Register(step.session, step.app, h.arrivals)], s);
    } else if |h.inbox| < CAPACITY && step.Enqueue? {
      var e := Command(step.session, h.conns[step.session].hand.value, h.arrivals);
      CountJoins(Queue(h), [e], s);
      assert Count([e], s) == Bit(step.session == s);
    }
  }

  /** A step of another connection leaves this one's cells alone. */
  lemma OthersUntouched(h: Hub, step: Step, t: Hub, s: string)
    requires Enabled(h, step) && Shape(h, step, t) && s in h.conns
    requires step.Begin? || step.Admit? || step.Lose? || (!step.Finish? && step.session != s)
    ensures s in t.conns && t.conns[s] == h.conns[s]
    ensures !step.Begin? ==> t.executing == h.executing
  {
  }

  lemma TokensMove(h: Hub, step: Step, t: Hub, s: string)
    requires OneToken(h) && Enabled(h, step) && Shape(h, step, t) && s in h.conns
    ensures s in t.conns && Tokens(t, s) <= 1
  {
    hide Count, Queue;
    CountMoves(h, step, t, s);
    assert Tokens(h, s) <= 1;
    if step.Begin? || step.Admit? || step.Lose? || (!step.Finish? && step.session != s) {
      OthersUntouched(h, step, t, s);
    }
  }

  lemma {:induction false} NoCommandsCountZero(q: seq<Queued>, s: string)
    requires forall i | 0 <= i < |q| :: q[i].session != s
    ensures Count(q, s) == 0
  {
    if q != [] {
      NoCommandsCountZero(q[1..], s);
    }
  }

  lemma OnlyOpenConnects(h: Hub, step: Step, t: Hub, s: string)
    requires Enabled(h, step) && Shape(h, step, t) && s in t.conns && s !in h.conns
    ensures step == Open(s, step.app, step.nonce) && |h.inbox| < CAPACITY
    ensures t.conns[s] == Connection(true, Some(step.nonce), None, None, 0) && t.executing == h.executing
  {
  }

  lemma NewConnectionHasOneToken(h: Hub, step: Step, t: Hub, s: string)
    requires Registration(h) && OneToken(h) && Enabled(h, step) && Shape(h, step, t)
    requires s in t.conns && s !in h.conns
    ensures Tokens(t, s) <= 1
  {
    OnlyOpenConnects(h, step, t, s);
    CountMoves(h, step, t, s);
    NoCommandsCountZero(Queue(h), s);
    assert Count(Queue(t), s) == 0;
  }

  /** At every interleaving each connection holds at most one token. */
  lemma OneTokenKept(h: Hub, step: Step, t: Hub)
    requires Registration(h) && OneToken(h) && Enabled(h, step) && Shape(h, step, t)
    ensures OneToken(t)
  {
    forall s | s in t.conns ensures Tokens(t, s) <= 1 {
      if s in h.conns {
        TokensMove(h, step, t, s);
      } else {
        NewConnectionHasOneToken(h, step, t, s);
      }
    }
  }

  // ---- Envelopes: what is on the way is the connection's latest, and nothing is lost or duplicated ----

  /** `e` is the latest envelope the connection `s` had accepted. */
  ghost predicate Latest(h: Hub, s: string, e: Envelope) {
    s in h.conns && e.id == h.conns[s].lastId && (s, e) in h.accepted
  }

  ghost predicate OnTheWay(h: Hub, s: string) {
    s in h.conns && (h.conns[s].hand.Some? || Count(Queue(h), s) > 0)
  }

  ghost predicate Envelopes(h: Hub) {
    && (forall s | s in h.conns && h.conns[s].hand.Some? :: Latest(h, s, h.conns[s].hand.value))
    && (forall i | 0 <= i < |Queue(h)| && Queue(h)[i].Command? :: Latest(h, Queue(h)[i].session, Queue(h)[i].envelope))
  }

  ghost predicate Accepted(h: Hub) {
    && (forall i | 0 <= i < |h.accepted| ::
          h.accepted[i].0 in h.conns && h.accepted[i].1.id <= h.conns[h.accepted[i].0].lastId)
    && (forall i, j | 0 <= i < j < |h.accepted| && h.accepted[i].0 == h.accepted[j].0 ::
          h.accepted[i].1.id < h.accepted[j].1.id)
  }

  /** `c` left the queue: it had been accepted, and anything now on the way is newer. */
  ghost predicate DispatchedFits(h: Hub, c: Queued) {
    && c.Command? && (c.session, c.envelope) in h.accepted && c.session in h.conns
    && c.envelope.id <= h.conns[c.session].lastId
    && (OnTheWay(h, c.session) ==> c.envelope.id < h.conns[c.session].lastId)
  }

  ghost predicate Dispatched(h: Hub) {
    && (forall i | 0 <= i < |h.dispatched| :: DispatchedFits(h, h.dispatched[i].command))
    && (forall i, j | 0 <= i < j < |h.dispatched|
                      && h.dispatched[i].command.session == h.dispatched[j].command.session ::
          h.dispatched[i].command.envelope.id < h.dispatched[j].command.envelope.id)
  }

  /** The reply carries the answer the worker gave to the command with that id. */
  ghost predicate Backed(h: Hub, s: string, reply: Reply) {
    exists i :: 0 <= i < |h.dispatched| && h.dispatched[i].command.Command? && h.dispatched[i].command.session == s
                && h.dispatched[i].command.envelope.id == reply.id && h.dispatched[i].answer == reply.answer
  }

  ghost predicate Replies(h: Hub) {
    && (h.executing.Some? ==> Backed(h, h.executing.value.0, h.executing.value.1))
    && (forall s | s in h.conns && h.conns[s].slot.Some? :: Backed(h, s, h.conns[s].slot.value))
    && (forall i | 0 <= i < |h.delivered| :: Backed(h, h.delivered[i].0, h.delivered[i].1))
  }

  /** Accepting a newer envelope takes a turn, which nothing else on the way would leave. */
  lemma LatestStays(h: Hub, step: Step, t: Hub, s: string, e: Envelope)
    requires OneToken(h) && Enabled(h, step) && Shape(h, step, t) && Latest(h, s, e) && OnTheWay(h, s)
    ensures Latest(t, s, e)
  {
    assert Tokens(h, s) <= 1;
  }

  lemma HandsKept(h: Hub, step: Step, t: Hub, s: string)
    requires OneToken(h) && Envelopes(h) && Enabled(h, step) && Shape(h, step, t)
    requires s in t.conns && t.conns[s].hand.Some?
    ensures Latest(t, s, t.conns[s].hand.value)
  {
    if s in h.conns && h.conns[s].hand == t.conns[s].hand {
      LatestStays(h, step, t, s, h.conns[s].hand.value);
    } else {
      assert t.accepted[|h.accepted|] == (s, step.envelope);
    }
  }

  lemma QueuedStays(h: Hub, step: Step, t: Hub, i: nat)
    requires OneToken(h) && Envelopes(h) && Enabled(h, step) && Shape(h, step, t)
    requires i < |Queue(h)| && Queue(h)[i].Command?
    ensures Latest(t, Queue(h)[i].session, Queue(h)[i].envelope)
  {
    CountFinds(Queue(h), i, Queue(h)[i].session);
    LatestStays(h, step, t, Queue(h)[i].session, Queue(h)[i].envelope);
  }

  lemma QueuedIsLatest(h: Hub, step: Step, t: Hub, i: nat)
    requires OneToken(h) && Envelopes(h) && Enabled(h, step) && Shape(h, step, t)
    requires i < |Queue(t)| && Queue(t)[i].Command?
    ensures Latest(t, Queue(t)[i].session, Queue(t)[i].envelope)
  {
    if step.Begin? {
      WithoutIndex(Queue(h), Pick(h.work), i);
      QueuedStays(h, step, t, if i < Pick(h.work) then i else i + 1);
    } else if i < |Queue(h)| {
      QueuedStays(h, step, t, i);
    } else {
      LatestStays(h, step, t, step.session, h.conns[step.session].hand.value);
    }
  }

  lemma EnvelopesKept(h: Hub, step: Step, t: Hub)
    requires OneToken(h) && Envelopes(h) && Enabled(h, step) && Shape(h, step, t)
    ensures Envelopes(t)
  {
    forall s | s in t.conns && t.conns[s].hand.Some? ensures Latest(t, s, t.conns[s].hand.value) {
      HandsKept(h, step, t, s);
    }
    forall i | 0 <= i < |Queue(t)| && Queue(t)[i].Command?
      ensures Latest(t, Queue(t)[i].session, Queue(t)[i].envelope)
    {
      QueuedIsLatest(h, step, t, i);
    }
  }

  lemma AcceptedKept(h: Hub, step: Step, t: Hub)
    requires Accepted(h) && Enabled(h, step) && Shape(h, step, t)
    ensures Accepted(t)
  {
  }

  lemma OnTheWayOnlyByReading(h: Hub, step: Step, t: Hub, s: string)
    requires OneToken(h) && Enabled(h, step) && Shape(h, step, t) && s in h.conns && OnTheWay(t, s)
    ensures OnTheWay(h, s) || (step.Read? && step.session == s && Accepts(h.conns[s], step.envelope))
    ensures !Pops(h, step, s)
  {
    CountMoves(h, step, t, s);
    assert Tokens(h, s) <= 1;
  }

  lemma DispatchedStaysFit(h: Hub, step: Step, t: Hub, c: Queued)
    requires OneToken(h) && Enabled(h, step) && Shape(h, step, t) && DispatchedFits(h, c)
    ensures DispatchedFits(t, c)
  {
    if OnTheWay(t, c.session) {
      OnTheWayOnlyByReading(h, step, t, c.session);
    }
  }

  lemma NewDispatchFits(h: Hub, step: Step, t: Hub)
    requires OneToken(h) && Envelopes(h) && Enabled(h, step) && Shape(h, step, t)
    requires step.Begin? && h.work.pending[Pick(h.work)].Command?
    ensures var c := h.work.pending[Pick(h.work)];
      && DispatchedFits(t, c)
      && OnTheWay(h, c.session) && c.envelope.id == h.conns[c.session].lastId
  {
    var c := h.work.pending[Pick(h.work)];
    CountFinds(Queue(h), Pick(h.work), c.session);
    assert Latest(h, c.session, c.envelope);
    if OnTheWay(t, c.session) {
      OnTheWayOnlyByReading(h, step, t, c.session);
    }
  }

  lemma DispatchedKept(h: Hub, step: Step, t: Hub)
    requires OneToken(h) && Envelopes(h) && Dispatched(h) && Enabled(h, step) && Shape(h, step, t)
    ensures Dispatched(t)
  {
    forall i | 0 <= i < |h.dispatched| ensures DispatchedFits(t, h.dispatched[i].command) {
      DispatchedStaysFit(h, step, t, h.dispatched[i].command);
    }
    if step.Begin? && h.work.pending[Pick(h.work)].Command? {
      NewDispatchFits(h, step, t);
      assert forall i | 0 <= i < |h.dispatched| :: DispatchedFits(h, h.dispatched[i].command);
    }
  }

  lemma BackedStays(h: Hub, t: Hub, s: string, r: Reply, nonce: string)
    requires Backed(h, s, r) && h.dispatched <= t.dispatched
    ensures Backed(t, s, r.(nonce := nonce))
  {
    var i :| 0 <= i < |h.dispatched| && h.dispatched[i].command.Command? && h.dispatched[i].command.session == s
             && h.dispatched[i].command.envelope.id == r.id && h.dispatched[i].answer == r.answer;
    assert t.dispatched[i] == h.dispatched[i];
  }

  lemma SlotsKept(h: Hub, step: Step, t: Hub, s: string)
    requires Replies(h) && Enabled(h, step) && Shape(h, step, t) && h.dispatched <= t.dispatched
    requires s in t.conns && t.conns[s].slot.Some?
    ensures Backed(t, s, t.conns[s].slot.value)
  {
    hide Backed;
    if s in h.conns && h.conns[s].slot.Some? && t.conns[s].slot == h.conns[s].slot {
      BackedStays(h, t, s, h.conns[s].slot.value, h.conns[s].slot.value.nonce);
    } else {
      BackedStays(h, t, s, h.executing.value.1, h.executing.value.1.nonce);
    }
  }

  lemma DeliveriesKept(h: Hub, step: Step, t: Hub, i: nat)
    requires Replies(h) && Enabled(h, step) && Shape(h, step, t) && h.dispatched <= t.dispatched
    requires i < |t.delivered|
    ensures Backed(t, t.delivered[i].0, t.delivered[i].1)
  {
    hide Backed;
    if i < |h.delivered| {
      BackedStays(h, t, h.delivered[i].0, h.delivered[i].1, h.delivered[i].1.nonce);
    } else {
      BackedStays(h, t, step.session, h.conns[step.session].slot.value, step.nonce);
    }
  }

  lemma ExecutingKept(h: Hub, step: Step, t: Hub)
    requires Replies(h) && Enabled(h, step) && Shape(h, step, t) && h.dispatched <= t.dispatched
    requires t.executing.Some?
    ensures Backed(t, t.executing.value.0, t.executing.value.1)
  {
    if t.executing == h.executing {
      BackedStays(h, t, h.executing.value.0, h.executing.value.1, h.executing.value.1.nonce);
    } else {
      assert t.dispatched[|h.dispatched|].command == h.work.pending[Pick(h.work)];
    }
  }

  lemma RepliesKept(h: Hub, step: Step, t: Hub)
    requires Replies(h) && Enabled(h, step) && Shape(h, step, t)
    ensures Replies(t)
  {
    assert h.dispatched <= t.dispatched;
    hide Shape, Enabled, Backed;
    forall s | s in t.conns && t.conns[s].slot.Some? ensures Backed(t, s, t.conns[s].slot.value) {
      SlotsKept(h, step, t, s);
    }
    forall i | 0 <= i < |t.delivered| ensures Backed(t, t.delivered[i].0, t.delivered[i].1) {
      DeliveriesKept(h, step, t, i);
    }
    if t.executing.Some? {
      ExecutingKept(h, step, t);
    }
  }
}
