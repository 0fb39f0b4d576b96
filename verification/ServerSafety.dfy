/** What every interleaving of the server's threads keeps. */
module ServerSafety {
  import opened Wrappers
  import opened HubTrace
  import opened HubCore
  import HubCleanup
  import HubSafety
  import opened Server

  function Queue(h: Hub): seq<Queued> {
    h.work.pending + h.inbox
  }

  // ---- Registration: sessions, leases and arrival numbers agree ----

  ghost predicate Arriving(q: seq<Queued>, arrivals: nat) {
    && (forall i, j | 0 <= i < j < |q| :: q[i].arrival < q[j].arrival)
    && (forall i | 0 <= i < |q| :: q[i].arrival < arrivals)
  }

  /** No event of a session is queued ahead of that session's registration. */
  ghost predicate RegistersFirst(q: seq<Queued>) {
    forall i, j | 0 <= i < j < |q| && q[j].Register? :: q[i].session != q[j].session
  }

  ghost predicate Awaited(q: seq<Queued>, s: string) {
    exists i :: 0 <= i < |q| && q[i].Register? && q[i].session == s
  }

  ghost predicate Registration(h: Hub) {
    && h.work.sessions.Keys <= h.conns.Keys && h.lost <= h.conns.Keys && h.work.sessions.Keys !! h.lost
    && Arriving(Queue(h), h.arrivals) && RegistersFirst(Queue(h))
    && |h.work.pending| <= CAPACITY && |h.inbox| <= CAPACITY
    && (forall i | 0 <= i < |Queue(h)| :: Queue(h)[i].session in h.conns)
    && (forall s | s in h.conns :: s in h.work.sessions || s in h.lost || Awaited(Queue(h), s))
    && (forall s | Awaited(Queue(h), s) :: s !in h.work.sessions && s !in h.lost)
  }

  ghost predicate Leases(w: Work) {
    HubSafety.Inv(w.core) && forall a | a in w.core.owners :: w.core.owners[a].session in w.sessions
  }

  lemma WithoutIndex<T>(s: seq<T>, k: nat, i: nat)
    requires k < |s| && i < |s| - 1
    ensures Without(s, k)[i] == s[if i < k then i else i + 1]
  {
  }

  lemma RemovalKeepsArriving(q: seq<Queued>, k: nat, arrivals: nat)
    requires k < |q| && Arriving(q, arrivals)
    ensures Arriving(Without(q, k), arrivals)
  {
  }

  lemma RemovalKeepsRegistersFirst(q: seq<Queued>, k: nat)
    requires k < |q| && RegistersFirst(q)
    ensures RegistersFirst(Without(q, k))
    ensures k == 0 && q[k].Register? ==> !Awaited(Without(q, k), q[k].session)
  {
  }

  /** Removing a non-registration, or the front, keeps the queue in order. */
  lemma RemovalKeepsOrder(q: seq<Queued>, k: nat, arrivals: nat)
    requires k < |q| && Arriving(q, arrivals) && RegistersFirst(q)
    ensures Arriving(Without(q, k), arrivals) && RegistersFirst(Without(q, k))
    ensures forall s :: Awaited(Without(q, k), s) ==> Awaited(q, s)
    ensures forall s :: Awaited(q, s) && !(q[k].Register? && q[k].session == s) ==> Awaited(Without(q, k), s)
    ensures k == 0 && q[k].Register? ==> !Awaited(Without(q, k), q[k].session)
  {
    RemovalKeepsArriving(q, k, arrivals);
    RemovalKeepsRegistersFirst(q, k);
    hide Arriving, RegistersFirst;
    var r := Without(q, k);
    forall s | Awaited(q, s) && !(q[k].Register? && q[k].session == s) ensures Awaited(r, s) {
      var i :| 0 <= i < |q| && q[i].Register? && q[i].session == s;
      assert r[if i < k then i else i - 1] == q[i];
    }
  }

  lemma PopFromPending(h: Hub, k: nat)
    requires k < |h.work.pending|
    ensures Without(h.work.pending, k) + h.inbox == Without(Queue(h), k)
    ensures Queue(h)[k] == h.work.pending[k]
  {
  }

  lemma BeginKeepsRegistration(h: Hub, step: Step)
    requires Registration(h) && Enabled(h, step) && step.Begin?
    ensures Registration(Next(h, step))
  {
    var k := Pick(h.work);
    PopFromPending(h, k);
    RemovalKeepsOrder(Queue(h), k, h.arrivals);
    var t := Next(h, step);
    assert Queue(t) == Without(Queue(h), k);
    if Queue(h)[k].Register? {
      assert k == 0;
      assert Awaited(Queue(h), Queue(h)[k].session);
    }
  }

  lemma AppendKeepsOrder(q: seq<Queued>, e: Queued)
    requires Arriving(q, e.arrival) && RegistersFirst(q)
    requires e.Register? ==> forall i | 0 <= i < |q| :: q[i].session != e.session
    ensures Arriving(q + [e], e.arrival + 1) && RegistersFirst(q + [e])
    ensures forall s :: Awaited(q, s) ==> Awaited(q + [e], s)
    ensures forall s :: Awaited(q + [e], s) ==> Awaited(q, s) || (e.Register? && e.session == s)
    ensures e.Register? ==> Awaited(q + [e], e.session)
  {
    forall s | Awaited(q, s) ensures Awaited(q + [e], s) {
      var i :| 0 <= i < |q| && q[i].Register? && q[i].session == s;
      assert (q + [e])[i] == q[i];
    }
    assert (q + [e])[|q|] == e;
  }

  lemma SameQueueKeepsRegistration(h: Hub, t: Hub)
    requires Registration(h) && Queue(t) == Queue(h)
    requires t.arrivals == h.arrivals && t.conns.Keys == h.conns.Keys
    requires t.work.sessions.Keys + t.lost == h.work.sessions.Keys + h.lost && t.work.sessions.Keys !! t.lost
    requires |t.work.pending| <= CAPACITY && |t.inbox| <= CAPACITY
    ensures Registration(t)
  {
  }

  lemma OpenKeepsRegistration(h: Hub, step: Step)
    requires Registration(h) && Enabled(h, step) && step.Open?
    ensures Registration(Next(h, step))
  {
    if |h.inbox| < CAPACITY {
      var e := Register(step.session, step.app, h.arrivals);
      AppendKeepsOrder(Queue(h), e);
      assert Queue(Next(h, step)) == Queue(h) + [e];
    }
  }

  lemma EnqueueKeepsRegistration(h: Hub, step: Step)
    requires Registration(h) && Enabled(h, step) && step.Enqueue?
    ensures Registration(Next(h, step))
  {
    var t := Next(h, step);
    if |h.inbox| < CAPACITY {
      var e := Command(step.session, h.conns[step.session].hand.value, h.arrivals);
      AppendKeepsOrder(Queue(h), e);
      assert Queue(t) == Queue(h) + [e];
    } else {
      SameQueueKeepsRegistration(h, t);
    }
  }

  lemma RegistrationKept(h: Hub, step: Step)
    requires Registration(h) && Enabled(h, step)
    ensures Registration(Next(h, step))
  {
    match step
    case Open(_, _, _) => OpenKeepsRegistration(h, step);
    case Enqueue(_) => EnqueueKeepsRegistration(h, step);
    case Begin(_, _, _) => BeginKeepsRegistration(h, step);
    case Admit =>
      assert Queue(Next(h, step)) == Queue(h);
      SameQueueKeepsRegistration(h, Next(h, step));
    case _ => SameQueueKeepsRegistration(h, Next(h, step));
  }

  lemma LeasesKept(h: Hub, step: Step)
    requires Leases(h.work) && Enabled(h, step)
    ensures Leases(Next(h, step).work)
  {
    hide HubSafety.Inv, HubCore.Serve, HubCore.Disconnect;
    match step
    case Begin(expired, remainingMs, envs) =>
      var e := h.work.pending[Pick(h.work)];
      if e.Command? && e.session in h.work.sessions {
        HubSafety.ServeKeeps(h.work.core, e.session, h.work.sessions[e.session], e.envelope.request, remainingMs, envs);
        HubSafety.ServeAddsOwnLeasesOnly(h.work.core, e.session, h.work.sessions[e.session], e.envelope.request,
            remainingMs, envs);
      }
    case Lose(s, envs) => HubSafety.DisconnectEndsLeases(h.work.core, s, true, envs);
    case _ =>
  }

  /** The command picked next belongs to a session that was registered, now or before. */
  lemma NoCommandBeforeItsRegistration(h: Hub)
    requires Registration(h) && h.work.pending != []
    ensures var e := h.work.pending[Pick(h.work)];
      e.Command? ==> e.session in h.work.sessions || e.session in h.lost
  {
    var k := Pick(h.work);
    var e := h.work.pending[k];
    PopFromPending(h, k);
  }

  /** After the shutdown loop no lease is left, even if every cleanup failed. */
  lemma {:induction false} ShutdownLeavesNoOwner(core: State, order: seq<string>, envs: string -> Environments)
    requires HubSafety.Inv(core)
    requires forall a | a in core.owners :: core.owners[a].session in order
    ensures var t := DisconnectAll(core, order, envs);
      HubSafety.Inv(t) && t.owners == map[]
    decreases |order|
  {
    if order != [] {
      HubSafety.DisconnectEndsLeases(core, order[0], true, envs(order[0]));
      ShutdownLeavesNoOwner(Disconnect(core, order[0], true, envs(order[0])).0, order[1..], envs);
    } else {
      assert core.owners.Keys == {};
    }
  }

  /** The shutdown loop quiets every instrument it takes back, as a lost connection does. */
  lemma {:induction false} ShutdownQuiets(core: State, order: seq<string>, envs: string -> Environments, a: Address)
    requires HubSafety.Inv(core) && a in core.owners && core.owners[a].session in order
    ensures var t := DisconnectAll(core, order, envs);
      && Prefix(core.trace, t.trace)
      && HubCleanup.EndedAndQuieted(core.trace, t.trace, a, core.owners[a], true)
    decreases |order|
  {
    hide HubSafety.Inv, HubCleanup.EndedAndQuieted, Disconnect;
    var next := Disconnect(core, order[0], true, envs(order[0])).0;
    var t := DisconnectAll(core, order, envs);
    HubSafety.DisconnectEndsLeases(core, order[0], true, envs(order[0]));
    HubCleanup.DisconnectQuiets(core, order[0], true, envs(order[0]));
    DisconnectsExtend(next, order[1..], envs);
    PrefixTransitive(core.trace, next.trace, t.trace);
    if core.owners[a].session == order[0] {
      HubCleanup.EndedAndQuietedLater(core.trace, next.trace, t.trace, a, core.owners[a], true);
    } else {
      ShutdownQuiets(next, order[1..], envs, a);
      HubCleanup.EndedAndQuietedEarlier(core.trace, next.trace, t.trace, a, core.owners[a], true);
    }
  }

  lemma {:induction false} DisconnectsExtend(core: State, order: seq<string>, envs: string -> Environments)
    requires HubSafety.Inv(core)
    ensures Prefix(core.trace, DisconnectAll(core, order, envs).trace)
    decreases |order|
  {
    hide HubSafety.Inv, HubCleanup.EndedAndQuieted, Disconnect;
    if order != [] {
      var next := Disconnect(core, order[0], true, envs(order[0])).0;
      HubSafety.DisconnectEndsLeases(core, order[0], true, envs(order[0]));
      HubCleanup.DisconnectQuiets(core, order[0], true, envs(order[0]));
      DisconnectsExtend(next, order[1..], envs);
      PrefixTransitive(core.trace, next.trace, DisconnectAll(core, order, envs).trace);
    }
  }

  /** Cutting off dead sessions quiets every instrument they held, as the loss of a connection does. */
  lemma {:induction false} LostSessionsAreQuieted(w: Work, lost: seq<string>, envs: Environments, a: Address)
    requires HubSafety.Inv(w.core) && a in w.core.owners && w.core.owners[a].session in lost
    ensures var t := DropSessions(w, lost, envs).core;
      && a !in t.owners && Prefix(w.core.trace, t.trace)
      && HubCleanup.EndedAndQuieted(w.core.trace, t.trace, a, w.core.owners[a], true)
    decreases |lost|
  {
    hide HubSafety.Inv, HubCleanup.EndedAndQuieted, Disconnect;
    var next := DropSession(w, lost[0], envs);
    var t := DropSessions(w, lost, envs).core;
    HubSafety.DisconnectEndsLeases(w.core, lost[0], true, envs);
    HubCleanup.DisconnectQuiets(w.core, lost[0], true, envs);
    DroppingAddsNoOwner(next, lost[1..], envs, a);
    PrefixTransitive(w.core.trace, next.core.trace, t.trace);
    if w.core.owners[a].session == lost[0] {
      HubCleanup.EndedAndQuietedLater(w.core.trace, next.core.trace, t.trace, a, w.core.owners[a], true);
    } else {
      LostSessionsAreQuieted(next, lost[1..], envs, a);
      HubCleanup.EndedAndQuietedEarlier(w.core.trace, next.core.trace, t.trace, a, w.core.owners[a], true);
    }
  }

  lemma {:induction false} DroppingAddsNoOwner(w: Work, lost: seq<string>, envs: Environments, a: Address)
    requires HubSafety.Inv(w.core)
    ensures var t := DropSessions(w, lost, envs).core;
      Prefix(w.core.trace, t.trace) && (a !in w.core.owners ==> a !in t.owners)
    decreases |lost|
  {
    hide HubSafety.Inv, HubCleanup.EndedAndQuieted, Disconnect;
    if lost != [] {
      var next := DropSession(w, lost[0], envs);
      HubSafety.DisconnectEndsLeases(w.core, lost[0], true, envs);
      HubCleanup.DisconnectQuiets(w.core, lost[0], true, envs);
      DroppingAddsNoOwner(next, lost[1..], envs, a);
      PrefixTransitive(w.core.trace, next.core.trace, DropSessions(w, lost, envs).core.trace);
    }
  }
}
