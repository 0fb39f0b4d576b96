/**
 What ends a lease, and what reaches the bus when one ends: sources are switched off, lost
 instruments cleared, and only a cleanup that worked lifts the quarantine.
 */
module HubCleanup {
  import opened Wrappers
  import opened HubTrace
  import opened HubCore
  import opened HubSafety
  import opened HubRuns

  /** Event `e` was added to `base` on the way to `t`. */
  ghost predicate Occurs(base: Trace, t: Trace, e: Event) {
    t != base && t.Then? && (t.event == e || Occurs(base, t.past, e))
  }

  lemma {:induction false} OccursLater(base: Trace, mid: Trace, t: Trace, e: Event)
    requires Occurs(base, mid, e) && Prefix(base, mid) && Prefix(mid, t)
    ensures Occurs(base, t, e)
  {
    if mid != t {
      OccursLater(base, mid, t.past, e);
      PrefixTransitive(base, mid, t.past);
      PrefixSize(base, t.past);
    }
  }

  /** The first command an instrument that is no source gets when its lease ends. */
  function Farewell(lost: bool): string {
    if lost then "CLEAR" else "LOCAL"
  }

  /** After its lease ended a source was commanded OFF, a lost instrument cleared, any other returned to local. */
  ghost predicate Quieted(end: Trace, t: Trace, a: Address, policy: Policy, lost: bool) {
    match policy
    case Source(model) => exists ok :: Occurs(end, t, Off(a, model, ok))
    case Instrument => exists ok :: Occurs(end, t, Cleanup(a, Farewell(lost), ok))
  }

  /** Between `base` and `t` the lease ended, and unless the controller had faulted by then, cleanup followed. */
  ghost predicate EndedAndQuieted(base: Trace, t: Trace, a: Address, owner: Owner, lost: bool) {
    exists end: Trace :: Prefix(base, end) && Prefix(end, t) && end != base
      && end.event == Ended(a, owner.session)
      && (Faulted(end) || Quieted(end, t, a, owner.policy, lost))
  }

  /** The source is off, and nothing remembers it as unverified. */
  ghost predicate Cleared(s: State, a: Address) {
    !Dirty(s.trace, a) && a !in s.owners && a !in s.unknown && forall c | c in Durable(s.trace) :: a !in c
  }

  lemma QuietedLater(end: Trace, mid: Trace, t: Trace, a: Address, policy: Policy, lost: bool)
    requires Quieted(end, mid, a, policy, lost) && Prefix(end, mid) && Prefix(mid, t)
    ensures Quieted(end, t, a, policy, lost)
  {
    match policy
    case Source(model) =>
      var ok :| Occurs(end, mid, Off(a, model, ok));
      OccursLater(end, mid, t, Off(a, model, ok));
    case Instrument =>
      var ok :| Occurs(end, mid, Cleanup(a, Farewell(lost), ok));
      OccursLater(end, mid, t, Cleanup(a, Farewell(lost), ok));
  }

  lemma EndedAndQuietedLater(base: Trace, mid: Trace, t: Trace, a: Address, owner: Owner, lost: bool)
    requires EndedAndQuieted(base, mid, a, owner, lost) && Prefix(mid, t)
    ensures EndedAndQuieted(base, t, a, owner, lost)
  {
    var end: Trace :| Prefix(base, end) && Prefix(end, mid) && end != base && end.event == Ended(a, owner.session)
      && (Faulted(end) || Quieted(end, mid, a, owner.policy, lost));
    PrefixTransitive(end, mid, t);
    if !Faulted(end) {
      QuietedLater(end, mid, t, a, owner.policy, lost);
    }
  }

  lemma EndedAndQuietedEarlier(base: Trace, mid: Trace, t: Trace, a: Address, owner: Owner, lost: bool)
    requires Prefix(base, mid) && EndedAndQuieted(mid, t, a, owner, lost)
    ensures EndedAndQuieted(base, t, a, owner, lost)
  {
    var end: Trace :| Prefix(mid, end) && Prefix(end, t) && end != mid && end.event == Ended(a, owner.session)
      && (Faulted(end) || Quieted(end, t, a, owner.policy, lost));
    PrefixTransitive(base, mid, end);
    PrefixSize(base, mid);
    PrefixSize(mid, end.past);
  }

  /** The shape of what one release adds to the trace. */
  lemma RelinquishExtends(s: State, a: Address, lost: bool, env: Environment)
    requires a in s.owners
    ensures var t := Relinquish(s, a, lost, env).0;
      var end := Then(s.trace, Ended(a, s.owners[a].session));
      Prefix(end, t.trace) && (s.fault.Some? || Quieted(end, t.trace, a, s.owners[a].policy, lost))
  {
    var owner := s.owners[a];
    var end := Then(s.trace, Ended(a, owner.session));
    var s1 := Note(s, Ended(a, owner.session)).(owners := s.owners - {a});
    var (s2, failure) := Quiesce(s1, a, owner.policy, lost, env);
    var s3 := Drive(s2, ok => Cleanup(a, "LOCAL", ok), env.local).0;
    var t := Relinquish(s, a, lost, env).0;
    assert Prefix(end, s2.trace) && Prefix(s2.trace, s3.trace);
    if s.fault.None? && owner.policy.Source? {
      assert Occurs(end, s2.trace, Off(a, owner.policy.model, env.off.Ok?));
    }
    if failure.None? {
      PrefixTransitive(end, s2.trace, s3.trace);
      UnquarantineExtends(s3, a, env.saving);
      PrefixTransitive(end, s3.trace, t.trace);
    }
    if s.fault.None? {
      var mid := if owner.policy.Source? || lost then s2.trace else s3.trace;
      assert owner.policy.Instrument? ==>
        Occurs(end, mid, Cleanup(a, Farewell(lost), if lost then env.clear.Ok? else env.local.Ok?));
      assert Quieted(end, mid, a, owner.policy, lost);
      QuietedLater(end, mid, t.trace, a, owner.policy, lost);
    }
  }

  lemma UnquarantineExtends(s: State, a: Address, saving: Saving)
    ensures Prefix(s.trace, Unquarantine(s, a, saving).0.trace)
  {
    assert Prefix(s.trace, Then(s.trace, Renamed(s.unknown - {a})));
  }

  lemma RelinquishQuiets(s: State, a: Address, lost: bool, env: Environment)
    requires Inv(s) && a in s.owners
    ensures var t := Relinquish(s, a, lost, env).0;
      Prefix(s.trace, t.trace) && EndedAndQuieted(s.trace, t.trace, a, s.owners[a], lost)
  {
    hide Relinquish, AllLegal, CrashSafe, Guarded, Quieted;
    var t := Relinquish(s, a, lost, env).0;
    var end := Then(s.trace, Ended(a, s.owners[a].session));
    RelinquishExtends(s, a, lost, env);
    assert Prefix(s.trace, end);
    PrefixTransitive(s.trace, end, t.trace);
    assert end.event == Ended(a, s.owners[a].session);
  }

  /** A cleared address stays cleared while other leases end. */
  lemma RelinquishKeepsCleared(s: State, b: Address, lost: bool, env: Environment, a: Address)
    requires Cleared(s, a)
    ensures Cleared(Relinquish(s, b, lost, env).0, a)
  {
    if b in s.owners {
      var owner := s.owners[b];
      var s1 := Note(s, Ended(b, owner.session)).(owners := s.owners - {b});
      var (s2, failure) := Quiesce(s1, b, owner.policy, lost, env);
      assert Cleared(s1, a) && Cleared(s2, a);
      if failure.None? {
        var s3 := Drive(s2, ok => Cleanup(b, "LOCAL", ok), env.local).0;
        assert Cleared(s3, a);
        PersistKeepsCleared(s3.(unknown := s3.unknown - {b}), env.saving, a);
      }
    }
  }

  lemma PersistKeepsCleared(s: State, saving: Saving, a: Address)
    requires Cleared(s, a)
    ensures Cleared(Persist(s, saving).0, a)
  {
    var r := Note(s, Renamed(s.unknown));
    assert Cleared(r, a);
  }

  /** A release that reports no failure has switched the source off and lifted its quarantine everywhere. */
  lemma RelinquishClears(s: State, a: Address, lost: bool, env: Environment)
    requires a in s.owners && s.owners[a].policy.Source?
    requires Relinquish(s, a, lost, env).1.None?
    ensures Cleared(Relinquish(s, a, lost, env).0, a)
  {
    var owner := s.owners[a];
    var s1 := Note(s, Ended(a, owner.session)).(owners := s.owners - {a});
    var s2 := Quiesce(s1, a, owner.policy, lost, env).0;
    var s3 := Drive(s2, ok => Cleanup(a, "LOCAL", ok), env.local).0;
    assert !Dirty(s3.trace, a);
    assert Persist(s3.(unknown := s3.unknown - {a}), env.saving).1;
  }

  lemma {:induction false} RelinquishAllQuiets(s: State, addresses: seq<Address>, lost: bool, envs: Environments)
    requires Inv(s) && forall i | 0 <= i < |addresses| :: addresses[i] in s.owners
    requires Ascending(addresses)
    ensures var (t, failed) := RelinquishAll(s, addresses, lost, envs);
      && Prefix(s.trace, t.trace)
      && (forall a | a in addresses :: EndedAndQuieted(s.trace, t.trace, a, s.owners[a], lost))
      && (!failed ==> forall a | a in addresses && s.owners[a].policy.Source? :: Cleared(t, a))
    decreases |addresses|
  {
    hide Inv, Relinquish, EndedAndQuieted, Cleared;
    if addresses != [] {
      var b, rest := addresses[0], addresses[1..];
      var (s1, failure) := Relinquish(s, b, lost, envs(b));
      var (t, failed) := RelinquishAll(s, addresses, lost, envs);
      RelinquishKeeps(s, b, lost, envs(b));
      RelinquishQuiets(s, b, lost, envs(b));
      RelinquishAllQuiets(s1, rest, lost, envs);
      PrefixTransitive(s.trace, s1.trace, t.trace);
      EndedAndQuietedLater(s.trace, s1.trace, t.trace, b, s.owners[b], lost);
      assert addresses == [b] + rest;
      forall a | a in rest ensures EndedAndQuieted(s.trace, t.trace, a, s.owners[a], lost) {
        EndedAndQuietedEarlier(s.trace, s1.trace, t.trace, a, s.owners[a], lost);
      }
      if !failed && s.owners[b].policy.Source? {
        RelinquishClears(s, b, lost, envs(b));
        RelinquishAllKeepsCleared(s1, rest, lost, envs, b);
      }
    }
  }

  lemma {:induction false} RelinquishAllKeepsCleared(s: State, addresses: seq<Address>, lost: bool, envs: Environments,
      a: Address)
    requires Cleared(s, a)
    ensures Cleared(RelinquishAll(s, addresses, lost, envs).0, a)
    decreases |addresses|
  {
    hide Cleared, Relinquish;
    if addresses != [] {
      RelinquishKeepsCleared(s, addresses[0], lost, envs(addresses[0]), a);
      RelinquishAllKeepsCleared(Relinquish(s, addresses[0], lost, envs(addresses[0])).0, addresses[1..], lost, envs, a);
    }
  }

  ghost predicate Ascending(l: seq<Address>) {
    forall i, j | 0 <= i < j < |l| :: l[i] < l[j]
  }

  lemma {:induction false} LeasedToAscends(owners: map<Address, Owner>, session: string, n: nat)
    requires n <= 256
    ensures Ascending(LeasedTo(owners, session, n))
  {
    if n > 0 {
      LeasedToAscends(owners, session, n - 1);
      LeasedToIsExact(owners, session, n - 1);
      var before := LeasedTo(owners, session, n - 1);
      forall i | 0 <= i < |before| ensures before[i] < n - 1 {
        assert before[i] in before;
      }
    }
  }

  lemma DisconnectQuiets(s: State, session: string, lost: bool, envs: Environments)
    requires Inv(s)
    ensures var (t, failed) := Disconnect(s, session, lost, envs);
      && Prefix(s.trace, t.trace)
      && (forall a | a in s.owners && s.owners[a].session == session ::
            EndedAndQuieted(s.trace, t.trace, a, s.owners[a], lost))
      && (!failed ==>
            forall a | a in s.owners && s.owners[a].session == session && s.owners[a].policy.Source? :: Cleared(t, a))
  {
    hide Inv, EndedAndQuieted, Cleared, RelinquishAll;
    LeasedToIsExact(s.owners, session, 256);
    LeasedToAscends(s.owners, session, 256);
    RelinquishAllQuiets(s, LeasedTo(s.owners, session, 256), lost, envs);
  }

  /** What makes a session's lease on `a` end: its own release or close, or the loss of its connection. */
  predicate Ends(action: Action, session: string, a: Address) {
    action.session == session && (action.Drop? || action.request == Close || action.request == Release(a))
  }

  lemma OwnReleaseEnds(s: State, action: Action, a: Address)
    requires Inv(s) && a in s.owners && Ends(action, s.owners[a].session, a)
    ensures var t := Perform(s, action);
      a !in t.owners && EndedAndQuieted(s.trace, t.trace, a, s.owners[a], action.Drop?)
  {
    hide EndedAndQuieted, Relinquish, RelinquishAll, LeasedTo, AllLegal, CrashSafe, Leases;
    if action.Handle? && action.request.Release? {
      RelinquishKeeps(s, a, false, action.envs(a));
      RelinquishQuiets(s, a, false, action.envs(a));
    } else {
      DisconnectEndsLeases(s, action.session, action.Drop?, action.envs);
      DisconnectQuiets(s, action.session, action.Drop?, action.envs);
    }
  }

  /** A request or a lost connection ends no lease but those `Ends` names. */
  lemma OthersStay(s: State, action: Action, a: Address)
    requires Inv(s) && a in s.owners && !Ends(action, s.owners[a].session, a)
    ensures a in Perform(s, action).owners && Perform(s, action).owners[a] == s.owners[a]
  {
    hide Relinquish, RelinquishAll, LeasedTo, AllLegal, CrashSafe, ServeClaim, ServeTransfer, ServeList, ServeRecover;
    match action
    case Drop(session, envs) => DisconnectEndsLeases(s, session, true, envs);
    case Handle(session, app, request, remainingMs, envs) =>
      match request {
        case Release(b) => RelinquishKeeps(s, b, false, envs(b));
        case Close => DisconnectEndsLeases(s, session, false, envs);
        case Claim(b, policy) => ClaimKeepsLeases(s, session, app, b, policy, envs(b), a);
        case Transfer(operation, b, timeoutMs, payload) =>
          TransferAndListLeases(s, session, b, Message(operation, timeoutMs, payload), remainingMs, envs(b));
        case List => TransferAndListLeases(s, session, 1, Message("", 0, ""), 0, envs(1));
        case Recover(b, model) => RecoverLeases(s, b, model, envs(b));
        case Status =>
      }
  }

  lemma ClaimKeepsLeases(s: State, session: string, app: string, b: Address, policy: Policy, env: Environment,
      a: Address)
    requires a in s.owners
    ensures var t := ServeClaim(s, session, app, b, policy, env).0; a in t.owners && t.owners[a] == s.owners[a]
  {
    ClaimLeases(s, session, app, b, policy, env);
  }

  /**
   Leases end exactly when their own session releases, closes or is lost; and unless the controller had
   faulted by then, a source is then commanded OFF, a lost instrument cleared, any other returned to local.
   */
  lemma EndedLeasesAreQuieted(s: State, action: Action, a: Address)
    requires Inv(s) && a in s.owners
    ensures var t := Perform(s, action);
      && (a !in t.owners <==> Ends(action, s.owners[a].session, a))
      && (a !in t.owners ==> EndedAndQuieted(s.trace, t.trace, a, s.owners[a], action.Drop?))
  {
    if Ends(action, s.owners[a].session, a) {
      OwnReleaseEnds(s, action, a);
    } else {
      OthersStay(s, action, a);
    }
  }

  /** A release or close answered without an error leaves the session's sources off and out of every journal. */
  lemma GoodReleasesClear(s: State, action: Action, a: Address)
    requires Inv(s) && a in s.owners && s.owners[a].policy.Source?
    requires action.Handle? && Ends(action, s.owners[a].session, a)
    requires Serve(s, action.session, action.app, action.request, action.remainingMs, action.envs).1.Ok?
    ensures Cleared(Perform(s, action), a)
  {
    hide Relinquish, RelinquishAll, LeasedTo, AllLegal, CrashSafe, Leases, Cleared;
    if action.request.Release? {
      RelinquishClears(s, a, false, action.envs(a));
    } else {
      DisconnectQuiets(s, action.session, false, action.envs);
    }
  }

  lemma VerifyOffExtends(s: State, a: Address, model: string, env: Environment)
    ensures Prefix(s.trace, VerifyOff(s, a, model, env).0.trace)
  {
    assert Prefix(s.trace, Then(s.trace, Verified(a, model, env.verify.Ok?)));
  }

  lemma PersistExtends(s: State, saving: Saving)
    ensures Prefix(s.trace, Persist(s, saving).0.trace)
  {
    assert Prefix(s.trace, Then(s.trace, Renamed(s.unknown)));
  }

  lemma ClaimExtends(s: State, session: string, app: string, a: Address, policy: Policy, env: Environment)
    ensures Prefix(s.trace, ServeClaim(s, session, app, a, policy, env).0.trace)
  {
    var s1 := Note(s, Prepared(true));
    assert Prefix(s.trace, s1.trace);
    if policy.Source? {
      var s2 := VerifyOff(s1, a, policy.model, env).0;
      VerifyOffExtends(s1, a, policy.model, env);
      PrefixTransitive(s.trace, s1.trace, s2.trace);
      var u2 := s2.(unknown := s2.unknown[a := policy.model]);
      PersistExtends(u2, env.saving);
      PrefixTransitive(s.trace, s2.trace, Persist(u2, env.saving).0.trace);
    }
  }

  lemma RecoverExtends(s: State, a: Address, model: string, env: Environment)
    ensures Prefix(s.trace, ServeRecover(s, a, model, env).0.trace)
  {
    var s1 := VerifyOff(s, a, model, env).0;
    VerifyOffExtends(s, a, model, env);
    var u1 := s1.(unknown := s1.unknown - {a});
    PersistExtends(u1, env.saving);
    PrefixTransitive(s.trace, s1.trace, Persist(u1, env.saving).0.trace);
  }

  /** Nothing that reached the bus or the journal is ever taken back. */
  lemma PerformExtends(s: State, action: Action)
    requires Inv(s)
    ensures Prefix(s.trace, Perform(s, action).trace)
  {
    hide Inv, EndedAndQuieted, Relinquish, RelinquishAll, LeasedTo, ServeClaim, ServeRecover;
    match action
    case Drop(session, envs) => DisconnectQuiets(s, session, true, envs);
    case Handle(session, app, request, remainingMs, envs) =>
      match request {
        case Release(a) =>
          if a in s.owners {
            RelinquishQuiets(s, a, false, envs(a));
          }
        case Close => DisconnectQuiets(s, session, false, envs);
        case Claim(a, policy) => ClaimExtends(s, session, app, a, policy, envs(a));
        case Recover(a, model) => RecoverExtends(s, a, model, envs(a));
        case _ =>
      }
  }

  // ---- The quarantine of what ended ----

  /** What a save leaves for a restart to find: the old contents, either, or the new. */
  lemma SavesDecideTheDisk(s: State, saving: Saving)
    ensures var (t, saved) := Persist(s, saving);
      && (saved <==> saving.Saved?) && t == s.(trace := t.trace)
      && Durable(t.trace) == match saving
                             case Saved => {s.unknown}
                             case FailedBefore => Durable(s.trace)
                             case FailedAfter => Durable(s.trace) + {s.unknown}
  {
    assert Durable(Then(Then(s.trace, Renamed(s.unknown)), Synced)) == {s.unknown};
  }

  /** A release that fails leaves the quarantine as it was; no release touches another address. */
  lemma RelinquishUnquarantines(s: State, a: Address, lost: bool, env: Environment)
    ensures var (t, failure) := Relinquish(s, a, lost, env);
      t.unknown == s.unknown || (failure.None? && t.unknown == s.unknown - {a})
  {
  }

  lemma {:induction false} RelinquishAllQuarantines(s: State, addresses: seq<Address>, lost: bool, envs: Environments,
      a: Address)
    requires Inv(s) && Ascending(addresses) && forall i | 0 <= i < |addresses| :: addresses[i] in s.owners
    requires a in s.unknown && (a in addresses ==> s.owners[a].policy.Source?)
    ensures var t := RelinquishAll(s, addresses, lost, envs).0;
      || (a in t.unknown && t.unknown[a] == s.unknown[a])
      || (a in addresses && Cleared(t, a))
    decreases |addresses|
  {
    hide Inv, Relinquish, Cleared;
    if addresses != [] {
      var b, rest := addresses[0], addresses[1..];
      var (s1, failure) := Relinquish(s, b, lost, envs(b));
      RelinquishKeeps(s, b, lost, envs(b));
      RelinquishUnquarantines(s, b, lost, envs(b));
      assert addresses == [b] + rest;
      if a == b && failure.None? {
        RelinquishClears(s, b, lost, envs(b));
        RelinquishAllKeepsCleared(s1, rest, lost, envs, a);
      } else {
        RelinquishAllQuarantines(s1, rest, lost, envs, a);
      }
    }
  }

  /**
   However a source's lease ends, afterwards the source is off and out of every journal, or still quarantined in
   memory under its model and so refused to everyone until it is recovered.
   */
  lemma EndedSourcesStayQuarantined(s: State, action: Action, a: Address)
    requires Inv(s) && a in s.owners && s.owners[a].policy.Source? && Ends(action, s.owners[a].session, a)
    ensures var t := Perform(s, action);
      Cleared(t, a) || (a in t.unknown && t.unknown[a] == s.owners[a].policy.model)
  {
    hide Relinquish, RelinquishAll, LeasedTo, AllLegal, CrashSafe, Leases, Cleared;
    if action.Handle? && action.request.Release? {
      RelinquishUnquarantines(s, a, false, action.envs(a));
      if Relinquish(s, a, false, action.envs(a)).1.None? {
        RelinquishClears(s, a, false, action.envs(a));
      }
    } else {
      LeasedToIsExact(s.owners, action.session, 256);
      LeasedToAscends(s.owners, action.session, 256);
      RelinquishAllQuarantines(s, LeasedTo(s.owners, action.session, 256), action.Drop?, action.envs, a);
    }
  }
}
