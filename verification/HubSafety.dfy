/** What every step of the controller keeps, and safety over whole runs. */
module HubSafety {
  import opened Wrappers
  import opened HubTrace
  import opened HubCore

  /** Sources whose output may be live: dirty, or leased to a client. */
  ghost predicate AtRisk(s: State, a: Address) {
    Dirty(s.trace, a) || (a in s.owners && s.owners[a].policy.Source?)
  }

  /** Quarantined in memory and in every journal a restart may find. */
  ghost predicate Quarantined(s: State, a: Address) {
    && a in s.unknown
    && forall c :: c in Durable(s.trace) ==> a in c && c[a] == s.unknown[a]
  }

  ghost predicate Leases(s: State) {
    && (forall a: Address :: Holder(s.trace, a) == if a in s.owners then Some(s.owners[a].session) else None)
    && (Faulted(s.trace) <==> s.fault.Some?)
  }

  ghost predicate Guarded(s: State) {
    && (forall a: Address :: AtRisk(s, a) ==> Quarantined(s, a))
    && (forall a | a in s.owners && s.owners[a].policy.Source? ::
          a in s.unknown && s.unknown[a] == s.owners[a].policy.model)
    && (forall a | a in s.owners :: ValidAddress(a) && a in s.devices && s.devices[a] == s.owners[a].policy)
  }

  ghost predicate Inv(s: State) {
    Leases(s) && Guarded(s) && AllLegal(s.trace) && CrashSafe(s.trace)
  }

  /** Bus events, as opposed to journal writes and lease bookkeeping. */
  ghost predicate BusEvent(e: Event) {
    e.Prepared? || e.Verified? || e.Off? || e.Client? || e.Cleanup? || e.Listed?
  }

  ghost predicate Failing(e: Event) {
    (e.Prepared? || e.Client? || e.Cleanup? || e.Listed?) && !e.ok
  }

  lemma BusKeeps(s: State, e: Event, fault: Option<string>)
    requires Inv(s) && BusEvent(e) && Legal(s.trace, e)
    requires e.Client? ==> e.address in s.owners && e.source == s.owners[e.address].policy.Source?
    requires fault.Some? <==> Failing(e)
    ensures Inv(Note(s, e).(fault := fault))
  {
    var t := Note(s, e).(fault := fault);
    forall a: Address
      ensures Holder(t.trace, a) == Holder(s.trace, a)
      ensures AtRisk(t, a) ==> AtRisk(s, a)
    {
    }
    GuardCarriesOver(s, t);
  }

  lemma QuarantineKeeps(s: State, unknown: Journal)
    requires Inv(s)
    requires forall a: Address :: AtRisk(s, a) ==> a in unknown && unknown[a] == s.unknown[a]
    ensures Inv(s.(unknown := unknown))
  {
    var t := s.(unknown := unknown);
    forall a: Address | AtRisk(t, a) ensures Quarantined(t, a) {
      assert AtRisk(s, a) && Quarantined(s, a);
    }
    forall a | a in t.owners && t.owners[a].policy.Source?
      ensures a in t.unknown && t.unknown[a] == t.owners[a].policy.model
    {
      assert AtRisk(s, a);
    }
  }

  lemma RenameKeeps(s: State)
    requires Inv(s)
    ensures var t := Note(s, Renamed(s.unknown));
      Inv(t) && LastRenamed(t.trace) == s.unknown && s.unknown in Durable(t.trace)
  {
    var t := Note(s, Renamed(s.unknown));
    forall a: Address | AtRisk(t, a) ensures Quarantined(t, a) {
      assert AtRisk(s, a) && Quarantined(s, a);
    }
    assert forall a: Address :: Dirty(t.trace, a) ==> AtRisk(t, a);
  }

  lemma PersistKeeps(s: State, saving: Saving)
    requires Inv(s)
    ensures var (t, saved) := Persist(s, saving);
      && Inv(t)
      && (saved ==> Durable(t.trace) == {s.unknown})
  {
    RenameKeeps(s);
    if saving.Saved? {
      var r := Note(s, Renamed(s.unknown));
      var t := Note(r, Synced);
      assert Durable(t.trace) == {s.unknown};
      forall a: Address | AtRisk(t, a) ensures Quarantined(t, a) {
        assert AtRisk(r, a) && Quarantined(r, a);
      }
      assert forall a: Address :: Dirty(t.trace, a) ==> AtRisk(t, a);
    }
  }

  /** A step that adds no risk and leaves the quarantine alone keeps everyone guarded. */
  lemma GuardCarriesOver(s: State, t: State)
    requires Guarded(s)
    requires t.unknown == s.unknown && Durable(t.trace) == Durable(s.trace)
    requires forall a: Address :: AtRisk(t, a) ==> AtRisk(s, a)
    ensures forall a: Address :: AtRisk(t, a) ==> Quarantined(t, a)
    ensures forall a: Address :: Dirty(t.trace, a) ==> OnDisk(t.trace, a)
  {
    forall a: Address | AtRisk(t, a) ensures Quarantined(t, a) {
      assert Quarantined(s, a);
    }
    forall a: Address | Dirty(t.trace, a) ensures OnDisk(t.trace, a) {
      assert AtRisk(t, a);
    }
  }

  lemma EndKeeps(s: State, a: Address)
    requires Inv(s) && a in s.owners
    ensures Inv(Note(s, Ended(a, s.owners[a].session)).(owners := s.owners - {a}))
  {
    var t := Note(s, Ended(a, s.owners[a].session)).(owners := s.owners - {a});
    forall b: Address ensures AtRisk(t, b) ==> AtRisk(s, b) {
      assert Dirty(t.trace, b) <==> Dirty(s.trace, b);
    }
    GuardCarriesOver(s, t);
  }

  lemma GrantIsGuarded(s: State, session: string, app: string, a: Address, policy: Policy)
    requires Inv(s) && a !in s.owners && (policy.Source? ==> Quarantined(s, a))
    ensures var t := Grant(s, session, app, a, policy);
      && (forall b: Address :: AtRisk(t, b) ==> Quarantined(t, b))
      && (forall b: Address :: Dirty(t.trace, b) <==> Dirty(s.trace, b))
  {
    hide AllLegal, CrashSafe, Leases, FreshlyOff, Holder, Faulted;
    var t := Grant(s, session, app, a, policy);
    forall b: Address | AtRisk(t, b) ensures Quarantined(t, b) {
      assert Dirty(t.trace, b) <==> Dirty(s.trace, b);
      assert b != a ==> AtRisk(s, b);
      assert Quarantined(s, b);
    }
  }

  lemma GrantKeeps(s: State, session: string, app: string, a: Address, policy: Policy)
    requires Inv(s) && a !in s.owners && s.fault.None?
    requires ValidAddress(a) && a in s.devices && s.devices[a] == policy
    requires policy.Source? ==> FreshlyOff(s.trace, a) && Quarantined(s, a) && s.unknown[a] == policy.model
    ensures Inv(Grant(s, session, app, a, policy))
  {
    var t := Grant(s, session, app, a, policy);
    GrantIsGuarded(s, session, app, a, policy);
    assert forall b: Address :: Dirty(t.trace, b) ==> AtRisk(t, b);
  }

  lemma DriveKeeps<T>(s: State, event: bool -> Event, outcome: Result<T, string>)
    requires Inv(s)
    requires forall ok :: BusEvent(event(ok)) && (s.fault.None? ==> Legal(s.trace, event(ok)))
    requires forall ok :: Failing(event(ok)) <==> !ok
    requires forall ok :: event(ok).Client? ==>
      event(ok).address in s.owners && event(ok).source == s.owners[event(ok).address].policy.Source?
    ensures Inv(Drive(s, event, outcome).0)
  {
    if s.fault.None? {
      BusKeeps(s, event(outcome.Ok?), if outcome.Ok? then None else Some(outcome.error));
    }
  }

  lemma VerifyOffKeeps(s: State, a: Address, model: string, env: Environment)
    requires Inv(s) && s.fault.None? && a !in s.owners
    ensures var (t, off) := VerifyOff(s, a, model, env);
      && Inv(t) && t == s.(trace := t.trace)
      && (off ==> !Dirty(t.trace, a) && FreshlyOff(t.trace, a))
  {
    BusKeeps(s, Verified(a, model, env.verify.Ok?), None);
    if env.verify.Ok? {
      BusKeeps(Note(s, Verified(a, model, true)), Off(a, model, env.off.Ok?), None);
    }
  }

  /** Journalling a source known to be off, and then granting it. */
  lemma JournalledGrantKeeps(s: State, session: string, app: string, a: Address, model: string, env: Environment)
    requires Inv(s) && a !in s.owners && a !in s.unknown && s.fault.None? && FreshlyOff(s.trace, a)
    requires ValidAddress(a) && a in s.devices && s.devices[a] == Source(model)
    ensures var t := Persist(s.(unknown := s.unknown[a := model]), env.saving).0;
      Inv(t) && (env.saving.Saved? ==> Inv(Grant(t, session, app, a, Source(model))))
  {
    var t := s.(unknown := s.unknown[a := model]);
    assert forall b: Address :: AtRisk(s, b) ==> Quarantined(s, b);
    QuarantineKeeps(s, t.unknown);
    PersistKeeps(t, env.saving);
    if env.saving.Saved? {
      GrantKeeps(Persist(t, env.saving).0, session, app, a, Source(model));
    }
  }

  lemma ClaimKeeps(s: State, session: string, app: string, a: Address, policy: Policy, env: Environment)
    requires Inv(s)
    ensures Inv(ServeClaim(s, session, app, a, policy, env).0)
  {
    hide AllLegal, CrashSafe, Grant, VerifyOff, Guarded;
    if ValidAddress(a) && s.fault.None? && a !in s.owners && a in s.devices && s.devices[a] == policy
       && a !in s.unknown {
      BusKeeps(s, Prepared(env.prepare.Ok?), if env.prepare.Ok? then None else Some(env.prepare.error));
      if env.prepare.Ok? {
        var s1 := Note(s, Prepared(true));
        match policy
        case Instrument => GrantKeeps(s1, session, app, a, policy);
        case Source(model) =>
          VerifyOffKeeps(s1, a, model, env);
          var (s2, off) := VerifyOff(s1, a, model, env);
          if off && model in SUPPORTED_SOURCES {
            JournalledGrantKeeps(s2, session, app, a, model, env);
          }
      }
    }
  }

  lemma RecoverKeeps(s: State, a: Address, model: string, env: Environment)
    requires Inv(s)
    ensures Inv(ServeRecover(s, a, model, env).0)
  {
    if ValidAddress(a) && s.fault.None? && a !in s.owners && a in s.unknown && s.unknown[a] == model {
      VerifyOffKeeps(s, a, model, env);
      var (s1, off) := VerifyOff(s, a, model, env);
      if off {
        QuarantineKeeps(s1, s1.unknown - {a});
        PersistKeeps(s1.(unknown := s1.unknown - {a}), env.saving);
      }
    }
  }

  lemma UnquarantineKeeps(s: State, a: Address, saving: Saving)
    requires Inv(s) && !AtRisk(s, a)
    ensures Inv(Unquarantine(s, a, saving).0)
  {
    var s0 := s.(unknown := s.unknown - {a});
    QuarantineKeeps(s, s0.unknown);
    PersistKeeps(s0, saving);
    var (s1, saved) := Persist(s0, saving);
    forall b: Address ensures AtRisk(s1, b) <==> AtRisk(s, b) {
      assert Dirty(s1.trace, b) <==> Dirty(s.trace, b);
    }
    if !saved {
      assert forall b: Address :: AtRisk(s1, b) ==> Quarantined(s1, b);
      QuarantineKeeps(s1, s.unknown);
    }
  }

  lemma QuiesceKeeps(s: State, a: Address, policy: Policy, lost: bool, env: Environment)
    requires Inv(s) && a !in s.owners
    ensures var (t, failure) := Quiesce(s, a, policy, lost, env);
      && Inv(t) && t.owners == s.owners
      && (failure.None? && policy.Source? ==> !Dirty(t.trace, a))
  {
    if policy.Source? {
      if s.fault.None? {
        BusKeeps(s, Off(a, policy.model, env.off.Ok?), None);
      }
    } else if lost {
      DriveKeeps(s, ok => Cleanup(a, "CLEAR", ok), env.clear);
    }
  }

  lemma RelinquishKeeps(s: State, a: Address, lost: bool, env: Environment)
    requires Inv(s)
    ensures var (t, failure) := Relinquish(s, a, lost, env);
      Inv(t) && t.owners == s.owners - {a}
  {
    if a in s.owners {
      var owner := s.owners[a];
      EndKeeps(s, a);
      var s1 := Note(s, Ended(a, owner.session)).(owners := s.owners - {a});
      QuiesceKeeps(s1, a, owner.policy, lost, env);
      var (s2, failure) := Quiesce(s1, a, owner.policy, lost, env);
      if failure.None? {
        DriveKeeps(s2, ok => Cleanup(a, "LOCAL", ok), env.local);
        var (s3, left) := Drive(s2, ok => Cleanup(a, "LOCAL", ok), env.local);
        if left.Some? && owner.policy.Source? {
          assert !Dirty(s3.trace, a);
          UnquarantineKeeps(s3, a, env.saving);
        }
      }
    }
  }

  lemma {:induction false} RelinquishAllKeeps(s: State, addresses: seq<Address>, lost: bool, envs: Environments)
    requires Inv(s)
    ensures var (t, failed) := RelinquishAll(s, addresses, lost, envs);
      Inv(t) && t.owners == s.owners - (set a | a in addresses)
    decreases |addresses|
  {
    hide Inv, Relinquish;
    if addresses != [] {
      RelinquishKeeps(s, addresses[0], lost, envs(addresses[0]));
      var (s1, failure) := Relinquish(s, addresses[0], lost, envs(addresses[0]));
      RelinquishAllKeeps(s1, addresses[1..], lost, envs);
      assert addresses == [addresses[0]] + addresses[1..];
    }
  }

  lemma {:induction false} LeasedToIsExact(owners: map<Address, Owner>, session: string, n: nat)
    requires n <= 256
    ensures forall a: Address ::
      a in LeasedTo(owners, session, n) <==> a < n && a in owners && owners[a].session == session
  {
    if n > 0 {
      LeasedToIsExact(owners, session, n - 1);
    }
  }

  /** A disconnect ends every lease of the session, whatever the cleanup does, and no other. */
  lemma DisconnectEndsLeases(s: State, session: string, lost: bool, envs: Environments)
    requires Inv(s)
    ensures var t := Disconnect(s, session, lost, envs).0;
      && Inv(t)
      && (forall a: Address :: a in t.owners <==> a in s.owners && s.owners[a].session != session)
      && (forall a | a in t.owners :: t.owners[a] == s.owners[a])
  {
    LeasedToIsExact(s.owners, session, 256);
    RelinquishAllKeeps(s, LeasedTo(s.owners, session, 256), lost, envs);
  }

  lemma TransferKeeps(s: State, session: string, a: Address, m: Message, remainingMs: nat, env: Environment)
    requires Inv(s)
    ensures Inv(ServeTransfer(s, session, a, m, remainingMs, env).0)
  {
    if a in s.owners && s.owners[a].session == session {
      var sent := m.(timeoutMs := Least(remainingMs, m.timeoutMs));
      DriveKeeps(s, ok => Client(a, session, s.owners[a].policy.Source?, sent, ok), env.transfer);
    }
  }

  lemma ListKeeps(s: State, env: Environment)
    requires Inv(s)
    ensures Inv(ServeList(s, env).0)
  {
    if s.fault.None? && |s.owners| == 0 {
      DriveKeeps(s, ok => Listed(ok), env.listing);
      var (s1, found) := Drive(s, ok => Listed(ok), env.listing);
      if found.Some? {
        var t := ServeList(s, env).0;
        forall a: Address | AtRisk(t, a) ensures Quarantined(t, a) {
          assert AtRisk(s1, a) && Quarantined(s1, a);
        }
      }
    }
  }

  lemma ServeKeeps(s: State, session: string, app: string, request: Request, remainingMs: nat, envs: Environments)
    requires Inv(s)
    ensures Inv(Serve(s, session, app, request, remainingMs, envs).0)
  {
    match request
    case Status =>
    case Claim(a, policy) => ClaimKeeps(s, session, app, a, policy, envs(a));
    case Transfer(operation, a, timeoutMs, payload) =>
      TransferKeeps(s, session, a, Message(operation, timeoutMs, payload), remainingMs, envs(a));
    case Release(a) => RelinquishKeeps(s, a, false, envs(a));
    case Close => DisconnectEndsLeases(s, session, false, envs);
    case List => ListKeeps(s, envs(1));
    case Recover(a, model) => RecoverKeeps(s, a, model, envs(a));
  }

  lemma ClaimLeases(s: State, session: string, app: string, a: Address, policy: Policy, env: Environment)
    ensures var t := ServeClaim(s, session, app, a, policy, env).0;
      t.owners == s.owners || t.owners == s.owners[a := Owner(session, app, policy)]
  {
    assert policy.Source? ==> VerifyOff(Note(s, Prepared(true)), a, policy.model, env).0.owners == s.owners;
  }

  lemma TransferAndListLeases(s: State, session: string, a: Address, m: Message, remainingMs: nat, env: Environment)
    ensures ServeTransfer(s, session, a, m, remainingMs, env).0.owners == s.owners
    ensures ServeList(s, env).0.owners == s.owners
  {
  }

  lemma RecoverLeases(s: State, a: Address, model: string, env: Environment)
    ensures ServeRecover(s, a, model, env).0.owners == s.owners
  {
    assert VerifyOff(s, a, model, env).0.owners == s.owners;
  }

  /** A request can add leases of its own session only, and changes no other lease. */
  lemma ServeAddsOwnLeasesOnly(s: State, session: string, app: string, request: Request, remainingMs: nat,
      envs: Environments)
    requires Inv(s)
    ensures var t := Serve(s, session, app, request, remainingMs, envs).0;
      forall a | a in t.owners :: t.owners[a].session == session || (a in s.owners && t.owners[a] == s.owners[a])
  {
    match request
    case Release(a) => RelinquishKeeps(s, a, false, envs(a));
    case Close => DisconnectEndsLeases(s, session, false, envs);
    case Claim(a, policy) => ClaimLeases(s, session, app, a, policy, envs(a));
    case Transfer(operation, a, timeoutMs, payload) =>
      TransferAndListLeases(s, session, a, Message(operation, timeoutMs, payload), remainingMs, envs(a));
    case List => TransferAndListLeases(s, session, 1, Message("", 0, ""), 0, envs(1));
    case Recover(a, model) => RecoverLeases(s, a, model, envs(a));
    case Status =>
  }
}
