/**
 Whole runs of the instrument service: requests, disconnects, failing backends
 and journals, and crashes at any instant followed by a restart from any journal
 the disk may then hold.
 */
module HubRuns {
  import opened Wrappers
  import opened HubTrace
  import opened HubCore
  import opened HubSafety

  datatype Action =
    | Handle(session: string, app: string, request: Request, remainingMs: nat, envs: Environments)
    | Drop(session: string, envs: Environments)

  /** A crash leaves only what had `reached` the bus and the disk by then. */
  datatype Step =
    | Act(action: Action)
    | Crash(action: Action, reached: Trace, devices: Devices, journal: Journal)

  function Perform(s: State, action: Action): State {
    match action
    case Handle(session, app, request, remainingMs, envs) => Serve(s, session, app, request, remainingMs, envs).0
    case Drop(session, envs) => Disconnect(s, session, true, envs).0
  }

  ghost predicate Enabled(s: State, step: Step) {
    step.Crash? ==>
      && Prefix(s.trace, step.reached) && Prefix(step.reached, Perform(s, step.action).trace)
      && step.journal in Durable(step.reached)
      && ValidDevices(step.devices)
  }

  ghost function After(s: State, step: Step): State
    requires Enabled(s, step)
  {
    match step
    case Act(action) => Perform(s, action)
    case Crash(_, reached, devices, journal) => New(devices, Contents(journal), reached).value
  }

  /** First start, with the quarantine left by an earlier installation. */
  function Boot(devices: Devices, journal: Journal): Result<State, ErrorCode> {
    New(devices, Contents(journal), Then(Then(Nil, Renamed(journal)), Synced))
  }

  ghost predicate Runnable(s: State, steps: seq<Step>)
    decreases |steps|
  {
    steps != [] ==> Enabled(s, steps[0]) && Runnable(After(s, steps[0]), steps[1..])
  }

  ghost function Run(s: State, steps: seq<Step>): State
    requires Runnable(s, steps)
    decreases |steps|
  {
    if steps == [] then s else Run(After(s, steps[0]), steps[1..])
  }

  lemma PerformKeeps(s: State, action: Action)
    requires Inv(s)
    ensures Inv(Perform(s, action))
  {
    match action
    case Handle(session, app, request, remainingMs, envs) => ServeKeeps(s, session, app, request, remainingMs, envs);
    case Drop(session, envs) => DisconnectEndsLeases(s, session, true, envs);
  }

  lemma StartIsSafe(journal: Journal, reached: Trace)
    requires AllLegal(reached) && CrashSafe(reached) && journal in Durable(reached)
    ensures var t := Then(reached, Started(journal));
      && AllLegal(t) && CrashSafe(t) && Durable(t) == Durable(reached) && !Faulted(t)
      && (forall a: Address :: Dirty(t, a) ==> Dirty(reached, a)) && (forall a: Address :: Holder(t, a) == None)
  {
    var t := Then(reached, Started(journal));
    assert Durable(t) == Durable(reached);
    forall a: Address | Dirty(t, a) ensures OnDisk(t, a) {
      assert Dirty(reached, a) && OnDisk(reached, a);
    }
  }

  /** A restart from any durable journal is safe, wherever the crash fell. */
  lemma RestartKeeps(devices: Devices, journal: Journal, reached: Trace)
    requires AllLegal(reached) && CrashSafe(reached)
    requires ValidDevices(devices) && journal in Durable(reached)
    ensures Inv(New(devices, Contents(journal), reached).value)
  {
    hide AllLegal, Faulted, Holder, Durable, Dirty, CrashSafe;
    StartIsSafe(journal, reached);
    var s := Fresh(devices, journal, reached);
    forall a: Address | AtRisk(s, a) ensures Quarantined(s, a) {
      DirtyIsOnDisk(reached, a);
    }
  }

  lemma DirtyIsOnDisk(t: Trace, a: Address)
    requires CrashSafe(t) && Dirty(t, a)
    ensures OnDisk(t, a)
  {
  }

  lemma AfterKeeps(s: State, step: Step)
    requires Inv(s) && Enabled(s, step)
    ensures Inv(After(s, step))
  {
    PerformKeeps(s, step.action);
    if step.Crash? {
      PrefixKeeps(step.reached, Perform(s, step.action).trace);
      RestartKeeps(step.devices, step.journal, step.reached);
    }
  }

  lemma {:induction false} RunKeeps(s: State, steps: seq<Step>)
    requires Inv(s) && Runnable(s, steps)
    ensures Inv(Run(s, steps))
    decreases |steps|
  {
    if steps != [] {
      AfterKeeps(s, steps[0]);
      RunKeeps(After(s, steps[0]), steps[1..]);
    }
  }

  lemma BootIsSafe(devices: Devices, journal: Journal)
    requires Boot(devices, journal).Ok?
    ensures Inv(Boot(devices, journal).value)
  {
    var t := Then(Then(Nil, Renamed(journal)), Synced);
    assert AllLegal(t.past) && CrashSafe(t.past);
    assert AllLegal(t) && CrashSafe(t) && Durable(t) == {journal};
    RestartKeeps(devices, journal, t);
  }

  /**
   Crash-safe quarantine. At every instant of every run, a source that received
   a client transfer since its last verified OFF is named by every journal that a
   restart at that instant could read.
   */
  lemma DirtySourcesSurviveAnyCrash(devices: Devices, journal: Journal, steps: seq<Step>, instant: Trace, a: Address)
    requires Boot(devices, journal).Ok? && Runnable(Boot(devices, journal).value, steps)
    requires Prefix(instant, Run(Boot(devices, journal).value, steps).trace)
    requires Dirty(instant, a)
    ensures forall c :: c in Durable(instant) ==> a in c
  {
    BootIsSafe(devices, journal);
    RunKeeps(Boot(devices, journal).value, steps);
    PrefixKeeps(instant, Run(Boot(devices, journal).value, steps).trace);
    assert OnDisk(instant, a);
  }

  /** A dirty source without a lease cannot be claimed by anyone, and refusing costs nothing. */
  lemma QuarantineRefusesClaims(s: State, session: string, app: string, a: Address, policy: Policy, env: Environment)
    requires Inv(s) && Dirty(s.trace, a) && a !in s.owners
    ensures ServeClaim(s, session, app, a, policy, env).0 == s
    ensures ServeClaim(s, session, app, a, policy, env).1.Err?
  {
    assert AtRisk(s, a) && Quarantined(s, a);
  }

  /** The action asks to recover `a` and the source verifies OFF. */
  predicate RecoversOff(action: Action, a: Address) {
    action.Handle? && action.request.Recover? && action.request.address == a
    && action.envs(a).verify.Ok? && action.envs(a).off.Ok?
  }

  ghost predicate DirtyUnleased(s: State, a: Address) {
    Dirty(s.trace, a) && a !in s.owners
  }

  /** Between `base` and `t`, `a` was neither leased nor verified OFF. */
  ghost predicate Untouched(base: Trace, t: Trace, a: Address) {
    t == base || (t.Then? && Untouched(base, t.past, a)
                  && !(t.event.Off? && t.event.address == a && t.event.ok)
                  && !(t.event.Granted? && t.event.address == a))
  }

  function Size(t: Trace): nat {
    match t case Nil => 0 case Then(past, _) => Size(past) + 1
  }

  lemma {:induction false} PrefixSize(p: Trace, t: Trace)
    requires Prefix(p, t)
    ensures Size(p) <= Size(t)
  {
    if p != t {
      PrefixSize(p, t.past);
    }
  }

  lemma {:induction false} UntouchedJoins(base: Trace, mid: Trace, t: Trace, a: Address)
    requires Untouched(base, mid, a) && Untouched(mid, t, a)
    ensures Untouched(base, t, a)
  {
    if t != mid {
      UntouchedJoins(base, mid, t.past, a);
    }
  }

  lemma {:induction false} UntouchedSoFar(base: Trace, mid: Trace, t: Trace, a: Address)
    requires Untouched(base, t, a) && Prefix(base, mid) && Prefix(mid, t)
    ensures Untouched(base, mid, a)
  {
    if mid != t {
      PrefixSize(base, mid);
      PrefixSize(mid, t.past);
      UntouchedSoFar(base, mid, t.past, a);
    }
  }

  lemma {:induction false} UntouchedStaysDirty(base: Trace, t: Trace, a: Address)
    requires Untouched(base, t, a) && Dirty(base, a)
    ensures Dirty(t, a)
  {
    if t != base {
      UntouchedStaysDirty(base, t.past, a);
    }
  }

  lemma RelinquishUntouched(s: State, b: Address, lost: bool, env: Environment, a: Address)
    requires a !in s.owners
    ensures Untouched(s.trace, Relinquish(s, b, lost, env).0.trace, a)
    ensures a !in Relinquish(s, b, lost, env).0.owners
  {
    if b in s.owners {
      var owner := s.owners[b];
      var s1 := Note(s, Ended(b, owner.session)).(owners := s.owners - {b});
      var (s2, failure) := Quiesce(s1, b, owner.policy, lost, env);
      assert Untouched(s.trace, s1.trace, a) && Untouched(s1.trace, s2.trace, a);
      UntouchedJoins(s.trace, s1.trace, s2.trace, a);
      if failure.None? {
        var (s3, left) := Drive(s2, ok => Cleanup(b, "LOCAL", ok), env.local);
        assert Untouched(s2.trace, s3.trace, a);
        UntouchedJoins(s.trace, s2.trace, s3.trace, a);
        if left.Some? && owner.policy.Source? {
          var s4 := Unquarantine(s3, b, env.saving).0;
          PersistUntouched(s3.(unknown := s3.unknown - {b}), env.saving, a);
          UntouchedJoins(s.trace, s3.trace, s4.trace, a);
        }
      }
    }
  }

  lemma PersistUntouched(s: State, saving: Saving, a: Address)
    ensures Untouched(s.trace, Persist(s, saving).0.trace, a)
  {
    var r := Then(s.trace, Renamed(s.unknown));
    assert Untouched(s.trace, r, a);
    assert Untouched(s.trace, Then(r, Synced), a);
  }

  lemma {:induction false} RelinquishAllUntouched(s: State, addresses: seq<Address>, lost: bool,
      envs: Environments, a: Address)
    requires a !in s.owners
    ensures Untouched(s.trace, RelinquishAll(s, addresses, lost, envs).0.trace, a)
    ensures a !in RelinquishAll(s, addresses, lost, envs).0.owners
    decreases |addresses|
  {
    if addresses != [] {
      var s1 := Relinquish(s, addresses[0], lost, envs(addresses[0])).0;
      RelinquishUntouched(s, addresses[0], lost, envs(addresses[0]), a);
      RelinquishAllUntouched(s1, addresses[1..], lost, envs, a);
      UntouchedJoins(s.trace, s1.trace, RelinquishAll(s, addresses, lost, envs).0.trace, a);
    }
  }

  lemma VerifyOffUntouched(s: State, b: Address, model: string, env: Environment, a: Address)
    requires b == a ==> !(env.verify.Ok? && env.off.Ok?)
    ensures Untouched(s.trace, VerifyOff(s, b, model, env).0.trace, a)
  {
    assert Untouched(s.trace, Then(s.trace, Verified(b, model, env.verify.Ok?)), a);
  }

  lemma ClaimUntouched(s: State, session: string, app: string, b: Address, policy: Policy, env: Environment, a: Address)
    requires a !in s.owners && a in s.unknown
    ensures Untouched(s.trace, ServeClaim(s, session, app, b, policy, env).0.trace, a)
    ensures a !in ServeClaim(s, session, app, b, policy, env).0.owners
  {
    if b != a {
      var s1 := Note(s, Prepared(true));
      assert Untouched(s.trace, s1.trace, a);
      if policy.Source? {
        VerifyOffUntouched(s1, b, policy.model, env, a);
        var s2 := VerifyOff(s1, b, policy.model, env).0;
        UntouchedJoins(s.trace, s1.trace, s2.trace, a);
        var u2 := s2.(unknown := s2.unknown[b := policy.model]);
        var s3 := Persist(u2, env.saving).0;
        PersistUntouched(u2, env.saving, a);
        UntouchedJoins(s.trace, s2.trace, s3.trace, a);
        assert Untouched(s.trace, Grant(s3, session, app, b, policy).trace, a);
      }
    }
  }

  lemma RecoverUntouched(s: State, b: Address, model: string, env: Environment, a: Address)
    requires a !in s.owners
    requires b == a ==> !(env.verify.Ok? && env.off.Ok?)
    ensures Untouched(s.trace, ServeRecover(s, b, model, env).0.trace, a)
    ensures a !in ServeRecover(s, b, model, env).0.owners
  {
    VerifyOffUntouched(s, b, model, env, a);
    var s1 := VerifyOff(s, b, model, env).0;
    var u1 := s1.(unknown := s1.unknown - {b});
    PersistUntouched(u1, env.saving, a);
    UntouchedJoins(s.trace, s1.trace, Persist(u1, env.saving).0.trace, a);
  }

  lemma PerformUntouched(s: State, action: Action, a: Address)
    requires Inv(s) && DirtyUnleased(s, a) && !RecoversOff(action, a)
    ensures Untouched(s.trace, Perform(s, action).trace, a)
    ensures a !in Perform(s, action).owners
  {
    hide ServeClaim, ServeRecover, Relinquish, RelinquishAll, LeasedTo, AllLegal, CrashSafe, Leases;
    assert AtRisk(s, a) && Quarantined(s, a);
    match action
    case Drop(session, envs) => RelinquishAllUntouched(s, LeasedTo(s.owners, session, 256), true, envs, a);
    case Handle(session, app, request, remainingMs, envs) =>
      match request {
        case Claim(b, policy) => ClaimUntouched(s, session, app, b, policy, envs(b), a);
        case Release(b) => RelinquishUntouched(s, b, false, envs(b), a);
        case Close => RelinquishAllUntouched(s, LeasedTo(s.owners, session, 256), false, envs, a);
        case Recover(b, model) => RecoverUntouched(s, b, model, envs(b), a);
        case Transfer(_, b, _, _) =>
        case List =>
        case Status =>
      }
  }

  /**
   Quarantine ends only by recovery. Whatever else is requested, fails or
   crashes, a dirty source that nobody leases stays dirty and unleased until a
   Recover of that address verifies it OFF.
   */
  lemma {:induction false} OnlyRecoveryLiftsQuarantine(s: State, steps: seq<Step>, a: Address)
    requires Inv(s) && Runnable(s, steps) && DirtyUnleased(s, a)
    requires forall i | 0 <= i < |steps| :: !RecoversOff(steps[i].action, a)
    ensures DirtyUnleased(Run(s, steps), a)
    decreases |steps|
  {
    if steps != [] {
      var step := steps[0];
      PerformUntouched(s, step.action, a);
      var t := Perform(s, step.action).trace;
      if step.Crash? {
        UntouchedSoFar(s.trace, step.reached, t, a);
        UntouchedStaysDirty(s.trace, step.reached, a);
      } else {
        UntouchedStaysDirty(s.trace, t, a);
      }
      AfterKeeps(s, step);
      OnlyRecoveryLiftsQuarantine(After(s, step), steps[1..], a);
    }
  }

  /** `grant` opened a claim interval on `a` that is still open when `now` is reached. */
  ghost predicate OpenSince(grant: Trace, now: Trace, a: Address) {
    if grant == now then now.Then? && now.event.Granted? && now.event.address == a
    else now.Then? && OpenSince(grant, now.past, a)
         && !now.event.Started? && !(now.event.Ended? && now.event.address == a)
  }

  lemma {:induction false} OpenIntervalIsHeld(grant: Trace, now: Trace, a: Address)
    requires AllLegal(now) && OpenSince(grant, now, a)
    ensures grant.Then? && grant.event.Granted? && Holder(now, a) == Some(grant.event.session)
  {
    if grant != now {
      OpenIntervalIsHeld(grant, now.past, a);
    }
  }

  lemma {:induction false} HeldSince(now: Trace, a: Address) returns (grant: Trace)
    requires AllLegal(now) && Holder(now, a).Some?
    ensures Prefix(grant, now) && OpenSince(grant, now, a)
    ensures grant.Then? && grant.event.Granted? && grant.event.address == a
    ensures Some(grant.event.session) == Holder(now, a)
    ensures Legal(grant.past, grant.event)
  {
    if now.event.Granted? && now.event.address == a {
      grant := now;
    } else {
      grant := HeldSince(now.past, a);
      assert grant != now by {
        PrefixSize(grant, now.past);
      }
    }
  }

  /** Claim intervals of one address never overlap. */
  lemma {:induction false} IntervalsNeverOverlap(g1: Trace, g2: Trace, now: Trace, a: Address)
    requires AllLegal(now) && OpenSince(g1, now, a) && OpenSince(g2, now, a)
    ensures g1 == g2
  {
    if g1 == now && g2 != now {
      OpenIntervalIsHeld(g2, now.past, a);
    } else if g1 != now && g2 == now {
      OpenIntervalIsHeld(g1, now.past, a);
    } else if g1 != now {
      IntervalsNeverOverlap(g1, g2, now.past, a);
    }
  }

  /** The newest event is a client transfer inside the interval its sender opened with `grant`. */
  ghost predicate InsideOwnInterval(instant: Trace, grant: Trace)
    requires instant.Then? && instant.event.Client?
  {
    var a := instant.event.address;
    && OpenSince(grant, instant.past, a)
    && grant.Then? && grant.event.Granted? && grant.event.session == instant.event.session
    && (grant.event.source ==> FreshlyOff(grant.past, a) && OnDisk(grant.past, a))
  }

  lemma ClientEventIsExclusive(instant: Trace) returns (grant: Trace)
    requires AllLegal(instant) && instant.Then? && instant.event.Client?
    ensures InsideOwnInterval(instant, grant)
    ensures forall g :: OpenSince(g, instant.past, instant.event.address) ==> g == grant
  {
    var a := instant.event.address;
    grant := HeldSince(instant.past, a);
    forall g | OpenSince(g, instant.past, a) ensures g == grant {
      IntervalsNeverOverlap(g, grant, instant.past, a);
    }
  }

  lemma ListingIsExclusive(instant: Trace)
    requires AllLegal(instant) && instant.Then? && instant.event.Listed?
    ensures forall g, a: Address :: !OpenSince(g, instant.past, a)
  {
    forall g, a: Address ensures !OpenSince(g, instant.past, a) {
      if OpenSince(g, instant.past, a) {
        OpenIntervalIsHeld(g, instant.past, a);
      }
    }
  }

  /**
   Exclusive bus. In every run, each client transfer lies inside the one open
   claim interval of its address, which its sender opened; a source interval
   opened only after this process verified OFF and journalled the address; a
   listing ran while no interval was open at all.
   */
  lemma BusIsExclusive(devices: Devices, journal: Journal, steps: seq<Step>, instant: Trace)
    requires Boot(devices, journal).Ok? && Runnable(Boot(devices, journal).value, steps)
    requires Prefix(instant, Run(Boot(devices, journal).value, steps).trace) && instant.Then?
    ensures instant.event.Client? ==>
      exists grant :: InsideOwnInterval(instant, grant)
                      && forall g :: OpenSince(g, instant.past, instant.event.address) ==> g == grant
    ensures instant.event.Listed? ==> forall g, a: Address :: !OpenSince(g, instant.past, a)
  {
    BootIsSafe(devices, journal);
    RunKeeps(Boot(devices, journal).value, steps);
    PrefixKeeps(instant, Run(Boot(devices, journal).value, steps).trace);
    if instant.event.Client? {
      var grant := ClientEventIsExclusive(instant);
    } else if instant.event.Listed? {
      ListingIsExclusive(instant);
    }
  }

  /** A faulted controller touches the bus again only after a restart. */
  lemma FaultIsPermanent(fault: Trace, now: Trace)
    requires AllLegal(now) && Prefix(fault, now) && Faulted(fault) && fault != now
    requires BusEvent(now.event)
    ensures exists r :: Prefix(fault, r) && Prefix(r, now) && r != fault && r.Then? && r.event.Started?
  {
    assert !Faulted(now.past);
    var r := RestartBetween(fault, now.past);
    PrefixTransitive(r, now.past, now);
  }

  lemma {:induction false} RestartBetween(fault: Trace, now: Trace) returns (r: Trace)
    requires Prefix(fault, now) && Faulted(fault) && !Faulted(now)
    ensures Prefix(fault, r) && Prefix(r, now) && r != fault && r.Then? && r.event.Started?
  {
    if now.event.Started? {
      r := now;
    } else {
      r := RestartBetween(fault, now.past);
    }
  }
}
