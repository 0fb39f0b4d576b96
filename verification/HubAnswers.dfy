/** What each answer of the controller means: when a request succeeds, and what the bus and the journal then saw. */
module HubAnswers {
  import opened Wrappers
  import opened HubTrace
  import opened HubCore
  import opened HubSafety
  import opened HubRuns
  import opened HubCleanup

  ghost predicate Holds(s: State, session: string, a: Address) {
    a in s.owners && s.owners[a].session == session
  }

  /** The backend and the journal would let a free address be granted under this policy. */
  predicate Grantable(env: Environment, policy: Policy) {
    env.prepare.Ok? && (policy.Source? ==> env.verify.Ok? && env.off.Ok? && env.saving.Saved?)
  }

  /** What the bus and the journal see of a grant, in this order and nothing else. */
  ghost function GrantTrace(s: State, session: string, a: Address, policy: Policy): Trace {
    var prepared := Then(s.trace, Prepared(true));
    match policy
    case Instrument => Then(prepared, Granted(a, session, false))
    case Source(model) =>
      var off := Then(Then(prepared, Verified(a, model, true)), Off(a, model, true));
      Then(Then(Then(off, Renamed(s.unknown[a := model])), Synced), Granted(a, session, true))
  }

  /**
   A free address is granted exactly when the device map allows it, nothing is wrong with it and every backend
   call and the journal succeed; and then OFF was verified and journalled before the lease began.
   */
  lemma FreeClaims(s: State, session: string, app: string, a: Address, policy: Policy, remainingMs: nat,
      envs: Environments)
    requires Inv(s) && a !in s.owners
    ensures var (t, answer) := Serve(s, session, app, Claim(a, policy), remainingMs, envs);
      && (ValidDevices(s.devices) ==>
            (answer.Ok? <==> s.fault.None? && a in s.devices && s.devices[a] == policy && a !in s.unknown
                             && Grantable(envs(a), policy)))
      && (answer.Ok? ==> t.owners == s.owners[a := Owner(session, app, policy)]
                         && t.trace == GrantTrace(s, session, a, policy))
      && (answer.Err? ==> t.owners == s.owners)
      && (answer.Err? && ValidDevices(s.devices) ==>
            answer.error ==
            if !ValidAddress(a) then InvalidRequest
            else if t.fault.Some? then ControllerFault
            else if a in s.devices && s.devices[a] == policy then StateUnknown
            else InvalidRequest)
  {
    hide AllLegal, CrashSafe, Holder, Faulted, Durable;
  }

  /** An address already leased is confirmed to its holder under the same policy, and to nobody else. */
  lemma RepeatedClaims(s: State, session: string, app: string, a: Address, policy: Policy, remainingMs: nat,
      envs: Environments)
    requires Inv(s) && a in s.owners
    ensures var (t, answer) := Serve(s, session, app, Claim(a, policy), remainingMs, envs);
      && t == s
      && (answer.Ok? <==> s.fault.None? && Holds(s, session, a) && s.owners[a].policy == policy)
      && (answer.Err? ==>
            answer.error ==
            if s.fault.Some? then ControllerFault else if !Holds(s, session, a) then ResourceInUse else InvalidRequest)
  {
  }

  /**
   A successful claim means: the session now holds the address under that policy, its interval is open on the
   trace, and no other lease has changed.
   */
  lemma ClaimsHold(s: State, session: string, app: string, a: Address, policy: Policy, remainingMs: nat,
      envs: Environments)
    requires Inv(s)
    ensures var (t, answer) := Serve(s, session, app, Claim(a, policy), remainingMs, envs);
      && (answer.Ok? <==> t.fault.None? && Holds(t, session, a) && t.owners[a].policy == policy)
      && (answer.Ok? ==> Holder(t.trace, a) == Some(session))
      && (forall b | b != a :: b in t.owners <==> b in s.owners)
  {
    var t := Serve(s, session, app, Claim(a, policy), remainingMs, envs).0;
    ClaimKeeps(s, session, app, a, policy, envs(a));
    assert Leases(t);
    if a in s.owners {
      RepeatedClaims(s, session, app, a, policy, remainingMs, envs);
    } else {
      FreeClaims(s, session, app, a, policy, remainingMs, envs);
    }
    if ValidAddress(a) && a !in s.owners && s.fault.None? {
      ClaimFaults(s, session, app, a, policy, remainingMs, envs);
    }
  }

  lemma ClaimFaults(s: State, session: string, app: string, a: Address, policy: Policy, remainingMs: nat,
      envs: Environments)
    requires s.fault.None? && a !in s.owners
    ensures var (t, answer) := Serve(s, session, app, Claim(a, policy), remainingMs, envs);
      t.fault.Some? ==> answer == Err(ControllerFault)
  {
  }

  /** A client's message that the service lets through. */
  predicate Sendable(m: Message) {
    && m.operation in {"WRITE", "QUERY", "READ", "LOCAL", "CLEAR"}
    && |m.payload| <= 16384 && 1 <= m.timeoutMs <= 30000
  }

  /**
   A transfer reaches the bus exactly when its session holds the address, time is left, the message is well formed
   and the controller is healthy. It is then the one message sent, with no more time than is left, and the answer
   is the instrument's own; a failure faults the controller.
   */
  lemma TransfersAreCarriedOut(s: State, session: string, app: string, a: Address, m: Message, remainingMs: nat,
      envs: Environments)
    requires Inv(s)
    ensures var (t, answer) :=
        Serve(s, session, app, Transfer(m.operation, a, m.timeoutMs, m.payload), remainingMs, envs);
      var reply := envs(a).transfer;
      var limited := if remainingMs < m.timeoutMs then m.(timeoutMs := remainingMs) else m;
      if Holds(s, session, a) && remainingMs >= 1 && Sendable(m) && s.fault.None? then
        && t.trace == Then(s.trace, Client(a, session, s.owners[a].policy.Source?, limited, reply.Ok?))
        && answer == (if reply.Ok? then Ok(Text(reply.value)) else Err(ControllerFault))
        && t.fault == (if reply.Ok? then None else Some(reply.error))
      else
        && t == s
        && answer == Err(if !Holds(s, session, a) then if a in s.owners then ResourceInUse else InvalidRequest
                         else if remainingMs < 1 then Deadline
                         else if !Sendable(m) then InvalidRequest
                         else ControllerFault)
  {
  }

  /** Listing: the addresses on the bus, seen now if nobody holds any, and always those that are held. */
  lemma ListingsAreComplete(s: State, session: string, app: string, remainingMs: nat, envs: Environments)
    requires Inv(s)
    ensures var (t, answer) := Serve(s, session, app, List, remainingMs, envs);
      var listing := envs(1).listing;
      && t.owners == s.owners && t.unknown == s.unknown
      && (answer.Ok? <==> s.fault.None? && (s.owners == map[] ==> listing.Ok?))
      && (answer.Err? ==> answer.error == ControllerFault && t.fault.Some?)
      && (answer.Ok? && s.owners == map[] ==>
            && t.trace == Then(s.trace, Listed(true))
            && answer.value.Addresses?
            && (forall a :: a in answer.value.addresses <==> a in listing.value && 1 <= a <= 30)
            && t.inventory == answer.value.addresses)
      && (answer.Ok? && s.owners != map[] ==>
            t == s && answer == Ok(Addresses(s.inventory + s.owners.Keys)))
  {
    if |s.owners| == 0 {
      assert s.owners == map[];
    }
  }

  /**
   Recovery succeeds exactly on a quarantined, unleased source of that very model whose OFF is then verified and
   whose removal from the journal is saved; afterwards nothing remembers it as unverified.
   */
  lemma RecoveriesClear(s: State, session: string, app: string, a: Address, model: string, remainingMs: nat,
      envs: Environments)
    requires Inv(s)
    ensures var (t, answer) := Serve(s, session, app, Recover(a, model), remainingMs, envs);
      var env := envs(a);
      && (answer.Ok? <==> ValidAddress(a) && s.fault.None? && a !in s.owners && a in s.unknown && s.unknown[a] == model
                          && env.verify.Ok? && env.off.Ok? && env.saving.Saved?)
      && (answer.Err? ==>
            answer.error ==
            if !ValidAddress(a) then InvalidRequest
            else if s.fault.Some? then ControllerFault
            else if a in s.owners then ResourceInUse
            else if a !in s.unknown || s.unknown[a] != model then InvalidRequest
            else StateUnknown)
      && (answer.Ok? ==>
            && t.trace == Then(Then(Then(Then(s.trace, Verified(a, model, true)), Off(a, model, true)),
                                    Renamed(s.unknown - {a})), Synced)
            && Cleared(t, a))
      && t.owners == s.owners && t.fault == s.fault
  {
    var off := Then(Then(s.trace, Verified(a, model, true)), Off(a, model, true));
    assert !Dirty(off, a);
    assert !Dirty(Then(off, Renamed(s.unknown - {a})), a);
  }

  /** The report on the controller shows its fault, every lease and every quarantined source. */
  lemma StatusIsTrue(s: State, session: string, app: string, remainingMs: nat, envs: Environments)
    ensures var (t, answer) := Serve(s, session, app, Status, remainingMs, envs);
      && t == s && answer.Ok? && answer.value.Report?
      && answer.value.fault == s.fault
      && (forall a :: a in answer.value.apps <==> a in s.owners)
      && (forall a | a in s.owners :: answer.value.apps[a] == s.owners[a].app)
      && (forall a :: a in answer.value.unverified <==> a in s.unknown)
  {
  }

  /** What a request answered Ok did, from `s` to `t`. */
  ghost predicate Effect(s: State, t: State, session: string, request: Request, reply: Payload) {
    match request
    case Claim(a, policy) =>
      && Holds(t, session, a) && t.owners[a].policy == policy && Holder(t.trace, a) == Some(session)
      && (if a in s.owners then t == s else t.trace == GrantTrace(s, session, a, policy))
    case Transfer(operation, a, timeoutMs, payload) =>
      && reply.Text? && t.trace.Then? && t.trace.past == s.trace && t.trace.event.Client?
      && t.trace.event.address == a && t.trace.event.session == session && t.trace.event.ok
      && t.trace.event.message.operation == operation && t.trace.event.message.payload == payload
    case Release(a) => Holds(s, session, a) && a !in t.owners && (s.owners[a].policy.Source? ==> Cleared(t, a))
    case Close =>
      forall a | Holds(s, session, a) :: a !in t.owners && (s.owners[a].policy.Source? ==> Cleared(t, a))
    case List => reply.Addresses? && forall a | a in s.owners :: a in reply.addresses
    case Recover(a, model) => a in s.unknown && s.unknown[a] == model && Cleared(t, a)
    case Status => t == s && reply.Report? && reply.fault == s.fault && reply.unverified == s.unknown.Keys
  }

  /** No answer Ok without the deed. */
  lemma OkHasItsEffect(s: State, session: string, app: string, request: Request, remainingMs: nat, envs: Environments)
    requires Inv(s) && Serve(s, session, app, request, remainingMs, envs).1.Ok?
    ensures var (t, answer) := Serve(s, session, app, request, remainingMs, envs);
      Effect(s, t, session, request, answer.value)
  {
    hide AllLegal, CrashSafe, Relinquish, RelinquishAll, LeasedTo, Cleared, ServeClaim, ServeTransfer, ServeRecover,
         ServeList;
    match request
    case Claim(a, policy) =>
      ClaimsHold(s, session, app, a, policy, remainingMs, envs);
      if a in s.owners {
        RepeatedClaims(s, session, app, a, policy, remainingMs, envs);
      } else {
        FreeClaims(s, session, app, a, policy, remainingMs, envs);
      }
    case Transfer(operation, a, timeoutMs, payload) =>
      TransfersAreCarriedOut(s, session, app, a, Message(operation, timeoutMs, payload), remainingMs, envs);
    case Recover(a, model) => RecoveriesClear(s, session, app, a, model, remainingMs, envs);
    case List => ListingsAreComplete(s, session, app, remainingMs, envs);
    case Status =>
    case _ => GoodEnds(s, HubRuns.Handle(session, app, request, remainingMs, envs));
  }

  lemma GoodEnds(s: State, action: Action)
    requires Inv(s) && action.Handle? && (action.request.Release? || action.request.Close?)
    requires Serve(s, action.session, action.app, action.request, action.remainingMs, action.envs).1.Ok?
    ensures var t := Perform(s, action);
      && (action.request.Release? ==> Holds(s, action.session, action.request.address))
      && forall a | Holds(s, action.session, a) && Ends(action, action.session, a) ::
           a !in t.owners && (s.owners[a].policy.Source? ==> Cleared(t, a))
  {
    hide AllLegal, CrashSafe, Relinquish, RelinquishAll, LeasedTo, Cleared, EndedAndQuieted;
    forall a | Holds(s, action.session, a) && Ends(action, action.session, a)
      ensures a !in Perform(s, action).owners && (s.owners[a].policy.Source? ==> Cleared(Perform(s, action), a))
    {
      EndedLeasesAreQuieted(s, action, a);
      if s.owners[a].policy.Source? {
        GoodReleasesClear(s, action, a);
      }
    }
  }

  /** The address a request is about, if it is about one. */
  function Target(request: Request): Option<Address> {
    match request
    case Claim(a, _) => Some(a)
    case Transfer(_, a, _, _) => Some(a)
    case Release(a) => Some(a)
    case Recover(a, _) => Some(a)
    case _ => None
  }

  /** Without a lease of one's own on it, nobody moves, releases or transfers to an instrument that is leased. */
  lemma LeasedMeansExclusive(s: State, session: string, app: string, request: Request, remainingMs: nat,
      envs: Environments)
    requires Inv(s) && Target(request).Some? && Target(request).value in s.owners
    requires !Holds(s, session, Target(request).value)
    ensures var (t, answer) := Serve(s, session, app, request, remainingMs, envs);
      t == s && answer == Err(if s.fault.Some? && (request.Claim? || request.Recover?) then ControllerFault
                              else ResourceInUse)
  {
  }

  /** A request refused as invalid, in use or expired has touched neither bus nor journal nor state. */
  lemma RefusalsTouchNothing(s: State, session: string, app: string, request: Request, remainingMs: nat,
      envs: Environments)
    requires Inv(s) && ValidDevices(s.devices)
    ensures var (t, answer) := Serve(s, session, app, request, remainingMs, envs);
      answer.Err? && answer.error in {InvalidRequest, ResourceInUse, Deadline} ==> t == s
  {
    hide RelinquishAll, LeasedTo, AllLegal, CrashSafe, Leases;
  }

  /** A request during which the controller faults is answered with an error. */
  lemma FaultsAreReported(s: State, session: string, app: string, request: Request, remainingMs: nat,
      envs: Environments)
    requires s.fault.None? && Serve(s, session, app, request, remainingMs, envs).0.fault.Some?
    ensures Serve(s, session, app, request, remainingMs, envs).1.Err?
  {
    hide LeasedTo;
    if request.Close? {
      FailedCleanupIsReported(s, LeasedTo(s.owners, session, 256), false, envs);
    }
  }

  lemma {:induction false} FailedCleanupIsReported(s: State, addresses: seq<Address>, lost: bool, envs: Environments)
    requires s.fault.None?
    ensures var (t, failed) := RelinquishAll(s, addresses, lost, envs); t.fault.Some? ==> failed
    decreases |addresses|
  {
    if addresses != [] {
      var (s1, failure) := Relinquish(s, addresses[0], lost, envs(addresses[0]));
      if s1.fault.None? {
        FailedCleanupIsReported(s1, addresses[1..], lost, envs);
      }
    }
  }

  /**
   The service starts exactly on a device map of known sources at proper addresses and a journal that is missing or
   readable; nobody owns anything then, and every source the journal names is quarantined.
   */
  lemma StartUps(devices: Devices, file: JournalFile, past: Trace)
    ensures var s := New(devices, file, past);
      && (s.Ok? <==> !file.Unusable? && forall a | a in devices ::
            1 <= a <= 30 && (devices[a].Source? ==> devices[a].model in {"YOKOGAWA_GS210", "YOKOGAWA_7651"}))
      && (s.Ok? ==>
            && s.value.devices == devices && s.value.owners == map[] && s.value.fault.None? && s.value.inventory == {}
            && s.value.unknown == (if file.Contents? then file.journal else map[])
            && s.value.trace == Then(past, Started(s.value.unknown)))
      && (s.Err? && ValidDevices(devices) ==> s.error == StateUnknown)
  {
  }

  /**
   A release is refused to anyone but the holder; a failed one says whether the controller has faulted or the
   output is left unverified. A close says only that something went wrong.
   */
  lemma ReleasesFail(s: State, session: string, app: string, a: Address, remainingMs: nat, envs: Environments)
    requires Inv(s)
    ensures var (t, answer) := Serve(s, session, app, Release(a), remainingMs, envs);
      answer.Err? ==>
        answer.error ==
        if !Holds(s, session, a) then if a in s.owners then ResourceInUse else InvalidRequest
        else if t.fault.Some? then ControllerFault
        else StateUnknown
    ensures var (t, answer) := Serve(s, session, app, Close, remainingMs, envs);
      answer.Err? ==> answer.error == StateUnknown
  {
    hide LeasedTo, RelinquishAll, AllLegal, CrashSafe, Holder, Faulted;
  }
}
