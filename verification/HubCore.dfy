/**
 The single-owner controller state of the shared instrument service. Steps are
 functions of the state and of what the environment answers; `HubController`
 carries them out in place.
 */
module HubCore {
  import opened Wrappers
  import opened HubTrace

  datatype Policy = Instrument | Source(model: string)

  datatype Owner = Owner(session: string, app: string, policy: Policy)

  type Devices = map<Address, Policy>

  datatype Request =
    | Claim(address: Address, policy: Policy)
    | Transfer(operation: string, address: Address, timeoutMs: nat, payload: seq<char>)
    | Release(address: Address)
    | Close
    | List
    | Recover(address: Address, model: string)
    | Status

  datatype ErrorCode =
    | ResourceInUse | Deadline | Cancelled | ConnectionLost | StateUnknown
    | InvalidRequest | ControllerFault | IncompatibleVersion | Internal

  datatype Payload =
    | Empty
    | Text(text: string)
    | Addresses(addresses: set<Address>)
    | Report(fault: Option<string>, apps: map<Address, string>, unverified: set<Address>)

  type Answer = Result<Payload, ErrorCode>

  /** How the journal write ends: before, after or beyond the atomic rename. */
  datatype Saving = Saved | FailedBefore | FailedAfter

  /** What each backend call and the journal would answer, were it made now. */
  datatype Environment = Environment(
    prepare: Result<(), string>,
    verify: Result<(), string>,
    off: Result<(), string>,
    transfer: Result<string, string>,
    clear: Result<string, string>,
    local: Result<string, string>,
    listing: Result<set<Address>, string>,
    saving: Saving)

  type Environments = Address -> Environment

  const SUPPORTED_SOURCES: set<string> := {"YOKOGAWA_GS210", "YOKOGAWA_7651"}
  const MAX_PAYLOAD := 16384

  datatype State = State(
    devices: Devices,
    owners: map<Address, Owner>,
    unknown: Journal,
    inventory: set<Address>,
    fault: Option<string>,
    trace: Trace)

  predicate ValidAddress(a: Address) {
    1 <= a <= 30
  }

  predicate ValidDevices(devices: Devices) {
    forall a | a in devices ::
      ValidAddress(a) && (devices[a].Source? ==> devices[a].model in SUPPORTED_SOURCES)
  }

  /** What reading the journal file at start-up yields. */
  datatype JournalFile = Missing | Contents(journal: Journal) | Unusable

  /** Start-up: leases are gone, whatever the journal names stays quarantined. */
  function New(devices: Devices, file: JournalFile, past: Trace): Result<State, ErrorCode> {
    if !ValidDevices(devices) then Err(InvalidRequest)
    else match file
      case Unusable => Err(StateUnknown)
      case Missing => Ok(Fresh(devices, map[], past))
      case Contents(journal) => Ok(Fresh(devices, journal, past))
  }

  function Fresh(devices: Devices, journal: Journal, past: Trace): State {
    State(devices, map[], journal, {}, None, Then(past, Started(journal)))
  }

  function Note(s: State, e: Event): State {
    s.(trace := Then(s.trace, e))
  }

  function Persist(s: State, saving: Saving): (State, bool) {
    match saving
    case Saved => (Note(Note(s, Renamed(s.unknown)), Synced), true)
    case FailedBefore => (s, false)
    case FailedAfter => (Note(s, Renamed(s.unknown)), false)
  }

  /** A bus transfer: refused while faulted; a failure latches the fault. */
  function Drive<T>(s: State, event: bool -> Event, outcome: Result<T, string>): (State, Option<T>) {
    if s.fault.Some? then (s, None)
    else match outcome
      case Ok(reply) => (Note(s, event(true)), Some(reply))
      case Err(e) => (Note(s, event(false)).(fault := Some(e)), None)
  }

  function CheckOwner(s: State, session: string, a: Address): Option<ErrorCode> {
    if a !in s.owners then Some(InvalidRequest)
    else if s.owners[a].session == session then None
    else Some(ResourceInUse)
  }

  function Serve(s: State, session: string, app: string, request: Request, remainingMs: nat, envs: Environments)
    : (State, Answer)
  {
    match request
    case Status =>
      (s, Ok(Report(s.fault, map a | a in s.owners :: s.owners[a].app, s.unknown.Keys)))
    case Claim(a, policy) => ServeClaim(s, session, app, a, policy, envs(a))
    case Transfer(operation, a, timeoutMs, payload) =>
      ServeTransfer(s, session, a, Message(operation, timeoutMs, payload), remainingMs, envs(a))
    case Release(a) =>
      if !ValidAddress(a) then (s, Err(InvalidRequest))
      else if CheckOwner(s, session, a).Some? then (s, Err(CheckOwner(s, session, a).value))
      else
        var (s1, failure) := Relinquish(s, a, false, envs(a));
        (s1, if failure.None? then Ok(Empty) else Err(failure.value))
    case Close =>
      var (s1, failed) := Disconnect(s, session, false, envs);
      (s1, if failed then Err(StateUnknown) else Ok(Empty))
    case List => ServeList(s, envs(1))
    case Recover(a, model) => ServeRecover(s, a, model, envs(a))
  }

  function ServeClaim(s: State, session: string, app: string, a: Address, policy: Policy, env: Environment)
    : (State, Answer)
  {
    if !ValidAddress(a) then (s, Err(InvalidRequest))
    else if s.fault.Some? then (s, Err(ControllerFault))
    else if a in s.owners then
      (s, match CheckOwner(s, session, a)
          case Some(code) => Err(code)
          case None => if s.owners[a].policy == policy then Ok(Empty) else Err(InvalidRequest))
    else if a !in s.devices || s.devices[a] != policy then (s, Err(InvalidRequest))
    else if a in s.unknown then (s, Err(StateUnknown))
    else if env.prepare.Err? then
      (Note(s, Prepared(false)).(fault := Some(env.prepare.error)), Err(ControllerFault))
    else
      var s1 := Note(s, Prepared(true));
      match policy
      case Instrument => (Grant(s1, session, app, a, policy), Ok(Empty))
      case Source(model) =>
        if model !in SUPPORTED_SOURCES then (s1, Err(InvalidRequest))
        else
          var (s2, off) := VerifyOff(s1, a, model, env);
          if !off then (s2, Err(StateUnknown))
          else
            var (s3, saved) := Persist(s2.(unknown := s2.unknown[a := model]), env.saving);
            if saved then (Grant(s3, session, app, a, policy), Ok(Empty)) else (s3, Err(StateUnknown))
  }

  function Grant(s: State, session: string, app: string, a: Address, policy: Policy): State {
    Note(s, Granted(a, session, policy.Source?)).(owners := s.owners[a := Owner(session, app, policy)])
  }

  /** Identify the source, then command and verify OFF. */
  function VerifyOff(s: State, a: Address, model: string, env: Environment): (State, bool) {
    var s1 := Note(s, Verified(a, model, env.verify.Ok?));
    if env.verify.Err? then (s1, false)
    else (Note(s1, Off(a, model, env.off.Ok?)), env.off.Ok?)
  }

  function Least(a: nat, b: nat): nat {
    if a <= b then a else b
  }

  predicate ClientOperation(operation: string) {
    operation in {"WRITE", "QUERY", "READ", "LOCAL", "CLEAR"}
  }

  function ServeTransfer(s: State, session: string, a: Address, m: Message, remainingMs: nat, env: Environment)
    : (State, Answer)
  {
    if !ValidAddress(a) then (s, Err(InvalidRequest))
    else match CheckOwner(s, session, a)
      case Some(code) => (s, Err(code))
      case None =>
        if remainingMs < 1 then (s, Err(Deadline))
        else if !ClientOperation(m.operation) || |m.payload| > MAX_PAYLOAD || !(1 <= m.timeoutMs <= 30000) then
          (s, Err(InvalidRequest))
        else
          var sent := m.(timeoutMs := Least(remainingMs, m.timeoutMs));
          var (s1, reply) := Drive(s, ok => Client(a, session, s.owners[a].policy.Source?, sent, ok), env.transfer);
          (s1, if reply.Some? then Ok(Text(reply.value)) else Err(ControllerFault))
  }

  function ServeList(s: State, env: Environment): (State, Answer) {
    if s.fault.Some? then (s, Err(ControllerFault))
    else if |s.owners| != 0 then (s, Ok(Addresses(s.inventory + s.owners.Keys)))
    else
      var (s1, found) := Drive(s, ok => Listed(ok), env.listing);
      if found.None? then (s1, Err(ControllerFault))
      else
        var inventory := set a | a in found.value && ValidAddress(a);
        (s1.(inventory := inventory), Ok(Addresses(inventory)))
  }

  function ServeRecover(s: State, a: Address, model: string, env: Environment): (State, Answer) {
    if !ValidAddress(a) then (s, Err(InvalidRequest))
    else if s.fault.Some? then (s, Err(ControllerFault))
    else if a in s.owners then (s, Err(ResourceInUse))
    else if a !in s.unknown || s.unknown[a] != model then (s, Err(InvalidRequest))
    else
      var (s1, off) := VerifyOff(s, a, model, env);
      if !off then (s1, Err(StateUnknown))
      else
        var (s2, saved) := Persist(s1.(unknown := s1.unknown - {a}), env.saving);
        (s2, if saved then Ok(Empty) else Err(StateUnknown))
  }

  /** End the lease first; cleanup that fails leaves the quarantine in place. */
  function Relinquish(s: State, a: Address, lost: bool, env: Environment): (State, Option<ErrorCode>) {
    if a !in s.owners then (s, None)
    else
      var owner := s.owners[a];
      var s1 := Note(s, Ended(a, owner.session)).(owners := s.owners - {a});
      var (s2, failure) := Quiesce(s1, a, owner.policy, lost, env);
      if failure.Some? then (s2, failure)
      else
        var (s3, left) := Drive(s2, ok => Cleanup(a, "LOCAL", ok), env.local);
        if left.None? then (s3, Some(ControllerFault))
        else if owner.policy.Instrument? then (s3, None)
        else Unquarantine(s3, a, env.saving)
  }

  function Quiesce(s: State, a: Address, policy: Policy, lost: bool, env: Environment): (State, Option<ErrorCode>) {
    if policy.Source? then
      if s.fault.Some? then (s, Some(ControllerFault))
      else (Note(s, Off(a, policy.model, env.off.Ok?)), if env.off.Ok? then None else Some(StateUnknown))
    else if lost then
      var (s1, cleared) := Drive(s, ok => Cleanup(a, "CLEAR", ok), env.clear);
      (s1, if cleared.Some? then None else Some(ControllerFault))
    else (s, None)
  }

  /** Drop `a` from the quarantine; restore it in memory if the write fails. */
  function Unquarantine(s: State, a: Address, saving: Saving): (State, Option<ErrorCode>) {
    var (s1, saved) := Persist(s.(unknown := s.unknown - {a}), saving);
    if saved then (s1, None)
    else (s1.(unknown := s.unknown), Some(StateUnknown))
  }

  /** The addresses below `n` leased to `session`, in ascending order. */
  function LeasedTo(owners: map<Address, Owner>, session: string, n: nat): seq<Address>
    requires n <= 256
  {
    if n == 0 then []
    else
      var a: Address := n - 1;
      LeasedTo(owners, session, n - 1)
      + (if a in owners && owners[a].session == session then [a] else [])
  }

  function RelinquishAll(s: State, addresses: seq<Address>, lost: bool, envs: Environments): (State, bool)
    decreases |addresses|
  {
    if addresses == [] then (s, false)
    else
      var (s1, failure) := Relinquish(s, addresses[0], lost, envs(addresses[0]));
      var (s2, failed) := RelinquishAll(s1, addresses[1..], lost, envs);
      (s2, failure.Some? || failed)
  }

  function Disconnect(s: State, session: string, lost: bool, envs: Environments): (State, bool) {
    RelinquishAll(s, LeasedTo(s.owners, session, 256), lost, envs)
  }
}
