/**
 The GUI's control lease and job machine, as functions of its state. Clocks,
 UUIDs and JSON are parameters: whether a lease went silent, the identifier just
 drawn, the fingerprint of a request body.
 */
module GuiModel {
  import opened Wrappers

  const SESSION_LIMIT := 100_000
  const HISTORY_LIMIT := 32
  const LABEL_LIMIT := 48

  type Command = string

  datatype StopPolicy = StopPolicy(onDisconnect: bool, onError: bool, onTimeout: bool)

  datatype Owner = Owner(lease: string, client: string, name: string, policy: StopPolicy)

  datatype Phase =
    | Idle | Scanning | Connecting | Ready | SwitchingMode | Preparing | Running | CleaningUp
    | Failed | ComplianceStop | SourceLimitStop | Stopped | Completed

  datatype Output = Unknown | Off | On

  /** A final engine state as a receipt keeps it. */
  datatype Final = Final(phase: Phase, error: string, errorKind: string, points: nat, path: string)

  datatype Completion = Completion(tag: string, final: Final)

  /** The engine state the GUI last received. */
  datatype Snapshot = Snapshot(
    safetyRevision: nat,
    final: Final,
    source: (bool, Output),
    source2: (bool, Output),
    gate: (bool, Output),
    completions: seq<Completion>)

  datatype Status = InProgress | Done | Halted | Errored

  datatype Receipt = Receipt(id: string, kind: string, status: Status, code: Option<string>, rows: nat,
      output: Option<string>, final: Option<Final>)

  datatype Active = Active(id: string, tag: Option<string>, commands: seq<Command>, safety: nat)

  datatype Gui = Gui(
    owner: Option<Owner>,
    revoked: set<string>,
    jobs: seq<Receipt>,
    used: set<string>,
    fingerprints: map<string, string>,
    active: Option<Active>,
    retiring: bool,
    retireSafety: nat)

  const FRESH := Gui(None, {}, [], {}, map[], None, false, 0)

  datatype Refusal =
    | Expired | BadClient | BadPolicy | Revoked | OtherOwner | Busy | SessionLimit | BadLabel | NoLease | BadLease
    | Conflict | ReceiptExpired

  predicate BusyPhase(s: Snapshot) {
    s.final.phase in {Connecting, Scanning, SwitchingMode, Preparing, Running, CleaningUp}
  }

  predicate SafeOutput(o: (bool, Output)) {
    o.0 ==> o.1 == Off
  }

  predicate OutputsOff(s: Snapshot) {
    SafeOutput(s.source) && SafeOutput(s.source2) && SafeOutput(s.gate)
  }

  predicate HasLease(g: Gui) {
    g.owner.Some? || g.retiring || g.active.Some?
  }

  // ---- Lease ----

  function Detach(g: Gui): Gui {
    if g.owner.None? then g else g.(owner := None, revoked := g.revoked + {g.owner.value.client})
  }

  function Release(g: Gui, safety: nat): Gui {
    g.(owner := None, retireSafety := safety, retiring := true)
  }

  function ClearPending(g: Gui): Gui {
    if g.active.None? then g else g.(active := Some(g.active.value.(commands := [])))
  }

  function Revoke(g: Gui, safety: nat): Gui {
    ClearPending(Detach(g)).(retireSafety := safety, retiring := true)
  }

  function ExpireLease(g: Gui, silent: bool, safety: nat): (Gui, bool) {
    if g.owner.Some? && silent && !g.retiring then
      if g.owner.value.policy.onDisconnect then (Revoke(g, safety), true) else (Detach(g), false)
    else (g, false)
  }

  function Settle(g: Gui, s: Snapshot): Gui {
    if g.retiring && g.active.None? && !BusyPhase(s) && s.safetyRevision > g.retireSafety && OutputsOff(s)
    then g.(retiring := false) else g
  }

  function EngineLost(g: Gui): Gui {
    Finish(Revoke(g, 0), None, Errored, Some("transport")).(retiring := false)
  }

  datatype Message = Message(
    stale: bool, action: string, client: Option<string>, validClient: bool, policy: Option<StopPolicy>,
    name: string, lease: Option<string>)

  const OPEN_METHODS: set<string> :=
    {"status", "config", "configuration", "plan", "output", "result",
     "capabilities", "control_describe", "control_status", "control_result"}

  /** `granted` carries the lease an acquire or heartbeat answers with. */
  datatype Permit = Proceed | Granted(lease: string)

  function Authorize(g: Gui, m: Message, guiIdle: bool, newClient: string, newLease: string)
    : (Gui, Result<Permit, Refusal>)
  {
    if m.stale then (g, Err(Expired))
    else if m.action in OPEN_METHODS then (g, Ok(Proceed))
    else if m.action == "acquire" || m.action == "claim" then Acquire(g, m, guiIdle, newClient, newLease)
    else if g.owner.None? then (g, Err(NoLease))
    else if m.lease != Some(g.owner.value.lease) || (m.client.Some? && m.client.value != g.owner.value.client) then
      (g, Err(BadLease))
    else (g, Ok(if m.action == "heartbeat" then Granted(g.owner.value.lease) else Proceed))
  }

  function Acquire(g: Gui, m: Message, guiIdle: bool, newClient: string, newLease: string)
    : (Gui, Result<Permit, Refusal>)
  {
    var client := if m.client.Some? then m.client.value else newClient;
    if m.client.Some? && !m.validClient then (g, Err(BadClient))
    else if m.policy.None? then (g, Err(BadPolicy))
    else if client in g.revoked then (g, Err(Revoked))
    else if g.owner.Some? then
      if g.owner.value.client != client then (g, Err(OtherOwner))
      else (g.(owner := Some(g.owner.value.(policy := m.policy.value))), Ok(Granted(g.owner.value.lease)))
    else if !guiIdle || HasLease(g) then (g, Err(Busy))
    else if |g.revoked| >= SESSION_LIMIT then (g, Err(SessionLimit))
    else if |m.name| > LABEL_LIMIT then (g, Err(BadLabel))
    else (g.(owner := Some(Owner(newLease, client, m.name, m.policy.value))), Ok(Granted(newLease)))
  }

  // ---- Jobs ----

  /** The index of the first element of which `holds` is true, or the length. */
  function First<T(!new)>(s: seq<T>, holds: T -> bool): (k: nat)
    ensures k <= |s|
    ensures k < |s| ==> holds(s[k])
    ensures forall i | 0 <= i < k :: !holds(s[i])
  {
    if s == [] || holds(s[0]) then 0 else 1 + First(s[1..], holds)
  }

  /** The index of the receipt with this id, or the number of receipts. */
  function Find(jobs: seq<Receipt>, id: string): (k: nat)
    ensures k <= |jobs|
    ensures k < |jobs| ==> jobs[k].id == id
    ensures forall i | 0 <= i < k :: jobs[i].id != id
  {
    First(jobs, (r: Receipt) => r.id == id)
  }

  function Lookup(g: Gui, id: string): Result<Receipt, Refusal> {
    if Find(g.jobs, id) < |g.jobs| then Ok(g.jobs[Find(g.jobs, id)]) else Err(ReceiptExpired)
  }

  function ExistingJob(g: Gui, id: string, digest: string): Result<Option<Receipt>, Refusal> {
    if id !in g.fingerprints then Ok(None)
    else if g.fingerprints[id] != digest then Err(Conflict)
    else match Lookup(g, id)
      case Ok(receipt) => Ok(Some(receipt))
      case Err(e) => Err(e)
  }

  /** A full history forgets its oldest receipt. */
  function Kept(jobs: seq<Receipt>): seq<Receipt> {
    if |jobs| == HISTORY_LIMIT then jobs[1..] else jobs
  }

  function BeginJob(g: Gui, id: string, kind: string, commands: seq<Command>, s: Snapshot, digest: string)
    : (Gui, Result<Receipt, Refusal>)
  {
    match ExistingJob(g, id, digest)
    case Err(e) => (g, Err(e))
    case Ok(Some(receipt)) => (g, Ok(receipt))
    case Ok(None) =>
      if id in g.used then (g, Err(ReceiptExpired))
      else if g.active.Some? || BusyPhase(s) then (g, Err(Busy))
      else if |g.used| >= SESSION_LIMIT then (g, Err(SessionLimit))
      else
        var receipt := Receipt(id, kind, InProgress, None, 0, None, None);
        (g.(jobs := Kept(g.jobs) + [receipt], used := g.used + {id}, fingerprints := g.fingerprints[id := digest],
            active := Some(Active(id, None, commands, s.safetyRevision))),
         Ok(receipt))
  }

  function Close(r: Receipt, final: Option<Final>, status: Status, code: Option<string>): Receipt {
    r.(status := status, code := code, final := final,
       rows := if final.Some? then final.value.points else 0,
       output := if r.kind == "start" && final.Some? then Some(final.value.path) else r.output)
  }

  function Finish(g: Gui, final: Option<Final>, status: Status, code: Option<string>): Gui {
    if g.active.None? then g
    else
      var k := Find(g.jobs, g.active.value.id);
      g.(active := None,
         jobs := if k < |g.jobs| then g.jobs[k := Close(g.jobs[k], final, status, code)] else g.jobs)
  }

  function FailDispatch(g: Gui): Gui {
    Finish(g, None, Errored, Some("transport"))
  }

  predicate Measuring(g: Gui, id: string) {
    exists i :: 0 <= i < |g.jobs| && g.jobs[i].id == id && g.jobs[i].kind == "start"
  }

  /** A completion that ends the job it belongs to. */
  predicate Fatal(f: Final, measuring: bool) {
    f.error != "" || f.phase == Failed
    || (measuring && f.phase in {ComplianceStop, SourceLimitStop, Stopped})
  }

  function FailureCode(f: Final): string {
    if f.phase in {ComplianceStop, SourceLimitStop} then "protection"
    else if f.phase == Stopped then "stopped"
    else if f.errorKind == "storage" then "save_failed"
    else if f.errorKind in {"overload", "output_safety"} then "protection"
    else if f.errorKind in {"disconnected", "timeout", "protocol", "identity_mismatch"} then "device_error"
    else "job_failed"
  }

  /** A safety command ran after the job began: its receipt is stopped, or failed if OFF is unconfirmed. */
  function SafetyStop(g: Gui, s: Snapshot): Gui {
    var failed := s.final.error != "" || !(SafeOutput(s.source) && SafeOutput(s.source2));
    Finish(g, Some(s.final), if failed then Errored else Halted, Some(if failed then "protection" else "stopped"))
  }

  /** The completion of the command now out, if the engine has reported it. */
  function Reported(g: Gui, s: Snapshot): Option<Completion> {
    if g.active.None? || g.active.value.tag.None? then None
    else
      var k := First(s.completions, (c: Completion) => c.tag == g.active.value.tag.value);
      if k < |s.completions| then Some(s.completions[k]) else None
  }

  function Advance(g: Gui, s: Snapshot, newTag: string): (Gui, Option<(string, Command)>) {
    if g.active.None? then (g, None)
    else if s.safetyRevision > g.active.value.safety && !BusyPhase(s) then (SafetyStop(g, s), None)
    else
      var report := Reported(g, s);
      if report.Some? && Fatal(report.value.final, Measuring(g, g.active.value.id)) then
        (Finish(g, Some(report.value.final),
                if report.value.final.phase == Stopped then Halted else Errored,
                Some(FailureCode(report.value.final))), None)
      else if report.None? && g.active.value.tag.Some? then (g, None)
      else if g.active.value.commands == [] then
        (Finish(g, Some(if report.Some? then report.value.final else s.final), Done, None), None)
      else
        var a := g.active.value;
        (g.(active := Some(a.(tag := Some(newTag), commands := a.commands[1..]))), Some((newTag, a.commands[0])))
  }
}
