/**
 Whole runs of the GUI's control machine, watched by a ledger that remembers for
 every job what it was asked to send, what it sent and what it was told.
 */
module GuiRuns {
  import opened Wrappers
  import opened GuiModel

  /** `cut` once the job's remaining commands were discarded from outside. */
  datatype Record = Record(kind: string, plan: seq<Command>, sent: seq<(string, Command)>, acks: seq<Completion>,
      cut: bool)

  datatype World = World(gui: Gui, ledger: map<string, Record>, tags: set<string>, starts: seq<string>)

  datatype Step =
    | Ask(m: Message, guiIdle: bool, newClient: string, newLease: string)
    | Begin(id: string, kind: string, commands: seq<Command>, s: Snapshot, digest: string)
    | Tick(s: Snapshot, newTag: string)
    | Cancel
    | TakeOver(safety: nat)
    | LetGo
    | GiveBack(safety: nat)
    | Expire(silent: bool, safety: nat)
    | Lose
    | Undeliverable
    | Observe(s: Snapshot)

  const START := World(FRESH, map[], {}, [])

  /** Tags are UUIDs drawn for one dispatch each. */
  predicate Enabled(w: World, step: Step) {
    step.Tick? ==> step.newTag !in w.tags
  }

  function NextGui(g: Gui, step: Step): Gui {
    match step
    case Ask(m, guiIdle, newClient, newLease) => Authorize(g, m, guiIdle, newClient, newLease).0
    case Begin(id, kind, commands, s, digest) => BeginJob(g, id, kind, commands, s, digest).0
    case Tick(s, newTag) => Advance(g, s, newTag).0
    case Cancel => ClearPending(g)
    case TakeOver(safety) => Revoke(g, safety)
    case LetGo => Detach(g)
    case GiveBack(safety) => Release(g, safety)
    case Expire(silent, safety) => ExpireLease(g, silent, safety).0
    case Lose => EngineLost(g)
    case Undeliverable => FailDispatch(g)
    case Observe(s) => Settle(g, s)
  }

  /** Steps that discard the commands a job has not sent yet. */
  predicate Cuts(g: Gui, step: Step) {
    step.Cancel? || step.TakeOver? || step.Lose? || (step.Expire? && ExpireLease(g, step.silent, step.safety).1)
  }

  predicate SafetyIntervened(g: Gui, s: Snapshot) {
    g.active.Some? && s.safetyRevision > g.active.value.safety && !BusyPhase(s)
  }

  /** The completion this tick consumes: reported, not fatal, not overtaken by a safety stop. */
  function Consumed(g: Gui, s: Snapshot): Option<Completion> {
    if g.active.None? || SafetyIntervened(g, s) then None
    else
      var report := Reported(g, s);
      if report.Some? && !Fatal(report.value.final, Measuring(g, g.active.value.id)) then report else None
  }

  function Watch(r: Record, ack: Option<Completion>, send: Option<(string, Command)>): Record {
    r.(acks := r.acks + (if ack.Some? then [ack.value] else []),
       sent := r.sent + (if send.Some? then [send.value] else []))
  }

  function Next(w: World, step: Step): World {
    var g := NextGui(w.gui, step);
    if StartsFresh(w.gui, step) then
      World(g, w.ledger[step.id := Record(step.kind, step.commands, [], [], false)], w.tags, w.starts + [step.id])
    else if w.gui.active.None? || w.gui.active.value.id !in w.ledger then w.(gui := g)
    else
      var id := w.gui.active.value.id;
      if step.Tick? then
        var send := Advance(w.gui, step.s, step.newTag).1;
        World(g, w.ledger[id := Watch(w.ledger[id], Consumed(w.gui, step.s), send)],
              if send.Some? then w.tags + {step.newTag} else w.tags, w.starts)
      else if Cuts(w.gui, step) then World(g, w.ledger[id := w.ledger[id].(cut := true)], w.tags, w.starts)
      else w.(gui := g)
  }

  ghost predicate Runnable(w: World, steps: seq<Step>)
    decreases |steps|
  {
    steps != [] ==> Enabled(w, steps[0]) && Runnable(Next(w, steps[0]), steps[1..])
  }

  ghost function Run(w: World, steps: seq<Step>): World
    requires Runnable(w, steps)
    decreases |steps|
  {
    if steps == [] then w else Run(Next(w, steps[0]), steps[1..])
  }

  // ---- Ownership ----

  ghost predicate Ownership(g: Gui) {
    && (g.owner.Some? ==> g.owner.value.client !in g.revoked && !g.retiring)
    && |g.revoked| + Bit(g.owner.Some?) <= SESSION_LIMIT
  }

  lemma JobStepsKeepOwner(g: Gui, step: Step)
    requires step.Begin? || step.Tick? || step.Undeliverable? || step.Observe? || step.Cancel?
    ensures var t := NextGui(g, step);
      t.owner == g.owner && t.revoked == g.revoked && (g.owner.Some? && !g.retiring ==> !t.retiring)
  {
  }

  lemma OwnershipKept(g: Gui, step: Step)
    requires Ownership(g)
    ensures Ownership(NextGui(g, step)) && g.revoked <= NextGui(g, step).revoked
  {
    hide Authorize, BeginJob, Advance, Finish, EngineLost;
    if step.Begin? || step.Tick? || step.Undeliverable? || step.Observe? || step.Cancel? {
      JobStepsKeepOwner(g, step);
    } else if step.Ask? {
      AskKeepsOwnership(g, step);
    } else {
      DetachBound(g);
      LostOwner(g);
    }
  }

  lemma LostOwner(g: Gui)
    ensures EngineLost(g).owner == Detach(g).owner && EngineLost(g).revoked == Detach(g).revoked
    ensures !EngineLost(g).retiring
  {
  }

  lemma AskKeepsOwnership(g: Gui, step: Step)
    requires Ownership(g) && step.Ask?
    ensures Ownership(NextGui(g, step)) && g.revoked <= NextGui(g, step).revoked
  {
  }

  lemma DetachBound(g: Gui)
    requires Ownership(g)
    ensures Ownership(Detach(g)) && g.revoked <= Detach(g).revoked
  {
  }

  // ---- Receipts ----

  ghost predicate Distinct(jobs: seq<Receipt>) {
    forall i, j | 0 <= i < j < |jobs| :: jobs[i].id != jobs[j].id
  }

  ghost predicate Receipts(g: Gui) {
    && Distinct(g.jobs) && |g.jobs| <= HISTORY_LIMIT
    && (forall i | 0 <= i < |g.jobs| :: g.jobs[i].id in g.used)
    && g.used == g.fingerprints.Keys && |g.used| <= SESSION_LIMIT
    && (g.active.Some? ==> Find(g.jobs, g.active.value.id) < |g.jobs|)
    && (forall i | 0 <= i < |g.jobs| ::
          g.jobs[i].status == InProgress <==> g.active.Some? && g.active.value.id == g.jobs[i].id)
  }

  predicate StartsFresh(g: Gui, step: Step) {
    step.Begin? && g.active.None? && NextGui(g, step).active.Some?
  }

  /** Asking again, and asking in vain, change nothing. */
  lemma BeginOtherwiseIdle(g: Gui, step: Step)
    requires step.Begin? && !StartsFresh(g, step)
    ensures NextGui(g, step) == g
  {
  }

  lemma LeaseStepsKeepJobs(g: Gui, step: Step)
    requires !step.Begin? && !step.Tick? && !step.Lose? && !step.Undeliverable?
    ensures var t := NextGui(g, step);
      && t.used == g.used && t.jobs == g.jobs && t.fingerprints == g.fingerprints
      && (t.active.Some? <==> g.active.Some?)
      && (g.active.Some? ==>
            t.active == Some(if Cuts(g, step) then g.active.value.(commands := []) else g.active.value))
  {
    hide BeginJob, Advance, Finish;
  }

  lemma FreshBegin(g: Gui, step: Step)
    requires StartsFresh(g, step)
    ensures var t := NextGui(g, step);
      && step.id !in g.used && step.id !in g.fingerprints && |g.used| < SESSION_LIMIT
      && t == g.(jobs := Kept(g.jobs) + [Receipt(step.id, step.kind, InProgress, None, 0, None, None)],
                 used := g.used + {step.id}, fingerprints := g.fingerprints[step.id := step.digest],
                 active := Some(Active(step.id, None, step.commands, step.s.safetyRevision)))
  {
  }

  lemma KeptAreOld(jobs: seq<Receipt>, i: nat)
    requires i < |Kept(jobs)|
    ensures Kept(jobs)[i] in jobs && |Kept(jobs)| <= |jobs|
    ensures |jobs| <= HISTORY_LIMIT ==> |Kept(jobs)| < HISTORY_LIMIT
  {
    assert Kept(jobs)[i] == jobs[i + |jobs| - |Kept(jobs)|];
  }

  lemma FindIsUnique(jobs: seq<Receipt>, k: nat)
    requires Distinct(jobs) && k < |jobs|
    ensures Find(jobs, jobs[k].id) == k
  {
  }

  lemma FinishKeepsReceipts(g: Gui, final: Option<Final>, status: Status, code: Option<string>)
    requires Receipts(g) && status != InProgress
    ensures Receipts(Finish(g, final, status, code))
    ensures Finish(g, final, status, code).active.None?
  {
  }

  lemma FreshBeginKeepsReceipts(g: Gui, step: Step)
    requires Receipts(g) && StartsFresh(g, step)
    ensures Receipts(NextGui(g, step))
  {
    var t := NextGui(g, step);
    FreshBegin(g, step);
    forall i | 0 <= i < |Kept(g.jobs)|
      ensures t.jobs[i].id in g.used && t.jobs[i].status != InProgress && |t.jobs| <= HISTORY_LIMIT
    {
      KeptAreOld(g.jobs, i);
    }
    assert Distinct(Kept(g.jobs));
    FindIsUnique(t.jobs, |t.jobs| - 1);
  }

  lemma SamePartsKeepReceipts(g: Gui, t: Gui)
    requires Receipts(g)
    requires t.jobs == g.jobs && t.used == g.used && t.fingerprints == g.fingerprints
    requires (t.active.Some? <==> g.active.Some?) && (g.active.Some? ==> t.active.value.id == g.active.value.id)
    ensures Receipts(t)
  {
  }

  /** How a tick ends a job: its receipt is closed once, as done only with nothing left to send or await. */
  lemma AdvanceCloses(g: Gui, s: Snapshot, newTag: string)
    returns (final: Option<Final>, status: Status, code: Option<string>)
    requires g.active.Some? && Advance(g, s, newTag).0.active.None?
    ensures Advance(g, s, newTag) == (Finish(g, final, status, code), None) && status != InProgress
    ensures status == Done ==>
      g.active.value.commands == [] && (g.active.value.tag.None? || Consumed(g, s).Some?)
  {
    if SafetyIntervened(g, s) {
      var failed := s.final.error != "" || !(SafeOutput(s.source) && SafeOutput(s.source2));
      return Some(s.final), if failed then Errored else Halted, Some(if failed then "protection" else "stopped");
    }
    var report := Reported(g, s);
    if report.Some? && Fatal(report.value.final, Measuring(g, g.active.value.id)) {
      var f := report.value.final;
      return Some(f), if f.phase == Stopped then Halted else Errored, Some(FailureCode(f));
    }
    return Some(if report.Some? then report.value.final else s.final), Done, None;
  }

  lemma AdvanceContinues(g: Gui, s: Snapshot, newTag: string)
    requires g.active.Some? && Advance(g, s, newTag).0.active.Some?
    ensures var (t, send) := Advance(g, s, newTag);
      var a := g.active.value;
      if send.Some? then
        && a.commands != [] && send.value == (newTag, a.commands[0])
        && (a.tag.None? || Consumed(g, s).Some?)
        && t == g.(active := Some(a.(tag := Some(newTag), commands := a.commands[1..])))
      else t == g && a.tag.Some? && Consumed(g, s).None?
  {
  }

  lemma AdvanceKeepsReceipts(g: Gui, s: Snapshot, newTag: string)
    requires Receipts(g)
    ensures Receipts(Advance(g, s, newTag).0)
  {
    if g.active.Some? {
      if Advance(g, s, newTag).0.active.None? {
        var final, status, code := AdvanceCloses(g, s, newTag);
        FinishKeepsReceipts(g, final, status, code);
      } else {
        AdvanceContinues(g, s, newTag);
      }
    }
  }

  lemma ReceiptsKept(g: Gui, step: Step)
    requires Receipts(g)
    ensures Receipts(NextGui(g, step))
  {
    match step
    case Begin(_, _, _, _, _) =>
      if StartsFresh(g, step) {
        FreshBeginKeepsReceipts(g, step);
      } else {
        BeginOtherwiseIdle(g, step);
      }
    case Tick(s, newTag) => AdvanceKeepsReceipts(g, s, newTag);
    case Lose =>
      SamePartsKeepReceipts(g, Revoke(g, 0));
      FinishKeepsReceipts(Revoke(g, 0), None, Errored, Some("transport"));
    case Undeliverable => FinishKeepsReceipts(g, None, Errored, Some("transport"));
    case _ =>
      LeaseStepsKeepJobs(g, step);
      SamePartsKeepReceipts(g, NextGui(g, step));
  }

  /** What the control object is at all times: exclusively owned, its receipts in order. */
  ghost predicate Sound(g: Gui) {
    Ownership(g) && Receipts(g)
  }

  lemma SoundKept(g: Gui, step: Step)
    ensures Sound(g) ==> Sound(NextGui(g, step))
  {
    if Sound(g) {
      hide Ownership, Receipts, NextGui;
      OwnershipKept(g, step);
      ReceiptsKept(g, step);
    }
  }

  // ---- Exactly once ----

  /** The ledger, the ids ever used and the list of starts agree; nothing starts twice. */
  ghost predicate Starts(w: World) {
    && w.ledger.Keys == w.gui.used
    && (forall id :: id in w.gui.used <==> id in w.starts)
    && (forall i, j | 0 <= i < j < |w.starts| :: w.starts[i] != w.starts[j])
    && (forall i | 0 <= i < |w.gui.jobs| ::
          w.gui.jobs[i].id in w.ledger && w.gui.jobs[i].kind == w.ledger[w.gui.jobs[i].id].kind)
    && (w.gui.active.Some? ==> w.gui.active.value.id in w.ledger)
  }

  /** The receipts keep their ids and kinds, and the closed ones everything. */
  ghost predicate SameReceipts(g: Gui, t: Gui) {
    && t.used == g.used && |t.jobs| == |g.jobs|
    && (forall i | 0 <= i < |g.jobs| :: t.jobs[i].id == g.jobs[i].id && t.jobs[i].kind == g.jobs[i].kind)
    && (forall i | 0 <= i < |g.jobs| && g.jobs[i].status != InProgress :: t.jobs[i] == g.jobs[i])
    && (t.active.Some? ==> g.active.Some? && t.active.value.id == g.active.value.id)
  }

  lemma FinishSameReceipts(g: Gui, final: Option<Final>, status: Status, code: Option<string>)
    requires Receipts(g)
    ensures SameReceipts(g, Finish(g, final, status, code))
  {
  }

  lemma TickSameReceipts(g: Gui, s: Snapshot, newTag: string)
    requires Receipts(g)
    ensures SameReceipts(g, Advance(g, s, newTag).0)
  {
    if g.active.Some? {
      hide Advance, Finish, Receipts;
      if Advance(g, s, newTag).0.active.None? {
        var final, status, code := AdvanceCloses(g, s, newTag);
        FinishSameReceipts(g, final, status, code);
      } else {
        AdvanceContinues(g, s, newTag);
      }
    }
  }

  lemma LoseSameReceipts(g: Gui)
    requires Receipts(g)
    ensures SameReceipts(g, EngineLost(g))
  {
    SamePartsKeepReceipts(g, Revoke(g, 0));
    FinishSameReceipts(Revoke(g, 0), None, Errored, Some("transport"));
  }

  lemma OnlyBeginAddsReceipts(g: Gui, step: Step)
    requires Receipts(g) && !StartsFresh(g, step)
    ensures SameReceipts(g, NextGui(g, step))
  {
    hide Authorize, BeginJob, Advance, Finish, EngineLost, Receipts;
    match step
    case Begin(_, _, _, _, _) => BeginOtherwiseIdle(g, step);
    case Tick(s, newTag) => TickSameReceipts(g, s, newTag);
    case Lose => LoseSameReceipts(g);
    case Undeliverable => FinishSameReceipts(g, None, Errored, Some("transport"));
    case _ => LeaseStepsKeepJobs(g, step);
  }

  lemma FreshBeginKeepsStarts(w: World, step: Step)
    requires Receipts(w.gui) && Starts(w) && StartsFresh(w.gui, step)
    ensures Starts(Next(w, step))
  {
    var t := Next(w, step);
    FreshBegin(w.gui, step);
    forall i | 0 <= i < |t.gui.jobs|
      ensures t.gui.jobs[i].id in t.ledger && t.gui.jobs[i].kind == t.ledger[t.gui.jobs[i].id].kind
    {
      if i < |t.gui.jobs| - 1 {
        KeptAreOld(w.gui.jobs, i);
      }
    }
  }

  /** Only a fresh start adds to the ledger; kinds are never rewritten. */
  lemma LedgerGrowsByStarts(w: World, step: Step)
    requires !StartsFresh(w.gui, step)
    ensures var t := Next(w, step);
      && t.gui == NextGui(w.gui, step)
      && t.ledger.Keys == w.ledger.Keys && t.starts == w.starts
      && forall id | id in w.ledger :: t.ledger[id].kind == w.ledger[id].kind
  {
  }

  lemma StartsKept(w: World, step: Step)
    requires Receipts(w.gui) && Starts(w)
    ensures Starts(Next(w, step))
  {
    if StartsFresh(w.gui, step) {
      FreshBeginKeepsStarts(w, step);
    } else {
      OnlyBeginAddsReceipts(w.gui, step);
      LedgerGrowsByStarts(w, step);
    }
  }
}
