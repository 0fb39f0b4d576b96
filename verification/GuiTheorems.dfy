/** Theorems about every run of the GUI's control machine. */
module GuiTheorems {
  import opened Wrappers
  import opened GuiModel
  import opened GuiRuns
  import opened GuiDispatch

  ghost predicate Inv(w: World) {
    Ownership(w.gui) && Receipts(w.gui) && Starts(w) && Dispatching(w)
  }

  lemma NextKeeps(w: World, step: Step)
    requires Inv(w)
    ensures Inv(Next(w, step)) && Next(w, step).gui == NextGui(w.gui, step)
  {
    NextGuiIs(w, step);
    OwnershipKept(w.gui, step);
    ReceiptsKept(w.gui, step);
    StartsKept(w, step);
    DispatchingKept(w, step);
  }

  lemma DispatchingKept(w: World, step: Step)
    requires Receipts(w.gui) && Starts(w) && Dispatching(w)
    ensures Dispatching(Next(w, step))
  {
    if StartsFresh(w.gui, step) {
      FreshBeginKeepsDispatching(w, step);
    } else if step.Tick? && w.gui.active.Some? {
      TickKeepsDispatching(w, step);
    } else if step.Begin? {
      BeginOtherwiseIdle(w.gui, step);
    } else if step.Lose? || step.Undeliverable? {
      FailureShape(w, step);
      FailureKeepsDispatching(w, Next(w, step));
    } else if !step.Tick? {
      LeaseStepKeepsDispatching(w, step);
    }
  }

  lemma {:induction false} RunKeeps(w: World, steps: seq<Step>)
    requires Inv(w) && Runnable(w, steps)
    ensures Inv(Run(w, steps))
    decreases |steps|
  {
    if steps != [] {
      NextKeeps(w, steps[0]);
      RunKeeps(Next(w, steps[0]), steps[1..]);
    }
  }

  /**
   Exclusive ownership. In every run the owner was never revoked or detached, nobody owns while
   retirement is pending, and revoked clients plus the owner never exceed the session limit.
   */
  lemma OwnersStayWithinLimits(steps: seq<Step>)
    requires Runnable(START, steps)
    ensures var g := Run(START, steps).gui;
      && (g.owner.Some? ==> g.owner.value.client !in g.revoked && !g.retiring)
      && |g.revoked| + Bit(g.owner.Some?) <= SESSION_LIMIT
  {
    RunKeeps(START, steps);
  }

  /**
   Exactly-once jobs. In every run a request id starts at most one job; the ids
   used are those fingerprinted and those started; receipts have distinct ids and
   are bounded; the running job has its receipt, and it is the only one in progress.
   */
  lemma JobsStartOnce(steps: seq<Step>)
    requires Runnable(START, steps)
    ensures var w := Run(START, steps);
      && (forall i, j | 0 <= i < j < |w.starts| :: w.starts[i] != w.starts[j])
      && w.gui.used == w.gui.fingerprints.Keys && (forall id :: id in w.gui.used <==> id in w.starts)
      && |w.gui.jobs| <= HISTORY_LIMIT && Distinct(w.gui.jobs)
      && (w.gui.active.Some? ==> Find(w.gui.jobs, w.gui.active.value.id) < |w.gui.jobs|)
      && (forall i | 0 <= i < |w.gui.jobs| ::
            w.gui.jobs[i].status == InProgress <==> w.gui.active.Some? && w.gui.active.value.id == w.gui.jobs[i].id)
  {
    RunKeeps(START, steps);
  }

  /**
   Staged dispatch. In every run each job has sent a prefix of its plan, each command after the
   good report on the one before.
   */
  lemma JobsAreStaged(steps: seq<Step>, id: string)
    requires Runnable(START, steps) && id in Run(START, steps).ledger
    ensures Staged(Run(START, steps).ledger[id])
  {
    RunKeeps(START, steps);
  }

  ghost predicate NoCuts(w: World, steps: seq<Step>)
    requires Runnable(w, steps)
    decreases |steps|
  {
    steps != [] ==> !Cuts(w.gui, steps[0]) && NoCuts(Next(w, steps[0]), steps[1..])
  }

  lemma {:induction false} UncutStaysUncut(w: World, steps: seq<Step>)
    requires Runnable(w, steps) && NoCuts(w, steps)
    requires forall id | id in w.ledger :: !w.ledger[id].cut
    ensures forall id | id in Run(w, steps).ledger :: !Run(w, steps).ledger[id].cut
    decreases |steps|
  {
    if steps != [] {
      UncutStaysUncut(Next(w, steps[0]), steps[1..]);
    }
  }

  /**
   A receipt says done only if every command of the job was sent and reported without error,
   unless this very job had pending commands discarded from outside.
   */
  lemma DoneMeansEverythingRan(steps: seq<Step>, i: nat)
    requires Runnable(START, steps)
    requires i < |Run(START, steps).gui.jobs| && Run(START, steps).gui.jobs[i].status == Done
    ensures var w := Run(START, steps);
      && w.gui.jobs[i].id in w.ledger
      && var r := w.ledger[w.gui.jobs[i].id];
         !r.cut ==>
           && Commands(r.sent) == r.plan && |r.acks| == |r.sent|
           && forall k | 0 <= k < |r.acks| ::
                r.acks[k].tag == r.sent[k].0 && r.acks[k].final.error == "" && r.acks[k].final.phase != Failed
  {
    RunKeeps(START, steps);
    var w := Run(START, steps);
    var r := w.ledger[w.gui.jobs[i].id];
    assert Staged(r);
    assert !r.cut ==> Complete(r);
  }

  /** In a run without cancellation, revocation or loss of the engine no job is cut. */
  lemma UncutRunsCutNothing(steps: seq<Step>, id: string)
    requires Runnable(START, steps) && NoCuts(START, steps)
    requires id in Run(START, steps).ledger
    ensures !Run(START, steps).ledger[id].cut
  {
    UncutStaysUncut(START, steps);
  }

  /** `r` was closed: it is either still filed as it is, or gone for good. */
  ghost predicate Settled(g: Gui, r: Receipt) {
    && r.id in g.used && (g.active.Some? ==> g.active.value.id != r.id)
    && forall i | 0 <= i < |g.jobs| && g.jobs[i].id == r.id :: g.jobs[i] == r
  }

  lemma SettledStays(g: Gui, step: Step, r: Receipt)
    requires Receipts(g) && Settled(g, r) && r.status != InProgress
    ensures Settled(NextGui(g, step), r)
  {
    var t := NextGui(g, step);
    if StartsFresh(g, step) {
      FreshBegin(g, step);
      forall i | 0 <= i < |t.jobs| && t.jobs[i].id == r.id ensures t.jobs[i] == r {
        assert i < |Kept(g.jobs)|;
        KeptAreOld(g.jobs, i);
      }
    } else {
      OnlyBeginAddsReceipts(g, step);
    }
  }

  lemma {:induction false} SettledForever(w: World, steps: seq<Step>, r: Receipt)
    requires Inv(w) && Runnable(w, steps) && Settled(w.gui, r) && r.status != InProgress
    ensures Settled(Run(w, steps).gui, r)
    decreases |steps|
  {
    if steps != [] {
      SettledStays(w.gui, steps[0], r);
      NextKeeps(w, steps[0]);
      SettledForever(Next(w, steps[0]), steps[1..], r);
    }
  }

  /** A closed receipt is never rewritten, however long the session goes on. */
  lemma ClosedReceiptsNeverChange(w: World, steps: seq<Step>, r: Receipt)
    requires Inv(w) && Runnable(w, steps) && r in w.gui.jobs && r.status != InProgress
    ensures var g := Run(w, steps).gui;
      forall i | 0 <= i < |g.jobs| && g.jobs[i].id == r.id :: g.jobs[i] == r
  {
    var k :| 0 <= k < |w.gui.jobs| && w.gui.jobs[k] == r;
    forall i | 0 <= i < |w.gui.jobs| && w.gui.jobs[i].id == r.id ensures w.gui.jobs[i] == r {
      assert i == k;
    }
    SettledForever(w, steps, r);
  }

  /** A repeated request is answered from its receipt or refused, and never starts anything. */
  lemma RepeatsAreIdempotent(g: Gui, id: string, kind: string, commands: seq<Command>, s: Snapshot, digest: string)
    requires Receipts(g) && id in g.used
    ensures var (t, answer) := BeginJob(g, id, kind, commands, s, digest);
      && t == g
      && (g.fingerprints[id] != digest ==> answer == Err(Conflict))
      && (g.fingerprints[id] == digest ==>
            if exists i :: 0 <= i < |g.jobs| && g.jobs[i].id == id
            then answer.Ok? && answer.value in g.jobs && answer.value.id == id
            else answer == Err(ReceiptExpired))
  {
  }

  /** A revoked or detached client never owns the GUI again. */
  lemma {:induction false} RevokedNeverOwnsAgain(w: World, steps: seq<Step>, client: string)
    requires Inv(w) && Runnable(w, steps) && client in w.gui.revoked
    ensures var g := Run(w, steps).gui; g.owner.Some? ==> g.owner.value.client != client
    decreases |steps|
  {
    if steps != [] {
      OwnershipKept(w.gui, steps[0]);
      NextKeeps(w, steps[0]);
      RevokedNeverOwnsAgain(Next(w, steps[0]), steps[1..], client);
    }
  }

  /** While a lock is held without an owner, nobody is granted the lease. */
  lemma LockedOutMeansNoGrant(g: Gui, step: Step)
    requires g.owner.None? && HasLease(g)
    ensures NextGui(g, step).owner.None?
  {
  }

  /** The step after which a pending retirement may end. */
  predicate Unlocks(g: Gui, step: Step) {
    || step.Lose?
    || (step.Observe? && g.active.None? && !BusyPhase(step.s)
        && step.s.safetyRevision > g.retireSafety && OutputsOff(step.s))
  }

  /**
   Verified retirement. From a release or revocation on, no client is granted
   control until the engine, idle and newer than the request on record, has reported
   every connected output OFF (or is lost).
   */
  lemma {:induction false} NoGrantBeforeVerifiedOff(w: World, steps: seq<Step>) returns (i: nat)
    requires Inv(w) && Runnable(w, steps) && w.gui.retiring
    requires Run(w, steps).gui.owner.Some?
    ensures i < |steps| && Runnable(w, steps[..i]) && Unlocks(Run(w, steps[..i]).gui, steps[i])
    decreases |steps|
  {
    hide Next, NextGui, Ownership, Receipts, Starts, Dispatching, Unlocks, Enabled;
    RetiringIsUnowned(w);
    NextKeeps(w, steps[0]);
    if Next(w, steps[0]).gui.retiring {
      var k := NoGrantBeforeVerifiedOff(Next(w, steps[0]), steps[1..]);
      i := k + 1;
      assert steps[..i][0] == steps[0] && steps[..i][1..] == steps[1..][..k];
    } else {
      i := 0;
      RetirementEnds(w.gui, steps[0]);
      assert steps[..0] == [];
    }
  }

  lemma RetiringIsUnowned(w: World)
    requires Inv(w) && w.gui.retiring
    ensures w.gui.owner.None?
  {
    hide Receipts, Starts, Dispatching;
  }

  /** The safety revision a step reports, if it reports one. */
  function Revision(step: Step): Option<nat> {
    match step
    case TakeOver(safety) => Some(safety)
    case GiveBack(safety) => Some(safety)
    case Expire(_, safety) => Some(safety)
    case Observe(s) => Some(s.safetyRevision)
    case _ => None
  }

  /** Every revision reported is at least `first`, as it is when revisions never decrease. */
  ghost predicate NotBefore(steps: seq<Step>, first: nat) {
    forall i | 0 <= i < |steps| && Revision(steps[i]).Some? :: Revision(steps[i]).value >= first
  }

  /** The step by which control may be granted again: verified OFF newer than `first`, or the engine lost. */
  predicate UnlocksAfter(g: Gui, step: Step, first: nat) {
    || step.Lose?
    || (step.Observe? && g.active.None? && !BusyPhase(step.s) && step.s.safetyRevision > first && OutputsOff(step.s))
  }

  lemma RetirementNeverGetsOlder(g: Gui, step: Step, first: nat)
    requires g.retiring && g.retireSafety >= first
    requires Revision(step).Some? ==> Revision(step).value >= first
    ensures NextGui(g, step).retiring ==> NextGui(g, step).retireSafety >= first
    ensures !NextGui(g, step).retiring ==> UnlocksAfter(g, step, first)
  {
    hide Authorize, BeginJob, Advance, Finish;
    match step {
      case Ask(m, guiIdle, newClient, newLease) => AskKeepsRetirement(g, m, guiIdle, newClient, newLease);
      case Begin(id, kind, commands, s, digest) => BeginKeepsRetirement(g, id, kind, commands, s, digest);
      case Tick(s, newTag) => TickKeepsRetirement(g, s, newTag);
      case Undeliverable => FinishKeepsRetirement(g, None, Errored, Some("transport"));
      case Lose =>
      case _ =>
    }
  }

  lemma AskKeepsRetirement(g: Gui, m: Message, guiIdle: bool, newClient: string, newLease: string)
    ensures var t := Authorize(g, m, guiIdle, newClient, newLease).0;
      t.retiring == g.retiring && t.retireSafety == g.retireSafety
  {
  }

  lemma BeginKeepsRetirement(g: Gui, id: string, kind: string, commands: seq<Command>, s: Snapshot, digest: string)
    ensures var t := BeginJob(g, id, kind, commands, s, digest).0;
      t.retiring == g.retiring && t.retireSafety == g.retireSafety
  {
  }

  lemma FinishKeepsRetirement(g: Gui, final: Option<Final>, status: Status, code: Option<string>)
    ensures var t := Finish(g, final, status, code);
      t.retiring == g.retiring && t.retireSafety == g.retireSafety
  {
  }

  lemma TickKeepsRetirement(g: Gui, s: Snapshot, newTag: string)
    ensures var t := Advance(g, s, newTag).0;
      t.retiring == g.retiring && t.retireSafety == g.retireSafety
  {
  }

  /**
   Where reported safety revisions never decrease, later requests cannot weaken the first one: no
   client is granted control before an idle engine reported every output OFF under a revision newer
   than the one at which control was first released or revoked (or the engine was lost).
   */
  lemma {:induction false} NoGrantBeforeNewerOff(w: World, steps: seq<Step>, first: nat) returns (i: nat)
    requires Inv(w) && Runnable(w, steps) && w.gui.retiring && w.gui.retireSafety >= first
    requires NotBefore(steps, first) && Run(w, steps).gui.owner.Some?
    ensures i < |steps| && Runnable(w, steps[..i]) && UnlocksAfter(Run(w, steps[..i]).gui, steps[i], first)
    decreases |steps|
  {
    hide Next, NextGui, Ownership, Receipts, Starts, Dispatching, UnlocksAfter, Enabled, Revision;
    RetiringIsUnowned(w);
    NextKeeps(w, steps[0]);
    assert steps[0] == steps[..1][0];
    RetirementNeverGetsOlder(w.gui, steps[0], first);
    if Next(w, steps[0]).gui.retiring {
      assert NotBefore(steps[1..], first);
      var k := NoGrantBeforeNewerOff(Next(w, steps[0]), steps[1..], first);
      i := k + 1;
      assert steps[..i][0] == steps[0] && steps[..i][1..] == steps[1..][..k];
    } else {
      i := 0;
      assert steps[..0] == [];
    }
  }

  lemma RetirementEnds(g: Gui, step: Step)
    requires g.retiring && !NextGui(g, step).retiring
    ensures Unlocks(g, step)
  {
  }

  /** Every tag sent out was drawn for one command of one job. */
  ghost predicate TagsUnique(w: World) {
    && (forall id, i | id in w.ledger && 0 <= i < |w.ledger[id].sent| :: w.ledger[id].sent[i].0 in w.tags)
    && (forall id, i, other, j | id in w.ledger && 0 <= i < |w.ledger[id].sent|
            && other in w.ledger && 0 <= j < |w.ledger[other].sent|
            && w.ledger[id].sent[i].0 == w.ledger[other].sent[j].0 :: id == other && i == j)
  }

  /** From `w` to `t` at most one command was sent: by job `id`, under `tag`. */
  ghost predicate OneSend(w: World, t: World, id: string, tag: string) {
    && w.tags <= t.tags
    && forall k | k in t.ledger ::
         if k !in w.ledger then t.ledger[k].sent == []
         else t.ledger[k].sent == w.ledger[k].sent
              || (k == id && tag in t.tags && |t.ledger[k].sent| == |w.ledger[k].sent| + 1
                  && w.ledger[k].sent <= t.ledger[k].sent && t.ledger[k].sent[|w.ledger[k].sent|].0 == tag)
  }

  ghost predicate NoSend(w: World, t: World) {
    && w.tags <= t.tags
    && forall k | k in t.ledger :: t.ledger[k].sent == if k in w.ledger then w.ledger[k].sent else []
  }

  lemma OthersSendNothing(w: World, step: Step)
    requires Receipts(w.gui) && Starts(w) && !(step.Tick? && w.gui.active.Some?)
    ensures NoSend(w, Next(w, step))
  {
    if StartsFresh(w.gui, step) {
      FreshBegin(w.gui, step);
    }
  }

  lemma TickSendsOnce(w: World, step: Step)
    requires Receipts(w.gui) && Starts(w) && step.Tick? && w.gui.active.Some?
    ensures OneSend(w, Next(w, step), w.gui.active.value.id, step.newTag)
  {
    TickShape(w, step);
    if Advance(w.gui, step.s, step.newTag).0.active.Some? {
      AdvanceContinues(w.gui, step.s, step.newTag);
    } else {
      var final, status, code := AdvanceCloses(w.gui, step.s, step.newTag);
    }
  }

  lemma OneSendKeepsTags(w: World, t: World, id: string, tag: string)
    requires TagsUnique(w) && OneSend(w, t, id, tag) && tag !in w.tags
    ensures TagsUnique(t)
  {
  }

  lemma TagsKept(w: World, step: Step)
    requires Receipts(w.gui) && Starts(w) && Enabled(w, step) && TagsUnique(w)
    ensures TagsUnique(Next(w, step))
  {
    if step.Tick? && w.gui.active.Some? {
      TickSendsOnce(w, step);
      OneSendKeepsTags(w, Next(w, step), w.gui.active.value.id, step.newTag);
    } else {
      OthersSendNothing(w, step);
    }
  }

  lemma {:induction false} TagsStayUnique(w: World, steps: seq<Step>)
    requires Inv(w) && TagsUnique(w) && Runnable(w, steps)
    ensures TagsUnique(Run(w, steps))
    decreases |steps|
  {
    if steps != [] {
      TagsKept(w, steps[0]);
      NextKeeps(w, steps[0]);
      TagsStayUnique(Next(w, steps[0]), steps[1..]);
    }
  }

  /** In every run a completion's tag names one command of one job, so no job advances on another's report. */
  lemma TagsNameOneCommand(steps: seq<Step>)
    requires Runnable(START, steps)
    ensures TagsUnique(Run(START, steps))
  {
    TagsStayUnique(START, steps);
  }
}
