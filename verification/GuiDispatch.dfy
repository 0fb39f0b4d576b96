/** Staged dispatch: what every step of the control machine keeps of the ledger of sent commands. */
module GuiDispatch {
  import opened Wrappers
  import opened GuiModel
  import opened GuiRuns

  function Commands(sent: seq<(string, Command)>): seq<Command> {
    seq(|sent|, i requires 0 <= i < |sent| => sent[i].1)
  }

  /** A job has sent a prefix of its plan, each command after the report on the one before. */
  ghost predicate Staged(r: Record) {
    && Commands(r.sent) <= r.plan
    && |r.acks| <= |r.sent| <= |r.acks| + 1
    && (forall i | 0 <= i < |r.acks| :: r.acks[i].tag == r.sent[i].0 && !Fatal(r.acks[i].final, r.kind == "start"))
  }

  /** The running job: what it has left is exactly the rest of its plan, unless that was cut. */
  ghost predicate OnTrack(a: Active, r: Record) {
    && (if r.cut then a.commands == [] else r.plan == Commands(r.sent) + a.commands)
    && (match a.tag
        case Some(tag) => |r.sent| == |r.acks| + 1 && r.sent[|r.acks|].0 == tag
        case None => |r.sent| == |r.acks|)
  }

  ghost predicate Complete(r: Record) {
    |r.acks| == |r.sent| && (r.cut || Commands(r.sent) == r.plan)
  }

  ghost predicate Dispatching(w: World) {
    && (forall id | id in w.ledger :: Staged(w.ledger[id]))
    && (w.gui.active.Some? && w.gui.active.value.id in w.ledger ==>
          OnTrack(w.gui.active.value, w.ledger[w.gui.active.value.id]))
    && (forall i | 0 <= i < |w.gui.jobs| && w.gui.jobs[i].status == Done && w.gui.jobs[i].id in w.ledger ::
          Complete(w.ledger[w.gui.jobs[i].id]))
  }

  lemma MeasuringIsItsKind(w: World)
    requires Receipts(w.gui) && Starts(w) && w.gui.active.Some?
    ensures Measuring(w.gui, w.gui.active.value.id) <==> w.ledger[w.gui.active.value.id].kind == "start"
  {
    var k := Find(w.gui.jobs, w.gui.active.value.id);
    assert w.gui.jobs[k].kind == w.ledger[w.gui.active.value.id].kind;
  }

  lemma AppendSent(r: Record, send: (string, Command))
    ensures Commands(r.sent + [send]) == Commands(r.sent) + [send.1]
  {
  }

  /** The running job's record after a tick. */
  function Ticked(w: World, s: Snapshot, newTag: string): Record
    requires w.gui.active.Some? && w.gui.active.value.id in w.ledger
  {
    Watch(w.ledger[w.gui.active.value.id], Consumed(w.gui, s), Advance(w.gui, s, newTag).1)
  }

  lemma AckKeepsStage(w: World, s: Snapshot)
    requires Receipts(w.gui) && Starts(w) && Dispatching(w) && w.gui.active.Some? && Consumed(w.gui, s).Some?
    ensures var r := Watch(w.ledger[w.gui.active.value.id], Consumed(w.gui, s), None);
      Staged(r) && |r.acks| == |r.sent| && r.sent == w.ledger[w.gui.active.value.id].sent
  {
    MeasuringIsItsKind(w);
  }

  lemma SendKeepsStage(a: Active, r: Record, send: (string, Command))
    requires Staged(r) && |r.acks| == |r.sent| && a.commands != [] && send.1 == a.commands[0]
    requires !r.cut && r.plan == Commands(r.sent) + a.commands
    ensures var t := r.(sent := r.sent + [send]);
      Staged(t) && OnTrack(a.(tag := Some(send.0), commands := a.commands[1..]), t)
  {
    AppendSent(r, send);
    assert Commands(r.sent) + a.commands == Commands(r.sent) + [a.commands[0]] + a.commands[1..];
  }

  lemma AcknowledgedStage(w: World, s: Snapshot)
    requires Receipts(w.gui) && Starts(w) && Dispatching(w) && w.gui.active.Some?
    ensures var r := Watch(w.ledger[w.gui.active.value.id], Consumed(w.gui, s), None);
      && Staged(r)
      && (w.gui.active.value.tag.None? || Consumed(w.gui, s).Some? ==> |r.acks| == |r.sent|)
  {
    if Consumed(w.gui, s).Some? {
      AckKeepsStage(w, s);
    } else {
      assert Watch(w.ledger[w.gui.active.value.id], None, None) == w.ledger[w.gui.active.value.id];
    }
  }

  /** A tick that closes the running job files it as done only when it is complete. */
  lemma ClosingTick(w: World, s: Snapshot, newTag: string)
    requires Receipts(w.gui) && Starts(w) && Dispatching(w) && w.gui.active.Some?
    requires Advance(w.gui, s, newTag).0.active.None?
    ensures Staged(Ticked(w, s, newTag))
    ensures var t := Advance(w.gui, s, newTag).0;
      forall i | 0 <= i < |t.jobs| && t.jobs[i].id == w.gui.active.value.id && t.jobs[i].status == Done ::
        Complete(Ticked(w, s, newTag))
  {
    var final, status, code := AdvanceCloses(w.gui, s, newTag);
    AcknowledgedStage(w, s);
    if status != Done {
      var t := Finish(w.gui, final, status, code);
      forall i | 0 <= i < |t.jobs| && t.jobs[i].id == w.gui.active.value.id ensures t.jobs[i].status == status {
        FindIsUnique(w.gui.jobs, i);
      }
    }
  }

  /** A tick that keeps the job running keeps it staged and on track. */
  lemma ContinuingTick(w: World, s: Snapshot, newTag: string)
    requires Receipts(w.gui) && Starts(w) && Dispatching(w) && w.gui.active.Some?
    requires Advance(w.gui, s, newTag).0.active.Some?
    ensures Staged(Ticked(w, s, newTag))
    ensures OnTrack(Advance(w.gui, s, newTag).0.active.value, Ticked(w, s, newTag))
  {
    var r := w.ledger[w.gui.active.value.id];
    var send := Advance(w.gui, s, newTag).1;
    AdvanceContinues(w.gui, s, newTag);
    if send.Some? {
      AcknowledgedStage(w, s);
      var r1 := Watch(r, Consumed(w.gui, s), None);
      assert r1.sent == r.sent;
      SendKeepsStage(w.gui.active.value, r1, send.value);
      assert Ticked(w, s, newTag) == r1.(sent := r1.sent + [send.value]);
    } else {
      assert Ticked(w, s, newTag) == r;
    }
  }

  lemma FreshBeginShape(w: World, step: Step)
    requires StartsFresh(w.gui, step)
    ensures var t := Next(w, step);
      && t.gui.jobs == Kept(w.gui.jobs) + [Receipt(step.id, step.kind, InProgress, None, 0, None, None)]
      && t.gui.active == Some(Active(step.id, None, step.commands, step.s.safetyRevision))
      && t.ledger == w.ledger[step.id := Record(step.kind, step.commands, [], [], false)]
      && step.id !in w.gui.used && w.gui.active.None?
    ensures step.Begin?
  {
    hide NextGui, BeginJob;
    FreshBegin(w.gui, step);
  }

  lemma FreshIsOnTrack(step: Step)
    requires step.Begin?
    ensures var r := Record(step.kind, step.commands, [], [], false);
      Staged(r) && OnTrack(Active(step.id, None, step.commands, step.s.safetyRevision), r)
  {
    assert Commands([]) == [];
  }

  lemma OldIdIsNotFresh(w: World, k: nat, id: string)
    requires Receipts(w.gui) && k < |w.gui.jobs| && id !in w.gui.used
    ensures w.gui.jobs[k].id != id
  {
  }

  lemma FreshBeginKeepsDispatching(w: World, step: Step)
    requires Receipts(w.gui) && Starts(w) && Dispatching(w) && StartsFresh(w.gui, step)
    ensures Dispatching(Next(w, step))
  {
    hide Next, NextGui, StartsFresh, Complete, Kept, Staged, OnTrack, Receipts;
    var t := Next(w, step);
    FreshBeginShape(w, step);
    FreshIsOnTrack(step);
    forall i | 0 <= i < |t.gui.jobs| && t.gui.jobs[i].status == Done && t.gui.jobs[i].id in t.ledger
      ensures Complete(t.ledger[t.gui.jobs[i].id])
    {
      assert i < |Kept(w.gui.jobs)|;
      KeptAreOld(w.gui.jobs, i);
      var k :| 0 <= k < |w.gui.jobs| && w.gui.jobs[k] == Kept(w.gui.jobs)[i];
      assert t.gui.jobs[i] == w.gui.jobs[k];
      OldIdIsNotFresh(w, k, step.id);
    }
  }

  lemma TickShape(w: World, step: Step)
    requires step.Tick? && w.gui.active.Some? && w.gui.active.value.id in w.ledger
    ensures var t := Next(w, step);
      && t.gui == Advance(w.gui, step.s, step.newTag).0
      && t.ledger == w.ledger[w.gui.active.value.id := Ticked(w, step.s, step.newTag)]
  {
  }

  /** Replacing the running job's record by a staged one is all a tick does to the ledger. */
  lemma OneRecordKeepsDispatching(w: World, t: World, id: string, r: Record)
    requires Receipts(w.gui) && Dispatching(w) && SameReceipts(w.gui, t.gui)
    requires w.gui.active.Some? && w.gui.active.value.id == id
    requires t.ledger == w.ledger[id := r] && Staged(r)
    requires t.gui.active.Some? ==> OnTrack(t.gui.active.value, r)
    requires forall i | 0 <= i < |t.gui.jobs| && t.gui.jobs[i].id == id && t.gui.jobs[i].status == Done :: Complete(r)
    ensures Dispatching(t)
  {
    forall i | 0 <= i < |t.gui.jobs| && t.gui.jobs[i].status == Done && t.gui.jobs[i].id in t.ledger
      ensures Complete(t.ledger[t.gui.jobs[i].id])
    {
      if w.gui.jobs[i].id != id {
        assert w.gui.jobs[i].status != InProgress;
        assert t.gui.jobs[i] == w.gui.jobs[i];
      }
    }
  }

  lemma ActiveIsFiled(w: World)
    requires Receipts(w.gui) && Starts(w) && w.gui.active.Some?
    ensures w.gui.active.value.id in w.ledger && Find(w.gui.jobs, w.gui.active.value.id) < |w.gui.jobs|
  {
  }

  lemma TickKeepsDispatching(w: World, step: Step)
    requires Receipts(w.gui) && Starts(w) && Dispatching(w) && step.Tick? && w.gui.active.Some?
    ensures Dispatching(Next(w, step))
  {
    hide Advance, NextGui, Next, Starts, SameReceipts, Complete, Staged, OnTrack;
    NextGuiIs(w, step);
    var id := w.gui.active.value.id;
    assert id in w.ledger && Find(w.gui.jobs, id) < |w.gui.jobs| by {
      ActiveIsFiled(w);
    }
    TickShape(w, step);
    OnlyBeginAddsReceipts(w.gui, step);
    if Advance(w.gui, step.s, step.newTag).0.active.Some? {
      ContinuingTick(w, step.s, step.newTag);
      AdvanceContinues(w.gui, step.s, step.newTag);
      ReceiptsKept(w.gui, step);
    } else {
      ClosingTick(w, step.s, step.newTag);
    }
    OneRecordKeepsDispatching(w, Next(w, step), id, Ticked(w, step.s, step.newTag));
  }

  /** Lease steps can only cut the running job. */
  lemma LeaseStepKeepsDispatching(w: World, step: Step)
    requires Dispatching(w) && (w.gui.active.Some? ==> w.gui.active.value.id in w.ledger)
    requires !step.Begin? && !step.Tick? && !step.Lose? && !step.Undeliverable?
    ensures Dispatching(Next(w, step))
  {
    LeaseStepsKeepJobs(w.gui, step);
  }

  /** No job runs in `t`; records may have been cut, and receipts closed as failed. */
  ghost predicate OnlyFailed(w: World, t: World) {
    && t.gui.active.None?
    && t.ledger.Keys == w.ledger.Keys
    && (forall id | id in w.ledger :: t.ledger[id] == w.ledger[id] || t.ledger[id] == w.ledger[id].(cut := true))
    && |t.gui.jobs| == |w.gui.jobs|
    && (forall i | 0 <= i < |w.gui.jobs| :: t.gui.jobs[i] == w.gui.jobs[i] || t.gui.jobs[i].status == Errored)
  }

  lemma FailureShape(w: World, step: Step)
    requires Receipts(w.gui) && (step.Lose? || step.Undeliverable?)
    requires w.gui.active.Some? ==> w.gui.active.value.id in w.ledger
    ensures OnlyFailed(w, Next(w, step))
  {
    hide Authorize, BeginJob, Advance, Settle, ExpireLease;
  }

  /** A lost engine or dispatch closes the running job as failed. */
  lemma FailureKeepsDispatching(w: World, t: World)
    requires Dispatching(w) && OnlyFailed(w, t)
    ensures Dispatching(t)
  {
    forall id | id in t.ledger ensures Staged(t.ledger[id]) {
      assert Staged(w.ledger[id]);
    }
    forall i | 0 <= i < |t.gui.jobs| && t.gui.jobs[i].status == Done && t.gui.jobs[i].id in t.ledger
      ensures Complete(t.ledger[t.gui.jobs[i].id])
    {
      assert Complete(w.ledger[w.gui.jobs[i].id]);
    }
  }

  lemma NextGuiIs(w: World, step: Step)
    ensures Next(w, step).gui == NextGui(w.gui, step)
  {
  }
}
