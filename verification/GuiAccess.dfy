/** Who may act: the lease is granted under exact conditions, and only its present holder is let through. */
module GuiAccess {
  import opened Wrappers
  import opened GuiModel
  import opened GuiRuns
  import opened GuiDispatch
  import opened GuiTheorems

  /** What anybody may ask without a lease. */
  const READ_ONLY: set<string> :=
    {"status", "config", "configuration", "plan", "output", "result",
     "capabilities", "control_describe", "control_status", "control_result"}

  /** An action on the instruments or the GUI, as opposed to a question or a request for the lease. */
  predicate Acts(m: Message) {
    m.action !in READ_ONLY && m.action !in {"acquire", "claim"}
  }

  /** The message bears the owner's lease and no other client's name. */
  predicate Bears(m: Message, o: Owner) {
    m.lease == Some(o.lease) && (m.client == None || m.client == Some(o.client))
  }

  /** An action is let through exactly for the owner's lease, in time; a heartbeat is answered with that lease. */
  lemma OnlyTheOwnerActs(g: Gui, m: Message, guiIdle: bool, newClient: string, newLease: string)
    requires Acts(m)
    ensures var (t, permit) := Authorize(g, m, guiIdle, newClient, newLease);
      && t == g
      && (permit.Ok? <==> !m.stale && g.owner.Some? && Bears(m, g.owner.value))
      && (permit.Ok? ==> permit.value == if m.action == "heartbeat" then Granted(g.owner.value.lease) else Proceed)
  {
  }

  /** A question is answered in time to anybody, whoever owns the GUI. */
  lemma AnybodyMayAsk(g: Gui, m: Message, guiIdle: bool, newClient: string, newLease: string)
    requires m.action in READ_ONLY
    ensures Authorize(g, m, guiIdle, newClient, newLease) == (g, if m.stale then Err(Expired) else Ok(Proceed))
  {
  }

  /**
   The lease is granted exactly to a client that is well named, states its stop policy and was never revoked: to
   the owner again under its old lease, or, on an idle, unlocked and unowned GUI, to a newcomer under a new one.
   */
  lemma GrantedExactly(g: Gui, m: Message, guiIdle: bool, newClient: string, newLease: string)
    requires m.action in {"acquire", "claim"}
    ensures var (t, permit) := Authorize(g, m, guiIdle, newClient, newLease);
      var client := if m.client.Some? then m.client.value else newClient;
      && (permit.Ok? <==>
            && !m.stale && (m.client.Some? ==> m.validClient) && m.policy.Some? && client !in g.revoked
            && (g.owner.Some? ==> g.owner.value.client == client)
            && (g.owner.None? ==> guiIdle && !g.retiring && g.active.None? && |g.revoked| < 100_000 && |m.name| <= 48))
      && (permit.Err? ==> t == g)
      && (permit.Ok? ==>
            && t.owner.Some? && t == g.(owner := t.owner)
            && permit.value == Granted(t.owner.value.lease)
            && t.owner.value.client == client && Some(t.owner.value.policy) == m.policy
            && (g.owner.Some? ==>
                  t.owner.value.lease == g.owner.value.lease && t.owner.value.name == g.owner.value.name)
            && (g.owner.None? ==> t.owner.value.lease == newLease && t.owner.value.name == m.name))
  {
  }

  /** A refusal names its reason. */
  lemma RefusalsAreTrue(g: Gui, m: Message, guiIdle: bool, newClient: string, newLease: string)
    requires Authorize(g, m, guiIdle, newClient, newLease).1.Err?
    ensures var client := if m.client.Some? then m.client.value else newClient;
      match Authorize(g, m, guiIdle, newClient, newLease).1.error
      case Expired => m.stale
      case BadClient => m.client.Some? && !m.validClient
      case BadPolicy => m.policy.None?
      case Revoked => client in g.revoked
      case OtherOwner => g.owner.Some? && g.owner.value.client != client
      case Busy => g.owner.None? && (!guiIdle || g.retiring || g.active.Some?)
      case SessionLimit => |g.revoked| >= 100_000
      case BadLabel => |m.name| > 48
      case NoLease => g.owner.None?
      case BadLease => g.owner.Some? && !Bears(m, g.owner.value)
      case _ => false
  {
  }

  // ---- Over whole runs ----

  /** The leases granted to newcomers along a run, in order, with the clients they went to. */
  ghost function Grants(w: World, steps: seq<Step>): seq<Owner>
    requires Runnable(w, steps)
    decreases |steps|
  {
    if steps == [] then []
    else
      var t := Next(w, steps[0]);
      (if w.gui.owner.None? && t.gui.owner.Some? then [t.gui.owner.value] else []) + Grants(t, steps[1..])
  }

  /** Every lease offered is a new one: a UUID drawn for one request. */
  ghost predicate FreshLeases(steps: seq<Step>) {
    forall i, j | 0 <= i < j < |steps| && steps[i].Ask? && steps[j].Ask? :: steps[i].newLease != steps[j].newLease
  }

  /** A step leaves the lease where it is, takes it away, or grants the new one it offers. */
  lemma LeaseMoves(g: Gui, step: Step)
    ensures var t := NextGui(g, step);
      t.owner.Some? ==>
        if g.owner.Some? then t.owner.value.lease == g.owner.value.lease && t.owner.value.client == g.owner.value.client
        else step.Ask? && t.owner.value.lease == step.newLease
  {
    hide BeginJob, Advance, Finish, Authorize;
    if step.Ask? {
      AskMovesLease(g, step);
    } else if step.Begin? || step.Tick? || step.Undeliverable? || step.Observe? || step.Cancel? {
      JobStepsKeepOwner(g, step);
    } else if step.Lose? {
      LostOwner(g);
    }
  }

  lemma AskMovesLease(g: Gui, step: Step)
    requires step.Ask?
    ensures var t := NextGui(g, step);
      t.owner.Some? ==>
        if g.owner.Some? then t.owner.value.lease == g.owner.value.lease && t.owner.value.client == g.owner.value.client
        else t.owner.value.lease == step.newLease
  {
  }

  /** The owner holds the lease granted last. */
  ghost predicate Lineage(g: Gui, grants: seq<Owner>) {
    g.owner.Some? ==>
      && grants != []
      && grants[|grants| - 1].lease == g.owner.value.lease && grants[|grants| - 1].client == g.owner.value.client
  }

  lemma {:induction false} OwnerHoldsLastGrant(w: World, steps: seq<Step>, earlier: seq<Owner>)
    requires Runnable(w, steps) && Lineage(w.gui, earlier)
    ensures Lineage(Run(w, steps).gui, earlier + Grants(w, steps))
    decreases |steps|
  {
    hide NextGui, Next, Enabled;
    if steps == [] {
      assert earlier + [] == earlier;
    } else {
      var t := Next(w, steps[0]);
      NextGuiIs(w, steps[0]);
      LeaseMoves(w.gui, steps[0]);
      var grant := if w.gui.owner.None? && t.gui.owner.Some? then [t.gui.owner.value] else [];
      OwnerHoldsLastGrant(t, steps[1..], earlier + grant);
      assert earlier + Grants(w, steps) == (earlier + grant) + Grants(t, steps[1..]);
    }
  }

  /** Each grant was offered by its own request. */
  lemma {:induction false} GrantsAreOffered(w: World, steps: seq<Step>, n: nat) returns (i: nat)
    requires Runnable(w, steps) && n < |Grants(w, steps)|
    ensures i < |steps| && steps[i].Ask? && steps[i].newLease == Grants(w, steps)[n].lease
    ensures Runnable(w, steps[..i]) && |Grants(w, steps[..i])| == n
    decreases |steps|
  {
    hide NextGui, Next, Enabled;
    var t := Next(w, steps[0]);
    NextGuiIs(w, steps[0]);
    LeaseMoves(w.gui, steps[0]);
    var grant := if w.gui.owner.None? && t.gui.owner.Some? then [t.gui.owner.value] else [];
    if n < |grant| {
      i := 0;
      assert steps[..0] == [];
    } else {
      var k := GrantsAreOffered(t, steps[1..], n - |grant|);
      i := k + 1;
      assert steps[..i][0] == steps[0] && steps[..i][1..] == steps[1..][..k];
    }
  }

  /** With fresh leases no two grants of a run are of the same lease. */
  lemma GrantsAreDistinct(w: World, steps: seq<Step>, n: nat, m: nat)
    requires Runnable(w, steps) && FreshLeases(steps) && n < m < |Grants(w, steps)|
    ensures Grants(w, steps)[n].lease != Grants(w, steps)[m].lease
  {
    var i := GrantsAreOffered(w, steps, n);
    var j := GrantsAreOffered(w, steps, m);
    assert i != j;
  }

  /**
   Exclusive control. In every run with fresh leases, an action that is let through bears the lease granted last,
   its client has been neither revoked nor detached, and every lease granted before is refused for good.
   */
  lemma OnlyTheLastGrantActs(steps: seq<Step>, m: Message, guiIdle: bool, newClient: string, newLease: string)
    requires Runnable(START, steps) && FreshLeases(steps) && Acts(m)
    requires Authorize(Run(START, steps).gui, m, guiIdle, newClient, newLease).1.Ok?
    ensures var g := Run(START, steps).gui;
      var grants := Grants(START, steps);
      && grants != [] && m.lease == Some(grants[|grants| - 1].lease)
      && g.owner.Some? && g.owner.value.client == grants[|grants| - 1].client && g.owner.value.client !in g.revoked
      && (m.client.Some? ==> m.client.value == grants[|grants| - 1].client)
      && forall n | 0 <= n < |grants| - 1 :: m.lease != Some(grants[n].lease)
  {
    var g := Run(START, steps).gui;
    var grants := Grants(START, steps);
    OnlyTheOwnerActs(g, m, guiIdle, newClient, newLease);
    OwnerHoldsLastGrant(START, steps, []);
    assert [] + grants == grants;
    OwnersStayWithinLimits(steps);
    forall n | 0 <= n < |grants| - 1 ensures m.lease != Some(grants[n].lease) {
      GrantsAreDistinct(START, steps, n, |grants| - 1);
    }
  }

  // ---- How control ends ----

  /**
   A silent owner loses control at once and for good. If its policy is to stop on disconnect, the stop is reported,
   unsent commands are dropped and the GUI stays locked until OFF is verified; otherwise its job goes on.
   */
  lemma SilenceEndsControl(g: Gui, silent: bool, safety: nat)
    requires Ownership(g)
    ensures var (t, stop) := ExpireLease(g, silent, safety);
      if g.owner.Some? && silent then
        && t.owner.None? && t.revoked == g.revoked + {g.owner.value.client}
        && (stop <==> g.owner.value.policy.onDisconnect)
        && (stop ==> t.retiring && t.retireSafety == safety && (t.active.Some? ==> t.active.value.commands == []))
        && (!stop ==> t.retiring == g.retiring && t.active == g.active)
        && (t.active.Some? <==> g.active.Some?) && t.jobs == g.jobs
      else t == g && !stop
  {
  }

  /** Revoking takes control from its owner for good and locks the GUI until a newer OFF; releasing only locks. */
  lemma EndsLock(g: Gui, safety: nat)
    ensures var t := Revoke(g, safety);
      && t.owner.None? && t.retiring && t.retireSafety == safety && t.jobs == g.jobs
      && t.revoked == g.revoked + (if g.owner.Some? then {g.owner.value.client} else {})
      && (t.active.Some? <==> g.active.Some?) && (t.active.Some? ==> t.active.value.commands == [])
    ensures var t := Release(g, safety);
      t.owner.None? && t.retiring && t.retireSafety == safety && t.revoked == g.revoked && t.active == g.active
  {
  }

  /** A lost engine takes control away, fails the running job and leaves the GUI unlocked. */
  lemma LossUnlocks(g: Gui)
    requires Receipts(g)
    ensures var t := EngineLost(g);
      && t.owner.None? && !t.retiring && t.active.None? && |t.jobs| == |g.jobs|
      && t.revoked == g.revoked + (if g.owner.Some? then {g.owner.value.client} else {})
      && forall i | 0 <= i < |g.jobs| ::
           if g.active.Some? && g.jobs[i].id == g.active.value.id then
             t.jobs[i].id == g.jobs[i].id && t.jobs[i].status == Errored && t.jobs[i].code == Some("transport")
           else t.jobs[i] == g.jobs[i]
  {
    if g.active.Some? {
      var k := Find(g.jobs, g.active.value.id);
      forall i | 0 <= i < |g.jobs| && g.jobs[i].id == g.active.value.id ensures i == k {
      }
    }
  }

  /** Retirement ends as soon as, and only when, an idle engine without a job reports a newer OFF on every output. */
  lemma RetirementEndsExactly(g: Gui, s: Snapshot)
    requires g.retiring
    ensures !Settle(g, s).retiring <==>
      && g.active.None? && s.safetyRevision > g.retireSafety
      && s.final.phase !in {Connecting, Scanning, SwitchingMode, Preparing, Running, CleaningUp}
      && (forall o | o in {s.source, s.source2, s.gate} :: o.0 ==> o.1 == Off)
    ensures Settle(g, s).(retiring := true) == g
  {
    assert s.source in {s.source, s.source2, s.gate};
    assert s.source2 in {s.source, s.source2, s.gate};
    assert s.gate in {s.source, s.source2, s.gate};
  }
}
