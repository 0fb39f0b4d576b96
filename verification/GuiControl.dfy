/** The GUI's control object, updated in place by the requests of one thread. */
module GuiControl {
  import opened Wrappers
  import opened GuiModel
  import opened GuiRuns
  import GuiAccess

  class Control {
    var owner: Option<Owner>
    var revoked: set<string>
    var jobs: seq<Receipt>
    var used: set<string>
    var fingerprints: map<string, string>
    var active: Option<Active>
    var retiring: bool
    var retireSafety: nat

    ghost function View(): Gui
      reads this
    {
      Gui(owner, revoked, jobs, used, fingerprints, active, retiring, retireSafety)
    }

    constructor ()
      ensures View() == FRESH && Sound(View())
    {
      owner, revoked, jobs, used, fingerprints := None, {}, [], {}, map[];
      active, retiring, retireSafety := None, false, 0;
    }

    method Detach()
      modifies this`owner, this`revoked
      ensures View() == GuiModel.Detach(old(View()))
      ensures old(Sound(View())) ==> Sound(View())
    {
      hide Sound;
      SoundKept(View(), LetGo);
      if owner.Some? {
        revoked := revoked + {owner.value.client};
        owner := None;
      }
    }

    method Release(safety: nat)
      modifies this
      ensures View() == GuiModel.Release(old(View()), safety)
      ensures old(Sound(View())) ==> Sound(View())
    {
      hide Sound;
      SoundKept(View(), GiveBack(safety));
      owner := None;
      retireSafety := safety;
      retiring := true;
    }

    method CancelPending()
      modifies this`active
      ensures View() == ClearPending(old(View()))
      ensures old(Sound(View())) ==> Sound(View())
    {
      hide Sound;
      SoundKept(View(), Cancel);
      if active.Some? {
        active := Some(active.value.(commands := []));
      }
    }

    method Revoke(safety: nat)
      modifies this
      ensures View() == GuiModel.Revoke(old(View()), safety)
      ensures old(Sound(View())) ==> Sound(View())
    {
      hide Sound;
      SoundKept(View(), TakeOver(safety));
      retireSafety := safety;
      Detach();
      retiring := true;
      CancelPending();
    }

    method Expired(silent: bool, safety: nat) returns (stop: bool)
      modifies this
      ensures (View(), stop) == ExpireLease(old(View()), silent, safety)
      ensures old(Sound(View())) ==> Sound(View())
    {
      hide Sound;
      SoundKept(View(), Expire(silent, safety));
      stop := false;
      if owner.Some? && silent && !retiring {
        if owner.value.policy.onDisconnect {
          Revoke(safety);
          stop := true;
        } else {
          Detach();
        }
      }
    }

    method SettleRelease(s: Snapshot)
      modifies this`retiring
      ensures View() == Settle(old(View()), s)
      ensures old(Sound(View())) ==> Sound(View())
    {
      hide Sound;
      SoundKept(View(), Observe(s));
      if retiring && active.None? && !BusyPhase(s) && s.safetyRevision > retireSafety && OutputsOff(s) {
        retiring := false;
      }
    }

    method Authorize(m: Message, guiIdle: bool, newClient: string, newLease: string)
      returns (permit: Result<Permit, Refusal>)
      modifies this`owner
      ensures (View(), permit) == GuiModel.Authorize(old(View()), m, guiIdle, newClient, newLease)
      ensures old(Sound(View())) ==> Sound(View())
      ensures GuiAccess.Acts(m) ==>
        && owner == old(owner)
        && (permit.Ok? <==> !m.stale && owner.Some? && GuiAccess.Bears(m, owner.value))
    {
      hide Sound;
      SoundKept(View(), Ask(m, guiIdle, newClient, newLease));
      if m.stale {
        return Err(Refusal.Expired);
      }
      if m.action in OPEN_METHODS {
        return Ok(Proceed);
      }
      if m.action == "acquire" || m.action == "claim" {
        permit := Acquire(m, guiIdle, newClient, newLease);
        return;
      }
      if owner.None? {
        return Err(NoLease);
      }
      if m.lease != Some(owner.value.lease) || (m.client.Some? && m.client.value != owner.value.client) {
        return Err(BadLease);
      }
      return Ok(if m.action == "heartbeat" then Granted(owner.value.lease) else Proceed);
    }

    method Acquire(m: Message, guiIdle: bool, newClient: string, newLease: string)
      returns (permit: Result<Permit, Refusal>)
      modifies this`owner
      ensures (View(), permit) == GuiModel.Acquire(old(View()), m, guiIdle, newClient, newLease)
      ensures old(Sound(View())) ==> Sound(View())
    {
      hide Sound;
      SoundKept(View(), Ask(m.(stale := false, action := "acquire"), guiIdle, newClient, newLease));
      var client := if m.client.Some? then m.client.value else newClient;
      if m.client.Some? && !m.validClient {
        return Err(BadClient);
      }
      if m.policy.None? {
        return Err(BadPolicy);
      }
      if client in revoked {
        return Err(Revoked);
      }
      if owner.Some? {
        if owner.value.client != client {
          return Err(OtherOwner);
        }
        owner := Some(owner.value.(policy := m.policy.value));
        return Ok(Granted(owner.value.lease));
      }
      if !guiIdle || retiring || active.Some? {
        return Err(Busy);
      }
      if |revoked| >= SESSION_LIMIT {
        return Err(SessionLimit);
      }
      if |m.name| > LABEL_LIMIT {
        return Err(BadLabel);
      }
      owner := Some(Owner(newLease, client, m.name, m.policy.value));
      return Ok(Granted(newLease));
    }

    /** The position of a receipt, scanning from the oldest. */
    method Locate(id: string) returns (k: nat)
      ensures k == Find(jobs, id)
    {
      k := 0;
      while k < |jobs| && jobs[k].id != id
        invariant k <= |jobs| && forall i | 0 <= i < k :: jobs[i].id != id
      {
        k := k + 1;
      }
    }

    method BeginJob(id: string, kind: string, commands: seq<Command>, s: Snapshot, digest: string)
      returns (answer: Result<Receipt, Refusal>)
      modifies this
      ensures (View(), answer) == GuiModel.BeginJob(old(View()), id, kind, commands, s, digest)
      ensures old(Sound(View())) ==> Sound(View())
    {
      hide Sound;
      SoundKept(View(), Begin(id, kind, commands, s, digest));
      if id in fingerprints {
        if fingerprints[id] != digest {
          return Err(Conflict);
        }
        var k := Locate(id);
        return if k < |jobs| then Ok(jobs[k]) else Err(ReceiptExpired);
      }
      if id in used {
        return Err(ReceiptExpired);
      }
      if active.Some? || BusyPhase(s) {
        return Err(Busy);
      }
      if |used| >= SESSION_LIMIT {
        return Err(SessionLimit);
      }
      var receipt := Receipt(id, kind, InProgress, None, 0, None, None);
      if |jobs| == HISTORY_LIMIT {
        jobs := jobs[1..];
      }
      jobs := jobs + [receipt];
      used := used + {id};
      fingerprints := fingerprints[id := digest];
      active := Some(Active(id, None, commands, s.safetyRevision));
      return Ok(receipt);
    }

    method Finish(final: Option<Final>, status: Status, code: Option<string>)
      modifies this`active, this`jobs
      ensures View() == GuiModel.Finish(old(View()), final, status, code)
    {
      if active.None? {
        return;
      }
      var k := Locate(active.value.id);
      active := None;
      if k < |jobs| {
        jobs := jobs[k := Close(jobs[k], final, status, code)];
      }
    }

    method FailDispatch()
      modifies this`active, this`jobs
      ensures View() == GuiModel.FailDispatch(old(View()))
      ensures old(Sound(View())) ==> Sound(View())
    {
      hide Sound;
      SoundKept(View(), Undeliverable);
      Finish(None, Errored, Some("transport"));
    }

    method EngineLost()
      modifies this
      ensures View() == GuiModel.EngineLost(old(View()))
      ensures old(Sound(View())) ==> Sound(View())
    {
      hide Sound;
      SoundKept(View(), Lose);
      Revoke(0);
      FailDispatch();
      retiring := false;
    }

    /** The completion of the command now out, scanning the reported ones from the oldest. */
    method Report(s: Snapshot) returns (report: Option<Completion>)
      ensures report == Reported(View(), s)
    {
      if active.None? || active.value.tag.None? {
        return None;
      }
      var tag := active.value.tag.value;
      var k := 0;
      while k < |s.completions| && s.completions[k].tag != tag
        invariant k <= |s.completions| && forall i | 0 <= i < k :: s.completions[i].tag != tag
      {
        k := k + 1;
      }
      return if k < |s.completions| then Some(s.completions[k]) else None;
    }

    method Advance(s: Snapshot, newTag: string) returns (send: Option<(string, Command)>)
      modifies this`active, this`jobs
      ensures (View(), send) == GuiModel.Advance(old(View()), s, newTag)
      ensures old(Sound(View())) ==> Sound(View())
    {
      hide Sound, Reported, GuiModel.Finish;
      SoundKept(View(), Tick(s, newTag));
      send := None;
      if active.None? {
        return;
      }
      if s.safetyRevision > active.value.safety && !BusyPhase(s) {
        var failed := s.final.error != "" || !(SafeOutput(s.source) && SafeOutput(s.source2));
        Finish(Some(s.final), if failed then Errored else Halted, Some(if failed then "protection" else "stopped"));
        return;
      }
      var report := Report(s);
      if report.Some? {
        var final := report.value.final;
        if Fatal(final, exists i :: 0 <= i < |jobs| && jobs[i].id == active.value.id && jobs[i].kind == "start") {
          Finish(Some(final), if final.phase == Stopped then Halted else Errored, Some(FailureCode(final)));
          return;
        }
      } else if active.value.tag.Some? {
        return;
      }
      var a := active.value;
      if a.commands == [] {
        Finish(Some(if report.Some? then report.value.final else s.final), Done, None);
      } else {
        active := Some(a.(tag := Some(newTag), commands := a.commands[1..]));
        send := Some((newTag, a.commands[0]));
      }
    }
  }
}
