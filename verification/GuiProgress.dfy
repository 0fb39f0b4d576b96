/** What becomes of a job: when it starts, when its next command goes out, how it ends, and that it does. */
module GuiProgress {
  import opened Wrappers
  import opened GuiModel
  import opened GuiRuns

  /** The engine is doing nothing that a new job would disturb. */
  predicate Resting(s: Snapshot) {
    s.final.phase !in {Connecting, Scanning, SwitchingMode, Preparing, Running, CleaningUp}
  }

  /**
   A request under a new id starts a job exactly when none is running, the engine rests and ids are left. It then
   is the running job with all its commands ahead of it, and only the oldest of 32 receipts makes way for its own.
   */
  lemma StartsExactly(g: Gui, id: string, kind: string, commands: seq<Command>, s: Snapshot, digest: string)
    requires Receipts(g) && id !in g.used
    ensures var (t, answer) := BeginJob(g, id, kind, commands, s, digest);
      && (answer.Ok? <==> g.active.None? && Resting(s) && |g.used| < 100_000)
      && (answer.Err? ==> t == g)
      && (answer.Ok? ==>
            && answer.value.id == id && answer.value.kind == kind && answer.value.status == InProgress
            && t.active == Some(Active(id, None, commands, s.safetyRevision))
            && t.jobs == (if |g.jobs| < 32 then g.jobs else g.jobs[1..]) + [answer.value]
            && t.fingerprints == g.fingerprints[id := digest] && t.used == g.used + {id}
            && t.owner == g.owner && t.revoked == g.revoked && t.retiring == g.retiring)
  {
    hide Find;
    assert id !in g.fingerprints;
  }

  /** A job refused under a new id is refused for the reason named. */
  lemma StartRefusalsAreTrue(g: Gui, id: string, kind: string, commands: seq<Command>, s: Snapshot, digest: string)
    requires Receipts(g) && id !in g.used && BeginJob(g, id, kind, commands, s, digest).1.Err?
    ensures match BeginJob(g, id, kind, commands, s, digest).1.error
      case Busy => g.active.Some? || !Resting(s)
      case SessionLimit => |g.used| >= 100_000
      case _ => false
  {
    assert id !in g.fingerprints;
  }

  /** A safety command ran after the job began, and the engine has come to rest. */
  predicate Interrupted(g: Gui, s: Snapshot) {
    g.active.Some? && s.safetyRevision > g.active.value.safety && Resting(s)
  }

  /** `c` is the first completion reported under the tag of the command now out. */
  ghost predicate Reports(g: Gui, s: Snapshot, c: Completion) {
    && g.active.Some?
    && exists k :: 0 <= k < |s.completions| && s.completions[k] == c && g.active.value.tag == Some(c.tag)
         && forall i | 0 <= i < k :: s.completions[i].tag != c.tag
  }

  /** The job measures, as opposed to connecting or setting something. */
  ghost predicate Measures(g: Gui) {
    g.active.Some? && exists r :: r in g.jobs && r.id == g.active.value.id && r.kind == "start"
  }

  /** The command failed: an error, a failed phase, or for a measurement a stop of its own or by protection. */
  ghost predicate Failure(g: Gui, f: Final) {
    || f.error != "" || f.phase == Failed
    || (Measures(g) && (f.phase == ComplianceStop || f.phase == SourceLimitStop || f.phase == Stopped))
  }

  lemma ReportedIsFirst(g: Gui, s: Snapshot, c: Completion)
    ensures Reports(g, s, c) <==> Reported(g, s) == Some(c)
  {
    if g.active.Some? && g.active.value.tag.Some? {
      var tag := g.active.value.tag.value;
      var k := First(s.completions, (c: Completion) => c.tag == tag);
      assert forall i | 0 <= i < k :: s.completions[i].tag != tag;
    }
  }

  lemma MeasuresIsMeasuring(g: Gui)
    requires g.active.Some?
    ensures Measures(g) <==> Measuring(g, g.active.value.id)
  {
  }

  /** The receipt of the running job was closed as `r`, and nothing else was touched. */
  ghost predicate ClosesAs(g: Gui, t: Gui, status: Status, code: Option<string>, final: Final) {
    && g.active.Some? && t == g.(active := None, jobs := t.jobs) && |t.jobs| == |g.jobs|
    && (forall i | 0 <= i < |g.jobs| && g.jobs[i].id != g.active.value.id :: t.jobs[i] == g.jobs[i])
    && forall i | 0 <= i < |g.jobs| && g.jobs[i].id == g.active.value.id ::
         && t.jobs[i].id == g.jobs[i].id && t.jobs[i].kind == g.jobs[i].kind
         && t.jobs[i].status == status && t.jobs[i].code == code
         && t.jobs[i].final == Some(final) && t.jobs[i].rows == final.points
         && t.jobs[i].output == if g.jobs[i].kind == "start" then Some(final.path) else g.jobs[i].output
  }

  lemma FinishClosesAs(g: Gui, final: Final, status: Status, code: Option<string>)
    requires Receipts(g) && g.active.Some?
    ensures ClosesAs(g, Finish(g, Some(final), status, code), status, code, final)
  {
    var k := Find(g.jobs, g.active.value.id);
    forall i | 0 <= i < |g.jobs| && g.jobs[i].id == g.active.value.id ensures i == k {
    }
  }

  /**
   A job overtaken by Stop or OFF ends as stopped if the engine reports no error and both sources off; if OFF is
   not confirmed it ends as a protection error, never as stopped or done.
   */
  lemma InterruptedJobsEnd(g: Gui, s: Snapshot, newTag: string)
    requires Receipts(g) && Interrupted(g, s)
    ensures var (t, send) := Advance(g, s, newTag);
      var confirmed :=
        s.final.error == "" && (s.source.0 ==> s.source.1 == Off) && (s.source2.0 ==> s.source2.1 == Off);
      && send.None?
      && ClosesAs(g, t, if confirmed then Halted else Errored, Some(if confirmed then "stopped" else "protection"),
                  s.final)
  {
    var confirmed := s.final.error == "" && SafeOutput(s.source) && SafeOutput(s.source2);
    FinishClosesAs(g, s.final, if confirmed then Halted else Errored,
        Some(if confirmed then "stopped" else "protection"));
  }

  /** The error code of a failed command, by what went wrong. */
  ghost predicate Explains(code: string, f: Final) {
    if f.phase == ComplianceStop || f.phase == SourceLimitStop then code == "protection"
    else if f.phase == Stopped then code == "stopped"
    else
      && (code == "save_failed" <==> f.errorKind == "storage")
      && (code == "protection" <==> f.errorKind == "overload" || f.errorKind == "output_safety")
      && (code == "device_error" <==>
            f.errorKind == "disconnected" || f.errorKind == "timeout" || f.errorKind == "protocol"
            || f.errorKind == "identity_mismatch")
      && code in {"save_failed", "protection", "device_error", "job_failed"}
  }

  /** A failed command ends its job: as stopped if the engine was stopped, as an error otherwise, saying why. */
  lemma FailedCommandsEnd(g: Gui, s: Snapshot, newTag: string, c: Completion)
    requires Receipts(g) && !Interrupted(g, s) && Reports(g, s, c) && Failure(g, c.final)
    ensures var (t, send) := Advance(g, s, newTag);
      && send.None?
      && exists code ::
           Explains(code, c.final)
           && ClosesAs(g, t, if c.final.phase == Stopped then Halted else Errored, Some(code), c.final)
  {
    ReportedIsFirst(g, s, c);
    MeasuresIsMeasuring(g);
    var f := c.final;
    FinishClosesAs(g, f, if f.phase == Stopped then Halted else Errored, Some(FailureCode(f)));
    assert Explains(FailureCode(f), f);
  }

  /**
   Otherwise a job waits for the report on the command that is out; with that report in, or none awaited, it sends
   its next command under the new tag, or with nothing left to send it is done.
   */
  lemma HealthyJobsGoOn(g: Gui, s: Snapshot, newTag: string)
    requires Receipts(g) && g.active.Some? && !Interrupted(g, s)
    requires forall c :: Reports(g, s, c) ==> !Failure(g, c.final)
    ensures var (t, send) := Advance(g, s, newTag);
      var a := g.active.value;
      if a.tag.Some? && !(exists c :: Reports(g, s, c)) then t == g && send.None?
      else if a.commands != [] then
        && send == Some((newTag, a.commands[0]))
        && t == g.(active := Some(a.(tag := Some(newTag), commands := a.commands[1..])))
      else
        && send.None?
        && exists f ::
             && ClosesAs(g, t, Done, None, f) && (a.tag.None? ==> f == s.final)
             && (a.tag.Some? ==> exists c :: Reports(g, s, c) && c.final == f)
  {
    var a := g.active.value;
    var report := Reported(g, s);
    MeasuresIsMeasuring(g);
    if report.Some? {
      ReportedIsFirst(g, s, report.value);
    } else {
      forall c ensures !Reports(g, s, c) {
        ReportedIsFirst(g, s, c);
      }
    }
    if a.commands == [] && (report.Some? || a.tag.None?) {
      var f := if report.Some? then report.value.final else s.final;
      FinishClosesAs(g, f, Done, None);
    }
  }

  // ---- A whole job ----

  /** Ticks on given snapshots under given tags, and what they send. */
  function Ticks(g: Gui, ss: seq<Snapshot>, tags: seq<string>): (Gui, seq<(string, Command)>)
    requires |ss| == |tags|
    decreases |ss|
  {
    if ss == [] then (g, [])
    else
      var (t, send) := Advance(g, ss[0], tags[0]);
      var (u, rest) := Ticks(t, ss[1..], tags[1..]);
      (u, (if send.Some? then [send.value] else []) + rest)
  }

  /** The engine reports well on the command under `tag`, and no safety command has come between. */
  ghost predicate GoodNews(s: Snapshot, tag: Option<string>, safety: nat) {
    && !(s.safetyRevision > safety && Resting(s))
    && (tag.Some? ==>
          && (exists k :: 0 <= k < |s.completions| && s.completions[k].tag == tag.value)
          && forall k | 0 <= k < |s.completions| && s.completions[k].tag == tag.value ::
               s.completions[k].final.error == "" && s.completions[k].final.phase == Completed)
  }

  lemma GoodNewsIsReported(g: Gui, s: Snapshot)
    requires g.active.Some? && GoodNews(s, g.active.value.tag, g.active.value.safety)
    ensures !Interrupted(g, s)
    ensures g.active.value.tag.Some? ==> exists c :: Reports(g, s, c)
    ensures forall c :: Reports(g, s, c) ==> !Failure(g, c.final)
  {
    if g.active.value.tag.Some? {
      var tag := g.active.value.tag.value;
      var k := First(s.completions, (c: Completion) => c.tag == tag);
      assert s.completions[k].tag == tag;
      assert Reports(g, s, s.completions[k]);
    }
  }

  /** Before tick `i` the command of the tick before is out. */
  function TagBefore(first: Option<string>, tags: seq<string>, i: nat): Option<string>
    requires i <= |tags|
  {
    if i == 0 then first else Some(tags[i - 1])
  }

  /**
   An undisturbed job runs to its end: with a good report on each command it sends exactly the commands it has,
   in order, one under each new tag, and its receipt then says done.
   */
  lemma {:induction false} UndisturbedJobCompletes(g: Gui, ss: seq<Snapshot>, tags: seq<string>)
    requires Receipts(g) && g.active.Some?
    requires |ss| == |tags| == |g.active.value.commands| + 1
    requires forall i | 0 <= i < |ss| :: GoodNews(ss[i], TagBefore(g.active.value.tag, tags, i), g.active.value.safety)
    ensures var (t, sent) := Ticks(g, ss, tags);
      var commands := g.active.value.commands;
      && |sent| == |commands| && (forall i | 0 <= i < |sent| :: sent[i] == (tags[i], commands[i]))
      && exists f :: ClosesAs(g, t, Done, None, f)
    decreases |ss|
  {
    hide Receipts, Advance, GoodNews, Interrupted, Reports, Failure;
    var a := g.active.value;
    assert TagBefore(a.tag, tags, 0) == a.tag;
    GoodNewsIsReported(g, ss[0]);
    HealthyJobsGoOn(g, ss[0], tags[0]);
    var (t, send) := Advance(g, ss[0], tags[0]);
    if a.commands == [] {
      assert Ticks(t, ss[1..], tags[1..]) == (t, []);
    } else {
      StillInOrder(g, t);
      forall i | 0 <= i < |ss[1..]|
        ensures GoodNews(ss[1..][i], TagBefore(t.active.value.tag, tags[1..], i), a.safety)
      {
        assert ss[1..][i] == ss[i + 1];
        assert TagBefore(t.active.value.tag, tags[1..], i) == TagBefore(a.tag, tags, i + 1);
      }
      UndisturbedJobCompletes(t, ss[1..], tags[1..]);
      var (u, rest) := Ticks(t, ss[1..], tags[1..]);
      var f :| ClosesAs(t, u, Done, None, f);
      assert ClosesAs(g, u, Done, None, f);
    }
  }

  lemma StillInOrder(g: Gui, t: Gui)
    requires Receipts(g) && g.active.Some? && t.active.Some? && t.active.value.id == g.active.value.id
    requires t.jobs == g.jobs && t.used == g.used && t.fingerprints == g.fingerprints
    ensures Receipts(t)
  {
  }
}
