# A verified model of sweep planning and instrument ownership

The laboratory control programs plan electrical sweeps for one or two DC sources and
arbitrate who may drive the instruments. This project models the parts that carry the
guarantees and proves them with Dafny. `dafny verify dfyconfig.toml` checks everything.

**Shared GPIB service** (`HubTrace`, `HubCore`, `HubSafety`, `HubRuns`, `HubCleanup`,
`HubAnswers`, `HubController`, `Server`, `ServerSafety`, `ServerTurns`, `ServerRuns`,
`ServerReplies`, `ServerRefines`, `ServerWorker`, `HubClient`, `ServerClient`,
`ServerMeaning`). The controller core is a set of functions on its state together with a
history of bus, journal and lease events. Every backend call and every journal write may fail,
a write before or after its rename, and the process may crash between any two events; a restart
finds any journal the disk could then hold. Around the core stands the socket service as a
state machine over the steps of its reader, worker and writer threads; `ServerRefines` shows
that it adds nothing to the controller, and `ServerClient` and `ServerMeaning` follow a
client's call to the bus and back. `HubController`, `ServerWorker` and `HubClient` are the
classes that change the state in place, each method proved equal to the function it implements.

**GUI control** (`GuiModel`, `GuiRuns`, `GuiDispatch`, `GuiTheorems`, `GuiAccess`,
`GuiProgress`, `GuiControl`): exclusive lease, revocation, retirement until a verified OFF,
exactly-once jobs with bounded receipts, staged dispatch under fresh tags. Runs carry a ledger
of what each job sent and what was reported back.

**Safety latch** (`Latch`, `LatchRelease`, `EngineControl` for the engine; `Writer`,
`WriterIntents`, `WriterQueue`, `WriterLoop` for the client): two threads interleave at every
single load, store and queue operation.

**Sweep planning** (`Divisibility`, `Lattice`, `Sweep`, `SweepScaling`, `Plan`, `PlanSafety`,
`PlanMeaning`, `PlanExample`, `Balanced`, `BalancedSplit`, `BalancedMeaning`,
`BalancedExample`, `Ramp`): exact decimals as reals, resolutions as stored decimals, profile
tables as arbitrary parameters.

**Streaming** (`RawCsv`, `Streaming`): the torn-record scanner and the two accumulators.

## Where the code and its promises differ

- The latch bit of a safety command is a bit, not a count. With Stop, Stop, Run, Stop the
  second acknowledgement clears the third request (`Latch.OverlappingStopsMissOne`). The
  exact condition is `Latch.LatchHoldsIffRequestsDoNotOverlap`.
- A safety intent accepted after the writer wrote the same command, and before it cleared
  that bit, is cleared unwritten (`WriterIntents.SecondStopIsAbsorbed`). The exact condition
  is `WriterIntents.PromptExactlyUnlessAbsorbed`.
- Without an explicit source compliance the programmed protection may exceed the stop limit,
  as the default configuration does (`PlanExample.ImplicitProtectionCanBeWeakened`). The exact
  condition is `PlanSafety.ImplicitProtectionExactly`.
- The message that the voltage ratio cannot be represented by both resolutions never has the
  ratio as its cause (`Lattice.RatioIsNeverTheObstacle`).

## Model

| member | source | states |
|---|---|---|
| `HubRuns.DirtySourcesSurviveAnyCrash` | crates/instrument-hub/src/core.rs:141-175 | At every instant of every run of requests, disconnects, backend and journal failures, crashes in mid-request and restarts, a source that received a client transfer since its last verified OFF is named by every journal a restart at that instant could read. |
| `HubRuns.QuarantineRefusesClaims` | crates/instrument-hub/src/core.rs:228-260 | A dirty source without a lease is refused to every claimant, under any policy and any backend answer, without touching bus, journal or state. |
| `HubRuns.OnlyRecoveryLiftsQuarantine` | crates/instrument-hub/src/core.rs:294-309 | Through any run, crashes included, a dirty unleased source stays dirty and unleased unless a Recover of that very address verifies OFF. |
| `HubRuns.BusIsExclusive` | crates/instrument-hub/src/core.rs:177-189 | In every run each client transfer lies inside the one open claim interval of its address, opened by its sender; a source interval was opened only after this process verified OFF and the address was on disk; LIST happens while no interval is open. |
| `HubRuns.IntervalsNeverOverlap` | crates/instrument-hub/src/core.rs:233-260 | Two claim intervals of one address that are open at the same instant are the same interval. |
| `HubRuns.FaultIsPermanent` | crates/instrument-hub/src/core.rs:191-213 | After a failed preparation, transfer or listing nothing reaches the bus again before a restart of the service; a failed identification or OFF latches nothing. |
| `HubRuns.RunKeeps` | crates/instrument-hub/src/core.rs:85-375 | Every reachable state of the controller satisfies the invariant: leases match open intervals, sources at risk are quarantined in memory and on disk, the trace is legal and crash-safe at every prefix. |
| `HubRuns.RestartKeeps` | crates/instrument-hub/src/core.rs:86-139 | A restart from any journal the disk may hold re-establishes the invariant with no owners. |
| `HubSafety.ServeKeeps` | crates/instrument-hub/src/core.rs:215-310 | Every request, whatever the backend and the file system answer, keeps the invariant. |
| `HubSafety.PersistKeeps` | crates/instrument-hub/src/core.rs:141-175 | Persisting keeps the invariant when it succeeds, fails before the rename, or fails between rename and directory sync. |
| `HubSafety.RelinquishKeeps` | crates/instrument-hub/src/core.rs:312-337 | Releasing an address ends its lease even when cleanup fails, and keeps the invariant. |
| `HubSafety.DisconnectEndsLeases` | crates/instrument-hub/src/core.rs:339-357 | After a disconnect no address is owned by that session, other sessions keep theirs, and the invariant holds, whatever failed. |
| `HubSafety.ServeAddsOwnLeasesOnly` | crates/instrument-hub/src/core.rs:215-293 | A request creates leases only for the session that made it and takes none from another session. |
| `HubCleanup.EndedLeasesAreQuieted` | crates/instrument-hub/src/core.rs:312-357 | A lease ends exactly by its own session's release or close or by the loss of that session; and after its end, unless the controller had faulted by then, the bus sees an OFF in the source's own dialect, a CLEAR for a lost instrument, or LOCAL for a released one. |
| `HubCleanup.GoodReleasesClear` | crates/instrument-hub/src/core.rs:270-279 | A release or close answered Ok leaves each source of the session off since its last transfer, out of the quarantine and out of every journal a restart may find. |
| `HubCleanup.EndedSourcesStayQuarantined` | crates/instrument-hub/src/core.rs:318-337 | However a source's lease ends, it is then cleared in that sense or still quarantined in memory under its own model. |
| `HubCleanup.SavesDecideTheDisk` | crates/instrument-hub/src/core.rs:141-175 | After a save a restart finds the new journal; after a failure before the rename what it found before; after a failure beyond it either. |
| `HubAnswers.OkHasItsEffect` | crates/instrument-hub/src/core.rs:215-310 | No answer Ok without the deed, for each kind of request: the lease held and its interval open, the one message on the bus and its reply, the lease ended and the source cleared, the source recovered and cleared, every owner listed, the true report. |
| `HubAnswers.FreeClaims` | crates/instrument-hub/src/core.rs:228-260 | A free address is granted if and only if the device map has it under that policy, it is not quarantined, no fault is latched, and preparation, identification, OFF and saving succeed; bus and journal then saw exactly these steps in this order before the grant. Otherwise no lease changes, and the error code is determined. |
| `HubAnswers.RepeatedClaims` | crates/instrument-hub/src/core.rs:233-240 | A leased address is confirmed, without any bus traffic, exactly to its holder under the same policy; another session is told it is in use. |
| `HubAnswers.ClaimsHold` | crates/instrument-hub/src/core.rs:228-260 | A claim is answered Ok if and only if afterwards the session holds the address under that policy on a healthy controller. |
| `HubAnswers.TransfersAreCarriedOut` | crates/instrument-hub/src/core.rs:261-269 | A transfer reaches the bus if and only if its session holds the address, at least a millisecond is left, operation, size and timeout are in bounds and no fault is latched; it is then the one message sent, with no more time than is left, answered with the instrument's own reply or a latched fault; otherwise nothing changes and the error code is determined. |
| `HubAnswers.ListingsAreComplete` | crates/instrument-hub/src/core.rs:280-293 | LIST probes the bus exactly when nobody owns anything, keeps addresses 1 to 30, and otherwise answers the last inventory and every owned address. |
| `HubAnswers.RecoveriesClear` | crates/instrument-hub/src/core.rs:294-309 | Recovery succeeds if and only if the address is unleased, quarantined under that very model, verifies OFF and its removal is saved on a healthy controller; nothing then remembers it as unverified; each failure has its code. |
| `HubAnswers.ReleasesFail` | crates/instrument-hub/src/core.rs:270-279 | A release is refused to anyone but the holder; a failed one says whether a fault was latched or the output is unverified. |
| `HubAnswers.StatusIsTrue` | crates/instrument-hub/src/core.rs:222-227 | The status shows the fault, every owner by name, and every quarantined address. |
| `HubAnswers.LeasedMeansExclusive` | crates/instrument-hub/src/core.rs:177-189 | Claim, transfer, release and recovery of an address someone else holds change nothing and are refused as in use. |
| `HubAnswers.RefusalsTouchNothing` | crates/instrument-hub/src/core.rs:215-310 | A request refused as invalid, in use or expired has changed neither state nor bus nor journal. |
| `HubAnswers.FaultsAreReported` | crates/instrument-hub/src/core.rs:191-213 | A request during which a fault is latched is answered with an error. |
| `HubAnswers.StartUps` | crates/instrument-hub/src/core.rs:86-139 | The service starts exactly on a valid device map with a missing or readable journal, without owners, with the journal's addresses quarantined. |
| `HubController.Core.constructor` | crates/instrument-hub/src/core.rs:86-139 | A controller opened on a journal has no owners, no fault, an empty inventory and the journal as its quarantine. |
| `HubController.Core.Persist` | crates/instrument-hub/src/core.rs:141-175 | The new state and result are those of the specified write-ahead step for each of the three ways saving can go. |
| `HubController.Core.Claim` | crates/instrument-hub/src/core.rs:228-260 | The in-place claim has exactly the specified effect on owners, quarantine, fault, journal and trace on every branch. |
| `HubController.Core.ClientTransfer` | crates/instrument-hub/src/core.rs:261-269 | Checks come in the specified order and only an accepted transfer reaches the bus. |
| `HubController.Core.Release` | crates/instrument-hub/src/core.rs:312-337 | Ownership goes first, cleanup follows, and a failed save restores the quarantine entry; in the states the service reaches, a healthy controller switches the source off, clears a lost instrument or returns a released one to local after the lease has ended. |
| `HubController.Core.Leased` | crates/instrument-hub/src/core.rs:339-346 | The loop collects exactly the addresses of the session, in ascending order. |
| `HubController.Core.Disconnect` | crates/instrument-hub/src/core.rs:339-357 | The loop relinquishes every leased address in order and reports whether any failed; every address the session held has ended its lease and been quieted. |
| `HubController.Core.Recover` | crates/instrument-hub/src/core.rs:294-309 | Recovery has exactly the specified effect, error order included. |
| `HubController.Core.ListBus` | crates/instrument-hub/src/core.rs:280-293 | The bus is listed only without owners; owned addresses are always in the answer. |
| `HubController.Core.Request` | crates/instrument-hub/src/core.rs:215-310 | The whole request dispatcher has the effect of the specification on every request, keeps the invariant, and an Ok answer has the effect its request asks for. |
| `ServerRuns.OneOutstandingCommand` | crates/instrument-hub/src/server.rs:251-310 | In every interleaving of readers, worker and writers each connection has at most one of turn, command in hand, queued command and reply in its slot; the pending queue never exceeds 64; every owner is a registered session; the controller invariant holds. |
| `ServerRuns.PriorityReordersOnlyOffs` | crates/instrument-hub/src/server.rs:66-82 | In every run dispatch keeps one session's commands in id order and all non-OFF commands in arrival order. |
| `ServerRuns.RegisteredBeforeDispatch` | crates/instrument-hub/src/server.rs:76-86 | Whatever command is picked next, its session has been registered before. |
| `ServerRuns.OffsGoFirst` | crates/instrument-hub/src/server.rs:76-82 | While a WRITE of `:OUTP OFF` or `O0;E` of a registered session is pending the first of them is taken next, otherwise the oldest event. |
| `ServerRefines.ServiceRefinesController` | crates/instrument-hub/src/server.rs:38-142 | Every run of the service is, seen from the controller, the run of the commands handed to it and of the lost sessions: replayed from the start they give the same final controller. |
| `ServerRefines.AnswersAreTheControllers` | crates/instrument-hub/src/server.rs:93-118 | Every answer on record was given at one step of the run: it is the controller's own to that session, name and request in the state reached, or ConnectionLost, Cancelled or Deadline exactly for an unregistered session, a dead connection or an expired command, with the controller untouched. |
| `ServerMeaning.DispatchWasCarriedOut` | crates/instrument-hub/src/server.rs:87-118 | In any run, a recorded Ok means that the controller carried that request out at that step, and its effect on bus and journal is part of all that follows. |
| `ServerClient.OkIsTheDispatchOfThatCall` | crates/instrument-protocol/src/lib.rs:449-524 | With a client in the run, whose frames reach its connection in order if at all: whatever the service, other clients, bus and network do, a call that returned Ok returned the answer of the one and only dispatch of the very frame it sent. |
| `ServerMeaning.OkMeansItWasDone` | crates/instrument-protocol/src/lib.rs:449-524 | The whole way: an Ok the client returns is the answer of the only dispatch of its frame, and there the controller did what the call asked: an Ok claim is a lease granted or already held, an Ok transfer one message on the bus, an Ok release or recovery a source cleared. |
| `HubClient.ExchangeMeans` | crates/instrument-protocol/src/lib.rs:449-524 | A frame is sent exactly for a sensible deadline, a valid request, an id left and an open transport; it carries the very request, the next id, the last nonce and a deadline of 1 to 30000 whole milliseconds; Ok is returned exactly for a valid Ok reply under that id, unchanged. |
| `HubClient.TransportCloses` | crates/instrument-protocol/src/lib.rs:503-531 | After a frame was sent the transport stays open exactly for a valid reply under its id without a fatal error; otherwise it closes. |
| `ServerClient.PlayKeeps` | crates/instrument-protocol/src/lib.rs:449-524 | Every action of the client and the service keeps: sent ids increase, what the service accepted on the connection the client had sent, and every Ok so far is backed by its only dispatch. |
| `ServerRuns.OkIsTheDispatchOfThatEnvelope` | crates/instrument-protocol/src/lib.rs:488-506 | The same for one state: given that the service accepted the frame a call sent, an Ok on a delivered reply is the answer of its only dispatch. |
| `ServerRuns.NextKeeps` | crates/instrument-hub/src/server.rs:38-310 | Every step of every thread keeps the combined invariant of turns, queues, registrations, replies and leases. |
| `ServerSafety.NoCommandBeforeItsRegistration` | crates/instrument-hub/src/server.rs:66-86 | Even under OFF priority the picked command's own Register event is no longer ahead of it in the queue. |
| `ServerSafety.LeasesKept` | crates/instrument-hub/src/server.rs:51-63 | Dropping lost sessions and dispatching keep every owner a registered session. |
| `ServerSafety.ShutdownLeavesNoOwner` | crates/instrument-hub/src/server.rs:137-141 | After the shutdown loop nobody owns anything, even if every cleanup failed. |
| `ServerSafety.LostSessionsAreQuieted` | crates/instrument-hub/src/server.rs:52-61 | Cutting off the sessions found dead ends every lease they held and quiets each instrument as a lost one: sources switched off, instruments cleared. |
| `ServerSafety.ShutdownQuiets` | crates/instrument-hub/src/server.rs:137-141 | The shutdown loop ends every lease as a lost connection does: sources switched off, instruments cleared. |
| `ServerTurns.OneTokenKept` | crates/instrument-hub/src/server.rs:251-310 | No step ever gives a connection a second turn, command or reply. |
| `ServerTurns.RepliesKept` | crates/instrument-hub/src/server.rs:113-135 | Every reply in a slot or delivered answers a dispatch of the envelope with its id. |
| `ServerReplies.NothingIsLost` | crates/instrument-hub/src/server.rs:251-310 | In every run a live connection has exactly one of turn, command on the way, reply on the way; with its turn back, the reply to its newest frame has been delivered under the nonce that is now its turn; every frame taken was well formed and, after the first, presented the nonce of a reply since the frame before. |
| `ServerReplies.FramesAreTaken` | crates/instrument-hub/src/server.rs:283-310 | The reader takes a frame exactly when it is well formed, newer than the last and presents the current turn, and kills the connection otherwise. |
| `ServerReplies.SessionsKeepTheirNames` | crates/instrument-hub/src/server.rs:84-86 | In every run each registered session goes by the name it connected under. |
| `ServerReplies.NothingBlocks` | crates/instrument-hub/src/server.rs:60-75 | Whatever holds a token, the step that moves it on is possible. |
| `ServerWorker.Worker.DropLost` | crates/instrument-hub/src/server.rs:52-61 | The loop over lost sessions disconnects each as lost, in order, and removes it; none of them owns anything afterwards. |
| `ServerWorker.Worker.Admit` | crates/instrument-hub/src/server.rs:69-75 | The filling loop moves the longest possible prefix of the inbox, never beyond 64 pending events. |
| `ServerWorker.Worker.Position` | crates/instrument-hub/src/server.rs:76-82 | The search finds the first urgent OFF of a registered session, or the head of the queue. |
| `ServerWorker.Worker.Dispatch` | crates/instrument-hub/src/server.rs:80-119 | One dispatch has the specified effect on sessions, queue and controller and gives the specified answer; an Ok answer has the effect asked for by a queued command of a registered, live session. |
| `ServerWorker.Worker.Shutdown` | crates/instrument-hub/src/server.rs:137-141 | The closing loop disconnects every session in order. |
| `ServerWorker.Turnstile.Read` | crates/instrument-hub/src/server.rs:283-305 | The reader accepts an envelope only with a fresh id and the expected nonce, and takes the turn. |
| `ServerWorker.Turnstile.Write` | crates/instrument-hub/src/server.rs:260-274 | The writer gives the next turn with the reply. |
| `HubClient.Client.Request` | crates/instrument-protocol/src/lib.rs:449-531 | One call has the specified effect on id, nonce and transport for every outcome of the exchange. |
| `HubClient.SentIdsIncrease` | crates/instrument-protocol/src/lib.rs:456-471 | Over any series of calls request ids strictly increase and every frame sent is one the server validates. |
| `GuiTheorems.JobsStartOnce` | crates/iv-desktop/src/gui_control.rs:380-432 | In every run a request id starts at most one job; used ids, fingerprint domain and started ids agree; receipts are distinct and at most 32; the active job has its receipt and is the only one running. |
| `GuiProgress.StartsExactly` | crates/iv-desktop/src/gui_control.rs:397-432 | A request under a new id starts a job if and only if none runs, the engine rests and ids are left; all its commands are then ahead of it and only the oldest of 32 receipts makes way. |
| `GuiProgress.StartRefusalsAreTrue` | crates/iv-desktop/src/gui_control.rs:411-416 | A start refused under a new id names a condition that holds. |
| `GuiProgress.InterruptedJobsEnd` | crates/iv-desktop/src/gui_control.rs:462-484 | A job overtaken by a safety command ends as stopped exactly if the engine reports no error and both connected sources off, and as a protection error otherwise, never as completed. |
| `GuiProgress.FailedCommandsEnd` | crates/iv-desktop/src/gui_control.rs:485-541 | A failed command ends its job, as stopped exactly if the engine was stopped, with the error code of its cause. |
| `GuiProgress.HealthyJobsGoOn` | crates/iv-desktop/src/gui_control.rs:542-557 | Otherwise a tick waits for the report on the command that is out, sends the next command under the new tag, or completes the job. |
| `GuiProgress.UndisturbedJobCompletes` | crates/iv-desktop/src/gui_control.rs:460-557 | A job whose commands are all reported well sends exactly its commands, in order, one under each new tag, and its receipt is then completed. |
| `GuiTheorems.ClosedReceiptsNeverChange` | crates/iv-desktop/src/gui_control.rs:441-455 | From any reachable state on, a terminal receipt is never rewritten. |
| `GuiTheorems.RepeatsAreIdempotent` | crates/iv-desktop/src/gui_control.rs:380-409 | A repeated id changes nothing: same payload returns its receipt or says it expired, another payload is a conflict. |
| `GuiTheorems.JobsAreStaged` | crates/iv-desktop/src/gui_control.rs:460-557 | In every run each job has sent a prefix of its command list, each command only after a good completion under the tag of the one before. |
| `GuiTheorems.DoneMeansEverythingRan` | crates/iv-desktop/src/gui_control.rs:543-556 | A completed receipt means every command of that job was sent and completed without error, unless pending commands of this very job were discarded from outside. |
| `GuiTheorems.UncutRunsCutNothing` | crates/iv-desktop/src/gui_control.rs:436-440 | Only cancellation, revocation or loss of the engine discards pending commands of a job. |
| `GuiTheorems.TagsNameOneCommand` | crates/iv-desktop/src/gui_control.rs:543-547 | With fresh tags no two commands of any jobs ever share a tag. |
| `GuiTheorems.RevokedNeverOwnsAgain` | crates/iv-desktop/src/gui_control.rs:213-240 | A revoked or detached client never owns again in any run. |
| `GuiAccess.OnlyTheLastGrantActs` | crates/iv-desktop/src/gui_control.rs:280-360 | In every run with fresh leases, an action that is let through bears the lease granted last, its client has been neither revoked nor detached, and every lease granted before is refused. |
| `GuiAccess.OnlyTheOwnerActs` | crates/iv-desktop/src/gui_control.rs:335-358 | Any action but acquiring and reading is let through if and only if it comes in time under the owner's lease and under no other client's name; a heartbeat is answered with that lease. |
| `GuiAccess.AnybodyMayAsk` | crates/iv-desktop/src/gui_control.rs:287-290 | The reading methods are open to everybody, in time, and change nothing. |
| `GuiAccess.GrantedExactly` | crates/iv-desktop/src/gui_control.rs:291-334 | The lease is granted if and only if the client is well named, states its policy, was never revoked, and is the owner or comes to an idle, unlocked GUI below the limits; the owner keeps its lease and name, a newcomer gets the new lease. |
| `GuiAccess.RefusalsAreTrue` | crates/iv-desktop/src/gui_control.rs:284-349 | Every refusal names a condition that holds. |
| `GuiAccess.SilenceEndsControl` | crates/iv-desktop/src/gui_control.rs:190-212 | A silent owner loses control for good; exactly if its policy says so a stop is asked for, unsent commands are dropped and the GUI stays locked; otherwise its job goes on. Nobody else is touched. |
| `GuiAccess.EndsLock` | crates/iv-desktop/src/gui_control.rs:224-240 | Revoking bars the client, drops unsent commands and locks; releasing only locks. |
| `GuiAccess.LossUnlocks` | crates/iv-desktop/src/gui_control.rs:241-245 | A lost engine ends control, closes only the running job, as a transport error, and leaves the GUI unlocked. |
| `GuiAccess.RetirementEndsExactly` | crates/iv-desktop/src/gui_control.rs:246-255 | A snapshot ends retirement if and only if no job runs, the engine rests, its revision is newer and every connected output is off. |
| `GuiTheorems.OwnersStayWithinLimits` | crates/iv-desktop/src/gui_control.rs:213-255 | In every run the owner is neither revoked nor detached, nobody owns while retirement is pending, and revoked clients plus the owner never exceed 100000. |
| `GuiRuns.SoundKept` | crates/iv-desktop/src/gui_control.rs:116-557 | Every step keeps exclusive ownership and the order of receipts. |
| `GuiRuns.OwnershipKept` | crates/iv-desktop/src/gui_control.rs:280-337 | Every step keeps: the owner is not revoked, retiring means unowned, and revoked clients plus the owner never exceed 100000. |
| `GuiTheorems.LockedOutMeansNoGrant` | crates/iv-desktop/src/gui_control.rs:184-186 | While a job is active or retirement is pending without an owner, no step grants the lease. |
| `GuiTheorems.NoGrantBeforeNewerOff` | crates/iv-desktop/src/gui_control.rs:224-255 | Where reported safety revisions never decrease, from the first release or revocation on nobody is granted control before an idle engine reports every output off under a revision newer than that first one, whatever later requests say, or the engine is lost. |
| `GuiTheorems.NoGrantBeforeVerifiedOff` | crates/iv-desktop/src/gui_control.rs:246-255 | Without that assumption the same holds for the revision of the last request on record. |
| `GuiTheorems.RetirementEnds` | crates/iv-desktop/src/gui_control.rs:241-255 | Retirement ends in no other step. |
| `GuiControl.Control.Authorize` | crates/iv-desktop/src/gui_control.rs:280-360 | Authorization in place has the specified effect and answer on every branch; an action is let through if and only if it bears the owner's lease in time; ownership and receipts stay sound. |
| `GuiControl.Control.Acquire` | crates/iv-desktop/src/gui_control.rs:291-342 | Acquisition checks revocation, foreign owner, busyness and the session limit in order, and changes only owner data; ownership and receipts stay sound. |
| `GuiControl.Control.BeginJob` | crates/iv-desktop/src/gui_control.rs:397-432 | Starting a job has exactly the specified effect on receipts, ids, fingerprints and the active job; ownership and receipts stay sound. |
| `GuiControl.Control.Finish` | crates/iv-desktop/src/gui_control.rs:441-455 | Only the active job's receipt is closed. |
| `GuiControl.Control.FailDispatch` | crates/iv-desktop/src/gui_control.rs:456-458 | A failed dispatch closes the active job as a transport error and keeps ownership and receipts in order. |
| `GuiControl.Control.Report` | crates/iv-desktop/src/gui_control.rs:482-489 | The search returns the first reported completion under the outstanding tag. |
| `GuiControl.Control.Advance` | crates/iv-desktop/src/gui_control.rs:460-557 | One tick has the specified effect for cancellation, failure, next command and completion; ownership and receipts stay sound. |
| `GuiControl.Control.Revoke` | crates/iv-desktop/src/gui_control.rs:229-238 | Revocation records the client, clears unsent commands and starts retirement; ownership and receipts stay sound. |
| `GuiControl.Control.Expired` | crates/iv-desktop/src/gui_control.rs:190-212 | A silent owner is revoked or detached as its policy says, once; ownership and receipts stay sound. |
| `GuiControl.Control.EngineLost` | crates/iv-desktop/src/gui_control.rs:241-245 | A lost engine revokes, fails the job and unlocks; ownership and receipts stay sound. |
| `GuiControl.Control.SettleRelease` | crates/iv-desktop/src/gui_control.rs:246-255 | Retirement ends exactly on a newer verified OFF with nothing active; ownership and receipts stay sound. |
| `GuiControl.Control.Locate` | crates/iv-desktop/src/gui_control.rs:361-367 | The search returns the first receipt with the id. |
| `Latch.AtMostOneOutputOperation` | crates/iv-desktop/src/engine.rs:236-266 | At every interleaving point at most one output operation is admitted and unfinished, and `running` is set exactly then. |
| `Latch.LatchHoldsIffRequestsDoNotOverlap` | crates/iv-desktop/src/engine.rs:134-145 | Every request of a kind stays latched from receipt to acknowledgement if and only if no request of that kind arrives while one is outstanding. |
| `Latch.CancelledWhileOutstanding` | crates/iv-desktop/src/engine.rs:104-115 | Without such overlap `cancelled()` holds at every interleaving point from receipt to acknowledgement, between the separate stores of either thread. |
| `Latch.NothingAdmittedPastARequest` | crates/iv-desktop/src/engine.rs:242-270 | At every interleaving point at which an output operation is being admitted, no safety request of a kind that never overlapped is outstanding. |
| `LatchRelease.ClosingCancelsForGood` | crates/iv-desktop/src/engine.rs:104-115 | From the moment the engine is closed every later point of every run is cancelled. |
| `LatchRelease.LostConsumerCancels` | crates/iv-desktop/src/engine.rs:310-317 | So is every point after the consumer of the results is lost. |
| `LatchRelease.SilenceCancels` | crates/iv-desktop/src/engine.rs:109-114 | A client silent for too long cancels whatever the flags say. |
| `LatchRelease.RequestsCancel` | crates/iv-desktop/src/engine.rs:107 | A latched request of any kind cancels by itself. |
| `LatchRelease.StopFlagAloneCancels` | crates/iv-desktop/src/engine.rs:134-145 | A concrete run in which an outstanding Stop has lost its bit to the acknowledgement before it and is seen through the `stop` flag alone. |
| `LatchRelease.NothingIsCancelledForNothing` | crates/iv-desktop/src/engine.rs:134-145 | At every interleaving point with no request outstanding, none being acknowledged and the engine open, `cancelled()` is false for a live client and the `off` hint is down. |
| `LatchRelease.ClosedEngineIsLeft` | crates/iv-desktop/src/engine.rs:332 | Once the engine is closed its owner leaves within seven steps, after at most one more command. |
| `LatchRelease.OpenEngineIsKept` | crates/iv-desktop/src/engine.rs:332 | While it is open the owner never leaves. |
| `LatchRelease.ReportsSettleRefusals` | crates/iv-desktop/src/engine.rs:814-828 | With every report the slots of refused requests are emptied. |
| `LatchRelease.CommandsAreTakenInOrder` | crates/iv-desktop/src/engine.rs:168-281 | In every run the owner takes exactly the queued commands, in the order they were queued. |
| `Latch.OverlappingStopsMissOne` | crates/iv-desktop/src/engine.rs:134-145 | A concrete run, Stop, Stop, Run, Stop: the second Stop's acknowledgement clears the third Stop's bit while a run is in progress. |
| `Latch.StopFlagAloneMissesOne` | crates/iv-desktop/src/engine.rs:140-144 | A concrete run in which the `stop` flag is cleared under a fresh request: only the bitmask keeps it cancelled. |
| `Latch.OutstandingMoves` | crates/iv-desktop/src/engine.rs:184-232 | Requests become outstanding on receipt and cease only by acknowledgement or by a full queue that closes the engine. |
| `EngineControl.Control.AcknowledgeSafety` | crates/iv-desktop/src/engine.rs:134-145 | Undisturbed, the function has the effect of the owner's micro-steps from completion to report. |
| `EngineControl.Control.Complete` | crates/iv-desktop/src/engine.rs:810-813 | Completing a command gives up the output reservation and nothing else. |
| `EngineControl.Control.Cancelled` | crates/iv-desktop/src/engine.rs:104-115 | The four sources of cancellation, as the specification reads them. |
| `EngineControl.Control.Admit` | crates/iv-desktop/src/engine.rs:180-281 | The reader's handling of one command has the effect of its micro-steps: latching before enqueueing, reservation and its undoing, rejection slots, closing. |
| `EngineControl.AdmissionIsItsSteps` | crates/iv-desktop/src/engine.rs:180-281 | The same as one closed form over every command, queue and flag state. |
| `Writer.SafetyOvertakes` | crates/iv-desktop/src/client.rs:244-314 | In every interleaving a switch-on command accepted before a safety intent is already written, is the one line past its last check, or is never written. Unless absorbed, the intent is answered by its own command or a shutdown before any ordinary line but the very next one, and before any less urgent line but one already chosen. |
| `WriterIntents.AcceptedIntentsAreWritten` | crates/iv-desktop/src/client.rs:252-283 | From any reachable state a writer left alone, its lines taken, answers every unabsorbed intent within 175 steps, unless a shutdown ended the wire. |
| `Writer.SafetyCommand` | crates/iv-desktop/src/client.rs:215-231 | The command chosen is one of the set bits, and none of the set bits is more urgent. |
| `Writer.ClearingLeavesNothingToSwitchOn` | crates/iv-desktop/src/client.rs:254-283 | Whenever a safety bit is about to be cleared no Run, SetGateVoltage or SetSourceDc is queued or deferred. |
| `WriterQueue.CommandsStayInOrder` | crates/iv-desktop/src/client.rs:244-314 | In every run the ordinary commands on the wire, then in the writer's hand, deferred and queued, are accepted ones in strictly ascending order of acceptance. |
| `WriterQueue.AcceptedCommandsAreKept` | crates/iv-desktop/src/client.rs:162-190 | An accepted command is on the wire, in the writer's hand, deferred or queued at every later point of every run, unless since its acceptance a safety or shutdown request was pending or the writer died. |
| `WriterQueue.QueuedCommandsAreWritten` | crates/iv-desktop/src/client.rs:287-303 | At any reachable instant without a safety request, a writer left alone puts exactly the waiting commands on the wire, in order, within four steps each and one more, with no other line between than a heartbeat already due. |
| `WriterQueue.SubmissionsAreQueued` | crates/iv-desktop/src/client.rs:162-190 | A safety intent sets its bit unless the writer is dead; a command goes to the end of the queue unless the writer is dead, 16 wait, or it switches something on while a safety request is pending; each refusal is the right one. |
| `WriterQueue.IdleWriterBeats` | crates/iv-desktop/src/client.rs:304-310 | An idle writer sends the heartbeat that is due. |
| `WriterQueue.DepartureShutsDown` | crates/iv-desktop/src/client.rs:260-314 | From every reachable state in which the client is gone the writer tells the engine to shut down within 419 steps. |
| `WriterIntents.PromptExactlyUnlessAbsorbed` | crates/iv-desktop/src/client.rs:270-280 | In any reachable state an intent is sure, whatever follows, to be answered by its own command or a shutdown before any ordinary line but the very next one, if and only if its bit is not the one about to be cleared or a shutdown is pending. |
| `WriterIntents.AbsorbedIntentIsNotRepeated` | crates/iv-desktop/src/client.rs:273-280 | From every other state a run exists that writes two ordinary lines with no answer between. |
| `WriterIntents.SecondStopIsAbsorbed` | crates/iv-desktop/src/client.rs:273-280 | Such a state is reached: in a concrete run a second accepted Stop is followed by two ordinary lines and no Stop. |
| `Writer.NextKeeps` | crates/iv-desktop/src/client.rs:162-314 | Every submission and every load, store, queue operation or write of the loop keeps the invariant. |
| `WriterLoop.CommandPipe.Submit` | crates/iv-desktop/src/client.rs:162-190 | A submission has the specified effect, safety beside the queue, refusal of switch-ons under pending safety, bounded queue, and keeps the invariant. |
| `WriterLoop.CommandPipe.Drain` | crates/iv-desktop/src/client.rs:255-269 | The discarding loop has the effect of its micro-steps, sender loss included. |
| `WriterLoop.CommandPipe.WriteSafety` | crates/iv-desktop/src/client.rs:270-283 | The most urgent bit is written, then cleared; shutdown ends the writer. |
| `WriterLoop.CommandPipe.WriteNormal` | crates/iv-desktop/src/client.rs:287-310 | The oldest command is taken, rechecked and written as it is, or a due heartbeat sent, or sender loss turned into shutdown. |
| `WriterLoop.CommandPipe.Turn` | crates/iv-desktop/src/client.rs:252-311 | One whole turn of the loop has the effect of the writer's micro-steps and keeps the invariant; without a safety request it writes the oldest waiting command. |
| `Divisibility.GcdLoop` | crates/iv-core/src/lib.rs:914-923 | The remainder loop computes the gcd of the absolute values. |
| `Divisibility.GcdIsGcd` | crates/iv-core/src/lib.rs:914-923 | What the loop computes divides both numbers, is divided by every common divisor, and is positive unless both are zero. |
| `Divisibility.LcmDivides` | crates/iv-core/src/lib.rs:994-998 | The checked divide-then-multiply gives a number dividing every common multiple. |
| `Lattice.CommonGrid` | crates/iv-core/src/lib.rs:992-999 | A value is on two reduced rational grids exactly when it is on the grid of lcm(numerators) / gcd(denominators). |
| `Lattice.StepGrid` | crates/iv-core/src/lib.rs:976-991 | A total is on a source's computed step grid exactly when its share is a multiple of that source's resolution. |
| `Lattice.DivideIsExact` | crates/iv-core/src/lib.rs:1000-1013 | An accepted quotient times the denominator is the numerator; it is a storable positive decimal, and no decimal with fewer places equals it. |
| `Lattice.IncrementIsTheCommonGrid` | crates/iv-core/src/lib.rs:968-1014 | A total voltage is a whole number of increments if and only if value*a/(a+b) is a multiple of the first resolution and value*b/(a+b) of the second. |
| `Lattice.RatioIsNeverTheObstacle` | crates/iv-core/src/lib.rs:1007-1012 | The increment is always a whole number of units of the finer resolution's last place, so the error about the voltage ratio is reported only when that number exceeds 96 bits. |
| `Lattice.SplitsExactly` | crates/iv-core/src/lib.rs:971-1014 | The increment is found if and only if the two steps fit into 128-bit integers, their common multiple into a 96-bit numerator and denominator, and some decimal of 28 places equals it. |
| `Sweep.DecimalRange` | crates/iv-core/src/lib.rs:741-771 | The loop returns the specified points or error. |
| `Sweep.WalkShape` | crates/iv-core/src/lib.rs:753-770 | In closed form: point i is start + i*step until the endpoint replaces it, there are ceil(|stop-start|/|step|)+1 points, and it fails exactly when they exceed the room. |
| `Sweep.ForwardIsSegment` | crates/iv-core/src/lib.rs:773-780 | A forward pass is a segment with exact endpoints, equal gaps of |step| and a last gap in (0, |step|], and fails exactly when it exceeds the cap. |
| `Sweep.SegmentIsMonotone` | crates/iv-core/src/lib.rs:741-771 | A segment is strictly monotone. |
| `Sweep.AppendJoined` | crates/iv-core/src/lib.rs:782-789 | Appending skips the first point of the segment exactly when it repeats the last one. |
| `Sweep.TourJoins` | crates/iv-core/src/lib.rs:782-789 | Joining two tours at a common point gives a tour with one point fewer than their sum. |
| `Sweep.BuildRoute` | crates/iv-core/src/lib.rs:1251-1289 | Building the points pattern by pattern in place gives the specified route. |
| `Sweep.RouteIsATour` | crates/iv-core/src/lib.rs:1268-1293 | Linear, round-trip and zero-centred routes never repeat a neighbour, never jump further than |step|, stay inside the interval, visit start, stop (and zero), begin and end where they should, have the predicted length, and exist exactly when it is within the cap. |
| `Sweep.DegenerateRoutes` | crates/iv-core/src/lib.rs:1229-1293 | A list is taken as it is, with one to a million points; without a step every other pattern is refused. |
| `Sweep.RangeErrors` | crates/iv-core/src/lib.rs:741-771 | A range is refused for a zero step, a step away from the stop, or a million intervals, each with its own error, and for nothing else. |
| `Sweep.HeadingsAreDirected` | crates/iv-core/src/lib.rs:1441-1457 | The directions are forward on a rise, backward on a fall, unchanged at rest; the first follows the first move and is forward if there is none. |
| `Sweep.LinearDirections` | crates/iv-core/src/lib.rs:1340-1356 | A single pass keeps one direction: forward if it goes up, backward if it goes down. |
| `Sweep.RoundTripDirections` | crates/iv-core/src/lib.rs:1340-1356 | A round trip changes direction once, at its stop. |
| `Sweep.ZeroCenteredDirections` | crates/iv-core/src/lib.rs:1340-1356 | A zero-centred sweep goes forward to the stop, backward to the start and forward again. |
| `Sweep.Directions` | crates/iv-core/src/lib.rs:1434-1469 | The pass reports forward on a rise, backward on a fall and the direction before at rest; the first point follows the first move. |
| `SweepScaling.RouteScales` | crates/iv-core/src/lib.rs:1375-1432 | Planning commutes with multiplication by any nonzero factor, for all four patterns, errors included. |
| `SweepScaling.HeadingFollows` | crates/iv-core/src/lib.rs:1443-1456 | A positive factor keeps every direction. |
| `SweepScaling.HeadingMirrors` | crates/iv-core/src/lib.rs:1443-1456 | A negative factor reverses every direction from the first move on. |
| `SweepScaling.RouteOnGrid` | crates/iv-core/src/lib.rs:1229-1288 | A route between multiples of an increment by multiples of it contains only multiples of it. |
| `Plan.QuantizedCovers` | crates/iv-core/src/lib.rs:881-912 | Quantized protection is at least the request, less than one increment above max(request, minimum), and at most the maximum. |
| `Plan.QuantizedIsMonotone` | crates/iv-core/src/lib.rs:881-912 | Quantization is monotone. |
| `Plan.QuantizedIsIdempotent` | crates/iv-core/src/lib.rs:881-912 | Quantization is idempotent. |
| `Plan.SmallestIsSmallest` | crates/iv-core/src/lib.rs:838-859 | Range selection picks the smallest eligible covering range, the first of equals, and finds one if there is one. |
| `Plan.AlignedIsMultiple` | crates/iv-core/src/lib.rs:864-879 | The alignment test holds exactly for multiples of the increment. |
| `PlanSafety.PreparedSettings` | crates/iv-core/src/lib.rs:1082-1121 | The prepared step is the next hardware increment at or above the requested size in the requested direction; the ramp stays inside the range. |
| `PlanSafety.PrepareIsIdempotent` | crates/iv-core/src/lib.rs:1042-1121 | Preparing a prepared configuration changes nothing. |
| `PlanSafety.PlannedTargetsAreSafe` | crates/iv-core/src/lib.rs:1221-1309 | Every target of an accepted plan is within the selected range, the requested limit and the hardware limit, and is a multiple of the selected range's resolution. |
| `PlanSafety.ProtectionIsNeverWeakened` | crates/iv-core/src/lib.rs:1310-1328 | With an explicit source compliance the plan's hardware compliance never exceeds its quantized value, fixed limiters included. |
| `PlanSafety.ImplicitProtectionExactly` | crates/iv-core/src/lib.rs:1310-1328 | Without an explicit source compliance the plan's protection stays within the quantized stop limit if and only if the selected voltage range has no fixed limiter above it. |
| `PlanExample.ImplicitProtectionCanBeWeakened` | crates/iv-core/src/lib.rs:176-211 | The default configuration on the GS210 profile: planned on the 10 mV range, stop limit 1 mA, programmed protection 200 mA. |
| `PlanSafety.AutomaticRamp` | crates/iv-core/src/lib.rs:1103-1120 | The automatic ramp is the range maximum, or at least both the step and one percent of the nominal range, and above the step only by less than one increment over that percent. |
| `PlanMeaning.PlansExactly` | crates/iv-core/src/lib.rs:1124-1373 | A sweep is planned if and only if its limits and protection are positive and programmable, a range can be selected, start, stop (or every listed point) and ramp are on its grid, there are at most a million points, and the largest target is within the requested and the hardware limit. |
| `PlanMeaning.PlanErrorsAreTrue` | crates/iv-core/src/lib.rs:1124-1373 | A refused plan names a condition that holds. |
| `PlanMeaning.PlanIsItsRoute` | crates/iv-core/src/lib.rs:1329-1373 | The points of a plan are the route of its prepared settings, numbered from 1, each with the direction of the moves. |
| `PlanMeaning.PlanIsATour` | crates/iv-core/src/lib.rs:1268-1293 | A planned sweep visits start and stop, ends where its pattern says, moves by at most the prepared step and stays inside; a list is taken as it is. |
| `PlanMeaning.PlannedDirections` | crates/iv-core/src/lib.rs:1340-1356 | A planned linear sweep keeps one direction, a planned round trip turns once, at its stop. |
| `PlanMeaning.ProtectionIsAsAsked` | crates/iv-core/src/lib.rs:1310-1328 | The plan's protection is the fixed limiter of the selected voltage range where there is one, and otherwise at least the protection asked for, less than one increment above it, and within the hardware's. |
| `PlanMeaning.QuantizedExactly` | crates/iv-core/src/lib.rs:881-912 | A protection can be quantized if and only if it is at most the maximum and there is an increment; the result is the least multiple covering it and the minimum, or the maximum. |
| `PlanMeaning.SelectsTheSmallest` | crates/iv-core/src/lib.rs:817-860 | A range is selected if and only if the protection is programmable and some range covers the target under it; no usable range has a smaller maximum. |
| `PlanMeaning.PreparesExactly` | crates/iv-core/src/lib.rs:1042-1121 | Preparation changes nothing but step and ramp, fails only without a range or a step, and does not change the range selected. |
| `PlanMeaning.FixedLimitIsFirst` | crates/iv-core/src/lib.rs:1310-1328 | The fixed limiter reported is that of the first range with the selected command. |
| `BalancedSplit.SourcesSplitTheDifferential` | crates/iv-core/src/lib.rs:1638-1681 | For every pattern both source plans have as many points as the differential plan and at every index V1 = a/(a+b) D, V2 = -b/(a+b) D, V1 - V2 = D. |
| `BalancedSplit.PointCountsAlwaysMatch` | crates/iv-core/src/lib.rs:1668-1671 | The point-count check of the balanced plan never fails. |
| `BalancedSplit.DirectionsMirror` | crates/iv-core/src/lib.rs:1434-1469 | Source 1 reports the differential directions, source 2 the opposite ones once anything has moved. |
| `BalancedSplit.SourcesFollow` | crates/iv-core/src/lib.rs:1540-1588 | Both derived configurations are the differential one times their signed weights, and their steps need no further snapping on the ranges they select themselves. |
| `BalancedSplit.PlanFollows` | crates/iv-core/src/lib.rs:1124-1373 | A source whose settings follow the whole is planned as the whole, scaled. |
| `BalancedSplit.DualProtectionIsNeverWeakened` | crates/iv-core/src/lib.rs:1016-1024 | A balanced plan programs neither source above its requested protection. |
| `BalancedSplit.CommonStepIsAMultiple` | crates/iv-core/src/lib.rs:925-933 | The common step is a whole number of increments, at least the request, less than one increment above it. |
| `BalancedSplit.CombinedGridSplitsExactly` | crates/iv-core/src/lib.rs:942-960 | A target on the combined grid is never refused as inexact by either source. |
| `BalancedSplit.CommonRampIsShared` | crates/iv-core/src/lib.rs:1588-1614 | The common ramp is a whole number of common increments, less than one above the slower automatic ramp; its shares add up to it, fit both ranges and are on both sources' grids. |
| `BalancedMeaning.DualPlansExactly` | crates/iv-core/src/lib.rs:1638-1681 | A balanced plan exists if and only if its settings can be prepared and both sources can be planned: the later checks of the common grid, the differential limit and the point counts never fail. |
| `BalancedMeaning.PreparesBothExactly` | crates/iv-core/src/lib.rs:1471-1627 | The settings can be prepared if and only if both ranges and their common increment exist, there is a step, every share is exact and a common ramp fits. |
| `BalancedMeaning.SelectsBothExactly` | crates/iv-core/src/lib.rs:1471-1540 | Both ranges exist if and only if the sweep is in volts, the parts are 1 to 1000, both protections are positive and programmable as they are, and each source covers its share of the largest target. |
| `BalancedMeaning.SourceConfigExactly` | crates/iv-core/src/lib.rs:942-970 | A source's configuration exists if and only if its shares of start, stop, step and every listed point are exact. |
| `BalancedMeaning.CommonRampExactly` | crates/iv-core/src/lib.rs:1588-1614 | A common ramp exists if and only if it is positive and its shares are exact and fit both ranges. |
| `BalancedMeaning.SharesArePreparable` | crates/iv-core/src/lib.rs:1540-1588 | Preparing a source's share never fails once its range was found. |
| `BalancedMeaning.PlansAreTheSources` | crates/iv-core/src/lib.rs:1651-1681 | The balanced plan carries the two prepared configurations, their own plans and the common increment. |
| `BalancedMeaning.DualPlanIsItsRoute` | crates/iv-core/src/lib.rs:1375-1432 | Its differential points are the route between the configured ends in common steps, with the directions of its moves. |
| `BalancedMeaning.DualTargetsAreSafe` | crates/iv-core/src/lib.rs:1652-1667 | No differential target exceeds the configured limit, no share its part of the limit or its source's hardware maximum. |
| `BalancedMeaning.DualProtectionIsExact` | crates/iv-core/src/lib.rs:1016-1024 | Each source is programmed with exactly the protection asked for it, or with a fixed limiter below that. |
| `BalancedMeaning.RampsAreShared` | crates/iv-core/src/lib.rs:1603-1627 | The two sources' ramps are the shares of the common ramp and add up to it. |
| `BalancedMeaning.SlowerRampFits` | crates/iv-core/src/lib.rs:1588-1600 | The ramp rounded up is the fastest one that neither source's automatic ramp forbids. |
| `BalancedExample.BalancedPlansExist` | crates/iv-core/src/lib.rs:1638-1681 | A concrete pair of sources for which the balanced plan is accepted, so the theorems above are about plans that exist. |
| `Ramp.RampTargets` | crates/iv-core/src/lib.rs:291-311 | The ramp is refused exactly for a non-positive step or more than a million steps. |
| `Ramp.Targets.Next` | crates/iv-core/src/lib.rs:312-329 | Each call yields the next level, split, or ends within one step of the target; what remains shrinks by one. |
| `Ramp.RampIsASegment` | crates/iv-core/src/lib.rs:312-329 | The ramp with its two ends is exactly the planned segment between them; hence it terminates. |
| `Ramp.LevelsShape` | crates/iv-core/src/lib.rs:312-329 | Levels move by exactly one step strictly between the ends and leave at most one step. |
| `Ramp.ItemsSplitTheirLevel` | crates/iv-core/src/lib.rs:942-960 | Each successful item satisfies V1 - V2 = level and V1*b = -V2*a. |
| `Ramp.GridRampNeverFails` | crates/iv-core/src/lib.rs:312-329 | A ramp from a level on the combined grid by a multiple of the increment yields only successful items. |
| `RawCsv.CompleteLength` | crates/iv-desktop/src/raw_csv.rs:190-206 | The scanner returns the last newline with an even number of quotes before it. |
| `RawCsv.TornRecordIsDropped` | crates/iv-desktop/src/raw_csv.rs:180-206 | For any records quoted by section 2 of RFC 4180 followed by any strict prefix of one more, that is exactly the length of the complete records. |
| `RawCsv.BodyIsSealed` | crates/iv-desktop/src/raw_csv.rs:190-206 | In an encoded record every newline but the last is between quotes, and the quotes balance. |
| `Streaming.SampleStats.Add` | crates/iv-desktop/src/engine.rs:1472-1478 | After any samples the accumulator holds their true mean and sum of squared deviations. |
| `Streaming.DeviationsMove` | crates/iv-desktop/src/engine.rs:1474-1477 | The streaming update equals the batch sum over the extended samples, for variance and covariance. |
| `Streaming.ResistanceFit.Add` | crates/iv-desktop/src/engine.rs:1486-1502 | The slope returned is a least-squares slope of all samples; there is none exactly below two samples or with all currents equal. |
| `Streaming.FittedLineIsBest` | crates/iv-desktop/src/engine.rs:1495-1500 | No line has a smaller residual than the fitted one, and lines of another slope have larger ones. |
| `Streaming.LeastSquaresIsUnique` | crates/iv-desktop/src/engine.rs:1495-1500 | The least-squares slope is unique unless all currents are equal. |
| `Streaming.OffsetKeepsSlope` | crates/iv-desktop/src/engine.rs:1486-1502 | A constant voltage offset changes no least-squares slope. |

## Left out

- Latch.CancelledWhileOutstanding: atomics are taken as sequentially consistent single steps; weaker memory orders are not modelled.
- Latch.AtMostOneOutputOperation: the two threads are modelled as a transition system on values, because their interleaving is the point; the undisturbed passes are in place in `EngineControl`.
- Writer.SafetyOvertakes: `submit_command` is one step, because one thread owns the client; the writer thread interleaves at every access.
- WriterQueue.AcceptedCommandsAreKept: the end of the writer's loop and the fall of its `alive` flag are one step.
- ServerRuns.NextKeeps: reader, worker and writer threads are a transition system on values for the same reason; `ServerWorker` has the loops in place.
- GuiTheorems.NoGrantBeforeNewerOff: assumes that reported safety revisions do not decrease; the wrap-around of the engine's 64-bit counter is not modelled.
- ServerClient.OkIsTheDispatchOfThatCall: the connection is a byte stream that delivers the client's frames in order or not at all; a reply is any one delivered on the connection.
- Lattice.DivideIsExact: a quotient that needs more than 96 bits is refused here; the decimal library rounds it and compares the rounded product, which can match.
- PlanSafety.ProtectionIsNeverWeakened: assumes that the ranges of a profile have distinct command values, as those of `specs/sources.toml` have.
- PlanSafety.PlannedTargetsAreSafe: checks of meters, readings per point, NPLC and settling times are not modelled; they only refuse more plans.
- PlanMeaning.PlanErrorsAreTrue: which of several true complaints comes first is not stated.
- BalancedSplit.SourcesSplitTheDifferential: decimals and floating-point numbers are exact reals, `f64::EPSILON` and `aligned_value`'s tolerance are zero, and a share must terminate within 28 places; overflow of 96-bit mantissas outside `split_increment` is not modelled.
- HubAnswers.TransfersAreCarriedOut: what an instrument does with a message is left out; a reply is whatever the backend answers.
- HubController.Core.ListBus: the inventory is a set of addresses; parsing the listing and its order are left out.
- HubRuns.DirtySourcesSurviveAnyCrash: the rename is atomic and a directory sync makes it durable, as on Unix; on Windows there is no directory sync.
- GuiAccess.OnlyTheLastGrantActs: leases are fresh UUIDs and whether an owner has fallen silent is a parameter; the clock itself is not modelled.
- GuiControl.Control.Advance: snapshots are reduced to phase, error, outputs and completions; message texts, `mark_common_stop` and `common_cleanup` are left out.
- Streaming.SampleStats.Add: real arithmetic; the square root of `sample_stddev`, the finiteness filter and the 32-bit counter are left out.
- RawCsv.CompleteLength: the row filter behind the scanner is left out; it would add an easy member.
- Sockets, timeouts as real time, authentication tokens, JSON and TOML parsing are parameters or nondeterministic choices; nonces and tags are fresh.
- The acquisition body of `execute`, device drivers, transports, safety and meter modules of the engine, and the user interface are hardware-bound and not part of this model.
- Python clients, packaging, catalogues, exports and stored settings would only add easy members.
