# Model control, logs, installation: a verified model of monik

The project models the parts of monik whose guarantees span many steps and proves them for every input, every run or
every reachable state.

* **Spark model control.** A worker keeps a durable job journal and drives a local broker that keeps its own durable
  attempt journal. The broker calls a supervisor (start, stop) or submits typed requests to a second coordinator.
  `Broker` is a state machine whose steps are the critical sections of the coordinator. A run is any sequence of steps:
  concurrent and duplicate requests, observations, journal writes that fail and leave old or new bytes, ticks, crashes and
  reopening under the same or another policy. `WorkerRules` is the state machine of the worker, and `SparkWorld` puts both
  together. The supervisor and the second coordinator answer arbitrarily; their calls are recorded in a log of acts.
* **Coordinator, worker, journal, log hub, log stream, rate limiter, installer** are also classes with the source's fields
  and loops. Each method is proved against the state machine or the specification function of its section, so the theorems
  about runs are theorems about what the methods do.
* **Log pipeline, crash-safe installation, installer bundles, rate limiting** each have their own modules.

Seven properties one would expect turn out false of the code. Each has a concrete run or input, and the exact condition.
The conditions on records are about steps of a running broker; a crash goes back to the last saved journal.

| expected | counterexample | exact condition |
|---|---|---|
| a record cancelled by a stop keeps its receipt | `BrokerScenarios.CancelledReceiptReplaced` | `BrokerStops.CancelledRecordChanges`: while the broker runs, replaced if and only if its own stop wait runs out |
| a restart on the direct path has one linked start | `BrokerScenarios.LinkedStartTwice` | `BrokerRestarts.GoesBackExactly`: while the broker runs, it goes back to where it can have another if and only if the late tail of its own call takes it there; `BrokerRestarts.SecondStartNeedsTail` covers runs with crashes |
| a request in preflight when a stop is admitted is never carried out | `BrokerScenarios.RestartActsAfterStop` | `BrokerReentry.ActsAfterStopExactly`: a step carries it out if and only if it brings a call of it back under the guards of the effect, and that call entered after the stop while the request had no record; `BrokerReentry.RestartBeginsExactly` gives the guards of that entry; `BrokerReentry.RecordedNeverActs` and `BrokerReentry.StopDominatesStart` exclude it for recorded requests and for starts |
| an accepted job acts before the controller's deadline, whatever the clock offset | `SparkLate.LateWithoutTheCondition` | `SparkWorld.DeadlineError`: if and only if the pause between the worker's two clock readings is no longer than the uplink |
| a rollback restores what was there before the installation | `InstallRecovery.SettledPointReplaced` | `InstallRecovery.RunKeepsPoint`: the recovery point is still there if and only if no later attempt replaced it, which needs a settled point, a differing candidate and all backups written |
| a save never overwrites foreign bytes | `JournalSaver.FirstSaveOverwrites` | `JournalSaver.ForeignOverwrittenExactly`: overwritten if and only if no save of the run was published before, the new bytes differ and fit, and the write gets through |
| a rollback restores every saved part | `InstallRecovery.EmptyPrefixWorkerNotRestored` | `InstallRecovery.RollbackRestoresOriginal`: a prefix worker comes back if and only if it was there and not empty |

Reading order: `SparkTypes`, `BrokerRules`, `ExistingRules` (entities and pure rules), `Broker` (state machine),
`BrokerJournal`, `BrokerSections`, `BrokerRecords` (what steps keep), then one module per theorem (`BrokerOnce`,
`BrokerFencing`, `BrokerAuthority`, `BrokerStops`, `BrokerRestarts`, `BrokerReentry`, `BrokerExclusion`,
`BrokerExisting`, `BrokerWitness`, `BrokerReplies`, `BrokerScenarios`), `Coordinator` (the class), `WorkerRules`,
`WorkerOnce`, `SparkWorker`, `SparkWorld`, `SparkLate`.

`dafny verify dfyconfig.toml` checks everything.

## Model

| member | source | states |
|---|---|---|
| `BrokerOnce.AtMostOnce` | internal/spark/control.go:443-764 | Over every run (duplicates, crashes before and after the call, failed saves, pruning of day-old records, reopening) no request appears twice among the supervisor calls and backend submissions. |
| `BrokerFencing.GenerationsAreNotReused` | internal/spark/control.go:197-331 | Over every run, two successfully saved snapshots that publish the same generation of a profile publish the same instance identity. |
| `BrokerAuthority.EffectsAreAuthorized` | internal/spark/control.go:335-377 | Over every run, each supervisor call was made while epoch, session, revision and generation of the request were current, the definition last read was the approved one and the lease had not expired; a linked start had a stopped parent verified at most 60 seconds before. |
| `BrokerRecords.StepTidy` | internal/spark/control.go:443-833 | While the broker runs, every step moves every record forward only: a finished record is kept or, when day-old, dropped; a restart only advances; only a call's own ending of its own record is excepted. |
| `BrokerRecords.StepSources` | internal/spark/control.go:443-833 | While the broker runs, in every step the digest and the chain of accepted snapshots of any record come from its former record or from the request the step serves. |
| `BrokerStops.StopDominates` | internal/spark/control.go:539-632 | After any run, if a stop is admitted while a call is in its unlocked preflight on that profile, that call reaches the supervisor in no continuation; the members of `BrokerReentry` say the same of its request. |
| `BrokerStops.EnterTokens` | internal/spark/control.go:539-541 | Entering a request raises the preflight token of exactly the profile whose stop is admitted, by one. |
| `BrokerStops.StopCancelsWaiting` | internal/spark/control.go:542-565 | Every start waiting in preflight, every stopped or started restart and every open stage of it on that profile is recorded as cancelled by the step that admits the stop. |
| `BrokerStops.CancelledRecordChanges` | internal/spark/control.go:783-802 | While the broker runs, a record cancelled by a stop is replaced exactly when its own call's stop wait runs out; otherwise it stays as it is or, when day-old, is pruned. |
| `BrokerReentry.StopDominatesRequest` | internal/spark/control.go:539-632 | After any run, let a stop be admitted while a request is in preflight on its profile: in every continuation, re-entered calls and later deliveries included, a supervisor call for that request is made only by a call that entered after the stop at a moment when the request had no record. |
| `BrokerReentry.ActsAfterStopExactly` | internal/spark/control.go:539-744 | In every continuation after that stop, a step carries the request out if and only if it brings a call of it back from preflight under the guards of the effect, and that call entered after the stop while the request had no record. |
| `BrokerReentry.RestartBeginsExactly` | internal/spark/control.go:448-614 | In every broker a delivered restart begins a preflight exactly under the guards of the entry, unrecorded and with the token of that moment. |
| `BrokerReentry.ResumeActsExactly` | internal/spark/control.go:615-744 | In every broker a call that comes back from its preflight reaches the supervisor exactly when record, token, weights, inspection, validation, preflight, lock, parent, definition, lease and save all pass, and then once. |
| `BrokerReentry.DeliveredRestartActs` | internal/spark/control.go:448-744 | So a restart without a record, delivered to any broker and come back under both guards, is carried out. |
| `BrokerReentry.RecordedNeverActs` | internal/spark/control.go:595-632 | If that request is on record in memory and in the file at the stop, no continuation with crashes and failed writes ever carries it out. |
| `BrokerReentry.StartIsRecorded` | internal/spark/control.go:598-612 | Over every run a start in preflight is on record in memory and in the file, or its lease is over, as long as its job id stands for it alone. |
| `BrokerReentry.StopDominatesStart` | internal/spark/control.go:539-632 | So a start whose preflight a stop found is never carried out, neither by the call, nor by what the call goes on as, nor by any later delivery. |
| `BrokerReentry.EffectOrigin` | internal/spark/control.go:595-744 | A start or restart is carried out by a call that comes back from its preflight for exactly that request, and by nothing else. |
| `BrokerScenarios.RestartActsAfterStop` | internal/spark/control.go:595-622 | A reachable run in which a stop is admitted over a restart in preflight, called and left unconfirmed, and the restart, delivered again, is carried out after it. |
| `BrokerRestarts.GoesBackExactly` | internal/spark/control.go:783-832 | While the broker runs, an advanced or finished record goes back to "stopped" in a step if and only if the tail of its own restart call ends and no stop cancelled it or is to resolve it. |
| `BrokerRestarts.SecondStartNeedsTail` | internal/spark/control.go:657-832 | Over every run: between two linked starts of one restart on the direct path, such a tail took it back, or its finished record was dropped when a day old. |
| `BrokerRestarts.SecondSubmissionNeedsTail` | internal/spark/existing_coordinator.go:333-410 | Over every run, whatever job ids and policies it uses: before two different linked starts of one restart are submitted to the second coordinator, a call of the direct path took the advanced restart back, or its record was dropped when a day old. |
| `BrokerRestarts.FinishedStays` | internal/spark/existing_coordinator.go:432-437 | Over every run, a record done in memory and in the file stays exactly as it is, through crashes and failed writes, until a call of the direct path that owns it ends or it is dropped when a day old; no assumption on job ids or policies. |
| `BrokerScenarios.CancelledReceiptReplaced` | internal/spark/control.go:783-789 | A reachable cancelled restart whose receipt the expiry of its own stop wait replaces. |
| `BrokerScenarios.LinkedStartTwice` | internal/spark/control.go:794-832 | A reachable run of the direct path in which the late tail of a restart reopens it and a second, different linked start is called. |
| `BrokerExclusion.ConflictingProfilesExclude` | internal/spark/control.go:378-438 | Over every run with truthful inspections under one approved policy, two profiles sharing an exclusion group are never up together, started through the supervisor or submitted to the second coordinator. |
| `BrokerExclusion.SubmitExclusive` | internal/spark/existing_coordinator.go:46-50 | A start submitted to the second coordinator keeps the exclusion, because a profile of that kind is approved without groups. |
| `BrokerExclusion.WalkSawDown` | internal/spark/control.go:378-438 | A passed walk over the other profiles inspected every conflicting one and saw it down. |
| `BrokerExclusion.PassedFitsMemory` | internal/spark/control.go:378-438 | A start that passes fits: requirement, headroom and all reservations of the others stay within the available memory although the sum is taken in 64-bit words that wrap. |
| `BrokerExisting.LinkedStartSubmittedOnce` | internal/spark/existing_coordinator.go:333-410 | Over every run, crashes and failed writes included, at most one linked start of a restart is submitted to the second coordinator. |
| `BrokerExisting.DurableDoneForever` | internal/spark/existing_coordinator.go:432-437 | Once done in memory and in the file, no run ever shows another record of that request. |
| `BrokerExisting.DoneUntilCrash` | internal/spark/existing_coordinator.go:432-516 | Without a crash a record done in memory stays as it is, durable or not, until it is day-old. |
| `BrokerWitness.AcceptedSnapshotsAgree` | internal/spark/existing_coordinator.go:535-550 | Over every run, any two snapshots accepted for one record show the same run, and a physical field known in the earlier has the same value in the later. |
| `BrokerWitness.ReportedStopIsWitnessed` | internal/spark/existing_coordinator.go:413-517 | Over every run, a commit that reports a stop has agreeing shutdown witnesses in the backend's answer and in a snapshot taken at the second look, and records both. |
| `BrokerWitness.SettledReports` | internal/spark/existing_coordinator.go:458-491 | The settled record reports a stop if and only if the effect was not denied and answer and usable snapshot prove the shutdown. |
| `SparkWorld.JobsActOnce` | internal/spark/worker.go:602-831 | Over every interleaving of worker and broker with crashes, duplicates and failed writes on both sides, a job is carried out at most once and at most one linked start follows it. |
| `SparkWorld.NotAttemptedIsTrue` | internal/spark/worker.go:740-831 | In every run of worker and broker together, a job reported as "start not attempted" never had a stage request sent and has no linked start; the worker's answers are those the broker gave. |
| `BrokerReplies.RepliesAreHonest` | internal/spark/control.go:443-833 | Over every run, no call of the broker is answered with "start not attempted". |
| `BrokerReplies.StepHonest` | internal/spark/control.go:443-833 | Every section keeps that verdict out of all records and out of its answer. |
| `SparkWorld.RestartsStayUnlinked` | internal/spark/control.go:549-565 | In every run of worker and broker together no restart on record is linked to another one, so the cancelling loops do not depend on the order of the records. |
| `SparkWorld.ActsWithinControllerDeadline` | internal/spark/worker.go:629-644 | For every run and clock offset: a job acts before the controller's deadline whenever the pause between the two clock readings is no longer than the uplink; a renewed stage does so for any latency. |
| `SparkWorld.DeadlineError` | internal/spark/worker.go:629-644 | The prepared deadline misses the controller's by exactly pause minus uplink; it is sound if and only if the pause is no longer than the uplink. |
| `SparkLate.LateWithoutTheCondition` | internal/spark/worker.go:629-644 | A run of worker and broker in which a job acts after the controller's deadline: the pause was 5 and the uplink 0. |
| `WorkerOnce.NextKeepsInv` | internal/spark/worker.go:602-831 | Every worker step keeps: one prepared request and one stage request per job, sent requests are those of the job, a renewal is marked durably before it is asked for, and "not attempted" excludes a stage request. |
| `Coordinator.Coordinator.SaveLocked` | internal/spark/control.go:123-173 | A save publishes the memory journal in the file, or fails leaving old or new bytes; `JournalSaver.EverySaveIsAWrite` shows that the caching saver has no other outcome. |
| `Coordinator.Coordinator.ObserveLocked` | internal/spark/control.go:197-223 | The profile's generation moves exactly when the identity changes; reservation and start time follow the observed state. |
| `Coordinator.Coordinator.ValidateLocked` | internal/spark/control.go:335-377 | The refusal (first failing check, in order) is that of the rule used by the state machine; the observation is recorded. |
| `Coordinator.Coordinator.PreflightLocked` | internal/spark/control.go:378-438 | Memory with wrap-around, port and all other profiles are judged as the specification does. |
| `Coordinator.Coordinator.PreflightOthersLocked` | internal/spark/control.go:395-438 | The loop over the other profiles observes them one by one, adds up reservations and stops at the first refusal. |
| `Coordinator.Coordinator.DuplicateLocked` | internal/spark/control.go:458-502 | A known request is answered from its record, closed after an interrupted preflight, or reconciled; it never reaches an effect. |
| `Coordinator.Coordinator.PruneLocked` | internal/spark/control.go:503-512 | The loop removes exactly the finished records older than a day, and only at 1024 records. |
| `Coordinator.Coordinator.StopAdmissionLocked` | internal/spark/control.go:539-569 | Token, waiting starts, restarts, their stages and the reservation change together as one admission. |
| `Coordinator.Coordinator.CancelPreflightsLocked` | internal/spark/control.go:542-548 | The loop cancels exactly the starts of the profile that wait in preflight. |
| `Coordinator.Coordinator.SupersedeRestartsLocked` | internal/spark/control.go:549-565 | The loop supersedes exactly the stopped or started restarts of the profile, each with its open stages. |
| `Coordinator.Coordinator.CloseChildrenLocked` | internal/spark/control.go:557-563 | The inner loop cancels exactly the open stages of one restart. |
| `Coordinator.Coordinator.CancelForStopLocked` | internal/spark/control.go:542-565 | Both loops together equal the cancellation of the specification. |
| `Coordinator.Coordinator.RecordSatisfiedLocked` | internal/spark/control.go:570-584 | A request already satisfied is recorded as done, resolving the starts bound to a proven stop. |
| `Coordinator.Coordinator.RecordStartingLocked` | internal/spark/control.go:585-594 | A start of a starting model is recorded as attempted without an effect. |
| `Coordinator.Coordinator.BeginPreflightLocked` | internal/spark/control.go:595-614 | The waiting record is published before the lock is released, and taken back if it cannot be. |
| `Coordinator.Coordinator.DispatchLocked` | internal/spark/control.go:535-614 | What follows a validated entry, branch by branch, is the section of the state machine. |
| `Coordinator.Coordinator.EnterDirectLocked` | internal/spark/control.go:448-614 | The whole first critical section is the state machine's entry step. |
| `Coordinator.Coordinator.ResumeLocked` | internal/spark/control.go:615-656 | The section after the preflight is the state machine's resume step: own record, token, weights, inspection in this order. |
| `Coordinator.Coordinator.ResumeCheckedLocked` | internal/spark/control.go:646-656 | A resumed call is validated and preflighted anew before the final admission. |
| `Coordinator.Coordinator.RejectPreflightLocked` | internal/spark/control.go:835-843 | A refused preflight closes the waiting record with the code. |
| `Coordinator.Coordinator.FinalLocked` | internal/spark/control.go:657-742 | Shared lock, parent, definition and lease are checked in this order before anything is recorded. |
| `Coordinator.Coordinator.AdmitLocked` | internal/spark/control.go:689-764 | An admitted request is journaled, published and carried out as one section. |
| `Coordinator.Coordinator.JournalAttemptLocked` | internal/spark/control.go:689-717 | The attempt, the links of the starts it stops, the parent's advance and the reservation are put down together. |
| `Coordinator.Coordinator.LinkStartsLocked` | internal/spark/control.go:695-704 | The loop links exactly the starts the stop will resolve and hands back every former link. |
| `Coordinator.Coordinator.RestoreStartLinksLocked` | internal/spark/control.go:1079-1088 | The loop undoes the linking: every start still linked to the stop gets its former link back, nothing else changes. |
| `Coordinator.Coordinator.PublishLocked` | internal/spark/control.go:718-742 | A failed save takes attempt and links back; an expired lease closes the attempt instead of acting. |
| `Coordinator.Coordinator.EffectLocked` | internal/spark/control.go:743-764 | The effect is logged once, then its outcome is recorded. |
| `Coordinator.Coordinator.ConfirmedLocked` | internal/spark/control.go:756-764 | An accepted effect is observed, recorded and passed to the parent. |
| `Coordinator.Coordinator.UnconfirmedLocked` | internal/spark/control.go:749-755 | A failed effect is recorded with unknown outcome and never repeated. |
| `Coordinator.Coordinator.TailLocked` | internal/spark/control.go:794-833 | The last section of a call is the state machine's tail step, cancelled and linked records excepted. |
| `Coordinator.Coordinator.TimeoutLocked` | internal/spark/control.go:783-789 | The end of the stop wait rewrites the receipt of the call's own record. |
| `Coordinator.Coordinator.ReconcileLocked` | internal/spark/control.go:1035-1072 | An unresolved attempt is closed only by matching evidence. |
| `Coordinator.Coordinator.FinishStoppedStartsLocked` | internal/spark/control.go:1099-1123 | The loop closes exactly the starts a proven stop resolves. |
| `Coordinator.Coordinator.FinishParentLocked` | internal/spark/control.go:1124-1141 | A finished stage closes exactly its own started parent. |
| `Coordinator.Coordinator.AdmitExistingLocked` | internal/spark/existing_coordinator.go:327-399 | The second critical section of the existing path is the state machine's admission step. |
| `Coordinator.Coordinator.RefuseExistingLocked` | internal/spark/existing_coordinator.go:340-371 | The checks of an observed request in their order; the first that fails gives the code. |
| `Coordinator.Coordinator.AdmitSeenLocked` | internal/spark/existing_coordinator.go:339-399 | The checks in order; child record and parent advance are published together. |
| `Coordinator.Coordinator.CommitLocked` | internal/spark/existing_coordinator.go:432-517 | The last section of the existing path is the state machine's commit step. |
| `Coordinator.Coordinator.BlockedLocked` | internal/spark/existing_coordinator.go:434-445 | Exactly when an answer is not taken over: settled record, changed authority or approval, another run. |
| `Coordinator.Coordinator.UsableLocked` | internal/spark/existing_coordinator.go:446-454 | Exactly when a snapshot counts. |
| `Coordinator.Coordinator.JudgeLocked` | internal/spark/existing_coordinator.go:467-489 | Stage and receipt for each combination of answer and snapshot. |
| `Coordinator.Coordinator.SettleLocked` | internal/spark/existing_coordinator.go:458-501 | The whole settled record: snapshot, verdict, answer, and the stop a start lost to. |
| `Coordinator.Coordinator.FindStopLocked` | internal/spark/existing_coordinator.go:492-501 | The search finds a finished stop of the same run if there is one. |
| `Coordinator.Coordinator.CloseStartsLocked` | internal/spark/existing_coordinator.go:503-511 | The loop closes exactly the open starts of the run a proven stop ended. |
| `SparkWorker.SparkWorker.AcceptJob` | internal/spark/worker.go:602-656 | A delivered job is journaled once; a known one is left alone or reopened for reporting. |
| `SparkWorker.SparkWorker.JudgeJob` | internal/spark/worker.go:610-650 | The verdict on an envelope and the lease prepared from it. |
| `SparkWorker.SparkWorker.ExecuteJob` | internal/spark/worker.go:658-690 | A job or its stage is sent only when it is neither running nor settled. |
| `SparkWorker.SparkWorker.FinishJob` | internal/spark/worker.go:690-706 | The broker's answer becomes the job's receipt and is saved. |
| `SparkWorker.SparkWorker.ScanPending` | internal/spark/worker.go:707-738 | The loop finds exactly the jobs to send, to renew and to close. |
| `SparkWorker.SparkWorker.FailUnattemptedStageLocked` | internal/spark/worker.go:742-764 | "Not attempted" is recorded only if its save succeeds. |
| `SparkWorker.SparkWorker.RenewStage` | internal/spark/worker.go:766-785 | The one renewal is marked durably before the controller is asked. |
| `SparkWorker.SparkWorker.PrepareStage` | internal/spark/worker.go:785-831 | The controller's answer leads to one stage request or to "not attempted". |
| `SparkWorker.SparkWorker.PublishStage` | internal/spark/worker.go:800-831 | The stage request is durable before it can be sent. |
| `SparkWorker.SparkWorker.AcknowledgeLocked` | internal/spark/worker.go:539-556 | Exactly the receipts acknowledged as they stand are marked, and the snapshot flag follows the report. |
| `JournalSaver.PublishedIsOnDisk` | internal/spark/control.go:123-173 | Success means the file holds exactly the bytes and they are the last ones synced. |
| `JournalSaver.OverwritesOnlyItsOwn` | internal/spark/control.go:123-173 | Over every run since the saver was made, with outside writers and failed writes: after the first publication, what a save overwrites are bytes some earlier save of the run wrote or tried to write. |
| `JournalSaver.ForeignBytesKept` | internal/spark/control.go:123-173 | Bytes that no save of the run ever wrote or tried to write are kept by every sequence of further saves. |
| `JournalSaver.ForeignOverwrittenExactly` | internal/spark/control.go:123-173 | Over every run since the saver was made, bytes no save of it tried are overwritten by a save if and only if none was published before, the new bytes differ and fit, and the write gets through. |
| `JournalSaver.FirstSaveOverwrites` | internal/spark/control.go:123-173 | The very first save overwrites whatever it finds. |
| `JournalSaver.RefinesWriteThrough` | internal/spark/control.go:123-173 | Over every run the file is what a plain write-through saver leaves that does nothing for refused saves; a skipped publication is one that succeeded. |
| `JournalSaver.EverySaveIsAWrite` | internal/spark/control.go:123-173 | Refused, skipped or written: every save is a write that succeeded or left old or new bytes. |
| `JournalSaver.NeverRefusesItself` | internal/spark/control.go:123-173 | Without an outside writer no sequence of failed writes makes the saver refuse, and the next save succeeds if and only if its write does or nothing had to be written. |
| `JournalSaver.Journal.SaveLocked` | internal/spark/control.go:123-173 | The method is the specified save. |
| `LogAssembly.FedInParts` | internal/spark/logs.go:187-214 | Feeding two chunks equals feeding their concatenation, in records and end state. |
| `LogAssembly.ChunkInvariance` | internal/spark/logs.go:187-214 | So does feeding any list of chunks. |
| `LogAssembly.FedIsSplit` | internal/spark/logs.go:182-221 | The records are those of splitting at newlines, lines up to 16 KiB verbatim and longer ones as one drop marker. |
| `LogAssembly.FedIsBounded` | internal/spark/logs.go:187-214 | Nothing longer than 16 KiB is held or emitted. |
| `LogAssembly.RecordAssembler.Feed` | internal/spark/logs.go:187-214 | The loop over newlines equals feeding byte by byte. |
| `LogAssembly.RecordAssembler.Finish` | internal/spark/logs.go:215-221 | The end of the stream emits one drop marker if something is held or being dropped, never the incomplete line, and resets. |
| `LogRetention.Trim` | internal/spark/logs.go:374-390 | Trimming keeps the longest suffix that leaves room and never indexes an empty buffer; the counter stays the sum. |
| `LogRetention.KeptWithNew` | internal/spark/logs.go:374-390 | With the new record the budgets hold, or the new record is alone. |
| `LogRetention.FittingIsKept` | internal/spark/logs.go:374-390 | Nothing that still fits is dropped. |
| `LogRetention.TailOf` | internal/spark/logs.go:273-283 | The tail is the longest suffix within 200 records and 128 KiB. |
| `LogRetention.TailUnique` | internal/spark/logs.go:273-283 | There is exactly one such tail. |
| `LogHubRuns.ViewerIsSentWhatIsAppended` | internal/spark/logs.go:246-439 | After any run let a viewer join a profile: it gets the longest tail; in every continuation what it is sent is a prefix of the lines appended to the profile since, read off the events alone, and all of them while it is connected, with at most 64 waiting. |
| `LogHubRuns.ViewerNumbersAreConsecutive` | internal/spark/logs.go:374-390 | In every reachable hub a viewer's tail and records carry consecutive numbers. |
| `LogHubRuns.ClosedForGood` | internal/spark/logs.go:289-439 | Over every run, nothing is sent to a closed channel, it is not closed again, and it is in no source's viewers. |
| `LogHub.AppendedHub` | internal/spark/logs.go:374-406 | One accepted record keeps every invariant of sources, channels and histories. |
| `LogHub.CounterIsSum` | internal/spark/logs.go:246-311 | The viewer counter is the sum over the sources. |
| `LogHubRuns.AlwaysWithinBudget` | internal/spark/logs.go:20-26 | Over every run all retained bytes stay within the host budget, the viewer counter is the sum over the sources, and both limits hold. |
| `LogHub.LogHub.Subscribe` | internal/spark/logs.go:246-311 | The refusals exactly, and the whole new state of a join or a fresh source. |
| `LogHub.LogHub.Append` | internal/spark/logs.go:374-406 | The record is numbered, kept within budget and offered to every viewer; full viewers are closed once and dropped. The text is no longer than the 16 KiB the redactor leaves. |
| `LogHub.LogHub.Offer` | internal/spark/logs.go:391-402 | The loop offers the record to every viewer and tells which stay. |
| `LogHub.LogHub.Leave` | internal/spark/logs.go:289-308 | A leaving viewer is closed at most once; the last one closes the source. |
| `LogHub.LogHub.CloseProfile` | internal/spark/logs.go:407-428 | Every viewer gets the marker if it has room and is closed once; the source gives up its records. |
| `LogHub.LogHub.Remove` | internal/spark/logs.go:312-319 | A source that has given up is taken out; a newer source of the same profile is left alone. |
| `ServerLogs.FreshExtends` | internal/server/spark_logs.go:415-427 | Accepted records keep strictly rising sequence numbers over all batches. |
| `ServerLogs.ReplayAcceptsNothing` | internal/server/spark_logs.go:415-427 | A batch delivered again changes nothing. |
| `ServerLogs.LogTail` | internal/server/spark_logs.go:201-214 | The longest suffix within 200 records and 128 KiB. |
| `ServerLogs.GroupSize` | internal/server/spark_logs.go:434-443 | The longest group within 16 KiB, at least one record. |
| `ServerLogs.ViewerIsSentWhatIsAccepted` | internal/server/spark_logs.go:231-459 | After any run let a viewer join: it gets the longest tail; in every continuation its groups are a prefix of the new records the later batches brought, and all of them while it is served, with at most eight groups waiting. |
| `ServerLogs.ClosedForGood` | internal/server/spark_logs.go:98-199 | Over every run, a disconnected viewer is sent nothing more, is not disconnected again and keeps its reason. |
| `ServerLogs.LogStream.Join` | internal/server/spark_logs.go:250-254 | A viewer is registered with the tail of the retained records. |
| `ServerLogs.LogStream.Take` | internal/server/spark_logs.go:415-427 | The loop accepts exactly the new records and marks gaps. |
| `ServerLogs.LogStream.TrimRecords` | internal/server/spark_logs.go:428-431 | Retained records are the newest within 256 KiB and 4096, and the counter is their sum. |
| `ServerLogs.LogStream.DeliverAll` | internal/server/spark_logs.go:432-455 | All accepted records are delivered group by group; exactly the viewers with eight waiting groups are disconnected. |
| `ServerLogs.LogStream.Accept` | internal/server/spark_logs.go:415-459 | A batch is accepted, trimmed, delivered and, when final, closes the stream. |
| `ServerLogs.LogStream.CloseStream` | internal/server/spark_logs.go:98-110 | Every viewer is disconnected once with the reason. |
| `ServerLogs.LogStream.Delete` | internal/server/spark_logs.go:175-199 | The owner and exactly their viewers go; without owners left the stream closes. |
| `ServerLogs.LogStream.Depart` | internal/server/spark_logs.go:255-272 | A viewer that ends takes its session along with its last viewer, and the stream with its last owner. |
| `RateLimit.AtMostTwiceTheLimit` | internal/server/app.go:473-505 | Over every run with a clock that does not go back, no closed interval as long as the window admits more than 2n requests of a key. |
| `RateLimit.BoundReached` | internal/server/app.go:473-505 | The bound is attained for every limit and every window. |
| `RateLimit.NoWindowNoLimit` | internal/server/app.go:480-505 | A window that is not positive limits nothing, so the positive window is needed. |
| `RateLimit.ActiveBucketsStay` | internal/server/app.go:485-498 | No open bucket is removed or reset. |
| `RateLimit.TablesBounded` | internal/server/app.go:471-505 | The table never exceeds 4096 entries. |
| `RateLimit.Limiter.Sweep` | internal/server/app.go:486-492 | The loop removes exactly the expired buckets. |
| `RateLimit.Limiter.RateLimit` | internal/server/app.go:473-505 | The method is the specified decision. |
| `InstallRecovery.RollbackRestoresOriginal` | internal/install/recovery.go:187-372 | After an installation that published its recovery point, completed or not, and any installations and rollbacks, crashed, refused or completed, worker updates and enrollment changes, none of which replaces the point, a completed rollback restores the original bytes of worker, unit, host (general flavor) and non-empty prefix worker, flavor, mode and management, and keeps everything else current. |
| `InstallRecovery.CrashesAreRolledBack` | internal/install/recovery.go:187-372 | After crashed retries, refused candidates and crashed rollbacks only, a completed rollback restores all of that without a further condition. |
| `InstallRecovery.RunKeepsPoint` | internal/install/recovery.go:49-70 | Over every run, settled or not, the point and its saved parts are still there if and only if no attempt replaced it. |
| `InstallRecovery.EventKeepsPoint` | internal/install/recovery.go:49-154 | One event takes the point away if and only if it is an installation over a settled point, with a differing candidate, that writes all backups and its own point. |
| `InstallRecovery.SettledPointReplaced` | internal/install/recovery.go:49-70 | The failing run: installation, rollback stopped after its first write, same candidate again, completed rollback; the candidate's unit stays. |
| `InstallRecovery.EmptyPrefixWorkerNotRestored` | internal/install/recovery.go:303-307 | An empty prefix worker is saved and not put back. |
| `InstallRecovery.RollbackProceedsExactly` | internal/install/recovery.go:218-278 | Exactly when the rollback of a held point, settled or not, goes through. |
| `InstallRecovery.OtherCandidateRefused` | internal/install/recovery.go:55-61 | Another candidate is refused until the point is settled. |
| `InstallRecovery.StoppedBeforePoint` | internal/install/recovery.go:109-153 | A stop before the point is published leaves installed files and former point as they were. |
| `InstallRecovery.CompletedInstallSettles` | internal/install/linux.go:205-305 | A completed installation publishes the candidate's files and configuration and settles the point. |
| `InstallRecovery.Machine.SaveRecovery` | internal/install/recovery.go:37-154 | The method refuses, proceeds or stops exactly as the plan of writes says, after any prefix of its writes. |
| `InstallRecovery.Machine.SaveParts` | internal/install/recovery.go:121-137 | The loop saves every part with its digest. |
| `InstallRecovery.Machine.VerifyParts` | internal/install/recovery.go:156-185 | The loop accepts exactly the intact points. |
| `InstallRecovery.Machine.InstallLinux` | internal/install/linux.go:205-305 | The publication order, stopped after any prefix. |
| `InstallRecovery.Machine.RollbackLinux` | internal/install/recovery.go:187-348 | The rollback order, stopped after any prefix. |
| `InstallRecovery.Machine.Settle` | internal/install/recovery.go:350-372 | Only the point of the same candidate is settled. |
| `InstallerBundle.AcceptedIsExact` | internal/installerbundle/bundle.go:70-132 | An accepted file is exactly its executables, manifest and footer, nothing in between. |
| `InstallerBundle.AssembledOpens` | internal/installerbundle/bundle.go:70-132 | What is assembled from valid pieces opens as exactly that if and only if the manifest has an allowed size. |
| `InstallerBundle.PackRoundTrip` | internal/installerbundle/bundle.go:261-342 | Opening a packed template gives exactly the three executables, if and only if the manifest has an allowed size. |
| `InstallerBundle.SparkPackRoundTrip` | internal/installerbundle/bundle.go:268-342 | The same for the package of two executables. |
| `InstallerBundle.PersonalizeRoundTrip` | internal/installerbundle/bundle.go:203-234 | Personalizing an accepted file and opening it gives the same executables and that enrollment. |
| `InstallerBundle.TemplateRecovered` | internal/installerbundle/bundle.go:203-234 | Taking the enrollment out again gives the template back byte for byte. |
| `InstallerBundle.SparkTemplateRecovered` | internal/installerbundle/bundle.go:203-234 | The same for the package of two executables. |
| `InstallerBundle.SizeIsExact` | internal/installerbundle/bundle.go:235-240 | The announced size is the number of bytes written. |
| `InstallerBundle.PartsFitTheirPieces` | internal/installerbundle/bundle.go:298-342 | Parts laid one after the other are what their pieces describe. |
| `InstallerBundle.BigEndianRoundTrip` | internal/installerbundle/bundle.go:298-342 | The footer's length field reads back as written. |
| `InstallerBundle.Open` | internal/installerbundle/bundle.go:70-132 | The method accepts exactly the specified files with the specified result. |
| `InstallerBundle.CheckPieces` | internal/installerbundle/bundle.go:111-132 | The loop over the parts checks offsets, sizes and digests. |
| `InstallerBundle.WriteBundle` | internal/installerbundle/bundle.go:203-234 | The method writes the specified bytes and returns their number. |
| `InstallerBundle.PackManifest` | internal/installerbundle/bundle.go:298-342 | The method packs the specified bytes or refuses. |

## Left out

- Coordinator.Coordinator.CancelForStopLocked: requires that no restart on record carries a parent id, because the outcome of the source's map loop would then depend on its order; `SparkWorld.RestartsStayUnlinked` proves the condition for every run of worker and broker.
- Coordinator.Coordinator.SupersedeRestartsLocked: the same condition, proved for every such run.
- Coordinator.Coordinator.StopAdmissionLocked: the same condition, proved for every such run.
- Coordinator.Coordinator.DispatchLocked: the same condition, proved for every such run.
- Coordinator.Coordinator.EnterDirectLocked: the same condition, proved for every such run.
- Coordinator.Coordinator.SaveLocked: comparison with the saved and uncertain bytes is in `JournalSaver`, not in this method.
- Coordinator.Coordinator.FinishParentLocked: the evidence map that parent and stage receipt share afterwards is a value here, not an alias.
- SparkWorker.SparkWorker.AcknowledgeLocked: whether a report commits a restart's stop (`internal/spark/worker.go:563-600`) is an input.
- BrokerExclusion.ConflictingProfilesExclude: assumes that inspections are truthful and nothing is started out of band, and an approved policy (`internal/spark/existing_coordinator.go:46-50` allows no exclusion groups for the second coordinator's profiles); "up" covers models being brought up.
- BrokerExisting.LinkedStartSubmittedOnce: assumes a job id that stands for one request on a profile that stays with the second coordinator; `BrokerRestarts.SecondSubmissionNeedsTail` is the statement without that assumption.
- BrokerExisting.DurableDoneForever: the same assumption; `BrokerRestarts.FinishedStays` is the statement without it.
- BrokerExisting.DoneUntilCrash: the same assumption.
- BrokerReentry.StartIsRecorded: assumes that the job id stands for this start alone, because another request under the same id can overwrite the record.
- BrokerReentry.StopDominatesStart: assumes that before the stop the job id stood for this start alone; `BrokerReentry.RecordedNeverActs` is the statement without that assumption.
- LogHub.LogHub.Remove: requires the closing source the collector hands it; the collector's read loop is not modelled.
- InstallRecovery.Machine.SaveRecovery: a refused backup writes nothing here, while the source may leave unused backup files behind.
- InstallRecovery.RunKeepsPoint: assumes that the ids of recovery points are unique.
- Digests are modelled by the value digested, so equal digests mean equal values; JSON, gzip, SHA-256 and executable checks of bundles are functions with the hypothesis that decoding undoes encoding.
- A duplicate of a started restart on the existing path is answered with its receipt; the source first queries the one linked start, which the model has as separate steps.
- Generations are unbounded; wrap-around of 64-bit generations is not modelled, that of memory sums is.
- Clock readings next to each other in the final admission are one reading; the last reading before the effect is kept apart.
- Outside writers and removal of the broker's journal file are in `JournalSaver` and not in the runs of `Broker`.
- The chain of accepted snapshots, the leases remembered with a job, the log of acts, the broker's answers and the histories are auxiliary: nothing in the operations depends on them.
- "Rejected implies no effect" is not claimed, because replies after an effect can be rejections.
- Liveness and timing (timeouts, polling, a job stuck after a failed save) are not claimed.
- The time of log records, redaction, and the session, lease, expiry and request checks of the log handlers are not modelled; what they end is an event of the stream.
- In the rollback, path and ownership checks and the service manager's calls are not modelled.
- Local actions and previous-action lookup (`internal/spark/control.go:937-1034`) would only add easy members.
- HTTP, TLS, sessions, consoles, the user interface, storage transactions, parameter validation, metrics and the service host's update are not part of this model.
