# TemperPaw: a verified model of its protocols and canonical forms

This project models, in Dafny 4.11, the parts of TemperPaw in which state,
concurrency or string structure make correctness hard to see, and proves what
they promise. One module stands for one component.

**The investigation queue** (`InvestigationIds`, `InvestigationServer`,
`InvestigationInvariant`, `InvestigationProtocol`, `InvestigationSafety`,
`InvestigationStranding`, `InvestigationRuns`, `InvestigationPass`, `SourceScan`). Worker processes
turn observations into a content fingerprint, create a PatrolRun under it,
have a WorkerRun queued, claim it, execute it and report. `InvestigationServer`
is the PatrolRun and WorkerRun automata of the repository's own specifications
together with the policy on who may claim and report. `InvestigationProtocol`
is a step system: any number of workers, a crash after any call, calls lost
before or after they took effect, triggers applied late, repeatedly or never,
timeouts, runs the server fails when the trigger of their start fails, and other
agents giving up. `InvestigationPass` is one pass of the
main loop written as the code runs it, as an object over the server state; its
precondition is the invariant of every reachable state, so the pass may start
wherever an earlier worker died, and every method is proved to move along the
steps of the step system, so the pass is one of its runs.

**The evaluation gate** (`EvaluationGate`, `EvaluationHandler`). The handler of
a queued EvaluationRun is imperative, call by call, with arbitrary answers; it
is proved to produce only traces that the gate permits, and the gate is then
read off the trace event by event.

**Transport lifecycle** (`Transport`, `TransportSafety`, `TransportManager`,
`TransportOverlap`). Callers and spawned tasks share a handle under a lock;
every lock section is one step. `TransportManager` is the manager as an object
serving one call at a time, every call being a run of the step system;
`TransportOverlap` says for which numbers of callers each promise holds.

**Monitor reconciliation** (`Monitors`, `MonitorText`, `MonitorAccount`,
`MonitorDeploy`). Ownership, de-duplication by score, and the apply and
reconcile phases of the script against the remote account.

**First-user registration** (`Accounts`). Registration under a lock races with
password changes that hold none, with failing storage and with restarts.

**Canonical forms** (`Evidence`, `Fnv`, `FindingPaths`, `Findings`, `Slugs`,
`StringLists`) and **streams and encoders** (`SseFraming`, `SseData`, `Replies`,
`Markers`, `Escapes`, `PercentEncoding`, `TomlStrings`, `Base64`, `Wrapping`),
on the string operations of `Text`, `TextFacts` and `TextLines`.

`dafny verify dfyconfig.toml` checks the whole project.

## What the proofs turned up

- A WorkerRun that times out before it was claimed strands its investigation:
  the scan must replay the failure, the policy lets only the claimant do so and
  there is none. Every pass of every worker that scans it is aborted by the
  refusal, which also keeps that pass from recovering and claiming anything
  else, until somebody fails or escalates the PatrolRun. Its own timeout in the
  Queued state is one that does: it fails the PatrolRun after the same 86400
  seconds and is armed first (os-apps/paw-patrol/specs/patrol_run.ioa.toml,
  lines 213-217), so an investigation is stranded only when the WorkerRun's
  timer fires before it, and until it fires. The design note
  (docs/efforts/ARN-467/decisions.md, line 227) says that startup reconciliation
  restores interrupted evidence.
- More generally a scan that meets another worker's finished run in an
  investigation that is still open is refused and aborts the pass.
- The source scan fails when a set has exactly 100000 rows, although its message
  speaks of exceeding that number; one malformed observation id or one refused
  investigation aborts it.
- Each promise of the transport lifecycle holds for both transports if and only
  if at most one caller makes calls. Two overlapping connects leave two live
  tasks; the older one clears the newer one's token, and the next disconnect
  waits for a task that was never cancelled. The setup API does not serialise
  these calls.
- Cache and storage agree at rest if and only if cache writes take effect,
  restarts restore, storage accepts every save, and saves exclude one another.
  The code sees to neither of the last two: the lock covers registrations only, and
  a refused save leaves the cache changed. At most one registration succeeds if
  and only if cache writes take effect, whose result the code ignores, and
  restarts restore.
- A deployment converges if and only if its file repeats a name only to repeat
  an update. Two new monitors of one name are both created.
- Replies and notices share one set of keys. A reply can be hidden by a notice
  exactly when its thread's name begins, up to the first colon, as a notice key
  does; and as the parts of a key are joined by colons, two replies of one thread
  can share one when their timestamps differ in length.
- Stripping collection noise is not idempotent on measured points, and path
  normalisation is not on spellings like `./ x`; so normalising a finding again
  can change its paths while its fingerprint stays.
- An evaluation reserved under a blank but non-empty name can be failed as
  blocked but never passed; and with an empty command list a code change passes
  without a command being run.

## Readings of the source

- The length of the evidence text is its length in bytes.
- JSON objects are maps: the order of members plays no part. The investigation
  key is the digest of the stripped evidence as a record; what is assumed of
  serialisation and SHA-256 is that the two digests compared do not collide.
- The names of the fields that are fingerprinted are given by their words (`Names`
  in `Evidence`), as they have one or two.
- A stored password hash verifies exactly the password it was made from.
- Characters are Unicode scalar values, and trimming removes White_Space.
  Text is split on character boundaries before it reaches the models of streams.
- The Datadog account never gives out an id twice and keeps the content it is
  sent. Calls of the script are assumed to be answered; because convergence
  holds from any remote state, a run that was cut short is mended by the next.
- Calls inside one pass of `InvestigationPass` succeed when policy and state
  allow them, and their triggers have been applied when they return; the step
  system has no such assumption.
- The boot queries ask for fifty WorkerRuns of a status, of whatever kind. The
  runs counted in `InvestigationPass` are the investigations' own, so its window
  conditions are about a queue without runs of other kinds.
- The "default" bucket that a tenant falls back to is never written.
- What the surroundings of the account store guarantee is a parameter
  (`Environment` in `Accounts`): whether cache writes take effect, restarts
  restore what was stored, saves exclude one another and storage accepts them.

## Model

| member | source | states |
|---|---|---|
| InvestigationIds.WorkerIdInvertible | crates/paw-codex-worker/src/dsf_model_patrol.rs:324 | the id of a WorkerRun determines the fingerprint it was derived from, although the prefix is stripped repeatedly |
| InvestigationIds.WorkerIdInjective | crates/paw-codex-worker/src/dsf_model_patrol.rs:324-326 | two fingerprints never share a WorkerRun id |
| InvestigationInvariant.RequestKeeps | os-apps/paw-patrol/specs/patrol_run.ioa.toml:227-265 | an accepted request keeps the server invariant: the PatrolRun is queued for the derived worker and the assignment on its way is its own |
| InvestigationInvariant.ReactKeeps | os-apps/paw-patrol/specs/patrol_run.ioa.toml:279-325 | a trigger applied late, twice or never keeps the invariant and takes nothing back |
| InvestigationInvariant.ReplayFailureKeeps | os-apps/paw-patrol/specs/worker_run.ioa.toml:316-337 | replaying a failure, which turns TimedOut into Failed, keeps the invariant |
| InvestigationInvariant.ClaimKeeps | os-apps/paw-patrol/specs/worker_run.ioa.toml:107-115 | a claim the policy lets through makes the run the claimant's and nobody else's, and keeps the invariant |
| InvestigationProtocol.CallKeeps | crates/paw-codex-worker/src/dsf_model_patrol.rs:229-328 | whatever call a scanning, claiming, recovering or executing worker makes next, delivered or lost, the invariant holds afterwards, nothing is taken back, and the caller still knows what its next call relies on |
| InvestigationProtocol.StepKeepsAll | crates/paw-codex-worker/src/event_loop.rs:93-188 | the same for every step of the system: a call, a crash, a reaction, a timeout, a run failed by the server, somebody giving up |
| InvestigationProtocol.ReachableInv | crates/paw-codex-worker/src/dsf_model_patrol.rs:229-328 | the invariant holds in every state that any number of workers can reach from an empty server |
| InvestigationSafety.OneRunPerFingerprint | crates/paw-codex-worker/src/dsf_model_patrol.rs:300-327 | over every interleaving with crashes, each fingerprint has at most one PatrolRun and one WorkerRun, each created at most once, and every WorkerRun belongs to the fingerprint its id is derived from |
| InvestigationSafety.RecordedWorkerIsDerived | crates/paw-codex-worker/src/dsf_model_patrol.rs:324-327 | the worker id a PatrolRun records is always the one its key yields, and so is its assignment |
| InvestigationSafety.SettledNeverRewritten | docs/efforts/ARN-467/decisions.md:227 | a completed, failed or escalated investigation is never changed again; evidence and assignment of a started one are never replaced |
| InvestigationSafety.EvidenceComesFromItsWorker | os-apps/dsf-twin/policies/model_investigation.cedar:14-19 | the evidence of a completed investigation is exactly what its own WorkerRun reported, by the worker it was handed to |
| InvestigationSafety.ExecutionIsExclusive | crates/paw-codex-worker/src/event_loop.rs:93-156 | two workers with different ids are never executing the same run |
| InvestigationSafety.RescanOfSettledWritesNothing | crates/paw-codex-worker/src/dsf_model_patrol.rs:241-299 | a rescan of an investigation outside Created, Queued and Running writes nothing |
| InvestigationSafety.StrandedForEver | crates/paw-codex-worker/src/dsf_model_patrol.rs:284-294 | an investigation whose run timed out before it was claimed stays open whatever any number of workers do; only somebody failing or escalating the PatrolRun ends it |
| InvestigationStranding.RefusedToItsWorkerIffStranded | os-apps/dsf-twin/policies/model_investigation.cedar:14-42 | in every reachable state the worker an open investigation was handed to is refused its scan exactly when the run timed out unclaimed |
| InvestigationStranding.StrandedIsRefusedToAll | os-apps/dsf-twin/policies/model_investigation.cedar:37-42 | once stranded, the scan is refused to every worker |
| InvestigationStranding.StrandingHappens | os-apps/paw-patrol/specs/worker_run.ioa.toml:189-201 | such a state is reached from an empty server by one scan and one timeout, for every fingerprint and every worker, when the WorkerRun's timer fires before the PatrolRun's own |
| InvestigationPass.PatrolWorker.QueueInvestigation | crates/paw-codex-worker/src/dsf_model_patrol.rs:229-328 | one scan goes through exactly when the evidence fits 64 KiB and no outcome has to be replayed for another's run; it touches only the records of its fingerprint, leaves a settled one alone, queues a new or merely created one with this very evidence and this worker's assignment, and otherwise leaves the investigation over, running, or ready to be claimed, with what was due of it unchanged |
| InvestigationPass.PatrolWorker.RunModelPatrol | crates/paw-codex-worker/src/dsf_model_investigation.rs:172-202 | an execution starts a queued investigation and runs the agent on the evidence recorded with it; it succeeds exactly when the agent reports evidence, and then the run is done with that report and so is its investigation |
| InvestigationPass.PatrolWorker.ExecuteWorkerRun | crates/paw-codex-worker/src/event_loop.rs:148-169 | whatever goes wrong, an execution of this worker's run ends with an open investigation complete with exactly what the agent reports on its recorded evidence, or failed if that is no evidence, and the run likewise |
| InvestigationPass.PatrolWorker.HandleQueued | crates/paw-codex-worker/src/event_loop.rs:93-120 | a queued run is claimed, started and run to that end if it was handed to this worker, which can run it, and left alone otherwise |
| InvestigationPass.PatrolWorker.HandleRunning | crates/paw-codex-worker/src/event_loop.rs:122-146 | a running run is recovered to that end if it was handed to this worker, which can run it, and left alone otherwise |
| InvestigationPass.ClaimableIff | crates/paw-codex-worker/src/temper_api.rs:693-712 | in a reachable state the tests a worker makes of a run come to four: its status, that it is an investigation, that it was handed to this worker, and that the worker has local_codex |
| InvestigationPass.PatrolWorker.RecoverRunning | crates/paw-codex-worker/src/boot_watch.rs:11-19 | the query is full exactly when fifty runs or more are running; unless it is, no run of this worker is left running |
| InvestigationPass.PatrolWorker.ClaimQueued | crates/paw-codex-worker/src/boot_watch.rs:1-9 | the query is full exactly when fifty runs or more are queued; unless it is, no run of this worker is left queued |
| InvestigationPass.PatrolWorker.QueryBootRuns | crates/paw-codex-worker/src/boot_watch.rs:21-54 | a boot query answers different runs of the status: fifty, or all of them when there are fewer |
| InvestigationPass.PatrolWorker.Pass | crates/paw-codex-worker/src/main.rs:71-92 | from any reachable state one pass is aborted exactly when a scan is refused; otherwise, when the unfinished runs at the start and the scans are fewer than fifty together, no query is full and the scanned investigations that are over afterwards are exactly those that were over or were this worker's to run, and each is what was due of it: as it was if over or another's, its own finished run's outcome, or what the agent reports on the evidence of its first scan or recorded before |
| InvestigationRuns.LeadsToReachable | crates/paw-codex-worker/src/main.rs:71-92 | what one worker does alone, a pass included, it can do among any number of others: the state it leaves is one the step system reaches |
| InvestigationPass.PatrolWorker.PostRequest | crates/paw-codex-worker/src/dsf_model_patrol.rs:327 | an accepted request leaves the investigation queued with this evidence and this worker's assignment, and its run queued with it |
| InvestigationPass.PatrolWorker.PostReplayFailure | crates/paw-codex-worker/src/dsf_model_patrol.rs:284-294 | the failure of a finished run is replayed exactly for its claimant, and closes the investigation |
| SourceScan.ScanSet | crates/paw-codex-worker/src/dsf_model_patrol.rs:177-225 | a scan of one set queues every selected row once and in order, up to the first row with a malformed id or a refused investigation or to the hundred thousandth, and fails exactly when it reaches one of these |
| SourceScan.SelectedHolds | crates/paw-codex-worker/src/dsf_model_patrol.rs:196-218 | the selected rows are exactly those of active or refreshing sources, or of syncs neither draft nor paused, whose newest observation is measured, absent, inaccessible or stale |
| EvaluationGate.PassIsEarned | crates/paw-codex-worker/src/event_loop.rs:373-426 | Pass is posted only after an accepted Claim and then Start, on the cycle last read, before the Claim, as review-passed and not terminal; and unless the worker run read is a repository sweep, only after every configured command was run and succeeded, and no other was run |
| EvaluationGate.BlockerFailIsEarned | crates/paw-codex-worker/src/temper_api.rs:605-641 | a Fail without Start is posted only after an accepted Claim and names the blocker last read: a terminal cycle, or a review that precludes approval, read after that cycle |
| EvaluationGate.CommandFailIsEarned | crates/paw-codex-worker/src/code_evaluation.rs:26-57 | a Fail after Start means that some command failed, and names a timeout exactly if some command timed out |
| EvaluationGate.AtMostOneVerdict | crates/paw-codex-worker/src/event_loop.rs:269-452 | at most one of Pass and Fail is ever posted, accepted or not, and no post follows it |
| EvaluationGate.AtMostOneReviewVerdict | crates/paw-codex-worker/src/event_loop.rs:225-267 | at most one verdict is posted on the ReviewRun |
| EvaluationGate.VerdictIsTheAgents | crates/paw-codex-worker/src/event_loop.rs:241-266 | a verdict posted on the review is the one the reviewing agent decided, its only one, and the review is failed only when the agent decided nothing |
| EvaluationGate.NoReviewAfterClaim | crates/paw-codex-worker/src/event_loop.rs:331-373 | the review is never touched once the EvaluationRun has been claimed |
| EvaluationGate.ReservedIsLeftAlone | crates/paw-codex-worker/src/temper_api.rs:678-683 | nothing is posted on a run reserved for another evaluator; one reserved under a blank name can be failed as blocked and nothing else |
| EvaluationGate.GateHoldsLastRead | crates/paw-codex-worker/src/event_loop.rs:284-306 | what the gate decides on is what was last read |
| EvaluationHandler.Handling.HandleQueuedEvaluationRun | crates/paw-codex-worker/src/event_loop.rs:269-426 | against any answers the trace obeys the gate, and the handler succeeds exactly if no call failed; it has then read the run, the cycle of a configured one, the work of a cycle that is not blocked and the review of one that is not approved, has had the review seen to and read the cycle twenty-one times more before giving up on it, and the run is decided exactly if, as last read, it was this worker's to decide or to fail, and is otherwise left untouched |
| EvaluationHandler.Handling.FailIfBlocked | crates/paw-codex-worker/src/event_loop.rs:428-452 | unless a call failed, the run is failed exactly when it is blocked and not another's, and the handling is done exactly when it is blocked |
| EvaluationHandler.Handling.FetchWorkCycleUntilReviewPassed | crates/paw-codex-worker/src/temper_api.rs:123-137 | the cycle returned is the last one read, and one that is neither approved nor over is returned only after twenty-one reads |
| EvaluationHandler.Handling.HandleRequestedReviewRun | crates/paw-codex-worker/src/event_loop.rs:190-267 | the handler succeeds exactly if no call failed, and the review is then decided, as the agent decided it, exactly if, as last read, it was requested with a run to review and this worker reviews |
| EvaluationHandler.ClassifyOutputs | crates/paw-codex-worker/src/code_evaluation.rs:61-130 | the commands pass exactly when every one succeeded, and a timeout anywhere outranks every other failure |
| TransportSafety.OnlyTheNewestTaskLives | crates/temperpaw/src/transport_manager.rs:259-383 | with serialised calls at most one task is live, it belongs to the newest connection, and none is live while a connection is being opened: no old task writes a newer handle |
| TransportSafety.DisconnectLeavesNothing | crates/temperpaw/src/transport_manager.rs:482-502 | when disconnect returns, or a connect gives up waiting, no task is live, cancel and task are empty and the status is Disconnected, or Error with the message the last task's transport failed with |
| TransportSafety.StatusIsHonest | crates/temperpaw/src/transport_manager.rs:471-476 | between calls the status is Connecting or Connected exactly while a task is live, and then the handle is that task's own |
| TransportSafety.ReportedAsItEnded | crates/temperpaw/src/transport_manager.rs:317-366 | after a connect that was not given up, the end of its own task is what is reported, over every run: Error with the message its transport failed with, Disconnected if it exited cleanly or was cancelled; and it ended in one of these ways |
| TransportSafety.StoppingTerminates | crates/temperpaw/src/transport_manager.rs:482-502 | while a transport is being stopped, every step that can happen brings the return nearer, whatever the schedule |
| TransportSafety.StoppingNeverBlocks | crates/temperpaw/src/transport_manager.rs:482-502 | while a transport is being stopped, some step can always happen |
| TransportSafety.CallerKeeps | crates/temperpaw/src/transport_manager.rs:271-383 | every lock section of a caller keeps the invariant that ties handle, tasks and tokens together |
| TransportSafety.TaskKeeps | crates/temperpaw/src/transport_manager.rs:316-366 | every step of a task keeps it too |
| TransportOverlap.OneLiveIff | crates/temperpaw/src/transport_manager.rs:259-463 | on either transport, at most one task is live in every reachable state if and only if at most one caller makes calls: two overlapping connects leave two |
| TransportOverlap.HeldIff | crates/temperpaw/src/transport_manager.rs:308-366 | between calls every live task can be cancelled through the handle if and only if at most one caller makes calls: otherwise an older task, ending, clears the newer connection's token |
| TransportOverlap.CancelledIff | crates/temperpaw/src/transport_manager.rs:482-502 | a stop waits only for tasks that were cancelled if and only if at most one caller makes calls |
| TransportManager.TransportManager.Connect | crates/temperpaw/src/transport_manager.rs:259-463 | a connect, section by section with the tasks running in between, always returns; whatever was there before has ended by then, a connection reported ready is up or has ended since, and one that failed or took too long has left nothing live |
| TransportManager.TransportManager.Disconnect | crates/temperpaw/src/transport_manager.rs:388-391 | a disconnect always returns, and then no task is live, the handle is empty and the status is Disconnected or Error |
| TransportManager.TransportManager.AwaitTask | crates/temperpaw/src/transport_manager.rs:492-500 | a task that is waited for always comes to its end, whatever steps it takes |
| TransportManager.TransportManager.ReportedStatus | crates/temperpaw/src/transport_manager.rs:471-476 | what the setup page is told between calls is Disconnected or Error exactly when no task is live; it is the live task's own status, and once that ended by itself the message it failed with, if it failed |
| MonitorText.LegacyMeansSomeField | scripts/deploy_monitors.py:50-64 | joining and JSON-encoding the fields neither hides a legacy term nor makes one up: a monitor is legacy exactly when one of its own fields holds a term |
| MonitorText.LegacySaysOpenPaw | scripts/deploy_monitors.py:27-64 | a monitor is legacy exactly when a field of it holds OpenPaw, OpenPAW or openpaw: the two longer terms add nothing |
| MonitorText.KeptIsPreferred | scripts/deploy_monitors.py:75-109 | of the entries of one name the one kept has the team's tag if any has, and among equals in that does not say OpenPaw if any does not; of equals the first is kept |
| Monitors.IndexExisting | scripts/deploy_monitors.py:86-109 | each name keeps the first of its best-scored monitors; kept and duplicate monitors together are exactly the indexed ones |
| MonitorDeploy.OrphansInAccount | scripts/deploy_monitors.py:278-287 | the orphans are exactly the owned monitors that were not chosen for a desired one |
| MonitorAccount.ApplyAllApplies | scripts/deploy_monitors.py:222-276 | when the file repeats a name only to repeat an update, every desired monitor is at its home after the apply phase, the kept entry if the type agrees and a new id otherwise, and only chosen entries have gone or changed |
| MonitorDeploy.DeployConverges | scripts/deploy_monitors.py:199-303 | from any remote state a reconcile whose file repeats only updates, unique names being the usual case, converges: one monitor per desired name with the desired content, no other owned monitor, unowned ones untouched, and each deletion made once |
| MonitorDeploy.SecondRunOnlyUpdates | scripts/deploy_monitors.py:1-15 | a converged account is left as it is, whatever the names: a second run creates and deletes nothing |
| MonitorDeploy.DeployConvergesIff | scripts/deploy_monitors.py:199-303 | from any remote state a reconcile goes through and converges if and only if any two entries of the file that share a name agree and the monitor kept for that name exists with their type; unique names meet this |
| MonitorDeploy.DatadogAccount.Deploy | scripts/deploy_monitors.py:149-303 | the script as a whole, for any file: a rejected monitor or a dry run changes nothing; otherwise the account is the applied one, less the orphans with --reconcile, or what was applied before the first call that failed; a monitor whose name is not in the file, without the tag team:temperpaw and with no field that says OpenPaw is never touched; after --reconcile whatever has the tag, a name of the file or says OpenPaw is one of the file's, and the account converges exactly if the file repeats only updates |
| MonitorDeploy.DatadogAccount.ApplyDesired | scripts/deploy_monitors.py:222-276 | the apply loop, against the specification the lemmas are about; it ends at the first call that fails with what was applied before |
| MonitorDeploy.DatadogAccount.DeleteOrphans | scripts/deploy_monitors.py:288-303 | the orphans are deleted once each, by name and then by id |
| Accounts.AtMostOneRegistration | crates/temperpaw/src/auth.rs:466-498 | over every interleaving with password changes, failed persistence and restarts, at most one registration reports success, and its account is then the stored one |
| Accounts.VisibleAccountsAreFixed | crates/temperpaw/src/auth.rs:513-573 | once an account is visible, who has an account never changes, although password changes write back stale maps without the lock; only a restart before anything was stored can undo it |
| Accounts.ChangesAreEntitled | crates/temperpaw/src/auth.rs:513-534 | over every run and in any surroundings, a password change that reports success was asked for by somebody who named the password the account had at some point of the run |
| Accounts.StepKeeps | crates/temperpaw/src/auth.rs:466-573 | every step keeps the invariant behind both when cache writes take effect and restarts restore |
| Accounts.OneRegistrationIff | crates/temperpaw/src/auth.rs:466-498 | in any surroundings, at most one registration reports success in every run if and only if cache writes take effect and restarts restore |
| Accounts.AgreeAtRestIff | crates/temperpaw/src/auth.rs:513-573 | in any surroundings, cache and storage hold the same accounts and passwords in every run whenever no request is saving if and only if cache writes take effect, restarts restore, storage accepts every save and saves exclude one another |
| Accounts.LostCacheWriteRegistersTwice | crates/temperpaw/src/auth.rs:555-558 | wherever cache writes may be lost, two registrations one after the other both report success |
| Accounts.UnrestoredRestartRegistersTwice | crates/temperpaw/src/startup.rs:2441-2476 | wherever a restart may restore nothing, registration is open again and replaces the stored accounts |
| Accounts.PasswordChangesMayDisagree | crates/temperpaw/src/auth.rs:513-534 | wherever saves do not exclude one another, two successful password changes can leave one password in the cache and the other in storage |
| Accounts.AuthState.Register | crates/temperpaw/src/auth.rs:466-498 | one registration run alone: success exactly when no account was visible and storage accepted; a failed one still closes registration |
| Accounts.AuthState.ChangePassword | crates/temperpaw/src/auth.rs:513-534 | one change run alone: success exactly with the right current password and storage accepting |
| Evidence.MaterialForgetsExactlyNoise | crates/paw-codex-worker/src/dsf_model_patrol.rs:63-106 | two JSON values have equal material exactly when they are the same up to collection noise |
| Evidence.MaterialIdempotentIffPointsSettled | crates/paw-codex-worker/src/dsf_model_patrol.rs:63-106 | stripping twice is stripping once exactly when every latest point that is reached has nothing or null as its second element |
| Evidence.MeasuredPointIsNotSettled | crates/paw-codex-worker/src/dsf_model_patrol.rs:90-95 | a measured point is stripped to its value, and to null the second time |
| Evidence.SameKeyIffSameEvidence | crates/paw-codex-worker/src/dsf_model_patrol.rs:116-128 | two pairs of rows get the same key, digest collisions aside, exactly when the observations agree in subject type and id, source, status, outcome and observed revision, the sources in the intended revision, and the parsed configurations and the summary up to noise, each found by name, capitalised or inside fields |
| Evidence.KeyIffEvidence | crates/paw-codex-worker/src/dsf_model_patrol.rs:117-122 | there is a key exactly when the observation names its subject and what is JSON text in either row parses |
| Evidence.FieldIsFound | crates/paw-codex-worker/src/dsf_model_patrol.rs:5-19 | a field is the member of its name, else of its words capitalised and joined, else the one or the other inside fields |
| Evidence.InvestigationKeyIsKey | crates/paw-codex-worker/src/dsf_model_patrol.rs:124-127 | the key has the form the protocol derives its ids from |
| Fnv.StepUndone | crates/paw-codex-worker/src/repo_health.rs:304-307 | each hash step can be undone: it is injective in the state |
| Fnv.UnstepUndone | crates/paw-codex-worker/src/repo_health.rs:304-307 | and onto: a bijection on 64-bit states |
| Fnv.OneByteNeverCollides | crates/paw-codex-worker/src/repo_health.rs:303-308 | two materials that differ in exactly one byte never share a hash |
| Fnv.RenderedInjective | crates/paw-codex-worker/src/repo_health.rs:309 | sixteen hexadecimal digits keep different hashes different |
| Fnv.KnownValues | crates/paw-codex-worker/src/repo_health.rs:298-310 | the hash has the published FNV-1a values for the empty text and for one letter |
| Fnv.Hash | crates/paw-codex-worker/src/repo_health.rs:303-308 | the hash loop computes the fold the lemmas are about |
| FindingPaths.NormalizedPathsAscend | crates/paw-codex-worker/src/repo_health.rs:287-296 | the normalised list is the strictly ascending list of the set of normalised non-empty paths |
| FindingPaths.SameListIffSameSet | crates/paw-codex-worker/src/repo_health.rs:287-296 | two lists of paths normalise alike exactly when those sets are equal: order, repetition and spelling do not matter, and nothing else is forgotten |
| FindingPaths.SurroundingBlanksDoNotMatter | crates/paw-codex-worker/src/repo_health.rs:290 | whitespace around a path does not matter |
| FindingPaths.LeadingDotMattersIffSpaced | crates/paw-codex-worker/src/repo_health.rs:290 | a leading ./ does not matter exactly when the path does not start with whitespace, or is blank |
| FindingPaths.NormalizePathIdempotentIff | crates/paw-codex-worker/src/repo_health.rs:290 | normalising a path twice is normalising it once exactly when no whitespace follows its leading run of ./ |
| Findings.FingerprintDependsOnPathSet | crates/paw-codex-worker/src/repo_health.rs:220-243 | a generated fingerprint depends on the kind, the trimmed title and the set of normalised paths alone |
| Findings.OneByteChangesFingerprint | crates/paw-codex-worker/src/repo_health.rs:298-310 | materials that differ in one byte give different fingerprints |
| Findings.SeverityMeans | crates/paw-codex-worker/src/repo_health.rs:272-278 | a severity is what its word stands for, blanks around it and the case of its letters aside |
| Findings.QualityFinding.Normalize | crates/paw-codex-worker/src/repo_health.rs:220-230 | a finding keeps a fingerprint it came with and is otherwise named by what was just normalised: the trimmed title, the severity its word stands for and the canonical paths |
| SseFraming.FramesRejoin | crates/temperpaw-cli/src/events.rs:416-426 | frames, each followed by a blank line, and the rest give back the text; no frame and no rest holds a blank line |
| SseFraming.JoinedCuts | crates/temperpaw-cli/src/events.rs:416-426 | and conversely any frames joined that way are cut into just those frames |
| SseFraming.ChunkingDoesNotMatter | crates/paw-codex-worker/src/event_loop.rs:22-46 | however a stream is chopped into chunks, the frames and the leftover are those of the text in one piece |
| SseFraming.EventBuffer.Receive | crates/paw-codex-worker/src/event_loop.rs:22-46 | the buffer loop over a whole stream of chunks |
| SseFraming.EventBuffer.Drain | crates/temperpaw-cli/src/events.rs:416-426 | the drain loop takes out every complete frame |
| SseData.ParsersAgree | crates/paw-codex-worker/src/http_headers.rs:1-11 | on every frame the client reads the worker's data without its leading newlines |
| SseData.WrittenFrameIsRead | crates/temperpaw-cli/src/events.rs:428-448 | a frame written as an event line and a data line is read back by both parsers |
| SseData.ParseSseFrame | crates/temperpaw-cli/src/events.rs:428-448 | the client's line loop, and that only named frames with data are decoded |
| Replies.KeysAgree | crates/temperpaw-cli/src/events.rs:526-545 | the key marked at start-up is the key looked up later for the event's own thread |
| Replies.ShownAtMostOnce | crates/temperpaw-cli/src/events.rs:162-199 | over every run nothing is shown twice |
| Replies.OldRepliesAreNeverShown | crates/temperpaw-cli/src/events.rs:44-47 | a reply present in a successful start-up fetch is never shown, for whichever thread |
| Replies.RepliesAreShownInLogOrder | crates/temperpaw-cli/src/events.rs:205-261 | what a fetch shows are the texts its log delivers to the active thread, not blank, in the order of the log |
| Replies.RepliesGetShownIff | crates/temperpaw-cli/src/events.rs:174-261 | every non-blank reply of a thread that is fetched and was not there at the start is shown, in every run, if and only if the thread's name up to its first colon is none of session, decision, plan and failure: no notice then has its key |
| Replies.RepliesShareKeyIff | crates/temperpaw-cli/src/events.rs:526-545 | two replies of threads without colons share a key exactly when the thread is one and timestamp and content agree, or the longer timestamp continues the shorter one past a colon with the start of the other's content |
| Replies.FetchedRepliesAreShown | crates/temperpaw-cli/src/events.rs:205-261 | so with timestamps of one length a fetched reply is itself shown, content and all, exactly if it was not there at the start |
| Replies.Watcher.Watch | crates/temperpaw-cli/src/events.rs:38-92 | the watcher object, over any sequence of fetches and notices |
| Replies.Watcher.MarkExistingReplies | crates/temperpaw-cli/src/events.rs:230-236 | start-up marks exactly the delivered replies |
| Slugs.SlugsAgree | crates/paw-codex-worker/src/datadog_patrol.rs:430-443 | the one-pass slug and the map, split, filter and join slug agree on every text |
| Slugs.StableSlugJoinsWords | crates/temperpaw-cli/src/deploy.rs:1860-1876 | a slug is the words of the text joined by single dashes |
| Slugs.SlugKeepsLetters | crates/paw-codex-worker/src/datadog_patrol.rs:430-443 | its dashes apart, a slug is the ASCII letters and digits of the text, in lower case and in their order |
| Slugs.SlugLeavesExactlyCleanAlone | crates/paw-codex-worker/src/datadog_patrol.rs:430-443 | a slug has only a-z, 0-9 and single inner dashes, and those texts are exactly the ones a slug leaves alone |
| Slugs.SlugIsIdempotent | crates/paw-codex-worker/src/datadog_patrol.rs:430-443 | slugging twice is slugging once |
| Slugs.StableSlugLoop | crates/paw-codex-worker/src/datadog_patrol.rs:430-443 | the loop with its last-dash flag computes the slug the lemmas are about |
| StringLists.StringList.Normalize | crates/paw-codex-worker/src/datadog_patrol.rs:422-428 | the in-place clean-up of a list |
| StringLists.CleanedHolds | crates/paw-codex-worker/src/datadog_patrol.rs:422-428 | the cleaned list has no blank, untrimmed or repeated value and exactly the trimmed non-blank ones of the old list |
| StringLists.CleanedKeepsFirstOrder | crates/paw-codex-worker/src/datadog_patrol.rs:422-428 | they stay in the order in which they first appear |
| StringLists.CleanedLeavesExactlyCleanAlone | crates/paw-codex-worker/src/datadog_patrol.rs:422-428 | exactly the clean lists are left alone |
| Markers.ExtractorsAgree | crates/paw-codex-worker/src/repo_health.rs:163-176 | the find-based and the split-based extractor succeed on the same outputs with the same result |
| Markers.ExtractionInvertsWrapping | crates/paw-codex-worker/src/daily_brief.rs:116-128 | a payload between the markers is extracted whatever surrounds it, as long as the noise before lacks BEGIN and the payload lacks END |
| Markers.UnborderedIsFoundInPlace | crates/paw-codex-worker/src/daily_brief.rs:1 | an unbordered marker is found where it was put |
| Markers.BorderedIsFoundTooEarly | crates/paw-codex-worker/src/daily_brief.rs:116-119 | a bordered one need not be, so the border condition is exact |
| Markers.DailyBriefMarkersFit | crates/paw-codex-worker/src/daily_brief.rs:1-2 | the daily brief's markers meet the conditions |
| Markers.DatadogMarkersFit | crates/paw-codex-worker/src/datadog_patrol.rs:3-4 | so do those of the Datadog patrol |
| Markers.RepoHealthMarkersFit | crates/paw-codex-worker/src/repo_health.rs:6-7 | and those of the repository sweep |
| Markers.EndMarkersOverlapThemselves | crates/paw-codex-worker/src/daily_brief.rs:2 | two END markers do overlap themselves by one letter |
| Escapes.ChainIsSimultaneous | crates/paw-transport/src/lib.rs:79-88 | a chain of whole-string replacements in which none touches what an earlier one wrote is a simultaneous escape |
| Escapes.DecodeInverts | crates/paw-codex-worker/src/launchd.rs:147-154 | such an escape is undone by reading codes back, on all strings |
| Escapes.PlistReadsBack | crates/paw-codex-worker/src/launchd.rs:147-154 | property list text, read with the five entities of XML, is the value, and holds no markup character |
| Escapes.ODataReadsBack | crates/paw-transport/src/lib.rs:79-88 | filter text, read by percent-decoding as in section 2.1 of RFC 3986, is the value, and holds none of the characters that end or split a query |
| Escapes.EscapeLastLosesValues | crates/paw-codex-worker/src/launchd.rs:148-149 | with the escape character last, two values would be written alike |
| PercentEncoding.EncodedReadsBack | crates/paw-codex-worker/src/daily_brief.rs:232-244 | percent-encoding reads back under section 2.1 of RFC 3986 and emits only unreserved characters and upper-case triplets |
| TomlStrings.BasicStringReadsBack | crates/paw-codex-worker/src/execution.rs:552-570 | the written string reads back under the basic-string rules of TOML v1.0.0, whatever follows it |
| TomlStrings.WrittenIsPrintable | crates/paw-codex-worker/src/execution.rs:552-570 | no control character is written, and no quote without its backslash |
| TomlStrings.WriteBasicString | crates/paw-codex-worker/src/execution.rs:552-570 | the pushing loop writes the string the lemmas are about |
| Base64.DecodesIffEncoded | crates/temperpaw-cli/src/deploy.rs:628-650 | a text decodes to some bytes under section 4 of RFC 4648 exactly when it is what the encoder writes for them |
| Base64.EncodedReadsBack | crates/temperpaw-cli/src/deploy.rs:628-650 | decoding undoes encoding for any number of bytes, padding included |
| Base64.EncodedLength | crates/temperpaw-cli/src/deploy.rs:630-631 | n bytes take 4*ceil(n/3) characters |
| Base64.EncodeLoop | crates/temperpaw-cli/src/deploy.rs:631-649 | the chunk loop writes the encoding the lemmas are about |
| Wrapping.WrappedFits | crates/temperpaw-cli/src/tui.rs:349-369 | no line is longer than the effective width |
| Wrapping.SourceReadsBack | crates/temperpaw-cli/src/tui.rs:353-363 | dropping the indents of the continuation lines and joining gives back the source line |
| Wrapping.LineCount | crates/temperpaw-cli/src/tui.rs:353-363 | a source line of n characters above the width w takes 1 + ceil((n - w) / (w - 2)) lines |
| Wrapping.WrapLine | crates/temperpaw-cli/src/tui.rs:349-369 | the nested loops terminate and produce the wrapping the lemmas are about |

## Left out

- The cloud-overflow states of a WorkerRun and the generic PatrolRun actions (Configure, Start, AttachWorkerRun, RecordEvidence, Complete): an investigation never takes them.
- State timeouts happen at any moment in the model; their durations are not modelled.
- HTTP, OData URLs, headers, logging, environment reading and the retry sleeps: a call is one step with an arbitrary answer.
- The agent run itself and the checks on the references it reports (`dsf_parse_result`, `dsf_verify_result`): one outcome, a report or a failure, for a fingerprint and the evidence recorded with it.
- InvestigationPass.PatrolWorker.QueryBootRuns: the order of the answer, descending by id, is not modelled, so when more than fifty runs match, which fifty are returned is arbitrary; and runs of other kinds, which take up rows of the same fifty, are not modelled.
- The generic ReportDone of a WorkerRun, which no worker posts for an investigation, would close one without evidence: it is not a step of the model.
- Review, evaluation and directed-evolution work in the main loop: the pass models the investigation part, the evaluation handler is modelled on its own.
- SourceScan.ScanSet: the set does not change between its pages, and whether queueing a row goes through is a parameter.
- InvestigationStranding.StrandingHappens: timers are not modelled, so the run that strands an investigation does not show that the PatrolRun's own timer, of the same length and armed first, has yet to fire.
- InvestigationInvariant.ClaimKeeps: a claim by an agent of type "system", which patrol.cedar also permits, is not modelled; workers never claim as one.
- The key and address lookups before a Discord connect: they fail before the handle is touched.
- Panics of a transport task, and a caller that is dropped in the middle of a connect.
- Discord, Slack and ngrok protocols: a transport only becomes ready, exits, fails or is cancelled; a readiness channel that closes without a signal is not modelled.
- Back-off and retries of monitor requests, and content that Datadog itself rewrites.
- Lower-casing and validation of e-mail addresses and password lengths, sessions and tokens.
- JSON text parsing, UTF-8 decoding, SHA-256 and the byte encoding of a finding's material: parameters.
- Security findings: their normalisation differs from that of quality findings by one table lookup.
- MonitorText.LegacyMeansSomeField: the notifications field enters as its JSON text.
- Prompts, doctor reports, provisioning, dashboards and table lookups: they would only add easy members.
