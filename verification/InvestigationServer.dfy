/**
 * The server's side of a model investigation: the PatrolRun and WorkerRun
 * automata with their guards, and the policy on who may report for a run.
 * An action that is refused answers None and changes nothing. What an action
 * triggers on the other entity is put in `sent`; it may be applied late, more
 * than once, or never.
 */
module InvestigationServer {
  import opened Text
  import opened InvestigationIds

  datatype PatrolStatus =
    PatrolCreated | PatrolQueued | PatrolRunning | PatrolComplete | PatrolEscalated | PatrolFailed

  datatype WorkerStatus = RunQueued | RunClaimed | RunRunning | RunDone | RunFailed | RunTimedOut

  datatype Task = NoTask | Investigate(patrolRunId: string)

  /** What a PatrolRun hands to the WorkerRun that is to do its work. */
  datatype Assignment = Assignment(
    patrolRunId: string, task: Task, branchName: string, worktreePath: string,
    allowedWorkerId: string, providerId: string, runnerKind: string)

  datatype Report = Report(summary: string, evidence: string)

  datatype PatrolRun = PatrolRun(
    status: PatrolStatus, workerRunId: string, observationId: string, sourceEvidence: string,
    work: Assignment, report: Report)

  datatype WorkerRun = WorkerRun(
    status: WorkerStatus, work: Assignment, workerId: string, claimed: bool,
    modelInvestigation: bool, requiredCapabilities: set<string>, report: Report)

  datatype Reaction =
    | ConfigureWorker(target: string, work: Assignment)
    | CompletePatrol(target: string, workerRunId: string, report: Report)
    | FailPatrol(target: string, workerRunId: string)

  datatype Creation = OfPatrol(id: string) | OfWorker(id: string)

  datatype Server = Server(
    patrols: map<string, PatrolRun>, workers: map<string, WorkerRun>,
    sent: set<Reaction>, creations: multiset<Creation>)

  const LOCAL_CODEX := "local_codex"
  const UNASSIGNED := Assignment("", NoTask, "", "", "", "local-codex", LOCAL_CODEX)
  const NEW_PATROL := PatrolRun(PatrolCreated, "", "", "", UNASSIGNED, Report("", "{}"))
  const NEW_WORKER :=
    WorkerRun(RunQueued, UNASSIGNED, "", false, false, {LOCAL_CODEX}, Report("", ""))
  const EMPTY_SERVER := Server(map[], map[], {}, multiset{})

  predicate Settled(status: PatrolStatus) {
    status in {PatrolComplete, PatrolEscalated, PatrolFailed}
  }

  predicate Open(status: PatrolStatus) {
    status in {PatrolQueued, PatrolRunning}
  }

  // ---- PatrolRun ----

  function CreatePatrol(s: Server, k: string): Option<Server> {
    if k in s.patrols then None
    else Some(s.(patrols := s.patrols[k := NEW_PATROL],
                 creations := s.creations + multiset{OfPatrol(k)}))
  }

  function RequestModelInvestigation(
    s: Server, k: string, investigationKey: string, observationId: string,
    sourceEvidence: string, workerRunId: string, work: Assignment): Option<Server>
  {
    if k in s.patrols && s.patrols[k].status == PatrolCreated
       && investigationKey == k && observationId != "" && sourceEvidence != "" then
      var handed := work.(patrolRunId := k);
      var p := s.patrols[k].(
        status := PatrolQueued, workerRunId := workerRunId, observationId := observationId,
        sourceEvidence := sourceEvidence, work := handed);
      Some(s.(patrols := s.patrols[k := p], sent := s.sent + {ConfigureWorker(workerRunId, handed)}))
    else None
  }

  function ReconcileModelWorker(s: Server, k: string): Option<Server> {
    if k in s.patrols && s.patrols[k].status == PatrolQueued then
      var p := s.patrols[k];
      Some(s.(sent := s.sent + {ConfigureWorker(p.workerRunId, p.work)}))
    else None
  }

  function StartModelInvestigation(s: Server, k: string, expectedWorkerRunId: string): Option<Server> {
    if k in s.patrols && s.patrols[k].status == PatrolQueued
       && expectedWorkerRunId == s.patrols[k].workerRunId then
      Some(s.(patrols := s.patrols[k := s.patrols[k].(status := PatrolRunning)]))
    else None
  }

  function CompleteModelInvestigation(
    s: Server, k: string, expectedWorkerRunId: string, report: Report): Option<Server>
  {
    if k in s.patrols && Open(s.patrols[k].status)
       && expectedWorkerRunId == s.patrols[k].workerRunId && report.evidence != "" then
      Some(s.(patrols := s.patrols[k := s.patrols[k].(status := PatrolComplete, report := report)]))
    else None
  }

  function FailModelInvestigation(s: Server, k: string, expectedWorkerRunId: string): Option<Server> {
    if k in s.patrols && Open(s.patrols[k].status)
       && expectedWorkerRunId == s.patrols[k].workerRunId then
      Some(s.(patrols := s.patrols[k := s.patrols[k].(status := PatrolFailed)]))
    else None
  }

  /** The generic Fail and Escalate, dispatched by state timeouts and by other agents. */
  function GiveUpPatrol(s: Server, k: string, status: PatrolStatus): Option<Server> {
    if k in s.patrols && !Settled(s.patrols[k].status) && status in {PatrolFailed, PatrolEscalated} then
      Some(s.(patrols := s.patrols[k := s.patrols[k].(status := status)]))
    else None
  }

  // ---- WorkerRun ----

  function CreateWorker(s: Server, w: string): Option<Server> {
    if w in s.workers then None
    else Some(s.(workers := s.workers[w := NEW_WORKER],
                 creations := s.creations + multiset{OfWorker(w)}))
  }

  function ConfigureModelInvestigation(s: Server, w: string, work: Assignment): Option<Server> {
    if w in s.workers && s.workers[w].status == RunQueued && !s.workers[w].claimed
       && work.patrolRunId != "" then
      Some(s.(workers := s.workers[w := s.workers[w].(work := work, modelInvestigation := true)]))
    else None
  }

  /** The policy lets only the worker named in the assignment claim. */
  function Claim(s: Server, w: string, caller: string): Option<Server> {
    if w in s.workers && s.workers[w].status == RunQueued && caller == s.workers[w].work.allowedWorkerId then
      Some(s.(workers := s.workers[w := s.workers[w].(
                status := RunClaimed, workerId := caller, claimed := true)]))
    else None
  }

  function StartLocal(s: Server, w: string, caller: string): Option<Server> {
    if w in s.workers && s.workers[w].status == RunClaimed && s.workers[w].claimed
       && caller == s.workers[w].workerId then
      Some(s.(workers := s.workers[w := s.workers[w].(status := RunRunning)]))
    else None
  }

  /** The policy refuses a report or a replay from anyone but the claimant. */
  predicate MayReport(run: WorkerRun, caller: string) {
    run.modelInvestigation && run.workerId == caller
  }

  function ReportInvestigation(s: Server, w: string, caller: string, report: Report): Option<Server> {
    if w in s.workers && s.workers[w].status == RunRunning && MayReport(s.workers[w], caller)
       && report.evidence != "" then
      var run := s.workers[w].(status := RunDone, report := report);
      Some(s.(workers := s.workers[w := run],
              sent := s.sent + {CompletePatrol(run.work.patrolRunId, w, report)}))
    else None
  }

  function FailInvestigation(s: Server, w: string, caller: string): Option<Server> {
    if w in s.workers && s.workers[w].status in {RunClaimed, RunRunning} && MayReport(s.workers[w], caller) then
      var run := s.workers[w].(status := RunFailed);
      Some(s.(workers := s.workers[w := run], sent := s.sent + {FailPatrol(run.work.patrolRunId, w)}))
    else None
  }

  function ReplayInvestigationResult(s: Server, w: string, caller: string): Option<Server> {
    if w in s.workers && s.workers[w].status == RunDone && MayReport(s.workers[w], caller) then
      var run := s.workers[w];
      Some(s.(sent := s.sent + {CompletePatrol(run.work.patrolRunId, w, run.report)}))
    else None
  }

  function ReplayInvestigationFailure(s: Server, w: string, caller: string): Option<Server> {
    if w in s.workers && s.workers[w].status in {RunFailed, RunTimedOut} && MayReport(s.workers[w], caller) then
      var run := s.workers[w].(status := RunFailed);
      Some(s.(workers := s.workers[w := run], sent := s.sent + {FailPatrol(run.work.patrolRunId, w)}))
    else None
  }

  function TimeOutWorker(s: Server, w: string): Option<Server> {
    if w in s.workers && s.workers[w].status in {RunQueued, RunClaimed, RunRunning} then
      Some(s.(workers := s.workers[w := s.workers[w].(status := RunTimedOut)]))
    else None
  }

  /** The generic ReportFailed, dispatched when the trigger of StartLocal fails: the PatrolRun is not told. */
  function ReportFailed(s: Server, w: string): Option<Server> {
    if w in s.workers && s.workers[w].status in {RunClaimed, RunRunning} then
      Some(s.(workers := s.workers[w := s.workers[w].(status := RunFailed)]))
    else None
  }

  // ---- reactions ----

  /** One attempt at applying a reaction. A missing WorkerRun is created first, and that alone is one step. */
  function React(s: Server, r: Reaction): Option<Server> {
    match r
    case ConfigureWorker(w, work) =>
      if w in s.workers then ConfigureModelInvestigation(s, w, work) else CreateWorker(s, w)
    case CompletePatrol(k, w, report) => CompleteModelInvestigation(s, k, w, report)
    case FailPatrol(k, w) => FailModelInvestigation(s, k, w)
  }
}
