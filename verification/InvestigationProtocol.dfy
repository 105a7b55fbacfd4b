/**
 * Any number of worker processes scanning, claiming and recovering against one
 * server. Every step is one call, one late reaction, one timeout or one crash,
 * in any order; a call may be lost before it reaches the server or answered
 * into the void.
 */
module InvestigationProtocol {
  import opened Text
  import opened InvestigationIds
  import opened InvestigationServer
  import opened InvestigationInvariant

  datatype Config = Config(workerId: string, workspaceRoot: string, capabilities: set<string>)

  datatype Evidence = Evidence(observationId: string, source: string)

  /** Where a process is in its program: the call it makes next, with what it has read so far. */
  datatype Pc = Idle | Scanning(scan: Scan) | Taking(take: Take) | Executing(exec: Execution)

  datatype Scan =
    | ReadPatrol(k: string, evidence: Evidence)
    | Create(k: string, evidence: Evidence)
    | Request(k: string, evidence: Evidence)
    | ReadWorker(k: string, seen: PatrolRun)
    | Reconcile(k: string)
    | StartClaimed(w: string)
    | ReplayResult(w: string)
    | ReplayFailure(w: string)

  datatype Take =
    | ReadRunning(w: string)
    | ReadQueued(w: string)
    | ClaimRun(w: string, run: WorkerRun)
    | StartRun(w: string, run: WorkerRun)

  datatype Execution =
    | BindPatrol(w: string, k: string)
    | BindWorker(w: string, k: string, patrol: PatrolRun)
    | StartModel(w: string, k: string)
    | RunAgent(w: string, k: string)
    | SendReport(w: string, report: Report)
    | SendFailure(w: string)

  datatype Process = Process(config: Config, pc: Pc)
  datatype System = System(server: Server, processes: seq<Process>)

  /** What the network does to one call, and what the agent returns when it is run. */
  datatype Fate = Fate(delivered: bool, answered: bool, codex: Option<Report>)

  datatype Step =
    | Begin(p: nat, pc: Pc)
    | Call(p: nat, fate: Fate)
    | Crash(p: nat)
    | Reacts(reaction: Reaction)
    | WorkerTimesOut(w: string)
    | WorkerIsFailed(w: string)
    | PatrolGivesUp(k: string, status: PatrolStatus)

  function AssignmentFor(k: string, config: Config): Assignment {
    Assignment(k, Investigate(k), "codex/" + k, config.workspaceRoot + "/" + k, config.workerId,
               "local-codex", LOCAL_CODEX)
  }

  predicate HasWorktree(run: WorkerRun) {
    Trim(run.work.worktreePath) != "" || Trim(run.work.branchName) != ""
  }

  predicate ClaimableBy(run: WorkerRun, config: Config) {
    run.status == RunQueued && run.work.runnerKind == LOCAL_CODEX && run.work.allowedWorkerId == config.workerId
    && HasWorktree(run) && run.requiredCapabilities <= config.capabilities
  }

  predicate RecoverableBy(run: WorkerRun, config: Config) {
    run.status == RunRunning && run.work.runnerKind == LOCAL_CODEX && run.work.allowedWorkerId == config.workerId
    && run.workerId == config.workerId && HasWorktree(run) && run.requiredCapabilities <= config.capabilities
  }

  /** A process may start a scan of any evidence, look at any running run, or look at any queued run. */
  predicate Entry(pc: Pc) {
    match pc
    case Scanning(ReadPatrol(k, evidence)) => IsKey(k) && evidence.observationId != "" && evidence.source != ""
    case Taking(ReadRunning(_)) => true
    case Taking(ReadQueued(_)) => true
    case _ => false
  }

  /** The server after a posted action, and where the caller goes when it saw success or failure. */
  function Post(s: Server, action: Option<Server>, fate: Fate, next: Pc, failed: Pc): (Server, Pc) {
    (if fate.delivered && action.Some? then action.value else s,
     if fate.delivered && fate.answered && action.Some? then next else failed)
  }

  function Lookup<V>(m: map<string, V>, id: string): Option<V> {
    if id in m then Some(m[id]) else None
  }

  /** What a scan does next after reading the PatrolRun of its fingerprint. */
  function AfterPatrolRead(k: string, evidence: Evidence, patrol: Option<PatrolRun>): Pc {
    match patrol
    case None => Scanning(Create(k, evidence))
    case Some(p) =>
      if p.status == PatrolCreated then Scanning(Request(k, evidence))
      else if Open(p.status) then Scanning(ReadWorker(k, p))
      else Idle
  }

  /** What a scan does next after reading the WorkerRun of an open PatrolRun. */
  function AfterWorkerRead(k: string, seen: PatrolRun, worker: Option<WorkerRun>, me: string): Pc {
    match worker
    case None => if seen.status == PatrolQueued then Scanning(Reconcile(k)) else Idle
    case Some(run) =>
      if seen.status == PatrolQueued && run.work.patrolRunId == "" && run.status == RunQueued then
        Scanning(Reconcile(k))
      else if run.status == RunClaimed && run.workerId == me then Scanning(StartClaimed(seen.workerRunId))
      else if run.status == RunDone then Scanning(ReplayResult(seen.workerRunId))
      else if run.status in {RunFailed, RunTimedOut} then Scanning(ReplayFailure(seen.workerRunId))
      else Idle
  }

  function AdvanceScan(s: Server, config: Config, pc: Scan, fate: Fate): (Server, Pc) {
    var me := config.workerId;
    var read := fate.delivered && fate.answered;
    match pc
    case ReadPatrol(k, evidence) =>
      (s, if read && |evidence.source| <= 65536 then AfterPatrolRead(k, evidence, Lookup(s.patrols, k)) else Idle)
    case Create(k, evidence) => Post(s, CreatePatrol(s, k), fate, Scanning(Request(k, evidence)), Idle)
    case Request(k, e) =>
      Post(s, RequestModelInvestigation(s, k, k, e.observationId, e.source, WorkerIdOf(k), AssignmentFor(k, config)),
           fate, Idle, Idle)
    case ReadWorker(k, seen) =>
      (s, if read then AfterWorkerRead(k, seen, Lookup(s.workers, seen.workerRunId), me) else Idle)
    case Reconcile(k) => Post(s, ReconcileModelWorker(s, k), fate, Idle, Idle)
    case StartClaimed(w) => Post(s, StartLocal(s, w, me), fate, Taking(ReadRunning(w)), Idle)
    case ReplayResult(w) => Post(s, ReplayInvestigationResult(s, w, me), fate, Idle, Idle)
    case ReplayFailure(w) => Post(s, ReplayInvestigationFailure(s, w, me), fate, Idle, Idle)
  }

  function AfterTask(w: string, run: WorkerRun): Pc {
    if run.work.task.Investigate? then Executing(BindPatrol(w, run.work.task.patrolRunId)) else Idle
  }

  function AdvanceTake(s: Server, config: Config, pc: Take, fate: Fate): (Server, Pc) {
    var me := config.workerId;
    var read := fate.delivered && fate.answered;
    match pc
    case ReadRunning(w) =>
      (s, if read && w in s.workers && RecoverableBy(s.workers[w], config) then AfterTask(w, s.workers[w]) else Idle)
    case ReadQueued(w) =>
      (s, if read && w in s.workers && ClaimableBy(s.workers[w], config) then Taking(ClaimRun(w, s.workers[w]))
          else Idle)
    case ClaimRun(w, run) => Post(s, Claim(s, w, me), fate, Taking(StartRun(w, run)), Idle)
    case StartRun(w, run) => Post(s, StartLocal(s, w, me), fate, AfterTask(w, run), Idle)
  }

  /** The investigation's binding checks, once both records are read. */
  function AfterBinding(w: string, k: string, patrol: PatrolRun, worker: Option<WorkerRun>): Execution {
    if worker.None? || patrol.workerRunId != w || worker.value.work.patrolRunId != k then SendFailure(w)
    else if patrol.status == PatrolComplete then SendReport(w, patrol.report)
    else if patrol.status == PatrolQueued then StartModel(w, k)
    else RunAgent(w, k)
  }

  /** Whatever goes wrong while executing, the process still tries to fail the run. */
  function AdvanceExecution(s: Server, config: Config, pc: Execution, fate: Fate): (Server, Pc) {
    var me := config.workerId;
    var read := fate.delivered && fate.answered;
    match pc
    case BindPatrol(w, k) =>
      (s, Executing(if read && k in s.patrols then BindWorker(w, k, s.patrols[k]) else SendFailure(w)))
    case BindWorker(w, k, patrol) =>
      (s, Executing(if read then AfterBinding(w, k, patrol, Lookup(s.workers, w)) else SendFailure(w)))
    case StartModel(w, k) =>
      Post(s, StartModelInvestigation(s, k, w), fate, Executing(RunAgent(w, k)), Executing(SendFailure(w)))
    case RunAgent(w, k) =>
      (s, Executing(if fate.codex.Some? then SendReport(w, fate.codex.value) else SendFailure(w)))
    case SendReport(w, report) =>
      Post(s, ReportInvestigation(s, w, me, report), fate, Idle, Executing(SendFailure(w)))
    case SendFailure(w) => Post(s, FailInvestigation(s, w, me), fate, Idle, Idle)
  }

  /** One call of a process. Outside an execution, a failed call ends the process. */
  function Advance(s: Server, config: Config, pc: Pc, fate: Fate): (Server, Pc) {
    match pc
    case Idle => (s, Idle)
    case Scanning(scan) => AdvanceScan(s, config, scan, fate)
    case Taking(take) => AdvanceTake(s, config, take, fate)
    case Executing(exec) => AdvanceExecution(s, config, exec, fate)
  }

  function MoveTo(sys: System, p: nat, pc: Pc): System
    requires p < |sys.processes|
  {
    sys.(processes := sys.processes[p := sys.processes[p].(pc := pc)])
  }

  function OnServer(sys: System, action: Option<Server>): Option<System> {
    if action.Some? then Some(sys.(server := action.value)) else None
  }

  function Perform(sys: System, step: Step): Option<System> {
    match step
    case Begin(p, pc) =>
      if p < |sys.processes| && sys.processes[p].pc == Idle && Entry(pc) then Some(MoveTo(sys, p, pc)) else None
    case Call(p, fate) =>
      if p < |sys.processes| then
        var (t, pc) := Advance(sys.server, sys.processes[p].config, sys.processes[p].pc, fate);
        Some(MoveTo(sys, p, pc).(server := t))
      else None
    case Crash(p) => if p < |sys.processes| then Some(MoveTo(sys, p, Idle)) else None
    case Reacts(r) => if r in sys.server.sent then OnServer(sys, React(sys.server, r)) else None
    case WorkerTimesOut(w) => OnServer(sys, TimeOutWorker(sys.server, w))
    case WorkerIsFailed(w) => OnServer(sys, ReportFailed(sys.server, w))
    case PatrolGivesUp(k, status) => OnServer(sys, GiveUpPatrol(sys.server, k, status))
  }

  /** A run of the whole system; None when some step was not possible. */
  function Run(sys: System, steps: seq<Step>): Option<System> {
    if steps == [] then Some(sys)
    else
      var before := Run(sys, steps[..|steps| - 1]);
      if before.None? then None else Perform(before.value, steps[|steps| - 1])
  }

  ghost predicate Initial(sys: System) {
    sys.server == EMPTY_SERVER
    && forall p | 0 <= p < |sys.processes| ::
         sys.processes[p].pc == Idle && sys.processes[p].config.workerId != ""
  }

  ghost predicate Reachable(sys: System) {
    exists start, steps :: Initial(start) && Run(start, steps) == Some(sys)
  }

  // ---- what a process may rely on between its calls ----

  ghost predicate IsStarted(s: Server, k: string) {
    k in s.patrols && Started(s.patrols[k])
  }

  /** The run is claimed, and by this worker. */
  ghost predicate Owns(s: Server, me: string, w: string) {
    w in s.workers && s.workers[w].claimed && s.workers[w].workerId == me
  }

  ghost predicate Assigned(s: Server, me: string, w: string, run: WorkerRun) {
    w in s.workers && s.workers[w].modelInvestigation && s.workers[w].work == run.work
    && run.work.allowedWorkerId == me
  }

  ghost predicate ScanInv(s: Server, me: string, pc: Scan) {
    match pc
    case ReadPatrol(k, e) => IsKey(k) && e.observationId != "" && e.source != ""
    case Create(k, e) => IsKey(k) && e.observationId != "" && e.source != ""
    case Request(k, e) => IsKey(k) && e.observationId != "" && e.source != ""
    case ReadWorker(k, seen) => IsStarted(s, k) && seen.workerRunId == WorkerIdOf(k)
    case Reconcile(k) => IsStarted(s, k)
    case StartClaimed(w) => Owns(s, me, w)
    case ReplayResult(_) => true
    case ReplayFailure(_) => true
  }

  ghost predicate TakeInv(s: Server, me: string, pc: Take) {
    match pc
    case ReadRunning(_) => true
    case ReadQueued(_) => true
    case ClaimRun(w, run) => Assigned(s, me, w, run)
    case StartRun(w, run) => Assigned(s, me, w, run) && Owns(s, me, w)
  }

  ghost predicate ExecutionInv(s: Server, me: string, pc: Execution) {
    Owns(s, me, pc.w)
    && (pc.BindPatrol? || pc.BindWorker? || pc.StartModel? || pc.RunAgent? ==> pc.w == WorkerIdOf(pc.k))
  }

  ghost predicate PcInv(s: Server, config: Config, pc: Pc) {
    config.workerId != ""
    && match pc
       case Idle => true
       case Scanning(scan) => ScanInv(s, config.workerId, scan)
       case Taking(take) => TakeInv(s, config.workerId, take)
       case Executing(exec) => ExecutionInv(s, config.workerId, exec)
  }

  ghost predicate Inv(sys: System) {
    ServerInv(sys.server)
    && forall p | 0 <= p < |sys.processes| :: PcInv(sys.server, sys.processes[p].config, sys.processes[p].pc)
  }

  lemma OwnsStays(s: Server, t: Server, me: string, w: string)
    requires Later(s, t) && Owns(s, me, w)
    ensures Owns(t, me, w)
  {
    assert WorkerLater(s.workers[w], t.workers[w]);
  }

  lemma PcStays(s: Server, t: Server, config: Config, pc: Pc)
    requires Later(s, t) && PcInv(s, config, pc)
    ensures PcInv(t, config, pc)
  {
    match pc {
      case Scanning(ReadWorker(k, _)) => assert PatrolLater(s.patrols[k], t.patrols[k]);
      case Scanning(Reconcile(k)) => assert PatrolLater(s.patrols[k], t.patrols[k]);
      case Scanning(StartClaimed(w)) => OwnsStays(s, t, config.workerId, w);
      case Taking(ClaimRun(w, _)) => assert WorkerLater(s.workers[w], t.workers[w]);
      case Taking(StartRun(w, _)) => assert WorkerLater(s.workers[w], t.workers[w]);
      case Executing(exec) => OwnsStays(s, t, config.workerId, exec.w);
      case _ =>
    }
  }

  /** What every call must do: keep the invariant, take nothing back, and leave the caller knowing enough. */
  ghost predicate CallSound(s: Server, config: Config, t: Server, next: Pc) {
    ServerInv(t) && Later(s, t) && PcInv(t, config, next)
  }

  lemma ScanKeeps(s: Server, config: Config, pc: Scan, fate: Fate)
    requires ServerInv(s) && config.workerId != "" && ScanInv(s, config.workerId, pc)
    requires !pc.ReadPatrol? && !pc.ReadWorker?
    ensures CallSound(s, config, AdvanceScan(s, config, pc, fate).0, AdvanceScan(s, config, pc, fate).1)
  {
    var t := AdvanceScan(s, config, pc, fate).0;
    if t != s {
      match pc
      case Create(k, _) => CreatePatrolKeeps(s, k);
      case Request(k, e) => RequestKeeps(s, k, e.observationId, e.source, AssignmentFor(k, config));
      case Reconcile(k) => ReconcileKeeps(s, k);
      case StartClaimed(w) => StartLocalKeeps(s, w, config.workerId);
      case ReplayResult(w) => ReplayResultKeeps(s, w, config.workerId);
      case ReplayFailure(w) => ReplayFailureKeeps(s, w, config.workerId);
    }
  }

  lemma PatrolReadKeeps(s: Server, config: Config, k: string, evidence: Evidence)
    requires ServerInv(s) && config.workerId != "" && IsKey(k) && evidence.observationId != "" && evidence.source != ""
    ensures PcInv(s, config, AfterPatrolRead(k, evidence, Lookup(s.patrols, k)))
  {
    if k in s.patrols {
      assert PatrolOk(s, k);
    }
  }

  lemma WorkerReadKeeps(s: Server, config: Config, k: string, seen: PatrolRun)
    requires ServerInv(s) && config.workerId != "" && IsStarted(s, k)
    ensures PcInv(s, config, AfterWorkerRead(k, seen, Lookup(s.workers, seen.workerRunId), config.workerId))
  {
    if seen.workerRunId in s.workers {
      assert WorkerOk(s, seen.workerRunId);
    }
  }

  lemma ScanReadKeeps(s: Server, config: Config, pc: Scan, fate: Fate)
    requires ServerInv(s) && config.workerId != "" && ScanInv(s, config.workerId, pc)
    requires pc.ReadPatrol? || pc.ReadWorker?
    ensures CallSound(s, config, AdvanceScan(s, config, pc, fate).0, AdvanceScan(s, config, pc, fate).1)
  {
    match pc
    case ReadPatrol(k, evidence) => PatrolReadKeeps(s, config, k, evidence);
    case ReadWorker(k, seen) => WorkerReadKeeps(s, config, k, seen);
  }

  lemma TakeReadKeeps(s: Server, config: Config, pc: Take, fate: Fate)
    requires ServerInv(s) && config.workerId != "" && (pc.ReadRunning? || pc.ReadQueued?)
    ensures CallSound(s, config, AdvanceTake(s, config, pc, fate).0, AdvanceTake(s, config, pc, fate).1)
  {
    if pc.w in s.workers {
      assert WorkerOk(s, pc.w);
      if s.workers[pc.w].modelInvestigation {
        OwnKey(s, pc.w);
      }
    }
  }

  lemma TakePostKeeps(s: Server, config: Config, pc: Take, fate: Fate, t: Server)
    requires ServerInv(s) && config.workerId != "" && TakeInv(s, config.workerId, pc)
    requires (pc.ClaimRun? || pc.StartRun?) && t == AdvanceTake(s, config, pc, fate).0
    ensures ServerInv(t) && Later(s, t) && TakeInv(t, config.workerId, pc)
  {
    if t != s {
      if pc.ClaimRun? {
        ClaimKeeps(s, pc.w, config.workerId);
      } else {
        StartLocalKeeps(s, pc.w, config.workerId);
      }
      PcStays(s, t, config, Taking(pc));
    }
  }

  lemma TakeKeeps(s: Server, config: Config, pc: Take, fate: Fate)
    requires ServerInv(s) && config.workerId != "" && TakeInv(s, config.workerId, pc)
    ensures CallSound(s, config, AdvanceTake(s, config, pc, fate).0, AdvanceTake(s, config, pc, fate).1)
  {
    if pc.ReadRunning? || pc.ReadQueued? {
      TakeReadKeeps(s, config, pc, fate);
    } else {
      var t := AdvanceTake(s, config, pc, fate).0;
      TakePostKeeps(s, config, pc, fate, t);
      OwnKey(s, pc.w);
    }
  }

  lemma ExecutionPostKeeps(s: Server, config: Config, pc: Execution, fate: Fate, t: Server)
    requires ServerInv(s) && config.workerId != "" && ExecutionInv(s, config.workerId, pc)
    requires t == AdvanceExecution(s, config, pc, fate).0
    ensures ServerInv(t) && Later(s, t)
  {
    if t != s {
      match pc
      case StartModel(w, k) => StartModelKeeps(s, k, w);
      case SendReport(w, report) => ReportKeeps(s, w, config.workerId, report);
      case SendFailure(w) => FailKeeps(s, w, config.workerId);
    }
  }

  /** An execution goes on about the same run, or ends. */
  lemma ExecutionStaysOnRun(s: Server, config: Config, pc: Execution, fate: Fate, next: Pc)
    requires next == AdvanceExecution(s, config, pc, fate).1
    requires pc.BindPatrol? || pc.BindWorker? || pc.StartModel? || pc.RunAgent? ==> pc.w == WorkerIdOf(pc.k)
    ensures next == Idle || (next.Executing? && next.exec.w == pc.w)
    ensures next.Executing?
            && (next.exec.BindPatrol? || next.exec.BindWorker? || next.exec.StartModel? || next.exec.RunAgent?)
            ==> next.exec.w == WorkerIdOf(next.exec.k)
  {
  }

  lemma ExecutionKeeps(s: Server, config: Config, pc: Execution, fate: Fate, t: Server, next: Pc)
    requires ServerInv(s) && config.workerId != "" && ExecutionInv(s, config.workerId, pc)
    requires (t, next) == AdvanceExecution(s, config, pc, fate)
    ensures CallSound(s, config, t, next)
  {
    ExecutionPostKeeps(s, config, pc, fate, t);
    ExecutionStaysOnRun(s, config, pc, fate, next);
    OwnsStays(s, t, config.workerId, pc.w);
  }

  lemma CallKeeps(s: Server, config: Config, pc: Pc, fate: Fate)
    requires ServerInv(s) && PcInv(s, config, pc)
    ensures CallSound(s, config, Advance(s, config, pc, fate).0, Advance(s, config, pc, fate).1)
  {
    match pc
    case Idle =>
    case Scanning(scan) =>
      if scan.ReadPatrol? || scan.ReadWorker? {
        ScanReadKeeps(s, config, scan, fate);
      } else {
        ScanKeeps(s, config, scan, fate);
      }
    case Taking(take) => TakeKeeps(s, config, take, fate);
    case Executing(exec) =>
      ExecutionKeeps(s, config, exec, fate, Advance(s, config, pc, fate).0, Advance(s, config, pc, fate).1);
  }

  /** What the other processes rely on is not touched by one process, or none, moving. */
  lemma ProcessesStay(sys: System, next: System, p: nat)
    requires Inv(sys) && Later(sys.server, next.server) && |next.processes| == |sys.processes|
    requires forall q | 0 <= q < |sys.processes| && q != p :: next.processes[q] == sys.processes[q]
    requires p < |sys.processes| ==> PcInv(next.server, next.processes[p].config, next.processes[p].pc)
    ensures forall q | 0 <= q < |next.processes| :: PcInv(next.server, next.processes[q].config, next.processes[q].pc)
  {
    forall q | 0 <= q < |next.processes| && q != p
      ensures PcInv(next.server, next.processes[q].config, next.processes[q].pc)
    {
      PcStays(sys.server, next.server, sys.processes[q].config, sys.processes[q].pc);
    }
  }

  /** One step of the system, whatever it is, keeps the invariant and takes nothing back. */
  lemma StepKeepsAll(sys: System, step: Step)
    requires Inv(sys) && Perform(sys, step).Some?
    ensures Inv(Perform(sys, step).value) && Later(sys.server, Perform(sys, step).value.server)
  {
    var next := Perform(sys, step).value;
    var moved := if step.Begin? || step.Call? || step.Crash? then step.p else |sys.processes|;
    match step {
      case Call(p, fate) => CallKeeps(sys.server, sys.processes[p].config, sys.processes[p].pc, fate);
      case Reacts(r) => ReactKeeps(sys.server, r);
      case WorkerTimesOut(w) => TimeOutKeeps(sys.server, w);
      case WorkerIsFailed(w) => ReportFailedKeeps(sys.server, w);
      case PatrolGivesUp(k, status) => GiveUpKeeps(sys.server, k, status);
      case _ => assert next.server == sys.server;
    }
    ProcessesStay(sys, next, moved);
  }

  lemma {:induction false} RunKeeps(sys: System, steps: seq<Step>)
    requires Inv(sys) && Run(sys, steps).Some?
    ensures Inv(Run(sys, steps).value) && Later(sys.server, Run(sys, steps).value.server)
  {
    if steps != [] {
      RunKeeps(sys, steps[..|steps| - 1]);
      var mid := Run(sys, steps[..|steps| - 1]).value;
      StepKeepsAll(mid, steps[|steps| - 1]);
      LaterTransitive(sys.server, mid.server, Run(sys, steps).value.server);
    }
  }

  lemma ReachableInv(sys: System)
    requires Reachable(sys)
    ensures Inv(sys)
  {
    var start, steps :| Initial(start) && Run(start, steps) == Some(sys);
    RunKeeps(start, steps);
  }
}
