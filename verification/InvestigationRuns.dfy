/** Runs of the step system in which one worker moves alone, and what they are in a system of many. */
module InvestigationRuns {
  import opened Text
  import opened InvestigationIds
  import opened InvestigationServer
  import opened InvestigationProtocol

  /** The call arrives and its answer comes back. */
  const ANSWERED := Fate(true, true, None)

  /** The server after a reaction was attempted. */
  function Settle(s: Server, r: Reaction): Server {
    var t := React(s, r);
    if t.Some? then t.value else s
  }

  /** Handing out an assignment: a missing WorkerRun is created first and then configured. */
  function HandOut(s: Server, p: PatrolRun): Server {
    var r := ConfigureWorker(p.workerRunId, p.work);
    Settle(if p.workerRunId in s.workers then s else Settle(s, r), r)
  }

  function Alone(config: Config, s: Server, pc: Pc): System {
    System(s, [Process(config, pc)])
  }

  /** Steps of this worker alone lead from an idle start to this server and this place in its program. */
  ghost predicate Leads(config: Config, begun: Server, s: Server, pc: Pc) {
    exists steps :: Run(Alone(config, begun, Idle), steps) == Some(Alone(config, s, pc))
  }

  lemma LeadsNowhere(config: Config, s: Server)
    ensures Leads(config, s, s, Idle)
  {
    assert Run(Alone(config, s, Idle), []) == Some(Alone(config, s, Idle));
  }

  lemma LeadsOn(config: Config, begun: Server, s: Server, pc: Pc, step: Step, t: Server, next: Pc)
    requires Leads(config, begun, s, pc) && Perform(Alone(config, s, pc), step) == Some(Alone(config, t, next))
    ensures Leads(config, begun, t, next)
  {
    var start := Alone(config, begun, Idle);
    var steps :| Run(start, steps) == Some(Alone(config, s, pc));
    var longer := steps + [step];
    assert longer[..|longer| - 1] == steps;
    assert Run(start, longer) == Some(Alone(config, t, next));
  }

  lemma LeadsBegin(config: Config, begun: Server, s: Server, pc: Pc)
    requires Leads(config, begun, s, Idle) && Entry(pc)
    ensures Leads(config, begun, s, pc)
  {
    assert MoveTo(Alone(config, s, Idle), 0, pc).processes == [Process(config, pc)];
    LeadsOn(config, begun, s, Idle, Begin(0, pc), s, pc);
  }

  lemma LeadsCall(config: Config, begun: Server, s: Server, pc: Pc, fate: Fate, t: Server, next: Pc)
    requires Leads(config, begun, s, pc) && Advance(s, config, pc, fate) == (t, next)
    ensures Leads(config, begun, t, next)
  {
    assert MoveTo(Alone(config, s, pc), 0, next).processes == [Process(config, next)];
    LeadsOn(config, begun, s, pc, Call(0, fate), t, next);
  }

  lemma LeadsReact(config: Config, begun: Server, s: Server, pc: Pc, r: Reaction)
    requires Leads(config, begun, s, pc) && r in s.sent
    ensures Leads(config, begun, Settle(s, r), pc) && Settle(s, r).sent == s.sent
  {
    if React(s, r).Some? {
      LeadsOn(config, begun, s, pc, Reacts(r), React(s, r).value, pc);
    }
  }

  lemma LeadsHandOut(config: Config, begun: Server, s: Server, pc: Pc, p: PatrolRun)
    requires Leads(config, begun, s, pc) && ConfigureWorker(p.workerRunId, p.work) in s.sent
    ensures Leads(config, begun, HandOut(s, p), pc)
  {
    var r := ConfigureWorker(p.workerRunId, p.work);
    LeadsReact(config, begun, s, pc, r);
    if p.workerRunId !in s.workers {
      LeadsReact(config, begun, Settle(s, r), pc, r);
    }
  }

  // ---- one call at a time ----

  lemma ReadPatrolLeads(config: Config, begun: Server, s: Server, k: string, evidence: Evidence)
    requires Leads(config, begun, s, Scanning(ReadPatrol(k, evidence)))
    ensures Leads(config, begun, s,
                  if |evidence.source| <= 65536 then AfterPatrolRead(k, evidence, Lookup(s.patrols, k)) else Idle)
  {
    LeadsCall(config, begun, s, Scanning(ReadPatrol(k, evidence)), ANSWERED, s,
              if |evidence.source| <= 65536 then AfterPatrolRead(k, evidence, Lookup(s.patrols, k)) else Idle);
  }

  lemma ReadWorkerLeads(config: Config, begun: Server, s: Server, k: string, seen: PatrolRun)
    requires Leads(config, begun, s, Scanning(ReadWorker(k, seen)))
    ensures Leads(config, begun, s, AfterWorkerRead(k, seen, Lookup(s.workers, seen.workerRunId), config.workerId))
  {
    LeadsCall(config, begun, s, Scanning(ReadWorker(k, seen)), ANSWERED, s,
              AfterWorkerRead(k, seen, Lookup(s.workers, seen.workerRunId), config.workerId));
  }

  lemma ReadRunningLeads(config: Config, begun: Server, s: Server, w: string)
    requires Leads(config, begun, s, Taking(ReadRunning(w)))
    ensures Leads(config, begun, s,
                  if w in s.workers && RecoverableBy(s.workers[w], config) then AfterTask(w, s.workers[w]) else Idle)
  {
    LeadsCall(config, begun, s, Taking(ReadRunning(w)), ANSWERED, s,
              if w in s.workers && RecoverableBy(s.workers[w], config) then AfterTask(w, s.workers[w]) else Idle);
  }

  lemma ReadQueuedLeads(config: Config, begun: Server, s: Server, w: string)
    requires Leads(config, begun, s, Taking(ReadQueued(w)))
    ensures Leads(config, begun, s,
                  if w in s.workers && ClaimableBy(s.workers[w], config) then Taking(ClaimRun(w, s.workers[w]))
                  else Idle)
  {
    LeadsCall(config, begun, s, Taking(ReadQueued(w)), ANSWERED, s,
              if w in s.workers && ClaimableBy(s.workers[w], config) then Taking(ClaimRun(w, s.workers[w])) else Idle);
  }

  lemma BindLeads(config: Config, begun: Server, s: Server, w: string, k: string)
    requires Leads(config, begun, s, Executing(BindPatrol(w, k))) && k in s.patrols
    ensures Leads(config, begun, s, Executing(AfterBinding(w, k, s.patrols[k], Lookup(s.workers, w))))
  {
    var next := Executing(BindWorker(w, k, s.patrols[k]));
    LeadsCall(config, begun, s, Executing(BindPatrol(w, k)), ANSWERED, s, next);
    LeadsCall(config, begun, s, next, ANSWERED, s, Executing(AfterBinding(w, k, s.patrols[k], Lookup(s.workers, w))));
  }

  lemma AgentLeads(config: Config, begun: Server, s: Server, w: string, k: string, result: Option<Report>)
    requires Leads(config, begun, s, Executing(RunAgent(w, k)))
    ensures Leads(config, begun, s, Executing(if result.Some? then SendReport(w, result.value) else SendFailure(w)))
  {
    LeadsCall(config, begun, s, Executing(RunAgent(w, k)), Fate(true, true, result), s,
              Executing(if result.Some? then SendReport(w, result.value) else SendFailure(w)));
  }

  /** A posted action moves the worker on; refused, it leaves the server as it was. */
  lemma PostLeads(config: Config, begun: Server, s: Server, pc: Pc, action: Option<Server>, next: Pc, failed: Pc)
    requires Leads(config, begun, s, pc) && Advance(s, config, pc, ANSWERED) == Post(s, action, ANSWERED, next, failed)
    ensures action.Some? ==> Leads(config, begun, action.value, next)
    ensures action.None? ==> Leads(config, begun, s, failed)
  {
    LeadsCall(config, begun, s, pc, ANSWERED, if action.Some? then action.value else s,
              if action.Some? then next else failed);
  }

  lemma StartModelLeads(config: Config, begun: Server, s: Server, w: string, k: string, mid: Option<Server>)
    requires Leads(config, begun, s, Executing(StartModel(w, k))) && mid == StartModelInvestigation(s, k, w)
    ensures mid.Some? ==> Leads(config, begun, mid.value, Executing(RunAgent(w, k)))
    ensures mid.None? ==> Leads(config, begun, s, Executing(SendFailure(w)))
  {
    PostLeads(config, begun, s, Executing(StartModel(w, k)), mid, Executing(RunAgent(w, k)), Executing(SendFailure(w)));
  }

  lemma ClaimLeads(config: Config, begun: Server, s: Server, w: string, run: WorkerRun, mid: Option<Server>)
    requires Leads(config, begun, s, Taking(ClaimRun(w, run))) && mid == Claim(s, w, config.workerId)
    ensures mid.Some? ==> Leads(config, begun, mid.value, Taking(StartRun(w, run)))
    ensures mid.None? ==> Leads(config, begun, s, Idle)
  {
    PostLeads(config, begun, s, Taking(ClaimRun(w, run)), mid, Taking(StartRun(w, run)), Idle);
  }

  predicate StartsAt(pc: Pc, w: string, next: Pc) {
    match pc
    case Scanning(StartClaimed(v)) => v == w && next == Taking(ReadRunning(w))
    case Taking(StartRun(v, run)) => v == w && next == AfterTask(w, run)
    case _ => false
  }

  lemma StartLeads(config: Config, begun: Server, s: Server, pc: Pc, w: string, mid: Option<Server>, next: Pc)
    requires Leads(config, begun, s, pc) && StartsAt(pc, w, next) && mid == StartLocal(s, w, config.workerId)
    ensures mid.Some? ==> Leads(config, begun, mid.value, next)
    ensures mid.None? ==> Leads(config, begun, s, Idle)
  {
    PostLeads(config, begun, s, pc, mid, next, Idle);
  }

  lemma CreateLeads(config: Config, begun: Server, s: Server, k: string, e: Evidence, mid: Option<Server>)
    requires Leads(config, begun, s, Scanning(Create(k, e))) && mid == CreatePatrol(s, k)
    ensures mid.Some? ==> Leads(config, begun, mid.value, Scanning(Request(k, e)))
    ensures mid.None? ==> Leads(config, begun, s, Idle)
  {
    PostLeads(config, begun, s, Scanning(Create(k, e)), mid, Scanning(Request(k, e)), Idle);
  }

  lemma ReportLeads(config: Config, begun: Server, s: Server, w: string, k: string, report: Report, mid: Option<Server>)
    requires Leads(config, begun, s, Executing(SendReport(w, report)))
    requires w in s.workers && k == s.workers[w].work.patrolRunId
    requires mid == ReportInvestigation(s, w, config.workerId, report)
    ensures mid.Some? ==> Leads(config, begun, Settle(mid.value, CompletePatrol(k, w, report)), Idle)
    ensures mid.None? ==> Leads(config, begun, s, Executing(SendFailure(w)))
  {
    PostLeads(config, begun, s, Executing(SendReport(w, report)), mid, Idle, Executing(SendFailure(w)));
    if mid.Some? {
      LeadsReact(config, begun, mid.value, Idle, CompletePatrol(k, w, report));
    }
  }

  lemma FailureLeads(config: Config, begun: Server, s: Server, w: string, k: string, mid: Option<Server>)
    requires Leads(config, begun, s, Executing(SendFailure(w))) && w in s.workers && k == s.workers[w].work.patrolRunId
    requires mid == FailInvestigation(s, w, config.workerId)
    ensures Leads(config, begun, if mid.Some? then Settle(mid.value, FailPatrol(k, w)) else s, Idle)
  {
    PostLeads(config, begun, s, Executing(SendFailure(w)), mid, Idle, Idle);
    if mid.Some? {
      LeadsReact(config, begun, mid.value, Idle, FailPatrol(k, w));
    }
  }

  lemma RequestLeads(config: Config, begun: Server, s: Server, k: string, e: Evidence, mid: Option<Server>)
    requires Leads(config, begun, s, Scanning(Request(k, e)))
    requires mid == RequestModelInvestigation(
                      s, k, k, e.observationId, e.source, WorkerIdOf(k), AssignmentFor(k, config))
    ensures mid.Some? ==> k in mid.value.patrols && Leads(config, begun, HandOut(mid.value, mid.value.patrols[k]), Idle)
    ensures mid.None? ==> Leads(config, begun, s, Idle)
  {
    PostLeads(config, begun, s, Scanning(Request(k, e)), mid, Idle, Idle);
    if mid.Some? {
      LeadsHandOut(config, begun, mid.value, Idle, mid.value.patrols[k]);
    }
  }

  lemma ReconcileLeads(config: Config, begun: Server, s: Server, k: string, mid: Option<Server>)
    requires Leads(config, begun, s, Scanning(Reconcile(k))) && mid == ReconcileModelWorker(s, k)
    ensures mid.Some? ==> k in mid.value.patrols && Leads(config, begun, HandOut(mid.value, mid.value.patrols[k]), Idle)
    ensures mid.None? ==> Leads(config, begun, s, Idle)
  {
    PostLeads(config, begun, s, Scanning(Reconcile(k)), mid, Idle, Idle);
    if mid.Some? {
      LeadsHandOut(config, begun, mid.value, Idle, mid.value.patrols[k]);
    }
  }

  lemma ReplayResultLeads(config: Config, begun: Server, s: Server, w: string, k: string, mid: Option<Server>)
    requires Leads(config, begun, s, Scanning(ReplayResult(w))) && w in s.workers
    requires s.workers[w].modelInvestigation ==> k == s.workers[w].work.patrolRunId
    requires mid == ReplayInvestigationResult(s, w, config.workerId)
    ensures Leads(config, begun,
                  if mid.Some? then Settle(mid.value, CompletePatrol(k, w, s.workers[w].report)) else s, Idle)
  {
    PostLeads(config, begun, s, Scanning(ReplayResult(w)), mid, Idle, Idle);
    if mid.Some? {
      LeadsReact(config, begun, mid.value, Idle, CompletePatrol(k, w, s.workers[w].report));
    }
  }

  lemma ReplayFailureLeads(config: Config, begun: Server, s: Server, w: string, k: string, mid: Option<Server>)
    requires Leads(config, begun, s, Scanning(ReplayFailure(w))) && w in s.workers
    requires s.workers[w].modelInvestigation ==> k == s.workers[w].work.patrolRunId
    requires mid == ReplayInvestigationFailure(s, w, config.workerId)
    ensures Leads(config, begun, if mid.Some? then Settle(mid.value, FailPatrol(k, w)) else s, Idle)
  {
    PostLeads(config, begun, s, Scanning(ReplayFailure(w)), mid, Idle, Idle);
    if mid.Some? {
      LeadsReact(config, begun, mid.value, Idle, FailPatrol(k, w));
    }
  }

  // ---- the same run among other workers ----

  /** The step with the lone worker's number replaced by p. */
  function Lifted(step: Step, p: nat): Step {
    match step
    case Begin(_, pc) => Begin(p, pc)
    case Call(_, fate) => Call(p, fate)
    case Crash(_) => Crash(p)
    case _ => step
  }

  function Among(sys: System, p: nat, alone: System): System
    requires p < |sys.processes| && |alone.processes| == 1
  {
    System(alone.server, sys.processes[p := alone.processes[0]])
  }

  lemma LiftStep(sys: System, p: nat, alone: System, step: Step)
    requires p < |sys.processes| && |alone.processes| == 1 && Perform(alone, step).Some?
    ensures |Perform(alone, step).value.processes| == 1
    ensures Perform(Among(sys, p, alone), Lifted(step, p)) == Some(Among(sys, p, Perform(alone, step).value))
  {
    var here, there := Perform(alone, step).value, Among(sys, p, alone);
    assert there.processes[p] == alone.processes[0];
    assert there.processes[p := here.processes[0]] == sys.processes[p := here.processes[0]];
  }

  lemma {:induction false} LiftRun(
    start: System, sys: System, before: seq<Step>, p: nat, alone: System, steps: seq<Step>)
    returns (all: seq<Step>)
    requires p < |sys.processes| && |alone.processes| == 1 && Run(alone, steps).Some?
    requires Run(start, before) == Some(Among(sys, p, alone))
    ensures |Run(alone, steps).value.processes| == 1
    ensures Run(start, all) == Some(Among(sys, p, Run(alone, steps).value))
  {
    if steps == [] {
      all := before;
    } else {
      var front, last := steps[..|steps| - 1], steps[|steps| - 1];
      all := LiftRun(start, sys, before, p, alone, front);
      LiftStep(sys, p, Run(alone, front).value, last);
      var longer := all + [Lifted(last, p)];
      assert longer[..|longer| - 1] == all;
      all := longer;
    }
  }

  /** What one worker does alone, it can do among any number of others: the state it leaves is a reachable one. */
  lemma LeadsToReachable(sys: System, p: nat, t: Server)
    requires Reachable(sys) && p < |sys.processes| && sys.processes[p].pc == Idle
    requires Leads(sys.processes[p].config, sys.server, t, Idle)
    ensures Reachable(sys.(server := t))
  {
    var config := sys.processes[p].config;
    var start, before :| Initial(start) && Run(start, before) == Some(sys);
    var alone := Alone(config, sys.server, Idle);
    var steps :| Run(alone, steps) == Some(Alone(config, t, Idle));
    assert sys.processes[p := alone.processes[0]] == sys.processes;
    var all := LiftRun(start, sys, before, p, alone, steps);
    assert Run(start, all) == Some(sys.(server := t));
  }
}
