/** What the investigation protocol promises over every interleaving, crash and lost call. */
module InvestigationSafety {
  import opened Text
  import opened InvestigationIds
  import opened InvestigationServer
  import opened InvestigationInvariant
  import opened InvestigationProtocol

  /** One PatrolRun and one WorkerRun per fingerprint, created at most once each. */
  lemma OneRunPerFingerprint(sys: System, k: string, w: string)
    requires Reachable(sys)
    ensures sys.server.creations[OfPatrol(k)] <= 1 && sys.server.creations[OfWorker(w)] <= 1
    ensures w in sys.server.workers ==> w == WorkerIdOf(KeyOf(w)) && KeyOf(w) in sys.server.patrols
    ensures w in sys.server.workers && sys.server.workers[w].work.patrolRunId == k && k != "" ==> w == WorkerIdOf(k)
  {
    ReachableInv(sys);
    if w in sys.server.workers {
      assert WorkerOk(sys.server, w);
      if sys.server.workers[w].modelInvestigation {
        OwnKey(sys.server, w);
      }
    }
  }

  /** Whoever asked for the investigation, the WorkerRun it names is the one its key yields. */
  lemma RecordedWorkerIsDerived(sys: System, k: string)
    requires Reachable(sys) && k in sys.server.patrols && sys.server.patrols[k].workerRunId != ""
    ensures sys.server.patrols[k].workerRunId == WorkerIdOf(k)
    ensures sys.server.patrols[k].work.patrolRunId == k && sys.server.patrols[k].work.task == Investigate(k)
  {
    ReachableInv(sys);
    assert PatrolOk(sys.server, k);
  }

  /** A settled investigation is never rewritten, and an assignment is never replaced. */
  lemma SettledNeverRewritten(sys: System, steps: seq<Step>, k: string)
    requires Reachable(sys) && Run(sys, steps).Some? && k in sys.server.patrols
    ensures k in Run(sys, steps).value.server.patrols
    ensures Settled(sys.server.patrols[k].status) ==> Run(sys, steps).value.server.patrols[k] == sys.server.patrols[k]
    ensures Started(sys.server.patrols[k]) ==>
              Run(sys, steps).value.server.patrols[k].work == sys.server.patrols[k].work
              && Run(sys, steps).value.server.patrols[k].sourceEvidence == sys.server.patrols[k].sourceEvidence
  {
    ReachableInv(sys);
    RunKeeps(sys, steps);
    assert PatrolLater(sys.server.patrols[k], Run(sys, steps).value.server.patrols[k]);
  }

  /** A completed investigation holds exactly the evidence its own WorkerRun reported. */
  lemma EvidenceComesFromItsWorker(sys: System, k: string)
    requires Reachable(sys) && k in sys.server.patrols && sys.server.patrols[k].status == PatrolComplete
    ensures WorkerIdOf(k) in sys.server.workers && sys.server.workers[WorkerIdOf(k)].status == RunDone
    ensures sys.server.patrols[k].report == sys.server.workers[WorkerIdOf(k)].report
    ensures sys.server.patrols[k].report.evidence != ""
    ensures sys.server.workers[WorkerIdOf(k)].workerId == sys.server.patrols[k].work.allowedWorkerId
  {
    ReachableInv(sys);
    assert PatrolOk(sys.server, k);
    assert WorkerOk(sys.server, WorkerIdOf(k));
    WorkerIdInvertible(k);
  }

  /** Two processes with different worker ids are never executing the same run. */
  lemma ExecutionIsExclusive(sys: System, p: nat, q: nat)
    requires Reachable(sys) && p < |sys.processes| && q < |sys.processes|
    requires sys.processes[p].config.workerId != sys.processes[q].config.workerId
    requires sys.processes[p].pc.Executing? && sys.processes[q].pc.Executing?
    ensures sys.processes[p].pc.exec.w != sys.processes[q].pc.exec.w
  {
    ReachableInv(sys);
    assert PcInv(sys.server, sys.processes[p].config, sys.processes[p].pc);
    assert PcInv(sys.server, sys.processes[q].config, sys.processes[q].pc);
  }

  /** Rescanning an investigation that is over is one read and no write. */
  lemma RescanOfSettledWritesNothing(s: Server, config: Config, k: string, evidence: Evidence, fate: Fate)
    requires k in s.patrols && Settled(s.patrols[k].status)
    ensures Advance(s, config, Scanning(ReadPatrol(k, evidence)), fate) == (s, Idle)
  {
  }

  // ---- the one way an investigation is stranded ----

  /** The run timed out before anybody claimed it, while its investigation waits. */
  ghost predicate Stranded(s: Server, k: string) {
    var w := WorkerIdOf(k);
    k in s.patrols && s.patrols[k].status == PatrolQueued && s.patrols[k].workerRunId == w
    && w in s.workers && s.workers[w].status == RunTimedOut && !s.workers[w].claimed
  }

  lemma StrandedAfterScan(s: Server, config: Config, pc: Scan, fate: Fate, k: string)
    requires config.workerId != "" && Stranded(s, k) && WorkerOk(s, WorkerIdOf(k))
    ensures Stranded(AdvanceScan(s, config, pc, fate).0, k)
  {
  }

  lemma StrandedAfterTake(s: Server, config: Config, pc: Take, fate: Fate, k: string)
    requires Stranded(s, k)
    ensures Stranded(AdvanceTake(s, config, pc, fate).0, k)
  {
  }

  lemma StrandedAfterExecution(s: Server, config: Config, pc: Execution, fate: Fate, k: string)
    requires Stranded(s, k) && ExecutionInv(s, config.workerId, pc)
    ensures Stranded(AdvanceExecution(s, config, pc, fate).0, k)
  {
  }

  lemma StrandedAfterReaction(s: Server, r: Reaction, k: string)
    requires Stranded(s, k) && ReactionOk(s, r) && React(s, r).Some?
    ensures Stranded(React(s, r).value, k)
  {
  }

  lemma StrandedAfterTimeOut(s: Server, w: string, k: string)
    requires Stranded(s, k) && TimeOutWorker(s, w).Some?
    ensures Stranded(TimeOutWorker(s, w).value, k)
  {
  }

  lemma StrandedAfterFailure(s: Server, w: string, k: string)
    requires Stranded(s, k) && ReportFailed(s, w).Some?
    ensures Stranded(ReportFailed(s, w).value, k)
  {
  }

  lemma StrandedAfterCall(s: Server, config: Config, pc: Pc, fate: Fate, k: string)
    requires ServerInv(s) && PcInv(s, config, pc) && Stranded(s, k)
    ensures Stranded(Advance(s, config, pc, fate).0, k)
  {
    match pc
    case Idle =>
    case Scanning(scan) =>
      assert WorkerOk(s, WorkerIdOf(k));
      StrandedAfterScan(s, config, scan, fate, k);
    case Taking(take) => StrandedAfterTake(s, config, take, fate, k);
    case Executing(exec) => StrandedAfterExecution(s, config, exec, fate, k);
  }

  lemma StrandedAfterStep(sys: System, step: Step, k: string)
    requires Inv(sys) && Stranded(sys.server, k) && Perform(sys, step).Some?
    requires !(step.PatrolGivesUp? && step.k == k)
    ensures Stranded(Perform(sys, step).value.server, k)
  {
    var s := sys.server;
    match step {
      case Call(p, fate) =>
        assert PcInv(s, sys.processes[p].config, sys.processes[p].pc);
        StrandedAfterCall(s, sys.processes[p].config, sys.processes[p].pc, fate, k);
      case Reacts(r) => StrandedAfterReaction(s, r, k);
      case WorkerTimesOut(w) => StrandedAfterTimeOut(s, w, k);
      case WorkerIsFailed(w) => StrandedAfterFailure(s, w, k);
      case _ =>
    }
  }

  /** No scan, claim, recovery, reaction or restart by any number of workers ever settles it again. */
  lemma {:induction false} StrandedForEver(sys: System, steps: seq<Step>, k: string)
    requires Inv(sys) && Stranded(sys.server, k) && Run(sys, steps).Some?
    requires forall i | 0 <= i < |steps| :: !(steps[i].PatrolGivesUp? && steps[i].k == k)
    ensures Stranded(Run(sys, steps).value.server, k)
  {
    if steps != [] {
      var before := steps[..|steps| - 1];
      StrandedForEver(sys, before, k);
      RunKeeps(sys, before);
      StrandedAfterStep(Run(sys, before).value, steps[|steps| - 1], k);
    }
  }
}
