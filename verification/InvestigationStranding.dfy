/**
 * The exact limit of recovery: which open investigations the worker they were
 * handed to can no longer bring to an end, and that such a state does occur.
 */
module InvestigationStranding {
  import opened Text
  import opened InvestigationIds
  import opened InvestigationServer
  import opened InvestigationInvariant
  import opened InvestigationProtocol
  import opened InvestigationSafety
  import opened InvestigationPass

  /** A worker is refused its own open investigation exactly when the run timed out before anybody claimed it. */
  lemma RefusedToItsWorkerIffStranded(sys: System, k: string, me: string)
    requires Reachable(sys) && k in sys.server.patrols && Open(sys.server.patrols[k].status)
    requires sys.server.patrols[k].work.allowedWorkerId == me
    ensures Refused(sys.server, k, me) <==> Stranded(sys.server, k)
  {
    ReachableInv(sys);
    assert PatrolOk(sys.server, k);
    var w := WorkerIdOf(k);
    if w in sys.server.workers {
      WorkerIdInvertible(k);
      assert WorkerOk(sys.server, w);
    }
  }

  /** Once stranded it is refused to every worker, so every pass of every worker that scans it is aborted. */
  lemma StrandedIsRefusedToAll(s: Server, k: string, me: string)
    requires ServerInv(s) && Stranded(s, k) && me != ""
    ensures Refused(s, k, me)
  {
    KeyReadsBack(s, k);
    assert WorkerOk(s, WorkerIdOf(k));
  }

  lemma KeyReadsBack(s: Server, k: string)
    requires ServerInv(s) && k in s.patrols
    ensures KeyOf(WorkerIdOf(k)) == k
  {
    assert PatrolOk(s, k);
    WorkerIdInvertible(k);
  }

  lemma ReachableStep(sys: System, step: Step)
    requires Reachable(sys) && Perform(sys, step).Some?
    ensures Reachable(Perform(sys, step).value)
  {
    var start, steps :| Initial(start) && Run(start, steps) == Some(sys);
    var longer := steps + [step];
    assert longer[..|longer| - 1] == steps;
    assert Run(start, longer) == Perform(sys, step);
  }

  const DELIVERED := Fate(true, true, None)

  /** One worker scans a fingerprint it has not seen before, and its queued run is left waiting until it times out. */
  lemma StrandingHappens(k: string, config: Config, evidence: Evidence)
    requires IsKey(k) && config.workerId != "" && evidence.observationId != ""
    requires 0 < |evidence.source| <= 65536
    ensures exists sys :: Reachable(sys) && Stranded(sys.server, k)
  {
    var w := WorkerIdOf(k);
    var s0 := System(EMPTY_SERVER, [Process(config, Idle)]);
    assert Run(s0, []) == Some(s0);
    var s1 := MoveTo(s0, 0, Scanning(ReadPatrol(k, evidence)));
    assert Perform(s0, Begin(0, Scanning(ReadPatrol(k, evidence)))) == Some(s1);
    ReachableStep(s0, Begin(0, Scanning(ReadPatrol(k, evidence))));
    var s2 := Perform(s1, Call(0, DELIVERED)).value;
    ReachableStep(s1, Call(0, DELIVERED));
    assert s2.server == EMPTY_SERVER && s2.processes[0].pc == Scanning(Create(k, evidence));
    var s3 := Perform(s2, Call(0, DELIVERED)).value;
    ReachableStep(s2, Call(0, DELIVERED));
    assert s3.processes[0].pc == Scanning(Request(k, evidence)) && s3.server.patrols[k] == NEW_PATROL;
    var s4 := Perform(s3, Call(0, DELIVERED)).value;
    ReachableStep(s3, Call(0, DELIVERED));
    StrandsOnceRequested(s4, k, w, AssignmentFor(k, config));
  }

  lemma StrandsOnceRequested(sys: System, k: string, w: string, work: Assignment)
    requires Reachable(sys) && k in sys.server.patrols && sys.server.patrols[k].status == PatrolQueued
    requires w == WorkerIdOf(k) && sys.server.patrols[k].workerRunId == w && w !in sys.server.workers
    requires work.patrolRunId == k && ConfigureWorker(w, work) in sys.server.sent
    ensures exists late :: Reachable(late) && Stranded(late.server, k)
  {
    var r := ConfigureWorker(w, work);
    var s5 := Perform(sys, Reacts(r)).value;
    ReachableStep(sys, Reacts(r));
    ReachableInv(sys);
    assert PatrolOk(sys.server, k);
    var s6 := Perform(s5, Reacts(r)).value;
    ReachableStep(s5, Reacts(r));
    var s7 := Perform(s6, WorkerTimesOut(w)).value;
    ReachableStep(s6, WorkerTimesOut(w));
    assert Stranded(s7.server, k);
  }
}
