/** What holds of the server in every reachable state, and how one state may follow another. */
module InvestigationInvariant {
  import opened Text
  import opened InvestigationIds
  import opened InvestigationServer

  predicate Started(p: PatrolRun) {
    p.workerRunId != ""
  }

  predicate AssignedTo(work: Assignment, k: string) {
    work.patrolRunId == k && work.task == Investigate(k) && work.branchName == "codex/" + k
    && work.allowedWorkerId != "" && work.runnerKind == LOCAL_CODEX
  }

  ghost predicate PatrolOk(s: Server, k: string)
    requires k in s.patrols
  {
    var p := s.patrols[k];
    var w := WorkerIdOf(k);
    && IsKey(k)
    && (Started(p) ==> p.workerRunId == w && p.observationId != "" && AssignedTo(p.work, k))
    && (p.status == PatrolCreated ==> !Started(p))
    && (Open(p.status) || p.status == PatrolComplete ==> Started(p))
    && (p.status == PatrolRunning ==> w in s.workers && s.workers[w].claimed)
    && (p.status == PatrolComplete ==>
          w in s.workers && s.workers[w].status == RunDone && p.report == s.workers[w].report)
  }

  ghost predicate WorkerOk(s: Server, w: string)
    requires w in s.workers
  {
    var k := KeyOf(w);
    var run := s.workers[w];
    && k in s.patrols && w == WorkerIdOf(k) && Started(s.patrols[k])
    && run.requiredCapabilities == {LOCAL_CODEX}
    && run.work == (if run.modelInvestigation then s.patrols[k].work else UNASSIGNED)
    && (run.claimed ==> run.modelInvestigation && run.workerId == run.work.allowedWorkerId)
    && (!run.claimed ==> run.workerId == "" && run.status in {RunQueued, RunTimedOut})
    && (run.claimed ==> run.status != RunQueued)
    && (run.status == RunDone ==> run.report.evidence != "")
  }

  ghost predicate ReactionOk(s: Server, r: Reaction) {
    match r
    case ConfigureWorker(w, work) =>
      work.patrolRunId in s.patrols && Started(s.patrols[work.patrolRunId])
      && w == WorkerIdOf(work.patrolRunId) && work == s.patrols[work.patrolRunId].work
    case CompletePatrol(k, w, report) =>
      w in s.workers && w == WorkerIdOf(k) && IsKey(k) && s.workers[w].status == RunDone
      && report == s.workers[w].report
    case FailPatrol(k, w) =>
      w in s.workers && w == WorkerIdOf(k) && IsKey(k) && s.workers[w].status == RunFailed
  }

  /** Every id has been created as often as it exists: once or never. */
  ghost predicate CreatedOnce(s: Server) {
    && (forall k :: s.creations[OfPatrol(k)] == if k in s.patrols then 1 else 0)
    && (forall w :: s.creations[OfWorker(w)] == if w in s.workers then 1 else 0)
  }

  ghost predicate ServerInv(s: Server) {
    && (forall k | k in s.patrols :: PatrolOk(s, k))
    && (forall w | w in s.workers :: WorkerOk(s, w))
    && (forall r | r in s.sent :: ReactionOk(s, r))
    && CreatedOnce(s)
  }

  predicate PatrolLater(p: PatrolRun, q: PatrolRun) {
    && (Started(p) ==> q.workerRunId == p.workerRunId && q.work == p.work
                       && q.observationId == p.observationId && q.sourceEvidence == p.sourceEvidence)
    && (p.status != PatrolCreated ==> q.status != PatrolCreated)
    && (Settled(p.status) ==> q == p)
  }

  predicate WorkerLater(r: WorkerRun, q: WorkerRun) {
    && (r.modelInvestigation ==> q.modelInvestigation && q.work == r.work)
    && (r.claimed ==> q.claimed && q.workerId == r.workerId)
    && (r.status != RunQueued ==> q.status != RunQueued)
    && (r.status in {RunDone, RunFailed} ==> q == r)
  }

  /** Nothing the protocol relies on is ever taken back. */
  ghost predicate Later(s: Server, t: Server) {
    && (forall k | k in s.patrols :: k in t.patrols && PatrolLater(s.patrols[k], t.patrols[k]))
    && (forall w | w in s.workers :: w in t.workers && WorkerLater(s.workers[w], t.workers[w]))
  }

  lemma LaterTransitive(s: Server, t: Server, u: Server)
    requires Later(s, t) && Later(t, u)
    ensures Later(s, u)
  {
    forall k | k in s.patrols ensures k in u.patrols && PatrolLater(s.patrols[k], u.patrols[k]) {
      assert PatrolLater(s.patrols[k], t.patrols[k]) && PatrolLater(t.patrols[k], u.patrols[k]);
    }
    forall w | w in s.workers ensures w in u.workers && WorkerLater(s.workers[w], u.workers[w]) {
      assert WorkerLater(s.workers[w], t.workers[w]) && WorkerLater(t.workers[w], u.workers[w]);
    }
  }

  // ---- what is true of one record stays true while others change ----

  lemma PatrolStays(s: Server, t: Server, k: string)
    requires Later(s, t) && k in s.patrols && PatrolOk(s, k) && t.patrols[k] == s.patrols[k]
    ensures PatrolOk(t, k)
  {
  }

  lemma WorkerStays(s: Server, t: Server, w: string)
    requires Later(s, t) && w in s.workers && WorkerOk(s, w) && t.workers[w] == s.workers[w]
    ensures WorkerOk(t, w)
  {
    var k := KeyOf(w);
    assert PatrolLater(s.patrols[k], t.patrols[k]);
  }

  lemma ReactionStays(s: Server, t: Server, r: Reaction)
    requires Later(s, t) && ReactionOk(s, r)
    ensures ReactionOk(t, r)
  {
    match r
    case ConfigureWorker(w, work) => assert PatrolLater(s.patrols[work.patrolRunId], t.patrols[work.patrolRunId]);
    case CompletePatrol(k, w, report) => assert WorkerLater(s.workers[w], t.workers[w]);
    case FailPatrol(k, w) => assert WorkerLater(s.workers[w], t.workers[w]);
  }

  /** A step is sound when what it changed is sound afterwards. */
  lemma StepKeeps(s: Server, t: Server)
    requires ServerInv(s) && Later(s, t) && CreatedOnce(t)
    requires forall k | k in t.patrols && !(k in s.patrols && t.patrols[k] == s.patrols[k]) :: PatrolOk(t, k)
    requires forall w | w in t.workers && !(w in s.workers && t.workers[w] == s.workers[w]) :: WorkerOk(t, w)
    requires forall r | r in t.sent && r !in s.sent :: ReactionOk(t, r)
    ensures ServerInv(t)
  {
    forall k | k in t.patrols ensures PatrolOk(t, k) {
      if k in s.patrols && t.patrols[k] == s.patrols[k] {
        PatrolStays(s, t, k);
      }
    }
    forall w | w in t.workers ensures WorkerOk(t, w) {
      if w in s.workers && t.workers[w] == s.workers[w] {
        WorkerStays(s, t, w);
      }
    }
    forall r | r in t.sent ensures ReactionOk(t, r) {
      if r in s.sent {
        ReactionStays(s, t, r);
      }
    }
  }

  lemma PatrolStepKeeps(s: Server, t: Server, k: string)
    requires ServerInv(s) && k in t.patrols && t.patrols == s.patrols[k := t.patrols[k]] && t.workers == s.workers
    requires k in s.patrols ==> PatrolLater(s.patrols[k], t.patrols[k])
    requires PatrolOk(t, k) && CreatedOnce(t)
    requires forall r | r in t.sent && r !in s.sent :: ReactionOk(t, r)
    ensures ServerInv(t) && Later(s, t)
  {
    assert Later(s, t) by {
      forall j | j in s.patrols ensures j in t.patrols && PatrolLater(s.patrols[j], t.patrols[j]) {
        assert j != k ==> t.patrols[j] == s.patrols[j];
      }
    }
    StepKeeps(s, t);
  }

  lemma WorkerStepKeeps(s: Server, t: Server, w: string)
    requires ServerInv(s) && w in t.workers && t.workers == s.workers[w := t.workers[w]] && t.patrols == s.patrols
    requires w in s.workers ==> WorkerLater(s.workers[w], t.workers[w])
    requires WorkerOk(t, w) && CreatedOnce(t)
    requires forall r | r in t.sent && r !in s.sent :: ReactionOk(t, r)
    ensures ServerInv(t) && Later(s, t)
  {
    assert Later(s, t) by {
      forall v | v in s.workers ensures v in t.workers && WorkerLater(s.workers[v], t.workers[v]) {
        assert v != w ==> t.workers[v] == s.workers[v];
      }
    }
    StepKeeps(s, t);
  }

  // ---- every server action keeps the invariant ----

  lemma CreatePatrolKeeps(s: Server, k: string)
    requires ServerInv(s) && IsKey(k) && CreatePatrol(s, k).Some?
    ensures ServerInv(CreatePatrol(s, k).value) && Later(s, CreatePatrol(s, k).value)
  {
    PatrolStepKeeps(s, CreatePatrol(s, k).value, k);
  }

  lemma RequestKeeps(s: Server, k: string, obs: string, ev: string, work: Assignment)
    requires ServerInv(s) && AssignedTo(work, k)
    requires RequestModelInvestigation(s, k, k, obs, ev, WorkerIdOf(k), work).Some?
    ensures ServerInv(RequestModelInvestigation(s, k, k, obs, ev, WorkerIdOf(k), work).value)
    ensures Later(s, RequestModelInvestigation(s, k, k, obs, ev, WorkerIdOf(k), work).value)
  {
    assert PatrolOk(s, k);
    WorkerIdInvertible(k);
    PatrolStepKeeps(s, RequestModelInvestigation(s, k, k, obs, ev, WorkerIdOf(k), work).value, k);
  }

  lemma ReconcileKeeps(s: Server, k: string)
    requires ServerInv(s) && ReconcileModelWorker(s, k).Some?
    ensures ServerInv(ReconcileModelWorker(s, k).value) && Later(s, ReconcileModelWorker(s, k).value)
  {
    var t := ReconcileModelWorker(s, k).value;
    assert PatrolOk(s, k);
    assert t.patrols == s.patrols[k := t.patrols[k]];
    PatrolStepKeeps(s, t, k);
  }

  lemma StartModelKeeps(s: Server, k: string, w: string)
    requires ServerInv(s) && StartModelInvestigation(s, k, w).Some? && w in s.workers && s.workers[w].claimed
    ensures ServerInv(StartModelInvestigation(s, k, w).value) && Later(s, StartModelInvestigation(s, k, w).value)
  {
    assert PatrolOk(s, k);
    PatrolStepKeeps(s, StartModelInvestigation(s, k, w).value, k);
  }

  lemma GiveUpKeeps(s: Server, k: string, status: PatrolStatus)
    requires ServerInv(s) && GiveUpPatrol(s, k, status).Some?
    ensures ServerInv(GiveUpPatrol(s, k, status).value) && Later(s, GiveUpPatrol(s, k, status).value)
  {
    assert PatrolOk(s, k);
    PatrolStepKeeps(s, GiveUpPatrol(s, k, status).value, k);
  }

  lemma ClaimKeeps(s: Server, w: string, caller: string)
    requires ServerInv(s) && caller != "" && Claim(s, w, caller).Some?
    ensures ServerInv(Claim(s, w, caller).value) && Later(s, Claim(s, w, caller).value)
  {
    assert WorkerOk(s, w);
    WorkerStepKeeps(s, Claim(s, w, caller).value, w);
  }

  lemma StartLocalKeeps(s: Server, w: string, caller: string)
    requires ServerInv(s) && StartLocal(s, w, caller).Some?
    ensures ServerInv(StartLocal(s, w, caller).value) && Later(s, StartLocal(s, w, caller).value)
  {
    assert WorkerOk(s, w);
    WorkerStepKeeps(s, StartLocal(s, w, caller).value, w);
  }

  lemma TimeOutKeeps(s: Server, w: string)
    requires ServerInv(s) && TimeOutWorker(s, w).Some?
    ensures ServerInv(TimeOutWorker(s, w).value) && Later(s, TimeOutWorker(s, w).value)
  {
    assert WorkerOk(s, w);
    WorkerStepKeeps(s, TimeOutWorker(s, w).value, w);
  }

  lemma ReportFailedKeeps(s: Server, w: string)
    requires ServerInv(s) && ReportFailed(s, w).Some?
    ensures ServerInv(ReportFailed(s, w).value) && Later(s, ReportFailed(s, w).value)
  {
    assert WorkerOk(s, w);
    WorkerStepKeeps(s, ReportFailed(s, w).value, w);
  }

  /** An assigned WorkerRun knows its own fingerprint. */
  lemma OwnKey(s: Server, w: string)
    requires ServerInv(s) && w in s.workers && s.workers[w].modelInvestigation
    ensures IsKey(KeyOf(w)) && w == WorkerIdOf(KeyOf(w)) && KeyOf(w) in s.patrols
    ensures s.workers[w].work == s.patrols[KeyOf(w)].work && AssignedTo(s.workers[w].work, KeyOf(w))
    ensures s.patrols[KeyOf(w)].workerRunId == w
  {
    assert WorkerOk(s, w);
    assert PatrolOk(s, KeyOf(w));
  }

  lemma ReportKeeps(s: Server, w: string, caller: string, report: Report)
    requires ServerInv(s) && ReportInvestigation(s, w, caller, report).Some?
    ensures ServerInv(ReportInvestigation(s, w, caller, report).value)
    ensures Later(s, ReportInvestigation(s, w, caller, report).value)
  {
    OwnKey(s, w);
    assert WorkerOk(s, w);
    WorkerStepKeeps(s, ReportInvestigation(s, w, caller, report).value, w);
  }

  lemma FailKeeps(s: Server, w: string, caller: string)
    requires ServerInv(s) && FailInvestigation(s, w, caller).Some?
    ensures ServerInv(FailInvestigation(s, w, caller).value) && Later(s, FailInvestigation(s, w, caller).value)
  {
    OwnKey(s, w);
    assert WorkerOk(s, w);
    WorkerStepKeeps(s, FailInvestigation(s, w, caller).value, w);
  }

  lemma ReplayResultKeeps(s: Server, w: string, caller: string)
    requires ServerInv(s) && ReplayInvestigationResult(s, w, caller).Some?
    ensures ServerInv(ReplayInvestigationResult(s, w, caller).value)
    ensures Later(s, ReplayInvestigationResult(s, w, caller).value)
  {
    var t := ReplayInvestigationResult(s, w, caller).value;
    OwnKey(s, w);
    assert WorkerOk(s, w);
    assert t.workers == s.workers[w := t.workers[w]];
    WorkerStepKeeps(s, t, w);
  }

  lemma ReplayFailureKeeps(s: Server, w: string, caller: string)
    requires ServerInv(s) && caller != "" && ReplayInvestigationFailure(s, w, caller).Some?
    ensures ServerInv(ReplayInvestigationFailure(s, w, caller).value)
    ensures Later(s, ReplayInvestigationFailure(s, w, caller).value)
  {
    OwnKey(s, w);
    assert WorkerOk(s, w);
    WorkerStepKeeps(s, ReplayInvestigationFailure(s, w, caller).value, w);
  }

  lemma ReactKeeps(s: Server, r: Reaction)
    requires ServerInv(s) && ReactionOk(s, r) && React(s, r).Some?
    ensures ServerInv(React(s, r).value) && Later(s, React(s, r).value)
  {
    match r
    case ConfigureWorker(w, work) => ConfigureKeeps(s, r);
    case CompletePatrol(k, w, report) =>
      assert PatrolOk(s, k);
      PatrolStepKeeps(s, React(s, r).value, k);
    case FailPatrol(k, w) =>
      assert PatrolOk(s, k);
      PatrolStepKeeps(s, React(s, r).value, k);
  }

  lemma ConfigureKeeps(s: Server, r: Reaction)
    requires ServerInv(s) && r.ConfigureWorker? && ReactionOk(s, r) && React(s, r).Some?
    ensures ServerInv(React(s, r).value) && Later(s, React(s, r).value)
  {
    assert PatrolOk(s, r.work.patrolRunId);
    WorkerIdInvertible(r.work.patrolRunId);
    if r.target in s.workers {
      assert WorkerOk(s, r.target);
    }
    WorkerStepKeeps(s, React(s, r).value, r.target);
  }
}
