/**
 * One pass of a worker's main loop, written as the code runs it: rescan the
 * sources, recover running runs, claim queued runs. Calls are answered and the
 * reactions of an accepted action have been applied when it returns. The pass
 * may start in any state the protocol can reach, so at any point at which
 * some earlier worker died, and it is itself a run of the protocol: every
 * method moves along the protocol's steps.
 */
module InvestigationPass {
  import opened Text
  import opened InvestigationIds
  import opened InvestigationServer
  import opened InvestigationInvariant
  import opened InvestigationProtocol
  import opened InvestigationRuns

  /** What running the agent on a fingerprint and its evidence returns: a report, or nothing when it fails. */
  type Codex = (string, Evidence) -> Option<Report>

  const WINDOW := 50

  /** Only the records of this fingerprint differ. */
  ghost predicate OnlyTouches(s: Server, t: Server, k: string) {
    && (forall j | j != k :: (j in s.patrols <==> j in t.patrols) && (j in s.patrols ==> t.patrols[j] == s.patrols[j]))
    && (forall w | w != WorkerIdOf(k) ::
          (w in s.workers <==> w in t.workers) && (w in s.workers ==> t.workers[w] == s.workers[w]))
  }

  /** Run w, assigned to this worker, was executed and its investigation closed; nothing else changed. */
  ghost predicate RanToTheEnd(s: Server, t: Server, w: string, me: string) {
    var k := KeyOf(w);
    OnlyTouches(s, t, k) && w == WorkerIdOf(k) && k in s.patrols && k in t.patrols
    && Settled(t.patrols[k].status) && t.patrols[k].work == s.patrols[k].work && s.patrols[k].work.allowedWorkerId == me
    && w in t.workers && t.workers[w].status in {RunDone, RunFailed}
  }

  // ---- what an investigation ends as ----

  function EvidenceIn(p: PatrolRun): Evidence {
    Evidence(p.observationId, p.sourceEvidence)
  }

  /** The agent reports evidence when it is run on what was recorded with the request. */
  ghost predicate Succeeds(p: PatrolRun, k: string, codex: Codex) {
    codex(k, EvidenceIn(p)).Some? && codex(k, EvidenceIn(p)).value.evidence != ""
  }

  /** An open investigation whose run is executed. */
  ghost function Outcome(p: PatrolRun, k: string, codex: Codex): PatrolRun {
    if Succeeds(p, k, codex) then p.(status := PatrolComplete, report := codex(k, EvidenceIn(p)).value)
    else p.(status := PatrolFailed)
  }

  /** The run ends done with what the agent reported, or failed, and so does its investigation if it was open. */
  ghost predicate EndsAs(s: Server, t: Server, w: string, codex: Codex) {
    var k := KeyOf(w);
    k in s.patrols && k in t.patrols && w in t.workers
    && t.patrols[k] == (if Open(s.patrols[k].status) then Outcome(s.patrols[k], k, codex) else s.patrols[k])
    && (if Succeeds(s.patrols[k], k, codex) then
          t.workers[w].status == RunDone && t.workers[w].report == codex(k, EvidenceIn(s.patrols[k])).value
        else t.workers[w].status == RunFailed)
  }

  /**
   * What an investigation will be once this worker has done all it can about it. The outcome of a finished run
   * is replayed, any other run of its own is executed, and what is another's or over stays as it is.
   */
  ghost function Due(s: Server, k: string, me: string, codex: Codex): PatrolRun
    requires k in s.patrols
  {
    var p, w := s.patrols[k], WorkerIdOf(k);
    if !Open(p.status) || p.work.allowedWorkerId != me then p
    else if w in s.workers && s.workers[w].status == RunDone then
      p.(status := PatrolComplete, report := s.workers[w].report)
    else if w in s.workers && s.workers[w].status in {RunFailed, RunTimedOut} then p.(status := PatrolFailed)
    else Outcome(p, k, codex)
  }

  ghost predicate AskedAlready(s: Server, k: string) {
    k in s.patrols && s.patrols[k].status != PatrolCreated
  }

  /** The PatrolRun once it was asked to investigate this evidence. */
  ghost function Asked(s: Server, k: string, evidence: Evidence, config: Config): PatrolRun {
    (if k in s.patrols then s.patrols[k] else NEW_PATROL).(
      status := PatrolQueued, workerRunId := WorkerIdOf(k), observationId := evidence.observationId,
      sourceEvidence := evidence.source, work := AssignmentFor(k, config))
  }

  /** The same for an investigation that is scanned with this evidence. */
  ghost function DueFor(s: Server, k: string, evidence: Evidence, config: Config, codex: Codex): PatrolRun {
    if AskedAlready(s, k) then Due(s, k, config.workerId, codex)
    else Outcome(Asked(s, k, evidence, config), k, codex)
  }

  /** What is due of an investigation that has been asked for does not change. */
  ghost predicate DueStays(s: Server, t: Server, k: string, me: string, codex: Codex) {
    AskedAlready(s, k) ==> AskedAlready(t, k) && Due(t, k, me, codex) == Due(s, k, me, codex)
  }

  ghost predicate AllDueStays(s: Server, t: Server, me: string, codex: Codex) {
    forall k | IsKey(k) :: DueStays(s, t, k, me, codex)
  }

  lemma TouchedDueStays(s: Server, t: Server, k: string, me: string, codex: Codex)
    requires IsKey(k) && OnlyTouches(s, t, k) && DueStays(s, t, k, me, codex)
    ensures AllDueStays(s, t, me, codex)
  {
    forall j | IsKey(j) && j != k ensures DueStays(s, t, j, me, codex) {
      OthersAreSame(s, t, k, j);
    }
  }

  lemma DueStaysOn(s: Server, t: Server, u: Server, me: string, codex: Codex)
    requires AllDueStays(s, t, me, codex) && AllDueStays(t, u, me, codex)
    ensures AllDueStays(s, u, me, codex)
  {
    forall k | IsKey(k) ensures DueStays(s, u, k, me, codex) {
      assert DueStays(s, t, k, me, codex) && DueStays(t, u, k, me, codex);
    }
  }

  /** A run that was not over has been executed. */
  lemma EndedDueStays(s: Server, t: Server, w: string, me: string, codex: Codex)
    requires RanToTheEnd(s, t, w, me) && EndsAs(s, t, w, codex) && IsKey(KeyOf(w))
    requires w in s.workers && s.workers[w].status in {RunQueued, RunClaimed, RunRunning}
    requires s.patrols[KeyOf(w)].status != PatrolCreated
    ensures AllDueStays(s, t, me, codex)
  {
    TouchedDueStays(s, t, KeyOf(w), me, codex);
  }

  predicate RunFinished(s: Server, w: string) {
    w in s.workers && s.workers[w].status in {RunDone, RunFailed, RunTimedOut}
  }

  /** A run that is not over may be missing, handed out, claimed or started. */
  lemma UnfinishedDueStays(s: Server, t: Server, k: string, me: string, codex: Codex)
    requires t.patrols == s.patrols && !RunFinished(s, WorkerIdOf(k)) && !RunFinished(t, WorkerIdOf(k))
    ensures DueStays(s, t, k, me, codex)
  {
  }

  /** The outcome of a run that was over has been replayed. */
  lemma ReplayedDueStays(s: Server, t: Server, k: string, me: string, codex: Codex)
    requires k in s.patrols && Open(s.patrols[k].status) && s.patrols[k].work.allowedWorkerId == me
    requires RunFinished(s, WorkerIdOf(k)) && k in t.patrols
    requires t.patrols[k] == if s.workers[WorkerIdOf(k)].status == RunDone then
                               s.patrols[k].(status := PatrolComplete, report := s.workers[WorkerIdOf(k)].report)
                             else s.patrols[k].(status := PatrolFailed)
    ensures DueStays(s, t, k, me, codex)
  {
  }

  /** A claimed run was started and, if this worker could, executed. */
  lemma ResumedDueStays(s: Server, mid: Server, t: Server, w: string, k: string, me: string, codex: Codex)
    requires w == WorkerIdOf(k) && k == KeyOf(w) && IsKey(k) && w in s.workers && s.workers[w].status == RunClaimed
    requires mid.patrols == s.patrols && w in mid.workers && mid.workers[w].status == RunRunning
    requires k in s.patrols && s.patrols[k].status != PatrolCreated
    requires t == mid || (RanToTheEnd(mid, t, w, me) && EndsAs(mid, t, w, codex))
    ensures DueStays(s, t, k, me, codex)
  {
    UnfinishedDueStays(s, mid, k, me, codex);
    if t != mid {
      EndedDueStays(mid, t, w, me, codex);
      assert DueStays(mid, t, k, me, codex);
    }
  }

  /** At most the start of the investigation has been recorded. */
  ghost predicate Begun(s: Server, mid: Server, k: string) {
    && OnlyTouches(s, mid, k) && mid.workers == s.workers && k in s.patrols && k in mid.patrols
    && s.patrols[k].status != PatrolCreated && mid.patrols[k].status != PatrolCreated
    && mid.patrols[k] == s.patrols[k].(status := mid.patrols[k].status)
    && (Open(mid.patrols[k].status) <==> Open(s.patrols[k].status))
    && (Settled(s.patrols[k].status) ==> mid.patrols[k] == s.patrols[k])
  }

  /** The agent reported evidence, which closed the run and, if it was open, its investigation. */
  lemma ReportedEndsAs(s: Server, mid: Server, t: Server, w: string, k: string, codex: Codex)
    requires k == KeyOf(w) && w in mid.workers && Begun(s, mid, k) && Succeeds(s.patrols[k], k, codex)
    requires var report := codex(k, EvidenceIn(s.patrols[k])).value;
             t.workers == mid.workers[w := mid.workers[w].(status := RunDone, report := report)]
             && t.patrols == (if Open(mid.patrols[k].status) then
                                mid.patrols[k := mid.patrols[k].(status := PatrolComplete, report := report)]
                              else mid.patrols)
    ensures EndsAs(s, t, w, codex) && Settled(t.patrols[k].status) && t.patrols[k].work == s.patrols[k].work
  {
  }

  /** The agent reported nothing usable, and the run was failed. */
  lemma FailedEndsAs(s: Server, mid: Server, t: Server, w: string, k: string, codex: Codex)
    requires k == KeyOf(w) && w in mid.workers && Begun(s, mid, k) && !Succeeds(s.patrols[k], k, codex)
    requires t.workers == mid.workers[w := mid.workers[w].(status := RunFailed)]
    requires Open(mid.patrols[k].status) ==> t.patrols == mid.patrols[k := mid.patrols[k].(status := PatrolFailed)]
    requires Settled(mid.patrols[k].status) ==> t.patrols == mid.patrols
    ensures EndsAs(s, t, w, codex) && Settled(t.patrols[k].status) && t.patrols[k].work == s.patrols[k].work
  {
  }

  /** The first scan of each fingerprint says what is due of it. */
  ghost predicate FirstScan(scans: seq<(string, Evidence)>, i: int) {
    0 <= i < |scans| && forall j | 0 <= j < i :: scans[j].0 != scans[i].0
  }

  ghost predicate DueFrom(
    s: Server, t: Server, scans: seq<(string, Evidence)>, n: nat, config: Config, codex: Codex)
  {
    forall i | FirstScan(scans, i) && i < n ::
      AskedAlready(t, scans[i].0)
      && Due(t, scans[i].0, config.workerId, codex) == DueFor(s, scans[i].0, scans[i].1, config, codex)
  }

  /** A scan that went through has the investigation asked for, with what was due of it before or is due of it now. */
  lemma ScanSetsDue(s: Server, t: Server, k: string, evidence: Evidence, config: Config, codex: Codex)
    requires k in t.patrols && t.patrols[k].status != PatrolCreated && DueStays(s, t, k, config.workerId, codex)
    requires !AskedAlready(s, k) ==> AwaitsClaim(t, k) && t.patrols[k] == Asked(s, k, evidence, config)
    ensures AskedAlready(t, k) && Due(t, k, config.workerId, codex) == DueFor(s, k, evidence, config, codex)
  {
  }

  lemma DueOneMore(
    s: Server, t: Server, u: Server, scans: seq<(string, Evidence)>, n: nat, config: Config, codex: Codex)
    requires n < |scans| && ScannedUpTo(s, t, scans, n, config.workerId)
    requires forall i | 0 <= i <= n :: ScanInput(scans[i])
    requires DueFrom(s, t, scans, n, config, codex) && AllDueStays(t, u, config.workerId, codex)
    requires AskedAlready(u, scans[n].0)
    requires Due(u, scans[n].0, config.workerId, codex) == DueFor(t, scans[n].0, scans[n].1, config, codex)
    ensures DueFrom(s, u, scans, n + 1, config, codex)
  {
    forall i | FirstScan(scans, i) && i < n + 1
      ensures AskedAlready(u, scans[i].0)
      ensures Due(u, scans[i].0, config.workerId, codex) == DueFor(s, scans[i].0, scans[i].1, config, codex)
    {
      assert ScanInput(scans[i]);
      if i < n {
        assert DueStays(t, u, scans[i].0, config.workerId, codex);
      } else {
        assert forall j | 0 <= j < n :: scans[j].0 != scans[n].0;
        SameDueFor(s, t, scans[n].0, scans[n].1, config, codex);
      }
    }
  }

  lemma SameDueFor(s: Server, t: Server, k: string, evidence: Evidence, config: Config, codex: Codex)
    requires SameFor(s, t, k)
    ensures DueFor(s, k, evidence, config, codex) == DueFor(t, k, evidence, config, codex)
  {
  }

  /** Of an investigation that is over or another's, what is due is what it is. */
  lemma NothingDue(s: Server, k: string, me: string, codex: Codex)
    requires k in s.patrols && (Settled(s.patrols[k].status) || s.patrols[k].work.allowedWorkerId != me)
    ensures Due(s, k, me, codex) == s.patrols[k]
  {
  }

  /** Every scanned investigation has become what was due of it. */
  ghost predicate DueDone(s: Server, t: Server, scans: seq<(string, Evidence)>, config: Config, codex: Codex) {
    forall i | FirstScan(scans, i) ::
      scans[i].0 in t.patrols && t.patrols[scans[i].0] == DueFor(s, scans[i].0, scans[i].1, config, codex)
  }

  lemma DueIsDone(
    s: Server, mid: Server, t: Server, scans: seq<(string, Evidence)>, config: Config, codex: Codex)
    requires DueFrom(s, mid, scans, |scans|, config, codex) && AllDueStays(mid, t, config.workerId, codex)
    requires forall i | 0 <= i < |scans| ::
               ScanInput(scans[i]) && (Over(t, scans[i].0) || Foreign(t, scans[i].0, config.workerId))
    ensures DueDone(s, t, scans, config, codex)
  {
    forall i | FirstScan(scans, i)
      ensures scans[i].0 in t.patrols && t.patrols[scans[i].0] == DueFor(s, scans[i].0, scans[i].1, config, codex)
    {
      assert ScanInput(scans[i]) && DueStays(mid, t, scans[i].0, config.workerId, codex);
      NothingDue(t, scans[i].0, config.workerId, codex);
    }
  }

  predicate ScanInput(scan: (string, Evidence)) {
    IsKey(scan.0) && scan.1.observationId != "" && scan.1.source != ""
  }

  ghost predicate SameFor(s: Server, t: Server, k: string) {
    var w := WorkerIdOf(k);
    && (k in s.patrols <==> k in t.patrols) && (k in s.patrols ==> t.patrols[k] == s.patrols[k])
    && (w in s.workers <==> w in t.workers) && (w in s.workers ==> t.workers[w] == s.workers[w])
  }

  /** The investigation has been scanned, for the worker it belonged to. */
  ghost predicate Carried(s: Server, t: Server, k: string, me: string) {
    Scanned(t, k, me) && (Ours(s, k, me) ==> Ours(t, k, me)) && (Foreign(s, k, me) ==> Foreign(t, k, me))
    && (k in s.patrols && Settled(s.patrols[k].status) ==> Settled(t.patrols[k].status))
  }

  /** The first n scans went through; every other fingerprint is as it was. */
  ghost predicate ScannedUpTo(s: Server, t: Server, scans: seq<(string, Evidence)>, n: nat, me: string)
    requires n <= |scans|
  {
    && (forall i | 0 <= i < n ::
          |scans[i].1.source| <= 65536 && !Refused(s, scans[i].0, me) && Carried(s, t, scans[i].0, me))
    && (forall j | IsKey(j) && (forall i | 0 <= i < n :: scans[i].0 != j) :: SameFor(s, t, j))
  }

  lemma RefusalUnchanged(s: Server, t: Server, scans: seq<(string, Evidence)>, n: nat, me: string)
    requires n < |scans| && ScannedUpTo(s, t, scans, n, me) && IsKey(scans[n].0)
    ensures Refused(t, scans[n].0, me) <==> Refused(s, scans[n].0, me)
  {
    var k := scans[n].0;
    if i :| 0 <= i < n && scans[i].0 == k {
      assert Carried(s, t, k, me) && !Refused(s, k, me);
    } else {
      assert SameFor(s, t, k);
    }
  }

  lemma OthersAreSame(s: Server, t: Server, k: string, j: string)
    requires OnlyTouches(s, t, k) && IsKey(j) && IsKey(k) && j != k
    ensures SameFor(s, t, j)
  {
    WorkerIdInjective(j, k);
  }

  /** A waiting run was handed its assignment; the PatrolRun is as it was. */
  lemma HandOutCarries(s: Server, t: Server, k: string, me: string)
    requires AwaitsClaim(t, k) && t.patrols == s.patrols
    ensures Carried(s, t, k, me)
  {
  }

  /** An investigation nobody had asked for was handed to this worker. */
  lemma RequestCarries(s: Server, t: Server, k: string, me: string)
    requires k in s.patrols ==> s.patrols[k].status == PatrolCreated
    requires AwaitsClaim(t, k) && t.patrols[k].work.allowedWorkerId == me
    ensures Carried(s, t, k, me) && !Refused(s, k, me)
  {
  }

  lemma SettledCarries(s: Server, k: string, me: string)
    requires k in s.patrols && s.patrols[k].status != PatrolCreated && !Open(s.patrols[k].status)
    ensures Carried(s, s, k, me) && !Refused(s, k, me)
  {
  }

  /** A run of this worker was closed, or is running with its PatrolRun as it was. */
  lemma OwnRunCarries(s: Server, t: Server, k: string, me: string)
    requires k in s.patrols && k in t.patrols && t.patrols[k].work == s.patrols[k].work
    requires s.patrols[k].work.allowedWorkerId == me && Open(s.patrols[k].status)
    requires Settled(t.patrols[k].status)
             || (t.patrols == s.patrols && WorkerIdOf(k) in t.workers && t.workers[WorkerIdOf(k)].modelInvestigation
                 && t.workers[WorkerIdOf(k)].status == RunRunning)
    ensures Carried(s, t, k, me)
  {
  }

  lemma CarriedOver(s: Server, t: Server, u: Server, k: string, me: string)
    requires Carried(s, t, k, me) && SameFor(t, u, k)
    ensures Carried(s, u, k, me)
  {
  }

  lemma CarriedFurther(s: Server, t: Server, u: Server, k: string, me: string)
    requires Carried(s, t, k, me) && Carried(t, u, k, me)
    ensures Carried(s, u, k, me)
  {
  }

  lemma ScannedOneMore(s: Server, t: Server, u: Server, scans: seq<(string, Evidence)>, n: nat, me: string)
    requires n < |scans| && ScannedUpTo(s, t, scans, n, me) && forall i | 0 <= i <= n :: ScanInput(scans[i])
    requires |scans[n].1.source| <= 65536 && !Refused(s, scans[n].0, me) && Carried(t, u, scans[n].0, me)
    requires OnlyTouches(t, u, scans[n].0)
    ensures ScannedUpTo(s, u, scans, n + 1, me)
  {
    var k := scans[n].0;
    assert ScanInput(scans[n]);
    forall i | 0 <= i < n + 1 ensures Carried(s, u, scans[i].0, me) {
      assert ScanInput(scans[i]);
      if scans[i].0 != k {
        assert Carried(s, t, scans[i].0, me);
        OthersAreSame(t, u, k, scans[i].0);
        CarriedOver(s, t, u, scans[i].0, me);
      } else if j :| 0 <= j < n && scans[j].0 == k {
        assert Carried(s, t, scans[j].0, me);
        CarriedFurther(s, t, u, k, me);
      } else {
        assert SameFor(s, t, k);
      }
    }
    forall j | IsKey(j) && (forall i | 0 <= i < n + 1 :: scans[i].0 != j) ensures SameFor(s, u, j) {
      assert scans[n].0 != j;
      OthersAreSame(t, u, k, j);
      assert SameFor(s, t, j);
    }
  }

  /** Executing a run of this worker keeps every scanned investigation scanned. */
  lemma RunCarries(s: Server, t: Server, w: string, k: string, me: string)
    requires RanToTheEnd(s, t, w, me) && Scanned(s, k, me) && IsKey(k) && IsKey(KeyOf(w))
    ensures Carried(s, t, k, me)
  {
    if k != KeyOf(w) {
      OthersAreSame(s, t, KeyOf(w), k);
    }
  }

  ghost predicate CarriesAll(s: Server, t: Server, me: string) {
    forall k | IsKey(k) && Scanned(s, k, me) :: Carried(s, t, k, me)
  }

  /** A boot-query row was handled: it was this worker's and ran to the end, or nothing happened. */
  ghost predicate RowHandled(s: Server, t: Server, w: string, mine: bool, me: string) {
    w in s.workers && if mine then RanToTheEnd(s, t, w, me) else t == s
  }

  lemma RunsCarryAll(s: Server, t: Server, u: Server, w: string, mine: bool, me: string)
    requires CarriesAll(s, t, me) && ServerInv(t) && RowHandled(t, u, w, mine, me)
    ensures CarriesAll(s, u, me)
  {
    assert WorkerOk(t, w) && PatrolOk(t, KeyOf(w));
    forall k | IsKey(k) && Scanned(s, k, me) ensures Carried(s, u, k, me) {
      assert Carried(s, t, k, me);
      if mine {
        RunCarries(t, u, w, k, me);
        CarriedFurther(s, t, u, k, me);
      }
    }
  }

  /** Every run this worker could recover is among these rows. */
  ghost predicate RecoverableIn(s: Server, config: Config, rows: seq<string>) {
    forall w | w in s.workers && RecoverableBy(s.workers[w], config) :: w in rows
  }

  ghost predicate ClaimableIn(s: Server, config: Config, rows: seq<string>) {
    forall w | w in s.workers && ClaimableBy(s.workers[w], config) :: w in rows
  }

  lemma RecoveredOneRow(s: Server, t: Server, config: Config, rows: seq<string>)
    requires rows != [] && RecoverableIn(s, config, rows) && rows[0] in s.workers
    requires RowHandled(s, t, rows[0], RecoverableBy(s.workers[rows[0]], config), config.workerId)
    ensures RecoverableIn(t, config, rows[1..])
  {
    forall w | w in t.workers && RecoverableBy(t.workers[w], config) ensures w in rows[1..] {
      assert w != rows[0];
      assert w in s.workers && t.workers[w] == s.workers[w];
    }
  }

  lemma ClaimedOneRow(s: Server, t: Server, config: Config, rows: seq<string>)
    requires rows != [] && ClaimableIn(s, config, rows) && rows[0] in s.workers
    requires RowHandled(s, t, rows[0], ClaimableBy(s.workers[rows[0]], config), config.workerId)
    ensures ClaimableIn(t, config, rows[1..])
  {
    forall w | w in t.workers && ClaimableBy(t.workers[w], config) ensures w in rows[1..] {
      assert w != rows[0];
      assert w in s.workers && t.workers[w] == s.workers[w];
    }
  }

  lemma RowsStay(s: Server, t: Server, w: string, mine: bool, me: string)
    requires RowHandled(s, t, w, mine, me)
    ensures forall v | v in s.workers :: v in t.workers
  {
  }

  /** The first n rows of the query for running runs have been handled. */
  ghost predicate RecoveredTo(
    start: Server, s: Server, config: Config, rows: seq<string>, n: nat, full: bool, codex: Codex)
  {
    && AllDueStays(start, s, config.workerId, codex)
    && n <= |rows| && CarriesAll(start, s, config.workerId) && |Unfinished(s)| <= |Unfinished(start)|
    && (forall i | n <= i < |rows| :: rows[i] in s.workers)
    && (!full ==> RecoverableIn(s, config, rows[n..]))
  }

  /** The first n rows of the query for queued runs have been handled. */
  ghost predicate ClaimedTo(
    start: Server, s: Server, config: Config, rows: seq<string>, n: nat, full: bool, codex: Codex)
  {
    && AllDueStays(start, s, config.workerId, codex)
    && n <= |rows| && CarriesAll(start, s, config.workerId)
    && (forall i | n <= i < |rows| :: rows[i] in s.workers)
    && (!full ==> ClaimableIn(s, config, rows[n..]))
    && (RecoverableIn(start, config, []) ==> RecoverableIn(s, config, []))
  }

  lemma RowDueStays(s: Server, t: Server, w: string, mine: bool, me: string, codex: Codex)
    requires ServerInv(s) && RowHandled(s, t, w, mine, me) && (mine ==> EndsAs(s, t, w, codex))
    requires mine ==> s.workers[w].status in {RunQueued, RunRunning}
    ensures AllDueStays(s, t, me, codex)
  {
    if mine {
      assert WorkerOk(s, w) && PatrolOk(s, KeyOf(w));
      EndedDueStays(s, t, w, me, codex);
    }
  }

  lemma RecoveredOneMore(
    start: Server, s: Server, t: Server, config: Config, rows: seq<string>, n: nat, full: bool, codex: Codex)
    requires n < |rows| && RecoveredTo(start, s, config, rows, n, full, codex) && ServerInv(s)
    requires RowHandled(s, t, rows[n], RecoverableBy(s.workers[rows[n]], config), config.workerId)
    requires RecoverableBy(s.workers[rows[n]], config) ==> EndsAs(s, t, rows[n], codex)
    ensures RecoveredTo(start, t, config, rows, n + 1, full, codex)
  {
    RowDueStays(s, t, rows[n], RecoverableBy(s.workers[rows[n]], config), config.workerId, codex);
    DueStaysOn(start, s, t, config.workerId, codex);
    var mine := RecoverableBy(s.workers[rows[n]], config);
    RowsStay(s, t, rows[n], mine, config.workerId);
    RunsCarryAll(start, s, t, rows[n], mine, config.workerId);
    UnfinishedAfterRow(s, t, rows[n], mine, config.workerId);
    if !full {
      RecoveredOneRow(s, t, config, rows[n..]);
      assert rows[n..][1..] == rows[n + 1..];
    }
  }

  lemma ClaimedOneMore(
    start: Server, s: Server, t: Server, config: Config, rows: seq<string>, n: nat, full: bool, codex: Codex)
    requires n < |rows| && ClaimedTo(start, s, config, rows, n, full, codex) && ServerInv(s)
    requires RowHandled(s, t, rows[n], ClaimableBy(s.workers[rows[n]], config), config.workerId)
    requires ClaimableBy(s.workers[rows[n]], config) ==> EndsAs(s, t, rows[n], codex)
    ensures ClaimedTo(start, t, config, rows, n + 1, full, codex)
  {
    RowDueStays(s, t, rows[n], ClaimableBy(s.workers[rows[n]], config), config.workerId, codex);
    DueStaysOn(start, s, t, config.workerId, codex);
    var mine := ClaimableBy(s.workers[rows[n]], config);
    RunsCarryAll(start, s, t, rows[n], mine, config.workerId);
    if RecoverableIn(s, config, []) {
      NothingToRecoverStays(s, t, config, rows[n], mine);
    }
    if !full {
      ClaimedOneRow(s, t, config, rows[n..]);
      assert rows[n..][1..] == rows[n + 1..];
    }
    RowsStay(s, t, rows[n], mine, config.workerId);
  }

  lemma RowsToRecover(s: Server, config: Config, rows: seq<string>, full: bool, codex: Codex)
    requires forall i | 0 <= i < |rows| :: rows[i] in WithStatus(s, RunRunning)
    requires !full ==> forall w | w in WithStatus(s, RunRunning) :: w in rows
    ensures RecoveredTo(s, s, config, rows, 0, full, codex)
  {
    assert rows[0..] == rows;
  }

  lemma RowsToClaim(s: Server, config: Config, rows: seq<string>, full: bool, codex: Codex)
    requires forall i | 0 <= i < |rows| :: rows[i] in WithStatus(s, RunQueued)
    requires !full ==> forall w | w in WithStatus(s, RunQueued) :: w in rows
    ensures ClaimedTo(s, s, config, rows, 0, full, codex)
  {
    assert rows[0..] == rows;
  }

  lemma AllRecovered(start: Server, s: Server, config: Config, rows: seq<string>, full: bool, codex: Codex)
    requires RecoveredTo(start, s, config, rows, |rows|, full, codex)
    ensures AllDueStays(start, s, config.workerId, codex) && CarriesAll(start, s, config.workerId)
    ensures !full ==> RecoverableIn(s, config, [])
    ensures |Unfinished(s)| <= |Unfinished(start)|
  {
    assert rows[|rows|..] == [];
  }

  lemma AllClaimed(start: Server, s: Server, config: Config, rows: seq<string>, full: bool, codex: Codex)
    requires ClaimedTo(start, s, config, rows, |rows|, full, codex)
    ensures AllDueStays(start, s, config.workerId, codex) && CarriesAll(start, s, config.workerId)
    ensures !full ==> ClaimableIn(s, config, [])
    ensures RecoverableIn(start, config, []) ==> RecoverableIn(s, config, [])
  {
    assert rows[|rows|..] == [];
  }

  lemma NothingToRecoverStays(s: Server, t: Server, config: Config, w: string, mine: bool)
    requires RecoverableIn(s, config, []) && RowHandled(s, t, w, mine, config.workerId)
    ensures RecoverableIn(t, config, [])
  {
    forall v | v in t.workers && v != w ensures !RecoverableBy(t.workers[v], config) {
      assert v in s.workers && t.workers[v] == s.workers[v];
    }
  }

  lemma PassSettles(
    s: Server, scanned: Server, recovered: Server, t: Server, k: string, config: Config)
    requires IsKey(k) && Carried(s, scanned, k, config.workerId) && CarriesAll(scanned, recovered, config.workerId)
    requires CarriesAll(recovered, t, config.workerId) && ServerInv(s) && ServerInv(t)
    requires RecoverableIn(t, config, []) && ClaimableIn(t, config, []) && LOCAL_CODEX in config.capabilities
    ensures Over(t, k) <==> Over(s, k) || Ours(s, k, config.workerId)
    ensures Over(t, k) || Foreign(t, k, config.workerId)
  {
    var me := config.workerId;
    CarriedFurther(s, scanned, recovered, k, me);
    CarriedFurther(s, recovered, t, k, me);
    if Ours(s, k, me) {
      NothingLeftMeansSettled(t, k, config);
    }
  }

  /** With nothing left to recover or to claim, a scanned investigation of this worker is over. */
  lemma NothingLeftMeansSettled(s: Server, k: string, config: Config)
    requires ServerInv(s) && Scanned(s, k, config.workerId) && LOCAL_CODEX in config.capabilities
    requires s.patrols[k].work.allowedWorkerId == config.workerId
    requires RecoverableIn(s, config, []) && ClaimableIn(s, config, [])
    ensures Settled(s.patrols[k].status)
  {
    var w := WorkerIdOf(k);
    assert PatrolOk(s, k);
    if Open(s.patrols[k].status) {
      WorkerIdInvertible(k);
      assert WorkerOk(s, w);
      AssignedHasWorktree(s.workers[w], k);
    }
  }

  // ---- how many runs a boot query can meet ----

  function WithStatus(s: Server, status: WorkerStatus): set<string> {
    set w | w in s.workers && s.workers[w].status == status
  }

  /** The runs that are not over: only these can show up in a boot query. */
  function Unfinished(s: Server): set<string> {
    set w | w in s.workers && s.workers[w].status in {RunQueued, RunClaimed, RunRunning}
  }

  lemma RunTouched(s: Server, w: string, run: WorkerRun, k: string)
    requires w == WorkerIdOf(k) && w in s.workers
    ensures OnlyTouches(s, s.(workers := s.workers[w := run]), k)
  {
  }

  /** An investigation's run in this state that was handed to this worker, which can run it. */
  ghost predicate IsMine(run: WorkerRun, config: Config, status: WorkerStatus) {
    run.status == status && run.modelInvestigation && run.work.allowedWorkerId == config.workerId
    && "local_codex" in config.capabilities
  }

  /** In a reachable state the worker's tests of a run come to these four. */
  lemma ClaimableIff(s: Server, w: string, config: Config)
    requires ServerInv(s) && config.workerId != "" && w in s.workers
    ensures ClaimableBy(s.workers[w], config) <==> IsMine(s.workers[w], config, RunQueued)
    ensures RecoverableBy(s.workers[w], config) <==> IsMine(s.workers[w], config, RunRunning)
  {
    assert WorkerOk(s, w);
    if s.workers[w].modelInvestigation {
      OwnKey(s, w);
      AssignedHasWorktree(s.workers[w], KeyOf(w));
    }
  }

  /** Only an assigned run can name this worker. */
  lemma ClaimableIsAssigned(s: Server, w: string, config: Config)
    requires ServerInv(s) && config.workerId != "" && w in s.workers && ClaimableBy(s.workers[w], config)
    ensures s.workers[w].modelInvestigation && s.workers[w].work.patrolRunId == KeyOf(w) && w == WorkerIdOf(KeyOf(w))
    ensures KeyOf(w) in s.patrols && s.patrols[KeyOf(w)].work == s.workers[w].work
  {
    assert WorkerOk(s, w);
    OwnKey(s, w);
  }

  lemma {:induction false} SubsetIsNotLarger(a: set<string>, b: set<string>)
    requires a <= b
    ensures |a| <= |b|
  {
    if a != {} {
      var x :| x in a;
      SubsetIsNotLarger(a - {x}, b - {x});
    }
  }

  lemma StatusIsUnfinished(s: Server, status: WorkerStatus)
    requires status in {RunQueued, RunRunning}
    ensures |WithStatus(s, status)| <= |Unfinished(s)|
  {
    SubsetIsNotLarger(WithStatus(s, status), Unfinished(s));
  }

  /** A scan adds at most its own run to those that are not over. */
  lemma UnfinishedAfterScan(s: Server, t: Server, k: string)
    requires OnlyTouches(s, t, k)
    ensures |Unfinished(t)| <= |Unfinished(s)| + 1
  {
    var w := WorkerIdOf(k);
    assert Unfinished(t) <= Unfinished(s) + {w};
    SubsetIsNotLarger(Unfinished(t), Unfinished(s) + {w});
  }

  lemma UnfinishedAfterRow(s: Server, t: Server, w: string, mine: bool, me: string)
    requires RowHandled(s, t, w, mine, me)
    ensures |Unfinished(t)| <= |Unfinished(s)|
  {
    if mine {
      assert Unfinished(t) <= Unfinished(s);
      SubsetIsNotLarger(Unfinished(t), Unfinished(s));
    }
  }

  lemma TouchesTransitive(s: Server, t: Server, u: Server, k: string)
    requires OnlyTouches(s, t, k) && OnlyTouches(t, u, k)
    ensures OnlyTouches(s, u, k)
  {
  }

  /** The scan would have to replay the outcome of a run this worker never claimed, which the policy refuses. */
  ghost predicate Refused(s: Server, k: string, me: string) {
    var w := WorkerIdOf(k);
    k in s.patrols && Open(s.patrols[k].status) && w in s.workers
    && s.workers[w].status in {RunDone, RunFailed, RunTimedOut} && s.workers[w].workerId != me
  }

  /** The investigation is queued and its run is queued with its assignment. */
  ghost predicate AwaitsClaim(s: Server, k: string) {
    var w := WorkerIdOf(k);
    k in s.patrols && s.patrols[k].status == PatrolQueued
    && w in s.workers && s.workers[w].status == RunQueued && s.workers[w].modelInvestigation
  }

  /** Where a scan leaves an investigation of this worker: over, running, or ready to be claimed. */
  ghost predicate Scanned(s: Server, k: string, me: string) {
    var w := WorkerIdOf(k);
    k in s.patrols
    && (Open(s.patrols[k].status) && s.patrols[k].work.allowedWorkerId == me ==>
          w in s.workers && s.workers[w].modelInvestigation && s.workers[w].status in {RunQueued, RunRunning})
    && s.patrols[k].status != PatrolCreated && !Refused(s, k, me)
  }

  /** Nobody has asked for this investigation yet, or it was handed to this worker. */
  ghost predicate Ours(s: Server, k: string, me: string) {
    k in s.patrols && s.patrols[k].status != PatrolCreated ==> s.patrols[k].work.allowedWorkerId == me
  }

  /** An open investigation that was handed to another worker. */
  ghost predicate Foreign(s: Server, k: string, me: string) {
    k in s.patrols && Open(s.patrols[k].status) && s.patrols[k].work.allowedWorkerId != me
  }

  ghost predicate Over(s: Server, k: string) {
    k in s.patrols && Settled(s.patrols[k].status)
  }

  lemma SettleKeeps(s: Server, r: Reaction)
    requires ServerInv(s) && ReactionOk(s, r)
    ensures ServerInv(Settle(s, r)) && Later(s, Settle(s, r))
  {
    if React(s, r).Some? {
      ReactKeeps(s, r);
    }
  }

  lemma HandOutKeeps(s: Server, k: string)
    requires ServerInv(s) && k in s.patrols && Started(s.patrols[k])
    ensures ServerInv(HandOut(s, s.patrols[k])) && Later(s, HandOut(s, s.patrols[k]))
  {
    var p := s.patrols[k];
    var r := ConfigureWorker(p.workerRunId, p.work);
    assert PatrolOk(s, k);
    if p.workerRunId in s.workers {
      SettleKeeps(s, r);
    } else {
      var mid := Settle(s, r);
      SettleKeeps(s, r);
      ReactionStays(s, mid, r);
      SettleKeeps(mid, r);
      LaterTransitive(s, mid, Settle(mid, r));
    }
  }

  /** After the hand-out a run that is missing or still unassigned is queued with its assignment. */
  lemma HandOutAssigns(s: Server, k: string)
    requires ServerInv(s) && k in s.patrols && s.patrols[k].status == PatrolQueued
    requires WorkerIdOf(k) in s.workers ==> s.workers[WorkerIdOf(k)].status == RunQueued
    ensures OnlyTouches(s, HandOut(s, s.patrols[k]), k)
    ensures HandOut(s, s.patrols[k]).patrols == s.patrols
    ensures WorkerIdOf(k) in HandOut(s, s.patrols[k]).workers
    ensures HandOut(s, s.patrols[k]).workers[WorkerIdOf(k)].status == RunQueued
    ensures HandOut(s, s.patrols[k]).workers[WorkerIdOf(k)].modelInvestigation
  {
    assert PatrolOk(s, k);
    if WorkerIdOf(k) in s.workers {
      assert WorkerOk(s, WorkerIdOf(k));
    }
  }

  lemma RequestTouches(s: Server, k: string, evidence: Evidence, config: Config, mid: Server)
    requires ServerInv(s) && config.workerId != ""
    requires RequestModelInvestigation(
               s, k, k, evidence.observationId, evidence.source, WorkerIdOf(k), AssignmentFor(k, config)) == Some(mid)
    ensures k in mid.patrols && ServerInv(mid) && OnlyTouches(s, mid, k) && mid.workers == s.workers
    ensures mid.patrols[k] == Asked(s, k, evidence, config)
    ensures Started(mid.patrols[k]) && WorkerIdOf(k) !in s.workers
  {
    RequestKeeps(s, k, evidence.observationId, evidence.source, AssignmentFor(k, config));
    assert PatrolOk(s, k);
    WorkerIdInvertible(k);
  }

  lemma RequestHandsOut(s: Server, k: string, evidence: Evidence, config: Config, mid: Server)
    requires ServerInv(s) && config.workerId != ""
    requires RequestModelInvestigation(
               s, k, k, evidence.observationId, evidence.source, WorkerIdOf(k), AssignmentFor(k, config)) == Some(mid)
    ensures k in mid.patrols && ServerInv(HandOut(mid, mid.patrols[k]))
    ensures OnlyTouches(s, HandOut(mid, mid.patrols[k]), k)
    ensures AwaitsClaim(HandOut(mid, mid.patrols[k]), k)
    ensures HandOut(mid, mid.patrols[k]).patrols[k] == Asked(s, k, evidence, config)
  {
    RequestTouches(s, k, evidence, config, mid);
    HandOutKeeps(mid, k);
    HandOutAssigns(mid, k);
    TouchesTransitive(s, mid, HandOut(mid, mid.patrols[k]), k);
  }

  lemma StartModelTouches(s: Server, k: string, w: string, t: Server)
    requires ServerInv(s) && w in s.workers && s.workers[w].claimed && StartModelInvestigation(s, k, w) == Some(t)
    ensures ServerInv(t) && OnlyTouches(s, t, k) && t.workers == s.workers
    ensures t.patrols == s.patrols[k := s.patrols[k].(status := PatrolRunning)]
  {
    StartModelKeeps(s, k, w);
  }

  /** The reaction to an outcome of run w: an open investigation is closed with it, a closed one is left alone. */
  lemma OutcomeCloses(s: Server, mid: Server, w: string, k: string, r: Reaction, closed: PatrolRun)
    requires k in s.patrols && s.patrols[k].workerRunId == w && w == WorkerIdOf(k) && w in s.workers
    requires s.patrols[k].status != PatrolCreated
    requires mid == s.(workers := mid.workers, sent := mid.sent) && w in mid.workers
    requires mid.workers == s.workers[w := mid.workers[w]]
    requires (r.CompletePatrol? && r.target == k && r.workerRunId == w && r.report.evidence != ""
              && closed == s.patrols[k].(status := PatrolComplete, report := r.report))
             || (r == FailPatrol(k, w) && closed == s.patrols[k].(status := PatrolFailed))
    ensures OnlyTouches(s, Settle(mid, r), k) && Settle(mid, r).workers == mid.workers
    ensures Settle(mid, r).patrols == if Open(s.patrols[k].status) then s.patrols[k := closed] else s.patrols
  {
  }

  lemma ReportKeepsAll(s: Server, w: string, k: string, me: string, report: Report, mid: Server)
    requires ServerInv(s) && ReportInvestigation(s, w, me, report) == Some(mid) && k == s.workers[w].work.patrolRunId
    ensures ServerInv(Settle(mid, CompletePatrol(k, w, report)))
    ensures Later(s, Settle(mid, CompletePatrol(k, w, report)))
  {
    ReportKeeps(s, w, me, report);
    assert ReactionOk(mid, CompletePatrol(k, w, report));
    SettleKeeps(mid, CompletePatrol(k, w, report));
    LaterTransitive(s, mid, Settle(mid, CompletePatrol(k, w, report)));
  }

  lemma FailureKeepsAll(s: Server, w: string, k: string, me: string, mid: Server)
    requires ServerInv(s) && FailInvestigation(s, w, me) == Some(mid) && k == s.workers[w].work.patrolRunId
    ensures ServerInv(Settle(mid, FailPatrol(k, w))) && Later(s, Settle(mid, FailPatrol(k, w)))
  {
    FailKeeps(s, w, me);
    assert ReactionOk(mid, FailPatrol(k, w));
    SettleKeeps(mid, FailPatrol(k, w));
    LaterTransitive(s, mid, Settle(mid, FailPatrol(k, w)));
  }

  /** The finished run of an open investigation was given to it; only its claimant may replay its outcome. */
  lemma ReplayedIsOwn(s: Server, w: string, k: string)
    requires ServerInv(s) && k in s.patrols && w == s.patrols[k].workerRunId && w in s.workers
    requires Open(s.patrols[k].status) && s.workers[w].status in {RunDone, RunFailed, RunTimedOut}
    ensures w == WorkerIdOf(k) && s.workers[w].claimed ==> s.workers[w].modelInvestigation
    ensures w == WorkerIdOf(k) && (s.workers[w].modelInvestigation ==> s.workers[w].work.patrolRunId == k)
    ensures s.workers[w].workerId != "" ==> s.workers[w].claimed
    ensures s.workers[w].status == RunDone ==> s.workers[w].report.evidence != ""
  {
    assert WorkerOk(s, w) && PatrolOk(s, k);
    WorkerIdInvertible(k);
    if s.workers[w].modelInvestigation {
      OwnKey(s, w);
    }
  }

  /** A run the scan leaves alone is waiting to be claimed, running, or claimed by someone else. */
  lemma UnderWay(s: Server, k: string, me: string)
    requires k in s.patrols && PatrolOk(s, k) && Open(s.patrols[k].status)
    requires WorkerIdOf(k) in s.workers && WorkerOk(s, WorkerIdOf(k))
    requires KeyOf(WorkerIdOf(k)) == k
    requires s.workers[WorkerIdOf(k)].status in {RunQueued, RunClaimed, RunRunning}
    requires s.workers[WorkerIdOf(k)].status == RunClaimed ==> s.workers[WorkerIdOf(k)].workerId != me
    requires s.workers[WorkerIdOf(k)].status == RunQueued ==> s.workers[WorkerIdOf(k)].modelInvestigation
    ensures Scanned(s, k, me)
  {
  }

  lemma AssignedHasWorktree(run: WorkerRun, k: string)
    requires run.work.branchName == "codex/" + k
    ensures HasWorktree(run)
  {
    var b := run.work.branchName;
    assert b[0] == 'c';
    assert TrimStart(b) == b;
    TrimEndKeepsFirst(b);
  }

  lemma {:induction false} TrimEndKeepsFirst(s: string)
    requires s != [] && !IsWhitespace(s[0])
    ensures TrimEnd(s) != []
  {
    if IsWhitespace(s[|s| - 1]) {
      TrimEndKeepsFirst(s[..|s| - 1]);
    }
  }

  /**
   * The worker. Beside the server it keeps its place in the step system's program: every method moves it
   * by the steps of that system, so a pass is one of the runs that system has.
   */
  class PatrolWorker {
    const config: Config
    ghost const begun: Server
    var server: Server
    ghost var at: Pc

    constructor (config: Config, server: Server)
      requires ServerInv(server) && config.workerId != ""
      ensures this.config == config && this.server == this.begun == server && at == Idle && Valid()
    {
      this.config, this.server := config, server;
      begun, at := server, Idle;
      LeadsNowhere(config, server);
    }

    ghost predicate Valid()
      reads this
    {
      ServerInv(server) && config.workerId != "" && Leads(config, begun, server, at)
    }

    /** Takes up a scan, or looks at one run. */
    ghost method Enter(pc: Pc)
      requires Valid() && at == Idle && Entry(pc)
      modifies this`at
      ensures Valid() && at == pc
    {
      LeadsBegin(config, begun, server, pc);
      at := pc;
    }

    /** The place the last call led to. */
    ghost method Arrive(next: Pc)
      requires ServerInv(server) && config.workerId != "" && Leads(config, begun, server, next)
      modifies this`at
      ensures Valid() && at == next
    {
      at := next;
    }

    method PostReport(w: string, k: string, report: Report) returns (ok: bool)
      requires Valid() && w in server.workers && k == server.workers[w].work.patrolRunId
      requires server.workers[w].modelInvestigation
      requires k in server.patrols && server.patrols[k].status != PatrolCreated
      requires at == Executing(SendReport(w, report))
      modifies this
      ensures Valid() && at == (if ok then Idle else Executing(SendFailure(w)))
      ensures OnlyTouches(old(server), server, k)
      ensures ok <==> old(server.workers[w].status == RunRunning && server.workers[w].workerId == config.workerId)
                      && report.evidence != ""
      ensures !ok ==> server == old(server)
      ensures ok ==> server.workers == old(server.workers[w := server.workers[w].(status := RunDone, report := report)])
      ensures ok && Open(old(server.patrols[k].status)) ==>
                server.patrols
                == old(server.patrols[k := server.patrols[k].(status := PatrolComplete, report := report)])
      ensures ok && Settled(old(server.patrols[k].status)) ==> server.patrols == old(server.patrols)
    {
      var action := ReportInvestigation(server, w, config.workerId, report);
      ok := action.Some?;
      ReportLeads(config, begun, server, w, k, report, action);
      if ok {
        OwnKey(server, w);
        ReportKeepsAll(server, w, k, config.workerId, report, action.value);
        OutcomeCloses(server, action.value, w, k, CompletePatrol(k, w, report),
                      server.patrols[k].(status := PatrolComplete, report := report));
        server := Settle(action.value, CompletePatrol(k, w, report));
      }
      at := if ok then Idle else Executing(SendFailure(w));
    }

    method PostFailure(w: string, k: string) returns (ok: bool)
      requires Valid() && w in server.workers && k == server.workers[w].work.patrolRunId
      requires server.workers[w].modelInvestigation
      requires k in server.patrols && server.patrols[k].status != PatrolCreated
      requires at == Executing(SendFailure(w))
      modifies this
      ensures Valid() && at == Idle && OnlyTouches(old(server), server, k)
      ensures ok
              <==> old(server.workers[w].status in {RunClaimed, RunRunning}
                       && server.workers[w].workerId == config.workerId)
      ensures !ok ==> server == old(server)
      ensures ok ==> server.workers == old(server.workers[w := server.workers[w].(status := RunFailed)])
      ensures ok && Open(old(server.patrols[k].status)) ==>
                server.patrols == old(server.patrols[k := server.patrols[k].(status := PatrolFailed)])
      ensures ok && Settled(old(server.patrols[k].status)) ==> server.patrols == old(server.patrols)
    {
      var action := FailInvestigation(server, w, config.workerId);
      ok := action.Some?;
      FailureLeads(config, begun, server, w, k, action);
      if ok {
        OwnKey(server, w);
        FailureKeepsAll(server, w, k, config.workerId, action.value);
        OutcomeCloses(server, action.value, w, k, FailPatrol(k, w), server.patrols[k].(status := PatrolFailed));
        server := Settle(action.value, FailPatrol(k, w));
      }
      at := Idle;
    }

    method PostStartModel(w: string, k: string) returns (ok: bool)
      requires Valid() && w in server.workers && server.workers[w].claimed && k in server.patrols
      requires at == Executing(StartModel(w, k))
      modifies this
      ensures Valid() && at == Executing(if ok then RunAgent(w, k) else SendFailure(w))
      ensures OnlyTouches(old(server), server, k)
      ensures ok <==> old(server.patrols[k].status == PatrolQueued && server.patrols[k].workerRunId == w)
      ensures server.workers == old(server.workers)
      ensures !ok ==> server == old(server)
      ensures ok ==> server.patrols == old(server.patrols[k := server.patrols[k].(status := PatrolRunning)])
    {
      var action := StartModelInvestigation(server, k, w);
      ok := action.Some?;
      ghost var next := Executing(if ok then RunAgent(w, k) else SendFailure(w));
      StartModelLeads(config, begun, server, w, k, action);
      if ok {
        StartModelTouches(server, k, w, action.value);
        server := action.value;
      }
      at := next;
    }

    /** Checks that run and investigation belong together, and starts a queued investigation. */
    method BindAndStart(w: string, k: string) returns (patrol: PatrolRun)
      requires Valid() && w in server.workers && server.workers[w].modelInvestigation
      requires server.workers[w].status == RunRunning && server.workers[w].workerId == config.workerId
      requires k == server.workers[w].work.patrolRunId && at == Executing(BindPatrol(w, k))
      modifies this
      ensures Valid() && at == Executing(RunAgent(w, k)) && Begun(old(server), server, k)
      ensures patrol == old(server).patrols[k]
    {
      OwnKey(server, w);
      assert WorkerOk(server, w) && PatrolOk(server, k);
      patrol := server.patrols[k];
      BindLeads(config, begun, server, w, k);
      Arrive(Executing(if patrol.status == PatrolQueued then StartModel(w, k) else RunAgent(w, k)));
      if patrol.status == PatrolComplete {
        assert false;  // its WorkerRun would be Done
      }
      if patrol.status == PatrolQueued {
        var started := PostStartModel(w, k);
      }
    }

    /** The investigation itself; false is the error that makes the caller report a failure. */
    method RunModelPatrol(w: string, k: string, codex: Codex) returns (ok: bool)
      requires Valid() && w in server.workers && server.workers[w].modelInvestigation
      requires server.workers[w].status == RunRunning && server.workers[w].workerId == config.workerId
      requires k == server.workers[w].work.patrolRunId && at == Executing(BindPatrol(w, k))
      modifies this
      ensures Valid() && at == (if ok then Idle else Executing(SendFailure(w)))
      ensures OnlyTouches(old(server), server, k)
      ensures k in server.patrols && k in old(server).patrols && server.patrols[k].work == old(server).patrols[k].work
      ensures ok <==> Succeeds(old(server).patrols[k], k, codex)
      ensures ok ==> EndsAs(old(server), server, w, codex) && Settled(server.patrols[k].status)
      ensures !ok ==> Begun(old(server), server, k)
    {
      ghost var start := server;
      OwnKey(server, w);
      var patrol := BindAndStart(w, k);
      ghost var mid := server;
      var result := codex(k, EvidenceIn(patrol));
      AgentLeads(config, begun, server, w, k, result);
      Arrive(Executing(if result.Some? then SendReport(w, result.value) else SendFailure(w)));
      if result.None? {
        return false;
      }
      ok := PostReport(w, k, result.value);
      TouchesTransitive(start, mid, server, k);
      if ok {
        ReportedEndsAs(start, mid, server, w, k, codex);
      }
    }

    /** Reports the failure of a run whose investigation went wrong. */
    method FailRun(ghost start: Server, w: string, k: string) returns (ok: bool)
      requires Valid() && w in server.workers && server.workers[w].modelInvestigation
      requires server.workers[w].status == RunRunning && server.workers[w].workerId == config.workerId
      requires k == server.workers[w].work.patrolRunId && at == Executing(SendFailure(w))
      requires OnlyTouches(start, server, k)
      modifies this
      ensures Valid() && at == Idle && ok && OnlyTouches(start, server, k) && k in old(server).patrols
      ensures server.workers == old(server.workers[w := server.workers[w].(status := RunFailed)])
      ensures Open(old(server.patrols[k].status)) ==>
                server.patrols == old(server.patrols[k := server.patrols[k].(status := PatrolFailed)])
      ensures Settled(old(server.patrols[k].status)) ==> server.patrols == old(server.patrols)
    {
      OwnKey(server, w);
      assert PatrolOk(server, k) && WorkerOk(server, w);
      ghost var mid := server;
      ok := PostFailure(w, k);
      TouchesTransitive(start, mid, server, k);
    }

    /** Executes a running run of this worker; whatever fails in the investigation is reported as its failure. */
    method ExecuteWorkerRun(w: string, k: string, codex: Codex) returns (ok: bool)
      requires Valid() && w in server.workers && server.workers[w].modelInvestigation
      requires server.workers[w].status == RunRunning && server.workers[w].workerId == config.workerId
      requires k == server.workers[w].work.patrolRunId && at == Executing(BindPatrol(w, k))
      modifies this
      ensures Valid() && at == Idle && ok && OnlyTouches(old(server), server, k)
      ensures k in server.patrols && k in old(server).patrols && Settled(server.patrols[k].status)
      ensures server.patrols[k].work == old(server).patrols[k].work
      ensures w in server.workers && server.workers[w].status in {RunDone, RunFailed}
      ensures EndsAs(old(server), server, w, codex)
    {
      OwnKey(server, w);
      ghost var start := server;
      ok := RunModelPatrol(w, k, codex);
      if !ok {
        ghost var mid := server;
        ok := FailRun(start, w, k);
        FailedEndsAs(start, mid, server, w, k, codex);
      }
    }

    /** Recovers a run that an earlier life of this worker left running. */
    method HandleRunning(w: string, codex: Codex) returns (ok: bool)
      requires Valid() && at == Taking(ReadRunning(w))
      modifies this
      ensures Valid() && at == Idle
      ensures ok <==> w in old(server).workers
      ensures w !in old(server).workers || !IsMine(old(server).workers[w], config, RunRunning) ==> server == old(server)
      ensures w in old(server).workers && IsMine(old(server).workers[w], config, RunRunning) ==>
                RanToTheEnd(old(server), server, w, config.workerId) && EndsAs(old(server), server, w, codex)
    {
      ReadRunningLeads(config, begun, server, w);
      if w !in server.workers {
        Arrive(Idle);
        return false;
      }
      ok := true;
      ClaimableIff(server, w, config);
      assert WorkerOk(server, w);
      if RecoverableBy(server.workers[w], config) {
        OwnKey(server, w);
        Arrive(Executing(BindPatrol(w, server.workers[w].work.patrolRunId)));
        ok := ExecuteWorkerRun(w, server.workers[w].work.patrolRunId, codex);
      } else {
        Arrive(Idle);
      }
    }

    method PostStartLocal(w: string, ghost next: Pc) returns (ok: bool)
      requires Valid() && w in server.workers
      requires StartsAt(at, w, next)
      modifies this
      ensures Valid() && at == if ok then next else Idle
      ensures ok <==> old(server.workers[w].status == RunClaimed && server.workers[w].claimed
                          && server.workers[w].workerId == config.workerId)
      ensures !ok ==> server == old(server)
      ensures ok ==> server == old(server.(workers := server.workers[w := server.workers[w].(status := RunRunning)]))
    {
      var action := StartLocal(server, w, config.workerId);
      ok := action.Some?;
      StartLeads(config, begun, server, at, w, action, next);
      if ok {
        StartLocalKeeps(server, w, config.workerId);
        server := action.value;
      }
      at := if ok then next else Idle;
    }

    method PostClaim(w: string, ghost run: WorkerRun) returns (ok: bool)
      requires Valid() && w in server.workers && at == Taking(ClaimRun(w, run))
      modifies this
      ensures Valid() && at == if ok then Taking(StartRun(w, run)) else Idle
      ensures ok
              <==> old(server.workers[w].status == RunQueued
                       && server.workers[w].work.allowedWorkerId == config.workerId)
      ensures !ok ==> server == old(server)
      ensures ok ==> server == old(server.(workers := server.workers[w := server.workers[w].(
                                 status := RunClaimed, workerId := config.workerId, claimed := true)]))
    {
      var action := Claim(server, w, config.workerId);
      ok := action.Some?;
      ghost var next := if ok then Taking(StartRun(w, run)) else Idle;
      ClaimLeads(config, begun, server, w, run, action);
      if ok {
        ClaimKeeps(server, w, config.workerId);
        server := action.value;
      }
      at := next;
    }

    /** Claims and starts a run that is this worker's. */
    method TakeOver(w: string, k: string) returns (ok: bool)
      requires Valid() && w in server.workers && ClaimableBy(server.workers[w], config)
      requires at == Taking(ClaimRun(w, server.workers[w])) && server.workers[w].modelInvestigation && k == KeyOf(w)
      modifies this
      ensures Valid() && at == Executing(BindPatrol(w, k)) && ok
      ensures OnlyTouches(old(server), server, k) && server.patrols == old(server).patrols && w in server.workers
      ensures server.workers[w].modelInvestigation && server.workers[w].status == RunRunning
      ensures server.workers[w].workerId == config.workerId && server.workers[w].work == old(server).workers[w].work
    {
      OwnKey(server, w);
      ghost var start, run := server, server.workers[w];
      ok := PostClaim(w, run);
      ghost var claimed := server;
      RunTouched(start, w, claimed.workers[w], k);
      ok := PostStartLocal(w, Executing(BindPatrol(w, k)));
      RunTouched(claimed, w, server.workers[w], k);
      TouchesTransitive(start, claimed, server, k);
    }

    /** Claims, starts and executes a run that is this worker's. */
    method ClaimAndRun(w: string, codex: Codex) returns (ok: bool)
      requires Valid() && w in server.workers && ClaimableBy(server.workers[w], config)
      requires at == Taking(ClaimRun(w, server.workers[w]))
      modifies this
      ensures Valid() && at == Idle && ok && RanToTheEnd(old(server), server, w, config.workerId)
      ensures EndsAs(old(server), server, w, codex)
    {
      ClaimableIsAssigned(server, w, config);
      ghost var start := server;
      var k := server.workers[w].work.patrolRunId;
      ok := TakeOver(w, k);
      ghost var running := server;
      ok := ExecuteWorkerRun(w, k, codex);
      TouchesTransitive(start, running, server, k);
    }

    /** Claims, starts and executes a queued run, if it is this worker's to claim. */
    method HandleQueued(w: string, codex: Codex) returns (ok: bool)
      requires Valid() && at == Taking(ReadQueued(w))
      modifies this
      ensures Valid() && at == Idle
      ensures ok <==> w in old(server).workers
      ensures w !in old(server).workers || !IsMine(old(server).workers[w], config, RunQueued) ==> server == old(server)
      ensures w in old(server).workers && IsMine(old(server).workers[w], config, RunQueued) ==>
                RanToTheEnd(old(server), server, w, config.workerId) && EndsAs(old(server), server, w, codex)
    {
      ReadQueuedLeads(config, begun, server, w);
      if w !in server.workers {
        Arrive(Idle);
        return false;
      }
      ok := true;
      ClaimableIff(server, w, config);
      if ClaimableBy(server.workers[w], config) {
        Arrive(Taking(ClaimRun(w, server.workers[w])));
        ok := ClaimAndRun(w, codex);
      } else {
        Arrive(Idle);
      }
    }

    /** Creates the PatrolRun of a fingerprint; a conflict is no error, but ends the scan of it. */
    method PostCreate(k: string, evidence: Evidence) returns (created: bool)
      requires Valid() && IsKey(k) && at == Scanning(Create(k, evidence))
      modifies this
      ensures Valid() && at == if created then Scanning(Request(k, evidence)) else Idle
      ensures created <==> k !in old(server).patrols
      ensures !created ==> server == old(server)
      ensures created ==>
                server.patrols == old(server).patrols[k := NEW_PATROL] && server.workers == old(server).workers
    {
      var action := CreatePatrol(server, k);
      created := action.Some?;
      ghost var next := if created then Scanning(Request(k, evidence)) else Idle;
      CreateLeads(config, begun, server, k, evidence, action);
      if created {
        CreatePatrolKeeps(server, k);
        server := action.value;
      }
      at := next;
    }

    /** Asks for the investigation; the accepted request hands its assignment to the derived WorkerRun. */
    method PostRequest(k: string, evidence: Evidence) returns (ok: bool)
      requires Valid() && k in server.patrols && evidence.observationId != "" && evidence.source != ""
      requires at == Scanning(Request(k, evidence))
      modifies this
      ensures Valid() && at == Idle && OnlyTouches(old(server), server, k)
      ensures ok <==> old(server.patrols[k].status) == PatrolCreated
      ensures !ok ==> server == old(server)
      ensures ok ==> AwaitsClaim(server, k) && server.patrols[k] == Asked(old(server), k, evidence, config)
    {
      var action := RequestModelInvestigation(
        server, k, k, evidence.observationId, evidence.source, WorkerIdOf(k), AssignmentFor(k, config));
      ok := action.Some?;
      RequestLeads(config, begun, server, k, evidence, action);
      if ok {
        RequestHandsOut(server, k, evidence, config, action.value);
        server := HandOut(action.value, action.value.patrols[k]);
      }
      at := Idle;
    }

    method PostReconcile(k: string) returns (ok: bool)
      requires Valid() && k in server.patrols
      requires WorkerIdOf(k) in server.workers ==> server.workers[WorkerIdOf(k)].status == RunQueued
      requires at == Scanning(Reconcile(k))
      modifies this
      ensures Valid() && at == Idle && OnlyTouches(old(server), server, k)
      ensures ok <==> old(server.patrols[k].status) == PatrolQueued
      ensures !ok ==> server == old(server)
      ensures ok ==> AwaitsClaim(server, k) && server.patrols == old(server).patrols
    {
      var action := ReconcileModelWorker(server, k);
      ok := action.Some?;
      ReconcileLeads(config, begun, server, k, action);
      if ok {
        ReconcileKeeps(server, k);
        assert PatrolOk(server, k);
        HandOutKeeps(action.value, k);
        HandOutAssigns(action.value, k);
        server := HandOut(action.value, action.value.patrols[k]);
      }
      at := Idle;
    }

    /** Replays the report of a finished run; the policy refuses it to any worker but the claimant. */
    method PostReplayResult(w: string, k: string) returns (ok: bool)
      requires Valid() && k in server.patrols && w == server.patrols[k].workerRunId && w in server.workers
      requires Open(server.patrols[k].status) && server.workers[w].status == RunDone && at == Scanning(ReplayResult(w))
      modifies this
      ensures Valid() && at == Idle && OnlyTouches(old(server), server, k)
      ensures ok <==> old(server.workers[w].workerId) == config.workerId
      ensures !ok ==> server == old(server)
      ensures ok ==> server.patrols == old(server.patrols[k := server.patrols[k].(
                                                status := PatrolComplete, report := server.workers[w].report)])
    {
      ReplayedIsOwn(server, w, k);
      var report := server.workers[w].report;
      var action := ReplayInvestigationResult(server, w, config.workerId);
      ok := action.Some?;
      ReplayResultLeads(config, begun, server, w, k, action);
      if ok {
        ReplayResultKeeps(server, w, config.workerId);
        OutcomeCloses(server, action.value, w, k, CompletePatrol(k, w, report),
                      server.patrols[k].(status := PatrolComplete, report := report));
        SettleKeeps(action.value, CompletePatrol(k, w, report));
        server := Settle(action.value, CompletePatrol(k, w, report));
      }
      at := Idle;
    }

    /** Replays the failure of a run that failed or timed out; again only for its claimant. */
    method PostReplayFailure(w: string, k: string) returns (ok: bool)
      requires Valid() && k in server.patrols && w == server.patrols[k].workerRunId && w in server.workers
      requires Open(server.patrols[k].status) && server.workers[w].status in {RunFailed, RunTimedOut}
      requires at == Scanning(ReplayFailure(w))
      modifies this
      ensures Valid() && at == Idle && OnlyTouches(old(server), server, k)
      ensures ok <==> old(server.workers[w].workerId) == config.workerId
      ensures !ok ==> server == old(server)
      ensures ok ==> server.patrols == old(server.patrols[k := server.patrols[k].(status := PatrolFailed)])
    {
      ReplayedIsOwn(server, w, k);
      var action := ReplayInvestigationFailure(server, w, config.workerId);
      ok := action.Some?;
      ReplayFailureLeads(config, begun, server, w, k, action);
      if ok {
        ReplayFailureKeeps(server, w, config.workerId);
        OutcomeCloses(server, action.value, w, k, FailPatrol(k, w), server.patrols[k].(status := PatrolFailed));
        SettleKeeps(action.value, FailPatrol(k, w));
        server := Settle(action.value, FailPatrol(k, w));
      }
      at := Idle;
    }

    /** Starts a run that this worker claimed and never started, and goes on with it. */
    method ResumeClaimed(w: string, k: string, codex: Codex) returns (ok: bool)
      requires Valid() && w in server.workers && server.workers[w].status == RunClaimed && k == KeyOf(w)
      requires server.workers[w].claimed && server.workers[w].workerId == config.workerId
      requires at == Scanning(StartClaimed(w))
      modifies this
      ensures Valid() && at == Idle && ok && OnlyTouches(old(server), server, k)
      ensures k in server.patrols && k in old(server).patrols && server.patrols[k].work == old(server).patrols[k].work
      ensures Settled(server.patrols[k].status)
              || (server.patrols == old(server).patrols && w in server.workers
                  && server.workers[w].status == RunRunning && server.workers[w].modelInvestigation)
      ensures DueStays(old(server), server, k, config.workerId, codex)
    {
      ghost var start := server;
      assert WorkerOk(server, w);
      OwnKey(server, w);
      ok := PostStartLocal(w, Taking(ReadRunning(w)));
      ghost var running := server;
      assert OnlyTouches(start, running, k);
      ClaimableIff(server, w, config);
      ok := HandleRunning(w, codex);
      TouchesTransitive(start, running, server, k);
      ResumedDueStays(start, running, server, w, k, config.workerId, codex);
    }

    /** Replays the outcome of a run that is over. */
    method ReplayOutcome(w: string, k: string, ghost codex: Codex) returns (ok: bool)
      requires Valid() && k in server.patrols && w == server.patrols[k].workerRunId && w in server.workers
      requires Open(server.patrols[k].status) && server.workers[w].status in {RunDone, RunFailed, RunTimedOut}
      requires at == Scanning(if server.workers[w].status == RunDone then ReplayResult(w) else ReplayFailure(w))
      modifies this
      ensures Valid() && at == Idle && OnlyTouches(old(server), server, k)
      ensures ok <==> old(server.workers[w].workerId) == config.workerId
      ensures !ok ==> server == old(server)
      ensures ok ==> Carried(old(server), server, k, config.workerId)
      ensures DueStays(old(server), server, k, config.workerId, codex)
    {
      ReplayedIsOwn(server, w, k);
      if server.workers[w].status == RunDone {
        ok := PostReplayResult(w, k);
      } else {
        ok := PostReplayFailure(w, k);
      }
      if ok {
        OwnRunCarries(old(server), server, k, config.workerId);
        ReplayedDueStays(old(server), server, k, config.workerId, codex);
      }
    }

    /** The WorkerRun of an open PatrolRun has been read: what the scan does about it. */
    method ResumeRun(k: string, w: string, codex: Codex) returns (ok: bool)
      requires Valid() && k in server.patrols && Open(server.patrols[k].status)
      requires w == server.patrols[k].workerRunId && w in server.workers
      requires at == AfterWorkerRead(k, server.patrols[k], Some(server.workers[w]), config.workerId)
      modifies this
      ensures Valid() && at == Idle && OnlyTouches(old(server), server, k)
      ensures ok <==> !Refused(old(server), k, config.workerId)
      ensures !ok ==> server == old(server)
      ensures ok ==> Carried(old(server), server, k, config.workerId)
      ensures DueStays(old(server), server, k, config.workerId, codex)
    {
      ok := true;
      assert PatrolOk(server, k) && WorkerOk(server, w);
      WorkerIdInvertible(k);
      var run := server.workers[w];
      if server.patrols[k].status == PatrolQueued && run.work.patrolRunId == "" && run.status == RunQueued {
        ok := PostReconcile(k);
        HandOutCarries(old(server), server, k, config.workerId);
        UnfinishedDueStays(old(server), server, k, config.workerId, codex);
      } else if run.status == RunClaimed && run.workerId == config.workerId {
        ok := ResumeClaimed(w, k, codex);
        OwnRunCarries(old(server), server, k, config.workerId);
      } else if run.status in {RunDone, RunFailed, RunTimedOut} {
        ok := ReplayOutcome(w, k, codex);
      } else {
        UnderWay(server, k, config.workerId);
      }
    }

    method ResumeOpen(k: string, codex: Codex) returns (ok: bool)
      requires Valid() && k in server.patrols && Open(server.patrols[k].status)
      requires at == Scanning(ReadWorker(k, server.patrols[k]))
      modifies this
      ensures Valid() && at == Idle && OnlyTouches(old(server), server, k)
      ensures ok <==> !Refused(old(server), k, config.workerId)
      ensures !ok ==> server == old(server)
      ensures ok ==> Carried(old(server), server, k, config.workerId)
      ensures DueStays(old(server), server, k, config.workerId, codex)
    {
      ok := true;
      assert PatrolOk(server, k);
      var w := server.patrols[k].workerRunId;
      ReadWorkerLeads(config, begun, server, k, server.patrols[k]);
      Arrive(AfterWorkerRead(k, server.patrols[k], Lookup(server.workers, w), config.workerId));
      if w in server.workers {
        ok := ResumeRun(k, w, codex);
      } else if server.patrols[k].status == PatrolQueued {
        ok := PostReconcile(k);
        HandOutCarries(old(server), server, k, config.workerId);
      }
    }

    /** Creates the PatrolRun of a new fingerprint and asks for its investigation. */
    method CreateAndRequest(k: string, evidence: Evidence) returns (ok: bool)
      requires Valid() && IsKey(k) && evidence.observationId != "" && evidence.source != ""
      requires k !in server.patrols && at == Scanning(Create(k, evidence))
      modifies this
      ensures Valid() && at == Idle && ok && OnlyTouches(old(server), server, k)
      ensures AwaitsClaim(server, k) && server.patrols[k] == Asked(old(server), k, evidence, config)
    {
      ghost var start := server;
      var created := PostCreate(k, evidence);
      ghost var mid := server;
      assert OnlyTouches(start, mid, k);
      ok := PostRequest(k, evidence);
      TouchesTransitive(start, mid, server, k);
    }

    /** The scan of a fingerprint whose PatrolRun nobody has asked for yet. */
    method ScanCreated(k: string, evidence: Evidence)
      requires Valid() && k in server.patrols && evidence.observationId != "" && evidence.source != ""
      requires server.patrols[k].status == PatrolCreated && at == Scanning(Request(k, evidence))
      modifies this
      ensures Valid() && at == Idle && OnlyTouches(old(server), server, k)
      ensures Carried(old(server), server, k, config.workerId) && !Refused(old(server), k, config.workerId)
      ensures AwaitsClaim(server, k) && server.patrols[k] == Asked(old(server), k, evidence, config)
    {
      var ok := PostRequest(k, evidence);
      RequestCarries(old(server), server, k, config.workerId);
    }

    /** The scan of a fingerprint whose investigation has been asked for. */
    method ScanAsked(k: string, codex: Codex) returns (ok: bool)
      requires Valid() && AskedAlready(server, k)
      requires at == if Open(server.patrols[k].status) then Scanning(ReadWorker(k, server.patrols[k])) else Idle
      modifies this
      ensures Valid() && at == Idle && OnlyTouches(old(server), server, k)
      ensures ok <==> !Refused(old(server), k, config.workerId)
      ensures !ok ==> server == old(server)
      ensures ok ==> Carried(old(server), server, k, config.workerId)
      ensures Settled(old(server).patrols[k].status) ==> server == old(server)
      ensures DueStays(old(server), server, k, config.workerId, codex)
    {
      ok := true;
      if Open(server.patrols[k].status) {
        ok := ResumeOpen(k, codex);
      } else {
        SettledCarries(server, k, config.workerId);
      }
    }

    /** The scan of a fingerprint that has a PatrolRun. */
    method ScanKnown(k: string, evidence: Evidence, codex: Codex) returns (ok: bool)
      requires Valid() && IsKey(k) && evidence.observationId != "" && evidence.source != ""
      requires k in server.patrols && at == AfterPatrolRead(k, evidence, Some(server.patrols[k]))
      modifies this
      ensures Valid() && at == Idle && OnlyTouches(old(server), server, k)
      ensures ok <==> !Refused(old(server), k, config.workerId)
      ensures !ok ==> server == old(server)
      ensures ok ==> Carried(old(server), server, k, config.workerId)
      ensures Settled(old(server).patrols[k].status) ==> server == old(server)
      ensures DueStays(old(server), server, k, config.workerId, codex)
      ensures !AskedAlready(old(server), k) ==>
                AwaitsClaim(server, k) && server.patrols[k] == Asked(old(server), k, evidence, config)
    {
      ok := true;
      if server.patrols[k].status == PatrolCreated {
        ScanCreated(k, evidence);
      } else {
        ok := ScanAsked(k, codex);
      }
    }

    /** The scan of one fingerprint. */
    method QueueInvestigation(k: string, evidence: Evidence, codex: Codex) returns (ok: bool)
      requires Valid() && IsKey(k) && evidence.observationId != "" && evidence.source != ""
      requires at == Scanning(ReadPatrol(k, evidence))
      modifies this
      ensures Valid() && at == Idle && OnlyTouches(old(server), server, k)
      ensures ok <==> |evidence.source| <= 65536 && !Refused(old(server), k, config.workerId)
      ensures !ok ==> server == old(server)
      ensures ok ==> Carried(old(server), server, k, config.workerId)
      ensures k in old(server).patrols && Settled(old(server).patrols[k].status) ==> server == old(server)
      ensures DueStays(old(server), server, k, config.workerId, codex)
      ensures ok && !AskedAlready(old(server), k) ==>
                AwaitsClaim(server, k) && server.patrols[k] == Asked(old(server), k, evidence, config)
    {
      ReadPatrolLeads(config, begun, server, k, evidence);
      if |evidence.source| > 65536 {
        Arrive(Idle);
        return false;
      }
      Arrive(AfterPatrolRead(k, evidence, Lookup(server.patrols, k)));
      if k in server.patrols {
        ok := ScanKnown(k, evidence, codex);
      } else {
        ok := CreateAndRequest(k, evidence);
        RequestCarries(old(server), server, k, config.workerId);
      }
    }

    /** A boot query: fifty runs with this status, or all of them if there are fewer, each once and in some order. */
    method QueryBootRuns(status: WorkerStatus) returns (rows: seq<string>)
      ensures |rows| == if 50 <= |WithStatus(server, status)| then 50 else |WithStatus(server, status)|
      ensures forall i, j | 0 <= i < j < |rows| :: rows[i] != rows[j]
      ensures forall i | 0 <= i < |rows| :: rows[i] in WithStatus(server, status)
      ensures |rows| < 50 ==> forall w | w in WithStatus(server, status) :: w in rows
    {
      rows := [];
      var left := WithStatus(server, status);
      while left != {} && |rows| < WINDOW
        invariant |rows| <= WINDOW && |rows| + |left| == |WithStatus(server, status)|
        invariant forall i, j | 0 <= i < j < |rows| :: rows[i] != rows[j]
        invariant forall i | 0 <= i < |rows| :: rows[i] in WithStatus(server, status) && rows[i] !in left
        invariant forall w | w in WithStatus(server, status) :: w in left || w in rows
        decreases left
      {
        var w :| w in left;
        left := left - {w};
        rows := rows + [w];
      }
    }

    method ScanSources(scans: seq<(string, Evidence)>, codex: Codex) returns (ok: bool)
      requires Valid() && at == Idle && forall i | 0 <= i < |scans| :: ScanInput(scans[i])
      modifies this
      ensures Valid() && at == Idle
      ensures ok <==> forall i | 0 <= i < |scans| ::
                        |scans[i].1.source| <= 65536 && !Refused(old(server), scans[i].0, config.workerId)
      ensures ok ==> ScannedUpTo(old(server), server, scans, |scans|, config.workerId)
      ensures AllDueStays(old(server), server, config.workerId, codex)
      ensures ok ==> DueFrom(old(server), server, scans, |scans|, config, codex)
      ensures |Unfinished(server)| <= |Unfinished(old(server))| + |scans|
    {
      ok := true;
      for n := 0 to |scans|
        invariant Valid() && at == Idle && ok
        invariant ScannedUpTo(old(server), server, scans, n, config.workerId)
        invariant AllDueStays(old(server), server, config.workerId, codex)
        invariant DueFrom(old(server), server, scans, n, config, codex)
        invariant |Unfinished(server)| <= |Unfinished(old(server))| + n
      {
        ghost var before := server;
        var (k, evidence) := scans[n];
        assert ScanInput(scans[n]);
        RefusalUnchanged(old(server), before, scans, n, config.workerId);
        Enter(Scanning(ReadPatrol(k, evidence)));
        ok := QueueInvestigation(k, evidence, codex);
        UnfinishedAfterScan(before, server, k);
        TouchedDueStays(before, server, k, config.workerId, codex);
        DueStaysOn(old(server), before, server, config.workerId, codex);
        if !ok {
          return;
        }
        ScanSetsDue(before, server, k, evidence, config, codex);
        DueOneMore(old(server), before, server, scans, n, config, codex);
        ScannedOneMore(old(server), before, server, scans, n, config.workerId);
      }
    }

    /** One row of the query for running runs. */
    method RecoverRow(ghost start: Server, rows: seq<string>, n: nat, full: bool, codex: Codex)
      requires Valid() && at == Idle && n < |rows| && RecoveredTo(start, server, config, rows, n, full, codex)
      modifies this
      ensures Valid() && at == Idle && RecoveredTo(start, server, config, rows, n + 1, full, codex)
    {
      ghost var before := server;
      Enter(Taking(ReadRunning(rows[n])));
      ClaimableIff(server, rows[n], config);
      var ok := HandleRunning(rows[n], codex);
      RecoveredOneMore(start, before, server, config, rows, n, full, codex);
    }

    /** One row of the query for queued runs. */
    method ClaimRow(ghost start: Server, rows: seq<string>, n: nat, full: bool, codex: Codex)
      requires Valid() && at == Idle && n < |rows| && ClaimedTo(start, server, config, rows, n, full, codex)
      modifies this
      ensures Valid() && at == Idle && ClaimedTo(start, server, config, rows, n + 1, full, codex)
    {
      ghost var before := server;
      Enter(Taking(ReadQueued(rows[n])));
      ClaimableIff(server, rows[n], config);
      var ok := HandleQueued(rows[n], codex);
      ClaimedOneMore(start, before, server, config, rows, n, full, codex);
    }

    method QueryRecover(ghost codex: Codex) returns (rows: seq<string>, full: bool)
      ensures full <==> 50 <= |WithStatus(server, RunRunning)|
      ensures RecoveredTo(server, server, config, rows, 0, full, codex)
    {
      rows := QueryBootRuns(RunRunning);
      full := |rows| == WINDOW;
      RowsToRecover(server, config, rows, full, codex);
    }

    method RecoverRows(ghost start: Server, rows: seq<string>, full: bool, codex: Codex)
      requires Valid() && at == Idle && RecoveredTo(start, server, config, rows, 0, full, codex)
      modifies this
      ensures Valid() && at == Idle && RecoveredTo(start, server, config, rows, |rows|, full, codex)
    {
      for n := 0 to |rows|
        invariant Valid() && at == Idle && RecoveredTo(start, server, config, rows, n, full, codex)
      {
        RecoverRow(start, rows, n, full, codex);
      }
    }

    /** Recovers every running run of this worker that the boot query shows: all of them unless fifty are running. */
    method RecoverRunning(codex: Codex) returns (full: bool)
      requires Valid() && at == Idle
      modifies this
      ensures Valid() && at == Idle && CarriesAll(old(server), server, config.workerId)
      ensures AllDueStays(old(server), server, config.workerId, codex)
      ensures full <==> 50 <= |WithStatus(old(server), RunRunning)|
      ensures !full ==> RecoverableIn(server, config, [])
      ensures |Unfinished(server)| <= |Unfinished(old(server))|
    {
      ghost var start := server;
      var rows;
      rows, full := QueryRecover(codex);
      RecoverRows(start, rows, full, codex);
      AllRecovered(start, server, config, rows, full, codex);
    }

    method QueryClaim(ghost codex: Codex) returns (rows: seq<string>, full: bool)
      ensures full <==> 50 <= |WithStatus(server, RunQueued)|
      ensures ClaimedTo(server, server, config, rows, 0, full, codex)
    {
      rows := QueryBootRuns(RunQueued);
      full := |rows| == WINDOW;
      RowsToClaim(server, config, rows, full, codex);
    }

    method ClaimRows(ghost start: Server, rows: seq<string>, full: bool, codex: Codex)
      requires Valid() && at == Idle && ClaimedTo(start, server, config, rows, 0, full, codex)
      modifies this
      ensures Valid() && at == Idle && ClaimedTo(start, server, config, rows, |rows|, full, codex)
    {
      for n := 0 to |rows|
        invariant Valid() && at == Idle && ClaimedTo(start, server, config, rows, n, full, codex)
      {
        ClaimRow(start, rows, n, full, codex);
      }
    }

    /** Claims and executes every queued run of this worker that the boot query shows: all unless fifty are queued. */
    method ClaimQueued(codex: Codex) returns (full: bool)
      requires Valid() && at == Idle
      modifies this
      ensures Valid() && at == Idle && CarriesAll(old(server), server, config.workerId)
      ensures AllDueStays(old(server), server, config.workerId, codex)
      ensures full <==> 50 <= |WithStatus(old(server), RunQueued)|
      ensures !full ==> ClaimableIn(server, config, [])
      ensures RecoverableIn(old(server), config, []) ==> RecoverableIn(server, config, [])
    {
      ghost var start := server;
      var rows;
      rows, full := QueryClaim(codex);
      ClaimRows(start, rows, full, codex);
      AllClaimed(start, server, config, rows, full, codex);
    }

    /**
     * One pass. It is aborted exactly when some scan is refused. Otherwise, unless a boot query was full,
     * the investigations of the scanned evidence that are over afterwards are those that were over before
     * and those nobody but this worker could run, and each is exactly what was due of it: what it was if it was over
     * or another's, its own finished run's outcome, or what the agent reports on the evidence asked for, first
     * scanned or recorded before. No query is full when the runs that are not over and the scans are fewer than
     * fifty together. However the pass ends, what is due of an investigation that was asked for stays.
     */
    method Pass(scans: seq<(string, Evidence)>, codex: Codex) returns (ok: bool, full: bool)
      requires Valid() && at == Idle && forall i | 0 <= i < |scans| :: ScanInput(scans[i])
      modifies this
      ensures Valid() && at == Idle
      ensures ok <==> forall i | 0 <= i < |scans| ::
                        |scans[i].1.source| <= 65536 && !Refused(old(server), scans[i].0, config.workerId)
      ensures |Unfinished(old(server))| + |scans| < 50 ==> !full
      ensures ok && !full && LOCAL_CODEX in config.capabilities ==>
                forall i | 0 <= i < |scans| :: Over(server, scans[i].0) <==>
                  Over(old(server), scans[i].0) || Ours(old(server), scans[i].0, config.workerId)
      ensures ok && !full && LOCAL_CODEX in config.capabilities ==> DueDone(old(server), server, scans, config, codex)
      ensures AllDueStays(old(server), server, config.workerId, codex)
    {
      full := false;
      ok := ScanSources(scans, codex);
      if !ok {
        return;
      }
      ghost var scanned := server;
      StatusIsUnfinished(scanned, RunRunning);
      var fullRunning := RecoverRunning(codex);
      ghost var recovered := server;
      StatusIsUnfinished(recovered, RunQueued);
      var fullQueued := ClaimQueued(codex);
      full := fullRunning || fullQueued;
      DueStaysOn(scanned, recovered, server, config.workerId, codex);
      DueStaysOn(old(server), scanned, server, config.workerId, codex);
      if !full && LOCAL_CODEX in config.capabilities {
        forall i | 0 <= i < |scans|
          ensures Over(server, scans[i].0) <==>
                  Over(old(server), scans[i].0) || Ours(old(server), scans[i].0, config.workerId)
          ensures Over(server, scans[i].0) || Foreign(server, scans[i].0, config.workerId)
        {
          assert ScanInput(scans[i]) && Carried(old(server), scanned, scans[i].0, config.workerId);
          PassSettles(old(server), scanned, recovered, server, scans[i].0, config);
        }
        DueIsDone(old(server), scanned, server, scans, config, codex);
      }
    }
  }
}
