/**
 * The evaluation gate as an observer sees it: what one handling of a queued
 * EvaluationRun read and posted, in order, and which posts the gate permits
 * after what was read. The server may answer anything.
 */
module EvaluationGate {
  import opened Text

  /** `commands` are those an evaluation of a code change runs, in this order. */
  datatype Config = Config(workerId: string, enableExecution: bool, commands: seq<string>)

  datatype EvaluationRun = EvaluationRun(status: string, workCycleId: string, evaluatorId: string)
  datatype WorkCycle = WorkCycle(status: string, implementerRunId: string, reviewerRunId: string, reviewPassed: bool)
  datatype ReviewRun = ReviewRun(status: string, workerRunId: string)
  datatype CommandOutput = TimedOut | Exited(success: bool)

  /** The values of `failure_classification`. */
  datatype Classification =
    Passed | EvaluatorTimeout | CommandExitFailure | ParentWorkCycleTerminal | ReviewTerminalWithoutApproval

  datatype EvaluationAction = Claim | Start | Pass | Fail(classification: Classification)

  /** What the reviewing agent decides. */
  datatype Decision = Approves | WantsChanges | Escalates

  datatype ReviewAction = ClaimReview | StartReview | Approve | RequestChanges | Escalate | FailReview

  datatype Event =
    | SawEvaluation(run: EvaluationRun)
    | SawCycle(cycle: WorkCycle)
    | SawReview(review: ReviewRun)
    | SawWorker(sweep: bool)
    | SawReviewWorker
    | ReviewerDecided(decision: Option<Decision>)
    | PreparedWorktree
    | RanCommand(command: string, output: CommandOutput)
    | Posted(action: EvaluationAction, ok: bool)
    | PostedReview(verdict: ReviewAction, ok: bool)
    | CallFailed

  datatype Stage = Untouched | Claimed | Started | Decided

  /**
   * What the trace so far amounts to. `failed` says that a read failed or a post was refused or lost; `review` is
   * the run of the last cycle, once it was read, and `earlier` the one last read before that cycle; `cycleReads`
   * says how often the cycle was read. `outputs` are those of the commands run so far, once the worktree is there,
   * and `decision` is the agent's, once it was asked.
   */
  datatype Gate = Gate(
    run: Option<EvaluationRun>, cycle: Option<WorkCycle>, review: Option<ReviewRun>, sweep: Option<bool>,
    outputs: Option<seq<CommandOutput>>, stage: Stage, reviewStage: Stage, failed: bool,
    earlier: Option<ReviewRun>, cycleReads: nat, decision: Option<Option<Decision>>)

  const CLOSED := Gate(None, None, None, None, None, Untouched, Untouched, false, None, 0, None)

  predicate Terminal(cycle: WorkCycle) {
    cycle.status == "Complete" || cycle.status == "Failed"
  }

  predicate Precludes(review: ReviewRun) {
    review.status == "ChangesRequested" || review.status == "Escalated" || review.status == "Failed"
  }

  /** The cycle allows the evaluation to be decided on its merits. */
  ghost predicate Approved(cycle: WorkCycle) {
    cycle.reviewPassed && cycle.status != "Complete" && cycle.status != "Failed"
  }

  /** Why a queued evaluation can never be decided on its merits, if so. */
  function Blocker(cycle: WorkCycle, review: Option<ReviewRun>): Option<Classification> {
    if Terminal(cycle) then Some(ParentWorkCycleTerminal)
    else if !cycle.reviewPassed && review.Some? && Precludes(review.value) then Some(ReviewTerminalWithoutApproval)
    else None
  }

  /** The two tests of whose evaluation it is: before a blocker failure a blank name counts as nobody's. */
  predicate MayFail(run: EvaluationRun, me: string) {
    Trim(run.evaluatorId) == "" || run.evaluatorId == me
  }

  predicate MayEvaluate(run: EvaluationRun, me: string) {
    run.evaluatorId == "" || run.evaluatorId == me
  }

  function StageAfter(action: EvaluationAction): Stage {
    match action case Claim => Claimed case Start => Started case _ => Decided
  }

  function ReviewStageAfter(action: ReviewAction): Stage {
    match action case ClaimReview => Claimed case StartReview => Started case _ => Decided
  }

  /** The cycle has been read so many times more, and was this the last time. */
  function ReadAgain(g: Gate, cycle: WorkCycle, times: nat): Gate {
    g.(cycle := Some(cycle), review := None, earlier := if g.review.Some? then g.review else g.earlier,
       cycleReads := g.cycleReads + times)
  }

  function After(g: Gate, e: Event): Gate {
    match e
    case SawEvaluation(run) => g.(run := Some(run))
    case SawCycle(cycle) => ReadAgain(g, cycle, 1)
    case SawReview(review) => g.(review := Some(review))
    case SawWorker(sweep) => g.(sweep := Some(sweep))
    case SawReviewWorker => g
    case ReviewerDecided(decision) => g.(decision := Some(decision))
    case PreparedWorktree => g.(outputs := Some([]))
    case RanCommand(_, output) => g.(outputs := Some((if g.outputs.Some? then g.outputs.value else []) + [output]))
    case Posted(action, ok) => if ok then g.(stage := StageAfter(action)) else g.(failed := true)
    case PostedReview(action, ok) => if ok then g.(reviewStage := ReviewStageAfter(action)) else g.(failed := true)
    case CallFailed => g.(failed := true)
  }

  predicate AllSucceeded(outputs: seq<CommandOutput>) {
    forall i | 0 <= i < |outputs| :: outputs[i] == Exited(true)
  }

  /** A timeout anywhere outranks every other failure. */
  function Classify(outputs: seq<CommandOutput>): Classification {
    if exists i | 0 <= i < |outputs| :: outputs[i].TimedOut? then EvaluatorTimeout
    else if AllSucceeded(outputs) then Passed
    else CommandExitFailure
  }

  /** The evaluation is approved and this worker is one that decides it. */
  ghost predicate OnItsMerits(config: Config, g: Gate) {
    g.run.Some? && g.run.value.status == "Queued" && MayEvaluate(g.run.value, config.workerId)
    && g.cycle.Some? && Approved(g.cycle.value) && g.sweep.Some? && (g.sweep.value || config.enableExecution)
  }

  /** The evaluation waits and knows its cycle. */
  predicate Configured(run: EvaluationRun) {
    run.status == "Queued" && run.workCycleId != ""
  }

  /** This worker goes on with an evaluation of this kind of work. */
  predicate GoesOn(config: Config, sweep: Option<bool>) {
    sweep.Some? && (sweep.value || config.enableExecution)
  }

  /** The review waits to be done and this worker does reviews. */
  predicate IsMyReview(config: Config, review: ReviewRun) {
    config.enableExecution && review.status == "Requested" && review.workerRunId != ""
  }

  /**
   * A handling that ended here has read all it had to: the cycle of a configured evaluation, the work of a cycle
   * that is not blocked, the review of one that is not approved; and it has given up only on a cycle that stayed
   * unapproved over all the reads it has patience for.
   */
  predicate ReadEnough(config: Config, g: Gate) {
    && g.run.Some?
    && (!Configured(g.run.value) ==> g == CLOSED.(run := g.run))
    && (Configured(g.run.value) ==>
          && g.cycle.Some?
          && var cycle := g.cycle.value;
          && (cycle.implementerRunId != "" && Blocker(cycle, g.review).None? ==> g.sweep.Some?)
          && (g.sweep.Some? && !cycle.reviewPassed && cycle.reviewerRunId != "" ==>
                g.review.Some? && (GoesOn(config, g.sweep) && Blocker(cycle, g.review).None? ==> g.cycleReads > 1))
          && (g.cycleReads > 1 && !cycle.reviewPassed && !Terminal(cycle) ==> g.cycleReads == 22))
  }

  /** The review was seen to before the cycle was read again, by this worker if it was its to do, and only then. */
  predicate ReviewSeenTo(config: Config, g: Gate) {
    if g.cycleReads <= 1 then g.reviewStage == Untouched
    else GoesOn(config, g.sweep) && g.earlier.Some?
         && g.reviewStage == if IsMyReview(config, g.earlier.value) then Decided else Untouched
  }

  ghost predicate EndedUnapproved(status: string) {
    status == "ChangesRequested" || status == "Escalated" || status == "Failed"
  }

  /** The cycle is over, or its review has ended without approval, and no other worker is to say so. */
  ghost predicate Blocked(config: Config, g: Gate) {
    && g.run.Some? && g.run.value.status == "Queued"
    && (Trim(g.run.value.evaluatorId) == "" || g.run.value.evaluatorId == config.workerId)
    && g.cycle.Some?
    && (g.cycle.value.status == "Complete" || g.cycle.value.status == "Failed"
        || (!g.cycle.value.reviewPassed && g.review.Some? && EndedUnapproved(g.review.value.status)))
  }

  /** All the commands have been run. */
  predicate AllRan(config: Config, g: Gate) {
    g.outputs.Some? && |g.outputs.value| == |config.commands|
  }

  ghost predicate PostPermitted(config: Config, g: Gate, action: EvaluationAction) {
    match action
    case Claim => g.stage == Untouched && (OnItsMerits(config, g) || Blocked(config, g))
    case Start => g.stage == Claimed && OnItsMerits(config, g)
    case Pass =>
      g.stage == Started && OnItsMerits(config, g)
      && (g.sweep.value || (AllRan(config, g) && AllSucceeded(g.outputs.value)))
    case Fail(why) =>
      if g.stage == Started then
        OnItsMerits(config, g) && !g.sweep.value && AllRan(config, g) && !AllSucceeded(g.outputs.value)
        && why == Classify(g.outputs.value)
      else g.stage == Claimed && Blocked(config, g) && Blocker(g.cycle.value, g.review) == Some(why)
  }

  /** The review may be worked on by this worker. */
  predicate MayReview(config: Config, g: Gate) {
    config.enableExecution && g.stage == Untouched && g.cycle.Some? && !g.cycle.value.reviewPassed
    && g.review.Some? && g.review.value.status == "Requested" && g.review.value.workerRunId != ""
  }

  predicate ReviewPermitted(config: Config, g: Gate, action: ReviewAction) {
    MayReview(config, g)
    && match action
       case ClaimReview => g.reviewStage == Untouched
       case StartReview => g.reviewStage == Claimed
       case Approve => g.reviewStage == Started && g.decision == Some(Some(Approves))
       case RequestChanges => g.reviewStage == Started && g.decision == Some(Some(WantsChanges))
       case Escalate => g.reviewStage == Started && g.decision == Some(Some(Escalates))
       case FailReview => g.reviewStage == Started && g.decision == Some(None)
  }

  /** What may happen next. After a call that failed or a post that was refused nothing may. */
  ghost predicate Permitted(config: Config, g: Gate, e: Event) {
    !g.failed
    && match e
       case SawEvaluation(_) => g.cycle.None? && g.stage == Untouched
       case SawCycle(_) => g.stage == Untouched
       case SawReview(_) => g.cycle.Some? && g.cycle.value.reviewerRunId != "" && g.stage == Untouched
       case SawWorker(_) => g.sweep.None? && g.stage == Untouched
       case SawReviewWorker => g.stage == Untouched
       case ReviewerDecided(_) => g.reviewStage == Started && g.decision.None?
       case PreparedWorktree => g.stage == Started && g.outputs.None?
       case RanCommand(command, _) =>
         g.stage == Started && g.outputs.Some? && |g.outputs.value| < |config.commands|
         && command == config.commands[|g.outputs.value|]
       case Posted(action, _) => PostPermitted(config, g, action)
       case PostedReview(action, _) => ReviewPermitted(config, g, action)
       case CallFailed => true
  }

  function GateOf(trace: seq<Event>): Gate {
    if trace == [] then CLOSED else After(GateOf(trace[..|trace| - 1]), trace[|trace| - 1])
  }

  ghost predicate Obeys(config: Config, trace: seq<Event>) {
    forall i | 0 <= i < |trace| :: Permitted(config, GateOf(trace[..i]), trace[i])
  }

  lemma ObeysOneMore(config: Config, trace: seq<Event>, e: Event)
    requires Obeys(config, trace) && Permitted(config, GateOf(trace), e)
    ensures Obeys(config, trace + [e]) && GateOf(trace + [e]) == After(GateOf(trace), e)
  {
    var longer := trace + [e];
    assert longer[..|trace|] == trace;
    forall i | 0 <= i < |longer| ensures Permitted(config, GateOf(longer[..i]), longer[i]) {
      assert i < |trace| ==> longer[..i] == trace[..i];
    }
  }

  // ---- what an obedient trace means, event by event ----

  /** Event m is the last cycle read before position n. */
  predicate LastCycle(trace: seq<Event>, n: nat, m: int) {
    0 <= m < n <= |trace| && trace[m].SawCycle? && forall j | m < j < n :: !trace[j].SawCycle?
  }

  predicate LastRun(trace: seq<Event>, n: nat, m: int) {
    0 <= m < n <= |trace| && trace[m].SawEvaluation? && forall j | m < j < n :: !trace[j].SawEvaluation?
  }

  lemma {:induction false} GateHoldsLastCycle(trace: seq<Event>, n: nat)
    requires n <= |trace| && GateOf(trace[..n]).cycle.Some?
    ensures exists m :: LastCycle(trace, n, m) && trace[m].cycle == GateOf(trace[..n]).cycle.value
  {
    assert n > 0;
    assert trace[..n][..n - 1] == trace[..n - 1];
    if trace[n - 1].SawCycle? {
      assert LastCycle(trace, n, n - 1);
    } else {
      GateHoldsLastCycle(trace, n - 1);
      var m :| LastCycle(trace, n - 1, m) && trace[m].cycle == GateOf(trace[..n]).cycle.value;
      assert LastCycle(trace, n, m);
    }
  }

  lemma {:induction false} GateHoldsLastRun(trace: seq<Event>, n: nat, m: int)
    requires n <= |trace| && LastRun(trace, n, m)
    ensures GateOf(trace[..n]).run == Some(trace[m].run)
  {
    assert trace[..n][..n - 1] == trace[..n - 1];
    if m < n - 1 {
      GateHoldsLastRun(trace, n - 1, m);
    }
  }

  lemma {:induction false} RunWasRead(trace: seq<Event>, n: nat)
    requires n <= |trace| && GateOf(trace[..n]).run.Some?
    ensures exists m :: LastRun(trace, n, m)
  {
    assert n > 0;
    assert trace[..n][..n - 1] == trace[..n - 1];
    if trace[n - 1].SawEvaluation? {
      assert LastRun(trace, n, n - 1);
    } else {
      RunWasRead(trace, n - 1);
      var m :| LastRun(trace, n - 1, m);
      assert LastRun(trace, n, m);
    }
  }

  /** The gate at position n holds exactly what was last read before it. */
  lemma GateHoldsLastRead(trace: seq<Event>, n: nat)
    requires n <= |trace|
    ensures GateOf(trace[..n]).cycle.Some? ==>
              exists m :: LastCycle(trace, n, m) && trace[m].cycle == GateOf(trace[..n]).cycle.value
    ensures GateOf(trace[..n]).run.Some? ==>
              exists m :: LastRun(trace, n, m) && trace[m].run == GateOf(trace[..n]).run.value
    ensures forall m :: LastRun(trace, n, m) ==> GateOf(trace[..n]).run == Some(trace[m].run)
  {
    if GateOf(trace[..n]).cycle.Some? {
      GateHoldsLastCycle(trace, n);
    }
    forall m | LastRun(trace, n, m) ensures GateOf(trace[..n]).run == Some(trace[m].run) {
      GateHoldsLastRun(trace, n, m);
    }
    if GateOf(trace[..n]).run.Some? {
      RunWasRead(trace, n);
    }
  }

  /** A review the gate holds was read after the last cycle. */
  lemma {:induction false} GateHoldsReview(trace: seq<Event>, n: nat)
    requires n <= |trace| && GateOf(trace[..n]).review.Some?
    ensures exists r :: 0 <= r < n && trace[r] == SawReview(GateOf(trace[..n]).review.value)
                        && forall j | r < j < n :: !trace[j].SawCycle?
  {
    assert n > 0;
    assert trace[..n][..n - 1] == trace[..n - 1];
    if !trace[n - 1].SawReview? {
      GateHoldsReview(trace, n - 1);
      var r :| 0 <= r < n - 1 && trace[r] == SawReview(GateOf(trace[..n]).review.value)
               && forall j | r < j < n - 1 :: !trace[j].SawCycle?;
      assert 0 <= r < n && forall j | r < j < n :: !trace[j].SawCycle?;
    }
  }

  /** The stages are reached by accepted posts, in this order and without reading on in between. */
  lemma {:induction false} StagesArePosts(config: Config, trace: seq<Event>, n: nat)
    requires Obeys(config, trace) && n <= |trace|
    ensures GateOf(trace[..n]).stage == Claimed ==> exists c :: 0 <= c < n && trace[c] == Posted(Claim, true)
    ensures GateOf(trace[..n]).stage == Started ==>
              exists c, s :: 0 <= c < s < n && trace[c] == Posted(Claim, true) && trace[s] == Posted(Start, true)
  {
    if n > 0 {
      StagesArePosts(config, trace, n - 1);
      assert trace[..n][..n - 1] == trace[..n - 1];
      assert Permitted(config, GateOf(trace[..n - 1]), trace[n - 1]);
      if GateOf(trace[..n - 1]).stage == Claimed && trace[n - 1] == Posted(Start, true) {
        var c :| 0 <= c < n - 1 && trace[c] == Posted(Claim, true);
        assert 0 <= c < n - 1 < n && trace[c] == Posted(Claim, true) && trace[n - 1] == Posted(Start, true);
      }
    }
  }

  /** Command x was run before position n, with this output. */
  ghost predicate WasRun(config: Config, trace: seq<Event>, n: nat, x: nat, output: CommandOutput)
    requires n <= |trace| && x < |config.commands|
  {
    exists r :: 0 <= r < n && trace[r] == RanCommand(config.commands[x], output)
  }

  /** The outputs held at position n are those of the first commands, run one by one and no others. */
  ghost predicate OutputsOf(config: Config, trace: seq<Event>, n: nat, outputs: seq<CommandOutput>)
    requires n <= |trace|
  {
    && |outputs| <= |config.commands|
    && (forall x | 0 <= x < |outputs| :: WasRun(config, trace, n, x, outputs[x]))
    && (forall r | 0 <= r < n && trace[r].RanCommand? :: trace[r].output in outputs)
  }

  lemma WasRunLater(config: Config, trace: seq<Event>, n: nat, x: nat, output: CommandOutput)
    requires n < |trace| && x < |config.commands| && WasRun(config, trace, n, x, output)
    ensures WasRun(config, trace, n + 1, x, output)
  {
    var r :| 0 <= r < n && trace[r] == RanCommand(config.commands[x], output);
  }

  lemma OutputsStay(config: Config, trace: seq<Event>, n: nat, outputs: seq<CommandOutput>)
    requires n < |trace| && OutputsOf(config, trace, n, outputs) && !trace[n].RanCommand?
    ensures OutputsOf(config, trace, n + 1, outputs)
  {
    forall x | 0 <= x < |outputs| ensures WasRun(config, trace, n + 1, x, outputs[x]) {
      WasRunLater(config, trace, n, x, outputs[x]);
    }
  }

  lemma OutputsGrow(
    config: Config, trace: seq<Event>, n: nat, outputs: seq<CommandOutput>, output: CommandOutput)
    requires n < |trace| && OutputsOf(config, trace, n, outputs) && |outputs| < |config.commands|
    requires trace[n] == RanCommand(config.commands[|outputs|], output)
    ensures OutputsOf(config, trace, n + 1, outputs + [output])
  {
    var more := outputs + [output];
    forall x | 0 <= x < |more| ensures WasRun(config, trace, n + 1, x, more[x]) {
      if x < |outputs| {
        WasRunLater(config, trace, n, x, outputs[x]);
      }
    }
    assert more[|outputs|] == output;
  }

  function Collected(g: Gate): seq<CommandOutput> {
    if g.outputs.Some? then g.outputs.value else []
  }

  lemma CollectsOneMore(config: Config, g: Gate, e: Event)
    requires Permitted(config, g, e)
    ensures if e.RanCommand? then
              |Collected(g)| < |config.commands| && e.command == config.commands[|Collected(g)|]
              && Collected(After(g, e)) == Collected(g) + [e.output]
            else Collected(After(g, e)) == Collected(g)
  {
  }

  lemma {:induction false} OutputsWereRun(config: Config, trace: seq<Event>, n: nat)
    requires Obeys(config, trace) && n <= |trace|
    ensures OutputsOf(config, trace, n, Collected(GateOf(trace[..n])))
  {
    if n > 0 {
      var g := GateOf(trace[..n - 1]);
      OutputsWereRun(config, trace, n - 1);
      assert trace[..n][..n - 1] == trace[..n - 1];
      CollectsOneMore(config, g, trace[n - 1]);
      if trace[n - 1].RanCommand? {
        OutputsGrow(config, trace, n - 1, Collected(g), trace[n - 1].output);
      } else {
        OutputsStay(config, trace, n - 1, Collected(g));
      }
    }
  }

  lemma {:induction false} DecisionWasMade(config: Config, trace: seq<Event>, n: nat)
    requires Obeys(config, trace) && n <= |trace|
    ensures forall r | 0 <= r < n && trace[r].ReviewerDecided? :: GateOf(trace[..n]).decision == Some(trace[r].decision)
    ensures GateOf(trace[..n]).decision.Some? ==> exists r :: 0 <= r < n && trace[r].ReviewerDecided?
  {
    if n > 0 {
      DecisionWasMade(config, trace, n - 1);
      assert trace[..n][..n - 1] == trace[..n - 1];
      DecidesOnce(config, GateOf(trace[..n - 1]), trace[n - 1]);
    }
  }

  lemma DecidesOnce(config: Config, g: Gate, e: Event)
    requires Permitted(config, g, e)
    ensures After(g, e).decision == if e.ReviewerDecided? then Some(e.decision) else g.decision
    ensures e.ReviewerDecided? ==> g.decision.None?
  {
  }

  /** A verdict on the review is the agent's own, the only one it made, and a failed review is one it did not decide. */
  lemma VerdictIsTheAgents(config: Config, trace: seq<Event>, i: nat)
    requires Obeys(config, trace) && i < |trace| && trace[i].PostedReview?
    requires trace[i].verdict !in {ClaimReview, StartReview}
    ensures exists r :: 0 <= r < i && trace[r].ReviewerDecided?
    ensures forall r | 0 <= r < i && trace[r].ReviewerDecided? ::
              && (trace[i].verdict == Approve ==> trace[r].decision == Some(Approves))
              && (trace[i].verdict == RequestChanges ==> trace[r].decision == Some(WantsChanges))
              && (trace[i].verdict == Escalate ==> trace[r].decision == Some(Escalates))
              && (trace[i].verdict == FailReview ==> trace[r].decision == None)
  {
    assert Permitted(config, GateOf(trace[..i]), trace[i]);
    DecisionWasMade(config, trace, i);
  }

  /** Once the run is claimed no cycle is read any more. */
  lemma CyclesAreReadBeforeClaim(config: Config, trace: seq<Event>, c: nat, m: nat)
    requires Obeys(config, trace) && c < |trace| && m < |trace| && trace[c] == Posted(Claim, true) && trace[m].SawCycle?
    ensures m < c
  {
    if c < m {
      assert trace[..c + 1][..c] == trace[..c];
      StagesOnlyAdvance(config, trace, c + 1, m);
    }
  }

  lemma {:induction false} SweepWasRead(trace: seq<Event>, n: nat)
    requires n <= |trace| && GateOf(trace[..n]).sweep.Some?
    ensures exists w :: 0 <= w < n && trace[w] == SawWorker(GateOf(trace[..n]).sweep.value)
  {
    assert n > 0;
    assert trace[..n][..n - 1] == trace[..n - 1];
    if !trace[n - 1].SawWorker? {
      SweepWasRead(trace, n - 1);
    }
  }

  /** Every configured command was run before position n and succeeded, and so did whatever else was run. */
  ghost predicate AllRanWell(config: Config, trace: seq<Event>, n: nat)
    requires n <= |trace|
  {
    && (forall x | 0 <= x < |config.commands| :: WasRun(config, trace, n, x, Exited(true)))
    && (forall r | 0 <= r < n && trace[r].RanCommand? :: trace[r].output == Exited(true))
  }

  lemma PassFollowsCommands(config: Config, trace: seq<Event>, i: nat)
    requires Obeys(config, trace) && i < |trace| && trace[i].Posted? && trace[i].action == Pass
    requires GateOf(trace[..i]).sweep == Some(false)
    ensures AllRanWell(config, trace, i)
  {
    assert Permitted(config, GateOf(trace[..i]), trace[i]);
    OutputsWereRun(config, trace, i);
    AllOfThemRanWell(config, trace, i, GateOf(trace[..i]).outputs.value);
  }

  lemma AllOfThemRanWell(config: Config, trace: seq<Event>, n: nat, outputs: seq<CommandOutput>)
    requires n <= |trace| && OutputsOf(config, trace, n, outputs)
    requires |outputs| == |config.commands| && AllSucceeded(outputs)
    ensures AllRanWell(config, trace, n)
  {
    forall x | 0 <= x < |config.commands| ensures WasRun(config, trace, n, x, Exited(true)) {
      assert WasRun(config, trace, n, x, outputs[x]);
    }
    forall r | 0 <= r < n && trace[r].RanCommand? ensures trace[r].output == Exited(true) {
      assert trace[r].output in outputs;
    }
  }

  lemma PassFollowsStart(config: Config, trace: seq<Event>, i: nat, m: int)
    requires Obeys(config, trace) && i < |trace| && trace[i].Posted? && trace[i].action == Pass
    requires LastCycle(trace, i, m)
    ensures exists c, s :: m < c < s < i && trace[c] == Posted(Claim, true) && trace[s] == Posted(Start, true)
  {
    assert Permitted(config, GateOf(trace[..i]), trace[i]);
    StagesArePosts(config, trace, i);
    var c, s :| 0 <= c < s < i && trace[c] == Posted(Claim, true) && trace[s] == Posted(Start, true);
    CyclesAreReadBeforeClaim(config, trace, c, m);
  }

  /**
   * Pass is posted only after an accepted Claim and then Start, on a cycle last seen approved and not over; and
   * only for a sweep, or after every configured command was run and succeeded.
   */
  lemma PassIsEarned(config: Config, trace: seq<Event>, i: nat)
    requires Obeys(config, trace) && i < |trace| && trace[i].Posted? && trace[i].action == Pass
    ensures exists m, c, s :: LastCycle(trace, i, m) && Approved(trace[m].cycle) && m < c < s < i
                              && trace[c] == Posted(Claim, true) && trace[s] == Posted(Start, true)
    ensures (exists w :: 0 <= w < i && trace[w] == SawWorker(true)) || AllRanWell(config, trace, i)
  {
    assert Permitted(config, GateOf(trace[..i]), trace[i]);
    GateHoldsLastCycle(trace, i);
    var m :| LastCycle(trace, i, m) && trace[m].cycle == GateOf(trace[..i]).cycle.value;
    PassFollowsStart(config, trace, i, m);
    if GateOf(trace[..i]).sweep.value {
      SweepWasRead(trace, i);
    } else {
      PassFollowsCommands(config, trace, i);
    }
  }

  /** Fail without Start is posted only after an accepted Claim, and for exactly the blocker that was read. */
  lemma BlockerFailIsEarned(config: Config, trace: seq<Event>, i: nat)
    requires Obeys(config, trace) && i < |trace| && trace[i].Posted? && trace[i].action.Fail?
    requires forall s | 0 <= s < i :: trace[s] != Posted(Start, true)
    ensures exists c :: 0 <= c < i && trace[c] == Posted(Claim, true)
    ensures trace[i].action.classification in {ParentWorkCycleTerminal, ReviewTerminalWithoutApproval}
    ensures exists m :: LastCycle(trace, i, m)
                        && if trace[i].action.classification == ParentWorkCycleTerminal then
                             trace[m].cycle.status in {"Complete", "Failed"}
                           else trace[m].cycle.status !in {"Complete", "Failed"} && !trace[m].cycle.reviewPassed
    ensures trace[i].action.classification == ReviewTerminalWithoutApproval ==>
              exists r :: 0 <= r < i && trace[r].SawReview?
                          && EndedUnapproved(trace[r].review.status)
                          && forall j | r < j < i :: !trace[j].SawCycle?
  {
    var g := GateOf(trace[..i]);
    assert Permitted(config, g, trace[i]);
    StagesArePosts(config, trace, i);
    GateHoldsLastRead(trace, i);
    if trace[i].action.classification == ReviewTerminalWithoutApproval {
      GateHoldsReview(trace, i);
    }
  }

  ghost predicate CommandSaid(trace: seq<Event>, n: nat, output: CommandOutput)
    requires n <= |trace|
  {
    exists r :: 0 <= r < n && trace[r].RanCommand? && trace[r].output == output
  }

  /** What the commands said before position n is what was collected. */
  lemma OutputsAreSaid(config: Config, trace: seq<Event>, n: nat, outputs: seq<CommandOutput>)
    requires n <= |trace| && OutputsOf(config, trace, n, outputs)
    ensures forall output :: output in outputs <==> CommandSaid(trace, n, output)
  {
    forall x | 0 <= x < |outputs| ensures CommandSaid(trace, n, outputs[x]) {
      assert WasRun(config, trace, n, x, outputs[x]);
    }
  }

  lemma ClassifyMeans(outputs: seq<CommandOutput>)
    ensures !AllSucceeded(outputs) ==> TimedOut in outputs || Exited(false) in outputs
    ensures !AllSucceeded(outputs) ==>
              Classify(outputs) == if TimedOut in outputs then EvaluatorTimeout else CommandExitFailure
  {
    if i :| 0 <= i < |outputs| && outputs[i] != Exited(true) {
      assert outputs[i] == TimedOut || outputs[i] == Exited(false);
    }
  }

  lemma FailFollowsCommands(config: Config, trace: seq<Event>, i: nat, s: nat)
    requires Obeys(config, trace) && s < i < |trace| && trace[s] == Posted(Start, true)
    requires trace[i].Posted? && trace[i].action.Fail?
    ensures GateOf(trace[..i]).outputs.Some? && !AllSucceeded(GateOf(trace[..i]).outputs.value)
    ensures trace[i].action.classification == Classify(GateOf(trace[..i]).outputs.value)
  {
    assert Permitted(config, GateOf(trace[..i]), trace[i]);
    StagesOnlyAdvance(config, trace, s + 1, i);
    assert trace[..s + 1][..s] == trace[..s];
  }

  /** After Start, Fail means that some command failed, and names a timeout if there was one. */
  lemma CommandFailIsEarned(config: Config, trace: seq<Event>, i: nat, s: nat)
    requires Obeys(config, trace) && s < i < |trace| && trace[s] == Posted(Start, true)
    requires trace[i].Posted? && trace[i].action.Fail?
    ensures CommandSaid(trace, i, TimedOut) || CommandSaid(trace, i, Exited(false))
    ensures trace[i].action.classification
            == if CommandSaid(trace, i, TimedOut) then EvaluatorTimeout else CommandExitFailure
  {
    FailFollowsCommands(config, trace, i, s);
    OutputsWereRun(config, trace, i);
    OutputsAreSaid(config, trace, i, GateOf(trace[..i]).outputs.value);
    ClassifyMeans(GateOf(trace[..i]).outputs.value);
  }

  predicate StageReached(g: Gate, stage: Stage) {
    match stage
    case Untouched => true
    case Claimed => g.stage != Untouched
    case Started => g.stage == Started || g.stage == Decided
    case Decided => g.stage == Decided
  }

  lemma StageAdvances(config: Config, g: Gate, e: Event, stage: Stage)
    requires Permitted(config, g, e) && StageReached(g, stage)
    ensures StageReached(After(g, e), stage) && (g.reviewStage == Decided ==> After(g, e).reviewStage == Decided)
  {
  }

  lemma FailedEnds(config: Config, trace: seq<Event>, m: nat)
    requires Obeys(config, trace) && m < |trace|
    ensures !GateOf(trace[..m]).failed
  {
    assert Permitted(config, GateOf(trace[..m]), trace[m]);
  }

  lemma {:induction false} StagesOnlyAdvance(config: Config, trace: seq<Event>, m: nat, n: nat)
    requires Obeys(config, trace) && m <= n <= |trace|
    ensures StageReached(GateOf(trace[..n]), GateOf(trace[..m]).stage)
    ensures GateOf(trace[..m]).failed ==> m == n == |trace|
    ensures GateOf(trace[..m]).reviewStage == Decided ==> GateOf(trace[..n]).reviewStage == Decided
  {
    if m < n {
      StagesOnlyAdvance(config, trace, m, n - 1);
      assert trace[..n][..n - 1] == trace[..n - 1];
      assert Permitted(config, GateOf(trace[..n - 1]), trace[n - 1]);
      StageAdvances(config, GateOf(trace[..n - 1]), trace[n - 1], GateOf(trace[..m]).stage);
    }
    if m < |trace| {
      FailedEnds(config, trace, m);
    }
  }

  /** At most one of Pass and Fail is ever posted, accepted or not, and nothing follows it. */
  lemma AtMostOneVerdict(config: Config, trace: seq<Event>, i: nat)
    requires Obeys(config, trace) && i < |trace| && trace[i].Posted? && (trace[i].action.Pass? || trace[i].action.Fail?)
    ensures forall j | i < j < |trace| :: !trace[j].Posted? && !trace[j].PostedReview?
  {
    assert trace[..i + 1][..i] == trace[..i];
    forall j | i < j < |trace| ensures !trace[j].Posted? && !trace[j].PostedReview? {
      StagesOnlyAdvance(config, trace, i + 1, j);
      assert Permitted(config, GateOf(trace[..j]), trace[j]);
    }
  }

  /** The reviewer's part too: at most one verdict on the ReviewRun, and never once the evaluation is claimed. */
  lemma AtMostOneReviewVerdict(config: Config, trace: seq<Event>, i: nat, j: nat)
    requires Obeys(config, trace) && i < j < |trace|
    requires trace[i].PostedReview? && ReviewStageAfter(trace[i].verdict) == Decided
    ensures !trace[j].PostedReview?
  {
    assert trace[..i + 1][..i] == trace[..i];
    StagesOnlyAdvance(config, trace, i + 1, j);
    assert Permitted(config, GateOf(trace[..j]), trace[j]);
  }

  lemma NoReviewAfterClaim(config: Config, trace: seq<Event>, i: nat, j: nat)
    requires Obeys(config, trace) && i < j < |trace| && trace[i].Posted?
    ensures !trace[j].PostedReview?
  {
    assert trace[..i + 1][..i] == trace[..i];
    StagesOnlyAdvance(config, trace, i + 1, j);
    assert Permitted(config, GateOf(trace[..j]), trace[j]);
  }

  /** A Fail that is not on its merits comes without a Start. */
  lemma OtherFailsComeUnstarted(config: Config, trace: seq<Event>, i: nat, s: nat)
    requires Obeys(config, trace) && s < i < |trace| && trace[i].Posted? && trace[i].action.Fail?
    requires !OnItsMerits(config, GateOf(trace[..i]))
    ensures trace[s] != Posted(Start, true)
  {
    assert Permitted(config, GateOf(trace[..i]), trace[i]);
    if trace[s] == Posted(Start, true) {
      assert trace[..s + 1][..s] == trace[..s];
      StagesOnlyAdvance(config, trace, s + 1, i);
    }
  }

  /** Nothing is posted on an evaluation reserved for another; a blank reservation still allows the blocker Fail. */
  lemma ReservedIsLeftAlone(config: Config, trace: seq<Event>, i: nat, m: nat)
    requires Obeys(config, trace) && i < |trace| && trace[i].Posted? && LastRun(trace, i, m)
    ensures Trim(trace[m].run.evaluatorId) == "" || trace[m].run.evaluatorId == config.workerId
    ensures trace[m].run.evaluatorId != "" && trace[m].run.evaluatorId != config.workerId ==>
              trace[i].action == Claim
              || (trace[i].action.Fail? && forall s | 0 <= s < i :: trace[s] != Posted(Start, true))
  {
    GateHoldsLastRead(trace, i);
    assert Permitted(config, GateOf(trace[..i]), trace[i]);
    assert Trim("") == "";
    if trace[m].run.evaluatorId != "" && trace[m].run.evaluatorId != config.workerId && trace[i].action.Fail? {
      forall s | 0 <= s < i ensures trace[s] != Posted(Start, true) {
        OtherFailsComeUnstarted(config, trace, i, s);
      }
    }
  }
}
