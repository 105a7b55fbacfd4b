/**
 * One handling of a queued EvaluationRun, call by call. Every answer of the
 * server, every decision of the reviewing agent and every command result is
 * arbitrary; a call that fails ends the handling.
 */
module EvaluationHandler {
  import opened Text
  import opened EvaluationGate

  /** Runs through the results the way the command loop does, one at a time. */
  method ClassifyOutputs(outputs: seq<CommandOutput>) returns (passed: bool, classification: Classification)
    ensures passed <==> AllSucceeded(outputs)
    ensures classification == Classify(outputs)
    ensures passed <==> classification == Passed
  {
    passed, classification := true, Passed;
    for n := 0 to |outputs|
      invariant passed <==> AllSucceeded(outputs[..n])
      invariant classification == Classify(outputs[..n])
    {
      assert outputs[..n + 1] == outputs[..n] + [outputs[n]];
      var success := outputs[n] == Exited(true);
      passed := passed && success;
      if outputs[n].TimedOut? {
        assert outputs[..n + 1][n].TimedOut?;
        classification := EvaluatorTimeout;
      } else {
        assert forall i | 0 <= i < n :: outputs[..n][i] == outputs[..n + 1][i];
        if !success && classification == Passed {
          classification := CommandExitFailure;
        }
      }
    }
    assert outputs[..|outputs|] == outputs;
  }

  class Handling {
    const config: Config
    var trace: seq<Event>

    ghost predicate Valid()
      reads this
    {
      Obeys(config, trace)
    }

    ghost function Now(): Gate
      reads this
    {
      GateOf(trace)
    }

    /**
     * Everything was read that had to be, and the evaluation is decided exactly if, as last read, it was this
     * worker's to decide or to fail, and otherwise untouched. So is the review. What was decided on its merits was
     * decided by all the commands, a sweep apart.
     */
    ghost predicate RightlySettled()
      reads this
    {
      && ReadEnough(config, Now()) && ReviewSeenTo(config, Now())
      && Now().stage == (if OnItsMerits(config, Now()) || Blocked(config, Now()) then Decided else Untouched)
      && (OnItsMerits(config, Now()) && !Now().sweep.value ==> AllRan(config, Now()))
    }

    constructor (config: Config)
      ensures Valid() && Now() == CLOSED && trace == [] && this.config == config
    {
      this.config := config;
      trace := [];
    }

    method Note(e: Event)
      requires Valid() && Permitted(config, Now(), e)
      modifies this
      ensures Valid() && trace == old(trace) + [e] && Now() == After(old(Now()), e)
    {
      ObeysOneMore(config, trace, e);
      trace := trace + [e];
    }

    // ---- calls ----

    /** Posts an action. When the server refuses or the call is lost, the handling is over. */
    method Post(action: EvaluationAction) returns (ok: bool)
      requires Valid() && Permitted(config, Now(), Posted(action, true))
      modifies this
      ensures Valid() && old(trace) < trace && Now() == After(old(Now()), Posted(action, ok))
    {
      ok := *;
      Note(Posted(action, ok));
    }

    method PostOnReview(action: ReviewAction) returns (ok: bool)
      requires Valid() && Permitted(config, Now(), PostedReview(action, true))
      modifies this
      ensures Valid() && old(trace) < trace && Now() == After(old(Now()), PostedReview(action, ok))
    {
      ok := *;
      Note(PostedReview(action, ok));
    }

    method FetchWorkCycle() returns (cycle: Option<WorkCycle>)
      requires Valid() && !Now().failed && Now().stage == Untouched
      modifies this
      ensures Valid() && old(trace) <= trace && |trace| == |old(trace)| + 1
      ensures Now() == if cycle.Some? then ReadAgain(old(Now()), cycle.value, 1) else old(Now()).(failed := true)
    {
      cycle := *;
      Note(if cycle.Some? then SawCycle(cycle.value) else CallFailed);
    }

    method FetchReviewRun() returns (review: Option<ReviewRun>)
      requires Valid() && !Now().failed && Now().stage == Untouched
      requires Now().cycle.Some? && Now().cycle.value.reviewerRunId != ""
      modifies this
      ensures Valid() && old(trace) <= trace && |trace| == |old(trace)| + 1
      ensures Now() == if review.Some? then old(Now()).(review := review) else old(Now()).(failed := true)
    {
      review := *;
      Note(if review.Some? then SawReview(review.value) else CallFailed);
    }

    method FetchEvaluationRun() returns (run: Option<EvaluationRun>)
      requires Valid() && !Now().failed && Now().stage == Untouched && Now().cycle.None?
      modifies this
      ensures Valid() && old(trace) <= trace && |trace| == |old(trace)| + 1
      ensures Now() == if run.Some? then old(Now()).(run := run) else old(Now()).(failed := true)
    {
      run := *;
      Note(if run.Some? then SawEvaluation(run.value) else CallFailed);
    }

    /** Reads the implementer's run: whether its work is a sweep. */
    method FetchWorkerRun() returns (sweep: Option<bool>)
      requires Valid() && !Now().failed && Now().stage == Untouched && Now().sweep.None?
      modifies this
      ensures Valid() && old(trace) < trace
      ensures Now() == if sweep.Some? then old(Now()).(sweep := sweep) else old(Now()).(failed := true)
    {
      sweep := *;
      Note(if sweep.Some? then SawWorker(sweep.value) else CallFailed);
    }

    method FetchReviewedRun() returns (read: bool)
      requires Valid() && !Now().failed && Now().stage == Untouched
      modifies this
      ensures Valid() && old(trace) < trace
      ensures Now() == if read then old(Now()) else old(Now()).(failed := true)
    {
      read := *;
      Note(if read then SawReviewWorker else CallFailed);
    }

    /** Runs the reviewing agent. A run that fails decides nothing. */
    method RunReviewer() returns (decision: Option<Decision>)
      requires Valid() && !Now().failed && Now().reviewStage == Started && Now().decision.None?
      modifies this
      ensures Valid() && old(trace) < trace && Now() == old(Now()).(decision := Some(decision))
    {
      decision := *;
      Note(ReviewerDecided(decision));
    }

    method PrepareWorktree() returns (ok: bool)
      requires Valid() && !Now().failed && Now().stage == Started && Now().outputs.None?
      modifies this
      ensures Valid() && old(trace) < trace
      ensures Now() == if ok then old(Now()).(outputs := Some([])) else old(Now()).(failed := true)
    {
      ok := *;
      Note(if ok then PreparedWorktree else CallFailed);
    }

    /** Runs the next command; it may fail to start at all. */
    method RunCommand(command: string) returns (output: Option<CommandOutput>)
      requires Valid() && !Now().failed && Now().stage == Started && Now().outputs.Some?
      requires |Now().outputs.value| < |config.commands| && command == config.commands[|Now().outputs.value|]
      modifies this
      ensures Valid() && old(trace) < trace
      ensures Now() == if output.Some? then old(Now()).(outputs := Some(old(Now()).outputs.value + [output.value]))
                       else old(Now()).(failed := true)
    {
      output := *;
      Note(if output.Some? then RanCommand(command, output.value) else CallFailed);
    }

    // ---- reads that are retried until the server has caught up ----

    method FetchConfiguredEvaluationRun() returns (run: Option<EvaluationRun>)
      requires Valid() && !Now().failed && Now().stage == Untouched && Now().cycle.None?
      modifies this
      ensures Valid() && old(trace) <= trace && 1 <= |trace| - |old(trace)| <= 11
      ensures run.Some? ==> Now() == old(Now()).(run := run)
      ensures run.None? ==> Now().failed
      ensures run.Some? && run.value.status == "Queued" && run.value.workCycleId == "" ==> |trace| == |old(trace)| + 11
    {
      run := FetchEvaluationRun();
      for n := 0 to 10
        invariant Valid() && old(trace) <= trace && |trace| == |old(trace)| + n + 1
        invariant run.Some? ==> Now() == old(Now()).(run := run)
        invariant run.None? ==> Now().failed
      {
        if run.None? || run.value.status != "Queued" || run.value.workCycleId != "" {
          return;
        }
        run := FetchEvaluationRun();
      }
    }

    method FetchConfiguredReviewRun() returns (review: Option<ReviewRun>)
      requires Valid() && !Now().failed && Now().stage == Untouched
      requires Now().cycle.Some? && Now().cycle.value.reviewerRunId != ""
      modifies this
      ensures Valid() && old(trace) <= trace && 1 <= |trace| - |old(trace)| <= 11
      ensures review.Some? ==> Now() == old(Now()).(review := review)
      ensures review.None? ==> Now().failed
      ensures review.Some? && review.value.status == "Requested" && review.value.workerRunId == "" ==>
                |trace| == |old(trace)| + 11
    {
      review := FetchReviewRun();
      for n := 0 to 10
        invariant Valid() && old(trace) <= trace && |trace| == |old(trace)| + n + 1
        invariant review.Some? ==> Now() == old(Now()).(review := review)
        invariant review.None? ==> Now().failed
      {
        if review.None? || review.value.status != "Requested" || review.value.workerRunId != "" {
          return;
        }
        review := FetchReviewRun();
      }
    }

    /** Reads the cycle up to twenty-one times; whatever it reads last is what it returns. */
    method FetchWorkCycleUntilReviewPassed() returns (cycle: Option<WorkCycle>)
      requires Valid() && !Now().failed && Now().stage == Untouched
      modifies this
      ensures Valid() && old(trace) <= trace && 1 <= |trace| - |old(trace)| <= 21
      ensures cycle.Some? ==> Now() == ReadAgain(old(Now()), cycle.value, |trace| - |old(trace)|)
      ensures cycle.None? ==> Now().failed
      ensures cycle.Some? && !cycle.value.reviewPassed && !Terminal(cycle.value) ==>
                |trace| == |old(trace)| + 21
    {
      cycle := FetchWorkCycle();
      for n := 0 to 20
        invariant Valid() && old(trace) <= trace && |trace| == |old(trace)| + n + 1
        invariant cycle.Some? ==> Now() == ReadAgain(old(Now()), cycle.value, n + 1)
        invariant cycle.None? ==> Now().failed
      {
        if cycle.None? || cycle.value.reviewPassed || Terminal(cycle.value) {
          return;
        }
        cycle := FetchWorkCycle();
      }
    }

    // ---- the handlers ----

    /** Fails the evaluation if nothing can approve it any more; reports whether the handling is done. */
    method FailIfBlocked(run: EvaluationRun, cycle: WorkCycle, review: Option<ReviewRun>)
      returns (ok: bool, done: bool)
      requires Valid() && !Now().failed && Now().stage == Untouched && run.status == "Queued"
      requires Now().run == Some(run) && Now().cycle == Some(cycle) && Now().review == review
      modifies this
      ensures Valid() && old(trace) <= trace
      ensures ok <==> !Now().failed
      ensures ok ==> Now() == old(Now()).(stage := if Blocked(config, old(Now())) then Decided else Untouched)
      ensures ok ==> (done <==> Blocker(cycle, review).Some?)
    {
      var blocker := Blocker(cycle, review);
      if blocker.None? {
        return true, false;
      }
      done := true;
      ok := true;
      if MayFail(run, config.workerId) {
        ok := Post(Claim);
        if ok {
          ok := Post(Fail(blocker.value));
        }
      }
    }

    /** Decides the review exactly when it was last read as waiting and this worker is one that reviews. */
    method HandleRequestedReviewRun() returns (ok: bool)
      requires Valid() && !Now().failed && Now().stage == Untouched && Now().reviewStage == Untouched
      requires Now().cycle.Some? && Now().cycle.value.reviewerRunId != "" && !Now().cycle.value.reviewPassed
      requires Now().decision.None?
      modifies this
      ensures Valid() && old(trace) <= trace
      ensures ok <==> !Now().failed
      ensures ok ==> Now().review.Some?
                     && Now() == old(Now()).(
                          review := Now().review, reviewStage := Now().reviewStage, decision := Now().decision)
      ensures ok ==> Now().reviewStage == if IsMyReview(config, Now().review.value) then Decided else Untouched
    {
      var review := FetchConfiguredReviewRun();
      if review.None? {
        return false;
      }
      if review.value.status != "Requested" || review.value.workerRunId == "" {
        return true;
      }
      ok := ReadAndReview(review.value);
    }

    /** Reads the run under review, and reviews it if this worker does reviews. */
    method ReadAndReview(review: ReviewRun) returns (ok: bool)
      requires Valid() && !Now().failed && Now().stage == Untouched && Now().reviewStage == Untouched
      requires Now().cycle.Some? && !Now().cycle.value.reviewPassed && Now().review == Some(review)
      requires review.status == "Requested" && review.workerRunId != "" && Now().decision.None?
      modifies this
      ensures Valid() && old(trace) <= trace
      ensures ok <==> !Now().failed
      ensures ok ==> Now() == old(Now()).(
                                reviewStage := if config.enableExecution then Decided else Untouched,
                                decision := Now().decision)
    {
      var read := FetchReviewedRun();
      if !read {
        return false;
      }
      if !config.enableExecution {
        return true;
      }
      ok := Review();
    }

    /** Claims and starts the review, has the agent decide, and posts the decision or that there is none. */
    method Review() returns (ok: bool)
      requires Valid() && MayReview(config, Now()) && !Now().failed
      requires Now().reviewStage == Untouched && Now().decision.None?
      modifies this
      ensures Valid() && old(trace) <= trace
      ensures ok <==> !Now().failed
      ensures ok ==> Now() == old(Now()).(reviewStage := Decided, decision := Now().decision)
    {
      ok := PostOnReview(ClaimReview);
      if ok {
        ok := PostOnReview(StartReview);
      }
      if ok {
        ok := DecideReview();
      }
    }

    method DecideReview() returns (ok: bool)
      requires Valid() && MayReview(config, Now()) && !Now().failed
      requires Now().reviewStage == Started && Now().decision.None?
      modifies this
      ensures Valid() && old(trace) <= trace
      ensures ok <==> !Now().failed
      ensures ok ==> Now() == old(Now()).(reviewStage := Decided, decision := Now().decision)
    {
      var decision := RunReviewer();
      var verdict := match decision
                     case Some(Approves) => Approve
                     case Some(WantsChanges) => RequestChanges
                     case Some(Escalates) => Escalate
                     case None => FailReview;
      ok := PostOnReview(verdict);
    }

    /** Prepares the worktree and runs the configured commands, all of them, unless one of these cannot be done. */
    method RunEvaluationCommands() returns (outputs: Option<seq<CommandOutput>>)
      requires Valid() && !Now().failed && Now().stage == Started && Now().outputs.None?
      modifies this
      ensures Valid() && old(trace) <= trace
      ensures outputs.None? ==> Now().failed
      ensures outputs.Some? ==> Now() == old(Now()).(outputs := outputs) && AllRan(config, Now())
    {
      var prepared := PrepareWorktree();
      if !prepared {
        return None;
      }
      var results: seq<CommandOutput> := [];
      for n := 0 to |config.commands|
        invariant Valid() && old(trace) <= trace && |results| == n
        invariant Now() == old(Now()).(outputs := Some(results))
      {
        var output := RunCommand(config.commands[n]);
        if output.None? {
          return None;
        }
        results := results + [output.value];
      }
      outputs := Some(results);
    }

    method RunCodeChangeEvaluation() returns (ok: bool)
      requires Valid() && !Now().failed && Now().stage == Claimed && OnItsMerits(config, Now())
      requires Now().sweep == Some(false) && Now().outputs.None?
      modifies this
      ensures Valid() && old(trace) <= trace
      ensures ok <==> !Now().failed
      ensures ok ==> Now() == old(Now()).(stage := Decided, outputs := Now().outputs) && AllRan(config, Now())
    {
      ok := Post(Start);
      if !ok {
        return;
      }
      var outputs := RunEvaluationCommands();
      if outputs.None? {
        return false;
      }
      var passed, classification := ClassifyOutputs(outputs.value);
      if passed {
        ok := Post(Pass);
      } else {
        ok := Post(Fail(classification));
      }
    }

    method RunRepoSweepEvaluation() returns (ok: bool)
      requires Valid() && !Now().failed && Now().stage == Claimed && OnItsMerits(config, Now())
      requires Now().sweep == Some(true)
      modifies this
      ensures Valid() && old(trace) <= trace
      ensures ok <==> !Now().failed
      ensures ok ==> Now() == old(Now()).(stage := Decided)
    {
      ok := Post(Start);
      if ok {
        ok := Post(Pass);
      }
    }

    /** Whatever failed, the trace obeys the gate; when no call failed, all was read and the evaluation settled. */
    method HandleQueuedEvaluationRun() returns (ok: bool)
      requires Valid() && trace == []
      modifies this
      ensures Valid()
      ensures ok <==> !Now().failed
      ensures ok ==> RightlySettled()
      ensures ok && Now().run.value.status == "Queued" && Now().run.value.workCycleId == "" ==> |trace| == 11
    {
      var run := FetchConfiguredEvaluationRun();
      if run.None? {
        return false;
      }
      if run.value.status != "Queued" || run.value.workCycleId == "" {
        return true;
      }
      var cycle := FetchWorkCycle();
      if cycle.None? {
        return false;
      }
      ok := EvaluateCycle(run.value, cycle.value);
    }

    method EvaluateCycle(run: EvaluationRun, cycle: WorkCycle) returns (ok: bool)
      requires Valid() && Configured(run) && Now() == CLOSED.(run := Some(run), cycle := Some(cycle), cycleReads := 1)
      modifies this
      ensures Valid() && old(trace) <= trace
      ensures ok <==> !Now().failed
      ensures ok ==> RightlySettled() && Now().run == Some(run)
    {
      var done: bool;
      ok, done := FailIfBlocked(run, cycle, None);
      if !ok || done {
        return;
      }
      if cycle.implementerRunId == "" {
        return true;
      }
      var sweep := FetchWorkerRun();
      if sweep.None? {
        return false;
      }
      ok := EvaluateWork(run, cycle, sweep.value);
    }

    method EvaluateWork(run: EvaluationRun, cycle: WorkCycle, sweep: bool) returns (ok: bool)
      requires Valid() && Configured(run) && Blocker(cycle, None).None?
      requires Now() == CLOSED.(run := Some(run), cycle := Some(cycle), sweep := Some(sweep), cycleReads := 1)
      modifies this
      ensures Valid() && old(trace) <= trace
      ensures ok <==> !Now().failed
      ensures ok ==> RightlySettled() && Now().run == Some(run)
    {
      if !cycle.reviewPassed && cycle.reviewerRunId != "" {
        var review := FetchReviewRun();
        if review.None? {
          return false;
        }
        var done: bool;
        ok, done := FailIfBlocked(run, cycle, review);
        if !ok || done {
          return;
        }
      }
      if !sweep && !config.enableExecution {
        return true;
      }
      ok := ReviewAndDecide(run, cycle, sweep);
    }

    method ReviewAndDecide(run: EvaluationRun, before: WorkCycle, sweep: bool) returns (ok: bool)
      requires Valid() && !Now().failed && Now().stage == Untouched && Now().reviewStage == Untouched
      requires Configured(run) && Now().run == Some(run) && Now().cycle == Some(before) && Now().cycleReads == 1
      requires Now().sweep == Some(sweep) && Blocker(before, Now().review).None? && Now().outputs.None?
      requires (sweep || config.enableExecution) && Now().decision.None?
      modifies this
      ensures Valid() && old(trace) <= trace
      ensures ok <==> !Now().failed
      ensures ok ==> RightlySettled() && Now().run == Some(run)
    {
      var cycle := before;
      if !cycle.reviewPassed && cycle.reviewerRunId != "" {
        var done: bool;
        ok, done, cycle := AwaitReview(run, cycle);
        if !ok || done {
          return;
        }
      }
      ok := Decide(run, cycle, sweep);
    }

    /** Does the review if it is this worker's to do and reads the cycle again. */
    method ReviewAndReread(before: WorkCycle) returns (ok: bool, cycle: WorkCycle)
      requires Valid() && !Now().failed && Now().stage == Untouched && Now().reviewStage == Untouched
      requires Now().cycle == Some(before) && before.reviewerRunId != "" && !before.reviewPassed
      requires Now().cycleReads == 1 && GoesOn(config, Now().sweep) && Now().decision.None?
      modifies this
      ensures Valid() && old(trace) <= trace
      ensures ok <==> !Now().failed
      ensures ok ==> Now() == old(Now()).(
                                cycle := Some(cycle), review := None, reviewStage := Now().reviewStage,
                                decision := Now().decision, earlier := Now().earlier, cycleReads := Now().cycleReads)
      ensures ok ==> 2 <= Now().cycleReads && ReviewSeenTo(config, Now())
      ensures ok && !cycle.reviewPassed && !Terminal(cycle) ==> Now().cycleReads == 22
    {
      cycle := before;
      ok := HandleRequestedReviewRun();
      if !ok {
        return;
      }
      var again := FetchWorkCycleUntilReviewPassed();
      if again.None? {
        ok := false;
        return;
      }
      cycle := again.value;
    }

    /** Does the review if it is this worker's to do, reads the cycle again and gives up if it is blocked now. */
    method AwaitReview(run: EvaluationRun, before: WorkCycle) returns (ok: bool, done: bool, cycle: WorkCycle)
      requires Valid() && !Now().failed && Now().stage == Untouched && Now().reviewStage == Untouched
      requires Configured(run) && Now().run == Some(run) && Now().cycle == Some(before)
      requires before.reviewerRunId != "" && !before.reviewPassed
      requires Now().cycleReads == 1 && GoesOn(config, Now().sweep) && Now().decision.None?
      modifies this
      ensures Valid() && old(trace) <= trace
      ensures ok <==> !Now().failed
      ensures ok ==> Now().cycle == Some(cycle) && Now().run == Some(run)
                     && Now().sweep == old(Now()).sweep && Now().outputs == old(Now()).outputs
      ensures ok ==> (done <==> Blocker(cycle, Now().review).Some?)
      ensures ok ==> ReadEnough(config, Now()) && ReviewSeenTo(config, Now())
      ensures ok ==> Now().stage == if Blocked(config, Now()) then Decided else Untouched
    {
      done := false;
      ok, cycle := ReviewAndReread(before);
      if !ok {
        return;
      }
      var review: Option<ReviewRun> := None;
      if cycle.reviewerRunId != "" {
        review := FetchReviewRun();
        if review.None? {
          ok := false;
          return;
        }
      }
      ok, done := FailIfBlocked(run, cycle, review);
    }

    method Decide(run: EvaluationRun, cycle: WorkCycle, sweep: bool) returns (ok: bool)
      requires Valid() && !Now().failed && Now().stage == Untouched && Configured(run)
      requires Now().run == Some(run) && Now().cycle == Some(cycle) && Now().sweep == Some(sweep)
      requires Blocker(cycle, Now().review).None? && Now().outputs.None? && (sweep || config.enableExecution)
      modifies this
      ensures Valid() && old(trace) <= trace
      ensures ok <==> !Now().failed
      ensures ok ==> Now() == old(Now()).(stage := Now().stage, outputs := Now().outputs)
      ensures ok ==> Now().stage == if OnItsMerits(config, old(Now())) then Decided else Untouched
      ensures ok && OnItsMerits(config, Now()) && !sweep ==> AllRan(config, Now())
    {
      if !cycle.reviewPassed {
        return true;
      }
      if run.evaluatorId != "" && run.evaluatorId != config.workerId {
        return true;
      }
      ok := Post(Claim);
      if !ok {
        return;
      }
      if sweep {
        ok := RunRepoSweepEvaluation();
      } else {
        ok := RunCodeChangeEvaluation();
      }
    }
  }
}
