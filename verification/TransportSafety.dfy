/** What the transport lifecycle promises when the calls are serialised. */
module TransportSafety {
  import opened Text
  import opened Transport

  predicate Live(s: Shared, t: int) {
    0 <= t < |s.tasks| && !s.tasks[t].phase.Finished?
  }

  predicate AtRest(status: Status) {
    status == Disconnected || status.Error?
  }

  predicate HasAnnounced(s: Shared, t: nat)
    requires t < |s.tasks|
  {
    if s.kind == Slack then s.tasks[t].phase != Starting else s.tasks[t].startup == Sent(true)
  }

  /** What the status reads while task t is live and nobody has asked it to stop. */
  function StatusOf(s: Shared, t: nat): Status
    requires t < |s.tasks|
  {
    if !HasAnnounced(s, t) then Connecting
    else Connected(if s.kind == Slack then None else s.tasks[t].guild)
  }

  /** Only the newest task can be live, and it belongs to the newest connection. */
  ghost predicate OnlyNewest(s: Shared) {
    && (forall t | Live(s, t) :: t == |s.tasks| - 1 && s.tasks[t].token == s.issued - 1)
    && (forall t | 0 <= t < |s.tasks| :: s.tasks[t].token < s.issued)
    && (forall t | 0 <= t < |s.tasks| :: TaskOk(s, s.tasks[t]))
  }

  predicate TaskOk(s: Shared, task: Task) {
    && (s.kind == Slack ==> task.phase != Announcing && task.phase != Selecting(false))
    && (s.kind == Discord ==> task.phase != Starting)
    && (task.phase.Finished? ==> task.startup.Sent?)
    && (s.kind == Discord && !task.phase.Finished? ==>
          (task.startup == Pending || task.startup == Sent(true))
          && (task.phase == Selecting(true) ==> task.startup == Sent(true))
          && (task.phase == Selecting(false) || task.phase == Announcing ==> task.startup == Pending))
  }

  /** What the status reads once a task that nobody asked to stop has come to its end. */
  ghost function StatusAtEnd(ending: Ending): Status {
    match ending
    case FailedWith(message) => Status.Error(message)
    case Exited => Disconnected
    case Cancelled => Disconnected
  }

  /** The status is what the last task left, unless a stop has begun since. */
  ghost predicate LastWord(s: Shared) {
    s.handle.status == Disconnected
    || (s.tasks != [] && s.tasks[|s.tasks| - 1].phase.Finished?
        && s.handle.status == StatusAtEnd(s.tasks[|s.tasks| - 1].phase.ending))
  }

  ghost predicate Quiet(s: Shared) {
    (forall t :: !Live(s, t)) && AtRest(s.handle.status) && s.handle.cancel == None && LastWord(s)
  }

  /** This is the live task and the handle is its own, or nothing is live and the status is how it ended. */
  ghost predicate QuietOrOwned(s: Shared, t: nat)
    requires t < |s.tasks|
  {
    if Live(s, t) then s.handle.cancel == Some(s.tasks[t].token) && s.handle.status == StatusOf(s, t)
    else Quiet(s) && s.handle.status == StatusAtEnd(s.tasks[t].phase.ending)
  }

  ghost predicate Held(s: Shared) {
    if s.handle.task.Some? then s.handle.task.value == |s.tasks| - 1 && QuietOrOwned(s, s.handle.task.value)
    else Quiet(s)
  }

  /** The handle has been emptied; what may still be live is the task that was taken out of it. */
  ghost predicate Emptied(s: Shared, task: Option<nat>) {
    && s.handle.task == None && s.handle.cancel == None
    && (task.Some? ==> task.value == |s.tasks| - 1)
    && (forall t | Live(s, t) :: task == Some(t))
    && ((forall t :: !Live(s, t)) ==> AtRest(s.handle.status) && LastWord(s))
  }

  ghost predicate CallerOk(s: Shared, c: Caller) {
    match c
    case Idle(last) => Held(s) && (last == Stopped || last == TimedOut ==> Quiet(s) && s.handle.task == None)
                       && (last == Launched || last == NotReady ==> s.handle.task.Some?)
                       && (last == Ready ==> s.handle.task.Some? && s.tasks[s.handle.task.value].startup == Sent(true))
    case Stop(_) => Held(s)
    case Cancel(token, task, _) =>
      Emptied(s, task) && (task.Some? && Live(s, task.value) ==> token == Some(s.tasks[task.value].token))
    case Join(task, _) =>
      Emptied(s, task) && (task.Some? && Live(s, task.value) ==> s.tasks[task.value].token in s.cancelled)
    case Open(_) => Quiet(s) && s.handle.task == None
    case Spawn(token, _) =>
      (forall t :: !Live(s, t)) && s.handle == Handle(Connecting, Some(token), None) && token == s.issued - 1
    case Store(t) => s.handle.task == None && t == |s.tasks| - 1 && QuietOrOwned(s, t)
    case AwaitStartup(t) => s.handle.task == Some(t) && Held(s)
  }

  /** A call that returns where nothing else is said says one of these. */
  predicate NextOk(c: Caller) {
    match c
    case Stop(Return(o)) => o == Stopped || o == TimedOut
    case Cancel(_, _, Return(o)) => o == Stopped || o == TimedOut
    case Join(_, Return(o)) => o == Stopped || o == TimedOut
    case _ => true
  }

  ghost predicate Inv(sys: System) {
    |sys.callers| == 1 && OnlyNewest(sys.shared) && CallerOk(sys.shared, sys.callers[0]) && NextOk(sys.callers[0])
  }

  /** What a lock section that leaves the tasks alone says of them. */
  lemma TasksStay(s: Shared, t: Shared)
    requires OnlyNewest(s) && t.tasks == s.tasks && t.kind == s.kind && t.issued == s.issued
    ensures OnlyNewest(t) && forall x :: Live(t, x) <==> Live(s, x)
  {
  }

  lemma StopKeeps(s: Shared, t: Shared)
    requires OnlyNewest(s) && Held(s) && t == s.(handle := TakenForStop(s.handle))
    ensures OnlyNewest(t) && Emptied(t, s.handle.task)
    ensures s.handle.task.Some? && Live(t, s.handle.task.value)
            ==> s.handle.cancel == Some(t.tasks[s.handle.task.value].token)
  {
    TasksStay(s, t);
  }

  lemma CancelKeeps(s: Shared, token: Option<nat>, task: Option<nat>, t: Shared)
    requires OnlyNewest(s) && CallerOk(s, Cancel(token, task, Return(Stopped)))
    requires t == if token.Some? then s.(cancelled := s.cancelled + {token.value}) else s
    ensures OnlyNewest(t) && CallerOk(t, Join(task, Return(Stopped)))
  {
    TasksStay(s, t);
  }

  lemma JoinKeeps(s: Shared, task: Option<nat>)
    requires OnlyNewest(s) && Emptied(s, task) && Done(s, task)
    ensures Quiet(s) && s.handle.task == None
  {
    assert task.Some? ==> !Live(s, task.value);
  }

  /** With nothing live a new connection may be numbered. */
  lemma OpenKeeps(s: Shared, t: Shared)
    requires OnlyNewest(s) && Quiet(s) && s.handle.task == None
    requires t == s.(handle := Opened(s.handle, s.issued), issued := s.issued + 1)
    ensures OnlyNewest(t) && CallerOk(t, Spawn(s.issued, None))
  {
    assert forall x :: !Live(t, x) by {
      assert forall x :: Live(t, x) ==> Live(s, x);
    }
    forall x | 0 <= x < |t.tasks| ensures t.tasks[x].token < t.issued && TaskOk(t, t.tasks[x]) {
      assert s.tasks[x].token < s.issued && TaskOk(s, s.tasks[x]);
    }
  }

  lemma SpawnKeeps(s: Shared, token: nat, task: Task, t: Shared)
    requires OnlyNewest(s) && CallerOk(s, Spawn(token, task.guild)) && t == s.(tasks := s.tasks + [task])
    requires task == Task(token, task.guild, if s.kind == Slack then Starting else Selecting(false), Pending)
    ensures OnlyNewest(t) && CallerOk(t, Store(|s.tasks|))
  {
    forall x | Live(t, x) ensures x == |s.tasks| {
      assert x < |s.tasks| ==> Live(s, x);
    }
    forall x | 0 <= x < |t.tasks| ensures t.tasks[x].token < t.issued && TaskOk(t, t.tasks[x]) {
      assert x < |s.tasks| ==> s.tasks[x].token < s.issued && TaskOk(s, s.tasks[x]);
    }
  }

  lemma StoreKeeps(s: Shared, n: nat, t: Shared)
    requires OnlyNewest(s) && CallerOk(s, Store(n)) && t == s.(handle := s.handle.(task := Some(n)))
    ensures OnlyNewest(t) && Held(t) && t.handle.task == Some(n)
  {
    TasksStay(s, t);
  }

  lemma CallerKeeps(s: Shared, c: Caller, timedOut: bool, t: Shared, d: Caller)
    requires OnlyNewest(s) && CallerOk(s, c) && NextOk(c) && CallerMove(s, c, timedOut) == Some((t, d))
    ensures OnlyNewest(t) && CallerOk(t, d) && NextOk(d)
  {
    match c
    case Idle(_) =>
    case Stop(next) => StopKeeps(s, t);
    case Cancel(token, task, next) => CancelKeeps(s, token, task, t);
    case Join(task, next) => JoinKeeps(s, task);
    case Open(guild) => OpenKeeps(s, t);
    case Spawn(token, guild) => SpawnKeeps(s, token, t.tasks[|s.tasks|], t);
    case Store(n) => StoreKeeps(s, n, t);
    case AwaitStartup(n) =>
  }

  /** A task that moves was live, and no other task is. */
  lemma TaskMovesAlone(s: Shared, t: nat, event: TaskEvent, u: Shared)
    requires OnlyNewest(s) && t < |s.tasks| && TaskMove(s, t, event) == Some(u)
    ensures Live(s, t) && t == |s.tasks| - 1 && |u.tasks| == |s.tasks|
    ensures forall x | x != t :: !Live(u, x) && !Live(s, x)
    ensures OnlyNewest(u) && u.issued == s.issued && u.cancelled == s.cancelled && u.kind == s.kind
    ensures u.handle.task == s.handle.task && u.tasks[t].token == s.tasks[t].token
  {
    assert Live(s, t);
    forall x | x != t ensures !Live(u, x) {
      assert !Live(s, x);
    }
  }

  lemma TaskKeeps(s: Shared, c: Caller, t: nat, event: TaskEvent, u: Shared)
    requires OnlyNewest(s) && CallerOk(s, c) && NextOk(c) && t < |s.tasks| && TaskMove(s, t, event) == Some(u)
    ensures OnlyNewest(u) && CallerOk(u, c)
  {
    TaskMovesAlone(s, t, event, u);
    assert Live(u, t) <==> !u.tasks[t].phase.Finished?;
  }

  lemma StepKeeps(sys: System, step: Step)
    requires Inv(sys) && Perform(sys, step).Some?
    ensures Inv(Perform(sys, step).value)
  {
    match step
    case Begin(c, op) =>
    case CallerMoves(c, timedOut) =>
      var moved := CallerMove(sys.shared, sys.callers[c], timedOut).value;
      CallerKeeps(sys.shared, sys.callers[c], timedOut, moved.0, moved.1);
    case TaskMoves(t, event) =>
      TaskKeeps(sys.shared, sys.callers[0], t, event, TaskMove(sys.shared, t, event).value);
  }

  lemma {:induction false} RunKeeps(sys: System, steps: seq<Step>)
    requires Inv(sys) && Run(sys, steps).Some?
    ensures Inv(Run(sys, steps).value)
  {
    if steps != [] {
      RunKeeps(sys, steps[..|steps| - 1]);
      StepKeeps(Run(sys, steps[..|steps| - 1]).value, steps[|steps| - 1]);
    }
  }

  lemma ReachableInv(kind: Kind, sys: System)
    requires Reachable(kind, sys)
    ensures Inv(sys)
  {
    var steps :| Run(Fresh(kind, 1), steps) == Some(sys);
    RunKeeps(Fresh(kind, 1), steps);
  }

  lemma LeadsOn(start: System, sys: System, step: Step, next: System)
    requires Leads(start, sys) && Perform(sys, step) == Some(next)
    ensures Leads(start, next)
  {
    var steps :| Run(start, steps) == Some(sys);
    var longer := steps + [step];
    assert longer[..|longer| - 1] == steps;
    assert Run(start, longer) == Some(next);
  }

  // ---- serialised calls ----

  /** At most one task is live, and a task that can still write the handle belongs to the newest connection. */
  lemma OnlyTheNewestTaskLives(kind: Kind, sys: System, t: nat, u: nat)
    requires Reachable(kind, sys) && Live(sys.shared, t)
    ensures Live(sys.shared, u) ==> u == t
    ensures sys.shared.tasks[t].token == sys.shared.issued - 1
    ensures !sys.callers[0].Spawn? && !sys.callers[0].Open?
  {
    ReachableInv(kind, sys);
  }

  /** When disconnect has returned, or a connect has given up waiting, nothing is left behind. */
  lemma DisconnectLeavesNothing(kind: Kind, sys: System)
    requires Reachable(kind, sys) && (sys.callers[0] == Idle(Stopped) || sys.callers[0] == Idle(TimedOut))
    ensures forall t :: !Live(sys.shared, t)
    ensures sys.shared.handle.cancel == None && sys.shared.handle.task == None
    ensures sys.shared.handle.status == Disconnected
            || (sys.shared.handle.status.Error? && sys.shared.tasks != []
                && sys.shared.tasks[|sys.shared.tasks| - 1].phase
                   == Finished(FailedWith(sys.shared.handle.status.message)))
  {
    ReachableInv(kind, sys);
  }

  /** Between calls the reported status is the truth: up exactly while a task is live, and then it is that task's. */
  lemma StatusIsHonest(kind: Kind, sys: System)
    requires Reachable(kind, sys) && sys.callers[0].Idle?
    ensures AtRest(sys.shared.handle.status) <==> forall t :: !Live(sys.shared, t)
    ensures forall t | Live(sys.shared, t) ::
              sys.shared.handle == Handle(StatusOf(sys.shared, t), Some(sys.shared.tasks[t].token), Some(t))
    ensures sys.callers[0].last == Ready && kind == Discord ==>
              forall t | Live(sys.shared, t) :: sys.shared.handle.status == Connected(sys.shared.tasks[t].guild)
  {
    ReachableInv(kind, sys);
    KindStays(kind, sys);
    assert Held(sys.shared);
  }

  // ---- how a task ended ----

  /** Of the things a task can be told, it acts on one: what it acted on is how it ends. */
  ghost predicate EndsAsTold(steps: seq<Step>, t: nat, phase: Phase) {
    && (forall m :: phase == Exiting(Some(m)) || phase == Finished(FailedWith(m)) <==>
                      TaskMoves(t, Exits(Some(m))) in steps)
    && (phase == Exiting(None) || phase == Finished(Exited) <==> TaskMoves(t, Exits(None)) in steps)
    && (phase == Stopping || phase == Finished(Cancelled) <==> TaskMoves(t, SeesCancel) in steps)
  }

  ghost predicate AllEndAsTold(s: Shared, steps: seq<Step>) {
    && (forall t | 0 <= t < |s.tasks| :: EndsAsTold(steps, t, s.tasks[t].phase))
    && (forall i | 0 <= i < |steps| && steps[i].TaskMoves? :: steps[i].t < |s.tasks|)
  }

  lemma TaskEndsAsTold(s: Shared, t: nat, event: TaskEvent, u: Shared, steps: seq<Step>)
    requires t < |s.tasks| && TaskMove(s, t, event) == Some(u) && EndsAsTold(steps, t, s.tasks[t].phase)
    ensures |u.tasks| == |s.tasks| && (forall x | 0 <= x < |s.tasks| && x != t :: u.tasks[x] == s.tasks[x])
    ensures EndsAsTold(steps + [TaskMoves(t, event)], t, u.tasks[t].phase)
  {
    var more := steps + [TaskMoves(t, event)];
    assert forall step :: step in more <==> step in steps || step == TaskMoves(t, event);
  }

  /** A step that does not move this task tells it nothing. */
  lemma OtherStepsTellNothing(steps: seq<Step>, step: Step, t: nat, phase: Phase)
    requires EndsAsTold(steps, t, phase) && !(step.TaskMoves? && step.t == t)
    ensures EndsAsTold(steps + [step], t, phase)
  {
    assert forall other :: other in steps + [step] <==> other in steps || other == step;
  }

  lemma NewTasksEndAsTold(steps: seq<Step>, t: nat, phase: Phase)
    requires forall i | 0 <= i < |steps| && steps[i].TaskMoves? :: steps[i].t < t
    requires phase == Starting || phase == Selecting(false)
    ensures EndsAsTold(steps, t, phase)
  {
  }

  lemma StepEndsAsTold(sys: System, steps: seq<Step>, step: Step)
    requires AllEndAsTold(sys.shared, steps) && Perform(sys, step).Some?
    ensures AllEndAsTold(Perform(sys, step).value.shared, steps + [step])
  {
    var s, next := sys.shared, Perform(sys, step).value.shared;
    forall t | 0 <= t < |next.tasks| ensures EndsAsTold(steps + [step], t, next.tasks[t].phase) {
      if step.TaskMoves? && step.t == t {
        TaskEndsAsTold(s, t, step.event, next, steps);
      } else {
        if step.TaskMoves? {
          TaskEndsAsTold(s, step.t, step.event, next, steps);
        } else if t == |s.tasks| {
          NewTasksEndAsTold(steps, t, next.tasks[t].phase);
        }
        OtherStepsTellNothing(steps, step, t, next.tasks[t].phase);
      }
    }
  }

  lemma {:induction false} RunEndsAsTold(kind: Kind, n: nat, steps: seq<Step>)
    requires Run(Fresh(kind, n), steps).Some?
    ensures AllEndAsTold(Run(Fresh(kind, n), steps).value.shared, steps)
  {
    if steps != [] {
      var front, last := steps[..|steps| - 1], steps[|steps| - 1];
      RunEndsAsTold(kind, n, front);
      StepEndsAsTold(Run(Fresh(kind, n), front).value, front, last);
      assert steps == front + [last];
    }
  }

  /**
   * After a connect that was not given up, the connection's own end is what is reported: the message its transport
   * failed with, and otherwise that it is disconnected. It has ended only if it failed, exited or was cancelled.
   */
  lemma ReportedAsItEnded(kind: Kind, steps: seq<Step>, sys: System)
    requires Run(Fresh(kind, 1), steps) == Some(sys) && |sys.callers| == 1
    requires sys.callers[0] in {Idle(Launched), Idle(Ready), Idle(NotReady)}
    ensures sys.shared.tasks != [] && sys.shared.handle.task == Some(|sys.shared.tasks| - 1)
    ensures var t := |sys.shared.tasks| - 1;
            !Live(sys.shared, t) ==>
              && (forall m | TaskMoves(t, Exits(Some(m))) in steps :: sys.shared.handle.status == Status.Error(m))
              && (TaskMoves(t, Exits(None)) in steps ==> sys.shared.handle.status == Disconnected)
              && (TaskMoves(t, SeesCancel) in steps ==> sys.shared.handle.status == Disconnected)
              && (TaskMoves(t, Exits(None)) in steps || TaskMoves(t, SeesCancel) in steps
                  || exists m :: TaskMoves(t, Exits(Some(m))) in steps)
  {
    RunKeeps(Fresh(kind, 1), steps);
    LastIsHeld(sys);
    RunEndsAsTold(kind, 1, steps);
    var t := |sys.shared.tasks| - 1;
    if !Live(sys.shared, t) {
      assert EndsAsTold(steps, t, sys.shared.tasks[t].phase);
      OneEnding(steps, t, sys.shared.tasks[t].phase.ending);
    }
  }

  lemma LastIsHeld(sys: System)
    requires Inv(sys) && sys.callers[0] in {Idle(Launched), Idle(Ready), Idle(NotReady)}
    ensures sys.shared.tasks != [] && sys.shared.handle.task == Some(|sys.shared.tasks| - 1)
    ensures var t := |sys.shared.tasks| - 1;
            !Live(sys.shared, t) ==> sys.shared.handle.status == StatusAtEnd(sys.shared.tasks[t].phase.ending)
  {
  }

  lemma OneEnding(steps: seq<Step>, t: nat, ending: Ending)
    requires EndsAsTold(steps, t, Finished(ending))
    ensures forall m | TaskMoves(t, Exits(Some(m))) in steps :: StatusAtEnd(ending) == Status.Error(m)
    ensures TaskMoves(t, Exits(None)) in steps ==> StatusAtEnd(ending) == Disconnected
    ensures TaskMoves(t, SeesCancel) in steps ==> StatusAtEnd(ending) == Disconnected
    ensures TaskMoves(t, Exits(None)) in steps || TaskMoves(t, SeesCancel) in steps
            || exists m :: TaskMoves(t, Exits(Some(m))) in steps
  {
    if ending.FailedWith? {
      assert TaskMoves(t, Exits(Some(ending.message))) in steps;
    }
  }

  lemma {:induction false} RunKeepsKind(sys: System, steps: seq<Step>)
    requires Run(sys, steps).Some?
    ensures Run(sys, steps).value.shared.kind == sys.shared.kind
  {
    if steps != [] {
      RunKeepsKind(sys, steps[..|steps| - 1]);
    }
  }

  lemma KindStays(kind: Kind, sys: System)
    requires Reachable(kind, sys)
    ensures sys.shared.kind == kind
  {
    var steps :| Run(Fresh(kind, 1), steps) == Some(sys);
    RunKeepsKind(Fresh(kind, 1), steps);
  }

  function PhaseRank(phase: Phase): nat {
    match phase
    case Selecting(ready) => if ready then 2 else 4
    case Starting => 3
    case Announcing => 3
    case Exiting(_) => 1
    case Stopping => 1
    case Finished(_) => 0
  }

  predicate BeingStopped(c: Caller) {
    c.Stop? || c.Cancel? || c.Join?
  }

  function SectionRank(c: Caller): nat {
    match c case Stop(_) => 3 case Cancel(_, _, _) => 2 case Join(_, _) => 1 case _ => 0
  }

  /** What is left to happen before a stop returns. */
  function Remaining(sys: System): nat
    requires |sys.callers| == 1
  {
    var tasks := sys.shared.tasks;
    var c := sys.callers[0];
    (if tasks == [] then 0 else PhaseRank(tasks[|tasks| - 1].phase))
    + SectionRank(c)
  }

  /** While a transport is being stopped, whatever happens next brings the return nearer. */
  lemma StoppingTerminates(kind: Kind, sys: System, step: Step)
    requires Reachable(kind, sys) && BeingStopped(sys.callers[0]) && Perform(sys, step).Some?
    ensures |sys.callers| == |Perform(sys, step).value.callers| == 1
    ensures Remaining(Perform(sys, step).value) < Remaining(sys)
  {
    ReachableInv(kind, sys);
    match step
    case Begin(_, _) =>
    case CallerMoves(_, timedOut) => SectionsRunOut(sys.shared, sys.callers[0], timedOut);
    case TaskMoves(t, event) => PhasesRunOut(sys.shared, t, event);
  }

  lemma SectionsRunOut(s: Shared, c: Caller, timedOut: bool)
    requires BeingStopped(c) && CallerMove(s, c, timedOut).Some?
    ensures CallerMove(s, c, timedOut).value.0.tasks == s.tasks
    ensures SectionRank(CallerMove(s, c, timedOut).value.1) < SectionRank(c)
  {
  }

  lemma PhasesRunOut(s: Shared, t: nat, event: TaskEvent)
    requires OnlyNewest(s) && t < |s.tasks| && TaskMove(s, t, event).Some?
    ensures t == |s.tasks| - 1 && |TaskMove(s, t, event).value.tasks| == |s.tasks|
    ensures PhaseRank(TaskMove(s, t, event).value.tasks[t].phase) < PhaseRank(s.tasks[t].phase)
  {
    assert Live(s, t);
  }

  /** And something always can: a task that is waited for has been cancelled or is on its way out. */
  lemma StoppingNeverBlocks(kind: Kind, sys: System)
    requires Reachable(kind, sys) && BeingStopped(sys.callers[0])
    ensures exists step :: Perform(sys, step).Some?
  {
    ReachableInv(kind, sys);
    var c := sys.callers[0];
    if c.Join? && !Done(sys.shared, c.task) {
      var t := c.task.value;
      if sys.shared.tasks[t].phase.Selecting? {
        assert Perform(sys, TaskMoves(t, SeesCancel)).Some?;
      } else {
        assert Perform(sys, TaskMoves(t, Writes)).Some?;
      }
    } else {
      assert Perform(sys, CallerMoves(0, false)).Some?;
    }
  }
}
