/**
 * The manager of one transport as the code runs it: one call at a time, lock section by lock section, with the
 * spawned tasks running in between. Every call is a run of the step system.
 */
module TransportManager {
  import opened Text
  import opened Transport
  import opened TransportSafety

  lemma CallerGoes(kind: Kind, s: Shared, c: Caller, timedOut: bool, t: Shared, d: Caller)
    requires Reachable(kind, System(s, [c])) && CallerMove(s, c, timedOut) == Some((t, d))
    ensures Reachable(kind, System(t, [d]))
  {
    assert [c][0 := d] == [d];
    LeadsOn(Fresh(kind, 1), System(s, [c]), CallerMoves(0, timedOut), System(t, [d]));
  }

  lemma CallerBegins(kind: Kind, s: Shared, last: Outcome, op: Operation)
    requires Reachable(kind, System(s, [Idle(last)]))
    ensures Reachable(kind, System(s, [Started(op)]))
  {
    assert [Idle(last)][0 := Started(op)] == [Started(op)];
    LeadsOn(Fresh(kind, 1), System(s, [Idle(last)]), Begin(0, op), System(s, [Started(op)]));
  }

  lemma TaskGoes(kind: Kind, s: Shared, c: Caller, t: nat, event: TaskEvent, u: Shared)
    requires Reachable(kind, System(s, [c])) && t < |s.tasks| && TaskMove(s, t, event) == Some(u)
    ensures Reachable(kind, System(u, [c]))
  {
    LeadsOn(Fresh(kind, 1), System(s, [c]), TaskMoves(t, event), System(u, [c]));
  }

  lemma FreshIsReachable(kind: Kind)
    ensures Reachable(kind, System(Shared(kind, NEW_HANDLE, [], {}, 0), [Idle(Nothing)]))
  {
    assert Fresh(kind, 1) == System(Shared(kind, NEW_HANDLE, [], {}, 0), [Idle(Nothing)]);
    assert Run(Fresh(kind, 1), []) == Some(Fresh(kind, 1));
  }

  /** Tasks are only added, and keep the connection they were made for. */
  ghost predicate SameTasks(before: seq<Task>, after: seq<Task>) {
    |before| == |after|
    && forall t | 0 <= t < |before| :: after[t].token == before[t].token && after[t].guild == before[t].guild
  }

  class TransportManager {
    const kind: Kind
    var status: Status
    var cancel: Option<nat>
    var task: Option<nat>
    var tasks: seq<Task>
    var cancelled: set<nat>
    var issued: nat
    ghost var caller: Caller
    ghost var seconds: nat  // spent waiting for a task to come up

    function Contents(): Shared
      reads this
    {
      Shared(kind, Handle(status, cancel, task), tasks, cancelled, issued)
    }

    ghost predicate Valid()
      reads this
    {
      Reachable(kind, System(Contents(), [caller]))
    }

    constructor (kind: Kind)
      ensures Valid() && this.kind == kind && caller == Idle(Nothing) && tasks == []
    {
      this.kind := kind;
      status, cancel, task := Disconnected, None, None;
      tasks, cancelled, issued, caller := [], {}, 0, Idle(Nothing);
      new;
      FreshIsReachable(kind);
    }

    // ---- the spawned task ----

    /** One step of a task, if it can take it: what an arm of its select loop does, or the section that follows. */
    method TaskRuns(t: nat, event: TaskEvent) returns (ran: bool)
      requires Valid() && t < |tasks|
      modifies this
      ensures Valid() && caller == old(caller)
      ensures ran <==> TaskMove(old(Contents()), t, event).Some?
      ensures Contents() == if ran then TaskMove(old(Contents()), t, event).value else old(Contents())
      ensures seconds == old(seconds)
    {
      ghost var before := Contents();
      var running := tasks[t];
      ran := event == Writes;
      match running.phase {
        case Selecting(readySeen) =>
          match event {
            case Exits(error) => running, ran := running.(phase := Exiting(error)), true;
            case BecomesReady =>
              ran := !readySeen && kind == Discord;
              running := running.(phase := Announcing);
            case SeesCancel =>
              ran := running.token in cancelled;
              running := running.(phase := Stopping);
            case Writes => ran := false;
          }
        case Starting =>
          if ran {
            status := Connected(None);
            running := running.(phase := Selecting(true));
          }
        case Announcing =>
          if ran {
            status := Connected(running.guild);
            running := running.(phase := Selecting(true), startup := Tell(running.startup, true));
          }
        case Exiting(error) =>
          if ran {
            status := if error.Some? then Status.Error(error.value) else Disconnected;
            cancel := None;
            running := running.(phase := Finished(EndingOf(error)), startup := Tell(running.startup, false));
          }
        case Stopping =>
          if ran {
            status := Disconnected;
            cancel := None;
            running := running.(phase := Finished(Cancelled), startup := Tell(running.startup, false));
          }
        case Finished(_) => ran := false;
      }
      if ran {
        tasks := tasks[t := running];
        TaskGoes(kind, before, caller, t, event, Contents());
      }
    }

    /** A live task takes some step; it need not take any while it waits for its transport. */
    method TaskAdvances(t: nat) returns (ran: bool)
      requires Valid() && Live(Contents(), t)
      modifies this
      ensures Valid() && caller == old(caller) && SameTasks(old(tasks), tasks)
      ensures issued == old(issued) && cancelled == old(cancelled) && task == old(task)
      ensures ran ==> PhaseRank(tasks[t].phase) < PhaseRank(old(tasks)[t].phase)
      ensures !ran ==> Contents() == old(Contents()) && tasks[t].phase.Selecting?
      ensures seconds == old(seconds)
    {
      var event: TaskEvent := *;
      ran := TaskRuns(t, event);
      if !ran && !tasks[t].phase.Selecting? {
        ran := TaskRuns(t, Writes);
      }
    }

    /** What may happen while the caller holds no lock. */
    method Pause()
      requires Valid()
      modifies this
      ensures Valid() && caller == old(caller) && SameTasks(old(tasks), tasks)
      ensures issued == old(issued) && cancelled == old(cancelled) && task == old(task)
      ensures seconds == old(seconds)
    {
      var steps: int := *;
      while 0 < steps
        invariant Valid() && caller == old(caller) && SameTasks(old(tasks), tasks)
        invariant issued == old(issued) && cancelled == old(cancelled) && task == old(task) && seconds == old(seconds)
      {
        if tasks != [] {
          var t, event: TaskEvent := |tasks| - 1, *;
          var ran := TaskRuns(t, event);
        }
        steps := steps - 1;
      }
    }

    // ---- the calls ----

    /** Empties the handle, cancels what was in it and waits for its task, which always comes to its end. */
    method StopTransport(ghost next: AfterStop)
      requires Valid() && caller == Stop(next)
      modifies this
      ensures Valid() && caller == AfterJoin(next) && SameTasks(old(tasks), tasks) && issued == old(issued)
      ensures seconds == old(seconds)
    {
      Pause();
      var token, running := cancel, task;
      ghost var before := Contents();
      status, cancel, task := Disconnected, None, None;
      CallerGoes(kind, before, caller, false, Contents(), Cancel(token, running, next));
      caller := Cancel(token, running, next);
      Pause();
      before := Contents();
      if token.Some? {
        cancelled := cancelled + {token.value};
      }
      CallerGoes(kind, before, caller, false, Contents(), Join(running, next));
      caller := Join(running, next);
      AwaitTask(running, next);
      CallerGoes(kind, Contents(), caller, false, Contents(), AfterJoin(next));
      caller := AfterJoin(next);
    }

    method AwaitTask(running: Option<nat>, ghost next: AfterStop)
      requires Valid() && caller == Join(running, next)
      modifies this
      ensures Valid() && caller == old(caller) && SameTasks(old(tasks), tasks) && issued == old(issued)
      ensures Done(Contents(), running)
      ensures seconds == old(seconds)
    {
      ReachableInv(kind, System(Contents(), [caller]));
      while running.Some? && !tasks[running.value].phase.Finished?
        invariant Valid() && caller == old(caller) && SameTasks(old(tasks), tasks) && issued == old(issued)
        invariant seconds == old(seconds) && (running.Some? ==> running.value < |tasks|)
        decreases if running.Some? then PhaseRank(tasks[running.value].phase) else 0
      {
        ReachableInv(kind, System(Contents(), [caller]));
        assert Live(Contents(), running.value);
        var ran := TaskAdvances(running.value);
        if !ran {
          ran := TaskRuns(running.value, SeesCancel);
        }
      }
    }

    /** Stops the transport: nothing is left of it afterwards. */
    method Disconnect()
      requires Valid() && caller.Idle?
      modifies this
      ensures Valid() && caller == Idle(Stopped) && SameTasks(old(tasks), tasks) && issued == old(issued)
      ensures forall t :: !Live(Contents(), t)
      ensures cancel == None && task == None && AtRest(status)
    {
      CallerBegins(kind, Contents(), caller.last, Operation.Disconnect);
      caller := Stop(Return(Stopped));
      StopTransport(Return(Stopped));
      DisconnectLeavesNothing(kind, System(Contents(), [caller]));
    }

    /** Numbers a new connection and puts its token into the handle. */
    method OpenConnection(ghost guild: Option<string>) returns (token: nat)
      requires Valid() && caller == Open(guild)
      modifies this
      ensures Valid() && caller == Spawn(token, guild) && SameTasks(old(tasks), tasks)
      ensures token == old(issued) && issued == token + 1
    {
      Pause();
      ghost var before := Contents();
      token := issued;
      status, cancel, issued := Connecting, Some(token), issued + 1;
      CallerGoes(kind, before, caller, false, Contents(), Spawn(token, guild));
      caller := Spawn(token, guild);
    }

    method SpawnTask(token: nat, guild: Option<string>) returns (t: nat)
      requires Valid() && caller == Spawn(token, guild)
      modifies this
      ensures Valid() && caller == Store(t) && issued == old(issued)
      ensures t == |old(tasks)| && |tasks| == t + 1 && SameTasks(old(tasks), tasks[..t])
      ensures tasks[t].token == token && tasks[t].guild == guild
    {
      Pause();
      ghost var before := Contents();
      t := |tasks|;
      tasks := tasks + [Task(token, guild, if kind == Slack then Starting else Selecting(false), Pending)];
      CallerGoes(kind, before, caller, false, Contents(), Store(t));
      caller := Store(t);
    }

    method StoreTask(t: nat)
      requires Valid() && caller == Store(t)
      modifies this
      ensures Valid() && caller == (if kind == Slack then Idle(Launched) else AwaitStartup(t))
      ensures SameTasks(old(tasks), tasks) && issued == old(issued)
    {
      Pause();
      ghost var before := Contents();
      task := Some(t);
      ghost var next := if kind == Slack then Idle(Launched) else AwaitStartup(t);
      CallerGoes(kind, before, caller, false, Contents(), next);
      caller := next;
    }

    /** Takes a new connection up to where its task is stored. */
    method Launch(guild: Option<string>) returns (t: nat)
      requires Valid() && caller.Idle?
      modifies this
      ensures Valid() && caller == (if kind == Slack then Idle(Launched) else AwaitStartup(t))
      ensures t == |old(tasks)| && |tasks| == t + 1 && SameTasks(old(tasks), tasks[..t])
      ensures issued == old(issued) + 1 && tasks[t].token == old(issued) && tasks[t].guild == guild
    {
      CallerBegins(kind, Contents(), caller.last, Operation.Connect(guild));
      caller := Stop(Reopen(guild));
      StopTransport(Reopen(guild));
      var token := OpenConnection(guild);
      t := SpawnTask(token, guild);
      StoreTask(t);
    }

    /** A second goes by, in which the task may get anywhere. */
    method WaitOneSecond()
      requires Valid()
      modifies this
      ensures Valid() && caller == old(caller) && SameTasks(old(tasks), tasks)
      ensures issued == old(issued) && seconds == old(seconds) + 1
    {
      Pause();
      seconds := seconds + 1;
    }

    /** Waits half a minute for the task to say how it came up, and stops it if it has not by then. */
    method AwaitReady(t: nat) returns (outcome: Outcome)
      requires Valid() && caller == AwaitStartup(t) && t < |tasks|
      modifies this
      ensures Valid() && caller == Idle(outcome) && outcome in {Ready, NotReady, TimedOut}
      ensures SameTasks(old(tasks), tasks) && issued == old(issued)
      ensures outcome == Ready ==> task == Some(t) && tasks[t].startup == Sent(true)
      ensures outcome == NotReady ==> tasks[t].startup == Sent(false)
      ensures outcome == TimedOut ==> seconds == old(seconds) + 30
    {
      var n := 0;
      while n < 30 && tasks[t].startup == Pending
        invariant Valid() && caller == old(caller) && SameTasks(old(tasks), tasks) && issued == old(issued)
        invariant n <= 30 && seconds == old(seconds) + n
      {
        WaitOneSecond();
        n := n + 1;
      }
      ReachableInv(kind, System(Contents(), [caller]));
      if tasks[t].startup != Pending {
        outcome := if tasks[t].startup.ok then Ready else NotReady;
        CallerGoes(kind, Contents(), caller, false, Contents(), Idle(outcome));
        caller := Idle(outcome);
      } else {
        outcome := TimedOut;
        CallerGoes(kind, Contents(), caller, true, Contents(), Stop(Return(TimedOut)));
        caller := Stop(Return(TimedOut));
        StopTransport(Return(TimedOut));
      }
    }

    /**
     * Connects. Whatever was there before has come to its end, and what the caller is told is so: a connection
     * that came up is reported up or has ended since, and one that failed or took too long has left nothing.
     */
    method Connect(guild: Option<string>) returns (outcome: Outcome)
      requires Valid() && caller.Idle?
      modifies this
      ensures Valid() && caller == Idle(outcome)
      ensures if kind == Slack then outcome == Launched else outcome in {Ready, NotReady, TimedOut}
      ensures |tasks| == |old(tasks)| + 1 && SameTasks(old(tasks), tasks[..|old(tasks)|])
      ensures issued == old(issued) + 1 && tasks[|old(tasks)|].token == old(issued)
      ensures forall t | Live(Contents(), t) :: t == |old(tasks)| && cancel == Some(old(issued)) && task == Some(t)
      ensures outcome == Ready ==> status == Connected(guild) || AtRest(status)
      ensures outcome in {NotReady, TimedOut} ==> AtRest(status)
      ensures AtRest(status) <==> forall t :: !Live(Contents(), t)
    {
      var t := Launch(guild);
      if kind == Slack {
        outcome := Launched;
      } else {
        outcome := AwaitReady(t);
      }
      ConnectedIsHonest(t, outcome);
    }

    lemma ConnectedIsHonest(t: nat, outcome: Outcome)
      requires Valid() && caller == Idle(outcome) && |tasks| == t + 1 && tasks[t].token == issued - 1
      requires outcome == NotReady ==> kind == Discord && tasks[t].startup == Sent(false)
      requires outcome == Ready ==> kind == Discord
      ensures forall x | Live(Contents(), x) :: x == t && cancel == Some(issued - 1) && task == Some(x)
      ensures outcome == Ready ==> status == Connected(tasks[t].guild) || AtRest(status)
      ensures outcome in {NotReady, TimedOut} ==> AtRest(status)
      ensures AtRest(status) <==> forall x :: !Live(Contents(), x)
    {
      var sys := System(Contents(), [caller]);
      ReachableInv(kind, sys);
      StatusIsHonest(kind, sys);
      assert TaskOk(Contents(), tasks[t]);
      if outcome == TimedOut {
        DisconnectLeavesNothing(kind, sys);
      }
    }

    /** What the setup page shows between calls is the truth. */
    method ReportedStatus() returns (reported: Status)
      requires Valid() && caller.Idle?
      ensures AtRest(reported) <==> forall t :: !Live(Contents(), t)
      ensures forall t | Live(Contents(), t) :: reported == StatusOf(Contents(), t)
      ensures task.Some? ==> task.value < |tasks|
      ensures task.Some? && !Live(Contents(), task.value) ==>
                match tasks[task.value].phase.ending
                case FailedWith(message) => reported == Status.Error(message)
                case Exited => reported == Disconnected
                case Cancelled => reported == Disconnected
    {
      reported := status;
      ReachableInv(kind, System(Contents(), [caller]));
      StatusIsHonest(kind, System(Contents(), [caller]));
    }
  }
}
