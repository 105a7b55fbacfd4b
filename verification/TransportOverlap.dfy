/** Overlapping calls: each promise of the lifecycle holds in every run exactly when at most one caller makes calls. */
module TransportOverlap {
  import opened Text
  import opened Transport
  import opened TransportSafety

  // ---- the promises, for n callers whose calls may overlap ----

  ghost predicate AtMostOneLive(sys: System) {
    forall t, u | Live(sys.shared, t) && Live(sys.shared, u) :: t == u
  }

  /** Between calls whatever is live can be cancelled through the handle. */
  ghost predicate LiveIsHeld(sys: System) {
    (forall c | 0 <= c < |sys.callers| :: sys.callers[c].Idle?) ==>
      forall t | Live(sys.shared, t) :: sys.shared.handle.cancel == Some(sys.shared.tasks[t].token)
  }

  /** A stop waits for no task that nobody has cancelled. */
  ghost predicate AwaitedIsCancelled(sys: System) {
    forall c | 0 <= c < |sys.callers| && sys.callers[c].Join? && sys.callers[c].task.Some? ::
      Live(sys.shared, sys.callers[c].task.value) ==>
        sys.shared.tasks[sys.callers[c].task.value].token in sys.shared.cancelled
  }

  ghost predicate AlwaysOneLive(kind: Kind, n: nat) {
    forall sys | Leads(Fresh(kind, n), sys) :: AtMostOneLive(sys)
  }

  ghost predicate AlwaysHeld(kind: Kind, n: nat) {
    forall sys | Leads(Fresh(kind, n), sys) :: LiveIsHeld(sys)
  }

  ghost predicate AlwaysCancelled(kind: Kind, n: nat) {
    forall sys | Leads(Fresh(kind, n), sys) :: AwaitedIsCancelled(sys)
  }

  // ---- at most one caller ----

  /** Without callers nothing ever happens. */
  lemma {:induction false} NobodyCalls(kind: Kind, steps: seq<Step>)
    requires Run(Fresh(kind, 0), steps).Some?
    ensures Run(Fresh(kind, 0), steps).value == Fresh(kind, 0)
  {
    if steps != [] {
      NobodyCalls(kind, steps[..|steps| - 1]);
    }
  }

  lemma SerialisedInv(kind: Kind, sys: System)
    requires Leads(Fresh(kind, 1), sys)
    ensures Inv(sys)
  {
    var steps :| Run(Fresh(kind, 1), steps) == Some(sys);
    RunKeeps(Fresh(kind, 1), steps);
  }

  lemma OneLive(kind: Kind, n: nat, sys: System)
    requires n <= 1 && Leads(Fresh(kind, n), sys)
    ensures AtMostOneLive(sys)
  {
    if n == 0 {
      NobodyIsLive(kind, sys);
    } else {
      SerialisedInv(kind, sys);
    }
  }

  lemma NobodyIsLive(kind: Kind, sys: System)
    requires Leads(Fresh(kind, 0), sys)
    ensures sys == Fresh(kind, 0) && forall t :: !Live(sys.shared, t)
  {
    var steps :| Run(Fresh(kind, 0), steps) == Some(sys);
    NobodyCalls(kind, steps);
  }

  lemma LiveHeld(kind: Kind, n: nat, sys: System)
    requires n <= 1 && Leads(Fresh(kind, n), sys)
    ensures LiveIsHeld(sys)
  {
    if n == 0 {
      NobodyIsLive(kind, sys);
    } else {
      SerialisedInv(kind, sys);
      if sys.callers[0].Idle? {
        assert Held(sys.shared);
      }
    }
  }

  lemma AwaitedCancelled(kind: Kind, n: nat, sys: System)
    requires n <= 1 && Leads(Fresh(kind, n), sys)
    ensures AwaitedIsCancelled(sys)
  {
    if n == 0 {
      NobodyIsLive(kind, sys);
    } else {
      SerialisedInv(kind, sys);
    }
  }

  // ---- two callers among any number ----

  const CONNECT := Connect(None)
  const WAITING := Idle(Nothing)

  /** Two callers in the given states and the others idle. */
  function Two(n: nat, s: Shared, a: Caller, b: Caller): System
    requires n >= 2
  {
    System(s, [a, b] + seq(n - 2, _ => WAITING))
  }

  ghost predicate Gets(n: nat, s: Shared, a: Caller, b: Caller)
    requires n >= 2
  {
    Leads(Fresh(s.kind, n), Two(n, s, a, b))
  }

  lemma FirstBegins(n: nat, s: Shared, last: Outcome, b: Caller, op: Operation)
    requires n >= 2 && Gets(n, s, Idle(last), b)
    ensures Gets(n, s, Started(op), b)
  {
    var sys := Two(n, s, Idle(last), b);
    assert sys.callers[0 := Started(op)] == Two(n, s, Started(op), b).callers;
    LeadsOn(Fresh(s.kind, n), sys, Begin(0, op), Two(n, s, Started(op), b));
  }

  lemma SecondBegins(n: nat, s: Shared, a: Caller, last: Outcome, op: Operation)
    requires n >= 2 && Gets(n, s, a, Idle(last))
    ensures Gets(n, s, a, Started(op))
  {
    var sys := Two(n, s, a, Idle(last));
    assert sys.callers[1 := Started(op)] == Two(n, s, a, Started(op)).callers;
    LeadsOn(Fresh(s.kind, n), sys, Begin(1, op), Two(n, s, a, Started(op)));
  }

  lemma FirstMoves(n: nat, s: Shared, a: Caller, b: Caller, t: Shared, next: Caller)
    requires n >= 2 && Gets(n, s, a, b) && CallerMove(s, a, false) == Some((t, next))
    ensures t.kind == s.kind && Gets(n, t, next, b)
  {
    var sys := Two(n, s, a, b);
    assert sys.callers[0 := next] == Two(n, t, next, b).callers;
    LeadsOn(Fresh(s.kind, n), sys, CallerMoves(0, false), Two(n, t, next, b));
  }

  lemma SecondMoves(n: nat, s: Shared, a: Caller, b: Caller, t: Shared, next: Caller)
    requires n >= 2 && Gets(n, s, a, b) && CallerMove(s, b, false) == Some((t, next))
    ensures t.kind == s.kind && Gets(n, t, a, next)
  {
    var sys := Two(n, s, a, b);
    assert sys.callers[1 := next] == Two(n, t, a, next).callers;
    LeadsOn(Fresh(s.kind, n), sys, CallerMoves(1, false), Two(n, t, a, next));
  }

  lemma TaskMovesOn(n: nat, s: Shared, a: Caller, b: Caller, t: nat, event: TaskEvent, u: Shared)
    requires n >= 2 && Gets(n, s, a, b) && t < |s.tasks| && TaskMove(s, t, event) == Some(u)
    ensures u.kind == s.kind && Gets(n, u, a, b)
  {
    LeadsOn(Fresh(s.kind, n), Two(n, s, a, b), TaskMoves(t, event), Two(n, u, a, b));
  }

  /** An idle first caller empties the handle and waits for nothing, as there is no task yet. */
  lemma FirstOpens(n: nat, kind: Kind)
    requires n >= 2
    ensures Gets(n, Shared(kind, Handle(Connecting, Some(0), None), [], {}, 1), Spawn(0, None), WAITING)
  {
    var s := Shared(kind, NEW_HANDLE, [], {}, 0);
    assert Two(n, s, WAITING, WAITING) == Fresh(kind, n);
    assert Run(Fresh(kind, n), []) == Some(Fresh(kind, n));
    var next := Reopen(None);
    FirstBegins(n, s, Nothing, WAITING, CONNECT);
    FirstMoves(n, s, Stop(next), WAITING, s, Cancel(None, None, next));
    FirstMoves(n, s, Cancel(None, None, next), WAITING, s, Join(None, next));
    FirstMoves(n, s, Join(None, next), WAITING, s, Open(None));
    FirstMoves(n, s, Open(None), WAITING, s.(handle := Handle(Connecting, Some(0), None), issued := 1), Spawn(0, None));
  }

  function BothOpened(kind: Kind): Shared {
    Shared(kind, Handle(Connecting, Some(1), None), [], {0}, 2)
  }

  /** The second connect finds the first one's token but no task yet, so it too waits for nothing. */
  lemma BothOpen(n: nat, kind: Kind)
    requires n >= 2
    ensures Gets(n, BothOpened(kind), Spawn(0, None), Spawn(1, None))
  {
    var first := Spawn(0, None);
    var s := Shared(kind, Handle(Connecting, Some(0), None), [], {}, 1);
    var next := Reopen(None);
    FirstOpens(n, kind);
    SecondBegins(n, s, first, Nothing, CONNECT);
    var emptied := s.(handle := NEW_HANDLE);
    SecondMoves(n, s, first, Stop(next), emptied, Cancel(Some(0), None, next));
    var cancelled := emptied.(cancelled := {0});
    assert emptied.cancelled + {0} == {0};
    SecondMoves(n, emptied, first, Cancel(Some(0), None, next), cancelled, Join(None, next));
    SecondMoves(n, cancelled, first, Join(None, next), cancelled, Open(None));
    SecondMoves(n, cancelled, first, Open(None), BothOpened(kind), Spawn(1, None));
  }

  function NewTask(kind: Kind, token: nat): Task {
    Task(token, None, if kind == Slack then Starting else Selecting(false), Pending)
  }

  /** How a connect goes on once its task is stored. */
  function AfterStore(kind: Kind, t: nat): Caller {
    if kind == Slack then Idle(Launched) else AwaitStartup(t)
  }

  function BothRunning(kind: Kind): Shared {
    Shared(kind, Handle(Connecting, Some(1), Some(1)), [NewTask(kind, 0), NewTask(kind, 1)], {0}, 2)
  }

  /** Two tasks are live at once. */
  lemma BothSpawn(n: nat, kind: Kind)
    requires n >= 2
    ensures Gets(n, BothRunning(kind), AfterStore(kind, 0), AfterStore(kind, 1))
  {
    BothOpen(n, kind);
    var s := BothOpened(kind);
    var older, newer := NewTask(kind, 0), NewTask(kind, 1);
    assert s.tasks + [older] == [older] && [older] + [newer] == [older, newer];
    var s1 := s.(tasks := [older]);
    FirstMoves(n, s, Spawn(0, None), Spawn(1, None), s1, Store(0));
    var s2 := s1.(handle := Handle(Connecting, Some(1), Some(0)));
    FirstMoves(n, s1, Store(0), Spawn(1, None), s2, AfterStore(kind, 0));
    var s3 := s2.(tasks := [older, newer]);
    SecondMoves(n, s2, AfterStore(kind, 0), Spawn(1, None), s3, Store(1));
    SecondMoves(n, s3, AfterStore(kind, 0), Store(1), BothRunning(kind), AfterStore(kind, 1));
  }

  /** What the older task is when it sees that it was cancelled. On Slack it says first that it is connected. */
  function Selected(kind: Kind): Shared {
    if kind == Slack then
      BothRunning(kind).(handle := Handle(Connected(None), Some(1), Some(1)),
                         tasks := [NewTask(kind, 0).(phase := Selecting(true)), NewTask(kind, 1)])
    else BothRunning(kind)
  }

  function OlderGone(kind: Kind): Shared {
    BothRunning(kind).(handle := Handle(Disconnected, None, Some(1)),
                       tasks := [Task(0, None, Finished(Cancelled), Sent(false)), NewTask(kind, 1)])
  }

  /** The older task, cancelled, writes the newer connection's handle on its way out and clears its token. */
  lemma OlderClearsToken(n: nat, kind: Kind)
    requires n >= 2
    ensures Gets(n, OlderGone(kind), AfterStore(kind, 0), AfterStore(kind, 1))
  {
    BothSpawn(n, kind);
    var a, b := AfterStore(kind, 0), AfterStore(kind, 1);
    var s, s1 := BothRunning(kind), Selected(kind);
    if kind == Slack {
      assert s.tasks[0 := s1.tasks[0]] == s1.tasks;
      TaskMovesOn(n, s, a, b, 0, Writes, s1);
    }
    var s2 := s1.(tasks := [s1.tasks[0].(phase := Stopping), s1.tasks[1]]);
    assert s1.tasks[0 := s2.tasks[0]] == s2.tasks;
    TaskMovesOn(n, s1, a, b, 0, SeesCancel, s2);
    assert s2.tasks[0 := Task(0, None, Finished(Cancelled), Sent(false))] == OlderGone(kind).tasks;
    TaskMovesOn(n, s2, a, b, 0, Writes, OlderGone(kind));
  }

  function NewerUp(kind: Kind): Shared {
    OlderGone(kind).(handle := Handle(Connected(None), None, Some(1)),
                     tasks := [Task(0, None, Finished(Cancelled), Sent(false)),
                               Task(1, None, Selecting(true), if kind == Slack then Pending else Sent(true))])
  }

  function Returned(kind: Kind, outcome: Outcome): Caller {
    Idle(if kind == Slack then Launched else outcome)
  }

  /** Both connects return, the newer task serves, and the handle holds no token to cancel it with. */
  lemma BothReturn(n: nat, kind: Kind)
    requires n >= 2
    ensures Gets(n, NewerUp(kind), Returned(kind, NotReady), Returned(kind, Ready))
  {
    OlderClearsToken(n, kind);
    var a, b := AfterStore(kind, 0), AfterStore(kind, 1);
    var s, up := OlderGone(kind), NewerUp(kind);
    if kind == Slack {
      assert s.tasks[1 := up.tasks[1]] == up.tasks;
      TaskMovesOn(n, s, a, b, 1, Writes, up);
    } else {
      FirstMoves(n, s, a, b, s, Idle(NotReady));
      var ready := s.(tasks := [s.tasks[0], s.tasks[1].(phase := Announcing)]);
      assert s.tasks[1 := ready.tasks[1]] == ready.tasks;
      TaskMovesOn(n, s, Idle(NotReady), b, 1, BecomesReady, ready);
      assert ready.tasks[1 := up.tasks[1]] == up.tasks;
      TaskMovesOn(n, ready, Idle(NotReady), b, 1, Writes, up);
      SecondMoves(n, up, Idle(NotReady), b, up, Idle(Ready));
    }
  }

  /** A disconnect then waits for a task that nobody has cancelled. */
  lemma DisconnectWaits(n: nat, kind: Kind)
    requires n >= 2
    ensures Gets(n, NewerUp(kind).(handle := NEW_HANDLE), Join(Some(1), Return(Stopped)), Returned(kind, Ready))
  {
    BothReturn(n, kind);
    var b, next := Returned(kind, Ready), Return(Stopped);
    var s, taken := NewerUp(kind), NewerUp(kind).(handle := NEW_HANDLE);
    FirstBegins(n, s, Returned(kind, NotReady).last, b, Disconnect);
    FirstMoves(n, s, Stop(next), b, taken, Cancel(None, Some(1), next));
    FirstMoves(n, taken, Cancel(None, Some(1), next), b, taken, Join(Some(1), next));
  }

  // ---- exactly one caller ----

  /** On either transport, at most one task is live in every state exactly when at most one caller makes calls. */
  lemma OneLiveIff(kind: Kind, n: nat)
    ensures AlwaysOneLive(kind, n) <==> n <= 1
  {
    if n <= 1 {
      forall sys | Leads(Fresh(kind, n), sys) ensures AtMostOneLive(sys) {
        OneLive(kind, n, sys);
      }
    } else {
      BothSpawn(n, kind);
      var s := BothRunning(kind);
      assert Live(s, 0) && Live(s, 1);
      assert !AtMostOneLive(Two(n, s, AfterStore(kind, 0), AfterStore(kind, 1)));
    }
  }

  /** The same for the promise that between calls a live task can be cancelled through the handle. */
  lemma HeldIff(kind: Kind, n: nat)
    ensures AlwaysHeld(kind, n) <==> n <= 1
  {
    if n <= 1 {
      forall sys | Leads(Fresh(kind, n), sys) ensures LiveIsHeld(sys) {
        LiveHeld(kind, n, sys);
      }
    } else {
      BothReturn(n, kind);
      assert Live(NewerUp(kind), 1);
      assert !LiveIsHeld(Two(n, NewerUp(kind), Returned(kind, NotReady), Returned(kind, Ready)));
    }
  }

  /** And for the promise that a disconnect waits only for what it or another call has cancelled. */
  lemma CancelledIff(kind: Kind, n: nat)
    ensures AlwaysCancelled(kind, n) <==> n <= 1
  {
    if n <= 1 {
      forall sys | Leads(Fresh(kind, n), sys) ensures AwaitedIsCancelled(sys) {
        AwaitedCancelled(kind, n, sys);
      }
    } else {
      DisconnectWaits(n, kind);
      var sys := Two(n, NewerUp(kind).(handle := NEW_HANDLE), Join(Some(1), Return(Stopped)), Returned(kind, Ready));
      assert Live(sys.shared, 1) && sys.callers[0].Join?;
      assert !AwaitedIsCancelled(sys);
    }
  }
}
