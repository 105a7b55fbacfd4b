/**
 * The lifecycle of one transport. Callers connect and disconnect, each
 * connection spawns a task, and both write the shared handle under its lock;
 * every lock section is one atomic step and everything in between interleaves.
 */
module Transport {
  import opened Text

  datatype Kind = Discord | Slack
  datatype Status = Disconnected | Connecting | Connected(guild: Option<string>) | Error(message: string)

  /** The shared handle. Cancellation tokens and tasks go by number, in the order they were made. */
  datatype Handle = Handle(status: Status, cancel: Option<nat>, task: Option<nat>)

  /** How a task came to its end: its transport failed, or exited cleanly, or was cancelled. */
  datatype Ending = FailedWith(message: string) | Exited | Cancelled

  datatype Phase =
    Starting | Selecting(readySeen: bool) | Announcing | Exiting(error: Option<string>) | Stopping
    | Finished(ending: Ending)
  datatype Startup = Pending | Sent(ok: bool)
  datatype Task = Task(token: nat, guild: Option<string>, phase: Phase, startup: Startup)

  datatype Operation = Connect(guild: Option<string>) | Disconnect
  datatype Outcome = Nothing | Stopped | Ready | NotReady | TimedOut | Launched
  datatype AfterStop = Return(outcome: Outcome) | Reopen(guild: Option<string>)

  datatype Caller =
    | Idle(last: Outcome)
    | Stop(next: AfterStop)
    | Cancel(cancel: Option<nat>, task: Option<nat>, next: AfterStop)
    | Join(task: Option<nat>, next: AfterStop)
    | Open(guild: Option<string>)
    | Spawn(token: nat, guild: Option<string>)
    | Store(t: nat)
    | AwaitStartup(t: nat)

  datatype Shared = Shared(kind: Kind, handle: Handle, tasks: seq<Task>, cancelled: set<nat>, issued: nat)
  datatype System = System(shared: Shared, callers: seq<Caller>)

  datatype TaskEvent = Exits(error: Option<string>) | BecomesReady | SeesCancel | Writes

  datatype Step =
    | Begin(c: nat, op: Operation)
    | CallerMoves(c: nat, timedOut: bool)
    | TaskMoves(t: nat, event: TaskEvent)

  const NEW_HANDLE := Handle(Disconnected, None, None)

  // ---- the lock sections ----

  function TakenForStop(h: Handle): Handle {
    h.(status := Disconnected, cancel := None, task := None)
  }

  function Opened(h: Handle, token: nat): Handle {
    h.(status := Connecting, cancel := Some(token))
  }

  function Announced(h: Handle, guild: Option<string>): Handle {
    h.(status := Connected(guild))
  }

  function Ended(h: Handle, error: Option<string>): Handle {
    h.(status := if error.Some? then Error(error.value) else Disconnected, cancel := None)
  }

  function EndingOf(error: Option<string>): Ending {
    if error.Some? then FailedWith(error.value) else Exited
  }

  // ---- steps ----

  function AfterJoin(next: AfterStop): Caller {
    match next case Return(outcome) => Idle(outcome) case Reopen(guild) => Open(guild)
  }

  predicate Done(s: Shared, task: Option<nat>) {
    task.Some? ==> task.value < |s.tasks| && s.tasks[task.value].phase.Finished?
  }

  function CallerMove(s: Shared, c: Caller, timedOut: bool): Option<(Shared, Caller)> {
    match c
    case Idle(_) => None
    case Stop(next) => Some((s.(handle := TakenForStop(s.handle)), Cancel(s.handle.cancel, s.handle.task, next)))
    case Cancel(token, task, next) =>
      Some((if token.Some? then s.(cancelled := s.cancelled + {token.value}) else s, Join(task, next)))
    case Join(task, next) => if Done(s, task) then Some((s, AfterJoin(next))) else None
    case Open(guild) =>
      Some((s.(handle := Opened(s.handle, s.issued), issued := s.issued + 1), Spawn(s.issued, guild)))
    case Spawn(token, guild) =>
      var first := if s.kind == Slack then Starting else Selecting(false);
      Some((s.(tasks := s.tasks + [Task(token, guild, first, Pending)]), Store(|s.tasks|)))
    case Store(t) =>
      Some((s.(handle := s.handle.(task := Some(t))), if s.kind == Slack then Idle(Launched) else AwaitStartup(t)))
    case AwaitStartup(t) =>
      if t < |s.tasks| && s.tasks[t].startup.Sent? then
        Some((s, Idle(if s.tasks[t].startup.ok then Ready else NotReady)))
      else if timedOut then Some((s, Stop(Return(TimedOut))))
      else None
  }

  /** The startup channel carries one message. */
  function Tell(startup: Startup, ok: bool): Startup {
    if startup == Pending then Sent(ok) else startup
  }

  function TaskMove(s: Shared, t: nat, event: TaskEvent): Option<Shared>
    requires t < |s.tasks|
  {
    var task := s.tasks[t];
    if task.phase.Selecting? then
      match event
      case Exits(error) => Some(s.(tasks := s.tasks[t := task.(phase := Exiting(error))]))
      case BecomesReady =>
        if task.phase.readySeen || s.kind == Slack then None
        else Some(s.(tasks := s.tasks[t := task.(phase := Announcing)]))
      case SeesCancel =>
        if task.token in s.cancelled then Some(s.(tasks := s.tasks[t := task.(phase := Stopping)])) else None
      case Writes => None
    else if event != Writes then None
    else
      match task.phase
      case Starting =>
        Some(s.(handle := Announced(s.handle, None), tasks := s.tasks[t := task.(phase := Selecting(true))]))
      case Announcing =>
        Some(s.(handle := Announced(s.handle, task.guild),
                tasks := s.tasks[t := task.(phase := Selecting(true), startup := Tell(task.startup, true))]))
      case Exiting(error) =>
        Some(s.(handle := Ended(s.handle, error),
                tasks := s.tasks[t := task.(phase := Finished(EndingOf(error)), startup := Tell(task.startup, false))]))
      case Stopping =>
        Some(s.(handle := Ended(s.handle, None),
                tasks := s.tasks[t := task.(phase := Finished(Cancelled), startup := Tell(task.startup, false))]))
      case _ => None
  }

  function Started(op: Operation): Caller {
    match op case Disconnect => Stop(Return(Stopped)) case Connect(guild) => Stop(Reopen(guild))
  }

  function Perform(sys: System, step: Step): Option<System> {
    match step
    case Begin(c, op) =>
      if c < |sys.callers| && sys.callers[c].Idle? then Some(sys.(callers := sys.callers[c := Started(op)])) else None
    case CallerMoves(c, timedOut) =>
      if c < |sys.callers| then
        var moved := CallerMove(sys.shared, sys.callers[c], timedOut);
        if moved.Some? then Some(System(moved.value.0, sys.callers[c := moved.value.1])) else None
      else None
    case TaskMoves(t, event) =>
      if t < |sys.shared.tasks| then
        var moved := TaskMove(sys.shared, t, event);
        if moved.Some? then Some(sys.(shared := moved.value)) else None
      else None
  }

  function Run(sys: System, steps: seq<Step>): Option<System> {
    if steps == [] then Some(sys)
    else
      var before := Run(sys, steps[..|steps| - 1]);
      if before.None? then None else Perform(before.value, steps[|steps| - 1])
  }

  function Fresh(kind: Kind, callers: nat): System {
    System(Shared(kind, NEW_HANDLE, [], {}, 0), seq(callers, _ => Idle(Nothing)))
  }

  ghost predicate Leads(start: System, sys: System) {
    exists steps :: Run(start, steps) == Some(sys)
  }

  /** Calls are serialised when there is one caller: it begins a call only after the last one returned. */
  ghost predicate Reachable(kind: Kind, sys: System) {
    Leads(Fresh(kind, 1), sys) && |sys.callers| == 1
  }
}
