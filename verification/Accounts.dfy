/**
 * Registration and password changes against one tenant's accounts. Any number
 * of requests interleave; registration holds a lock, changing a password does
 * not, and every load and every write is one step.
 */
module Accounts {
  import opened Text

  /** Accounts by e-mail. A stored hash verifies exactly the password it was made from, so it is modelled as that. */
  type AccountMap = map<string, string>

  datatype Purpose = Registers(email: string) | Changes(email: string, password: string)

  datatype Request =
    | Idle
    | WaitingForLock(email: string, password: string)
    | HoldingLock(email: string, password: string)
    | Changing(email: string, current: string, replacement: string)
    | Writing(purpose: Purpose, accounts: AccountMap)
    | Persisting(purpose: Purpose, accounts: AccountMap)

  /**
   * The vault cache of the tenant and of the "default" bucket it falls back to, what is in storage for the
   * tenant, and which registrations and password changes have reported success.
   */
  datatype System = System(
    cached: Option<AccountMap>, fallback: Option<AccountMap>, stored: Option<AccountMap>,
    lock: Option<nat>, requests: seq<Request>, registered: seq<string>, changed: seq<(string, string)>)

  datatype Action =
    | BeginRegister(email: string, password: string)
    | BeginChange(email: string, current: string, replacement: string)
    | AcquireLock
    | Load
    | WriteCache(takesEffect: bool)
    | Persist(reaches: bool, succeeds: bool)

  datatype Step = Act(p: nat, action: Action) | Restart(restored: bool)

  const NOBODY: AccountMap := map[]

  /** What `load_accounts` returns. */
  function Visible(sys: System): AccountMap {
    if sys.cached.Some? then sys.cached.value else if sys.fallback.Some? then sys.fallback.value else NOBODY
  }

  function Moves(sys: System, p: nat, next: Request): System
    requires p < |sys.requests|
  {
    sys.(requests := sys.requests[p := next])
  }

  function PerformLoad(sys: System, p: nat): Option<System>
    requires p < |sys.requests|
  {
    match sys.requests[p]
    case HoldingLock(email, password) =>
      if Visible(sys) == NOBODY then Some(Moves(sys, p, Writing(Registers(email), NOBODY[email := password])))
      else Some(Moves(sys, p, Idle).(lock := None))
    case Changing(email, current, replacement) =>
      if email in Visible(sys) && Visible(sys)[email] == current then
        Some(Moves(sys, p, Writing(Changes(email, replacement), Visible(sys)[email := replacement])))
      else Some(Moves(sys, p, Idle))
    case _ => None
  }

  function Finish(sys: System, p: nat, purpose: Purpose, succeeds: bool): System
    requires p < |sys.requests|
  {
    var done := Moves(sys, p, Idle).(lock := if purpose.Registers? then None else sys.lock);
    if !succeeds then done
    else
      match purpose
      case Registers(email) => done.(registered := sys.registered + [email])
      case Changes(email, password) => done.(changed := sys.changed + [(email, password)])
  }

  function PerformAction(sys: System, p: nat, action: Action): Option<System>
    requires p < |sys.requests|
  {
    var request := sys.requests[p];
    match action
    case BeginRegister(email, password) =>
      if request == Idle then Some(Moves(sys, p, WaitingForLock(email, password))) else None
    case BeginChange(email, current, replacement) =>
      if request == Idle then Some(Moves(sys, p, Changing(email, current, replacement))) else None
    case AcquireLock =>
      if request.WaitingForLock? && sys.lock == None then
        Some(Moves(sys, p, HoldingLock(request.email, request.password)).(lock := Some(p)))
      else None
    case Load => PerformLoad(sys, p)
    case WriteCache(takesEffect) =>
      if request.Writing? then
        var next := Moves(sys, p, Persisting(request.purpose, request.accounts));
        Some(if takesEffect then next.(cached := Some(request.accounts)) else next)
      else None
    case Persist(reaches, succeeds) =>
      if request.Persisting? && (succeeds ==> reaches) then
        var next := if reaches then sys.(stored := Some(request.accounts)) else sys;
        Some(Finish(next, p, request.purpose, succeeds))
      else None
  }

  function Perform(sys: System, step: Step): Option<System> {
    match step
    case Restart(restored) =>
      Some(sys.(cached := if restored then sys.stored else None, lock := None,
                requests := seq(|sys.requests|, _ => Idle)))
    case Act(p, action) => if p < |sys.requests| then PerformAction(sys, p, action) else None
  }

  function Run(sys: System, steps: seq<Step>): Option<System> {
    if steps == [] then Some(sys)
    else
      var before := Run(sys, steps[..|steps| - 1]);
      if before.None? then None else Perform(before.value, steps[|steps| - 1])
  }

  /** The server has just come up: the cache holds what was stored and nothing is in progress. */
  ghost predicate Initial(sys: System) {
    sys.cached == sys.stored && sys.lock == None && sys.registered == [] && sys.changed == []
    && forall p | 0 <= p < |sys.requests| :: sys.requests[p] == Idle
  }

  predicate Saving(request: Request) {
    request.Persisting?
  }

  /**
   * What the surroundings may guarantee: a cache write takes effect; a restart finds what was stored; no cache
   * write happens while another request has yet to reach storage; storage accepts every write.
   */
  datatype Environment = Environment(cacheKeeps: bool, restores: bool, exclusive: bool, accepts: bool)

  const RELIABLE := Environment(true, true, false, false)

  ghost predicate Allowed(env: Environment, sys: System, step: Step) {
    match step
    case Restart(restored) => env.restores ==> restored
    case Act(p, WriteCache(takesEffect)) =>
      (env.cacheKeeps ==> takesEffect)
      && (env.exclusive ==> forall q | 0 <= q < |sys.requests| && q != p :: !Saving(sys.requests[q]))
    case Act(_, Persist(reaches, _)) => env.accepts ==> reaches
    case _ => true
  }

  /** A run all of whose steps these surroundings allow. */
  ghost predicate RunsIn(env: Environment, start: System, steps: seq<Step>) {
    if steps == [] then true
    else
      var front := steps[..|steps| - 1];
      RunsIn(env, start, front) && Run(start, steps).Some?
      && Allowed(env, Run(start, front).value, steps[|steps| - 1])
  }

  ghost predicate Leads(env: Environment, start: System, sys: System) {
    exists steps :: RunsIn(env, start, steps) && Run(start, steps) == Some(sys)
  }

  /** Reached by requests and restarts where cache writes take effect and restarts restore. */
  ghost predicate Reachable(sys: System) {
    exists start :: Initial(start) && Leads(RELIABLE, start, sys)
  }

  // ---- invariant ----

  predicate InRegistration(request: Request) {
    match request
    case HoldingLock(_, _) => true
    case Writing(purpose, _) => purpose.Registers?
    case Persisting(purpose, _) => purpose.Registers?
    case _ => false
  }

  predicate StoredAny(sys: System) {
    sys.stored.Some? && sys.stored.value != NOBODY
  }

  ghost predicate RequestOk(sys: System, p: nat)
    requires p < |sys.requests|
  {
    var request := sys.requests[p];
    && (InRegistration(request) ==> sys.lock == Some(p))
    && match request
       case Writing(purpose, accounts) =>
         accounts != NOBODY
         && (if purpose.Registers? then Visible(sys) == NOBODY && accounts.Keys == {purpose.email}
             else accounts.Keys == Visible(sys).Keys)
       case Persisting(purpose, accounts) =>
         accounts != NOBODY && accounts.Keys == Visible(sys).Keys
         && (purpose.Registers? ==> sys.registered == [] && accounts.Keys == {purpose.email})
       case _ => true
  }

  ghost predicate Inv(sys: System) {
    && (forall p | 0 <= p < |sys.requests| :: RequestOk(sys, p))
    && (StoredAny(sys) ==> sys.stored.value.Keys == Visible(sys).Keys)
    && |sys.registered| <= 1
    && (sys.registered != [] ==> StoredAny(sys) && sys.stored.value.Keys == {sys.registered[0]})
  }

  lemma RequestUnmoved(sys: System, next: System, p: nat, q: nat, moved: Request)
    requires p < |sys.requests| && q < |sys.requests| && p != q && RequestOk(sys, q)
    requires next.requests == sys.requests[p := moved] && next.cached == sys.cached && next.fallback == sys.fallback
    requires InRegistration(sys.requests[q]) ==> next.lock == sys.lock && next.registered == sys.registered
    ensures RequestOk(next, q)
  {
  }

  lemma BeginKeeps(sys: System, p: nat, action: Action, next: System)
    requires Inv(sys) && (action.BeginRegister? || action.BeginChange? || action.AcquireLock?)
    requires p < |sys.requests| && PerformAction(sys, p, action) == Some(next)
    ensures Inv(next) && Visible(next) == Visible(sys)
  {
    forall q | 0 <= q < |next.requests| ensures RequestOk(next, q) {
      assert RequestOk(sys, q);
      if q != p {
        RequestUnmoved(sys, next, p, q, next.requests[p]);
      }
    }
  }

  lemma LoadKeeps(sys: System, p: nat, next: System)
    requires Inv(sys) && p < |sys.requests| && PerformLoad(sys, p) == Some(next)
    ensures Inv(next) && Visible(next) == Visible(sys)
  {
    assert RequestOk(sys, p);
    forall q | 0 <= q < |next.requests| ensures RequestOk(next, q) {
      assert RequestOk(sys, q);
      if q != p {
        RequestUnmoved(sys, next, p, q, next.requests[p]);
      } else if next.requests[p].Writing? {
        assert sys.requests[p].email in next.requests[p].accounts;
        assert sys.requests[p].Changing? ==> next.requests[p].accounts.Keys == Visible(sys).Keys;
      }
    }
  }

  lemma WriteKeeps(sys: System, p: nat, next: System)
    requires Inv(sys) && p < |sys.requests| && PerformAction(sys, p, WriteCache(true)) == Some(next)
    ensures Inv(next)
    ensures Visible(sys) != NOBODY ==> Visible(next).Keys == Visible(sys).Keys
  {
    assert RequestOk(sys, p);
    assert Visible(next) == sys.requests[p].accounts;
    forall q | 0 <= q < |next.requests| ensures RequestOk(next, q) {
      assert RequestOk(sys, q);
    }
  }

  lemma PersistKeeps(sys: System, p: nat, reaches: bool, succeeds: bool, next: System)
    requires Inv(sys) && p < |sys.requests| && PerformAction(sys, p, Persist(reaches, succeeds)) == Some(next)
    ensures Inv(next) && Visible(next) == Visible(sys)
    ensures StoredAny(sys) ==> StoredAny(next)
  {
    assert RequestOk(sys, p);
    forall q | 0 <= q < |next.requests| ensures RequestOk(next, q) {
      assert RequestOk(sys, q);
      if q != p {
        RequestUnmoved(sys, next, p, q, Idle);
      }
    }
  }

  lemma StepKeeps(env: Environment, sys: System, step: Step)
    requires Inv(sys) && Allowed(env, sys, step) && env.cacheKeeps && env.restores && Perform(sys, step).Some?
    ensures Inv(Perform(sys, step).value)
    ensures Visible(sys) != NOBODY && (step.Restart? ==> StoredAny(sys)) ==>
              Visible(Perform(sys, step).value).Keys == Visible(sys).Keys
    ensures StoredAny(sys) ==> StoredAny(Perform(sys, step).value)
    ensures sys.registered <= Perform(sys, step).value.registered
  {
    var next := Perform(sys, step).value;
    match step {
      case Act(p, Load) => LoadKeeps(sys, p, next);
      case Act(p, WriteCache(_)) => WriteKeeps(sys, p, next);
      case Act(p, Persist(reaches, succeeds)) => PersistKeeps(sys, p, reaches, succeeds, next);
      case Act(p, action) => BeginKeeps(sys, p, action, next);
      case Restart(_) =>
    }
  }

  predicate HasRestart(steps: seq<Step>) {
    exists i | 0 <= i < |steps| :: steps[i].Restart?
  }

  lemma {:induction false} RunKeeps(env: Environment, sys: System, steps: seq<Step>)
    requires Inv(sys) && RunsIn(env, sys, steps) && env.cacheKeeps && env.restores && Run(sys, steps).Some?
    ensures Inv(Run(sys, steps).value)
    ensures Visible(sys) != NOBODY && (HasRestart(steps) ==> StoredAny(sys)) ==>
              Visible(Run(sys, steps).value).Keys == Visible(sys).Keys
    ensures StoredAny(sys) ==> StoredAny(Run(sys, steps).value)
    ensures sys.registered <= Run(sys, steps).value.registered
  {
    if steps != [] {
      var front, last := steps[..|steps| - 1], steps[|steps| - 1];
      RunKeeps(env, sys, front);
      StepKeeps(env, Run(sys, front).value, last);
      assert HasRestart(front) || last.Restart? ==> HasRestart(steps) by {
        if i :| 0 <= i < |front| && front[i].Restart? {
          assert steps[i].Restart?;
        }
      }
    }
  }

  lemma LeadsKeepInv(env: Environment, start: System, sys: System)
    requires Initial(start) && Leads(env, start, sys) && env.cacheKeeps && env.restores
    ensures Inv(sys)
  {
    var steps :| RunsIn(env, start, steps) && Run(start, steps) == Some(sys);
    RunKeeps(env, start, steps);
  }

  lemma ReachableInv(sys: System)
    requires Reachable(sys)
    ensures Inv(sys)
  {
    var start :| Initial(start) && Leads(RELIABLE, start, sys);
    LeadsKeepInv(RELIABLE, start, sys);
  }

  // ---- what registration promises ----

  /** At most one registration ever reports success, and then its account is the stored one. */
  lemma AtMostOneRegistration(sys: System)
    requires Reachable(sys)
    ensures |sys.registered| <= 1
    ensures sys.registered != [] ==> StoredAny(sys) && Visible(sys).Keys == {sys.registered[0]}
  {
    ReachableInv(sys);
  }

  /** Once an account is visible, who has an account never changes; only a restart can lose what was never stored. */
  lemma VisibleAccountsAreFixed(sys: System, steps: seq<Step>)
    requires Reachable(sys) && Visible(sys) != NOBODY && RunsIn(RELIABLE, sys, steps) && Run(sys, steps).Some?
    requires !HasRestart(steps) || StoredAny(sys)
    ensures Visible(Run(sys, steps).value).Keys == Visible(sys).Keys
    ensures Run(sys, steps).value.registered == sys.registered || sys.registered == []
  {
    ReachableInv(sys);
    RunKeeps(RELIABLE, sys, steps);
  }

  // ---- what a password change promises ----

  /** At some point of the run this was the account's password. */
  ghost predicate Was(start: System, steps: seq<Step>, email: string, password: string) {
    exists n :: 0 <= n <= |steps| && WasAt(start, steps, n, email, password)
  }

  ghost predicate WasAt(start: System, steps: seq<Step>, n: nat, email: string, password: string)
    requires n <= |steps|
  {
    && Run(start, steps[..n]).Some?
    && email in Visible(Run(start, steps[..n]).value) && Visible(Run(start, steps[..n]).value)[email] == password
  }

  /** Somebody asked for this change and named the password the account had. */
  ghost predicate Entitled(start: System, steps: seq<Step>, email: string, replacement: string) {
    exists p, current :: Act(p, BeginChange(email, current, replacement)) in steps && Was(start, steps, email, current)
  }

  ghost predicate EntitledRequest(start: System, steps: seq<Step>, p: nat, request: Request) {
    match request
    case Changing(email, current, replacement) => Act(p, BeginChange(email, current, replacement)) in steps
    case Writing(Changes(email, replacement), _) => Entitled(start, steps, email, replacement)
    case Persisting(Changes(email, replacement), _) => Entitled(start, steps, email, replacement)
    case _ => true
  }

  ghost predicate AllEntitled(start: System, steps: seq<Step>, sys: System) {
    && (forall p | 0 <= p < |sys.requests| :: EntitledRequest(start, steps, p, sys.requests[p]))
    && (forall i | 0 <= i < |sys.changed| :: Entitled(start, steps, sys.changed[i].0, sys.changed[i].1))
  }

  lemma WasStays(start: System, steps: seq<Step>, step: Step, email: string, password: string)
    requires Was(start, steps, email, password)
    ensures Was(start, steps + [step], email, password)
  {
    var n :| 0 <= n <= |steps| && WasAt(start, steps, n, email, password);
    assert (steps + [step])[..n] == steps[..n];
    assert WasAt(start, steps + [step], n, email, password);
  }

  lemma EntitledStays(start: System, steps: seq<Step>, step: Step, email: string, replacement: string)
    requires Entitled(start, steps, email, replacement)
    ensures Entitled(start, steps + [step], email, replacement)
  {
    var p, current :| Act(p, BeginChange(email, current, replacement)) in steps && Was(start, steps, email, current);
    assert Act(p, BeginChange(email, current, replacement)) in steps + [step];
    WasStays(start, steps, step, email, current);
  }

  lemma EntitledRequestStays(start: System, steps: seq<Step>, step: Step, p: nat, request: Request)
    requires EntitledRequest(start, steps, p, request)
    ensures EntitledRequest(start, steps + [step], p, request)
  {
    match request
    case Changing(email, current, replacement) =>
      assert Act(p, BeginChange(email, current, replacement)) in steps + [step];
    case Writing(Changes(email, replacement), _) => EntitledStays(start, steps, step, email, replacement);
    case Persisting(Changes(email, replacement), _) => EntitledStays(start, steps, step, email, replacement);
    case _ =>
  }

  lemma LoadEntitles(
    start: System, steps: seq<Step>, sys: System, p: nat, email: string, current: string, replacement: string)
    requires Run(start, steps) == Some(sys) && email in Visible(sys) && Visible(sys)[email] == current
    requires Act(p, BeginChange(email, current, replacement)) in steps
    ensures Entitled(start, steps, email, replacement)
  {
    assert steps[..|steps|] == steps;
    assert WasAt(start, steps, |steps|, email, current);
    assert Was(start, steps, email, current);
  }

  /** The request that moved is entitled to where it is. */
  lemma MovedIsEntitled(start: System, steps: seq<Step>, sys: System, p: nat, action: Action, next: System)
    requires Run(start, steps) == Some(sys) && p < |sys.requests| && PerformAction(sys, p, action) == Some(next)
    requires EntitledRequest(start, steps, p, sys.requests[p])
    ensures |next.requests| == |sys.requests| && EntitledRequest(start, steps + [Act(p, action)], p, next.requests[p])
  {
    var longer := steps + [Act(p, action)];
    assert longer[|steps|] == Act(p, action);
    EntitledRequestStays(start, steps, Act(p, action), p, sys.requests[p]);
    if action.Load? && sys.requests[p].Changing? && next.requests[p].Writing? {
      var email, current, replacement := sys.requests[p].email, sys.requests[p].current, sys.requests[p].replacement;
      LoadEntitles(start, steps, sys, p, email, current, replacement);
      EntitledStays(start, steps, Act(p, action), email, replacement);
    }
  }

  /** Only a request that has saved its change adds one to those that reported success. */
  lemma ChangedGrows(sys: System, step: Step, next: System)
    requires Perform(sys, step) == Some(next)
    ensures next.changed == sys.changed
            || (step.Act? && step.p < |sys.requests| && sys.requests[step.p].Persisting?
                && sys.requests[step.p].purpose.Changes?
                && next.changed == sys.changed + [(sys.requests[step.p].purpose.email,
                                                   sys.requests[step.p].purpose.password)])
  {
  }

  lemma ChangedIsEntitled(start: System, steps: seq<Step>, sys: System, step: Step, next: System, i: nat)
    requires AllEntitled(start, steps, sys) && Perform(sys, step) == Some(next) && i < |next.changed|
    ensures Entitled(start, steps + [step], next.changed[i].0, next.changed[i].1)
  {
    ChangedGrows(sys, step, next);
    if i >= |sys.changed| {
      assert EntitledRequest(start, steps, step.p, sys.requests[step.p]);
    }
    EntitledStays(start, steps, step, next.changed[i].0, next.changed[i].1);
  }

  lemma RequestIsEntitled(start: System, steps: seq<Step>, sys: System, step: Step, next: System, p: nat)
    requires Run(start, steps) == Some(sys) && AllEntitled(start, steps, sys) && Perform(sys, step) == Some(next)
    requires p < |next.requests|
    ensures EntitledRequest(start, steps + [step], p, next.requests[p])
  {
    if step.Act? {
      if step.p == p {
        MovedIsEntitled(start, steps, sys, p, step.action, next);
      } else {
        EntitledRequestStays(start, steps, step, p, sys.requests[p]);
      }
    }
  }

  lemma StepEntitles(start: System, steps: seq<Step>, sys: System, step: Step, next: System)
    requires Run(start, steps) == Some(sys) && AllEntitled(start, steps, sys) && Perform(sys, step) == Some(next)
    ensures AllEntitled(start, steps + [step], next)
  {
    forall p | 0 <= p < |next.requests| ensures EntitledRequest(start, steps + [step], p, next.requests[p]) {
      RequestIsEntitled(start, steps, sys, step, next, p);
    }
    forall i | 0 <= i < |next.changed| ensures Entitled(start, steps + [step], next.changed[i].0, next.changed[i].1) {
      ChangedIsEntitled(start, steps, sys, step, next, i);
    }
  }

  /**
   * Whatever the surroundings and the interleaving, a password change that reports success was asked for by somebody
   * who named the password the account had at some point of the run.
   */
  lemma {:induction false} ChangesAreEntitled(start: System, steps: seq<Step>)
    requires Initial(start) && Run(start, steps).Some?
    ensures AllEntitled(start, steps, Run(start, steps).value)
  {
    if steps != [] {
      var front, last := steps[..|steps| - 1], steps[|steps| - 1];
      ChangesAreEntitled(start, front);
      StepEntitles(start, front, Run(start, front).value, last, Run(start, steps).value);
      assert steps == front + [last];
    }
  }

  // ---- what cache and storage promise each other ----

  ghost predicate AtRest(sys: System) {
    forall p | 0 <= p < |sys.requests| :: !Saving(sys.requests[p])
  }

  /** While a request saves, the cache holds what it will store; otherwise cache and storage agree. */
  ghost predicate SaveInv(sys: System) {
    && (AtRest(sys) ==> sys.cached == sys.stored)
    && (forall p | 0 <= p < |sys.requests| && Saving(sys.requests[p]) :: sys.cached == Some(sys.requests[p].accounts))
    && (forall p, q | 0 <= p < q < |sys.requests| :: !(Saving(sys.requests[p]) && Saving(sys.requests[q])))
  }

  /** A step that neither begins nor ends a save leaves everybody's saving as it was. */
  lemma SavingUnmoved(sys: System, next: System, p: nat, moved: Request)
    requires SaveInv(sys) && p < |sys.requests| && next.requests == sys.requests[p := moved]
    requires next.cached == sys.cached && next.stored == sys.stored && !Saving(moved) && !Saving(sys.requests[p])
    ensures SaveInv(next)
  {
    assert forall q | 0 <= q < |sys.requests| :: Saving(next.requests[q]) <==> Saving(sys.requests[q]);
  }

  lemma SaveBegins(sys: System, p: nat, next: System)
    requires SaveInv(sys) && p < |sys.requests| && PerformAction(sys, p, WriteCache(true)) == Some(next)
    requires forall q | 0 <= q < |sys.requests| && q != p :: !Saving(sys.requests[q])
    ensures SaveInv(next)
  {
    assert Saving(next.requests[p]);
    assert forall q | 0 <= q < |next.requests| && q != p :: next.requests[q] == sys.requests[q];
  }

  lemma SaveEnds(sys: System, p: nat, succeeds: bool, next: System)
    requires SaveInv(sys) && p < |sys.requests| && PerformAction(sys, p, Persist(true, succeeds)) == Some(next)
    ensures SaveInv(next)
  {
    assert Saving(sys.requests[p]);
    forall q | 0 <= q < |next.requests| ensures !Saving(next.requests[q]) {
      assert q != p ==> next.requests[q] == sys.requests[q];
    }
  }

  /** Every guarantee there is. */
  predicate Full(env: Environment) {
    env.cacheKeeps && env.restores && env.exclusive && env.accepts
  }

  lemma SaveStepKeeps(env: Environment, sys: System, step: Step, next: System)
    requires SaveInv(sys) && Perform(sys, step) == Some(next) && Full(env) && Allowed(env, sys, step)
    ensures SaveInv(next)
  {
    match step {
      case Act(p, WriteCache(_)) => SaveBegins(sys, p, next);
      case Act(p, Persist(_, succeeds)) => SaveEnds(sys, p, succeeds, next);
      case Act(p, _) => SavingUnmoved(sys, next, p, next.requests[p]);
      case Restart(_) =>
    }
  }

  lemma {:induction false} SaveRunKeeps(env: Environment, start: System, steps: seq<Step>)
    requires Initial(start) && RunsIn(env, start, steps) && Full(env)
    ensures Run(start, steps).Some? && SaveInv(Run(start, steps).value)
  {
    if steps != [] {
      var front, last := steps[..|steps| - 1], steps[|steps| - 1];
      SaveRunKeeps(env, start, front);
      SaveStepKeeps(env, Run(start, front).value, last, Run(start, steps).value);
    }
  }

  /** In every run, whenever no request is saving, cache and storage hold the same accounts and passwords. */
  ghost predicate AlwaysAgrees(env: Environment) {
    forall start, sys | Initial(start) && Leads(env, start, sys) && AtRest(sys) :: sys.cached == sys.stored
  }

  ghost predicate NeverRegistersTwice(env: Environment) {
    forall start, sys | Initial(start) && Leads(env, start, sys) :: |sys.registered| <= 1
  }

  // ---- runs in which a guarantee is missing ----

  lemma LeadsNowhere(env: Environment, start: System)
    ensures Leads(env, start, start)
  {
    assert RunsIn(env, start, []) && Run(start, []) == Some(start);
  }

  lemma LeadsOn(env: Environment, start: System, sys: System, step: Step, next: System)
    requires Leads(env, start, sys) && Allowed(env, sys, step) && Perform(sys, step) == Some(next)
    ensures Leads(env, start, next)
  {
    var steps :| RunsIn(env, start, steps) && Run(start, steps) == Some(sys);
    var longer := steps + [step];
    assert longer[..|longer| - 1] == steps;
    assert RunsIn(env, start, longer) && Run(start, longer) == Some(next);
  }

  function One(cached: Option<AccountMap>, stored: Option<AccountMap>, lock: Option<nat>, request: Request,
               registered: seq<string>): System
  {
    System(cached, None, stored, lock, [request], registered, [])
  }

  lemma Updates()
    ensures forall a: Request, b: Request :: [a][0 := b] == [b]
    ensures forall a: Request, b: Request, c: Request :: [a, b][0 := c] == [c, b] && [a, b][1 := c] == [a, c]
  {
  }

  const PASSWORD := "password"

  function Account(email: string): AccountMap {
    NOBODY[email := PASSWORD]
  }

  /** One request registering, one step after the other, up to its save. */
  lemma RegisterWrites(
    env: Environment, start: System, cached: Option<AccountMap>, stored: Option<AccountMap>, email: string,
    registered: seq<string>, takesEffect: bool)
    requires Leads(env, start, One(cached, stored, None, Idle, registered)) && cached in {None, Some(NOBODY)}
    requires env.cacheKeeps ==> takesEffect
    ensures Leads(env, start, One(if takesEffect then Some(Account(email)) else cached, stored, Some(0),
                                  Persisting(Registers(email), Account(email)), registered))
  {
    Updates();
    var after := if takesEffect then Some(Account(email)) else cached;
    var s0 := One(cached, stored, None, Idle, registered);
    var s1 := One(cached, stored, None, WaitingForLock(email, PASSWORD), registered);
    LeadsOn(env, start, s0, Act(0, BeginRegister(email, PASSWORD)), s1);
    var s2 := One(cached, stored, Some(0), HoldingLock(email, PASSWORD), registered);
    LeadsOn(env, start, s1, Act(0, AcquireLock), s2);
    var s3 := One(cached, stored, Some(0), Writing(Registers(email), Account(email)), registered);
    LeadsOn(env, start, s2, Act(0, Load), s3);
    var s4 := One(after, stored, Some(0), Persisting(Registers(email), Account(email)), registered);
    LeadsOn(env, start, s3, Act(0, WriteCache(takesEffect)), s4);
  }

  lemma RegistersOnce(
    env: Environment, start: System, cached: Option<AccountMap>, stored: Option<AccountMap>, email: string,
    registered: seq<string>, takesEffect: bool)
    requires Leads(env, start, One(cached, stored, None, Idle, registered)) && cached in {None, Some(NOBODY)}
    requires env.cacheKeeps ==> takesEffect
    ensures Leads(env, start,
                  One(if takesEffect then Some(Account(email)) else cached, Some(Account(email)), None, Idle,
                      registered + [email]))
  {
    RegisterWrites(env, start, cached, stored, email, registered, takesEffect);
    Updates();
    var after := if takesEffect then Some(Account(email)) else cached;
    LeadsOn(env, start, One(after, stored, Some(0), Persisting(Registers(email), Account(email)), registered),
            Act(0, Persist(true, true)), One(after, Some(Account(email)), None, Idle, registered + [email]));
  }

  const EMPTY := One(None, None, None, Idle, [])

  lemma EmptyStarts(env: Environment)
    ensures Initial(EMPTY) && Leads(env, EMPTY, EMPTY)
  {
    LeadsNowhere(env, EMPTY);
  }

  /** When the cache write is lost, even strictly one after the other, two registrations report success. */
  lemma LostCacheWriteRegistersTwice(env: Environment, first: string, second: string)
    requires !env.cacheKeeps
    ensures exists sys :: Leads(env, EMPTY, sys) && sys.registered == [first, second]
    ensures !AlwaysAgrees(env)
  {
    EmptyStarts(env);
    RegistersOnce(env, EMPTY, None, None, first, [], false);
    assert [] + [first] == [first] && [first] + [second] == [first, second];
    var one := One(None, Some(Account(first)), None, Idle, [first]);
    assert Leads(env, EMPTY, one) && AtRest(one) && one.cached != one.stored;
    RegistersOnce(env, EMPTY, None, Some(Account(first)), second, [first], false);
  }

  /** When a restart does not restore the stored accounts, registration is open again. */
  lemma UnrestoredRestartRegistersTwice(env: Environment, first: string, second: string)
    requires !env.restores
    ensures exists sys :: Leads(env, EMPTY, sys) && sys.registered == [first, second]
                          && sys.stored == Some(Account(second))
    ensures !AlwaysAgrees(env)
  {
    EmptyStarts(env);
    RegistersOnce(env, EMPTY, None, None, first, [], true);
    var stored := Some(Account(first));
    var down := One(None, stored, None, Idle, [first]);
    assert [] + [first] == [first];
    assert seq(1, _ => Idle) == [Idle];
    LeadsOn(env, EMPTY, One(stored, stored, None, Idle, [first]), Restart(false), down);
    assert Leads(env, EMPTY, down) && AtRest(down) && down.cached != down.stored;
    RegistersOnce(env, EMPTY, None, stored, second, [first], true);
    assert [first] + [second] == [first, second];
  }

  /** When storage refuses a save, the cache keeps what was never stored. */
  lemma RefusedSaveDisagrees(env: Environment)
    requires !env.accepts
    ensures !AlwaysAgrees(env)
  {
    EmptyStarts(env);
    RegisterWrites(env, EMPTY, None, None, "me@x", [], true);
    Updates();
    var saved := One(Some(Account("me@x")), None, Some(0), Persisting(Registers("me@x"), Account("me@x")), []);
    var refused := One(Some(Account("me@x")), None, None, Idle, []);
    LeadsOn(env, EMPTY, saved, Act(0, Persist(false, false)), refused);
    assert AtRest(refused) && refused.cached != refused.stored;
  }

  /** In any surroundings at most one registration ever succeeds if and only if cache writes and restarts hold. */
  lemma OneRegistrationIff(env: Environment)
    ensures NeverRegistersTwice(env) <==> env.cacheKeeps && env.restores
  {
    if !env.cacheKeeps {
      LostCacheWriteRegistersTwice(env, "a@x", "b@x");
    } else if !env.restores {
      UnrestoredRestartRegistersTwice(env, "a@x", "b@x");
    } else {
      forall start, sys | Initial(start) && Leads(env, start, sys) ensures |sys.registered| <= 1 {
        LeadsKeepInv(env, start, sys);
      }
    }
  }

  /**
   * Cache and storage agree whenever no request is saving, in every run, if and only if cache writes take
   * effect, restarts restore, saves exclude each other and storage accepts them. The lock excludes the saves
   * of registrations only.
   */
  lemma AgreeAtRestIff(env: Environment)
    ensures AlwaysAgrees(env) <==> Full(env)
  {
    if !env.cacheKeeps {
      LostCacheWriteRegistersTwice(env, "a@x", "b@x");
    } else if !env.restores {
      UnrestoredRestartRegistersTwice(env, "a@x", "b@x");
    } else if !env.accepts {
      RefusedSaveDisagrees(env);
    } else if !env.exclusive {
      PasswordChangesMayDisagree(env);
    } else {
      forall start, sys | Initial(start) && Leads(env, start, sys) && AtRest(sys) ensures sys.cached == sys.stored {
        var steps :| RunsIn(env, start, steps) && Run(start, steps) == Some(sys);
        SaveRunKeeps(env, start, steps);
      }
    }
  }

  function Racing(cached: string, stored: string, a: Request, b: Request, changed: seq<(string, string)>): System {
    System(Some(map["me@x" := cached]), None, Some(map["me@x" := stored]), None, [a, b], [], changed)
  }

  const FIRST := Persisting(Changes("me@x", "first"), ONE)
  const SECOND := Persisting(Changes("me@x", "second"), TWO)

  const ONE: AccountMap := map["me@x" := "first"]
  const TWO: AccountMap := map["me@x" := "second"]

  lemma BothBegin(env: Environment)
    ensures Leads(env, Racing("old", "old", Idle, Idle, []),
                  Racing("old", "old", Changing("me@x", "old", "first"), Changing("me@x", "old", "second"), []))
  {
    var start := Racing("old", "old", Idle, Idle, []);
    LeadsNowhere(env, start);
    var s1 := Racing("old", "old", Changing("me@x", "old", "first"), Idle, []);
    assert start.requests[0 := Changing("me@x", "old", "first")] == s1.requests;
    LeadsOn(env, start, start, Act(0, BeginChange("me@x", "old", "first")), s1);
    var s2 := Racing("old", "old", Changing("me@x", "old", "first"), Changing("me@x", "old", "second"), []);
    assert s1.requests[1 := Changing("me@x", "old", "second")] == s2.requests;
    LeadsOn(env, start, s1, Act(1, BeginChange("me@x", "old", "second")), s2);
  }

  lemma BothLoad(env: Environment)
    ensures Leads(env, Racing("old", "old", Idle, Idle, []),
                  Racing("old", "old", Writing(Changes("me@x", "first"), ONE),
                         Writing(Changes("me@x", "second"), TWO), []))
  {
    BothBegin(env);
    var start := Racing("old", "old", Idle, Idle, []);
    var s2 := Racing("old", "old", Changing("me@x", "old", "first"), Changing("me@x", "old", "second"), []);
    assert map["me@x" := "old"]["me@x" := "first"] == ONE && map["me@x" := "old"]["me@x" := "second"] == TWO;
    var s3 := Racing("old", "old", Writing(Changes("me@x", "first"), ONE), Changing("me@x", "old", "second"), []);
    assert s2.requests[0 := s3.requests[0]] == s3.requests;
    LeadsOn(env, start, s2, Act(0, Load), s3);
    var s4 := Racing("old", "old", Writing(Changes("me@x", "first"), ONE), Writing(Changes("me@x", "second"), TWO), []);
    assert s3.requests[1 := s4.requests[1]] == s4.requests;
    LeadsOn(env, start, s3, Act(1, Load), s4);
  }

  lemma BothWriteTheCache(env: Environment)
    requires !env.exclusive
    ensures Leads(env, Racing("old", "old", Idle, Idle, []), Racing("second", "old", FIRST, SECOND, []))
  {
    BothLoad(env);
    var start := Racing("old", "old", Idle, Idle, []);
    var s4 := Racing("old", "old", Writing(Changes("me@x", "first"), ONE), Writing(Changes("me@x", "second"), TWO), []);
    var s5 := Racing("first", "old", FIRST, Writing(Changes("me@x", "second"), TWO), []);
    assert s4.requests[0 := FIRST] == s5.requests;
    LeadsOn(env, start, s4, Act(0, WriteCache(true)), s5);
    var s6 := Racing("second", "old", FIRST, SECOND, []);
    assert s5.requests[1 := SECOND] == s6.requests;
    LeadsOn(env, start, s5, Act(1, WriteCache(true)), s6);
  }

  /** Two password changes that both report success can leave one password in the cache and the other in storage. */
  lemma PasswordChangesMayDisagree(env: Environment)
    requires !env.exclusive
    ensures exists start, sys :: Initial(start) && Leads(env, start, sys) && AtRest(sys) && |sys.changed| == 2
                                 && sys.cached == Some(TWO) && sys.stored == Some(ONE) && ONE != TWO
  {
    BothWriteTheCache(env);
    var start := Racing("old", "old", Idle, Idle, []);
    var one, two := ("me@x", "first"), ("me@x", "second");
    var s1 := Racing("second", "second", FIRST, Idle, [two]);
    assert [] + [two] == [two] && [two] + [one] == [two, one];
    assert [FIRST, SECOND][1 := Idle] == [FIRST, Idle] && [FIRST, Idle][0 := Idle] == [Idle, Idle];
    LeadsOn(env, start, Racing("second", "old", FIRST, SECOND, []), Act(1, Persist(true, true)), s1);
    var s2 := Racing("second", "first", Idle, Idle, [two, one]);
    LeadsOn(env, start, s1, Act(0, Persist(true, true)), s2);
    assert ONE["me@x"] != TWO["me@x"];
    assert Initial(start) && AtRest(s2) && |s2.changed| == 2;
  }

  // ---- one request at a time ----

  /** The state the handlers share, and each handler run to its end with nothing in between. */
  class AuthState {
    var cached: Option<AccountMap>
    var fallback: Option<AccountMap>
    var stored: Option<AccountMap>

    function Contents(): System
      reads this
    {
      System(cached, fallback, stored, None, [Idle], [], [])
    }

    method LoadAccounts() returns (accounts: AccountMap)
      ensures accounts == Visible(Contents())
    {
      if cached.Some? {
        accounts := cached.value;
      } else if fallback.Some? {
        accounts := fallback.value;
      } else {
        accounts := NOBODY;
      }
    }

    /** The cache is written first; `reaches` says whether storage accepted the write. */
    method SaveAccounts(accounts: AccountMap, reaches: bool) returns (ok: bool)
      modifies this
      ensures ok == reaches && cached == Some(accounts) && fallback == old(fallback)
      ensures stored == if reaches then Some(accounts) else old(stored)
    {
      cached := Some(accounts);
      if reaches {
        stored := Some(accounts);
      }
      ok := reaches;
    }

    /** Even a registration that fails to persist leaves its account visible, so it closes registration. */
    method Register(email: string, password: string, reaches: bool) returns (ok: bool)
      modifies this
      ensures ok <==> old(Visible(Contents())) == NOBODY && reaches
      ensures Visible(Contents()) == if old(Visible(Contents())) == NOBODY then NOBODY[email := password]
                                     else old(Visible(Contents()))
      ensures ok ==> stored == Some(NOBODY[email := password])
      ensures !ok ==> stored == old(stored)
    {
      var accounts := LoadAccounts();
      if accounts != NOBODY {
        return false;
      }
      accounts := accounts[email := password];
      ok := SaveAccounts(accounts, reaches);
    }

    method ChangePassword(email: string, current: string, replacement: string, reaches: bool) returns (ok: bool)
      modifies this
      ensures var before := old(Visible(Contents()));
              var allowed := email in before && before[email] == current;
              && ok == (allowed && reaches)
              && Visible(Contents()) == (if allowed then before[email := replacement] else before)
              && stored == if ok then Some(before[email := replacement]) else old(stored)
    {
      var accounts := LoadAccounts();
      if email !in accounts || accounts[email] != current {
        return false;
      }
      accounts := accounts[email := replacement];
      ok := SaveAccounts(accounts, reaches);
    }
  }
}
