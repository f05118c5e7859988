/**
 * The deployer's step-function state machine: the fixed transition table of
 * states, their `Next`, `Catch` and `Retry` clauses and the `Healthy?`
 * choice, and the executions it allows. The engine that runs the table is
 * an external library; an execution here is the sequence of configurations
 * (state and retries used) that a sequence of task outcomes produces.
 */
module Machine {
  import opened Wrappers

  datatype StateName =
    | Validate
    | Lock
    | ValidateResources
    | Deploy
    | WaitForDeploy
    | WaitForHealthy
    | CheckHealthy
    | HealthyChoice   // "Healthy?"
    | CleanUpSuccess
    | CleanUpFailure
    | ReleaseLockFailure
    | FailureClean
    | FailureDirty
    | Success

  /** The error types that `ErrorEquals` lists name. */
  datatype ErrorName =
    | BadReleaseError
    | PanicError
    | UnmarshalError
    | LockExistsError
    | LockError
    | DeployError
    | HealthError
    | HaltError
    | CleanUpError

  datatype Kind = TaskFn | Wait | Choice | FailState | Succeed

  const StartAt := Validate

  /** The `Type` of each state. */
  function KindOf(s: StateName): Kind
  {
    match s
    case WaitForDeploy | WaitForHealthy => Wait
    case HealthyChoice => Choice
    case FailureClean | FailureDirty => FailState
    case Success => Succeed
    case _ => TaskFn
  }

  /** An execution ends in a `Fail` or `Succeed` state. */
  predicate Terminal(s: StateName)
  {
    KindOf(s) == FailState || KindOf(s) == Succeed
  }

  /** The `Next` field of every task and wait state. */
  function Next(s: StateName): (r: StateName)
    requires KindOf(s) == TaskFn || KindOf(s) == Wait
    ensures r != s
  {
    match s
    case Validate => Lock
    case Lock => ValidateResources
    case ValidateResources => Deploy
    case Deploy => WaitForDeploy
    case WaitForDeploy => WaitForHealthy
    case WaitForHealthy => CheckHealthy
    case CheckHealthy => HealthyChoice
    case CleanUpSuccess => Success
    case CleanUpFailure => ReleaseLockFailure
    case ReleaseLockFailure => FailureClean
  }

  /** The `Seconds` of the two wait states. */
  function WaitSeconds(s: StateName): (r: nat)
    requires KindOf(s) == Wait
    ensures r == if s == WaitForDeploy then 30 else 15
  {
    if s == WaitForDeploy then 30 else 15
  }

  /** The target of the first `Catch` clause whose `ErrorEquals` names the error, if any. */
  function Catch(s: StateName, e: ErrorName): (r: Option<StateName>)
    ensures r.Some? ==> KindOf(s) == TaskFn && r.value != s
  {
    match s
    case Validate =>
      if e in {BadReleaseError, PanicError, UnmarshalError} then Some(FailureClean) else None
    case Lock =>
      if e == LockExistsError then Some(FailureClean)
      else if e == LockError then Some(ReleaseLockFailure)
      else if e == PanicError then Some(FailureDirty)
      else None
    case ValidateResources =>
      if e in {BadReleaseError, PanicError} then Some(ReleaseLockFailure) else None
    case Deploy =>
      if e in {DeployError, PanicError} then Some(CleanUpFailure)
      else if e in {HaltError, BadReleaseError} then Some(ReleaseLockFailure)
      else None
    case CheckHealthy =>
      if e in {HaltError, HealthError, PanicError} then Some(CleanUpFailure) else None
    case CleanUpSuccess =>
      if e in {CleanUpError, LockError, PanicError} then Some(FailureDirty) else None
    case CleanUpFailure =>
      if e in {CleanUpError, PanicError} then Some(FailureDirty) else None
    case ReleaseLockFailure =>
      if e in {LockError, PanicError} then Some(FailureDirty) else None
    case _ => None
  }

  /** The `MaxAttempts` of the `Retry` clause naming the error, or 0 without one. */
  function MaxAttempts(s: StateName, e: ErrorName): (r: nat)
    ensures r <= 3
    ensures r > 0 ==> Catch(s, e).Some?
  {
    match s
    case CheckHealthy => if e in {HealthError, PanicError} then 3 else 0
    case CleanUpSuccess => if e in {CleanUpError, LockError, PanicError} then 3 else 0
    case CleanUpFailure => if e in {CleanUpError, PanicError} then 3 else 0
    case ReleaseLockFailure => if e in {LockError, PanicError} then 3 else 0
    case _ => 0
  }

  /**
   * The `Healthy?` choice on `$.healthy`: true goes on to CleanUpSuccess,
   * false waits and checks again, and a missing value takes the default.
   */
  function Choose(healthy: Option<bool>): (r: StateName)
    ensures healthy == Some(true) <==> r == CleanUpSuccess
    ensures healthy == Some(false) <==> r == WaitForHealthy
    ensures healthy.None? <==> r == CleanUpFailure
  {
    match healthy
    case Some(true) => CleanUpSuccess
    case Some(false) => WaitForHealthy
    case None => CleanUpFailure
  }

  /**
   * Where an execution is: in a state with the retries of that state used so
   * far, or stopped by an error no `Catch` clause names.
   */
  datatype Config = At(state: StateName, retries: nat) | Aborted(error: ErrorName)

  /** What happens in a state: it completes (with the output's `$.healthy`) or its task raises an error. */
  datatype Event = Completed(healthy: Option<bool>) | Raised(error: ErrorName)

  const Start := At(StartAt, 0)

  /** The event can happen now: the execution is in a non-final state, and only tasks raise errors. */
  predicate Enabled(c: Config, ev: Event)
  {
    c.At? && !Terminal(c.state) && (ev.Raised? ==> KindOf(c.state) == TaskFn)
  }

  /** One transition of the table. */
  function Step(c: Config, ev: Event): (r: Config)
    requires Enabled(c, ev)
    ensures r.At? ==> r.retries <= 3
    ensures r.At? && r.state == c.state ==> ev.Raised? && r.retries == c.retries + 1
    ensures r.At? && r.state != c.state ==> r.retries == 0
    ensures r.Aborted? <==> ev.Raised? && c.retries >= MaxAttempts(c.state, ev.error) && Catch(c.state, ev.error).None?
    ensures r.Aborted? ==> r.error == ev.error
  {
    match ev
    case Completed(healthy) =>
      if KindOf(c.state) == Choice then At(Choose(healthy), 0) else At(Next(c.state), 0)
    case Raised(e) =>
      if c.retries < MaxAttempts(c.state, e) then At(c.state, c.retries + 1)
      else match Catch(c.state, e)
        case Some(t) => At(t, 0)
        case None => Aborted(e)
  }

  /**
   * The configurations an execution passes through: it takes the events in
   * order and stops at the first one that cannot happen.
   */
  function Run(c: Config, evs: seq<Event>): (t: seq<Config>)
    ensures 1 <= |t| <= |evs| + 1 && t[0] == c
    ensures forall i :: 0 <= i < |t| - 1 ==> Enabled(t[i], evs[i]) && t[i + 1] == Step(t[i], evs[i])
    ensures |t| <= |evs| ==> !Enabled(t[|t| - 1], evs[|t| - 1])
    decreases |evs|
  {
    if evs == [] || !Enabled(c, evs[0]) then [c]
    else [c] + Run(Step(c, evs[0]), evs[1..])
  }

  /** The states an execution path lists. */
  function Path(t: seq<Config>): (p: seq<StateName>)
    ensures |p| <= |t|
    ensures forall i :: 0 <= i < |p| ==> t[i].At? && p[i] == t[i].state
    ensures |p| < |t| ==> t[|p|].Aborted?
  {
    if t == [] || t[0].Aborted? then [] else [t[0].state] + Path(t[1..])
  }

  /** `Completed(None)` repeated: tasks that succeed and waits that elapse. */
  function Done(n: nat): (r: seq<Event>)
    ensures |r| == n && forall i :: 0 <= i < n ==> r[i] == Completed(None)
  {
    seq(n, _ => Completed(None))
  }

  /** Nothing that starts at Validate ever needs a retry to be caught or let go. */
  lemma ValidateRoutes(n: nat, e: ErrorName)
    ensures Step(At(Validate, n), Completed(None)) == At(Lock, 0)
    ensures e in {BadReleaseError, PanicError, UnmarshalError} ==> Step(At(Validate, n), Raised(e)) == At(FailureClean, 0)
    ensures e !in {BadReleaseError, PanicError, UnmarshalError} ==> Step(At(Validate, n), Raised(e)) == Aborted(e)
  {
  }

  /**
   * FailureClean is entered in three ways only: from Validate on an error,
   * from Lock when the lock already exists, and from ReleaseLockFailure once
   * the lock is released.
   */
  lemma FailureCleanEntries(c: Config, ev: Event)
    requires Enabled(c, ev) && Step(c, ev) == At(FailureClean, 0)
    ensures (c.state == Validate && ev.Raised?)
         || (c.state == Lock && ev == Raised(LockExistsError))
         || (c.state == ReleaseLockFailure && ev.Completed?)
  {
  }

  /** The states in which the deployer may hold the release lock: after Lock and before an end. */
  predicate LockHeld(s: StateName)
  {
    s !in {Validate, Lock} && !Terminal(s)
  }

  /**
   * From a state holding the lock the machine never goes back to Validate or
   * Lock, and it reaches FailureClean only from ReleaseLockFailure.
   */
  lemma StepKeepsLock(c: Config, ev: Event)
    requires Enabled(c, ev) && LockHeld(c.state) && Step(c, ev).At?
    ensures var s := Step(c, ev).state;
      LockHeld(s) || s == Success || s == FailureDirty || (s == FailureClean && c.state == ReleaseLockFailure)
  {
  }

  /**
   * Every failure after Lock reaches FailureClean only through
   * ReleaseLockFailure: once an execution has been in a lock-holding state,
   * the configuration just before FailureClean is ReleaseLockFailure.
   */
  lemma {:induction false} CleanFailureReleasesLock(c: Config, evs: seq<Event>, j: nat, i: nat)
    requires var t := Run(c, evs);
      j < i < |t| && t[j].At? && LockHeld(t[j].state) && t[i].At? && t[i].state == FailureClean
    ensures Run(c, evs)[i - 1].At? && Run(c, evs)[i - 1].state == ReleaseLockFailure
    decreases i - j
  {
    var t := Run(c, evs);
    assert t[j + 1] == Step(t[j], evs[j]);
    if j + 1 < i {
      assert Enabled(t[j + 1], evs[j + 1]);
    }
    StepKeepsLock(t[j], evs[j]);
    if j + 1 < i {
      assert Enabled(t[j + 1], evs[j + 1]);
      CleanFailureReleasesLock(c, evs, j + 1, i);
    }
  }

  /**
   * A state is attempted at most four times in a row (the first attempt and
   * three retries): within a stretch of the same state, each configuration
   * has used one more retry than the one before.
   */
  lemma {:induction false} ConsecutiveAttempts(c: Config, evs: seq<Event>, i: nat, k: nat)
    requires c.At? ==> c.retries <= 3
    requires var t := Run(c, evs);
      i + k < |t| && t[i].At? && forall m :: i <= m <= i + k ==> t[m].At? && t[m].state == t[i].state
    ensures Run(c, evs)[i + k].retries == Run(c, evs)[i].retries + k
    ensures Run(c, evs)[i].retries + k <= 3
    decreases k
  {
    var t := Run(c, evs);
    if k > 0 {
      ConsecutiveAttempts(c, evs, i, k - 1);
      assert t[i + k] == Step(t[i + k - 1], evs[i + k - 1]);
    } else if i > 0 {
      assert t[i] == Step(t[i - 1], evs[i - 1]);
    }
  }

  /** One step of a run, and the state it adds to the path. */
  lemma PathStep(c: Config, evs: seq<Event>)
    requires |evs| > 0 && Enabled(c, evs[0])
    ensures Path(Run(c, evs)) == [c.state] + Path(Run(Step(c, evs[0]), evs[1..]))
  {
    assert Run(c, evs) == [c] + Run(Step(c, evs[0]), evs[1..]);
    assert ([c] + Run(Step(c, evs[0]), evs[1..]))[1..] == Run(Step(c, evs[0]), evs[1..]);
  }

  /** The event `e` can happen in a fresh `a` and leads to a fresh `b`. */
  predicate Moves(a: StateName, e: Event, b: StateName)
  {
    Enabled(At(a, 0), e) && Step(At(a, 0), e) == At(b, 0)
  }

  /**
   * The path `p` is what the events produce one fresh state at a time
   * (no retries): each event can happen in its state and leads to the next.
   */
  predicate Follows(p: seq<StateName>, evs: seq<Event>)
  {
    |p| == |evs| + 1 && forall i :: 0 <= i < |evs| ==> Moves(p[i], evs[i], p[i + 1])
  }

  /** The events after the first follow the path after the first state. */
  lemma FollowsTail(p: seq<StateName>, evs: seq<Event>)
    requires Follows(p, evs) && evs != []
    ensures Follows(p[1..], evs[1..])
  {
    forall i | 0 <= i < |evs[1..]| ensures Moves(p[1..][i], evs[1..][i], p[1..][i + 1]) {
      assert p[1..][i] == p[i + 1] && p[1..][i + 1] == p[i + 2] && evs[1..][i] == evs[i + 1];
    }
  }

  /** A path that the events follow to a final state is the path of the run. */
  lemma {:induction false} FollowedPath(p: seq<StateName>, evs: seq<Event>)
    requires Follows(p, evs) && Terminal(p[|p| - 1])
    ensures Path(Run(At(p[0], 0), evs)) == p
    decreases |evs|
  {
    if evs == [] {
      assert Run(At(p[0], 0), evs) == [At(p[0], 0)];
    } else {
      FollowsTail(p, evs);
      FollowedPath(p[1..], evs[1..]);
      assert Moves(p[0], evs[0], p[1]);
      PathStep(At(p[0], 0), evs);
      assert p == [p[0]] + p[1..];
    }
  }

  /**
   * The successful execution: every task succeeds and the release is
   * healthy at the first check.
   */
  lemma SuccessfulPath()
    ensures var e, h := Completed(None), Completed(Some(true));
      Path(Run(Start, [e, e, e, e, e, e, e, h, e]))
      == [Validate, Lock, ValidateResources, Deploy, WaitForDeploy, WaitForHealthy, CheckHealthy,
          HealthyChoice, CleanUpSuccess, Success]
  {
    var e, h := Completed(None), Completed(Some(true));
    var p := [Validate, Lock, ValidateResources, Deploy, WaitForDeploy, WaitForHealthy, CheckHealthy,
              HealthyChoice, CleanUpSuccess, Success];
    var evs := [e, e, e, e, e, e, e, h, e];
    FollowedPath(p, evs);
  }

  /** Input that does not parse ends the execution cleanly at Validate. */
  lemma BadInputPath()
    ensures Path(Run(Start, [Raised(UnmarshalError)])) == [Validate, FailureClean]
    ensures Path(Run(Start, [Raised(BadReleaseError)])) == [Validate, FailureClean]
  {
    FollowedPath([Validate, FailureClean], [Raised(UnmarshalError)]);
    FollowedPath([Validate, FailureClean], [Raised(BadReleaseError)]);
  }

  /** A lock that already exists ends the execution cleanly right after Lock. */
  lemma LockExistsPath()
    ensures Path(Run(Start, [Completed(None), Raised(LockExistsError)])) == [Validate, Lock, FailureClean]
  {
    FollowedPath([Validate, Lock, FailureClean], [Completed(None), Raised(LockExistsError)]);
  }

  /** A release that has timed out halts at Deploy and releases its lock. */
  lemma DeployHaltPath()
    ensures var e := Completed(None);
      Path(Run(Start, [e, e, e, Raised(HaltError), e]))
      == [Validate, Lock, ValidateResources, Deploy, ReleaseLockFailure, FailureClean]
  {
    var e := Completed(None);
    FollowedPath([Validate, Lock, ValidateResources, Deploy, ReleaseLockFailure, FailureClean],
                 [e, e, e, Raised(HaltError), e]);
  }

  /**
   * A halt during health checks is not retried: it goes straight to
   * CleanUpFailure, then ReleaseLockFailure and FailureClean.
   */
  lemma CheckHealthyHaltPath()
    ensures var e := Completed(None);
      Path(Run(Start, [e, e, e, e, e, e, Raised(HaltError), e, e]))
      == [Validate, Lock, ValidateResources, Deploy, WaitForDeploy, WaitForHealthy, CheckHealthy,
          CleanUpFailure, ReleaseLockFailure, FailureClean]
  {
    var e := Completed(None);
    FollowedPath([Validate, Lock, ValidateResources, Deploy, WaitForDeploy, WaitForHealthy, CheckHealthy,
                  CleanUpFailure, ReleaseLockFailure, FailureClean],
                 [e, e, e, e, e, e, Raised(HaltError), e, e]);
  }

  /** A health error is retried three times and then caught by CleanUpFailure. */
  lemma HealthErrorRetried()
    ensures var x := Raised(HealthError);
      Run(At(CheckHealthy, 0), [x, x, x, x])
      == [At(CheckHealthy, 0), At(CheckHealthy, 1), At(CheckHealthy, 2), At(CheckHealthy, 3), At(CleanUpFailure, 0)]
  {
    var x := Raised(HealthError);
    assert Run(At(CleanUpFailure, 0), []) == [At(CleanUpFailure, 0)];
    assert Run(At(CheckHealthy, 3), [x]) == [At(CheckHealthy, 3), At(CleanUpFailure, 0)];
    assert Run(At(CheckHealthy, 2), [x, x]) == [At(CheckHealthy, 2)] + Run(At(CheckHealthy, 3), [x]);
    assert Run(At(CheckHealthy, 1), [x, x, x]) == [At(CheckHealthy, 1)] + Run(At(CheckHealthy, 2), [x, x]);
  }
}
