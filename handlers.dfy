/**
 * The deployer's task handlers: each runs release operations in a fixed
 * order and wraps the first failure in the error type that the state
 * machine's `Retry` and `Catch` clauses match on. The release operations
 * are inputs here (their outcomes), except the teardowns, which the
 * cleanup handlers run on the release itself.
 */
module Handlers {
  import opened Wrappers
  import opened Text
  import Machine
  import ReleaseHalt
  import Services
  import Releases
  import ReleaseResources
  import Asg

  /** The error a handler wraps, as the release operation reported it. */
  datatype Cause =
    | Invalid(releaseError: Releases.ReleaseError)
    | LockNotGrabbed(lockError: Option<string>)
    | LockFailed(message: string)
    | FetchFailed(fetchError: ReleaseResources.FetchError)
    | ResourcesInvalid(validateError: ReleaseResources.ValidateError)
    | UserDataFailed(message: string)
    | Halted(haltError: ReleaseHalt.HaltError)
    | CreateFailed(message: string)
    | Unhealthy(healthError: Services.HealthError)
    | TearDownFailed(tearDownError: ReleaseResources.TearDownError)

  /** An `ErrorWrapper` inside one of the handler error types. */
  datatype DeployerError = DeployerError(kind: Machine.ErrorName, cause: Cause)

  const ErrorPrefix := "ERROR: "

  /** The message Lock wraps when the lock was not grabbed and no error was reported. */
  const LockExistsMessage := "Lock Already Exists"

  /** `ErrorWrapper.Error`: the wrapped error's message behind "ERROR: ". */
  function WrapperMessage(inner: string): (r: string)
    ensures |r| == |ErrorPrefix| + |inner|
    ensures HasPrefix(r, ErrorPrefix)
  {
    ErrorPrefix + inner
  }

  /** The wrapped message can be read back from the wrapper's message. */
  lemma WrapperMessageUnwraps(inner: string)
    ensures WrapperMessage(inner)[|ErrorPrefix|..] == inner
  {
  }

  /** Two wrappers print the same message only when they wrap the same one. */
  lemma WrapperMessageInjective(a: string, b: string)
    requires WrapperMessage(a) == WrapperMessage(b)
    ensures a == b
  {
    WrapperMessageUnwraps(a);
    WrapperMessageUnwraps(b);
  }

  /** The error types each task's handler raises. */
  function Raises(s: Machine.StateName): set<Machine.ErrorName>
  {
    match s
    case Validate => {Machine.BadReleaseError}
    case Lock => {Machine.LockExistsError, Machine.LockError}
    case ValidateResources => {Machine.BadReleaseError}
    case Deploy => {Machine.BadReleaseError, Machine.HaltError, Machine.DeployError}
    case CheckHealthy => {Machine.HaltError, Machine.HealthError}
    case CleanUpSuccess => {Machine.CleanUpError, Machine.LockError}
    case CleanUpFailure => {Machine.CleanUpError}
    case ReleaseLockFailure => {Machine.LockError}
    case _ => {}
  }

  /**
   * The errors the step-function engine raises around a handler: a panic in
   * any handler, and input that does not unmarshal into a release, which
   * only the first state receives from outside.
   */
  function EngineRaises(s: Machine.StateName): set<Machine.ErrorName>
  {
    if s == Machine.Validate then {Machine.PanicError, Machine.UnmarshalError} else {Machine.PanicError}
  }

  /** Validate: a release that fails validation is a bad release, which ends the execution cleanly. */
  function Validate(check: Outcome<Releases.ReleaseError>): (r: Outcome<DeployerError>)
    ensures r == Pass <==> check == Pass
    ensures r.Fail? ==> r.error == DeployerError(Machine.BadReleaseError, Invalid(check.error))
    ensures r.Fail? ==> r.error.kind in Raises(Machine.Validate)
    ensures r.Fail? ==> Machine.Catch(Machine.Validate, r.error.kind) == Some(Machine.FailureClean)
  {
    match check
    case Pass => Pass
    case Fail(e) => Fail(DeployerError(Machine.BadReleaseError, Invalid(e)))
  }

  /**
   * Lock, given whether the lock was grabbed and the error of grabbing it:
   * a lock not grabbed is an existing lock whether or not an error came with
   * it, and ends the execution cleanly; a lock grabbed with an error must be
   * released.
   */
  function Lock(grabbed: bool, err: Option<string>): (r: Outcome<DeployerError>)
    ensures r == Pass <==> grabbed && err.None?
    ensures r.Fail? && r.error.kind == Machine.LockExistsError <==> !grabbed
    ensures r.Fail? && r.error.kind == Machine.LockError <==> grabbed && err.Some?
    ensures !grabbed ==> r.Fail? && r.error.cause == LockNotGrabbed(err)
    ensures r.Fail? ==> r.error.kind in Raises(Machine.Lock)
    ensures r.Fail? ==> Machine.Catch(Machine.Lock, r.error.kind)
                        == Some(if grabbed then Machine.ReleaseLockFailure else Machine.FailureClean)
  {
    if !grabbed then Fail(DeployerError(Machine.LockExistsError, LockNotGrabbed(err)))
    else if err.Some? then Fail(DeployerError(Machine.LockError, LockFailed(err.value)))
    else Pass
  }

  /** The message of a not-grabbed lock's error: the reported error's, or "Lock Already Exists". */
  function LockNotGrabbedMessage(err: Option<string>): (r: string)
    ensures err.None? ==> r == LockExistsMessage
    ensures err.Some? ==> r == err.value
  {
    err.GetOr(LockExistsMessage)
  }

  /**
   * ValidateResources, given the outcome of fetching the resources and of
   * validating them: either failure is a bad release, fetching first, and
   * the lock is then released.
   */
  function ValidateResources(fetch: Outcome<ReleaseResources.FetchError>, check: Outcome<ReleaseResources.ValidateError>)
    : (r: Outcome<DeployerError>)
    ensures r == Pass <==> fetch == Pass && check == Pass
    ensures fetch.Fail? ==> r == Fail(DeployerError(Machine.BadReleaseError, FetchFailed(fetch.error)))
    ensures fetch == Pass && check.Fail? ==> r == Fail(DeployerError(Machine.BadReleaseError, ResourcesInvalid(check.error)))
    ensures r.Fail? ==> r.error.kind in Raises(Machine.ValidateResources)
    ensures r.Fail? ==> Machine.Catch(Machine.ValidateResources, r.error.kind) == Some(Machine.ReleaseLockFailure)
  {
    if fetch.Fail? then Fail(DeployerError(Machine.BadReleaseError, FetchFailed(fetch.error)))
    else if check.Fail? then Fail(DeployerError(Machine.BadReleaseError, ResourcesInvalid(check.error)))
    else Pass
  }

  /**
   * Deploy, given the outcomes of loading the user data, of the halt check
   * and of creating the resources, in that order. Failures before anything
   * is created release the lock; a failure while creating cleans up first.
   */
  function Deploy(userData: Outcome<string>, halt: Outcome<ReleaseHalt.HaltError>, create: Outcome<string>)
    : (r: Outcome<DeployerError>)
    ensures r == Pass <==> userData == Pass && halt == Pass && create == Pass
    ensures userData.Fail? ==> r == Fail(DeployerError(Machine.BadReleaseError, UserDataFailed(userData.error)))
    ensures userData == Pass && halt.Fail? ==> r == Fail(DeployerError(Machine.HaltError, Halted(halt.error)))
    ensures userData == Pass && halt == Pass && create.Fail? ==> r == Fail(DeployerError(Machine.DeployError, CreateFailed(create.error)))
    ensures r.Fail? ==> r.error.kind in Raises(Machine.Deploy)
    ensures r.Fail? ==> Machine.Catch(Machine.Deploy, r.error.kind)
                        == Some(if r.error.kind == Machine.DeployError then Machine.CleanUpFailure else Machine.ReleaseLockFailure)
  {
    if userData.Fail? then Fail(DeployerError(Machine.BadReleaseError, UserDataFailed(userData.error)))
    else if halt.Fail? then Fail(DeployerError(Machine.HaltError, Halted(halt.error)))
    else if create.Fail? then Fail(DeployerError(Machine.DeployError, CreateFailed(create.error)))
    else Pass
  }

  /** The halt check runs before any resource is created: once it fails, what creating would do does not matter. */
  lemma HaltBeforeCreate(userData: Outcome<string>, halt: Outcome<ReleaseHalt.HaltError>, c1: Outcome<string>, c2: Outcome<string>)
    requires halt.Fail?
    ensures Deploy(userData, halt, c1) == Deploy(userData, halt, c2)
    ensures Deploy(userData, halt, c1).error.kind != Machine.DeployError
  {
  }

  /**
   * A release that is past its timeout halts at Deploy, whatever the halt
   * file says, and goes on to release its lock and fail cleanly.
   */
  lemma TimedOutDeployReleasesLock(now: int, createdAt: int, timeout: int, lookup: ReleaseHalt.HaltLookup, create: Outcome<string>)
    requires now > createdAt + timeout
    ensures var r := Deploy(Pass, ReleaseHalt.IsHalt(now, createdAt, timeout, lookup), create);
      r == Fail(DeployerError(Machine.HaltError, Halted(ReleaseHalt.TimedOut)))
      && Machine.Step(Machine.At(Machine.Deploy, 0), Machine.Raised(r.error.kind)) == Machine.At(Machine.ReleaseLockFailure, 0)
  {
  }

  /**
   * CheckHealthy, given the outcomes of the halt check and of updating the
   * health: a halt, or a halt reported by the health update (terminating
   * instances), stops the checks at once; any other failure is a health
   * error that is retried.
   */
  function CheckHealthy(halt: Outcome<ReleaseHalt.HaltError>, health: Outcome<Services.HealthError>): (r: Outcome<DeployerError>)
    ensures r == Pass <==> halt == Pass && health == Pass
    ensures halt.Fail? ==> r == Fail(DeployerError(Machine.HaltError, Halted(halt.error)))
    ensures halt == Pass && health.Fail? ==> r == Fail(DeployerError(
      if health.error.Halt? then Machine.HaltError else Machine.HealthError, Unhealthy(health.error)))
    ensures r.Fail? ==> r.error.kind in Raises(Machine.CheckHealthy)
    ensures r.Fail? ==> Machine.Catch(Machine.CheckHealthy, r.error.kind) == Some(Machine.CleanUpFailure)
    ensures r.Fail? ==> (Machine.MaxAttempts(Machine.CheckHealthy, r.error.kind) == 0 <==> r.error.kind == Machine.HaltError)
  {
    if halt.Fail? then Fail(DeployerError(Machine.HaltError, Halted(halt.error)))
    else match health
      case Pass => Pass
      case Fail(e) => Fail(DeployerError(if e.Halt? then Machine.HaltError else Machine.HealthError, Unhealthy(e)))
  }

  /** ReleaseLockFailure, given the outcome of releasing the lock: a failure is a lock error. */
  function ReleaseLockFailure(unlock: Outcome<string>): (r: Outcome<DeployerError>)
    ensures r == Pass <==> unlock == Pass
    ensures r.Fail? ==> r.error == DeployerError(Machine.LockError, LockFailed(unlock.error))
    ensures r.Fail? ==> r.error.kind in Raises(Machine.ReleaseLockFailure)
    ensures r.Fail? ==> Machine.Catch(Machine.ReleaseLockFailure, r.error.kind) == Some(Machine.FailureDirty)
  {
    match unlock
    case Pass => Pass
    case Fail(e) => Fail(DeployerError(Machine.LockError, LockFailed(e)))
  }

  /**
   * CleanUpSuccess, given the groups found and the outcome of tearing each
   * down, and the outcome of releasing the lock: the old releases' groups
   * are torn down, then the lock is released, and only then is the release
   * marked successful.
   */
  method CleanUpSuccess(release: Releases.Release, groups: seq<Asg.Group>, teardown: Asg.ASG -> Outcome<string>,
                        unlock: Outcome<string>)
    returns (r: Outcome<DeployerError>)
    requires ReleaseResources.Identified(release)
    modifies release
    ensures release.State() == old(release.State())
    ensures var p, c, id := release.projectName.value, release.configName.value, release.releaseID.value;
      var td := ReleaseResources.TearDownAll(ReleaseResources.OtherReleases(groups, p, c, id),
                                             ReleaseResources.SuccessfulGuard(p, c, id), teardown).1;
      (r == Pass <==> td == Pass && unlock == Pass)
      && (td.Fail? ==> r == Fail(DeployerError(Machine.CleanUpError, TearDownFailed(td.error))))
      && (td == Pass && unlock.Fail? ==> r == Fail(DeployerError(Machine.LockError, LockFailed(unlock.error))))
    ensures release.success == if r == Pass then Some(true) else old(release.success)
  {
    var _, td := ReleaseResources.SuccessfulTearDown(release, groups, teardown);
    if td.Fail? {
      return Fail(DeployerError(Machine.CleanUpError, TearDownFailed(td.error)));
    }
    if unlock.Fail? {
      return Fail(DeployerError(Machine.LockError, LockFailed(unlock.error)));
    }
    release.success := Some(true);
    r := Pass;
  }

  /**
   * CleanUpFailure, given the groups found and the outcome of tearing each
   * down: the release is marked failed before anything else, then this
   * release's groups are torn down.
   */
  method CleanUpFailure(release: Releases.Release, groups: seq<Asg.Group>, teardown: Asg.ASG -> Outcome<string>)
    returns (r: Outcome<DeployerError>)
    requires ReleaseResources.Identified(release)
    modifies release
    ensures release.State() == old(release.State())
    ensures release.success == Some(false)
    ensures var p, c, id := release.projectName.value, release.configName.value, release.releaseID.value;
      var td := ReleaseResources.TearDownAll(ReleaseResources.ThisRelease(groups, p, c, id),
                                             ReleaseResources.UnsuccessfulGuard(p, c, id), teardown).1;
      (r == Pass <==> td == Pass)
      && (td.Fail? ==> r == Fail(DeployerError(Machine.CleanUpError, TearDownFailed(td.error))))
  {
    release.success := Some(false);
    var _, td := ReleaseResources.UnsuccessfulTearDown(release, groups, teardown);
    r := if td.Fail? then Fail(DeployerError(Machine.CleanUpError, TearDownFailed(td.error))) else Pass;
  }

  /**
   * The cleanup handlers raise only errors that are retried three times and
   * then end the execution in FailureDirty: resources or the lock may be
   * left behind.
   */
  lemma CleanUpErrorsRetriedThenDirty(s: Machine.StateName, e: Machine.ErrorName)
    requires s in {Machine.CleanUpSuccess, Machine.CleanUpFailure, Machine.ReleaseLockFailure}
    requires e in Raises(s)
    ensures Machine.MaxAttempts(s, e) == 3
    ensures Machine.Step(Machine.At(s, 3), Machine.Raised(e)) == Machine.At(Machine.FailureDirty, 0)
  {
  }

  /** Every error a task's handler or the engine raises there is named by one of the task's `Catch` clauses. */
  lemma RaisedErrorsCaught(s: Machine.StateName, e: Machine.ErrorName)
    requires Machine.KindOf(s) == Machine.TaskFn
    requires e in Raises(s) || e in EngineRaises(s)
    ensures Machine.Catch(s, e).Some?
  {
  }

  /** The event could come from the handler of the state it happens in. */
  predicate Possible(c: Machine.Config, ev: Machine.Event)
  {
    c.At? && (ev.Raised? ==> ev.error in Raises(c.state) || ev.error in EngineRaises(c.state))
  }

  /**
   * No execution stops on an uncaught error: when every error comes from
   * the handler of the state it is raised in (or from the engine), the run
   * stays in the table's states, ending in FailureClean, FailureDirty or
   * Success if it ends at all.
   */
  lemma {:induction false} NeverAborts(c: Machine.Config, evs: seq<Machine.Event>)
    requires c.At?
    requires var t := Machine.Run(c, evs);
      forall i :: 0 <= i < |t| - 1 ==> Possible(t[i], evs[i])
    ensures forall i :: 0 <= i < |Machine.Run(c, evs)| ==> Machine.Run(c, evs)[i].At?
  {
    var t := Machine.Run(c, evs);
    forall i | 0 <= i < |t|
      ensures t[i].At?
    {
      if i > 0 {
        assert t[i] == Machine.Step(t[i - 1], evs[i - 1]);
        assert Possible(t[i - 1], evs[i - 1]);
        if evs[i - 1].Raised? {
          RaisedErrorsCaught(t[i - 1].state, evs[i - 1].error);
        }
      }
    }
  }
}
