/**
 * The halt decision: a release halts once its timeout has passed since it
 * was created, or when a fresh halt file exists. The clock and the halt-file
 * lookup are inputs; times are whole seconds.
 */
module ReleaseHalt {
  import opened Wrappers

  /** A halt file counts when it was written at most this many seconds ago... */
  const HaltFileMaxAge := 5 * 60
  /** ...and at most this many seconds in the future (clock skew). */
  const HaltFileMaxSkew := 2 * 60

  /** The lookup of the halt file's last-modified time: an error, or the time if the store reports one. */
  type HaltLookup = Result<Option<int>, string>

  /** Why a release halts. */
  datatype HaltError = TimedOut | HaltFileFound

  /** `is.WithinTimeFrame(lm, 5m, 2m)`: no older than five minutes and no more than two minutes ahead of now. */
  predicate WithinTimeFrame(lastModified: int, now: int)
  {
    now - HaltFileMaxAge <= lastModified <= now + HaltFileMaxSkew
  }

  /**
   * isHalt: a failed lookup or a missing last-modified time never halts;
   * otherwise the file halts exactly when it is recent.
   */
  function HaltFilePresent(lookup: HaltLookup, now: int): (r: bool)
    ensures lookup.Err? ==> !r
    ensures lookup.Ok? && lookup.value.None? ==> !r
    ensures r <==> lookup.Ok? && lookup.value.Some? && WithinTimeFrame(lookup.value.value, now)
  {
    match lookup
    case Err(_) => false
    case Ok(None) => false
    case Ok(Some(lm)) => WithinTimeFrame(lm, now)
  }

  /** The instant the release times out: its creation plus its timeout in seconds. */
  function Deadline(createdAt: int, timeout: int): int
  {
    createdAt + timeout
  }

  /**
   * IsHalt, given the clock, the creation time, the timeout and the halt-file
   * lookup: a timed-out release halts whatever the halt file says; otherwise
   * it halts exactly when the halt file is recent.
   */
  function IsHalt(now: int, createdAt: int, timeout: int, lookup: HaltLookup): (r: Outcome<HaltError>)
    ensures now > Deadline(createdAt, timeout) ==> r == Fail(TimedOut)
    ensures now <= Deadline(createdAt, timeout) ==> (r == Fail(HaltFileFound) <==> HaltFilePresent(lookup, now))
    ensures r == Pass <==> now <= Deadline(createdAt, timeout) && !HaltFilePresent(lookup, now)
  {
    if now > Deadline(createdAt, timeout) then Fail(TimedOut)
    else if HaltFilePresent(lookup, now) then Fail(HaltFileFound)
    else Pass
  }

  /** The timeout is checked first: once it has passed, no lookup result changes the answer. */
  lemma TimeoutBeforeHaltFile(now: int, createdAt: int, timeout: int, l1: HaltLookup, l2: HaltLookup)
    requires now > createdAt + timeout
    ensures IsHalt(now, createdAt, timeout, l1) == IsHalt(now, createdAt, timeout, l2) == Fail(TimedOut)
  {
  }

  /**
   * The timeout cases of the tests: a zero timeout halts a release created a
   * second ago; with a 10-second timeout, 9 seconds after creation it runs
   * and 11 seconds after it halts.
   */
  lemma TimeoutCases(created: int, lookup: HaltLookup)
    requires !HaltFilePresent(lookup, created + 9)
    ensures IsHalt(created + 1, created, 0, lookup) == Fail(TimedOut)
    ensures IsHalt(created + 9, created, 10, lookup) == Pass
    ensures IsHalt(created + 11, created, 10, lookup) == Fail(TimedOut)
  {
  }

  /** A halt file written now halts; one written ten minutes ago is ignored. */
  lemma HaltFileCases(now: int, createdAt: int, timeout: int)
    requires now <= createdAt + timeout
    ensures IsHalt(now, createdAt, timeout, Ok(Some(now))) == Fail(HaltFileFound)
    ensures IsHalt(now, createdAt, timeout, Ok(Some(now - 10 * 60))) == Pass
    ensures IsHalt(now, createdAt, timeout, Ok(None)) == Pass
    ensures IsHalt(now, createdAt, timeout, Err("NotFound")) == Pass
  {
  }
}
