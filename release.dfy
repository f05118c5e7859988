/**
 * A release: the document passed from the client to the deployer. Its
 * defaults (timeout, health-check interval, detach wait, hooks and every
 * service), and its validation before the deploy takes the lock.
 */
module Releases {
  import opened Wrappers
  import opened Text
  import Lifecycle
  import Services
  import AutoScaling

  const DefaultTimeout := 600
  /** 48 hours. */
  const MaxTimeout := 172800
  /** About the number of state transitions an execution history allows. */
  const MaxTransitions := 10000

  /**
   * The health-check interval for a timeout: every 15 seconds under 30
   * minutes, every minute under 2 hours, every 2 minutes otherwise.
   */
  function WaitForHealthyFor(timeout: int): (r: int)
    ensures timeout < 1800 <==> r == 15
    ensures 1800 <= timeout < 7200 <==> r == 60
    ensures 7200 <= timeout <==> r == 120
  {
    if timeout < 1800 then 15 else if timeout < 7200 then 60 else 120
  }

  /** A longer timeout never checks more often. */
  lemma WaitForHealthyMonotone(t1: int, t2: int)
    requires t1 <= t2
    ensures WaitForHealthyFor(t1) <= WaitForHealthyFor(t2)
  {
  }

  /** The detach wait: 10 seconds when absent or under 5, kept otherwise. */
  function DetachWaitFor(current: Option<int>): (r: int)
    ensures r >= 5
    ensures current.Some? && current.value >= 5 ==> r == current.value
  {
    if current.None? || current.value < 5 then 10 else current.value
  }

  /**
   * The rule of thumb `(5 / WaitForHealthy) * Timeout > 10000` on exact
   * values: for a positive interval it is `5 * Timeout > 10000 * interval`;
   * a zero interval divides to infinity, so any positive timeout exceeds;
   * a negative interval flips the comparison.
   */
  predicate RuleOfThumbExceeded(timeout: int, waitForHealthy: int)
  {
    if waitForHealthy > 0 then 5 * timeout > MaxTransitions * waitForHealthy
    else if waitForHealthy == 0 then timeout > 0
    else 5 * timeout < MaxTransitions * waitForHealthy
  }

  /** With the interval SetDefaults picks, every timeout up to the maximum keeps to the rule of thumb. */
  lemma DefaultIntervalKeepsRule(timeout: int)
    requires timeout <= MaxTimeout
    ensures !RuleOfThumbExceeded(timeout, WaitForHealthyFor(timeout))
  {
  }

  /** Why a release is rejected. */
  datatype ReleaseError =
    | BaseInvalid(message: string)
    | TimeoutTooLong
    | RuleOfThumb
    | ImageMissing
    | UserDataSHAMissing
    | UserDataDownloadFailed(message: string)
    | UserDataSHAIncorrect(computed: string, expected: string)
    | ServicesNil
    | ServicesEmpty
    | ServiceNil(name: string)
    | ServiceInvalid(serviceError: Services.ServiceError)

  /** A service passes Validate: its attributes and every hook of its release. */
  predicate ServiceValid(s: Services.Service)
    reads s
    requires s.autoscaling.Some? ==> AutoScaling.PoliciesNamed(s.autoscaling.value.policies)
  {
    s.ValidateAttributes() == Pass && Services.HooksValid(s.release.lifeCycleHooks)
  }

  function Objects(svcs: map<string, Option<Services.Service>>): set<Services.Service>
  {
    set n | n in svcs && svcs[n].Some? :: svcs[n].value
  }

  /** Every present service's policies carry its id, as SetDefaults leaves them once the id is known. */
  predicate PoliciesNamed(svcs: map<string, Option<Services.Service>>)
    reads Objects(svcs)
  {
    forall n :: n in svcs && svcs[n].Some? && svcs[n].value.autoscaling.Some? ==>
      AutoScaling.PoliciesNamed(svcs[n].value.autoscaling.value.policies)
  }

  /** Every named service is present and valid. */
  predicate AllValid(svcs: map<string, Option<Services.Service>>)
    reads Objects(svcs)
    requires PoliciesNamed(svcs)
  {
    forall n :: n in svcs ==> svcs[n].Some? && ServiceValid(svcs[n].value)
  }

  /** The state of every present service. */
  function StatesOf(svcs: map<string, Option<Services.Service>>): (r: map<string, Services.ServiceState>)
    reads Objects(svcs)
    ensures forall n :: n in r <==> n in svcs && svcs[n].Some?
  {
    map n | n in svcs && svcs[n].Some? :: svcs[n].value.State()
  }

  /** Every service state after SetDefaults against the release `info`, each under its own name. */
  function DefaultedAll(states: map<string, Services.ServiceState>, info: Services.ReleaseInfo): (r: map<string, Services.ServiceState>)
    ensures r.Keys == states.Keys
    ensures forall n :: n in r ==> r[n] == Services.Defaulted(states[n], info, n)
  {
    map n | n in states :: Services.Defaulted(states[n], info, n)
  }

  /** Every service state after SetUserData(data). */
  function WithUserData(states: map<string, Services.ServiceState>, data: Option<string>): (r: map<string, Services.ServiceState>)
    ensures r.Keys == states.Keys
    ensures forall n :: n in r ==> r[n] == states[n].(userdata := data)
  {
    map n | n in states :: states[n].(userdata := data)
  }

  function HookObjectsOf(hooks: map<string, Option<Lifecycle.LifeCycleHook>>): set<Lifecycle.LifeCycleHook>
  {
    set n | n in hooks && hooks[n].Some? :: hooks[n].value
  }

  /** The specification of every hook, as the services read them. */
  function HookSpecs(hooks: map<string, Option<Lifecycle.LifeCycleHook>>): (r: map<string, Option<Lifecycle.HookSpecification>>)
    reads HookObjectsOf(hooks)
    ensures r.Keys == hooks.Keys
    ensures forall n :: n in r ==> (r[n].Some? <==> hooks[n].Some?)
  {
    map n | n in hooks :: if hooks[n].Some? then Some(hooks[n].value.ToLifecycleHookSpecification()) else None
  }

  /** The fields of a release, as one value. */
  datatype ReleaseState = ReleaseState(
    projectName: Option<string>,
    configName: Option<string>,
    releaseID: Option<string>,
    uuid: Option<string>,
    createdAt: Option<Services.Timestamp>,
    awsRegion: Option<string>,
    awsAccountID: Option<string>,
    subnets: seq<Option<string>>,
    image: Option<string>,
    timeout: Option<int>,
    userdata: Option<string>,
    userDataSHA256: Option<string>,
    lifeCycleHooks: Option<map<string, Option<Lifecycle.LifeCycleHook>>>,
    healthy: Option<bool>,
    waitForHealthy: Option<int>,
    waitForDetach: Option<int>,
    services: Option<map<string, Option<Services.Service>>>)

  /**
   * The field defaults of SetDefaults: a 600-second timeout when absent, the
   * health-check interval from the timeout, a detach wait of at least 5
   * seconds, not healthy and an empty hook map when absent.
   */
  function ScalarDefaulted(st: ReleaseState): (r: ReleaseState)
    ensures r.timeout == Some(st.timeout.GetOr(DefaultTimeout))
    ensures r.waitForHealthy == Some(WaitForHealthyFor(r.timeout.value))
    ensures r.waitForDetach == Some(DetachWaitFor(st.waitForDetach))
    ensures r.healthy == Some(st.healthy.GetOr(false))
    ensures r.lifeCycleHooks == Some(st.lifeCycleHooks.GetOr(map[]))
    ensures r.(timeout := st.timeout, waitForHealthy := st.waitForHealthy, waitForDetach := st.waitForDetach,
               healthy := st.healthy, lifeCycleHooks := st.lifeCycleHooks) == st
  {
    var t := st.timeout.GetOr(DefaultTimeout);
    st.(timeout := Some(t), waitForHealthy := Some(WaitForHealthyFor(t)), waitForDetach := Some(DetachWaitFor(st.waitForDetach)),
        healthy := Some(st.healthy.GetOr(false)), lifeCycleHooks := Some(st.lifeCycleHooks.GetOr(map[])))
  }

  /** Defaulting the fields twice is defaulting them once. */
  lemma ScalarDefaultedIdempotent(st: ReleaseState)
    ensures ScalarDefaulted(ScalarDefaulted(st)) == ScalarDefaulted(st)
  {
  }

  /** `Release`: defaulted and validated in place, then shared by its services. */
  class Release {
    var projectName: Option<string>
    var configName: Option<string>
    var releaseID: Option<string>
    var uuid: Option<string>
    var createdAt: Option<Services.Timestamp>
    var awsRegion: Option<string>
    var awsAccountID: Option<string>
    var subnets: seq<Option<string>>
    var image: Option<string>
    var timeout: Option<int>
    var userdata: Option<string>
    var userDataSHA256: Option<string>
    var lifeCycleHooks: Option<map<string, Option<Lifecycle.LifeCycleHook>>>
    var healthy: Option<bool>
    var waitForHealthy: Option<int>
    var waitForDetach: Option<int>
    var services: Option<map<string, Option<Services.Service>>>
    /** The outcome the deployer reports; it belongs to the release base type and is set only by the cleanup handlers. */
    var success: Option<bool>

    function State(): ReleaseState
      reads this
    {
      ReleaseState(projectName, configName, releaseID, uuid, createdAt, awsRegion, awsAccountID, subnets, image, timeout,
                   userdata, userDataSHA256, lifeCycleHooks, healthy, waitForHealthy, waitForDetach, services)
    }

    /** The hooks by name; a nil map has none. */
    function Hooks(): map<string, Option<Lifecycle.LifeCycleHook>>
      reads this
    {
      lifeCycleHooks.GetOr(map[])
    }

    function HookObjects(): set<Lifecycle.LifeCycleHook>
      reads this
    {
      HookObjectsOf(Hooks())
    }

    /** The services by name; a nil map has none. */
    function ServiceMap(): map<string, Option<Services.Service>>
      reads this
    {
      services.GetOr(map[])
    }

    function ServiceObjects(): set<Services.Service>
      reads this
    {
      Objects(ServiceMap())
    }

    /** No hook object is shared by two names. */
    predicate HooksDistinct()
      reads this
    {
      forall a, b :: a in Hooks() && b in Hooks() && a != b && Hooks()[a].Some? && Hooks()[b].Some? ==>
        Hooks()[a].value != Hooks()[b].value
    }

    /** No service object is shared by two names. */
    predicate ServicesDistinct()
      reads this
    {
      forall a, b :: a in ServiceMap() && b in ServiceMap() && a != b && ServiceMap()[a].Some? && ServiceMap()[b].Some? ==>
        ServiceMap()[a].value != ServiceMap()[b].value
    }

    /** What a service reads of its release. */
    function Info(): (r: Services.ReleaseInfo)
      reads this, HookObjects()
      ensures r.projectName == projectName && r.configName == configName && r.releaseID == releaseID
      ensures r.createdAt == createdAt && r.timeout == timeout && r.lifeCycleHooks.Keys == Hooks().Keys
    {
      Services.ReleaseInfo(projectName, configName, releaseID, uuid, createdAt, subnets, HookSpecs(Hooks()), timeout)
    }

    /**
     * SetDefaults: a 600-second timeout when absent; the health-check
     * interval from the timeout; a detach wait of at least 5 seconds; not
     * healthy and no hooks when absent; then every hook's defaults, then
     * every service's defaults against the defaulted release.
     */
    method SetDefaults()
      requires awsRegion.Some? && awsAccountID.Some? && HooksDistinct() && ServicesDistinct()
      modifies this, HookObjects(), ServiceObjects()
      ensures State() == ScalarDefaulted(old(State()))
      ensures forall n :: n in Hooks() && Hooks()[n].Some? ==>
        Hooks()[n].value.State() == Lifecycle.Defaulted(old(Hooks()[n].value.State()), awsRegion.value, awsAccountID.value, n)
      ensures StatesOf(ServiceMap()) == DefaultedAll(old(StatesOf(ServiceMap())), Info())
    {
      var svcs := ServiceMap();
      ghost var before := StatesOf(svcs);
      SetHookDefaults();
      SetScalarDefaults();
      assert StatesOf(svcs) == before;
      var info := Info();
      SetServiceDefaults(info);
      assert Hooks() == old(Hooks()) && Info() == info;
    }

    /** The field defaults of SetDefaults. */
    method SetScalarDefaults()
      modifies this
      ensures State() == ScalarDefaulted(old(State())) && Hooks() == old(Hooks())
    {
      var st := ScalarDefaulted(State());
      timeout, waitForHealthy, waitForDetach, healthy, lifeCycleHooks :=
        st.timeout, st.waitForHealthy, st.waitForDetach, st.healthy, st.lifeCycleHooks;
    }

    /** The hook loop of SetDefaults: every present hook gets its name and ARNs. */
    method SetHookDefaults()
      requires awsRegion.Some? && awsAccountID.Some? && HooksDistinct()
      modifies HookObjects()
      ensures forall n :: n in Hooks() && Hooks()[n].Some? ==>
        Hooks()[n].value.State() == Lifecycle.Defaulted(old(Hooks()[n].value.State()), awsRegion.value, awsAccountID.value, n)
    {
      var hooks := Hooks();
      var remaining := hooks.Keys;
      while remaining != {}
        invariant remaining <= hooks.Keys
        invariant forall n :: n in hooks && hooks[n].Some? ==>
          hooks[n].value.State() ==
            if n in remaining then old(hooks[n].value.State())
            else Lifecycle.Defaulted(old(hooks[n].value.State()), awsRegion.value, awsAccountID.value, n)
        decreases remaining
      {
        var n :| n in remaining;
        if hooks[n].Some? {
          hooks[n].value.SetDefaults(awsRegion, awsAccountID, n);
        }
        remaining := remaining - {n};
      }
    }

    /** The service loop of SetDefaults: every present service takes the release and its name. */
    method SetServiceDefaults(info: Services.ReleaseInfo)
      requires ServicesDistinct()
      modifies ServiceObjects()
      ensures unchanged(this) && unchanged(HookObjects())
      ensures StatesOf(ServiceMap()) == DefaultedAll(old(StatesOf(ServiceMap())), info)
    {
      var svcs := ServiceMap();
      var remaining := svcs.Keys;
      while remaining != {}
        invariant remaining <= svcs.Keys
        invariant forall n :: n in svcs && svcs[n].Some? ==>
          svcs[n].value.State() ==
            if n in remaining then old(svcs[n].value.State()) else Services.Defaulted(old(svcs[n].value.State()), info, n)
        decreases remaining
      {
        var n :| n in remaining;
        if svcs[n].Some? {
          svcs[n].value.SetDefaults(info, n);
        }
        remaining := remaining - {n};
      }
      assert StatesOf(svcs) == DefaultedAll(old(StatesOf(svcs)), info);
    }

    /** The service loop of SetDefaultsWithUserData: every present service takes the release's user data. */
    method SetServiceUserData(data: Option<string>)
      requires ServicesDistinct()
      modifies ServiceObjects()
      ensures unchanged(this) && unchanged(HookObjects())
      ensures StatesOf(ServiceMap()) == WithUserData(old(StatesOf(ServiceMap())), data)
    {
      var svcs := ServiceMap();
      var remaining := svcs.Keys;
      while remaining != {}
        invariant remaining <= svcs.Keys
        invariant forall n :: n in svcs && svcs[n].Some? ==>
          svcs[n].value.State() == if n in remaining then old(svcs[n].value.State()) else old(svcs[n].value.State()).(userdata := data)
        decreases remaining
      {
        var n :| n in remaining;
        if svcs[n].Some? {
          svcs[n].value.SetUserData(data);
        }
        remaining := remaining - {n};
      }
      assert StatesOf(svcs) == WithUserData(old(StatesOf(svcs)), data);
    }

    /**
     * SetDefaultsWithUserData, given the download of the user data: the
     * defaults, then on a successful download the release and every service
     * hold the user data.
     */
    method SetDefaultsWithUserData(download: Result<string, string>) returns (r: Outcome<string>)
      requires awsRegion.Some? && awsAccountID.Some? && HooksDistinct() && ServicesDistinct()
      modifies this, HookObjects(), ServiceObjects()
      ensures r == Pass <==> download.Ok?
      ensures download.Err? ==> r == Fail(download.error)
      ensures State() == ScalarDefaulted(old(State())).(userdata := if download.Ok? then Some(download.value) else old(userdata))
      ensures StatesOf(ServiceMap()) ==
        var defaulted := DefaultedAll(old(StatesOf(ServiceMap())), Info());
        if download.Ok? then WithUserData(defaulted, Some(download.value)) else defaulted
    {
      SetDefaults();
      ghost var st, states := State(), StatesOf(ServiceMap());
      r := UseUserData(download);
      assert State() == st.(userdata := if download.Ok? then Some(download.value) else st.userdata);
    }

    /** The second half of SetDefaultsWithUserData: the download, then the user data handed to every service. */
    method UseUserData(download: Result<string, string>) returns (r: Outcome<string>)
      requires ServicesDistinct()
      modifies this, ServiceObjects()
      ensures r == if download.Ok? then Pass else Fail(download.error)
      ensures State() == old(State()).(userdata := if download.Ok? then Some(download.value) else old(userdata))
      ensures StatesOf(ServiceMap()) ==
        if download.Ok? then WithUserData(old(StatesOf(ServiceMap())), Some(download.value)) else old(StatesOf(ServiceMap()))
      ensures ServiceMap() == old(ServiceMap()) && Hooks() == old(Hooks()) && Info() == old(Info())
    {
      ghost var svcs := ServiceMap();
      r := DownloadUserData(download);
      assert ServiceMap() == svcs;
      assert unchanged(Objects(svcs));
      if r.Fail? {
        return;
      }
      SetServiceUserData(userdata);
    }

    /** DownloadUserData, given the download: a successful download becomes the release's user data. */
    method DownloadUserData(download: Result<string, string>) returns (r: Outcome<string>)
      modifies this
      ensures State() == old(State()).(userdata := if download.Ok? then Some(download.value) else old(userdata))
      ensures r == if download.Ok? then Pass else Fail(download.error)
      ensures ServiceMap() == old(ServiceMap()) && Hooks() == old(Hooks()) && Info() == old(Info())
    {
      if download.Err? {
        return Fail(download.error);
      }
      userdata := Some(download.value);
      r := Pass;
    }

    /** The checks of Validate before the user data: the base release, the maximum timeout, the rule of thumb, an image. */
    function AttributeCheck(base: Outcome<string>): (r: Outcome<ReleaseError>)
      reads this
      requires timeout.Some? && waitForHealthy.Some?
      ensures r == Pass <==>
        base.Pass? && timeout.value <= MaxTimeout && !RuleOfThumbExceeded(timeout.value, waitForHealthy.value) && image.Some?
      ensures base.Fail? ==> r == Fail(BaseInvalid(base.error))
      ensures base.Pass? && timeout.value > MaxTimeout ==> r == Fail(TimeoutTooLong)
    {
      if base.Fail? then Fail(BaseInvalid(base.error))
      else if timeout.value > MaxTimeout then Fail(TimeoutTooLong)
      else if RuleOfThumbExceeded(timeout.value, waitForHealthy.value) then Fail(RuleOfThumb)
      else if image.None? then Fail(ImageMissing)
      else Pass
    }

    /** Every service is present and valid. */
    predicate ServicesValid()
      reads this, Objects(ServiceMap())
      requires PoliciesNamed(ServiceMap())
    {
      services.Some? && |services.value| > 0 && AllValid(ServiceMap())
    }

    /**
     * ValidateServices: no services map, an empty one, a nil service or an
     * invalid service is an error; the services are visited in map order.
     */
    method ValidateServices() returns (r: Outcome<ReleaseError>)
      requires PoliciesNamed(ServiceMap())
      ensures services.None? ==> r == Fail(ServicesNil)
      ensures services.Some? && |services.value| == 0 ==> r == Fail(ServicesEmpty)
      ensures r == Pass <==> ServicesValid()
      ensures r.Fail? && services.Some? && |services.value| > 0 ==>
        exists n :: n in ServiceMap() &&
          ((ServiceMap()[n].None? && r == Fail(ServiceNil(n))) ||
           (ServiceMap()[n].Some? && !ServiceValid(ServiceMap()[n].value) && r.error.ServiceInvalid?))
    {
      if services.None? {
        return Fail(ServicesNil);
      }
      if |services.value| == 0 {
        return Fail(ServicesEmpty);
      }
      var svcs := services.value;
      assert svcs == ServiceMap();
      var remaining := svcs.Keys;
      while remaining != {}
        invariant remaining <= svcs.Keys
        invariant forall n :: n in svcs && n !in remaining ==> svcs[n].Some? && ServiceValid(svcs[n].value)
        decreases remaining
      {
        var n :| n in remaining;
        if svcs[n].None? {
          assert !AllValid(svcs) by {
            assert n in svcs && svcs[n].None?;
          }
          return Fail(ServiceNil(n));
        }
        var check := svcs[n].value.Validate();
        if check.Fail? {
          assert !AllValid(svcs) by {
            assert n in svcs && !ServiceValid(svcs[n].value);
          }
          return Fail(ServiceInvalid(check.error));
        }
        remaining := remaining - {n};
      }
      r := Pass;
    }

    /**
     * ValidateUserDataSHA, given the download and the digest function: a
     * digest must be recorded, the download must succeed (its data is kept)
     * and its digest must equal the recorded one.
     */
    method ValidateUserDataSHA(download: Result<string, string>, sha256: string -> string) returns (r: Outcome<ReleaseError>)
      modifies this
      ensures r == UserDataCheck(userDataSHA256, download, sha256)
      ensures State() == old(State()).(userdata := userdata)
      ensures userdata == if !EmptyStr(userDataSHA256) && download.Ok? then Some(download.value) else old(userdata)
    {
      if EmptyStr(userDataSHA256) {
        return Fail(UserDataSHAMissing);
      }
      if download.Err? {
        return Fail(UserDataDownloadFailed(download.error));
      }
      userdata := Some(download.value);
      var digest := sha256(download.value);
      if digest != userDataSHA256.value {
        return Fail(UserDataSHAIncorrect(digest, userDataSHA256.value));
      }
      r := Pass;
    }

    /**
     * Validate, given the base release check, the user data download and the
     * digest function: the attribute checks, the user data digest, then the
     * services, stopping at the first failure.
     */
    method Validate(base: Outcome<string>, download: Result<string, string>, sha256: string -> string)
      returns (r: Outcome<ReleaseError>)
      requires timeout.Some? && waitForHealthy.Some? && PoliciesNamed(ServiceMap())
      modifies this
      ensures State() == old(State()).(userdata := userdata)
      ensures AttributeCheck(base).Fail? ==> r == AttributeCheck(base) && userdata == old(userdata)
      ensures AttributeCheck(base) == Pass ==>
        userdata == if !EmptyStr(userDataSHA256) && download.Ok? then Some(download.value) else old(userdata)
      ensures AttributeCheck(base) == Pass && UserDataCheck(userDataSHA256, download, sha256).Fail? ==>
        r == UserDataCheck(userDataSHA256, download, sha256)
      ensures r == Pass <==>
        AttributeCheck(base) == Pass && UserDataCheck(userDataSHA256, download, sha256) == Pass && old(ServicesValid())
    {
      r := AttributeCheck(base);
      if r.Fail? {
        return;
      }
      r := ValidateUserDataSHA(download, sha256);
      if r.Fail? {
        return;
      }
      assert ServiceMap() == old(ServiceMap());
      r := ValidateServices();
    }
  }

  /** The digest check of ValidateUserDataSHA on the recorded digest and the download. */
  function UserDataCheck(expected: Option<string>, download: Result<string, string>, sha256: string -> string)
    : (r: Outcome<ReleaseError>)
    ensures r == Pass <==> !EmptyStr(expected) && download.Ok? && sha256(download.value) == expected.value
    ensures EmptyStr(expected) ==> r == Fail(UserDataSHAMissing)
  {
    if EmptyStr(expected) then Fail(UserDataSHAMissing)
    else if download.Err? then Fail(UserDataDownloadFailed(download.error))
    else if sha256(download.value) != expected.value then Fail(UserDataSHAIncorrect(sha256(download.value), expected.value))
    else Pass
  }
}
