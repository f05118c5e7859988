/**
 * The safe-release check: a release may only replace the one currently
 * deployed when both agree on subnets, image, timeout and services, and each
 * service agrees on its security groups, profile, load balancers, target
 * groups, EBS settings, public address, instance type and auto-scaling
 * bounds. The stored previous release is an input; message formatting is
 * replaced by structured differences.
 */
module SafeRelease {
  import opened Wrappers
  import opened Text
  import Sets
  import AutoScaling
  import Policies
  import Services
  import Releases

  /** How a requested value differs from the previous one. */
  datatype Difference<T> =
    | RequestedNil(previous: T)
    | PreviousNil(requested: T)
    | Differs(previous: T, requested: T)

  /** The detail of a failed comparison, per value kind. */
  datatype Detail =
    | ListDetail(previousList: seq<string>, requestedList: seq<string>)
    | StrDetail(str: Difference<string>)
    | IntDetail(number: Difference<int>)
    | BoolDetail(flag: Difference<bool>)

  /** The release fields compared. */
  datatype ReleaseField = Subnets | Image | Timeout

  /** The service fields compared, in the order they are compared. */
  datatype ServiceField =
    | SecurityGroups | Profile | ELBs | TargetGroups
    | EBSVolumeSize | EBSVolumeType | EBSDeviceName | AssociatePublicIpAddress | InstanceType
    | MinSize | MaxSize | MaxTerminations | DefaultCooldown | HealthCheckGracePeriod | Spread

  /** Why the safe-release check refuses a release. */
  datatype SafeError =
    | PreviousReleaseNotFound
    | FetchFailed(message: string)
    | ReleaseDifferent(releaseField: ReleaseField, detail: Detail)
    | ServicesIncorrect
    | NoPreviousService(name: string)
    | ServiceDifferent(service: string, serviceField: ServiceField, serviceDetail: Detail)

  //////////
  // Comparisons of single values
  //////////

  /**
   * safeStr, safeInt64, safeInt, safeFloat64 and safeBool: no difference when
   * both are absent or both are present and equal; otherwise which side is
   * absent, or both values.
   */
  function SafeValue<T(==)>(requested: Option<T>, previous: Option<T>): (r: Option<Difference<T>>)
    ensures r.None? <==> requested == previous
    ensures requested.None? && previous.Some? ==> r == Some(RequestedNil(previous.value))
    ensures requested.Some? && previous.None? ==> r == Some(PreviousNil(requested.value))
    ensures requested.Some? && previous.Some? && requested != previous ==>
      r == Some(Differs(previous.value, requested.value))
  {
    if requested.None? && previous.None? then None
    else if requested.None? then Some(RequestedNil(previous.value))
    else if previous.None? then Some(PreviousNil(requested.value))
    else if requested.value == previous.value then None
    else Some(Differs(previous.value, requested.value))
  }

  /** Comparing a value with itself finds no difference, and comparing is symmetric in finding one. */
  lemma SafeValueSymmetric<T>(a: Option<T>, b: Option<T>)
    ensures SafeValue(a, a).None?
    ensures SafeValue(a, b).None? <==> SafeValue(b, a).None?
  {
  }

  //////////
  // Unordered string lists
  //////////

  /** The present strings of a list of optional strings, in order. */
  function Present(s: seq<Option<string>>): (r: seq<string>)
    ensures |r| <= |s|
    ensures forall x :: x in r <==> Some(x) in s
  {
    if s == [] then []
    else Present(s[..|s| - 1]) + (if s[|s| - 1].Some? then [s[|s| - 1].value] else [])
  }

  /** strS2Map: the set of present strings as a map to true, and the present strings in order. */
  method StrS2Map(slc: seq<Option<string>>) returns (m: map<string, bool>, strs: seq<string>)
    ensures strs == Present(slc)
    ensures m.Keys == Elements(strs)
    ensures forall k :: k in m ==> m[k]
  {
    m, strs := map[], [];
    for i := 0 to |slc|
      invariant strs == Present(slc[..i])
      invariant m.Keys == Elements(strs)
      invariant forall k :: k in m ==> m[k]
    {
      assert slc[..i + 1][..i] == slc[..i];
      if slc[i].Some? {
        m := m[slc[i].value := true];
        strs := strs + [slc[i].value];
      }
    }
    assert slc[..|slc|] == slc;
  }

  /** Two lists hold the same present strings, whatever their order, repetitions and absent entries. */
  ghost predicate SameStrings(a: seq<Option<string>>, b: seq<Option<string>>)
  {
    forall x :: Some(x) in a <==> Some(x) in b
  }

  /** safeUnorderedStrList's verdict: no difference exactly when the sets of present strings agree. */
  function UnorderedDiff(requested: seq<Option<string>>, previous: seq<Option<string>>): (r: Option<Detail>)
    ensures r.None? <==> SameStrings(requested, previous)
  {
    ElementsPresent(requested);
    ElementsPresent(previous);
    if Elements(Present(requested)) == Elements(Present(previous)) then None
    else Some(ListDetail(Present(previous), Present(requested)))
  }

  lemma ElementsPresent(s: seq<Option<string>>)
    ensures forall x :: x in Elements(Present(s)) <==> Some(x) in s
  {
  }

  /** safeUnorderedStrList: the two maps must have the same size and every key of the first must be in the second. */
  method SafeUnorderedStrList(requested: seq<Option<string>>, previous: seq<Option<string>>) returns (r: Option<Detail>)
    ensures r == UnorderedDiff(requested, previous)
  {
    var m1, ss1 := StrS2Map(requested);
    var m2, ss2 := StrS2Map(previous);
    var err := ListDetail(ss2, ss1);
    if |m1.Keys| != |m2.Keys| {
      return Some(err);
    }
    var keys := m1.Keys;
    while keys != {}
      invariant keys <= m1.Keys
      invariant forall s :: s in m1.Keys - keys ==> s in m2
      decreases keys
    {
      var s :| s in keys;
      if s !in m2 {
        return Some(err);
      }
      keys := keys - {s};
    }
    Sets.EqualBySize(m1.Keys, m2.Keys);
    return None;
  }

  /** Order, repetition and absent entries do not matter to the comparison. */
  lemma UnorderedIgnoresOrderAndDuplicates(a: seq<Option<string>>, b: seq<Option<string>>, x: string)
    requires multiset(a) == multiset(b)
    ensures UnorderedDiff(a, b).None?
    ensures UnorderedDiff(a + [None], b).None?
    ensures Some(x) in a ==> UnorderedDiff(a + [Some(x)], b).None?
  {
    forall y ensures Some(y) in a <==> Some(y) in b {
      assert Some(y) in a <==> Some(y) in multiset(a);
      assert Some(y) in b <==> Some(y) in multiset(b);
    }
  }

  //////////
  // Services
  //////////

  /** The parts of a service the check compares. */
  datatype ServiceView = ServiceView(config: Services.ServiceConfig, autoscaling: Option<AutoScaling.Settings>)

  /** The parts of a release the check compares, and what its service ids are made from. */
  datatype ReleaseView = ReleaseView(
    projectName: Option<string>,
    configName: Option<string>,
    createdAt: Option<Services.Timestamp>,
    subnets: seq<Option<string>>,
    image: Option<string>,
    timeout: Option<int>,
    services: map<string, ServiceView>)

  /** validaeSafeAutoscaling: the bounds, in order; policies are not compared. */
  function AutoscalingCheck(name: string, a: AutoScaling.Settings, p: AutoScaling.Settings): (r: Outcome<SafeError>)
    ensures r == Pass <==>
      a.minSize == p.minSize && a.maxSize == p.maxSize && a.maxTerminations == p.maxTerminations &&
      a.defaultCooldown == p.defaultCooldown && a.healthCheckGracePeriod == p.healthCheckGracePeriod && a.spread == p.spread
    ensures r.Fail? ==> r.error.ServiceDifferent? && r.error.service == name
  {
    if SafeValue(a.minSize, p.minSize).Some? then
      Fail(ServiceDifferent(name, MinSize, IntDetail(SafeValue(a.minSize, p.minSize).value)))
    else if SafeValue(a.maxSize, p.maxSize).Some? then
      Fail(ServiceDifferent(name, MaxSize, IntDetail(SafeValue(a.maxSize, p.maxSize).value)))
    else if SafeValue(a.maxTerminations, p.maxTerminations).Some? then
      Fail(ServiceDifferent(name, MaxTerminations, IntDetail(SafeValue(a.maxTerminations, p.maxTerminations).value)))
    else if SafeValue(a.defaultCooldown, p.defaultCooldown).Some? then
      Fail(ServiceDifferent(name, DefaultCooldown, IntDetail(SafeValue(a.defaultCooldown, p.defaultCooldown).value)))
    else if SafeValue(a.healthCheckGracePeriod, p.healthCheckGracePeriod).Some? then
      Fail(ServiceDifferent(name, HealthCheckGracePeriod,
                            IntDetail(SafeValue(a.healthCheckGracePeriod, p.healthCheckGracePeriod).value)))
    else if SafeValue(a.spread, p.spread).Some? then
      Fail(ServiceDifferent(name, Spread, IntDetail(SafeValue(a.spread, p.spread).value)))
    else Pass
  }

  /** Two services agree on everything the check compares. */
  ghost predicate SameService(s: ServiceView, p: ServiceView)
    requires s.autoscaling.Some? && p.autoscaling.Some?
  {
    var c, pc, a, pa := s.config, p.config, s.autoscaling.value, p.autoscaling.value;
    SameStrings(c.securityGroups, pc.securityGroups) && c.profile == pc.profile &&
    SameStrings(c.elbs, pc.elbs) && SameStrings(c.targetGroups, pc.targetGroups) &&
    c.ebsVolumeSize == pc.ebsVolumeSize && c.ebsVolumeType == pc.ebsVolumeType && c.ebsDeviceName == pc.ebsDeviceName &&
    c.associatePublicIpAddress == pc.associatePublicIpAddress && c.instanceType == pc.instanceType &&
    a.minSize == pa.minSize && a.maxSize == pa.maxSize && a.maxTerminations == pa.maxTerminations &&
    a.defaultCooldown == pa.defaultCooldown && a.healthCheckGracePeriod == pa.healthCheckGracePeriod && a.spread == pa.spread
  }

  /**
   * validaeSafeService: security groups, profile, load balancers, target
   * groups, EBS size, type and device, public address and instance type, then
   * the auto-scaling bounds; the first difference is the error.
   */
  function ServiceCheck(name: string, s: ServiceView, p: ServiceView): (r: Outcome<SafeError>)
    requires s.autoscaling.Some? && p.autoscaling.Some?
    ensures r == Pass <==> SameService(s, p)
    ensures r.Fail? ==> r.error.ServiceDifferent? && r.error.service == name
    ensures UnorderedDiff(s.config.securityGroups, p.config.securityGroups).Some? ==>
      r == Fail(ServiceDifferent(name, SecurityGroups, UnorderedDiff(s.config.securityGroups, p.config.securityGroups).value))
  {
    var c, pc := s.config, p.config;
    if UnorderedDiff(c.securityGroups, pc.securityGroups).Some? then
      Fail(ServiceDifferent(name, SecurityGroups, UnorderedDiff(c.securityGroups, pc.securityGroups).value))
    else if SafeValue(c.profile, pc.profile).Some? then
      Fail(ServiceDifferent(name, Profile, StrDetail(SafeValue(c.profile, pc.profile).value)))
    else if UnorderedDiff(c.elbs, pc.elbs).Some? then
      Fail(ServiceDifferent(name, ELBs, UnorderedDiff(c.elbs, pc.elbs).value))
    else if UnorderedDiff(c.targetGroups, pc.targetGroups).Some? then
      Fail(ServiceDifferent(name, TargetGroups, UnorderedDiff(c.targetGroups, pc.targetGroups).value))
    else if SafeValue(c.ebsVolumeSize, pc.ebsVolumeSize).Some? then
      Fail(ServiceDifferent(name, EBSVolumeSize, IntDetail(SafeValue(c.ebsVolumeSize, pc.ebsVolumeSize).value)))
    else if SafeValue(c.ebsVolumeType, pc.ebsVolumeType).Some? then
      Fail(ServiceDifferent(name, EBSVolumeType, StrDetail(SafeValue(c.ebsVolumeType, pc.ebsVolumeType).value)))
    else if SafeValue(c.ebsDeviceName, pc.ebsDeviceName).Some? then
      Fail(ServiceDifferent(name, EBSDeviceName, StrDetail(SafeValue(c.ebsDeviceName, pc.ebsDeviceName).value)))
    else if SafeValue(c.associatePublicIpAddress, pc.associatePublicIpAddress).Some? then
      Fail(ServiceDifferent(name, AssociatePublicIpAddress,
                            BoolDetail(SafeValue(c.associatePublicIpAddress, pc.associatePublicIpAddress).value)))
    else if SafeValue(c.instanceType, pc.instanceType).Some? then
      Fail(ServiceDifferent(name, InstanceType, StrDetail(SafeValue(c.instanceType, pc.instanceType).value)))
    else AutoscalingCheck(name, s.autoscaling.value, p.autoscaling.value)
  }

  /** Scaling policies are never compared: replacing them does not change the verdict. */
  lemma PoliciesIgnored(name: string, s: ServiceView, p: ServiceView, policies: seq<Option<Policies.Policy>>)
    requires s.autoscaling.Some? && p.autoscaling.Some?
    ensures ServiceCheck(name, s.(autoscaling := Some(s.autoscaling.value.(policies := policies))), p) ==
            ServiceCheck(name, s, p)
  {
  }

  /** Every service of both maps has an auto-scaling config. */
  predicate Comparable(services: map<string, ServiceView>, prev: map<string, ServiceView>)
  {
    (forall n :: n in services ==> services[n].autoscaling.Some?) &&
    (forall n :: n in prev ==> prev[n].autoscaling.Some?)
  }

  /** The services of two releases agree: the same names, and each pair the same service. */
  ghost predicate SameServices(services: map<string, ServiceView>, prev: map<string, ServiceView>)
    requires Comparable(services, prev)
  {
    |services| == |prev| && forall n :: n in services ==> n in prev && SameService(services[n], prev[n])
  }

  /** Agreeing services have exactly the same names. */
  lemma SameServicesSameNames(services: map<string, ServiceView>, prev: map<string, ServiceView>)
    requires Comparable(services, prev) && SameServices(services, prev)
    ensures services.Keys == prev.Keys
  {
    assert |services.Keys| == |services| && |prev.Keys| == |prev|;
    Sets.EqualBySize(services.Keys, prev.Keys);
  }

  /**
   * validateSafeServices: the maps must have the same size; then each service,
   * in map order, must have a previous entry and agree with it.
   */
  method ValidateSafeServices(services: map<string, ServiceView>, prev: map<string, ServiceView>) returns (r: Outcome<SafeError>)
    requires Comparable(services, prev)
    ensures r == Pass <==> SameServices(services, prev)
    ensures |services| != |prev| ==> r == Fail(ServicesIncorrect)
    ensures r.Fail? && |services| == |prev| ==>
      (exists n :: n in services && n !in prev && r == Fail(NoPreviousService(n))) ||
      (exists n :: n in services && n in prev && r == ServiceCheck(n, services[n], prev[n]) && r.Fail?)
  {
    if |services| != |prev| {
      return Fail(ServicesIncorrect);
    }
    var remaining := services.Keys;
    while remaining != {}
      invariant remaining <= services.Keys
      invariant forall n :: n in services.Keys - remaining ==> n in prev && SameService(services[n], prev[n])
      decreases remaining
    {
      var name :| name in remaining;
      if name !in prev {
        return Fail(NoPreviousService(name));
      }
      r := ServiceCheck(name, services[name], prev[name]);
      if r.Fail? {
        return;
      }
      remaining := remaining - {name};
    }
    return Pass;
  }

  //////////
  // Releases
  //////////

  /** Every service of both releases has an auto-scaling config. */
  predicate ComparableReleases(cur: ReleaseView, prev: ReleaseView)
  {
    Comparable(cur.services, prev.services)
  }

  /** Two releases agree on everything the check compares. */
  ghost predicate SameRelease(cur: ReleaseView, prev: ReleaseView)
    requires ComparableReleases(cur, prev)
  {
    SameStrings(cur.subnets, prev.subnets) && cur.image == prev.image && cur.timeout == prev.timeout &&
    SameServices(cur.services, prev.services)
  }

  /**
   * validateSafeRelease: subnets, then image, then timeout, then the
   * services; the first difference is the error.
   */
  method ValidateSafeReleaseViews(cur: ReleaseView, prev: ReleaseView) returns (r: Outcome<SafeError>)
    requires ComparableReleases(cur, prev)
    ensures r == Pass <==> SameRelease(cur, prev)
    ensures UnorderedDiff(cur.subnets, prev.subnets).Some? ==>
      r == Fail(ReleaseDifferent(Subnets, UnorderedDiff(cur.subnets, prev.subnets).value))
    ensures UnorderedDiff(cur.subnets, prev.subnets).None? && cur.image != prev.image ==>
      r == Fail(ReleaseDifferent(Image, StrDetail(SafeValue(cur.image, prev.image).value)))
    ensures UnorderedDiff(cur.subnets, prev.subnets).None? && cur.image == prev.image && cur.timeout != prev.timeout ==>
      r == Fail(ReleaseDifferent(Timeout, IntDetail(SafeValue(cur.timeout, prev.timeout).value)))
    ensures r.Fail? && !r.error.ReleaseDifferent? ==>
      UnorderedDiff(cur.subnets, prev.subnets).None? && cur.image == prev.image && cur.timeout == prev.timeout
  {
    var subnets := SafeUnorderedStrList(cur.subnets, prev.subnets);
    if subnets.Some? {
      return Fail(ReleaseDifferent(Subnets, subnets.value));
    }
    var image := SafeValue(cur.image, prev.image);
    if image.Some? {
      return Fail(ReleaseDifferent(Image, StrDetail(image.value)));
    }
    var timeout := SafeValue(cur.timeout, prev.timeout);
    if timeout.Some? {
      return Fail(ReleaseDifferent(Timeout, IntDetail(timeout.value)));
    }
    r := ValidateSafeServices(cur.services, prev.services);
    if r.Fail? {
      assert !r.error.ReleaseDifferent?;
    }
  }

  /** A release compared with an identical previous release passes. */
  lemma {:induction false} IdenticalReleaseSafe(v: ReleaseView)
    requires ComparableReleases(v, v)
    ensures SameRelease(v, v)
  {
    UnorderedIgnoresOrderAndDuplicates(v.subnets, v.subnets, "");
    forall n | n in v.services
      ensures SameService(v.services[n], v.services[n])
    {
      var c := v.services[n].config;
      UnorderedIgnoresOrderAndDuplicates(c.securityGroups, c.securityGroups, "");
      UnorderedIgnoresOrderAndDuplicates(c.elbs, c.elbs, "");
      UnorderedIgnoresOrderAndDuplicates(c.targetGroups, c.targetGroups, "");
    }
  }

  /** Two services agree whichever is taken as the previous one. */
  lemma SameServiceSymmetric(s: ServiceView, p: ServiceView)
    requires s.autoscaling.Some? && p.autoscaling.Some?
    ensures SameService(s, p) <==> SameService(p, s)
  {
  }

  /** Two service maps agree whichever is taken as the previous one. */
  lemma {:induction false} SameServicesSymmetric(a: map<string, ServiceView>, b: map<string, ServiceView>)
    requires Comparable(a, b)
    ensures Comparable(b, a)
    ensures SameServices(a, b) <==> SameServices(b, a)
  {
    if SameServices(a, b) {
      SameServicesSameNames(a, b);
      forall n | n in b
        ensures n in a && SameService(b[n], a[n])
      {
        SameServiceSymmetric(a[n], b[n]);
      }
    }
    if SameServices(b, a) {
      SameServicesSameNames(b, a);
      forall n | n in a
        ensures n in b && SameService(a[n], b[n])
      {
        SameServiceSymmetric(b[n], a[n]);
      }
    }
  }

  /** Agreement is symmetric: swapping the requested and previous release gives the same verdict. */
  lemma {:induction false} SameReleaseSymmetric(a: ReleaseView, b: ReleaseView)
    requires ComparableReleases(a, b)
    ensures ComparableReleases(b, a)
    ensures SameRelease(a, b) <==> SameRelease(b, a)
  {
    SameServicesSymmetric(a.services, b.services);
  }

  //////////
  // ValidateSafeRelease
  //////////

  /** The outcome of reading the previous release from the bucket. */
  datatype StoreError = NotFound | StoreFailed(message: string)

  /**
   * The previous release after both SetDefaults calls: a 600-second timeout
   * when absent, and every service's auto-scaling defaults filled against its
   * id and that timeout.
   */
  function PreviousDefaulted(prev: ReleaseView): (r: ReleaseView)
    ensures r.subnets == prev.subnets && r.image == prev.image && r.services.Keys == prev.services.Keys
    ensures r.timeout == Some(prev.timeout.GetOr(Releases.DefaultTimeout))
    ensures forall n :: n in r.services ==> r.services[n].config == prev.services[n].config && r.services[n].autoscaling.Some?
  {
    var timeout := Some(prev.timeout.GetOr(Releases.DefaultTimeout));
    prev.(timeout := timeout,
          services := map n | n in prev.services ::
            var id := Services.ServiceIDOf(prev.projectName, prev.configName, prev.createdAt, Some(n));
            var s := prev.services[n];
            s.(autoscaling := Some(AutoScaling.WithDefaults(s.autoscaling.GetOr(AutoScaling.EmptySettings), id, timeout))))
  }

  /** Every service of the release is present and has an auto-scaling config, as SetDefaults leaves it. */
  predicate ServicesDefaulted(release: Releases.Release)
    reads release, release.ServiceObjects()
  {
    forall n :: n in release.ServiceMap() ==> release.ServiceMap()[n].Some? && release.ServiceMap()[n].value.autoscaling.Some?
  }

  /** The compared parts of a release and of each of its services. */
  function CurrentView(release: Releases.Release): (r: ReleaseView)
    reads release, release.ServiceObjects()
    ensures r.services.Keys == set n | n in release.ServiceMap() && release.ServiceMap()[n].Some?
    ensures r.subnets == release.subnets && r.image == release.image && r.timeout == release.timeout
    ensures ServicesDefaulted(release) ==> forall n :: n in r.services ==> r.services[n].autoscaling.Some?
  {
    var svcs := release.ServiceMap();
    ReleaseView(release.projectName, release.configName, release.createdAt, release.subnets, release.image, release.timeout,
                map n | n in svcs && svcs[n].Some? :: ServiceView(svcs[n].value.config, svcs[n].value.autoscaling))
  }

  /**
   * ValidateSafeRelease, given the release's compared parts (CurrentView),
   * the number of previous groups and the stored previous release: nothing to compare when no group is deployed; a missing
   * previous release and a failed read are errors; otherwise the defaulted
   * previous release is compared.
   */
  method ValidateSafeRelease(cur: ReleaseView, previousASGs: nat, stored: Result<ReleaseView, StoreError>)
    returns (r: Outcome<SafeError>)
    requires forall n :: n in cur.services ==> cur.services[n].autoscaling.Some?
    ensures previousASGs == 0 ==> r == Pass
    ensures previousASGs > 0 && stored == Err(NotFound) ==> r == Fail(PreviousReleaseNotFound)
    ensures previousASGs > 0 && stored.Err? && stored.error.StoreFailed? ==> r == Fail(FetchFailed(stored.error.message))
    ensures previousASGs > 0 && stored.Ok? ==> ComparableReleases(cur, PreviousDefaulted(stored.value))
    ensures previousASGs > 0 && stored.Ok? ==> (r == Pass <==> SameRelease(cur, PreviousDefaulted(stored.value)))
  {
    if previousASGs == 0 {
      return Pass;
    }
    if stored.Err? {
      match stored.error
      case NotFound => return Fail(PreviousReleaseNotFound);
      case StoreFailed(message) => return Fail(FetchFailed(message));
    }
    var prev := PreviousDefaulted(stored.value);
    r := ValidateSafeReleaseViews(cur, prev);
  }
}
