/**
 * The release-wide resource steps: fetching every service's resources with
 * the shared subnets, image and previous groups; validating them; recording
 * their names on the services; creating the services' groups; deciding the
 * release's health; and tearing down old or failed groups.
 */
module ReleaseResources {
  import opened Wrappers
  import opened Text
  import opened Tags
  import Seqs
  import Asg
  import Subnets
  import Ami
  import Resources
  import Instances
  import Services
  import Strategies
  import Releases

  //////////
  // Fetch
  //////////

  /** Why FetchResources fails. */
  datatype FetchError =
    | GroupsDescribeFailed(message: string)
    | AsgsExistForRelease(count: nat)
    | PreviousAsgsFailed(asgError: Asg.AsgError)
    | SubnetsFailed(subnetError: Subnets.SubnetError)
    | ImageFailed(amiError: Ami.AmiError)
    | HooksFailed(message: string)
    | ServiceFetchFailed(name: string, fetchError: Services.FetchError)

  /** What every service shares: the release's subnets and image, and the previous release's group per service. */
  datatype Shared = Shared(subnets: seq<Subnets.Subnet>, image: Option<Ami.Image>, prevASGs: map<string, Asg.ASG>)

  /**
   * The release-wide lookups of FetchResources, in order: the groups must be
   * described; no group may already carry this release's id; the previous
   * groups, one per service; the subnets; the image; the lifecycle hooks'
   * own lookups.
   */
  function SharedLookups(project: Option<string>, config: Option<string>, releaseID: Option<string>, subnetNames: seq<Option<string>>,
                         image: Option<string>, groups: Result<seq<Asg.Group>, string>, subnetsByID: Result<seq<Subnets.AwsSubnet>, string>,
                         subnetsByTag: Result<seq<Subnets.AwsSubnet>, string>, images: Result<seq<Option<Ami.AwsImage>>, string>, hooksFetched: Outcome<string>)
    : (r: Result<Shared, FetchError>)
    ensures groups.Err? ==> r == Err(GroupsDescribeFailed(groups.error))
    ensures groups.Ok? ==> var bad := Seqs.Filter(Asg.ProjectConfigGroups(groups.value, project, config), Asg.WithRelease(releaseID));
      |bad| > 0 ==> r == Err(AsgsExistForRelease(|bad|))
    ensures r.Ok? <==>
      groups.Ok? &&
      |Seqs.Filter(Asg.ProjectConfigGroups(groups.value, project, config), Asg.WithRelease(releaseID))| == 0 &&
      Asg.ServiceMapOf(Seqs.Filter(Asg.ProjectConfigGroups(groups.value, project, config), Asg.WithoutRelease(releaseID))).Ok? &&
      Subnets.Find(Derefs(subnetNames), subnetsByID, subnetsByTag).Ok? && Ami.Find(image, images).Ok? && hooksFetched.Pass?
    ensures r.Ok? ==>
      r.value.prevASGs == Asg.ServiceMapOf(Seqs.Filter(Asg.ProjectConfigGroups(groups.value, project, config), Asg.WithoutRelease(releaseID))).value &&
      r.value.subnets == Subnets.Find(Derefs(subnetNames), subnetsByID, subnetsByTag).value &&
      r.value.image == Ami.Find(image, images).value
  {
    if groups.Err? then Err(GroupsDescribeFailed(groups.error))
    else
    var all := Asg.ProjectConfigGroups(groups.value, project, config);
    var bad := Seqs.Filter(all, Asg.WithRelease(releaseID));
    if |bad| != 0 then Err(AsgsExistForRelease(|bad|))
    else match Asg.ServiceMapOf(Seqs.Filter(all, Asg.WithoutRelease(releaseID)))
      case Err(e) => Err(PreviousAsgsFailed(e))
      case Ok(prev) =>
        match Subnets.Find(Derefs(subnetNames), subnetsByID, subnetsByTag)
        case Err(e) => Err(SubnetsFailed(e))
        case Ok(subnets) =>
          match Ami.Find(image, images)
          case Err(e) => Err(ImageFailed(e))
          case Ok(im) =>
            if hooksFetched.Fail? then Err(HooksFailed(hooksFetched.error)) else Ok(Shared(subnets, im, prev))
  }

  /** One service's resources once the shared ones are added: the shared subnets and image, and the previous group under its own name. */
  function WithShared(sr: Resources.ServiceResources, shared: Shared, name: string): (r: Resources.ServiceResources)
    ensures r.subnets == Services.Somes(shared.subnets) && r.image == shared.image
    ensures r.prevASG == (if name in shared.prevASGs then Some(shared.prevASGs[name]) else None)
    ensures r.securityGroups == sr.securityGroups && r.elbs == sr.elbs && r.targetGroups == sr.targetGroups
    ensures r.profile == sr.profile
  {
    sr.(subnets := Services.Somes(shared.subnets), image := shared.image,
        prevASG := if name in shared.prevASGs then Some(shared.prevASGs[name]) else None)
  }

  /** Every named service's own lookups succeeded. */
  predicate AllFetched(names: set<string>, fetched: map<string, Result<Resources.ServiceResources, Services.FetchError>>)
  {
    forall n :: n in names ==> n in fetched && fetched[n].Ok?
  }

  /** The resources of every named service, each with the shared ones added. */
  function Assembled(names: set<string>, fetched: map<string, Result<Resources.ServiceResources, Services.FetchError>>, shared: Shared)
    : (r: map<string, Resources.ServiceResources>)
    requires AllFetched(names, fetched)
    ensures r.Keys == names
    ensures forall n :: n in r ==> r[n] == WithShared(fetched[n].value, shared, n)
  {
    map n | n in names :: WithShared(fetched[n].value, shared, n)
  }

  /**
   * FetchResources, given the described groups, subnets and images, the
   * outcome of the hooks' lookups and each service's own lookups: the
   * release-wide lookups first, then every service, the first failed lookup
   * being the error.
   */
  method FetchResources(release: Releases.Release, groups: Result<seq<Asg.Group>, string>, subnetsByID: Result<seq<Subnets.AwsSubnet>, string>,
                        subnetsByTag: Result<seq<Subnets.AwsSubnet>, string>, images: Result<seq<Option<Ami.AwsImage>>, string>, hooksFetched: Outcome<string>,
                        fetched: map<string, Result<Resources.ServiceResources, Services.FetchError>>)
    returns (r: Result<map<string, Resources.ServiceResources>, FetchError>)
    requires release.ServiceMap().Keys <= fetched.Keys
    ensures var shared := SharedLookups(release.projectName, release.configName, release.releaseID, release.subnets, release.image,
                                        groups, subnetsByID, subnetsByTag, images, hooksFetched);
      (shared.Err? ==> r == Err(shared.error)) &&
      (shared.Ok? ==> (r.Ok? <==> AllFetched(release.ServiceMap().Keys, fetched))) &&
      (r.Ok? ==> shared.Ok? && AllFetched(release.ServiceMap().Keys, fetched) &&
                 r.value == Assembled(release.ServiceMap().Keys, fetched, shared.value)) &&
      (shared.Ok? && r.Err? ==> exists n :: n in release.ServiceMap() && fetched[n].Err? && r.error == ServiceFetchFailed(n, fetched[n].error))
  {
    ghost var expected := SharedLookups(release.projectName, release.configName, release.releaseID, release.subnets, release.image,
                                        groups, subnetsByID, subnetsByTag, images, hooksFetched);
    if groups.Err? {
      return Err(GroupsDescribeFailed(groups.error));
    }
    var project, config, releaseID := release.projectName, release.configName, release.releaseID;
    var bad := Asg.ForProjectConfigReleaseID(groups.value, project, config, releaseID);
    if |bad| != 0 {
      return Err(AsgsExistForRelease(|bad|));
    }
    var prev := Asg.ForProjectConfigNotReleaseIDServiceMap(groups.value, project, config, releaseID);
    if prev.Err? {
      return Err(PreviousAsgsFailed(prev.error));
    }
    var subnets := Subnets.Find(Derefs(release.subnets), subnetsByID, subnetsByTag);
    if subnets.Err? {
      return Err(SubnetsFailed(subnets.error));
    }
    var im := Ami.Find(release.image, images);
    if im.Err? {
      return Err(ImageFailed(im.error));
    }
    if hooksFetched.Fail? {
      return Err(HooksFailed(hooksFetched.error));
    }
    var shared := Shared(subnets.value, im.value, prev.value);
    assert expected == Ok(shared);
    var names := release.ServiceMap().Keys;
    var resources: map<string, Resources.ServiceResources> := map[];
    var remaining := names;
    while remaining != {}
      invariant remaining <= names && resources.Keys == names - remaining
      invariant forall n :: n in resources ==> fetched[n].Ok? && resources[n] == WithShared(fetched[n].value, shared, n)
      decreases remaining
    {
      var n :| n in remaining;
      if fetched[n].Err? {
        return Err(ServiceFetchFailed(n, fetched[n].error));
      }
      resources := resources[n := WithShared(fetched[n].value, shared, n)];
      remaining := remaining - {n};
    }
    assert AllFetched(names, fetched);
    return Ok(resources);
  }

  /** No service resources are fetched while a group of this release already exists, whatever the other lookups return. */
  lemma ExistingReleaseRefused(project: Option<string>, config: Option<string>, releaseID: Option<string>, subnetNames: seq<Option<string>>,
                               image: Option<string>, groups: seq<Asg.Group>, subnetsByID: Result<seq<Subnets.AwsSubnet>, string>,
                               subnetsByTag: Result<seq<Subnets.AwsSubnet>, string>, images: Result<seq<Option<Ami.AwsImage>>, string>, hooksFetched: Outcome<string>, i: nat)
    requires var all := Asg.ProjectConfigGroups(groups, project, config); i < |all| && HasName(Asg.ReleaseID(all[i]), releaseID)
    ensures SharedLookups(project, config, releaseID, subnetNames, image, Ok(groups), subnetsByID, subnetsByTag, images, hooksFetched).Err?
  {
    var all := Asg.ProjectConfigGroups(groups, project, config);
    assert Asg.WithRelease(releaseID)(all[i]);
    assert all[i] in Seqs.Filter(all, Asg.WithRelease(releaseID));
  }

  //////////
  // Validate
  //////////

  /** Why ValidateResources fails. */
  datatype ValidateError =
    | ResourcesNil(name: string)
    | ResourcesInvalid(name: string, error: Resources.ResourceError)

  /** What the resource checks read of a service. */
  function IdentityOf(st: Services.ServiceState): Resources.Identity
  {
    Resources.Identity(st.release.projectName, st.release.configName, st.serviceName, st.release.releaseID)
  }

  /** The names the service asked for; its subnets are the release's. */
  function RequestedOf(st: Services.ServiceState): Resources.Requested
  {
    Resources.Requested(st.config.securityGroups, st.config.elbs, st.config.targetGroups, st.release.subnets)
  }

  /** The checks can read every name they dereference. */
  predicate Checkable(st: Services.ServiceState, sr: Resources.ServiceResources)
  {
    Resources.ProfileDerefs(IdentityOf(st), sr.profile) && Resources.PrevASGDerefs(IdentityOf(st), sr.prevASG)
  }

  /** The state of the service named `n`, if it is present. */
  function StateAt(svcs: map<string, Option<Services.Service>>, n: string): Option<Services.ServiceState>
    reads Releases.Objects(svcs)
    requires n in svcs
  {
    if svcs[n].Some? then Some(svcs[n].value.State()) else None
  }

  /** The entry for `n`, or none. */
  function Lookup(resources: map<string, Resources.ServiceResources>, n: string): Option<Resources.ServiceResources>
  {
    if n in resources then Some(resources[n]) else None
  }

  /** Found resources belong to a present service whose checks can read what they need. */
  predicate CheckReady(st: Option<Services.ServiceState>, sr: Option<Resources.ServiceResources>)
  {
    sr.Some? ==> st.Some? && Checkable(st.value, sr.value)
  }

  /**
   * One step of ValidateResources: missing resources are an error naming the
   * service; otherwise the first failed check of the service's resources.
   */
  function CheckService(name: string, st: Option<Services.ServiceState>, sr: Option<Resources.ServiceResources>): (r: Outcome<ValidateError>)
    requires CheckReady(st, sr)
    ensures sr.None? ==> r == Fail(ResourcesNil(name))
    ensures r == Pass <==> sr.Some? && Resources.ValidateSpec(sr.value, IdentityOf(st.value), RequestedOf(st.value)) == Pass
  {
    if sr.None? then Fail(ResourcesNil(name))
    else match Resources.ValidateSpec(sr.value, IdentityOf(st.value), RequestedOf(st.value))
      case Pass => Pass
      case Fail(e) => Fail(ResourcesInvalid(name, e))
  }

  /** Every service whose resources were found is present and its checks can read what they need. */
  predicate ValidateReady(svcs: map<string, Option<Services.Service>>, resources: map<string, Resources.ServiceResources>)
    reads Releases.Objects(svcs)
  {
    forall n :: n in svcs ==> CheckReady(StateAt(svcs, n), Lookup(resources, n))
  }

  /**
   * ValidateResources: every service must have resources, and they must pass
   * the service's checks; otherwise the error is the failure of one of them.
   */
  method ValidateResources(release: Releases.Release, resources: map<string, Resources.ServiceResources>)
    returns (r: Outcome<ValidateError>)
    requires ValidateReady(release.ServiceMap(), resources)
    ensures r == Pass <==>
      forall n :: n in release.ServiceMap() ==> CheckService(n, StateAt(release.ServiceMap(), n), Lookup(resources, n)) == Pass
    ensures r.Fail? ==> exists n :: n in release.ServiceMap() && r == CheckService(n, StateAt(release.ServiceMap(), n), Lookup(resources, n))
  {
    var svcs := release.ServiceMap();
    var remaining := svcs.Keys;
    while remaining != {}
      invariant remaining <= svcs.Keys
      invariant forall n :: n in svcs.Keys - remaining ==> CheckService(n, StateAt(svcs, n), Lookup(resources, n)) == Pass
      decreases remaining
    {
      var n :| n in remaining;
      assert CheckReady(StateAt(svcs, n), Lookup(resources, n));
      if n !in resources {
        return Fail(ResourcesNil(n));
      }
      var st := svcs[n].value.State();
      var e := Resources.Validate(resources[n], IdentityOf(st), RequestedOf(st));
      if e.Fail? {
        return Fail(ResourcesInvalid(n, e.error));
      }
      remaining := remaining - {n};
    }
    r := Pass;
  }

  //////////
  // Update
  //////////

  /** ToServiceResourceNames as a value: the ids of what was found. */
  function NamesOf(sr: Resources.ServiceResources): (r: Resources.ServiceResourceNames)
    ensures r.image == (if sr.image.Some? then sr.image.value.imageID else None)
    ensures r.prevASG == (if sr.prevASG.Some? then sr.prevASG.value.autoScalingGroupName else None)
  {
    Resources.ServiceResourceNames(
      if sr.image.Some? then sr.image.value.imageID else None,
      if sr.profile.Some? then sr.profile.value.arn else None,
      if sr.prevASG.Some? then sr.prevASG.value.autoScalingGroupName else None,
      Resources.PresentIds(sr.securityGroups, Resources.SgID),
      Resources.PresentIds(sr.elbs, Resources.ElbName),
      Resources.PresentIds(sr.targetGroups, Resources.TgArn),
      Resources.PresentIds(sr.subnets, Resources.SubnetID))
  }

  /**
   * A service after UpdateWithResources: the previous group's desired
   * capacity when there is a previous group, and the names of its resources.
   */
  function WithResources(st: Services.ServiceState, sr: Resources.ServiceResources): (r: Services.ServiceState)
    ensures r.previousDesiredCapacity == if sr.prevASG.Some? then sr.prevASG.value.desiredCapacity else st.previousDesiredCapacity
    ensures r.resources == Some(NamesOf(sr))
    ensures r.(previousDesiredCapacity := st.previousDesiredCapacity, resources := st.resources) == st
  {
    st.(previousDesiredCapacity := if sr.prevASG.Some? then sr.prevASG.value.desiredCapacity else st.previousDesiredCapacity,
        resources := Some(NamesOf(sr)))
  }

  /** Every service state after UpdateWithResources: those without an entry are skipped. */
  function UpdatedAll(states: map<string, Services.ServiceState>, resources: map<string, Resources.ServiceResources>)
    : (r: map<string, Services.ServiceState>)
    ensures r.Keys == states.Keys
    ensures forall n :: n in r ==> r[n] == if n in resources then WithResources(states[n], resources[n]) else states[n]
  {
    map n | n in states :: if n in resources then WithResources(states[n], resources[n]) else states[n]
  }

  /** Every service with an entry is present. */
  predicate UpdateReady(svcs: map<string, Option<Services.Service>>, resources: map<string, Resources.ServiceResources>)
  {
    forall n :: n in svcs && n in resources ==> svcs[n].Some?
  }

  /** The body of UpdateWithResources' loop for one service with resources. */
  method UpdateService(svc: Services.Service, sr: Resources.ServiceResources)
    modifies svc
    ensures svc.State() == WithResources(old(svc.State()), sr)
  {
    if sr.prevASG.Some? {
      svc.previousDesiredCapacity := sr.prevASG.value.desiredCapacity;
    }
    var names := Resources.ToServiceResourceNames(sr);
    svc.resources := Some(names);
  }

  /** UpdateWithResources: every service with resources takes their names and the previous group's capacity. */
  method UpdateWithResources(release: Releases.Release, resources: map<string, Resources.ServiceResources>)
    requires release.ServicesDistinct() && UpdateReady(release.ServiceMap(), resources)
    modifies release.ServiceObjects()
    ensures Releases.StatesOf(release.ServiceMap()) == UpdatedAll(old(Releases.StatesOf(release.ServiceMap())), resources)
  {
    var svcs := release.ServiceMap();
    var remaining := svcs.Keys;
    while remaining != {}
      invariant remaining <= svcs.Keys
      invariant forall n :: n in svcs && svcs[n].Some? ==>
        svcs[n].value.State() ==
          if n in remaining || n !in resources then old(svcs[n].value.State())
          else WithResources(old(svcs[n].value.State()), resources[n])
      decreases remaining
    {
      var n :| n in remaining;
      if n in resources {
        UpdateService(svcs[n].value, resources[n]);
      }
      remaining := remaining - {n};
    }
    assert Releases.StatesOf(svcs) == UpdatedAll(old(Releases.StatesOf(svcs)), resources);
  }

  //////////
  // Create
  //////////

  /** The outcomes of one service's create calls: launch configuration, group, scaling policies. */
  datatype CreateResults = CreateResults(launchConfig: Outcome<string>, asg: Outcome<string>, policies: Outcome<string>)

  /** The outcome of one service's CreateResources: its first failed call. */
  function FirstFailure(c: CreateResults): (r: Outcome<string>)
    ensures r == Pass <==> c.launchConfig.Pass? && c.asg.Pass? && c.policies.Pass?
    ensures r.Fail? ==> r == c.launchConfig || r == c.asg || r == c.policies
  {
    if c.launchConfig.Fail? then c.launchConfig else if c.asg.Fail? then c.asg else c.policies
  }

  /** A service CreateResources can run on: present, defaulted, with resources and every hook present. */
  predicate CreateReady(svc: Option<Services.Service>)
    reads if svc.Some? then {svc.value} else {}
  {
    svc.Some? && svc.value.autoscaling.Some? && svc.value.resources.Some? && svc.value.HooksPresent()
  }

  /** The body of CreateResources' loop for one service. */
  method CreateService(svc: Services.Service, c: CreateResults) returns (r: Outcome<string>)
    requires svc.autoscaling.Some? && svc.resources.Some? && svc.HooksPresent()
    modifies svc
    ensures svc.State() == old(svc.State()).(createdASG := svc.createdASG, healthReport := svc.healthReport, healthy := svc.healthy)
    ensures r == FirstFailure(c)
    ensures r == Pass ==> svc.createdASG == svc.ServiceID()
  {
    r := svc.CreateResources(c.launchConfig, c.asg, c.policies);
  }

  /**
   * CreateResources, given each service's create outcomes: every service's
   * resources are created in turn, the first failure stopping the loop; on
   * success every service records its group under its service id.
   */
  method CreateResources(release: Releases.Release, results: map<string, CreateResults>) returns (r: Outcome<string>)
    requires release.ServicesDistinct() && release.ServiceMap().Keys <= results.Keys
    requires forall n :: n in release.ServiceMap() ==> CreateReady(release.ServiceMap()[n])
    modifies release.ServiceObjects()
    ensures r == Pass <==> forall n :: n in release.ServiceMap() ==> FirstFailure(results[n]) == Pass
    ensures r.Fail? ==> exists n :: n in release.ServiceMap() && r == FirstFailure(results[n])
    ensures r == Pass ==> forall n :: n in release.ServiceMap() && release.ServiceMap()[n].Some? ==>
      release.ServiceMap()[n].value.createdASG == release.ServiceMap()[n].value.ServiceID()
  {
    var svcs := release.ServiceMap();
    var remaining := svcs.Keys;
    while remaining != {}
      invariant remaining <= svcs.Keys
      invariant forall n :: n in remaining ==> svcs[n].value.State() == old(svcs[n].value.State())
      invariant forall n :: n in svcs.Keys - remaining ==>
        FirstFailure(results[n]) == Pass && svcs[n].value.createdASG == svcs[n].value.ServiceID()
      decreases remaining
    {
      var n :| n in remaining;
      assert CreateReady(svcs[n]);
      r := CreateService(svcs[n].value, results[n]);
      if r.Fail? {
        return;
      }
      remaining := remaining - {n};
    }
    r := Pass;
  }

  //////////
  // Healthy
  //////////

  /** What one service's health check sees: the group's instances and each load balancer's and target group's view. */
  datatype HealthViews = HealthViews(
    asg: Result<Instances.InstanceMap, string>,
    elbs: seq<Result<Instances.InstanceMap, string>>,
    tgs: seq<Result<Instances.InstanceMap, string>>)

  /** A service state UpdateHealthy can run on: defaulted, with one view per load balancer and target group. */
  predicate HealthReady(st: Services.ServiceState, v: HealthViews)
  {
    st.autoscaling.Some? && st.resources.Some? &&
    |v.elbs| == |st.resources.value.elbs| && |v.tgs| == |st.resources.value.targetGroups|
  }

  /** The outcome of the health check of a service in state `st`, under its strategy. */
  function HealthOf(st: Services.ServiceState, v: HealthViews): Outcome<Services.HealthError>
    requires st.autoscaling.Some?
  {
    Services.HealthOutcome(Strategies.Strategy(st.autoscaling.value, st.previousDesiredCapacity), v.asg, v.elbs, v.tgs)
  }

  /** Every lookup of the views succeeded. */
  predicate ViewsOk(v: HealthViews)
  {
    v.asg.Ok? && Services.AllOk(v.elbs) && Services.AllOk(v.tgs)
  }

  /** The group's instances with each load balancer's and then each target group's view merged in. */
  function MergedView(v: HealthViews): Instances.InstanceMap
    requires ViewsOk(v)
  {
    Services.MergeAll(Services.MergeAll(v.asg.value, Services.OkValues(v.elbs)), Services.OkValues(v.tgs))
  }

  /** The health a passing check records for a service in state `st`: its strategy's verdict on the merged view. */
  predicate HealthyOf(st: Services.ServiceState, v: HealthViews)
    requires st.autoscaling.Some? && ViewsOk(v)
  {
    Services.HealthyFor(Strategies.Strategy(st.autoscaling.value, st.previousDesiredCapacity), MergedView(v))
  }

  /** The body of UpdateHealthy's loop for one service: only its health report and health change. */
  method CheckHealth(svc: Services.Service, v: HealthViews) returns (r: Outcome<Services.HealthError>)
    requires HealthReady(svc.State(), v)
    modifies svc
    ensures svc.autoscaling == old(svc.autoscaling) && svc.previousDesiredCapacity == old(svc.previousDesiredCapacity)
    ensures svc.resources == old(svc.resources)
    ensures r == HealthOf(old(svc.State()), v)
    ensures r.Fail? ==> svc.healthy == old(svc.healthy) && svc.healthReport == old(svc.healthReport)
    ensures r == Pass ==> ViewsOk(v) && svc.healthy == HealthyOf(old(svc.State()), v)
    ensures r == Pass ==> svc.healthReport == Some(Services.Report(old(svc.Strategy()), MergedView(v)))
  {
    r := svc.UpdateHealthy(v.asg, v.elbs, v.tgs);
  }

  /** Every service state's health check passes. */
  predicate AllPass(states: map<string, Services.ServiceState>, views: map<string, HealthViews>)
  {
    forall n :: n in states ==> n in views && states[n].autoscaling.Some? && HealthOf(states[n], views[n]) == Pass
  }

  /** `r` is the outcome of some service state's health check. */
  predicate FailsWith(states: map<string, Services.ServiceState>, views: map<string, HealthViews>, r: Outcome<Services.HealthError>)
  {
    exists n :: n in states && n in views && states[n].autoscaling.Some? && r == HealthOf(states[n], views[n])
  }

  /** Every service state's check would record it as healthy. */
  predicate AllHealthyOf(states: map<string, Services.ServiceState>, views: map<string, HealthViews>)
  {
    forall n :: n in states ==> n in views && states[n].autoscaling.Some? && ViewsOk(views[n]) && HealthyOf(states[n], views[n])
  }

  /** Every present service is healthy. */
  predicate AllHealthy(svcs: map<string, Option<Services.Service>>)
    reads Releases.Objects(svcs)
  {
    forall n :: n in svcs && svcs[n].Some? ==> svcs[n].value.healthy
  }

  /** No service object appears under two names. */
  predicate Distinct(svcs: map<string, Option<Services.Service>>)
  {
    forall a, b :: a in svcs && b in svcs && a != b && svcs[a].Some? && svcs[b].Some? ==> svcs[a].value != svcs[b].value
  }

  /** The services under `names` are still in their given states. */
  predicate Unchecked(svcs: map<string, Option<Services.Service>>, states: map<string, Services.ServiceState>, names: set<string>)
    reads Releases.Objects(svcs)
  {
    forall n :: n in names ==> n in svcs && n in states && svcs[n].Some? && svcs[n].value.State() == states[n]
  }

  /** The health a check of state `st` records when it passes; false when it cannot pass. */
  predicate VerdictOf(st: Services.ServiceState, v: HealthViews)
  {
    st.autoscaling.Some? && ViewsOk(v) && HealthyOf(st, v)
  }

  /** The checks of the states under `names` pass. */
  predicate Passed(states: map<string, Services.ServiceState>, views: map<string, HealthViews>, names: set<string>)
  {
    forall n :: n in names ==>
      n in states && n in views && states[n].autoscaling.Some? && HealthOf(states[n], views[n]) == Pass && ViewsOk(views[n])
  }

  /** The services under `names` hold the health their check recorded. */
  predicate Recorded(svcs: map<string, Option<Services.Service>>, states: map<string, Services.ServiceState>,
                     views: map<string, HealthViews>, names: set<string>)
    reads Releases.Objects(svcs)
  {
    forall n :: n in names ==>
      n in svcs && n in states && n in views && svcs[n].Some? && svcs[n].value.healthy == VerdictOf(states[n], views[n])
  }

  /** Every check under `names` recorded healthy. */
  predicate VerdictsHold(states: map<string, Services.ServiceState>, views: map<string, HealthViews>, names: set<string>)
  {
    forall n :: n in names ==> n in states && n in views && VerdictOf(states[n], views[n])
  }

  /** One turn of UpdateHealthy's loop: the service under `n` is checked and its verdict joins the conjunction. */
  method CheckNext(svcs: map<string, Option<Services.Service>>, views: map<string, HealthViews>,
                   ghost states: map<string, Services.ServiceState>, ghost remaining: set<string>, n: string, healthy: bool)
    returns (r: Outcome<Services.HealthError>, healthy': bool)
    requires Distinct(svcs) && n in remaining && remaining <= svcs.Keys && n in views
    requires Unchecked(svcs, states, remaining) && HealthReady(states[n], views[n])
    requires Passed(states, views, svcs.Keys - remaining) && Recorded(svcs, states, views, svcs.Keys - remaining)
    requires healthy <==> VerdictsHold(states, views, svcs.Keys - remaining)
    modifies svcs[n].value
    ensures r == HealthOf(states[n], views[n])
    ensures Unchecked(svcs, states, remaining - {n})
    ensures r == Pass ==> Passed(states, views, svcs.Keys - (remaining - {n}))
    ensures r == Pass ==> Recorded(svcs, states, views, svcs.Keys - (remaining - {n}))
    ensures r == Pass ==> (healthy' <==> VerdictsHold(states, views, svcs.Keys - (remaining - {n})))
  {
    var svc := svcs[n].value;
    ghost var done := svcs.Keys - remaining;
    assert svcs.Keys - (remaining - {n}) == done + {n};
    r := CheckHealth(svc, views[n]);
    healthy' := healthy && svc.healthy;
    forall m | m in remaining - {n}
      ensures svcs[m].value.State() == states[m]
    {
      assert svcs[m].value != svc;
    }
    if r == Pass {
      PassedStep(states, views, done, n);
      forall m | m in done + {n}
        ensures svcs[m].value.healthy == VerdictOf(states[m], views[m])
      {
        if m != n {
          assert svcs[m].value != svc;
        }
      }
    }
  }

  /** A passing check of the state under `n` extends the passed checks and adds its verdict to the conjunction. */
  lemma PassedStep(states: map<string, Services.ServiceState>, views: map<string, HealthViews>, done: set<string>, n: string)
    requires Passed(states, views, done)
    requires n in states && n in views && states[n].autoscaling.Some? && HealthOf(states[n], views[n]) == Pass && ViewsOk(views[n])
    ensures Passed(states, views, done + {n})
    ensures VerdictsHold(states, views, done + {n}) == (VerdictsHold(states, views, done) && VerdictOf(states[n], views[n]))
  {
  }

  /** Once every service has passed and recorded its verdict, all pass, and all are healthy exactly when every verdict is. */
  lemma CheckedAll(svcs: map<string, Option<Services.Service>>, states: map<string, Services.ServiceState>,
                   views: map<string, HealthViews>)
    requires svcs.Keys == states.Keys
    requires Passed(states, views, svcs.Keys) && Recorded(svcs, states, views, svcs.Keys)
    ensures AllPass(states, views)
    ensures AllHealthy(svcs) == VerdictsHold(states, views, svcs.Keys)
    ensures AllHealthyOf(states, views) == VerdictsHold(states, views, svcs.Keys)
  {
  }

  /** UpdateHealthy's loop itself: it stops at the first failed check, naming the service; otherwise every service passed and recorded its verdict. */
  method CheckLoop(svcs: map<string, Option<Services.Service>>, views: map<string, HealthViews>,
                   ghost states: map<string, Services.ServiceState>, ghost objects: set<Services.Service>)
    returns (r: Outcome<Services.HealthError>, healthy: bool, ghost failed: string)
    requires Distinct(svcs) && svcs.Keys == states.Keys && svcs.Keys <= views.Keys
    requires forall n :: n in svcs ==> svcs[n].Some? && svcs[n].value in objects && svcs[n].value.State() == states[n]
    requires forall n :: n in states ==> HealthReady(states[n], views[n])
    modifies objects
    ensures r.Fail? ==> failed in states && failed in views && states[failed].autoscaling.Some?
    ensures r.Fail? ==> r == HealthOf(states[failed], views[failed])
    ensures r == Pass ==> Passed(states, views, svcs.Keys) && Recorded(svcs, states, views, svcs.Keys)
    ensures r == Pass ==> (healthy <==> VerdictsHold(states, views, svcs.Keys))
  {
    r, healthy, failed := Pass, true, "";
    var remaining := svcs.Keys;
    while remaining != {}
      invariant remaining <= svcs.Keys && r == Pass
      invariant Unchecked(svcs, states, remaining)
      invariant Passed(states, views, svcs.Keys - remaining) && Recorded(svcs, states, views, svcs.Keys - remaining)
      invariant healthy <==> VerdictsHold(states, views, svcs.Keys - remaining)
      decreases remaining
    {
      var n :| n in remaining;
      r, healthy := CheckNext(svcs, views, states, remaining, n, healthy);
      if r.Fail? {
        failed := n;
        return;
      }
      remaining := remaining - {n};
    }
    assert svcs.Keys - remaining == svcs.Keys;
  }

  /** UpdateHealthy's loop: every service's health is checked in turn, the first failure stopping it. */
  method CheckAll(svcs: map<string, Option<Services.Service>>, views: map<string, HealthViews>,
                  ghost states: map<string, Services.ServiceState>, ghost objects: set<Services.Service>)
    returns (r: Outcome<Services.HealthError>, healthy: bool)
    requires Distinct(svcs) && svcs.Keys == states.Keys && svcs.Keys <= views.Keys
    requires forall n :: n in svcs ==> svcs[n].Some? && svcs[n].value in objects && svcs[n].value.State() == states[n]
    requires forall n :: n in states ==> HealthReady(states[n], views[n])
    modifies objects
    ensures r == Pass <==> AllPass(states, views)
    ensures r.Fail? ==> FailsWith(states, views, r)
    ensures r == Pass ==> healthy == AllHealthy(svcs)
    ensures r == Pass ==> healthy == AllHealthyOf(states, views)
  {
    ghost var failed;
    r, healthy, failed := CheckLoop(svcs, views, states, objects);
    if r == Pass {
      CheckedAll(svcs, states, views);
    }
  }

  /**
   * UpdateHealthy, given each service's views: every service's health is
   * updated in turn; the first failure stops the loop and leaves the release's
   * health as it was; otherwise the release is healthy exactly when every
   * service is.
   */
  method UpdateHealthy(release: Releases.Release, views: map<string, HealthViews>) returns (r: Outcome<Services.HealthError>)
    requires release.ServicesDistinct() && release.ServiceMap().Keys <= views.Keys
    requires forall n :: n in release.ServiceMap() ==> release.ServiceMap()[n].Some?
    requires forall n :: n in release.ServiceMap() ==> HealthReady(release.ServiceMap()[n].value.State(), views[n])
    modifies release, release.ServiceObjects()
    ensures release.State() == old(release.State()).(healthy := release.healthy)
    ensures r.Fail? ==> release.healthy == old(release.healthy)
    ensures r == Pass ==> release.healthy == Some(AllHealthy(release.ServiceMap()))
    ensures r == Pass ==> release.healthy == Some(AllHealthyOf(old(Releases.StatesOf(release.ServiceMap())), views))
    ensures r == Pass <==> AllPass(old(Releases.StatesOf(release.ServiceMap())), views)
    ensures r.Fail? ==> FailsWith(old(Releases.StatesOf(release.ServiceMap())), views, r)
  {
    var healthy;
    r, healthy := CheckAll(release.ServiceMap(), views, Releases.StatesOf(release.ServiceMap()), release.ServiceObjects());
    if r == Pass {
      release.healthy := Some(healthy);
    }
  }

  //////////
  // Teardown
  //////////

  /** Why a teardown stops. */
  datatype TearDownError =
    | BadProject
    | BadConfig
    | BadReleaseID
    | NilReleaseID
    | TeardownFailed(message: string)

  /**
   * The teardown loop over groups, given a guard and the outcome of tearing
   * each group down: the groups torn down before the first refusal or
   * failure, and that refusal or failure.
   */
  function TearDownAll(asgs: seq<Asg.ASG>, guard: Asg.ASG -> Option<TearDownError>, teardown: Asg.ASG -> Outcome<string>)
    : (r: (seq<Asg.ASG>, Outcome<TearDownError>))
    ensures |r.0| <= |asgs| && r.0 == asgs[..|r.0|]
    ensures forall a :: a in r.0 ==> guard(a).None? && teardown(a).Pass?
    ensures r.1 == Pass <==> r.0 == asgs
    ensures r.1.Fail? ==> |r.0| < |asgs|
    ensures r.1.Fail? && guard(asgs[|r.0|]).Some? ==> r.1.error == guard(asgs[|r.0|]).value
    ensures r.1.Fail? && guard(asgs[|r.0|]).None? ==>
      teardown(asgs[|r.0|]).Fail? && r.1.error == TeardownFailed(teardown(asgs[|r.0|]).error)
    decreases |asgs|
  {
    if asgs == [] then ([], Pass)
    else if guard(asgs[0]).Some? then ([], Fail(guard(asgs[0]).value))
    else if teardown(asgs[0]).Fail? then ([], Fail(TeardownFailed(teardown(asgs[0]).error)))
    else
      var rest := TearDownAll(asgs[1..], guard, teardown);
      assert forall a :: a in rest.0 ==> a in asgs[1..];
      ([asgs[0]] + rest.0, rest.1)
  }

  /** The loop itself: each group in turn is checked, then torn down. */
  method TearDown(asgs: seq<Asg.ASG>, guard: Asg.ASG -> Option<TearDownError>, teardown: Asg.ASG -> Outcome<string>)
    returns (tornDown: seq<Asg.ASG>, r: Outcome<TearDownError>)
    ensures (tornDown, r) == TearDownAll(asgs, guard, teardown)
  {
    tornDown := [];
    TearDownStart(asgs, guard, teardown);
    for i := 0 to |asgs|
      invariant tornDown == asgs[..i]
      invariant TearDownAll(asgs, guard, teardown) == TearDownStep(asgs, i, guard, teardown)
    {
      var a := asgs[i];
      TearDownUnfold(asgs, i, guard, teardown);
      if guard(a).Some? {
        return tornDown, Fail(guard(a).value);
      }
      if teardown(a).Fail? {
        return tornDown, Fail(TeardownFailed(teardown(a).error));
      }
      tornDown := tornDown + [a];
    }
    TearDownUnfold(asgs, |asgs|, guard, teardown);
    r := Pass;
  }

  /** The outcome of the loop when the first `i` groups passed and were torn down. */
  function TearDownStep(asgs: seq<Asg.ASG>, i: nat, guard: Asg.ASG -> Option<TearDownError>, teardown: Asg.ASG -> Outcome<string>)
    : (seq<Asg.ASG>, Outcome<TearDownError>)
    requires i <= |asgs|
  {
    var rest := TearDownAll(asgs[i..], guard, teardown);
    (asgs[..i] + rest.0, rest.1)
  }

  /** Before the loop nothing is torn down yet. */
  lemma TearDownStart(asgs: seq<Asg.ASG>, guard: Asg.ASG -> Option<TearDownError>, teardown: Asg.ASG -> Outcome<string>)
    ensures TearDownStep(asgs, 0, guard, teardown) == TearDownAll(asgs, guard, teardown)
  {
    assert asgs[0..] == asgs;
    var r := TearDownAll(asgs, guard, teardown);
    assert asgs[..0] + r.0 == r.0;
  }

  /** Unfolding one step of the loop at position `i`. */
  lemma TearDownUnfold(asgs: seq<Asg.ASG>, i: nat, guard: Asg.ASG -> Option<TearDownError>, teardown: Asg.ASG -> Outcome<string>)
    requires i <= |asgs|
    ensures i == |asgs| ==> TearDownStep(asgs, i, guard, teardown) == (asgs, Pass)
    ensures i < |asgs| ==>
      var a := asgs[i];
      TearDownStep(asgs, i, guard, teardown) ==
        if guard(a).Some? then (asgs[..i], Fail(guard(a).value))
        else if teardown(a).Fail? then (asgs[..i], Fail(TeardownFailed(teardown(a).error)))
        else TearDownStep(asgs, i + 1, guard, teardown)
  {
    if i < |asgs| {
      var a := asgs[i];
      assert asgs[i..][0] == a && asgs[i..][1..] == asgs[i + 1..];
      var rest := TearDownAll(asgs[i + 1..], guard, teardown);
      if guard(a).Some? {
        assert TearDownAll(asgs[i..], guard, teardown) == ([], Fail(guard(a).value));
        assert asgs[..i] + [] == asgs[..i];
      } else if teardown(a).Fail? {
        assert TearDownAll(asgs[i..], guard, teardown) == ([], Fail(TeardownFailed(teardown(a).error)));
        assert asgs[..i] + [] == asgs[..i];
      } else {
        assert TearDownAll(asgs[i..], guard, teardown) == ([a] + rest.0, rest.1);
        assert asgs[..i] + ([a] + rest.0) == asgs[..i + 1] + rest.0;
      }
    } else {
      assert asgs[i..] == [] && asgs[..i] == asgs;
      assert TearDownAll(asgs[i..], guard, teardown) == ([], Pass);
      assert asgs[..i] + [] == asgs;
    }
  }

  /** The guards of SuccessfulTearDown as written: the group's release id is compared without a nil check. */
  function SuccessfulGuardAsWritten(project: string, config: string, releaseID: string): Asg.ASG -> Option<TearDownError>
  {
    (a: Asg.ASG) =>
      if a.projectNameTag != Some(project) then Some(BadProject)
      else if a.configNameTag != Some(config) then Some(BadConfig)
      else if Asg.ReleaseID(a).None? then Some(NilReleaseID)
      else if Asg.ReleaseID(a).value == releaseID then Some(BadReleaseID)
      else None
  }

  /** The guards of SuccessfulTearDown with the nil check UnsuccessfulTearDown has: a group without a release id is refused. */
  function SuccessfulGuard(project: string, config: string, releaseID: string): Asg.ASG -> Option<TearDownError>
  {
    (a: Asg.ASG) =>
      if a.projectNameTag != Some(project) then Some(BadProject)
      else if a.configNameTag != Some(config) then Some(BadConfig)
      else if Asg.ReleaseID(a).None? || Asg.ReleaseID(a).value == releaseID then Some(BadReleaseID)
      else None
  }

  /** The guards of UnsuccessfulTearDown: same project and config, and this release's id. */
  function UnsuccessfulGuard(project: string, config: string, releaseID: string): Asg.ASG -> Option<TearDownError>
  {
    (a: Asg.ASG) =>
      if a.projectNameTag != Some(project) then Some(BadProject)
      else if a.configNameTag != Some(config) then Some(BadConfig)
      else if Asg.ReleaseID(a).None? then Some(NilReleaseID)
      else if Asg.ReleaseID(a).value != releaseID then Some(BadReleaseID)
      else None
  }

  /** The groups of every other release of the project and config. */
  function OtherReleases(groups: seq<Asg.Group>, project: string, config: string, releaseID: string): seq<Asg.ASG>
  {
    Seqs.Filter(Asg.ProjectConfigGroups(groups, Some(project), Some(config)), Asg.WithoutRelease(Some(releaseID)))
  }

  /** The groups of this release of the project and config. */
  function ThisRelease(groups: seq<Asg.Group>, project: string, config: string, releaseID: string): seq<Asg.ASG>
  {
    Seqs.Filter(Asg.ProjectConfigGroups(groups, Some(project), Some(config)), Asg.WithRelease(Some(releaseID)))
  }

  /** The release names its project, config and id. */
  predicate Identified(release: Releases.Release)
    reads release
  {
    release.projectName.Some? && release.configName.Some? && release.releaseID.Some?
  }

  /**
   * SuccessfulTearDown as written, given the described groups and the
   * outcome of each teardown: every other release's group is checked and torn
   * down in turn; a group with no release id reaches the comparison that
   * dereferences it.
   */
  method SuccessfulTearDownAsWritten(release: Releases.Release, groups: seq<Asg.Group>, teardown: Asg.ASG -> Outcome<string>)
    returns (tornDown: seq<Asg.ASG>, r: Outcome<TearDownError>)
    requires Identified(release)
    ensures var p, c, id := release.projectName.value, release.configName.value, release.releaseID.value;
      (tornDown, r) == TearDownAll(OtherReleases(groups, p, c, id), SuccessfulGuardAsWritten(p, c, id), teardown)
  {
    var p, c, id := release.projectName.value, release.configName.value, release.releaseID.value;
    var asgs := Asg.ForProjectConfigNOTReleaseID(groups, Some(p), Some(c), Some(id));
    tornDown, r := TearDown(asgs, SuccessfulGuardAsWritten(p, c, id), teardown);
  }

  /**
   * SuccessfulTearDown: every other release's group is checked and torn down
   * in turn; a group without a release id is refused like one of this release.
   */
  method SuccessfulTearDown(release: Releases.Release, groups: seq<Asg.Group>, teardown: Asg.ASG -> Outcome<string>)
    returns (tornDown: seq<Asg.ASG>, r: Outcome<TearDownError>)
    requires Identified(release)
    ensures var p, c, id := release.projectName.value, release.configName.value, release.releaseID.value;
      (tornDown, r) == TearDownAll(OtherReleases(groups, p, c, id), SuccessfulGuard(p, c, id), teardown)
    ensures forall a :: a in tornDown ==>
      a.projectNameTag == release.projectName && a.configNameTag == release.configName &&
      Asg.ReleaseID(a).Some? && Asg.ReleaseID(a) != release.releaseID
  {
    var p, c, id := release.projectName.value, release.configName.value, release.releaseID.value;
    var asgs := Asg.ForProjectConfigNOTReleaseID(groups, Some(p), Some(c), Some(id));
    tornDown, r := TearDown(asgs, SuccessfulGuard(p, c, id), teardown);
  }

  /**
   * UnsuccessfulTearDown: this release's groups are checked and torn down in
   * turn; only groups of this release are ever torn down.
   */
  method UnsuccessfulTearDown(release: Releases.Release, groups: seq<Asg.Group>, teardown: Asg.ASG -> Outcome<string>)
    returns (tornDown: seq<Asg.ASG>, r: Outcome<TearDownError>)
    requires Identified(release)
    ensures var p, c, id := release.projectName.value, release.configName.value, release.releaseID.value;
      (tornDown, r) == TearDownAll(ThisRelease(groups, p, c, id), UnsuccessfulGuard(p, c, id), teardown)
    ensures forall a :: a in tornDown ==>
      a.projectNameTag == release.projectName && a.configNameTag == release.configName && Asg.ReleaseID(a) == release.releaseID
  {
    var p, c, id := release.projectName.value, release.configName.value, release.releaseID.value;
    var asgs := Asg.ForProjectConfigReleaseID(groups, Some(p), Some(c), Some(id));
    tornDown, r := TearDown(asgs, UnsuccessfulGuard(p, c, id), teardown);
  }

  /** Every group the teardown sees belongs to the project and config, so only the teardowns themselves can fail. */
  lemma {:induction false} UnsuccessfulGuardsNeverFire(groups: seq<Asg.Group>, p: string, c: string, id: string, teardown: Asg.ASG -> Outcome<string>)
    ensures var r := TearDownAll(ThisRelease(groups, p, c, id), UnsuccessfulGuard(p, c, id), teardown);
      r.1.Fail? ==> r.1.error.TeardownFailed?
    ensures (forall a :: teardown(a).Pass?) ==>
      TearDownAll(ThisRelease(groups, p, c, id), UnsuccessfulGuard(p, c, id), teardown) == (ThisRelease(groups, p, c, id), Pass)
  {
    var asgs := ThisRelease(groups, p, c, id);
    var r := TearDownAll(asgs, UnsuccessfulGuard(p, c, id), teardown);
    if r.1.Fail? {
      var a := asgs[|r.0|];
      InFilteredGroup(groups, p, c, Some(id), Asg.WithRelease(Some(id)), a);
      assert Asg.WithRelease(Some(id))(a);
    }
  }

  /**
   * In SuccessfulTearDown the project and config guards never fire; every
   * refusal is about the release id, and a group with a release id other than
   * this one is torn down.
   */
  lemma {:induction false} SuccessfulGuardsOnReleaseID(groups: seq<Asg.Group>, p: string, c: string, id: string, teardown: Asg.ASG -> Outcome<string>)
    ensures var r := TearDownAll(OtherReleases(groups, p, c, id), SuccessfulGuard(p, c, id), teardown);
      r.1.Fail? ==> r.1.error.TeardownFailed? || (r.1.error == BadReleaseID && Asg.ReleaseID(OtherReleases(groups, p, c, id)[|r.0|]).None?)
  {
    var asgs := OtherReleases(groups, p, c, id);
    var r := TearDownAll(asgs, SuccessfulGuard(p, c, id), teardown);
    if r.1.Fail? {
      var a := asgs[|r.0|];
      InFilteredGroup(groups, p, c, Some(id), Asg.WithoutRelease(Some(id)), a);
      assert Asg.WithoutRelease(Some(id))(a);
    }
  }

  /** A group the release filters keep is tagged with the project and config, and passes the filter. */
  lemma InFilteredGroup(groups: seq<Asg.Group>, p: string, c: string, id: Option<string>, keep: Asg.ASG -> bool, a: Asg.ASG)
    requires a in Seqs.Filter(Asg.ProjectConfigGroups(groups, Some(p), Some(c)), keep)
    ensures a.projectNameTag == Some(p) && a.configNameTag == Some(c) && keep(a)
  {
    assert a in Asg.ProjectConfigGroups(groups, Some(p), Some(c));
    assert Asg.InProjectConfig(Some(p), Some(c))(a);
  }

  /** A live group of the project and config with no release tag at all. */
  function UntaggedGroup(p: string, c: string): Asg.Group
  {
    Asg.Group([Tag(Some("ProjectName"), Some(p)), Tag(Some("ConfigName"), Some(c))], None, Some("old"), None, [], [], None, None, [])
  }

  /**
   * The discrepancy: a group of the project and config without a release id
   * is kept by the filter for other releases and then reaches the release id
   * comparison, which dereferences it; with the nil check it is refused.
   */
  lemma UntaggedGroupReachesComparison(p: string, c: string, id: string, teardown: Asg.ASG -> Outcome<string>)
    ensures TearDownAll(OtherReleases([UntaggedGroup(p, c)], p, c, id), SuccessfulGuardAsWritten(p, c, id), teardown) ==
            ([], Fail(NilReleaseID))
    ensures TearDownAll(OtherReleases([UntaggedGroup(p, c)], p, c, id), SuccessfulGuard(p, c, id), teardown) ==
            ([], Fail(BadReleaseID))
  {
    var a := Asg.NewASG(UntaggedGroup(p, c));
    UntaggedGroupKept(p, c, id);
    assert SuccessfulGuardAsWritten(p, c, id)(a) == Some(NilReleaseID);
    assert SuccessfulGuard(p, c, id)(a) == Some(BadReleaseID);
  }

  /** The untagged group's record carries the project and config and no release id. */
  lemma UntaggedGroupTags(p: string, c: string)
    ensures var a := Asg.NewASG(UntaggedGroup(p, c));
      a.projectNameTag == Some(p) && a.configNameTag == Some(c) && Asg.ReleaseID(a).None?
  {
    var g := UntaggedGroup(p, c);
    assert FetchTag(g.tags, Some("ProjectName")) == Some(p);
    assert FetchTag(g.tags, Some("ConfigName")) == Some(c);
    assert FetchTag(g.tags, Some("ReleaseID")).None?;
    assert FetchTag(g.tags, Some("ReleaseId")).None?;
  }

  /** The filter for other releases keeps the untagged group. */
  lemma UntaggedGroupKept(p: string, c: string, id: string)
    ensures var a := Asg.NewASG(UntaggedGroup(p, c));
      OtherReleases([UntaggedGroup(p, c)], p, c, id) == [a]
      && a.projectNameTag == Some(p) && a.configNameTag == Some(c) && Asg.ReleaseID(a).None?
  {
    var g := UntaggedGroup(p, c);
    var a := Asg.NewASG(g);
    UntaggedGroupTags(p, c);
    Seqs.FilterKeepsOne(g, Asg.Live);
    assert Asg.NewASGs([g]) == [a] by {
      assert [g][..0] == [];
    }
    assert Asg.InProjectConfig(Some(p), Some(c))(a);
    Seqs.FilterKeepsOne(a, Asg.InProjectConfig(Some(p), Some(c)));
    assert Asg.WithoutRelease(Some(id))(a);
    Seqs.FilterKeepsOne(a, Asg.WithoutRelease(Some(id)));
  }
}
