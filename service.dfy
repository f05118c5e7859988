/**
 * A service of a release: its id and user data, the defaults it fills, its
 * validation, the create requests for its group and launch configuration,
 * and its health as seen through its group, load balancers and target
 * groups.
 */
module Services {
  import opened Wrappers
  import opened Text
  import opened Instances
  import AutoScaling
  import Strategies
  import Lifecycle
  import Resources
  import SecurityGroups
  import TargetGroups
  import AsgInput
  import LaunchConfig
  import Sets
  import Encoding

  /** A release creation time: seconds, and its RFC 3339 rendering in UTC. */
  datatype Timestamp = Timestamp(unix: int, rfc3339: string)

  /** What a service reads of its release. */
  datatype ReleaseInfo = ReleaseInfo(
    projectName: Option<string>,
    configName: Option<string>,
    releaseID: Option<string>,
    uuid: Option<string>,
    createdAt: Option<Timestamp>,
    subnets: seq<Option<string>>,
    lifeCycleHooks: map<string, Option<Lifecycle.HookSpecification>>,
    timeout: Option<int>)

  const NoRelease := ReleaseInfo(None, None, None, None, None, [], map[], None)

  /** The service's settings from the release file that the deployer only reads. */
  datatype ServiceConfig = ServiceConfig(
    elbs: seq<Option<string>>,
    profile: Option<string>,
    targetGroups: seq<Option<string>>,
    securityGroups: seq<Option<string>>,
    tags: map<string, Option<string>>,
    instanceType: Option<string>,
    ebsVolumeSize: Option<int>,
    ebsVolumeType: Option<string>,
    ebsDeviceName: Option<string>,
    associatePublicIpAddress: Option<bool>)

  /**
   * ServiceID: `project-config-time-service`, the creation time in RFC 3339
   * with every ':' turned into '-'; none when any part is missing.
   */
  function ServiceIDOf(project: Option<string>, config: Option<string>, createdAt: Option<Timestamp>, name: Option<string>)
    : (r: Option<string>)
    ensures r.Some? <==> project.Some? && config.Some? && createdAt.Some? && name.Some?
    ensures r.Some? ==>
      var prefix := project.value + "-" + config.value + "-";
      var time := createdAt.value.rfc3339;
      |r.value| == |prefix| + |time| + 1 + |name.value| &&
      HasPrefix(r.value, prefix) &&
      r.value[|r.value| - |name.value| - 1..] == "-" + name.value &&
      forall i :: |prefix| <= i < |prefix| + |time| ==> r.value[i] != ':' && (time[i - |prefix|] != ':' ==> r.value[i] == time[i - |prefix|])
  {
    if project.None? || config.None? || name.None? || createdAt.None? then None
    else
      var prefix := project.value + "-" + config.value + "-";
      var tf := ReplaceChar(createdAt.value.rfc3339, ':', '-');
      var id := prefix + tf + "-" + name.value;
      assert id[..|prefix|] == prefix;
      assert id[|id| - |name.value| - 1..] == "-" + name.value;
      Some(id)
  }

  /** The two ':' of an RFC 3339 time of day become '-'. */
  lemma TimeColonsReplaced(date: string, mm: string, ss: string)
    requires ':' !in date && ':' !in mm && ':' !in ss
    ensures ReplaceChar(date + ":" + mm + ":" + ss, ':', '-') == date + "-" + mm + "-" + ss
  {
    ReplaceCharAppend(date + ":" + mm + ":", ss, ':', '-');
    ReplaceCharAppend(date + ":" + mm, ":", ':', '-');
    ReplaceCharAppend(date + ":", mm, ':', '-');
    ReplaceCharAppend(date, ":", ':', '-');
    assert ReplaceChar(":", ':', '-') == "-";
    ReplaceCharAbsent(date, ':', '-');
    ReplaceCharAbsent(mm, ':', '-');
    ReplaceCharAbsent(ss, ':', '-');
  }

  /**
   * The id for a creation time rendered `date:mm:ss`, as in the repository's
   * example where the zero time gives `project-config-0001-01-01T00-00-00Z-service`.
   */
  lemma ServiceIDFormat(p: string, c: string, date: string, mm: string, ss: string, unix: int, n: string)
    requires ':' !in date && ':' !in mm && ':' !in ss
    ensures ServiceIDOf(Some(p), Some(c), Some(Timestamp(unix, date + ":" + mm + ":" + ss)), Some(n)) ==
            Some(p + "-" + c + "-" + date + "-" + mm + "-" + ss + "-" + n)
  {
    TimeColonsReplaced(date, mm, ss);
    var pre := p + "-" + c + "-";
    assert pre + (date + "-" + mm + "-" + ss) + "-" + n == pre + date + "-" + mm + "-" + ss + "-" + n;
  }

  /** The id grows with every part: a long service name gives an id longer than any fixed limit. */
  lemma ServiceIDLength(project: string, config: string, time: Timestamp, name: string)
    ensures ServiceIDOf(Some(project), Some(config), Some(time), Some(name)).Some?
    ensures |ServiceIDOf(Some(project), Some(config), Some(time), Some(name)).value| ==
            |project| + |config| + |time.rfc3339| + |name| + 3
  {
  }

  /** The first pair, in argument order, whose placeholder starts `s`. */
  function FirstMatch(s: string, pairs: seq<(string, string)>): (r: Option<nat>)
    ensures r.Some? ==> r.value < |pairs| && HasPrefix(s, pairs[r.value].0) &&
                        forall k :: 0 <= k < r.value ==> !HasPrefix(s, pairs[k].0)
    ensures r.None? <==> forall k :: 0 <= k < |pairs| ==> !HasPrefix(s, pairs[k].0)
  {
    if pairs == [] then None
    else if HasPrefix(s, pairs[0].0) then Some(0)
    else
      match FirstMatch(s, pairs[1..]) {
        case None => None
        case Some(j) => Some(j + 1)
      }
  }

  predicate NonEmptyOlds(pairs: seq<(string, string)>)
  {
    forall j :: 0 <= j < |pairs| ==> |pairs[j].0| > 0
  }

  /**
   * `strings.NewReplacer(old1, new1, ...).Replace(s)`: scanning left to right,
   * at each position the first placeholder in argument order that starts
   * there is replaced; the inserted text is not scanned again.
   */
  function Replace(s: string, pairs: seq<(string, string)>): string
    requires NonEmptyOlds(pairs)
    decreases |s|
  {
    if s == [] then []
    else
      match FirstMatch(s, pairs) {
        case Some(j) => pairs[j].1 + Replace(s[|pairs[j].0|..], pairs)
        case None => [s[0]] + Replace(s[1..], pairs)
      }
  }

  /** Two placeholders that differ somewhere within both: neither can be a prefix where the other starts. */
  predicate Diverge(a: string, b: string)
  {
    exists i :: 0 <= i < |a| && i < |b| && a[i] != b[i]
  }

  lemma DivergeNotPrefix(a: string, b: string, rest: string)
    requires Diverge(a, b)
    ensures !HasPrefix(b + rest, a)
  {
    var i :| 0 <= i < |a| && i < |b| && a[i] != b[i];
    if |a| <= |b + rest| {
      assert (b + rest)[..|a|][i] == b[i];
    }
  }

  /** A placeholder at the front that no earlier one can match is replaced by its value, and scanning resumes after it. */
  lemma ReplacePlaceholder(j: nat, rest: string, pairs: seq<(string, string)>)
    requires NonEmptyOlds(pairs) && j < |pairs|
    requires forall k :: 0 <= k < j ==> Diverge(pairs[k].0, pairs[j].0)
    ensures Replace(pairs[j].0 + rest, pairs) == pairs[j].1 + Replace(rest, pairs)
  {
    var s := pairs[j].0 + rest;
    forall k | 0 <= k < j ensures !HasPrefix(s, pairs[k].0) {
      DivergeNotPrefix(pairs[k].0, pairs[j].0, rest);
    }
    assert HasPrefix(s, pairs[j].0);
    assert s[|pairs[j].0|..] == rest;
  }

  /** A character that starts no placeholder is copied. */
  lemma ReplaceCopies(c: char, rest: string, pairs: seq<(string, string)>)
    requires NonEmptyOlds(pairs)
    requires forall k :: 0 <= k < |pairs| ==> pairs[k].0[0] != c
    ensures Replace([c] + rest, pairs) == [c] + Replace(rest, pairs)
  {
    var s := [c] + rest;
    forall k | 0 <= k < |pairs| ensures !HasPrefix(s, pairs[k].0) {
      var p := pairs[k].0;
      if |p| <= |s| {
        assert s[..|p|][0] != p[0];
      }
    }
    assert s[1..] == rest;
  }

  const ReleaseIDKey := "{{RELEASE_ID}}"
  const ProjectNameKey := "{{PROJECT_NAME}}"
  const ConfigNameKey := "{{CONFIG_NAME}}"
  const ServiceNameKey := "{{SERVICE_NAME}}"

  /** The user-data template arguments, nil values rendered as "". */
  function Placeholders(releaseID: Option<string>, project: Option<string>, config: Option<string>, service: Option<string>)
    : (r: seq<(string, string)>)
    ensures NonEmptyOlds(r) && |r| == 4
    ensures forall k :: 0 <= k < |r| ==> r[k].0[0] == '{'
    ensures forall k, j :: 0 <= k < j < |r| ==> Diverge(r[k].0, r[j].0)
  {
    var r := [(ReleaseIDKey, Deref(releaseID)), (ProjectNameKey, Deref(project)),
              (ConfigNameKey, Deref(config)), (ServiceNameKey, Deref(service))];
    assert ReleaseIDKey[2] == 'R' && ProjectNameKey[2] == 'P' && ConfigNameKey[2] == 'C' && ServiceNameKey[2] == 'S';
    r
  }

  /** One placeholder line: the value, the newline, then the rest replaced. */
  lemma ReplaceLine(j: nat, rest: string, pairs: seq<(string, string)>)
    requires NonEmptyOlds(pairs) && j < |pairs|
    requires forall k :: 0 <= k < |pairs| ==> pairs[k].0[0] == '{'
    requires forall k :: 0 <= k < j ==> Diverge(pairs[k].0, pairs[j].0)
    ensures Replace(pairs[j].0 + ("\n" + rest), pairs) == pairs[j].1 + ("\n" + Replace(rest, pairs))
  {
    ReplacePlaceholder(j, "\n" + rest, pairs);
    ReplaceCopies('\n', rest, pairs);
  }

  /** Text with no '{' passes through a replacer whose placeholders all start with '{'. */
  lemma {:induction false} ReplaceNoBrace(s: string, pairs: seq<(string, string)>)
    requires NonEmptyOlds(pairs)
    requires forall k :: 0 <= k < |pairs| ==> pairs[k].0[0] == '{'
    requires forall i :: 0 <= i < |s| ==> s[i] != '{'
    ensures Replace(s, pairs) == s
    decreases |s|
  {
    if s != [] {
      ReplaceCopies(s[0], s[1..], pairs);
      assert [s[0]] + s[1..] == s;
      ReplaceNoBrace(s[1..], pairs);
    }
  }

  /** The user data of the repository's example: each placeholder line becomes its value. */
  lemma UserDataCase(releaseID: string, project: string, config: string)
    ensures var ps := Placeholders(Some(releaseID), Some(project), Some(config), Some("web"));
      Replace(ReleaseIDKey + ("\n" + (ProjectNameKey + ("\n" + (ConfigNameKey + ("\n" + (ServiceNameKey + ("\n" + []))))))), ps) ==
      releaseID + ("\n" + (project + ("\n" + (config + ("\n" + ("web" + ("\n" + [])))))))
  {
    var ps := Placeholders(Some(releaseID), Some(project), Some(config), Some("web"));
    var t3 := ServiceNameKey + ("\n" + []);
    var t2 := ConfigNameKey + ("\n" + t3);
    var t1 := ProjectNameKey + ("\n" + t2);
    ReplaceLine(3, [], ps);
    ReplaceLine(2, t3, ps);
    ReplaceLine(1, t2, ps);
    ReplaceLine(0, t1, ps);
  }

  /** The health report behind the deploy log lines. */
  datatype HealthReport = HealthReport(
    targetHealthy: int,
    targetLaunched: int,
    healthy: nat,
    launching: nat,
    terminating: nat,
    terminatingIDs: set<string>)

  function Report(st: Strategies.Strategy, instances: InstanceMap): HealthReport
  {
    HealthReport(
      Strategies.TargetHealthy(st), Strategies.TargetCapacity(st),
      |IdsWith(instances, Healthy)|, |instances|, |IdsWith(instances, Terminating)|, IdsWith(instances, Terminating))
  }

  /** The service is healthy when at least the healthy target of its instances are healthy. */
  predicate HealthyFor(st: Strategies.Strategy, instances: InstanceMap)
  {
    |IdsWith(instances, Healthy)| >= Strategies.TargetHealthy(st)
  }

  /** A healthy service has at least its minimum size of healthy instances. */
  lemma HealthyMeetsMinSize(st: Strategies.Strategy, instances: InstanceMap)
    requires HealthyFor(st, instances)
    ensures |IdsWith(instances, Healthy)| >= Strategies.MinSizeInt(st)
  {
  }

  /** The instance map after merging each view in turn. */
  function MergeAll(all: InstanceMap, views: seq<InstanceMap>): InstanceMap
  {
    if views == [] then all else Merged(MergeAll(all, views[..|views| - 1]), views[|views| - 1])
  }

  /** Merging views never adds instances, never promotes one to healthy, and never revives a terminating one. */
  lemma {:induction false} MergeAllDemotes(all: InstanceMap, views: seq<InstanceMap>)
    ensures MergeAll(all, views).Keys == all.Keys
    ensures IdsWith(MergeAll(all, views), Healthy) <= IdsWith(all, Healthy)
    ensures IdsWith(all, Terminating) <= IdsWith(MergeAll(all, views), Terminating)
  {
    if views != [] {
      var front := MergeAll(all, views[..|views| - 1]);
      MergeAllDemotes(all, views[..|views| - 1]);
      MergeMonotone(front, views[|views| - 1]);
    }
  }

  /** Healthy after merging the load balancer views implies healthy on the group's view alone. */
  lemma HealthyAfterMergeHealthyBefore(st: Strategies.Strategy, all: InstanceMap, views: seq<InstanceMap>)
    requires HealthyFor(st, MergeAll(all, views))
    ensures HealthyFor(st, all)
  {
    MergeAllDemotes(all, views);
    Sets.CardinalityMonotone(IdsWith(MergeAll(all, views), Healthy), IdsWith(all, Healthy));
  }

  predicate AllOk(views: seq<Result<InstanceMap, string>>)
  {
    forall i :: 0 <= i < |views| ==> views[i].Ok?
  }

  function OkValues(views: seq<Result<InstanceMap, string>>): (r: seq<InstanceMap>)
    requires AllOk(views)
    ensures |r| == |views| && forall i :: 0 <= i < |views| ==> r[i] == views[i].value
  {
    seq(|views|, i requires 0 <= i < |views| => views[i].value)
  }

  /** The error of the first view that failed. */
  function FirstError(views: seq<Result<InstanceMap, string>>): (e: string)
    requires !AllOk(views)
    ensures exists i :: 0 <= i < |views| && views[i] == Err(e) && forall k :: 0 <= k < i ==> views[k].Ok?
  {
    if views[0].Err? then views[0].error
    else
      assert forall i :: 1 <= i < |views| ==> views[1..][i - 1] == views[i];
      var e := FirstError(views[1..]);
      var i :| 0 <= i < |views[1..]| && views[1..][i] == Err(e) && forall k :: 0 <= k < i ==> views[1..][k].Ok?;
      assert views[i + 1] == Err(e);
      e
  }

  lemma {:induction false} FirstErrorAt(views: seq<Result<InstanceMap, string>>, i: nat)
    requires i < |views| && views[i].Err? && forall k :: 0 <= k < i ==> views[k].Ok?
    ensures FirstError(views) == views[i].error
  {
    if i > 0 {
      assert forall k :: 0 <= k < i - 1 ==> views[1..][k] == views[k + 1];
      FirstErrorAt(views[1..], i - 1);
    }
  }

  datatype HealthError = FetchFailed(message: string) | Halt(terminating: set<string>)

  /** Why a service is rejected. */
  datatype ServiceError =
    | ServiceNameEmpty
    | InstanceTypeEmpty
    | AutoscalingNil
    | AutoscalingInvalid(configError: AutoScaling.ConfigError)
    | SecurityGroupsMissing
    | SecurityGroupsNotUnique
    | ELBsNotUnique
    | TargetGroupsNotUnique
    | LifeCycleNil(name: string)
    | LifeCycleInvalid(hookError: Lifecycle.HookError)

  /** Every hook of the release is present and valid. */
  predicate HooksValid(hooks: map<string, Option<Lifecycle.HookSpecification>>)
  {
    forall n :: n in hooks ==> hooks[n].Some? && Lifecycle.HookValid(hooks[n].value)
  }

  const FixedTagKeys: set<string> := {"ProjectName", "ConfigName", "ServiceName", "ReleaseID", "ReleaseUUID", "Name"}

  /** The identity tags as a map from key to value. */
  function IdentityValues(release: ReleaseInfo, serviceName: Option<string>, id: Option<string>): (m: map<string, Option<string>>)
    ensures m.Keys == FixedTagKeys
  {
    map["ProjectName" := release.projectName, "ConfigName" := release.configName, "ServiceName" := serviceName,
        "ReleaseID" := release.releaseID, "ReleaseUUID" := release.uuid, "Name" := id]
  }

  /** The tags after the six identity upserts of createInput, in their order. */
  function IdentityTagged(tags: seq<AsgInput.AsgTag>, release: ReleaseInfo, serviceName: Option<string>, id: Option<string>)
    : seq<AsgInput.AsgTag>
  {
    var t1 := AsgInput.Upserted(tags, "ProjectName", release.projectName);
    var t2 := AsgInput.Upserted(t1, "ConfigName", release.configName);
    var t3 := AsgInput.Upserted(t2, "ServiceName", serviceName);
    var t4 := AsgInput.Upserted(t3, "ReleaseID", release.releaseID);
    var t5 := AsgInput.Upserted(t4, "ReleaseUUID", release.uuid);
    AsgInput.Upserted(t5, "Name", id)
  }

  /** The value of any key after one upsert. */
  lemma UpsertedAt(tags: seq<AsgInput.AsgTag>, key: string, value: Option<string>, k: string)
    ensures AsgInput.TagValue(AsgInput.Upserted(tags, key, value), k) ==
            if k == key then Some(value) else AsgInput.TagValue(tags, k)
  {
    if k == key {
      AsgInput.UpsertedLookup(tags, key, value, key + "-");
    } else {
      AsgInput.UpsertedLookup(tags, key, value, k);
    }
  }

  /** One more of the user's tags added: it now has its value, and the tags already added keep theirs. */
  lemma UserTagAdded(t: seq<AsgInput.AsgTag>, tags: map<string, Option<string>>, remaining: set<string>, key: string)
    requires key in remaining && remaining <= tags.Keys
    requires forall k :: AsgInput.TagValue(t, k) == if k in tags && k !in remaining then Some(tags[k]) else None
    ensures forall k :: AsgInput.TagValue(AsgInput.Upserted(t, key, tags[key]), k) ==
                        if k in tags && k !in remaining - {key} then Some(tags[k]) else None
  {
    forall k ensures AsgInput.TagValue(AsgInput.Upserted(t, key, tags[key]), k) ==
                     if k in tags && k !in remaining - {key} then Some(tags[k]) else None {
      UpsertedAt(t, key, tags[key], k);
    }
  }

  /** The identity tags carry the release's identity whatever the user's tags said, and every other tag is kept. */
  lemma IdentityTaggedLookup(tags: seq<AsgInput.AsgTag>, release: ReleaseInfo, serviceName: Option<string>, id: Option<string>)
    requires AsgInput.KeysUnique(tags)
    ensures AsgInput.KeysUnique(IdentityTagged(tags, release, serviceName, id))
    ensures forall k :: AsgInput.TagValue(IdentityTagged(tags, release, serviceName, id), k) ==
                        if k in FixedTagKeys then Some(IdentityValues(release, serviceName, id)[k]) else AsgInput.TagValue(tags, k)
  {
    var t1 := AsgInput.Upserted(tags, "ProjectName", release.projectName);
    var t2 := AsgInput.Upserted(t1, "ConfigName", release.configName);
    var t3 := AsgInput.Upserted(t2, "ServiceName", serviceName);
    var t4 := AsgInput.Upserted(t3, "ReleaseID", release.releaseID);
    var t5 := AsgInput.Upserted(t4, "ReleaseUUID", release.uuid);
    AsgInput.UpsertedKeysUnique(tags, "ProjectName", release.projectName);
    AsgInput.UpsertedKeysUnique(t1, "ConfigName", release.configName);
    AsgInput.UpsertedKeysUnique(t2, "ServiceName", serviceName);
    AsgInput.UpsertedKeysUnique(t3, "ReleaseID", release.releaseID);
    AsgInput.UpsertedKeysUnique(t4, "ReleaseUUID", release.uuid);
    AsgInput.UpsertedKeysUnique(t5, "Name", id);
    forall k
      ensures AsgInput.TagValue(IdentityTagged(tags, release, serviceName, id), k) ==
              if k in FixedTagKeys then Some(IdentityValues(release, serviceName, id)[k]) else AsgInput.TagValue(tags, k)
    {
      IdentityTaggedAt(tags, release, serviceName, id, k);
    }
  }

  lemma IdentityTaggedAt(tags: seq<AsgInput.AsgTag>, release: ReleaseInfo, serviceName: Option<string>, id: Option<string>, k: string)
    ensures AsgInput.TagValue(IdentityTagged(tags, release, serviceName, id), k) ==
            if k in FixedTagKeys then Some(IdentityValues(release, serviceName, id)[k]) else AsgInput.TagValue(tags, k)
  {
    var t1 := AsgInput.Upserted(tags, "ProjectName", release.projectName);
    var t2 := AsgInput.Upserted(t1, "ConfigName", release.configName);
    var t3 := AsgInput.Upserted(t2, "ServiceName", serviceName);
    var t4 := AsgInput.Upserted(t3, "ReleaseID", release.releaseID);
    var t5 := AsgInput.Upserted(t4, "ReleaseUUID", release.uuid);
    UpsertedAt(tags, "ProjectName", release.projectName, k);
    UpsertedAt(t1, "ConfigName", release.configName, k);
    UpsertedAt(t2, "ServiceName", serviceName, k);
    UpsertedAt(t3, "ReleaseID", release.releaseID, k);
    UpsertedAt(t4, "ReleaseUUID", release.uuid, k);
    UpsertedAt(t5, "Name", id, k);
  }

  const PlaceholderSubnet := "place_holder"

  const PlaceholderResources :=
    Resources.ServiceResourceNames(None, None, None, [], [], [], [PlaceholderSubnet])

  /** What the service fetch reports when a lookup fails. */
  datatype FetchError =
    | SecurityGroupsFailed(sgError: SecurityGroups.SgError)
    | ELBsFailed(message: string)
    | TargetGroupsFailed(tgError: TargetGroups.TgError)
    | ProfileFailed(message: string)

  function Somes<T>(s: seq<T>): (r: seq<Option<T>>)
    ensures |r| == |s| && forall i :: 0 <= i < |s| ==> r[i] == Some(s[i])
  {
    seq(|s|, i requires 0 <= i < |s| => Some(s[i]))
  }

  /** `Service`: filled in by SetDefaults, then by the deploy as resources are found, created and checked. */
  class Service {
    var release: ReleaseInfo
    var userdata: Option<string>
    var serviceName: Option<string>
    var config: ServiceConfig
    var autoscaling: Option<AutoScaling.Settings>
    var resources: Option<Resources.ServiceResourceNames>
    var createdASG: Option<string>
    var previousDesiredCapacity: Option<int>
    var healthReport: Option<HealthReport>
    var healthy: bool

    /** A service as the release file describes it, before SetDefaults. */
    constructor (config: ServiceConfig, autoscaling: Option<AutoScaling.Settings>)
      ensures this.config == config && this.autoscaling == autoscaling
      ensures release == NoRelease && userdata.None? && serviceName.None? && resources.None?
      ensures createdASG.None? && previousDesiredCapacity.None? && healthReport.None? && !healthy
    {
      this.config, this.autoscaling := config, autoscaling;
      release, userdata, serviceName, resources := NoRelease, None, None, None;
      createdASG, previousDesiredCapacity, healthReport, healthy := None, None, None, false;
    }

    function State(): ServiceState
      reads this
    {
      ServiceState(release, userdata, serviceName, config, autoscaling, resources, createdASG, previousDesiredCapacity,
                   healthReport, healthy)
    }

    function ServiceID(): Option<string>
      reads this
    {
      ServiceIDOf(release.projectName, release.configName, release.createdAt, serviceName)
    }

    function Identity(): Resources.Identity
      reads this
    {
      Resources.Identity(release.projectName, release.configName, serviceName, release.releaseID)
    }

    /** UserData: the template with the release id, project, config and service name filled in. */
    function UserData(): string
      reads this
    {
      Replace(Deref(userdata), Placeholders(release.releaseID, release.projectName, release.configName, serviceName))
    }

    method SetUserData(data: Option<string>)
      modifies this
      ensures userdata == data
      ensures release == old(release) && serviceName == old(serviceName) && config == old(config)
      ensures autoscaling == old(autoscaling) && resources == old(resources) && createdASG == old(createdASG)
      ensures previousDesiredCapacity == old(previousDesiredCapacity)
      ensures healthReport == old(healthReport) && healthy == old(healthy)
    {
      userdata := data;
    }

    function Strategy(): Strategies.Strategy
      reads this
      requires autoscaling.Some?
    {
      Strategies.Strategy(autoscaling.value, previousDesiredCapacity)
    }

    /** SubnetIds: the recorded subnet ids joined with commas. */
    function SubnetIds(): string
      reads this
      requires resources.Some?
    {
      Join(resources.value.subnets, ",")
    }

    /** Every hook of the release is present (the specifications are built from each hook). */
    predicate HooksPresent()
      reads this
    {
      forall n :: n in release.lifeCycleHooks ==> release.lifeCycleHooks[n].Some?
    }

    /** LifeCycleHookSpecs: the specification of every hook of the release. */
    function LifeCycleHookSpecs(): (r: set<Lifecycle.HookSpecification>)
      reads this
      ensures forall n :: n in release.lifeCycleHooks && release.lifeCycleHooks[n].Some? ==> release.lifeCycleHooks[n].value in r
      ensures forall s :: s in r ==> exists n :: n in release.lifeCycleHooks && release.lifeCycleHooks[n] == Some(s)
    {
      set n | n in release.lifeCycleHooks && release.lifeCycleHooks[n].Some? :: release.lifeCycleHooks[n].value
    }

    /**
     * SetDefaults: remembers the release and the name, creates an empty
     * auto-scaling config and placeholder resources when absent, and fills
     * the auto-scaling defaults with the service id and the release timeout.
     */
    method SetDefaults(release: ReleaseInfo, name: string)
      modifies this
      ensures this.release == release && serviceName == Some(name)
      ensures autoscaling == Some(AutoScaling.WithDefaults(old(autoscaling).GetOr(AutoScaling.EmptySettings), ServiceID(), release.timeout))
      ensures resources == (if old(resources).None? then Some(PlaceholderResources) else old(resources))
      ensures ServiceID().Some? <==> release.projectName.Some? && release.configName.Some? && release.createdAt.Some?
      ensures ServiceID().Some? ==> AutoScaling.PoliciesNamed(autoscaling.value.policies)
      ensures userdata == old(userdata) && config == old(config) && createdASG == old(createdASG)
      ensures previousDesiredCapacity == old(previousDesiredCapacity)
      ensures healthReport == old(healthReport) && healthy == old(healthy)
      ensures State() == Defaulted(old(State()), release, name)
    {
      this.release := release;
      serviceName := Some(name);
      var current := if autoscaling.None? then AutoScaling.EmptySettings else autoscaling.value;
      if resources.None? {
        resources := Some(PlaceholderResources);
      }
      autoscaling := Some(AutoScaling.WithDefaults(current, ServiceID(), release.timeout));
      StampedPoliciesNamed(current, ServiceID(), release.timeout);
    }

    /** setHealthy: the report for these instances, and healthy exactly when enough of them are. */
    method SetHealthy(instances: InstanceMap)
      requires autoscaling.Some?
      modifies this
      ensures release == old(release) && userdata == old(userdata) && serviceName == old(serviceName)
      ensures config == old(config) && autoscaling == old(autoscaling) && resources == old(resources)
      ensures createdASG == old(createdASG) && previousDesiredCapacity == old(previousDesiredCapacity)
      ensures healthReport == Some(Report(Strategy(), instances))
      ensures healthy <==> HealthyFor(Strategy(), instances)
      ensures healthy ==> |IdsWith(instances, Healthy)| >= Strategies.MinSizeInt(Strategy())
    {
      var st := Strategy();
      healthReport := Some(Report(st, instances));
      healthy := |IdsWith(instances, Healthy)| >= Strategies.TargetHealthy(st);
    }

    /**
     * UpdateHealthy, given the group's instances and each load balancer's
     * and target group's view of them: fails on the first failed lookup,
     * halts when more instances are terminating than tolerated, and
     * otherwise records the health of the merged view.
     */
    method UpdateHealthy(asgView: Result<InstanceMap, string>,
                         elbViews: seq<Result<InstanceMap, string>>, tgViews: seq<Result<InstanceMap, string>>)
      returns (r: Outcome<HealthError>)
      requires autoscaling.Some? && resources.Some?
      requires |elbViews| == |resources.value.elbs| && |tgViews| == |resources.value.targetGroups|
      modifies this
      ensures release == old(release) && userdata == old(userdata) && serviceName == old(serviceName)
      ensures config == old(config) && autoscaling == old(autoscaling) && resources == old(resources)
      ensures createdASG == old(createdASG) && previousDesiredCapacity == old(previousDesiredCapacity)
      ensures asgView.Err? ==> r == Fail(FetchFailed(asgView.error))
      ensures asgView.Ok? && |IdsWith(asgView.value, Terminating)| > Strategies.MaxTermsInt(Strategy()) ==>
        r == Fail(Halt(IdsWith(asgView.value, Terminating)))
      ensures r == Pass <==>
        asgView.Ok? && |IdsWith(asgView.value, Terminating)| <= Strategies.MaxTermsInt(Strategy()) &&
        AllOk(elbViews) && AllOk(tgViews)
      ensures (asgView.Ok? && |IdsWith(asgView.value, Terminating)| <= Strategies.MaxTermsInt(Strategy()) &&
               !AllOk(elbViews)) ==> r == Fail(FetchFailed(FirstError(elbViews)))
      ensures (asgView.Ok? && |IdsWith(asgView.value, Terminating)| <= Strategies.MaxTermsInt(Strategy()) &&
               AllOk(elbViews) && !AllOk(tgViews)) ==> r == Fail(FetchFailed(FirstError(tgViews)))
      ensures r.Fail? ==> healthReport == old(healthReport) && healthy == old(healthy)
      ensures r == Pass ==>
        var merged := MergeAll(MergeAll(asgView.value, OkValues(elbViews)), OkValues(tgViews));
        healthReport == Some(Report(Strategy(), merged)) && healthy == HealthyFor(Strategy(), merged)
      ensures r == HealthOutcome(Strategy(), asgView, elbViews, tgViews)
    {
      if asgView.Err? {
        return Fail(FetchFailed(asgView.error));
      }
      var all := asgView.value;
      var terming := IdsWith(all, Terminating);
      if |terming| > Strategies.MaxTermsInt(Strategy()) {
        return Fail(Halt(terming));
      }
      var afterElbs := MergeViews(all, elbViews);
      if afterElbs.Err? {
        return Fail(FetchFailed(afterElbs.error));
      }
      var afterTgs := MergeViews(afterElbs.value, tgViews);
      if afterTgs.Err? {
        return Fail(FetchFailed(afterTgs.error));
      }
      SetHealthy(afterTgs.value);
      r := Pass;
    }

    /** One of UpdateHealthy's loops: each view merged in turn, stopping at the first failed lookup. */
    static method MergeViews(all: InstanceMap, views: seq<Result<InstanceMap, string>>) returns (r: Result<InstanceMap, string>)
      ensures r.Ok? <==> AllOk(views)
      ensures r.Ok? ==> r.value == MergeAll(all, OkValues(views))
      ensures r.Err? ==> r.error == FirstError(views)
    {
      var merged := all;
      for i := 0 to |views|
        invariant AllOk(views[..i])
        invariant merged == MergeAll(all, OkValues(views[..i]))
      {
        if views[i].Err? {
          FirstErrorAt(views, i);
          return Err(views[i].error);
        }
        assert OkValues(views[..i + 1])[..i] == OkValues(views[..i]);
        merged := Merged(merged, views[i].value);
      }
      assert views[..|views|] == views;
      r := Ok(merged);
    }

    /**
     * ValidateAttributes: a name, an instance type, a valid auto-scaling
     * config, at least one security group, and no nil or repeated security
     * group, load balancer or target group.
     */
    function ValidateAttributes(): (r: Outcome<ServiceError>)
      reads this
      requires autoscaling.Some? ==> AutoScaling.PoliciesNamed(autoscaling.value.policies)
      ensures r == Pass <==>
        !EmptyStr(serviceName) && !EmptyStr(config.instanceType) && autoscaling.Some? &&
        AutoScaling.Check(autoscaling.value) == Pass && |config.securityGroups| >= 1 &&
        UniqueStrp(config.securityGroups) && UniqueStrp(config.elbs) && UniqueStrp(config.targetGroups)
      ensures (!EmptyStr(serviceName) && !EmptyStr(config.instanceType) && autoscaling.Some? &&
               AutoScaling.Check(autoscaling.value).Fail?) ==> r == Fail(AutoscalingInvalid(AutoScaling.Check(autoscaling.value).error))
    {
      if EmptyStr(serviceName) then Fail(ServiceNameEmpty)
      else if EmptyStr(config.instanceType) then Fail(InstanceTypeEmpty)
      else if autoscaling.None? then Fail(AutoscalingNil)
      else if AutoScaling.Check(autoscaling.value).Fail? then Fail(AutoscalingInvalid(AutoScaling.Check(autoscaling.value).error))
      else if |config.securityGroups| < 1 then Fail(SecurityGroupsMissing)
      else if !UniqueStrp(config.securityGroups) then Fail(SecurityGroupsNotUnique)
      else if !UniqueStrp(config.elbs) then Fail(ELBsNotUnique)
      else if !UniqueStrp(config.targetGroups) then Fail(TargetGroupsNotUnique)
      else Pass
    }

    /** Validate: the attributes, then every lifecycle hook of the release, visited in map order. */
    method Validate() returns (r: Outcome<ServiceError>)
      requires autoscaling.Some? ==> AutoScaling.PoliciesNamed(autoscaling.value.policies)
      ensures r == Pass <==> ValidateAttributes() == Pass && HooksValid(release.lifeCycleHooks)
      ensures ValidateAttributes().Fail? ==> r == ValidateAttributes()
      ensures ValidateAttributes() == Pass && r.Fail? ==>
        exists n :: n in release.lifeCycleHooks &&
          ((release.lifeCycleHooks[n].None? && r == Fail(LifeCycleNil(n))) ||
           (release.lifeCycleHooks[n].Some? && Lifecycle.ValidateHook(release.lifeCycleHooks[n].value).Fail? &&
            r == Fail(LifeCycleInvalid(Lifecycle.ValidateHook(release.lifeCycleHooks[n].value).error))))
    {
      r := ValidateAttributes();
      if r.Fail? {
        return;
      }
      var hooks := release.lifeCycleHooks;
      var remaining := hooks.Keys;
      while remaining != {}
        invariant remaining <= hooks.Keys
        invariant forall n :: n in hooks && n !in remaining ==> hooks[n].Some? && Lifecycle.HookValid(hooks[n].value)
        decreases remaining
      {
        var n :| n in remaining;
        if hooks[n].None? {
          return Fail(LifeCycleNil(n));
        }
        var check := Lifecycle.ValidateHook(hooks[n].value);
        if check.Fail? {
          return Fail(LifeCycleInvalid(check.error));
        }
        remaining := remaining - {n};
      }
      r := Pass;
    }

    /**
     * FetchResources, given the describe responses: the security groups,
     * load balancers and target groups by name, and the instance profile
     * when one is named; the first failed lookup is the error.
     */
    method FetchResources(sgOutput: Result<seq<SecurityGroups.AwsSecurityGroup>, string>,
                          elbResult: Result<seq<Resources.LoadBalancer>, string>,
                          tgLookups: seq<TargetGroups.Lookup>,
                          profileResult: Result<Resources.Profile, string>)
      returns (r: Result<Resources.ServiceResources, FetchError>)
      requires |tgLookups| == |config.targetGroups|
      ensures sgOutput.Err? ==> r == Err(SecurityGroupsFailed(SecurityGroups.DescribeFailed(sgOutput.error)))
      ensures r.Ok? <==>
        sgOutput.Ok? && SecurityGroups.FindResult(Derefs(config.securityGroups), SecurityGroups.NewSGsOf(sgOutput.value)).Ok? &&
        elbResult.Ok? && TargetGroups.AllFound(Derefs(config.targetGroups), tgLookups) &&
        (config.profile.None? || profileResult.Ok?)
      ensures r.Ok? ==>
        |r.value.securityGroups| == |config.securityGroups| && |r.value.targetGroups| == |config.targetGroups| &&
        r.value.elbs == Somes(elbResult.value) &&
        r.value.profile == (if config.profile.Some? then Some(profileResult.value) else None) &&
        r.value.image.None? && r.value.prevASG.None? && r.value.subnets == []
      ensures r.Ok? ==>
        r.value.securityGroups ==
          Somes(SecurityGroups.FindResult(Derefs(config.securityGroups), SecurityGroups.NewSGsOf(sgOutput.value)).value)
      ensures r.Ok? ==> forall i :: 0 <= i < |config.targetGroups| ==>
        r.value.targetGroups[i] == Some(TargetGroups.Find(Derefs(config.targetGroups)[i], tgLookups[i]).value)
    {
      var sgs := SecurityGroups.Find(Derefs(config.securityGroups), sgOutput);
      if sgs.Err? {
        return Err(SecurityGroupsFailed(sgs.error));
      }
      if elbResult.Err? {
        return Err(ELBsFailed(elbResult.error));
      }
      var tgs := TargetGroups.FindAll(Derefs(config.targetGroups), tgLookups);
      if tgs.Err? {
        return Err(TargetGroupsFailed(tgs.error));
      }
      var profile: Option<Resources.Profile> := None;
      if config.profile.Some? {
        if profileResult.Err? {
          return Err(ProfileFailed(profileResult.error));
        }
        profile := Some(profileResult.value);
      }
      r := Ok(Resources.ServiceResources(None, profile, None, Somes(sgs.value), Somes(elbResult.value), Somes(tgs.value), []));
    }

    /**
     * createInput: the group request named after the service id, sized from
     * the auto-scaling config and the strategy's launch target, attached to
     * the recorded load balancers, target groups and subnets, carrying the
     * release's hooks and the user tags overridden by the identity tags,
     * then defaulted.
     */
    method CreateInput() returns (input: AsgInput.Input)
      requires autoscaling.Some? && resources.Some? && HooksPresent()
      ensures fresh(input)
      ensures input.autoScalingGroupName == ServiceID() && input.launchConfigurationName == ServiceID()
      ensures input.minSize == Some(autoscaling.value.minSize.GetOr(1))
      ensures input.maxSize == Some(autoscaling.value.maxSize.GetOr(1))
      ensures input.defaultCooldown == Some(autoscaling.value.defaultCooldown.GetOr(300))
      ensures input.healthCheckGracePeriod == Some(autoscaling.value.healthCheckGracePeriod.GetOr(300))
      ensures input.desiredCapacity == Some(Strategies.TargetCapacity(Strategy()))
      ensures input.loadBalancerNames == resources.value.elbs && input.targetGroupARNs == resources.value.targetGroups
      ensures input.healthCheckType == Some(if |resources.value.elbs| > 0 || |resources.value.targetGroups| > 0 then "ELB" else "EC2")
      ensures input.terminationPolicies == [AsgInput.DefaultTerminationPolicy]
      ensures input.vpcZoneIdentifier == Some(SubnetIds())
      ensures input.lifecycleHookSpecifications == LifeCycleHookSpecs()
      ensures AsgInput.KeysUnique(input.tags)
      ensures forall k :: k in FixedTagKeys ==>
                AsgInput.TagValue(input.tags, k) == Some(IdentityValues(release, serviceName, ServiceID())[k])
      ensures forall k :: k !in FixedTagKeys ==>
                AsgInput.TagValue(input.tags, k) == if k in config.tags then Some(config.tags[k]) else None
    {
      input := NewInput(ServiceID(), autoscaling.value, Strategies.TargetCapacity(Strategy()), resources.value,
                        SubnetIds(), LifeCycleHookSpecs(), config.tags, release, serviceName);
    }

    /** The body of createInput, on the values it reads from the service. */
    static method NewInput(id: Option<string>, a: AutoScaling.Settings, capacity: int, res: Resources.ServiceResourceNames,
                           subnets: string, hooks: set<Lifecycle.HookSpecification>,
                           userTags: map<string, Option<string>>, release: ReleaseInfo, serviceName: Option<string>)
      returns (input: AsgInput.Input)
      ensures fresh(input)
      ensures input.autoScalingGroupName == id && input.launchConfigurationName == id
      ensures input.minSize == Some(a.minSize.GetOr(1)) && input.maxSize == Some(a.maxSize.GetOr(1))
      ensures input.defaultCooldown == Some(a.defaultCooldown.GetOr(300))
      ensures input.healthCheckGracePeriod == Some(a.healthCheckGracePeriod.GetOr(300))
      ensures input.desiredCapacity == Some(capacity)
      ensures input.loadBalancerNames == res.elbs && input.targetGroupARNs == res.targetGroups
      ensures input.healthCheckType == Some(if |res.elbs| > 0 || |res.targetGroups| > 0 then "ELB" else "EC2")
      ensures input.terminationPolicies == [AsgInput.DefaultTerminationPolicy]
      ensures input.vpcZoneIdentifier == Some(subnets)
      ensures input.lifecycleHookSpecifications == hooks
      ensures AsgInput.KeysUnique(input.tags)
      ensures forall k :: k in FixedTagKeys ==> AsgInput.TagValue(input.tags, k) == Some(IdentityValues(release, serviceName, id)[k])
      ensures forall k :: k !in FixedTagKeys ==>
                AsgInput.TagValue(input.tags, k) == if k in userTags then Some(userTags[k]) else None
    {
      input := new AsgInput.Input();
      FillRequest(input, id, a, capacity, res, subnets, hooks);
      AddTags(input, userTags, release, serviceName, id);
      input.SetDefaults();
    }

    /** The request fields createInput copies from the service. */
    static method FillRequest(input: AsgInput.Input, id: Option<string>, a: AutoScaling.Settings, capacity: int,
                              res: Resources.ServiceResourceNames, subnets: string, hooks: set<Lifecycle.HookSpecification>)
      modifies input
      ensures input.autoScalingGroupName == id && input.launchConfigurationName == id
      ensures input.minSize == a.minSize && input.maxSize == a.maxSize
      ensures input.defaultCooldown == a.defaultCooldown && input.healthCheckGracePeriod == a.healthCheckGracePeriod
      ensures input.desiredCapacity == Some(capacity)
      ensures input.loadBalancerNames == res.elbs && input.targetGroupARNs == res.targetGroups
      ensures input.vpcZoneIdentifier == Some(subnets) && input.lifecycleHookSpecifications == hooks
      ensures input.healthCheckType == old(input.healthCheckType) && input.terminationPolicies == old(input.terminationPolicies)
      ensures input.tags == old(input.tags)
    {
      input.autoScalingGroupName := id;
      input.launchConfigurationName := id;
      input.minSize := a.minSize;
      input.maxSize := a.maxSize;
      input.defaultCooldown := a.defaultCooldown;
      input.healthCheckGracePeriod := a.healthCheckGracePeriod;
      input.desiredCapacity := Some(capacity);
      input.loadBalancerNames := res.elbs;
      input.targetGroupARNs := res.targetGroups;
      input.vpcZoneIdentifier := Some(subnets);
      input.lifecycleHookSpecifications := hooks;
    }

    /** The user's tags, then the identity tags over them. */
    static method AddTags(input: AsgInput.Input, userTags: map<string, Option<string>>,
                          release: ReleaseInfo, serviceName: Option<string>, id: Option<string>)
      requires input.tags == []
      modifies input
      ensures AsgInput.KeysUnique(input.tags)
      ensures forall k :: k in FixedTagKeys ==> AsgInput.TagValue(input.tags, k) == Some(IdentityValues(release, serviceName, id)[k])
      ensures forall k :: k !in FixedTagKeys ==>
                AsgInput.TagValue(input.tags, k) == if k in userTags then Some(userTags[k]) else None
      ensures input.autoScalingGroupName == old(input.autoScalingGroupName)
      ensures input.launchConfigurationName == old(input.launchConfigurationName)
      ensures input.minSize == old(input.minSize) && input.maxSize == old(input.maxSize)
      ensures input.desiredCapacity == old(input.desiredCapacity) && input.defaultCooldown == old(input.defaultCooldown)
      ensures input.healthCheckGracePeriod == old(input.healthCheckGracePeriod)
      ensures input.healthCheckType == old(input.healthCheckType) && input.terminationPolicies == old(input.terminationPolicies)
      ensures input.loadBalancerNames == old(input.loadBalancerNames) && input.targetGroupARNs == old(input.targetGroupARNs)
      ensures input.vpcZoneIdentifier == old(input.vpcZoneIdentifier)
      ensures input.lifecycleHookSpecifications == old(input.lifecycleHookSpecifications)
    {
      AddUserTags(input, userTags);
      IdentityTaggedLookup(input.tags, release, serviceName, id);
      AddIdentityTags(input, release, serviceName, id);
    }

    /** The loop over the user's tags, in map order. */
    static method AddUserTags(input: AsgInput.Input, tags: map<string, Option<string>>)
      requires input.tags == []
      modifies input
      ensures AsgInput.KeysUnique(input.tags)
      ensures forall k :: AsgInput.TagValue(input.tags, k) == if k in tags then Some(tags[k]) else None
      ensures input.autoScalingGroupName == old(input.autoScalingGroupName)
      ensures input.launchConfigurationName == old(input.launchConfigurationName)
      ensures input.minSize == old(input.minSize) && input.maxSize == old(input.maxSize)
      ensures input.desiredCapacity == old(input.desiredCapacity) && input.defaultCooldown == old(input.defaultCooldown)
      ensures input.healthCheckGracePeriod == old(input.healthCheckGracePeriod)
      ensures input.healthCheckType == old(input.healthCheckType) && input.terminationPolicies == old(input.terminationPolicies)
      ensures input.loadBalancerNames == old(input.loadBalancerNames) && input.targetGroupARNs == old(input.targetGroupARNs)
      ensures input.vpcZoneIdentifier == old(input.vpcZoneIdentifier)
      ensures input.lifecycleHookSpecifications == old(input.lifecycleHookSpecifications)
    {
      var remaining := tags.Keys;
      while remaining != {}
        invariant remaining <= tags.Keys
        invariant AsgInput.KeysUnique(input.tags)
        invariant forall k :: AsgInput.TagValue(input.tags, k) == if k in tags && k !in remaining then Some(tags[k]) else None
        invariant input.autoScalingGroupName == old(input.autoScalingGroupName)
        invariant input.launchConfigurationName == old(input.launchConfigurationName)
        invariant input.minSize == old(input.minSize) && input.maxSize == old(input.maxSize)
        invariant input.desiredCapacity == old(input.desiredCapacity) && input.defaultCooldown == old(input.defaultCooldown)
        invariant input.healthCheckGracePeriod == old(input.healthCheckGracePeriod)
        invariant input.healthCheckType == old(input.healthCheckType) && input.terminationPolicies == old(input.terminationPolicies)
        invariant input.loadBalancerNames == old(input.loadBalancerNames) && input.targetGroupARNs == old(input.targetGroupARNs)
        invariant input.vpcZoneIdentifier == old(input.vpcZoneIdentifier)
        invariant input.lifecycleHookSpecifications == old(input.lifecycleHookSpecifications)
        decreases remaining
      {
        var k :| k in remaining;
        AsgInput.UpsertedKeysUnique(input.tags, k, tags[k]);
        UserTagAdded(input.tags, tags, remaining, k);
        input.AddTag(k, tags[k]);
        remaining := remaining - {k};
      }
    }

    /** The identity tags, added after the user's tags so that they win. */
    static method AddIdentityTags(input: AsgInput.Input, release: ReleaseInfo, serviceName: Option<string>, id: Option<string>)
      modifies input
      ensures input.tags == IdentityTagged(old(input.tags), release, serviceName, id)
      ensures input.autoScalingGroupName == old(input.autoScalingGroupName)
      ensures input.launchConfigurationName == old(input.launchConfigurationName)
      ensures input.minSize == old(input.minSize) && input.maxSize == old(input.maxSize)
      ensures input.desiredCapacity == old(input.desiredCapacity) && input.defaultCooldown == old(input.defaultCooldown)
      ensures input.healthCheckGracePeriod == old(input.healthCheckGracePeriod)
      ensures input.healthCheckType == old(input.healthCheckType) && input.terminationPolicies == old(input.terminationPolicies)
      ensures input.loadBalancerNames == old(input.loadBalancerNames) && input.targetGroupARNs == old(input.targetGroupARNs)
      ensures input.vpcZoneIdentifier == old(input.vpcZoneIdentifier)
      ensures input.lifecycleHookSpecifications == old(input.lifecycleHookSpecifications)
    {
      input.AddTag("ProjectName", release.projectName);
      input.AddTag("ConfigName", release.configName);
      input.AddTag("ServiceName", serviceName);
      input.AddTag("ReleaseID", release.releaseID);
      input.AddTag("ReleaseUUID", release.uuid);
      input.AddTag("Name", id);
    }

    /** The launch configuration fields both versions below set the same way. */
    method FillLaunchConfig(input: LaunchConfig.LaunchConfigInput)
      modifies input
      ensures input.launchConfigurationName == ServiceID()
      ensures resources.Some? ==>
        input.imageId == resources.value.image && input.securityGroups == resources.value.securityGroups &&
        input.iamInstanceProfile == resources.value.profile
      ensures resources.None? ==>
        input.imageId == old(input.imageId) && input.securityGroups == old(input.securityGroups) &&
        input.iamInstanceProfile == old(input.iamInstanceProfile)
      ensures input.instanceType == config.instanceType
      ensures input.userData == Some(Encoding.Base64Text(UserData()))
      ensures input.instanceMonitoring == old(input.instanceMonitoring) && input.ebsOptimized == old(input.ebsOptimized)
      ensures input.blockDeviceMappings == old(input.blockDeviceMappings)
    {
      input.launchConfigurationName := ServiceID();
      if resources.Some? {
        input.imageId := resources.value.image;
        input.securityGroups := resources.value.securityGroups;
        input.iamInstanceProfile := resources.value.profile;
      }
      input.instanceType := config.instanceType;
      input.userData := Some(Encoding.Base64Text(UserData()));
    }

    /**
     * createLaunchConfigurationInput as written: SetDefaults runs before the
     * service's instance type is copied in, so EBS optimisation is decided
     * for the default type, never for the service's own.
     */
    method CreateLaunchConfigurationInputAsWritten() returns (input: LaunchConfig.LaunchConfigInput)
      ensures fresh(input)
      ensures input.launchConfigurationName == ServiceID()
      ensures input.instanceType == config.instanceType
      ensures input.instanceMonitoring == Some(false)
      ensures input.ebsOptimized == Some(false)
      ensures input.userData == Some(Encoding.Base64Text(UserData()))
      ensures resources.Some? ==> input.imageId == resources.value.image && input.securityGroups == resources.value.securityGroups
      ensures input.blockDeviceMappings ==
        if config.ebsVolumeSize.None? then []
        else [LaunchConfig.BlockDevice(config.ebsVolumeSize.value, config.ebsVolumeType, config.ebsDeviceName)]
    {
      input := new LaunchConfig.LaunchConfigInput();
      input.SetDefaults();
      LaunchConfig.DefaultTypeNotOptimized();
      FillLaunchConfig(input);
      input.AddBlockDevice(config.ebsVolumeSize, config.ebsVolumeType, config.ebsDeviceName);
    }

    /**
     * createLaunchConfigurationInput with SetDefaults after the instance type
     * is copied in: EBS optimisation follows the type actually launched.
     */
    method CreateLaunchConfigurationInput() returns (input: LaunchConfig.LaunchConfigInput)
      ensures fresh(input)
      ensures input.launchConfigurationName == ServiceID()
      ensures input.instanceType == Some(config.instanceType.GetOr(LaunchConfig.DefaultInstanceType))
      ensures input.instanceMonitoring == Some(false)
      ensures input.ebsOptimized == Some(LaunchConfig.EbsOptimizedType(input.instanceType.value))
      ensures input.userData == Some(Encoding.Base64Text(UserData()))
      ensures resources.Some? ==> input.imageId == resources.value.image && input.securityGroups == resources.value.securityGroups
      ensures input.blockDeviceMappings ==
        if config.ebsVolumeSize.None? then []
        else [LaunchConfig.BlockDevice(config.ebsVolumeSize.value, config.ebsVolumeType, config.ebsDeviceName)]
    {
      input := new LaunchConfig.LaunchConfigInput();
      FillLaunchConfig(input);
      input.SetDefaults();
      input.AddBlockDevice(config.ebsVolumeSize, config.ebsVolumeType, config.ebsDeviceName);
    }

    /**
     * CreateResources, given the outcomes of the create calls: the launch
     * configuration, then the group (whose name is recorded), then the
     * scaling policies; on success the health is that of an empty group.
     */
    method CreateResources(launchConfigResult: Outcome<string>, asgResult: Outcome<string>, policiesResult: Outcome<string>)
      returns (r: Outcome<string>)
      requires autoscaling.Some? && resources.Some? && HooksPresent()
      modifies this
      ensures release == old(release) && userdata == old(userdata) && serviceName == old(serviceName)
      ensures config == old(config) && autoscaling == old(autoscaling) && resources == old(resources)
      ensures previousDesiredCapacity == old(previousDesiredCapacity)
      ensures launchConfigResult.Fail? ==> r == launchConfigResult && createdASG == old(createdASG)
      ensures launchConfigResult.Pass? && asgResult.Fail? ==> r == asgResult && createdASG == old(createdASG)
      ensures launchConfigResult.Pass? && asgResult.Pass? ==> createdASG == ServiceID()
      ensures launchConfigResult.Pass? && asgResult.Pass? && policiesResult.Fail? ==> r == policiesResult
      ensures r == Pass <==> launchConfigResult.Pass? && asgResult.Pass? && policiesResult.Pass?
      ensures r == Pass ==> healthReport == Some(Report(Strategy(), map[])) && healthy == HealthyFor(Strategy(), map[])
      ensures r.Fail? ==> healthReport == old(healthReport) && healthy == old(healthy)
    {
      var request;
      request, r := CreateLaunchConfiguration(launchConfigResult);
      if r.Fail? {
        return;
      }
      var created := CreateASG(asgResult);
      if created.Err? {
        return Fail(created.error);
      }
      createdASG := created.value;
      if policiesResult.Fail? {
        return policiesResult;
      }
      SetHealthy(map[]);
      r := Pass;
    }

    /**
     * createLaunchConfiguration: build the request sent to the create call,
     * named by the service id, then report that call's outcome.
     */
    method CreateLaunchConfiguration(createResult: Outcome<string>) returns (request: LaunchConfig.LaunchConfigInput, r: Outcome<string>)
      ensures fresh(request)
      ensures request.launchConfigurationName == ServiceID() && request.userData == Some(Encoding.Base64Text(UserData()))
      ensures request.instanceType == Some(config.instanceType.GetOr(LaunchConfig.DefaultInstanceType))
      ensures request.ebsOptimized == Some(LaunchConfig.EbsOptimizedType(request.instanceType.value))
      ensures r == createResult
    {
      request := CreateLaunchConfigurationInput();
      r := createResult;
    }

    /** createASG: build the request; on a successful create the group is named by the service id. */
    method CreateASG(createResult: Outcome<string>) returns (r: Result<Option<string>, string>)
      requires autoscaling.Some? && resources.Some? && HooksPresent()
      ensures r.Ok? <==> createResult.Pass?
      ensures r.Ok? ==> r.value == ServiceID()
      ensures r.Err? ==> createResult == Fail(r.error)
    {
      var input := CreateInput();
      if createResult.Fail? {
        return Err(createResult.error);
      }
      r := Ok(input.ToASG().autoScalingGroupName);
    }
  }

  /**
   * UpdateHealthy's verdict on the group's view and each load balancer's and
   * target group's view: the group's lookup error, a halt when too many
   * instances are terminating, the first failed load balancer or target group
   * lookup, or success.
   */
  function HealthOutcome(st: Strategies.Strategy, asgView: Result<InstanceMap, string>,
                         elbViews: seq<Result<InstanceMap, string>>, tgViews: seq<Result<InstanceMap, string>>)
    : (r: Outcome<HealthError>)
    ensures r == Pass <==>
      asgView.Ok? && |IdsWith(asgView.value, Terminating)| <= Strategies.MaxTermsInt(st) && AllOk(elbViews) && AllOk(tgViews)
  {
    if asgView.Err? then Fail(FetchFailed(asgView.error))
    else if |IdsWith(asgView.value, Terminating)| > Strategies.MaxTermsInt(st) then Fail(Halt(IdsWith(asgView.value, Terminating)))
    else if !AllOk(elbViews) then Fail(FetchFailed(FirstError(elbViews)))
    else if !AllOk(tgViews) then Fail(FetchFailed(FirstError(tgViews)))
    else Pass
  }

  /** The fields of a service, as one value. */
  datatype ServiceState = ServiceState(
    release: ReleaseInfo,
    userdata: Option<string>,
    serviceName: Option<string>,
    config: ServiceConfig,
    autoscaling: Option<AutoScaling.Settings>,
    resources: Option<Resources.ServiceResourceNames>,
    createdASG: Option<string>,
    previousDesiredCapacity: Option<int>,
    healthReport: Option<HealthReport>,
    healthy: bool)

  /**
   * The service after SetDefaults(release, name): it keeps the release and
   * its name, has an auto-scaling config with every default filled against
   * its id and the release timeout, and has resources; nothing else changes.
   */
  function Defaulted(st: ServiceState, release: ReleaseInfo, name: string): (r: ServiceState)
    ensures r.release == release && r.serviceName == Some(name)
    ensures r.autoscaling.Some? && r.resources.Some?
    ensures st.resources.Some? ==> r.resources == st.resources
    ensures r.userdata == st.userdata && r.config == st.config && r.createdASG == st.createdASG
    ensures r.previousDesiredCapacity == st.previousDesiredCapacity
    ensures r.healthReport == st.healthReport && r.healthy == st.healthy
  {
    var id := ServiceIDOf(release.projectName, release.configName, release.createdAt, Some(name));
    st.(release := release, serviceName := Some(name),
        autoscaling := Some(AutoScaling.WithDefaults(st.autoscaling.GetOr(AutoScaling.EmptySettings), id, release.timeout)),
        resources := if st.resources.None? then Some(PlaceholderResources) else st.resources)
  }

  /** With a service id, SetDefaults names every policy's service, as the policy checks require. */
  lemma StampedPoliciesNamed(s: AutoScaling.Settings, serviceID: Option<string>, timeout: Option<int>)
    ensures serviceID.Some? ==> AutoScaling.PoliciesNamed(AutoScaling.WithDefaults(s, serviceID, timeout).policies)
  {
  }

  /** A c4.large service: as written its launch configuration is not EBS-optimised; with the defaults applied last it is. */
  method EbsOptimizedFinding() returns (asWritten: Option<bool>, corrected: Option<bool>)
    ensures asWritten == Some(false)
    ensures corrected == Some(true)
  {
    var cfg := ServiceConfig([], None, [], [Some("sg")], map[], Some("c4.large"), None, None, None, None);
    var service := new Service(cfg, None);
    var a := service.CreateLaunchConfigurationInputAsWritten();
    var c := service.CreateLaunchConfigurationInput();
    LaunchConfig.DefaultTypeNotOptimized();
    asWritten, corrected := a.ebsOptimized, c.ebsOptimized;
  }
}
