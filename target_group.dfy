/**
 * Application load balancer target groups: which service may attach to a
 * group, the health query for a list of instances, and the lookups that
 * must come back with exactly one match.
 */
module TargetGroups {
  import opened Wrappers
  import opened Text
  import opened Tags

  /** A target group as the deployer records it. */
  datatype TargetGroup = TargetGroup(
    projectNameTag: Option<string>,
    configNameTag: Option<string>,
    serviceNameTag: Option<string>,
    allowedServiceTag: Option<string>,
    targetGroupArn: Option<string>,
    targetGroupName: string,
    slowStartDuration: int)

  const NoServicesAllowed := "no services allowed"

  /** The service allowed to attach: none without all three identity tags, else the explicit tag, else the group's own. */
  function AllowedService(tg: TargetGroup): (r: string)
    ensures tg.projectNameTag.None? || tg.configNameTag.None? || tg.serviceNameTag.None? ==> r == NoServicesAllowed
    ensures tg.projectNameTag.Some? && tg.configNameTag.Some? && tg.serviceNameTag.Some? && tg.allowedServiceTag.Some? ==>
      r == tg.allowedServiceTag.value
    ensures tg.projectNameTag.Some? && tg.configNameTag.Some? && tg.serviceNameTag.Some? && tg.allowedServiceTag.None? ==>
      MatchesAllowedService(Some(r), tg.projectNameTag, tg.configNameTag, tg.serviceNameTag)
  {
    if tg.projectNameTag.None? || tg.configNameTag.None? || tg.serviceNameTag.None? then NoServicesAllowed
    else if tg.allowedServiceTag.None? then
      AllowedServiceKey(tg.projectNameTag.value, tg.configNameTag.value, tg.serviceNameTag.value)
    else tg.allowedServiceTag.value
  }

  /** The two target-group tests: an explicit tag wins, otherwise `project::config::service`. */
  lemma AllowedServiceCases()
    ensures AllowedService(TargetGroup(Some("project"), Some("config"), Some("service"),
      Some("other/project::other-config::other-service"), None, "", 0)) == "other/project::other-config::other-service"
    ensures AllowedService(TargetGroup(Some("project"), Some("config"), Some("service"), None, None, "", 0)) ==
      "project::config::service"
  {
  }

  datatype DescribeTargetHealthInput = DescribeTargetHealthInput(targetGroupArn: Option<string>, targetIds: seq<string>)

  /** One target per instance id, in the given order. */
  method CreateDescribeTargetHealthInput(arn: Option<string>, instances: seq<string>) returns (r: DescribeTargetHealthInput)
    ensures r.targetGroupArn == arn
    ensures |r.targetIds| == |instances|
    ensures forall i :: 0 <= i < |instances| ==> r.targetIds[i] == instances[i]
  {
    var targets: seq<string> := [];
    for i := 0 to |instances|
      invariant targets == instances[..i]
    {
      targets := targets + [instances[i]];
    }
    r := DescribeTargetHealthInput(arn, targets);
  }

  /** A target group as the describe call returns it. */
  datatype AwsTargetGroup = AwsTargetGroup(targetGroupName: string, targetGroupArn: Option<string>)

  /** The tags the describe-tags call returns for one resource. */
  datatype TagDescription = TagDescription(resourceArn: string, tags: seq<Tag>)

  /** A target-group attribute; either side may be absent. */
  datatype Attribute = Attribute(key: Option<string>, value: Option<string>)

  datatype TgError = LoadBalancerNotFound | TargetGroupNotFound(arn: Option<string>) | DescribeFailed(message: string)

  /** findByName: a failed describe call is its error; otherwise exactly one group must come back, carrying the requested name. */
  function FindByName(name: string, described: Result<seq<AwsTargetGroup>, string>): (r: Result<AwsTargetGroup, TgError>)
    ensures described.Err? ==> r == Err(DescribeFailed(described.error))
    ensures r.Ok? <==> described.Ok? && |described.value| == 1 && described.value[0].targetGroupName == name
    ensures r.Ok? ==> r.value == described.value[0]
    ensures described.Ok? && r.Err? ==> r.error == LoadBalancerNotFound
  {
    if described.Err? then Err(DescribeFailed(described.error))
    else
      var groups := described.value;
      if |groups| != 1 then Err(LoadBalancerNotFound)
      else if groups[0].targetGroupName != name then Err(LoadBalancerNotFound)
      else Ok(groups[0])
  }

  /**
   * findTagsByName: a failed describe-tags call is its error; otherwise
   * exactly one description must come back, for the requested ARN.
   */
  function FindTagsByName(arn: Option<string>, described: Result<seq<TagDescription>, string>): (r: Result<seq<Tag>, TgError>)
    ensures described.Err? ==> r == Err(DescribeFailed(described.error))
    ensures r.Ok? <==> arn.Some? && described.Ok? && |described.value| == 1 && described.value[0].resourceArn == arn.value
    ensures r.Ok? ==> r.value == described.value[0].tags
    ensures described.Ok? && r.Err? ==> r.error == TargetGroupNotFound(arn)
  {
    if described.Err? then Err(DescribeFailed(described.error))
    else
      var descriptions := described.value;
      if |descriptions| != 1 then Err(TargetGroupNotFound(arn))
      else if arn.None? || descriptions[0].resourceArn != arn.value then Err(TargetGroupNotFound(arn))
      else Ok(descriptions[0].tags)
  }

  const SlowStartKey := "slow_start.duration_seconds"

  /** The attribute carries the slow-start key and a value `Atoi` accepts. */
  predicate SlowStartEntry(a: Attribute)
  {
    a.key == Some(SlowStartKey) && a.value.Some? && Atoi(a.value.value).Some?
  }

  /** The slow-start duration: the first usable slow-start entry, 0 when there is none or the call failed. */
  function SlowStart(attributes: Option<seq<Attribute>>): (r: int)
    ensures attributes.None? ==> r == 0
    ensures attributes.Some? && (forall i :: 0 <= i < |attributes.value| ==> !SlowStartEntry(attributes.value[i])) ==> r == 0
    ensures forall i ::
              (attributes.Some? && 0 <= i < |attributes.value| && SlowStartEntry(attributes.value[i]) &&
               forall k :: 0 <= k < i ==> !SlowStartEntry(attributes.value[k]))
              ==> r == Atoi(attributes.value[i].value.value).value
    decreases if attributes.Some? then |attributes.value| else 0
  {
    if attributes.None? || attributes.value == [] then 0
    else
      var a := attributes.value[0];
      if SlowStartEntry(a) then Atoi(a.value.value).value
      else
        var rest := SlowStart(Some(attributes.value[1..]));
        assert forall i :: 1 <= i < |attributes.value| ==> attributes.value[1..][i - 1] == attributes.value[i];
        rest
  }

  /** findSlowStartDuration: scan the attributes, skipping absent keys or values and values that do not parse. */
  method FindSlowStartDuration(attributes: Option<seq<Attribute>>) returns (duration: int)
    ensures duration == SlowStart(attributes)
  {
    if attributes.None? {
      return 0;
    }
    var attrs := attributes.value;
    var i := 0;
    while i < |attrs|
      invariant 0 <= i <= |attrs|
      invariant SlowStart(Some(attrs[i..])) == SlowStart(attributes)
    {
      var a := attrs[i];
      if a.key.Some? && a.value.Some? && a.key.value == SlowStartKey {
        var parsed := Atoi(a.value.value);
        if parsed.Some? {
          assert SlowStartEntry(attrs[i..][0]);
          return parsed.value;
        }
      }
      assert attrs[i..][1..] == attrs[i + 1..];
      i := i + 1;
    }
    duration := 0;
  }

  /**
   * The describe responses for one name: the groups and their tag
   * descriptions, each an error when its call failed, and the attributes
   * (None when that call failed).
   */
  datatype Lookup = Lookup(
    groups: Result<seq<AwsTargetGroup>, string>,
    tagDescriptions: Result<seq<TagDescription>, string>,
    attributes: Option<seq<Attribute>>)

  /** find: the single group, its single tag description, identity tags looked up by key, and the slow-start duration. */
  function Find(name: string, lookup: Lookup): (r: Result<TargetGroup, TgError>)
    ensures FindByName(name, lookup.groups).Err? ==> r == Err(FindByName(name, lookup.groups).error)
    ensures FindByName(name, lookup.groups).Ok? ==>
              var arn := FindByName(name, lookup.groups).value.targetGroupArn;
              (FindTagsByName(arn, lookup.tagDescriptions).Err? ==> r == Err(FindTagsByName(arn, lookup.tagDescriptions).error)) &&
              (r.Ok? <==> FindTagsByName(arn, lookup.tagDescriptions).Ok?)
    ensures r.Ok? ==> r.value.targetGroupName == name && r.value.targetGroupArn == lookup.groups.value[0].targetGroupArn
    ensures r.Ok? ==>
      var tags := lookup.tagDescriptions.value[0].tags;
      r.value.projectNameTag == FetchTag(tags, Some("ProjectName")) && r.value.configNameTag == FetchTag(tags, Some("ConfigName")) &&
      r.value.serviceNameTag == FetchTag(tags, Some("ServiceName")) && r.value.allowedServiceTag == FetchTag(tags, Some("AllowedService"))
    ensures r.Ok? ==> r.value.slowStartDuration == SlowStart(lookup.attributes)
  {
    match FindByName(name, lookup.groups)
    case Err(e) => Err(e)
    case Ok(group) =>
      match FindTagsByName(group.targetGroupArn, lookup.tagDescriptions)
      case Err(e) => Err(e)
      case Ok(tags) =>
        Ok(TargetGroup(
          FetchTag(tags, Some("ProjectName")), FetchTag(tags, Some("ConfigName")), FetchTag(tags, Some("ServiceName")),
          FetchTag(tags, Some("AllowedService")), group.targetGroupArn, name, SlowStart(lookup.attributes)))
  }

  /** Every name found. */
  predicate AllFound(names: seq<string>, lookups: seq<Lookup>)
    requires |names| == |lookups|
  {
    forall i :: 0 <= i < |names| ==> Find(names[i], lookups[i]).Ok?
  }

  /** FindAll: the groups in the order of the names, or the error of the first name that is not found. */
  method FindAll(names: seq<string>, lookups: seq<Lookup>) returns (r: Result<seq<TargetGroup>, TgError>)
    requires |lookups| == |names|
    ensures r.Ok? <==> AllFound(names, lookups)
    ensures r.Ok? ==> |r.value| == |names| && forall i :: 0 <= i < |names| ==> Ok(r.value[i]) == Find(names[i], lookups[i])
    ensures r.Err? ==>
              exists i :: 0 <= i < |names| && Find(names[i], lookups[i]) == Err(r.error) &&
                          forall k :: 0 <= k < i ==> Find(names[k], lookups[k]).Ok?
  {
    var tgs: seq<TargetGroup> := [];
    for i := 0 to |names|
      invariant |tgs| == i
      invariant forall k :: 0 <= k < i ==> Ok(tgs[k]) == Find(names[k], lookups[k])
    {
      var found := Find(names[i], lookups[i]);
      if found.Err? {
        return Err(found.error);
      }
      tgs := tgs + [found.value];
    }
    r := Ok(tgs);
  }
}
