/**
 * Auto-scaling groups as the deployer sees them: the tags that tie a group
 * to a project, config, service and release, the filters that select the
 * groups of a release, the one-group-per-service map, and the guards around
 * detaching load balancers.
 */
module Asg {
  import opened Wrappers
  import opened Text
  import opened Tags
  import Seqs
  import Instances

  /** A group as the describe call returns it. */
  datatype Group = Group(
    tags: seq<Tag>,
    status: Option<string>,
    name: Option<string>,
    launchConfigurationName: Option<string>,
    loadBalancerNames: seq<string>,
    targetGroupARNs: seq<string>,
    desiredCapacity: Option<int>,
    minSize: Option<int>,
    instances: seq<Option<Instances.AsgInstance>>)

  /** `ASG`: the deployer's record of a group, its identity read from tags. */
  datatype ASG = ASG(
    projectNameTag: Option<string>,
    configNameTag: Option<string>,
    serviceNameTag: Option<string>,
    releaseIDTag: Option<string>,
    releaseIdTag: Option<string>,
    minSize: Option<int>,
    desiredCapacity: Option<int>,
    autoScalingGroupName: Option<string>,
    launchConfigurationName: Option<string>,
    loadBalancerNames: seq<string>,
    targetGroupARNs: seq<string>,
    instances: seq<Option<Instances.AsgInstance>>)

  datatype AsgError =
    | NilName
    | NotFound(name: string)
    | TooMany(name: string)
    | NoServiceName(id: Option<string>)
    | MultipleForService(service: string)

  /** newASG: identity tags looked up by key, the rest copied from the description. */
  function NewASG(g: Group): ASG
  {
    ASG(
      FetchTag(g.tags, Some("ProjectName")), FetchTag(g.tags, Some("ConfigName")), FetchTag(g.tags, Some("ServiceName")),
      FetchTag(g.tags, Some("ReleaseID")), FetchTag(g.tags, Some("ReleaseId")),
      g.minSize, g.desiredCapacity, g.name, g.launchConfigurationName,
      g.loadBalancerNames, g.targetGroupARNs, g.instances)
  }

  /** The release id: the `ReleaseID` tag when non-empty, else the legacy `ReleaseId` tag. */
  function ReleaseID(a: ASG): (r: Option<string>)
    ensures a.releaseIDTag.Some? && a.releaseIDTag.value != "" ==> r == a.releaseIDTag
    ensures a.releaseIDTag.None? || a.releaseIDTag.value == "" ==> r == a.releaseIdTag
  {
    if a.releaseIDTag.Some? && a.releaseIDTag.value != "" then a.releaseIDTag else a.releaseIdTag
  }

  /** The group's own `project::config::service`; every tag must be present. */
  function AllowedService(a: ASG): (r: string)
    requires a.projectNameTag.Some? && a.configNameTag.Some? && a.serviceNameTag.Some?
    ensures MatchesAllowedService(Some(r), a.projectNameTag, a.configNameTag, a.serviceNameTag)
  {
    AllowedServiceKey(a.projectNameTag.value, a.configNameTag.value, a.serviceNameTag.value)
  }

  /** Groups without a status; a status means deletion is in progress. */
  predicate Live(g: Group) { g.status.None? }

  /** The deployer's record of each described group, in order. */
  function NewASGs(gs: seq<Group>): seq<ASG>
  {
    if gs == [] then [] else NewASGs(gs[..|gs| - 1]) + [NewASG(gs[|gs| - 1])]
  }

  lemma NewASGsSnoc(gs: seq<Group>, g: Group)
    ensures NewASGs(gs + [g]) == NewASGs(gs) + [NewASG(g)]
  {
    assert (gs + [g])[..|gs|] == gs;
  }

  lemma LiveStep(groups: seq<Group>, i: nat)
    requires i < |groups|
    ensures NewASGs(Seqs.Filter(groups[..i + 1], Live)) ==
      NewASGs(Seqs.Filter(groups[..i], Live)) + (if groups[i].status.None? then [NewASG(groups[i])] else [])
  {
    assert groups[..i + 1] == groups[..i] + [groups[i]];
    Seqs.FilterSnoc(groups[..i], groups[i], Live);
    var before := Seqs.Filter(groups[..i], Live);
    if groups[i].status.None? {
      NewASGsSnoc(before, groups[i]);
    } else {
      assert Seqs.Filter(groups[..i + 1], Live) == before;
    }
  }

  /** findInAws: the pages' groups, skipping those being deleted, in order. */
  method FindInAws(groups: seq<Group>) returns (all: seq<ASG>)
    ensures all == NewASGs(Seqs.Filter(groups, Live))
  {
    all := [];
    var i := 0;
    while i < |groups|
      invariant 0 <= i <= |groups|
      invariant all == NewASGs(Seqs.Filter(groups[..i], Live))
    {
      LiveStep(groups, i);
      if groups[i].status.None? {
        all := all + [NewASG(groups[i])];
      }
      i := i + 1;
    }
    assert groups[..i] == groups;
  }

  /** findByName: a name is required, and exactly one group must come back. */
  function FindByName(name: Option<string>, found: seq<ASG>): (r: Result<ASG, AsgError>)
    ensures r.Ok? <==> name.Some? && |found| == 1
    ensures r.Ok? ==> r.value == found[0]
    ensures name.None? ==> r == Err(NilName)
    ensures name.Some? && found == [] ==> r == Err(NotFound(name.value))
  {
    if name.None? then Err(NilName)
    else if |found| == 0 then Err(NotFound(name.value))
    else if |found| == 1 then Ok(found[0])
    else Err(TooMany(name.value))
  }

  /** The group carries both the project and the config. */
  function InProjectConfig(project: Option<string>, config: Option<string>): ASG -> bool
  {
    (a: ASG) => HasName(a.projectNameTag, project) && HasName(a.configNameTag, config)
  }

  function WithRelease(releaseID: Option<string>): ASG -> bool
  {
    (a: ASG) => HasName(ReleaseID(a), releaseID)
  }

  function WithoutRelease(releaseID: Option<string>): ASG -> bool
  {
    (a: ASG) => !HasName(ReleaseID(a), releaseID)
  }

  /** Keeps the groups for which `keep` holds, in order. */
  method KeepIf(all: seq<ASG>, keep: ASG -> bool) returns (asgs: seq<ASG>)
    ensures asgs == Seqs.Filter(all, keep)
  {
    asgs := [];
    var i := 0;
    while i < |all|
      invariant 0 <= i <= |all|
      invariant asgs == Seqs.Filter(all[..i], keep)
    {
      assert all[..i + 1] == all[..i] + [all[i]];
      Seqs.FilterSnoc(all[..i], all[i], keep);
      if keep(all[i]) {
        asgs := asgs + [all[i]];
      }
      i := i + 1;
    }
    assert all[..i] == all;
  }

  /** The live groups of the project and config. */
  function ProjectConfigGroups(groups: seq<Group>, project: Option<string>, config: Option<string>): seq<ASG>
  {
    Seqs.Filter(NewASGs(Seqs.Filter(groups, Live)), InProjectConfig(project, config))
  }

  /** forProjectConfig: exactly the live groups tagged with both the project and the config. */
  method ForProjectConfig(groups: seq<Group>, project: Option<string>, config: Option<string>) returns (asgs: seq<ASG>)
    ensures asgs == ProjectConfigGroups(groups, project, config)
    ensures forall a :: a in asgs ==> HasName(a.projectNameTag, project) && HasName(a.configNameTag, config)
  {
    var all := FindInAws(groups);
    asgs := KeepIf(all, InProjectConfig(project, config));
  }

  /** ForProjectConfigReleaseID: the project's groups of this release. */
  method ForProjectConfigReleaseID(groups: seq<Group>, project: Option<string>, config: Option<string>, releaseID: Option<string>)
    returns (asgs: seq<ASG>)
    ensures asgs == Seqs.Filter(ProjectConfigGroups(groups, project, config), WithRelease(releaseID))
  {
    var all := ForProjectConfig(groups, project, config);
    asgs := KeepIf(all, WithRelease(releaseID));
  }

  /** ForProjectConfigNOTReleaseID: the project's groups of every other release. */
  method ForProjectConfigNOTReleaseID(groups: seq<Group>, project: Option<string>, config: Option<string>, releaseID: Option<string>)
    returns (asgs: seq<ASG>)
    ensures asgs == Seqs.Filter(ProjectConfigGroups(groups, project, config), WithoutRelease(releaseID))
  {
    var all := ForProjectConfig(groups, project, config);
    asgs := KeepIf(all, WithoutRelease(releaseID));
  }

  /** The two release filters split the project's groups: every group lands in exactly one. */
  lemma ReleaseFiltersPartition(groups: seq<Group>, project: Option<string>, config: Option<string>, releaseID: Option<string>)
    ensures var all := ProjectConfigGroups(groups, project, config);
      |Seqs.Filter(all, WithRelease(releaseID))| + |Seqs.Filter(all, WithoutRelease(releaseID))| == |all| &&
      multiset(Seqs.Filter(all, WithRelease(releaseID))) + multiset(Seqs.Filter(all, WithoutRelease(releaseID))) == multiset(all)
  {
    Seqs.FilterPartition(ProjectConfigGroups(groups, project, config), WithRelease(releaseID), WithoutRelease(releaseID));
  }

  /** The service map of a list of groups, built front to back; the first bad group decides the error. */
  function ServiceMapOf(asgs: seq<ASG>): Result<map<string, ASG>, AsgError>
  {
    if asgs == [] then Ok(map[])
    else
      var front := ServiceMapOf(asgs[..|asgs| - 1]);
      var a := asgs[|asgs| - 1];
      if front.Err? then front
      else if a.serviceNameTag.None? then Err(NoServiceName(a.autoScalingGroupName))
      else if a.serviceNameTag.value in front.value then Err(MultipleForService(a.serviceNameTag.value))
      else Ok(front.value[a.serviceNameTag.value := a])
  }

  /** The service names of a list of groups that all have one. */
  function ServiceNames(asgs: seq<ASG>): (r: seq<string>)
    requires forall i :: 0 <= i < |asgs| ==> asgs[i].serviceNameTag.Some?
    ensures |r| == |asgs| && forall i :: 0 <= i < |asgs| ==> r[i] == asgs[i].serviceNameTag.value
  {
    if asgs == [] then [] else ServiceNames(asgs[..|asgs| - 1]) + [asgs[|asgs| - 1].serviceNameTag.value]
  }

  predicate AllNamed(asgs: seq<ASG>)
  {
    forall i :: 0 <= i < |asgs| ==> asgs[i].serviceNameTag.Some?
  }

  /** A successful map is keyed by exactly the groups' service names. */
  lemma {:induction false} ServiceMapKeys(asgs: seq<ASG>)
    ensures ServiceMapOf(asgs).Ok? ==> AllNamed(asgs) && ServiceMapOf(asgs).value.Keys == Elements(ServiceNames(asgs))
  {
    if asgs != [] && ServiceMapOf(asgs).Ok? {
      var front := asgs[..|asgs| - 1];
      ServiceMapKeys(front);
      assert forall i :: 0 <= i < |front| ==> front[i] == asgs[i];
      assert ServiceNames(asgs) == ServiceNames(front) + [asgs[|asgs| - 1].serviceNameTag.value];
    }
  }

  /** Each service maps to one of the groups, and that group carries the service's name. */
  lemma {:induction false} ServiceMapValues(asgs: seq<ASG>)
    ensures ServiceMapOf(asgs).Ok? ==>
      forall n :: n in ServiceMapOf(asgs).value ==>
        ServiceMapOf(asgs).value[n] in asgs && ServiceMapOf(asgs).value[n].serviceNameTag == Some(n)
  {
    if asgs != [] && ServiceMapOf(asgs).Ok? {
      var front := asgs[..|asgs| - 1];
      ServiceMapValues(front);
      assert forall a :: a in front ==> a in asgs;
    }
  }

  /** The map succeeds exactly when every group names a service and no service has two groups. */
  lemma {:induction false} ServiceMapOkIff(asgs: seq<ASG>)
    ensures ServiceMapOf(asgs).Ok? <==> AllNamed(asgs) && Distinct(ServiceNames(asgs))
  {
    if asgs != [] {
      var front := asgs[..|asgs| - 1];
      var a := asgs[|asgs| - 1];
      ServiceMapOkIff(front);
      ServiceMapKeys(front);
      assert forall i :: 0 <= i < |front| ==> front[i] == asgs[i];
      if AllNamed(asgs) {
        var names := ServiceNames(asgs);
        assert names == ServiceNames(front) + [a.serviceNameTag.value];
        if Distinct(names) {
          assert Distinct(ServiceNames(front));
          assert a.serviceNameTag.value !in ServiceNames(front);
        } else if ServiceMapOf(front).Ok? {
          assert a.serviceNameTag.value in ServiceNames(front);
        }
      }
    }
  }

  /** A failure in a prefix of the groups is the failure of the whole list. */
  lemma {:induction false} ServiceMapFailurePersists(asgs: seq<ASG>, k: nat)
    requires k <= |asgs| && ServiceMapOf(asgs[..k]).Err?
    ensures ServiceMapOf(asgs) == ServiceMapOf(asgs[..k])
  {
    if k < |asgs| {
      var front := asgs[..|asgs| - 1];
      assert front[..k] == asgs[..k];
      ServiceMapFailurePersists(front, k);
    } else {
      assert asgs[..k] == asgs;
    }
  }

  /** ForProjectConfigNotReleaseIDServiceMap: the previous release's groups, one per service. */
  method ServiceMap(asgs: seq<ASG>) returns (r: Result<map<string, ASG>, AsgError>)
    ensures r == ServiceMapOf(asgs)
  {
    var prev: map<string, ASG> := map[];
    var i := 0;
    while i < |asgs|
      invariant 0 <= i <= |asgs|
      invariant ServiceMapOf(asgs[..i]) == Ok(prev)
    {
      var a := asgs[i];
      assert asgs[..i + 1][..i] == asgs[..i];
      if a.serviceNameTag.None? {
        ServiceMapFailurePersists(asgs, i + 1);
        return Err(NoServiceName(a.autoScalingGroupName));
      }
      if a.serviceNameTag.value in prev {
        ServiceMapFailurePersists(asgs, i + 1);
        return Err(MultipleForService(a.serviceNameTag.value));
      }
      prev := prev[a.serviceNameTag.value := a];
      i := i + 1;
    }
    assert asgs[..i] == asgs;
    return Ok(prev);
  }

  /** One group per service for every release but this one. */
  method ForProjectConfigNotReleaseIDServiceMap(groups: seq<Group>, project: Option<string>, config: Option<string>, releaseID: Option<string>)
    returns (r: Result<map<string, ASG>, AsgError>)
    ensures r == ServiceMapOf(Seqs.Filter(ProjectConfigGroups(groups, project, config), WithoutRelease(releaseID)))
  {
    var asgs := ForProjectConfigNOTReleaseID(groups, project, config, releaseID);
    r := ServiceMap(asgs);
  }

  /** A load balancer or target group attachment as the group reports it. */
  datatype Attachment = Attachment(name: string, state: string)

  predicate NotRemoved(at: Attachment) { at.state != "Removed" }

  function AttachmentNames(ats: seq<Attachment>): (r: seq<string>)
    ensures |r| == |ats| && forall i :: 0 <= i < |ats| ==> r[i] == ats[i].name
  {
    if ats == [] then [] else AttachmentNames(ats[..|ats| - 1]) + [ats[|ats| - 1].name]
  }

  /** attachedTargetGroups / attachedClassicLBs: names of the attachments not in state "Removed", in order. */
  method AttachedNames(ats: seq<Attachment>) returns (lbs: seq<string>)
    ensures lbs == AttachmentNames(Seqs.Filter(ats, NotRemoved))
  {
    lbs := [];
    var i := 0;
    while i < |ats|
      invariant 0 <= i <= |ats|
      invariant lbs == AttachmentNames(Seqs.Filter(ats[..i], NotRemoved))
    {
      AttachedStep(ats, i);
      if ats[i].state != "Removed" {
        lbs := lbs + [ats[i].name];
      }
      i := i + 1;
    }
    assert ats[..i] == ats;
  }

  lemma AttachedStep(ats: seq<Attachment>, i: nat)
    requires i < |ats|
    ensures AttachmentNames(Seqs.Filter(ats[..i + 1], NotRemoved)) ==
      AttachmentNames(Seqs.Filter(ats[..i], NotRemoved)) + (if NotRemoved(ats[i]) then [ats[i].name] else [])
  {
    assert ats[..i + 1] == ats[..i] + [ats[i]];
    Seqs.FilterSnoc(ats[..i], ats[i], NotRemoved);
    var before := Seqs.Filter(ats[..i], NotRemoved);
    if NotRemoved(ats[i]) {
      assert (before + [ats[i]])[..|before|] == before;
    }
  }

  /** AttachedLBs: the target groups still attached, then the classic load balancers still attached. */
  method AttachedLBs(targetGroups: seq<Attachment>, classicLBs: seq<Attachment>) returns (lbs: seq<string>)
    ensures lbs == AttachmentNames(Seqs.Filter(targetGroups, NotRemoved)) + AttachmentNames(Seqs.Filter(classicLBs, NotRemoved))
    ensures |lbs| <= |targetGroups| + |classicLBs|
    ensures forall at :: at in targetGroups + classicLBs && at.state != "Removed" ==> at.name in lbs
  {
    var tgs := AttachedNames(targetGroups);
    var clbs := AttachedNames(classicLBs);
    lbs := tgs + clbs;
    forall at | at in targetGroups + classicLBs && at.state != "Removed"
      ensures at.name in lbs
    {
      if at in targetGroups {
        NameListed(targetGroups, at);
      } else {
        NameListed(classicLBs, at);
      }
    }
  }

  lemma NameListed(ats: seq<Attachment>, at: Attachment)
    requires at in ats && NotRemoved(at)
    ensures at.name in AttachmentNames(Seqs.Filter(ats, NotRemoved))
  {
    var kept := Seqs.Filter(ats, NotRemoved);
    var k :| 0 <= k < |kept| && kept[k] == at;
    assert AttachmentNames(kept)[k] == at.name;
  }

  /** The two attachment states from the attached-LB tests: kept when active, dropped when "Removed". */
  lemma AttachedCases()
    ensures AttachmentNames(Seqs.Filter([Attachment("arn", "aaa")], NotRemoved)) == ["arn"]
    ensures AttachmentNames(Seqs.Filter([Attachment("arn", "Removed")], NotRemoved)) == []
  {
    assert [Attachment("arn", "aaa")][..0] == [];
    assert [Attachment("arn", "Removed")][..0] == [];
  }

  /** A detach request the deployer sends to the auto-scaling API. */
  datatype DetachCall =
    | DetachLoadBalancers(group: Option<string>, names: seq<string>)
    | DetachTargetGroups(group: Option<string>, arns: seq<string>)

  /**
   * Detach: each API is called only for a non-empty list, load balancers
   * first; a failing call stops before the next one. `lbResult` and
   * `tgResult` are what the two calls would return.
   */
  function Detach(a: ASG, lbResult: Outcome<string>, tgResult: Outcome<string>): (r: (seq<DetachCall>, Outcome<string>))
    ensures forall c :: c in r.0 && c.DetachLoadBalancers? ==> c.names == a.loadBalancerNames && |c.names| > 0
    ensures forall c :: c in r.0 && c.DetachTargetGroups? ==> c.arns == a.targetGroupARNs && |c.arns| > 0
    ensures a.loadBalancerNames == [] && a.targetGroupARNs == [] ==> r == ([], Pass)
    ensures r.1.Fail? <==> (a.loadBalancerNames != [] && lbResult.Fail?) || (a.targetGroupARNs != [] && tgResult.Fail? && (a.loadBalancerNames == [] || lbResult.Pass?))
    ensures |a.loadBalancerNames| > 0 ==> |r.0| > 0 && r.0[0] == DetachLoadBalancers(a.autoScalingGroupName, a.loadBalancerNames)
    ensures |a.loadBalancerNames| > 0 && lbResult.Fail? ==> r == ([DetachLoadBalancers(a.autoScalingGroupName, a.loadBalancerNames)], lbResult)
    ensures (|a.loadBalancerNames| == 0 || lbResult.Pass?) && |a.targetGroupARNs| > 0 ==>
      r.1 == tgResult && DetachTargetGroups(a.autoScalingGroupName, a.targetGroupARNs) in r.0
  {
    var lbCalls := if |a.loadBalancerNames| > 0 then [DetachLoadBalancers(a.autoScalingGroupName, a.loadBalancerNames)] else [];
    if |a.loadBalancerNames| > 0 && lbResult.Fail? then (lbCalls, lbResult)
    else if |a.targetGroupARNs| > 0 then (lbCalls + [DetachTargetGroups(a.autoScalingGroupName, a.targetGroupARNs)], tgResult)
    else (lbCalls, Pass)
  }

  /** A scaling policy as the describe call returns it: the names of its alarms. */
  datatype ScalingPolicy = ScalingPolicy(alarmNames: seq<Option<string>>)

  function AlarmNamesOf(policies: seq<ScalingPolicy>): (r: seq<Option<string>>)
  {
    if policies == [] then [] else AlarmNamesOf(policies[..|policies| - 1]) + policies[|policies| - 1].alarmNames
  }

  function AlarmCount(policies: seq<ScalingPolicy>): nat
  {
    if policies == [] then 0 else AlarmCount(policies[..|policies| - 1]) + |policies[|policies| - 1].alarmNames|
  }

  /** Every alarm of every policy appears, each policy's in order, one entry per alarm. */
  lemma {:induction false} AlarmNamesComplete(policies: seq<ScalingPolicy>)
    ensures |AlarmNamesOf(policies)| == AlarmCount(policies)
    ensures forall i, j :: 0 <= i < |policies| && 0 <= j < |policies[i].alarmNames| ==> policies[i].alarmNames[j] in AlarmNamesOf(policies)
  {
    if policies != [] {
      var front := policies[..|policies| - 1];
      AlarmNamesComplete(front);
      forall i, j | 0 <= i < |policies| && 0 <= j < |policies[i].alarmNames|
        ensures policies[i].alarmNames[j] in AlarmNamesOf(policies)
      {
        if i < |front| {
          assert front[i] == policies[i];
        }
      }
    }
  }

  /** alarmNames: the alarms of every scaling policy of the group, flattened in order. */
  method AlarmNames(policies: seq<ScalingPolicy>) returns (alarms: seq<Option<string>>)
    ensures alarms == AlarmNamesOf(policies)
  {
    alarms := [];
    var i := 0;
    while i < |policies|
      invariant 0 <= i <= |policies|
      invariant alarms == AlarmNamesOf(policies[..i])
    {
      var j := 0;
      while j < |policies[i].alarmNames|
        invariant 0 <= j <= |policies[i].alarmNames|
        invariant alarms == AlarmNamesOf(policies[..i]) + policies[i].alarmNames[..j]
      {
        alarms := alarms + [policies[i].alarmNames[j]];
        j := j + 1;
      }
      assert policies[..i + 1][..i] == policies[..i];
      assert policies[i].alarmNames[..j] == policies[i].alarmNames;
      i := i + 1;
    }
    assert policies[..i] == policies;
  }
}
