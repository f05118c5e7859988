/**
 * The resources a service refers to: the names recorded once they are
 * found, and the checks that each found resource exists in the requested
 * number and belongs to this project, config and service.
 */
module Resources {
  import opened Wrappers
  import opened Text
  import opened Tags
  import Ami
  import Subnets
  import SecurityGroups
  import TargetGroups
  import Asg

  /** An instance profile: its path decides which services may use it. */
  datatype Profile = Profile(path: Option<string>, arn: Option<string>)

  /** A classic load balancer and its identity tags. */
  datatype LoadBalancer = LoadBalancer(
    projectNameTag: Option<string>,
    configNameTag: Option<string>,
    serviceNameTag: Option<string>,
    loadBalancerName: Option<string>)

  /** The resources found for one service; nil entries are kept as `None`. */
  datatype ServiceResources = ServiceResources(
    image: Option<Ami.Image>,
    profile: Option<Profile>,
    prevASG: Option<Asg.ASG>,
    securityGroups: seq<Option<SecurityGroups.SecurityGroup>>,
    elbs: seq<Option<LoadBalancer>>,
    targetGroups: seq<Option<TargetGroups.TargetGroup>>,
    subnets: seq<Option<Subnets.Subnet>>)

  /** The names and ids recorded on the service for the create calls. */
  datatype ServiceResourceNames = ServiceResourceNames(
    image: Option<string>,
    profile: Option<string>,
    prevASG: Option<string>,
    securityGroups: seq<string>,
    elbs: seq<string>,
    targetGroups: seq<string>,
    subnets: seq<string>)

  /** What the resource checks read of a service. */
  datatype Identity = Identity(
    projectName: Option<string>,
    configName: Option<string>,
    name: Option<string>,
    releaseID: Option<string>)

  function SgID(g: SecurityGroups.SecurityGroup): Option<string> { g.groupID }
  function ElbName(lb: LoadBalancer): Option<string> { lb.loadBalancerName }
  function TgArn(tg: TargetGroups.TargetGroup): Option<string> { tg.targetGroupArn }
  function SubnetID(s: Subnets.Subnet): Option<string> { s.subnetID }

  /** The non-empty ids of the present items, in order. */
  function PresentIds<T>(items: seq<Option<T>>, id: T -> Option<string>): (r: seq<string>)
    ensures |r| <= |items|
    ensures forall k :: 0 <= k < |r| ==> r[k] != ""
  {
    if items == [] then []
    else
      var rest := PresentIds(items[..|items| - 1], id);
      var last := items[|items| - 1];
      if last.None? || EmptyStr(id(last.value)) then rest else rest + [id(last.value).value]
  }

  /** Every kept id is the id of one of the items. */
  lemma {:induction false} PresentIdsSound<T>(items: seq<Option<T>>, id: T -> Option<string>)
    ensures forall k :: 0 <= k < |PresentIds(items, id)| ==>
      exists i :: 0 <= i < |items| && items[i].Some? && id(items[i].value) == Some(PresentIds(items, id)[k])
  {
    if items != [] {
      var front := items[..|items| - 1];
      PresentIdsSound(front, id);
      var r, rf := PresentIds(items, id), PresentIds(front, id);
      var last := items[|items| - 1];
      assert r == (if last.None? || EmptyStr(id(last.value)) then rf else rf + [id(last.value).value]);
      forall k | 0 <= k < |r|
        ensures exists i :: 0 <= i < |items| && items[i].Some? && id(items[i].value) == Some(r[k])
      {
        if k < |rf| {
          assert exists i :: 0 <= i < |front| && front[i].Some? && id(front[i].value) == Some(PresentIds(front, id)[k]);
          var i :| 0 <= i < |front| && front[i].Some? && id(front[i].value) == Some(rf[k]);
          assert items[i] == front[i];
        } else {
          assert last.Some? && id(last.value) == Some(r[k]);
        }
      }
    } else {
      assert PresentIds(items, id) == [];
    }
  }

  /** No present item with a non-empty id is dropped. */
  lemma {:induction false} PresentIdsComplete<T>(items: seq<Option<T>>, id: T -> Option<string>)
    ensures forall i :: 0 <= i < |items| && items[i].Some? && !EmptyStr(id(items[i].value)) ==>
      id(items[i].value).value in PresentIds(items, id)
  {
    if items != [] {
      var front := items[..|items| - 1];
      PresentIdsComplete(front, id);
      assert forall i :: 0 <= i < |front| ==> front[i] == items[i];
      var r, rf := PresentIds(items, id), PresentIds(front, id);
      var last := items[|items| - 1];
      assert r == (if last.None? || EmptyStr(id(last.value)) then rf else rf + [id(last.value).value]);
      forall i | 0 <= i < |items| && items[i].Some? && !EmptyStr(id(items[i].value))
        ensures id(items[i].value).value in r
      {
        if i < |front| {
          assert id(front[i].value).value in rf;
        }
      }
    }
  }

  /** When every item is present with a non-empty id, every id is kept, in order. */
  lemma {:induction false} PresentIdsAll<T>(items: seq<Option<T>>, id: T -> Option<string>)
    requires forall i :: 0 <= i < |items| ==> items[i].Some? && !EmptyStr(id(items[i].value))
    ensures |PresentIds(items, id)| == |items|
    ensures forall i :: 0 <= i < |items| ==> Some(PresentIds(items, id)[i]) == id(items[i].value)
  {
    if items != [] {
      var front := items[..|items| - 1];
      assert forall i :: 0 <= i < |front| ==> front[i] == items[i];
      PresentIdsAll(front, id);
    }
  }

  /** One of the filtering loops of ToServiceResourceNames. */
  method KeepIds<T>(items: seq<Option<T>>, id: T -> Option<string>) returns (ids: seq<string>)
    ensures ids == PresentIds(items, id)
  {
    ids := [];
    for i := 0 to |items|
      invariant ids == PresentIds(items[..i], id)
    {
      assert items[..i + 1][..i] == items[..i];
      var item := items[i];
      if item.None? || EmptyStr(id(item.value)) {
        continue;
      }
      ids := ids + [id(item.value).value];
    }
    assert items[..|items|] == items;
  }

  /**
   * ToServiceResourceNames: the image id, profile ARN and previous group
   * name when present, and the non-empty ids of the present groups, load
   * balancers, target groups and subnets.
   */
  method ToServiceResourceNames(sr: ServiceResources) returns (names: ServiceResourceNames)
    ensures names.image == (if sr.image.Some? then sr.image.value.imageID else None)
    ensures names.profile == (if sr.profile.Some? then sr.profile.value.arn else None)
    ensures names.prevASG == (if sr.prevASG.Some? then sr.prevASG.value.autoScalingGroupName else None)
    ensures names.securityGroups == PresentIds(sr.securityGroups, SgID)
    ensures names.elbs == PresentIds(sr.elbs, ElbName)
    ensures names.targetGroups == PresentIds(sr.targetGroups, TgArn)
    ensures names.subnets == PresentIds(sr.subnets, SubnetID)
  {
    var im := if sr.image.Some? then sr.image.value.imageID else None;
    var profile := if sr.profile.Some? then sr.profile.value.arn else None;
    var prevASG := if sr.prevASG.Some? then sr.prevASG.value.autoScalingGroupName else None;
    var sgs := KeepIds(sr.securityGroups, SgID);
    var elbs := KeepIds(sr.elbs, ElbName);
    var tgs := KeepIds(sr.targetGroups, TgArn);
    var subnets := KeepIds(sr.subnets, SubnetID);
    names := ServiceResourceNames(im, profile, prevASG, sgs, elbs, tgs, subnets);
  }

  /** Why a found resource is rejected. */
  datatype ResourceError =
    | ImageNil
    | ImageDeployWithNil
    | ImageDeployWithWrong(actual: string)
    | CountMismatch(kind: string, found: nat, expected: nat)
    | ProfilePathNil
    | ProfilePathIncorrect(path: string, required: string)
    | PrevASGWrongProject
    | PrevASGWrongConfig
    | PrevASGWrongService
    | PrevASGReleaseIDNil
    | PrevASGSameRelease(releaseID: string)
    | SubnetNil
    | SubnetDeployWithNil
    | SubnetDeployWithWrong(actual: string)
    | ResourceNil(kind: string)
    | WrongProject(kind: string)
    | WrongConfig(kind: string)
    | WrongService(kind: string)

  const DeployWith := "odin"

  /** ValidateImage: the image exists and carries DeployWith=odin. */
  function ValidateImage(im: Option<Ami.Image>): (r: Outcome<ResourceError>)
    ensures r == Pass <==> im.Some? && im.value.deployWithTag == Some(DeployWith)
    ensures im.None? ==> r == Fail(ImageNil)
    ensures im.Some? && im.value.deployWithTag.None? ==> r == Fail(ImageDeployWithNil)
  {
    if im.None? then Fail(ImageNil)
    else if im.value.deployWithTag.None? then Fail(ImageDeployWithNil)
    else if im.value.deployWithTag.value != DeployWith then Fail(ImageDeployWithWrong(im.value.deployWithTag.value))
    else Pass
  }

  /** ValidateSubnet: the subnet exists and carries DeployWith=odin. */
  function ValidateSubnet(s: Option<Subnets.Subnet>): (r: Outcome<ResourceError>)
    ensures r == Pass <==> s.Some? && s.value.deployWithTag == Some(DeployWith)
    ensures s.None? ==> r == Fail(SubnetNil)
    ensures s.Some? && s.value.deployWithTag.None? ==> r == Fail(SubnetDeployWithNil)
  {
    if s.None? then Fail(SubnetNil)
    else if s.value.deployWithTag.None? then Fail(SubnetDeployWithNil)
    else if s.value.deployWithTag.value != DeployWith then Fail(SubnetDeployWithWrong(s.value.deployWithTag.value))
    else Pass
  }

  /** The previous group carries this service's project, config and service tags. */
  predicate PrevASGOwned(svc: Identity, a: Asg.ASG)
  {
    HasName(a.projectNameTag, svc.projectName) && HasName(a.configNameTag, svc.configName) &&
    HasName(a.serviceNameTag, svc.name)
  }

  /** The release id comparison dereferences the service's release id. */
  predicate PrevASGDerefs(svc: Identity, prev: Option<Asg.ASG>)
  {
    prev.Some? && PrevASGOwned(svc, prev.value) && Asg.ReleaseID(prev.value).Some? ==> svc.releaseID.Some?
  }

  /**
   * ValidatePrevASG: no previous group is fine; otherwise it must belong to
   * this project, config and service, and come from a different release.
   */
  function ValidatePrevASG(svc: Identity, prev: Option<Asg.ASG>): (r: Outcome<ResourceError>)
    requires PrevASGDerefs(svc, prev)
    ensures r == Pass <==>
      prev.None? ||
      (PrevASGOwned(svc, prev.value) && Asg.ReleaseID(prev.value).Some? && Asg.ReleaseID(prev.value) != svc.releaseID)
    ensures prev.Some? && PrevASGOwned(svc, prev.value) && Asg.ReleaseID(prev.value) == svc.releaseID ==> r.Fail?
  {
    if prev.None? then Pass
    else
      var a := prev.value;
      if !HasName(a.projectNameTag, svc.projectName) then Fail(PrevASGWrongProject)
      else if !HasName(a.configNameTag, svc.configName) then Fail(PrevASGWrongConfig)
      else if !HasName(a.serviceNameTag, svc.name) then Fail(PrevASGWrongService)
      else if Asg.ReleaseID(a).None? then Fail(PrevASGReleaseIDNil)
      else if Asg.ReleaseID(a).value == svc.releaseID.value then Fail(PrevASGSameRelease(svc.releaseID.value))
      else Pass
  }

  const AllValue := "_all"

  /** The IAM path `/project/config/service/`. */
  function ProfilePath(project: string, config: string, service: string): string
  {
    "/" + project + "/" + config + "/" + service + "/"
  }

  /** The paths a service accepts: its own, then with `_all` for the service, the config, and the project. */
  function ProfilePaths(project: string, config: string, service: string): (r: seq<string>)
    ensures |r| == 4 && r[0] == ProfilePath(project, config, service)
    ensures r[3] == ProfilePath(AllValue, AllValue, AllValue)
  {
    [ProfilePath(project, config, service), ProfilePath(project, config, AllValue),
     ProfilePath(project, AllValue, AllValue), ProfilePath(AllValue, AllValue, AllValue)]
  }

  /** The path check dereferences the service's project, config and name. */
  predicate ProfileDerefs(svc: Identity, profile: Option<Profile>)
  {
    profile.Some? && profile.value.path.Some? ==> svc.projectName.Some? && svc.configName.Some? && svc.name.Some?
  }

  /**
   * ValidateIAMProfile: no profile is fine; otherwise its path must be one of
   * the four the service accepts.
   */
  function ValidateIAMProfile(svc: Identity, profile: Option<Profile>): (r: Outcome<ResourceError>)
    requires ProfileDerefs(svc, profile)
    ensures r == Pass <==>
      profile.None? ||
      (profile.value.path.Some? &&
       profile.value.path.value in ProfilePaths(svc.projectName.value, svc.configName.value, svc.name.value))
    ensures profile.Some? && profile.value.path.None? ==> r == Fail(ProfilePathNil)
  {
    if profile.None? then Pass
    else if profile.value.path.None? then Fail(ProfilePathNil)
    else
      var paths := ProfilePaths(svc.projectName.value, svc.configName.value, svc.name.value);
      if profile.value.path.value in paths then Pass
      else Fail(ProfilePathIncorrect(profile.value.path.value, paths[0]))
  }

  predicate NoSlash(s: string)
  {
    forall i :: 0 <= i < |s| ==> s[i] != '/'
  }

  /** The index of the first slash, or the length when there is none. */
  function SlashIndex(s: string): (r: nat)
    ensures r <= |s|
  {
    if s == [] || s[0] == '/' then 0 else 1 + SlashIndex(s[1..])
  }

  lemma {:induction false} SlashIndexAfter(a: string, rest: string)
    requires NoSlash(a)
    ensures SlashIndex(a + "/" + rest) == |a|
  {
    if a != [] {
      assert (a + "/" + rest)[1..] == a[1..] + "/" + rest;
      SlashIndexAfter(a[1..], rest);
    }
  }

  /** A slash-free segment followed by a slash is determined by the string it starts. */
  lemma SegmentDetermined(a: string, b: string, restA: string, restB: string)
    requires NoSlash(a) && NoSlash(b)
    requires a + "/" + restA == b + "/" + restB
    ensures a == b && restA == restB
  {
    var s := a + "/" + restA;
    SlashIndexAfter(a, restA);
    SlashIndexAfter(b, restB);
    assert a == s[..|a|] == b;
    assert restA == s[|a| + 1..] == restB;
  }

  /** Paths built from slash-free names are equal only for equal names. */
  lemma {:induction false} ProfilePathInjective(p: string, c: string, s: string, p2: string, c2: string, s2: string)
    requires NoSlash(p) && NoSlash(c) && NoSlash(s) && NoSlash(p2) && NoSlash(c2) && NoSlash(s2)
    requires ProfilePath(p, c, s) == ProfilePath(p2, c2, s2)
    ensures p == p2 && c == c2 && s == s2
  {
    var x := ProfilePath(p, c, s);
    assert x[1..] == p + "/" + (c + "/" + (s + "/"));
    assert ProfilePath(p2, c2, s2)[1..] == p2 + "/" + (c2 + "/" + (s2 + "/"));
    SegmentDetermined(p, p2, c + "/" + (s + "/"), c2 + "/" + (s2 + "/"));
    SegmentDetermined(c, c2, s + "/", s2 + "/");
    SegmentDetermined(s, s2, "", "");
  }

  /** A profile kept under another project's path is refused, whatever its config and service segments. */
  lemma OtherProjectProfileRejected(svc: Identity, other: string, config: string, service: string)
    requires svc.projectName.Some? && svc.configName.Some? && svc.name.Some?
    requires NoSlash(svc.projectName.value) && NoSlash(svc.configName.value) && NoSlash(svc.name.value)
    requires NoSlash(other) && NoSlash(config) && NoSlash(service)
    requires other != svc.projectName.value && other != AllValue
    ensures ValidateIAMProfile(svc, Some(Profile(Some(ProfilePath(other, config, service)), None))).Fail?
  {
    var p, c, n := svc.projectName.value, svc.configName.value, svc.name.value;
    var path := ProfilePath(other, config, service);
    var paths := ProfilePaths(p, c, n);
    assert NoSlash(AllValue);
    if path == paths[0] { ProfilePathInjective(other, config, service, p, c, n); }
    if path == paths[1] { ProfilePathInjective(other, config, service, p, c, AllValue); }
    if path == paths[2] { ProfilePathInjective(other, config, service, p, AllValue, AllValue); }
    if path == paths[3] { ProfilePathInjective(other, config, service, AllValue, AllValue, AllValue); }
  }

  /** The project, config and service tags of a security group, load balancer or target group. */
  datatype Owner = Owner(projectName: Option<string>, configName: Option<string>, serviceName: Option<string>)

  function SgOwner(g: Option<SecurityGroups.SecurityGroup>): Option<Owner>
  {
    if g.None? then None else Some(Owner(g.value.projectNameTag, g.value.configNameTag, g.value.serviceNameTag))
  }

  function ElbOwner(lb: Option<LoadBalancer>): Option<Owner>
  {
    if lb.None? then None else Some(Owner(lb.value.projectNameTag, lb.value.configNameTag, lb.value.serviceNameTag))
  }

  function TgOwner(tg: Option<TargetGroups.TargetGroup>): Option<Owner>
  {
    if tg.None? then None else Some(Owner(tg.value.projectNameTag, tg.value.configNameTag, tg.value.serviceNameTag))
  }

  /** The tag names the wanted value, or is the `_all` wildcard. */
  predicate TagAccepts(tag: Option<string>, want: Option<string>)
  {
    HasName(tag, want) || HasAllValue(tag)
  }

  /**
   * validateProjectConfigServiceNames: the resource exists, and each of its
   * project, config and service tags is this service's value or `_all`.
   */
  function ValidateOwner(kind: string, svc: Identity, owner: Option<Owner>): (r: Outcome<ResourceError>)
    ensures r == Pass <==>
      owner.Some? && TagAccepts(owner.value.projectName, svc.projectName) &&
      TagAccepts(owner.value.configName, svc.configName) && TagAccepts(owner.value.serviceName, svc.name)
    ensures owner.None? ==> r == Fail(ResourceNil(kind))
    ensures owner.Some? && !TagAccepts(owner.value.projectName, svc.projectName) ==> r == Fail(WrongProject(kind))
  {
    if owner.None? then Fail(ResourceNil(kind))
    else if !TagAccepts(owner.value.projectName, svc.projectName) then Fail(WrongProject(kind))
    else if !TagAccepts(owner.value.configName, svc.configName) then Fail(WrongConfig(kind))
    else if !TagAccepts(owner.value.serviceName, svc.name) then Fail(WrongService(kind))
    else Pass
  }

  /** Resources tagged `_all` everywhere are shared by every service; untagged ones by none. */
  lemma OwnerWildcards(kind: string, svc: Identity)
    ensures ValidateOwner(kind, svc, Some(Owner(Some(AllValue), Some(AllValue), Some(AllValue)))) == Pass
    ensures ValidateOwner(kind, svc, Some(Owner(None, None, None))) == Fail(WrongProject(kind))
  {
  }

  /** The names the service asked for, one list per kind. */
  datatype Requested = Requested(
    securityGroups: seq<Option<string>>,
    elbs: seq<Option<string>>,
    targetGroups: seq<Option<string>>,
    subnets: seq<Option<string>>)

  /** validateAttributes: an image, and as many of each kind as were asked for. */
  function ValidateCounts(sr: ServiceResources, req: Requested): (r: Outcome<ResourceError>)
    ensures r == Pass <==>
      sr.image.Some? && |sr.securityGroups| == |req.securityGroups| && |sr.elbs| == |req.elbs| &&
      |sr.targetGroups| == |req.targetGroups| && |sr.subnets| == |req.subnets|
  {
    if sr.image.None? then Fail(ImageNil)
    else if |req.securityGroups| != |sr.securityGroups| then
      Fail(CountMismatch("Security Group", |sr.securityGroups|, |req.securityGroups|))
    else if |req.elbs| != |sr.elbs| then Fail(CountMismatch("ELB", |sr.elbs|, |req.elbs|))
    else if |req.targetGroups| != |sr.targetGroups| then
      Fail(CountMismatch("TargetGroup", |sr.targetGroups|, |req.targetGroups|))
    else if |req.subnets| != |sr.subnets| then Fail(CountMismatch("Subnets", |sr.subnets|, |req.subnets|))
    else Pass
  }

  /** The first subnet that fails ValidateSubnet, in list order. */
  function FirstBadSubnet(subnets: seq<Option<Subnets.Subnet>>): (r: Outcome<ResourceError>)
    ensures r == Pass <==> forall i :: 0 <= i < |subnets| ==> ValidateSubnet(subnets[i]) == Pass
    ensures r.Fail? ==> exists i :: 0 <= i < |subnets| && ValidateSubnet(subnets[i]) == r
  {
    if subnets == [] then Pass
    else if ValidateSubnet(subnets[0]).Fail? then ValidateSubnet(subnets[0])
    else
      assert forall i :: 1 <= i < |subnets| ==> subnets[1..][i - 1] == subnets[i];
      FirstBadSubnet(subnets[1..])
  }

  /** The first owner that fails ValidateOwner, in list order. */
  function FirstBadOwner(kind: string, svc: Identity, owners: seq<Option<Owner>>): (r: Outcome<ResourceError>)
    ensures r == Pass <==> forall i :: 0 <= i < |owners| ==> ValidateOwner(kind, svc, owners[i]) == Pass
    ensures r.Fail? ==> exists i :: 0 <= i < |owners| && ValidateOwner(kind, svc, owners[i]) == r
  {
    if owners == [] then Pass
    else if ValidateOwner(kind, svc, owners[0]).Fail? then ValidateOwner(kind, svc, owners[0])
    else
      assert forall i :: 1 <= i < |owners| ==> owners[1..][i - 1] == owners[i];
      FirstBadOwner(kind, svc, owners[1..])
  }

  function SgOwners(sgs: seq<Option<SecurityGroups.SecurityGroup>>): (r: seq<Option<Owner>>)
    ensures |r| == |sgs| && forall i :: 0 <= i < |sgs| ==> r[i] == SgOwner(sgs[i])
  {
    seq(|sgs|, i requires 0 <= i < |sgs| => SgOwner(sgs[i]))
  }

  function ElbOwners(elbs: seq<Option<LoadBalancer>>): (r: seq<Option<Owner>>)
    ensures |r| == |elbs| && forall i :: 0 <= i < |elbs| ==> r[i] == ElbOwner(elbs[i])
  {
    seq(|elbs|, i requires 0 <= i < |elbs| => ElbOwner(elbs[i]))
  }

  function TgOwners(tgs: seq<Option<TargetGroups.TargetGroup>>): (r: seq<Option<Owner>>)
    ensures |r| == |tgs| && forall i :: 0 <= i < |tgs| ==> r[i] == TgOwner(tgs[i])
  {
    seq(|tgs|, i requires 0 <= i < |tgs| => TgOwner(tgs[i]))
  }

  /** The checks of ServiceResources.Validate, in the order they run. */
  function ValidateSpec(sr: ServiceResources, svc: Identity, req: Requested): Outcome<ResourceError>
    requires ProfileDerefs(svc, sr.profile) && PrevASGDerefs(svc, sr.prevASG)
  {
    if ValidateCounts(sr, req).Fail? then ValidateCounts(sr, req)
    else if ValidateImage(sr.image).Fail? then ValidateImage(sr.image)
    else if ValidateIAMProfile(svc, sr.profile).Fail? then ValidateIAMProfile(svc, sr.profile)
    else if ValidatePrevASG(svc, sr.prevASG).Fail? then ValidatePrevASG(svc, sr.prevASG)
    else if FirstBadSubnet(sr.subnets).Fail? then FirstBadSubnet(sr.subnets)
    else if FirstBadOwner("SecurityGroup", svc, SgOwners(sr.securityGroups)).Fail? then
      FirstBadOwner("SecurityGroup", svc, SgOwners(sr.securityGroups))
    else if FirstBadOwner("ELB", svc, ElbOwners(sr.elbs)).Fail? then FirstBadOwner("ELB", svc, ElbOwners(sr.elbs))
    else FirstBadOwner("TargetGroup", svc, TgOwners(sr.targetGroups))
  }

  /** The resources pass exactly when every individual check passes. */
  lemma ValidateSpecPassIff(sr: ServiceResources, svc: Identity, req: Requested)
    requires ProfileDerefs(svc, sr.profile) && PrevASGDerefs(svc, sr.prevASG)
    ensures ValidateSpec(sr, svc, req) == Pass <==>
      ValidateCounts(sr, req) == Pass && ValidateImage(sr.image) == Pass &&
      ValidateIAMProfile(svc, sr.profile) == Pass && ValidatePrevASG(svc, sr.prevASG) == Pass &&
      (forall i :: 0 <= i < |sr.subnets| ==> ValidateSubnet(sr.subnets[i]) == Pass) &&
      (forall i :: 0 <= i < |sr.securityGroups| ==> ValidateOwner("SecurityGroup", svc, SgOwner(sr.securityGroups[i])) == Pass) &&
      (forall i :: 0 <= i < |sr.elbs| ==> ValidateOwner("ELB", svc, ElbOwner(sr.elbs[i])) == Pass) &&
      (forall i :: 0 <= i < |sr.targetGroups| ==> ValidateOwner("TargetGroup", svc, TgOwner(sr.targetGroups[i])) == Pass)
  {
    var sgo, elbo, tgo := SgOwners(sr.securityGroups), ElbOwners(sr.elbs), TgOwners(sr.targetGroups);
    assert (forall i :: 0 <= i < |sgo| ==> ValidateOwner("SecurityGroup", svc, sgo[i]) == Pass) <==>
      (forall i :: 0 <= i < |sr.securityGroups| ==> ValidateOwner("SecurityGroup", svc, SgOwner(sr.securityGroups[i])) == Pass);
    assert (forall i :: 0 <= i < |elbo| ==> ValidateOwner("ELB", svc, elbo[i]) == Pass) <==>
      (forall i :: 0 <= i < |sr.elbs| ==> ValidateOwner("ELB", svc, ElbOwner(sr.elbs[i])) == Pass);
    assert (forall i :: 0 <= i < |tgo| ==> ValidateOwner("TargetGroup", svc, tgo[i]) == Pass) <==>
      (forall i :: 0 <= i < |sr.targetGroups| ==> ValidateOwner("TargetGroup", svc, TgOwner(sr.targetGroups[i])) == Pass);
  }

  /** The subnet loop of Validate. */
  method CheckSubnets(subnets: seq<Option<Subnets.Subnet>>) returns (r: Outcome<ResourceError>)
    ensures r == FirstBadSubnet(subnets)
  {
    for i := 0 to |subnets|
      invariant FirstBadSubnet(subnets) == FirstBadSubnet(subnets[i..])
    {
      assert subnets[i..][1..] == subnets[i + 1..];
      var check := ValidateSubnet(subnets[i]);
      if check.Fail? {
        return check;
      }
    }
    r := Pass;
  }

  /** The security group, load balancer and target group loops of Validate. */
  method CheckOwners(kind: string, svc: Identity, owners: seq<Option<Owner>>) returns (r: Outcome<ResourceError>)
    ensures r == FirstBadOwner(kind, svc, owners)
  {
    for i := 0 to |owners|
      invariant FirstBadOwner(kind, svc, owners) == FirstBadOwner(kind, svc, owners[i..])
    {
      assert owners[i..][1..] == owners[i + 1..];
      var check := ValidateOwner(kind, svc, owners[i]);
      if check.Fail? {
        return check;
      }
    }
    r := Pass;
  }

  /** ServiceResources.Validate: the checks in order, stopping at the first failure. */
  method Validate(sr: ServiceResources, svc: Identity, req: Requested) returns (r: Outcome<ResourceError>)
    requires ProfileDerefs(svc, sr.profile) && PrevASGDerefs(svc, sr.prevASG)
    ensures r == ValidateSpec(sr, svc, req)
  {
    r := ValidateCounts(sr, req);
    if r.Fail? { return; }
    r := ValidateImage(sr.image);
    if r.Fail? { return; }
    r := ValidateIAMProfile(svc, sr.profile);
    if r.Fail? { return; }
    r := ValidatePrevASG(svc, sr.prevASG);
    if r.Fail? { return; }
    r := CheckSubnets(sr.subnets);
    if r.Fail? { return; }
    r := CheckOwners("SecurityGroup", svc, SgOwners(sr.securityGroups));
    if r.Fail? { return; }
    r := CheckOwners("ELB", svc, ElbOwners(sr.elbs));
    if r.Fail? { return; }
    r := CheckOwners("TargetGroup", svc, TgOwners(sr.targetGroups));
  }
}
