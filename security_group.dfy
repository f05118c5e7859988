/**
 * Security group lookup by Name tag: every requested name must match
 * exactly one returned group, and no extra groups may come back.
 */
module SecurityGroups {
  import opened Wrappers
  import opened Tags

  /** A security group as the deployer records it. */
  datatype SecurityGroup = SecurityGroup(
    nameTag: Option<string>,
    projectNameTag: Option<string>,
    configNameTag: Option<string>,
    serviceNameTag: Option<string>,
    groupID: Option<string>)

  /** A security group as the describe call returns it. */
  datatype AwsSecurityGroup = AwsSecurityGroup(groupId: Option<string>, tags: seq<Tag>)

  /** The record for one described group: its id and identity tags. */
  function NewSG(g: AwsSecurityGroup): SecurityGroup
  {
    SecurityGroup(
      FetchTag(g.tags, Some("Name")), FetchTag(g.tags, Some("ProjectName")),
      FetchTag(g.tags, Some("ConfigName")), FetchTag(g.tags, Some("ServiceName")), g.groupId)
  }

  /** One record per described group, in order. */
  function NewSGsOf(output: seq<AwsSecurityGroup>): (sgs: seq<SecurityGroup>)
    ensures |sgs| == |output|
  {
    if output == [] then [] else NewSGsOf(output[..|output| - 1]) + [NewSG(output[|output| - 1])]
  }

  /** Each described group gives the record at its own position, with its own id. */
  lemma {:induction false} NewSGsOfAt(output: seq<AwsSecurityGroup>, i: int)
    requires 0 <= i < |output|
    ensures NewSGsOf(output)[i] == NewSG(output[i])
    ensures NewSGsOf(output)[i].groupID == output[i].groupId
    decreases |output|
  {
    if i < |output| - 1 {
      NewSGsOfAt(output[..|output| - 1], i);
    }
  }

  /** newSGs: maps each group in order, keeping its id. */
  method NewSGs(output: seq<AwsSecurityGroup>) returns (sgs: seq<SecurityGroup>)
    ensures sgs == NewSGsOf(output)
  {
    sgs := [];
    for i := 0 to |output|
      invariant sgs == NewSGsOf(output[..i])
    {
      assert output[..i + 1][..i] == output[..i];
      sgs := sgs + [NewSG(output[i])];
    }
    assert output[..|output|] == output;
  }

  /** The number of groups whose Name tag is `name`. */
  function Matches(sgs: seq<SecurityGroup>, name: string): (n: nat)
    ensures n <= |sgs|
    ensures n == 0 <==> forall i :: 0 <= i < |sgs| ==> sgs[i].nameTag != Some(name)
  {
    if sgs == [] then 0
    else Matches(sgs[..|sgs| - 1], name) + (if sgs[|sgs| - 1].nameTag == Some(name) then 1 else 0)
  }

  datatype SgError =
    | IncorrectNameTag(name: string)
    | NotFound(name: string)
    | TooManyFound(name: string)
    | WrongCount(found: nat, required: nat)
    | DescribeFailed(message: string)

  predicate AllNamed(sgs: seq<SecurityGroup>)
  {
    forall i :: 0 <= i < |sgs| ==> sgs[i].nameTag.Some?
  }

  /** The first requested name that does not match exactly one group. */
  function CheckNames(names: seq<string>, sgs: seq<SecurityGroup>): (r: Outcome<SgError>)
    ensures r == Pass <==> forall i :: 0 <= i < |names| ==> Matches(sgs, names[i]) == 1
    ensures r.Fail? ==> r.error.NotFound? || r.error.TooManyFound?
  {
    if names == [] then Pass
    else
      var n := Matches(sgs, names[0]);
      if n == 0 then Fail(NotFound(names[0]))
      else if n > 1 then Fail(TooManyFound(names[0]))
      else
        var rest := CheckNames(names[1..], sgs);
        assert forall i :: 1 <= i < |names| ==> names[1..][i - 1] == names[i];
        rest
  }

  /**
   * The outcome of Find for the groups returned: a group without a Name tag
   * fails as soon as there is a name to check; then each name in order must
   * match exactly once; finally the counts must agree.
   */
  function FindResult(names: seq<string>, sgs: seq<SecurityGroup>): (r: Result<seq<SecurityGroup>, SgError>)
    ensures r.Ok? <==> AllNamed(sgs) && (forall i :: 0 <= i < |names| ==> Matches(sgs, names[i]) == 1) && |sgs| == |names|
    ensures r.Ok? ==> r.value == sgs
    ensures |names| > 0 && !AllNamed(sgs) ==> r == Err(IncorrectNameTag(names[0]))
  {
    if |names| > 0 && !AllNamed(sgs) then Err(IncorrectNameTag(names[0]))
    else
      match CheckNames(names, sgs)
      case Fail(e) => Err(e)
      case Pass =>
        if |sgs| != |names| then
          Err(WrongCount(|sgs|, |names|))
        else
          assert |names| == 0 ==> AllNamed(sgs);
          Ok(sgs)
  }

  /** Counting the matches for one name, failing at the first group without a Name tag. */
  method CountMatches(sgs: seq<SecurityGroup>, name: string) returns (r: Result<nat, SgError>)
    ensures r.Ok? <==> AllNamed(sgs)
    ensures r.Ok? ==> r.value == Matches(sgs, name)
    ensures r.Err? ==> r.error == IncorrectNameTag(name)
  {
    var matches := 0;
    for j := 0 to |sgs|
      invariant AllNamed(sgs[..j]) && matches == Matches(sgs[..j], name)
    {
      if sgs[j].nameTag.None? {
        return Err(IncorrectNameTag(name));
      }
      assert sgs[..j + 1][..j] == sgs[..j];
      if sgs[j].nameTag.value == name {
        matches := matches + 1;
      }
    }
    assert sgs[..|sgs|] == sgs;
    r := Ok(matches);
  }

  /** Find, given the describe call's error or the groups it returned for the requested Name tags. */
  method Find(names: seq<string>, described: Result<seq<AwsSecurityGroup>, string>) returns (r: Result<seq<SecurityGroup>, SgError>)
    ensures described.Err? ==> r == Err(DescribeFailed(described.error))
    ensures described.Ok? ==> r == FindResult(names, NewSGsOf(described.value))
  {
    if described.Err? {
      return Err(DescribeFailed(described.error));
    }
    var sgs := NewSGs(described.value);
    for i := 0 to |names|
      invariant forall k :: 0 <= k < i ==> Matches(sgs, names[k]) == 1
      invariant i > 0 ==> AllNamed(sgs)
      invariant CheckNames(names, sgs) == CheckNames(names[i..], sgs)
    {
      var counted := CountMatches(sgs, names[i]);
      if counted.Err? {
        assert i == 0;
        return Err(counted.error);
      }
      assert names[i..][1..] == names[i + 1..];
      if counted.value == 0 {
        return Err(NotFound(names[i]));
      } else if counted.value > 1 {
        return Err(TooManyFound(names[i]));
      }
    }
    if |sgs| != |names| {
      return Err(WrongCount(|sgs|, |names|));
    }
    r := Ok(sgs);
  }
}
