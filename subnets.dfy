/**
 * Subnet lookup: the requested names are split into subnet ids and Name
 * tags, looked up with one query each, and the combined answer must have
 * exactly as many subnets as were requested.
 */
module Subnets {
  import opened Wrappers
  import opened Tags
  import Seqs

  /** A subnet as the deployer records it. */
  datatype Subnet = Subnet(subnetID: Option<string>, deployWithTag: Option<string>)

  /** A subnet as the describe call returns it. */
  datatype AwsSubnet = AwsSubnet(subnetId: Option<string>, tags: seq<Tag>)

  /** isID: at least 8 characters, starting with "subnet-". */
  predicate IsID(name: string)
  {
    |name| >= 8 && name[0..7] == "subnet-"
  }

  predicate IsTag(name: string)
  {
    !IsID(name)
  }

  /** The isID test cases. */
  lemma IsIDCases()
    ensures IsID("subnet-asfasf")
    ensures !IsID("ubuntu") && !IsID("subnetgfjosd")
  {
    assert "subnetgfjosd"[0..7] == "subnetg";
  }

  /** splitIDsTags: ids and tags in their original order; together they are the input. */
  method SplitIDsTags(names: seq<string>) returns (ids: seq<string>, tags: seq<string>)
    ensures ids == Seqs.Filter(names, IsID) && tags == Seqs.Filter(names, IsTag)
    ensures |ids| + |tags| == |names|
    ensures multiset(ids) + multiset(tags) == multiset(names)
  {
    ids, tags := [], [];
    for i := 0 to |names|
      invariant ids == Seqs.Filter(names[..i], IsID) && tags == Seqs.Filter(names[..i], IsTag)
    {
      assert names[..i + 1] == names[..i] + [names[i]];
      Seqs.FilterSnoc(names[..i], names[i], IsID);
      Seqs.FilterSnoc(names[..i], names[i], IsTag);
      if IsID(names[i]) {
        ids := ids + [names[i]];
      } else {
        tags := tags + [names[i]];
      }
    }
    assert names[..|names|] == names;
    Seqs.FilterPartition(names, IsID, IsTag);
  }

  /** The subnet record for one described subnet. */
  function ToSubnet(s: AwsSubnet): Subnet
  {
    Subnet(s.subnetId, FetchTag(s.tags, Some("DeployWith")))
  }

  /** find: one record per described subnet, in order. */
  function ToSubnets(described: seq<AwsSubnet>): (r: seq<Subnet>)
    ensures |r| == |described|
    ensures forall i :: 0 <= i < |described| ==> r[i] == ToSubnet(described[i])
  {
    if described == [] then [] else ToSubnets(described[..|described| - 1]) + [ToSubnet(described[|described| - 1])]
  }

  datatype SubnetError = IncorrectNumber(found: nat, required: nat) | DescribeFailed(message: string)

  /** Some of the names are subnet ids, so the id query is made. */
  predicate QueriesIDs(names: seq<string>)
  {
    |Seqs.Filter(names, IsID)| > 0
  }

  /** Some of the names are Name tags, so the tag query is made. */
  predicate QueriesTags(names: seq<string>)
  {
    |Seqs.Filter(names, IsTag)| > 0
  }

  /**
   * Find: the id query's subnets followed by the tag query's, each query made
   * only when it has names, and a failed query's error returned at once; the
   * total must equal the number requested.
   */
  function Find(names: seq<string>, byID: Result<seq<AwsSubnet>, string>, byTag: Result<seq<AwsSubnet>, string>)
    : (r: Result<seq<Subnet>, SubnetError>)
    ensures QueriesIDs(names) && byID.Err? ==> r == Err(DescribeFailed(byID.error))
    ensures !(QueriesIDs(names) && byID.Err?) && QueriesTags(names) && byTag.Err? ==> r == Err(DescribeFailed(byTag.error))
    ensures (QueriesIDs(names) ==> byID.Ok?) && (QueriesTags(names) ==> byTag.Ok?) ==>
            var idPart := if QueriesIDs(names) then ToSubnets(byID.value) else [];
            var tagPart := if QueriesTags(names) then ToSubnets(byTag.value) else [];
            (r.Ok? <==> |idPart| + |tagPart| == |names|) &&
            (r.Ok? ==> r.value == idPart + tagPart) &&
            (r.Err? ==> r.error == IncorrectNumber(|idPart| + |tagPart|, |names|))
  {
    if QueriesIDs(names) && byID.Err? then Err(DescribeFailed(byID.error))
    else if QueriesTags(names) && byTag.Err? then Err(DescribeFailed(byTag.error))
    else
      var idPart := if QueriesIDs(names) then ToSubnets(byID.value) else [];
      var tagPart := if QueriesTags(names) then ToSubnets(byTag.value) else [];
      var subnets := idPart + tagPart;
      if |subnets| != |names| then Err(IncorrectNumber(|subnets|, |names|)) else Ok(subnets)
  }

  /** With only ids requested the tag query is never consulted, and with only tags the id query is not. */
  lemma FindUsesOneQuery(names: seq<string>, byID: Result<seq<AwsSubnet>, string>, byTag: Result<seq<AwsSubnet>, string>,
                         other: Result<seq<AwsSubnet>, string>)
    ensures (forall i :: 0 <= i < |names| ==> IsID(names[i])) ==> Find(names, byID, byTag) == Find(names, byID, other)
    ensures (forall i :: 0 <= i < |names| ==> IsTag(names[i])) ==> Find(names, byID, byTag) == Find(names, other, byTag)
  {
    if forall i :: 0 <= i < |names| ==> IsID(names[i]) {
      Seqs.FilterNone(names, IsTag);
    }
    if forall i :: 0 <= i < |names| ==> IsTag(names[i]) {
      Seqs.FilterNone(names, IsID);
    }
  }
}
