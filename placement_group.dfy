/**
 * Partition placement groups: find the group by name, create it when it is
 * missing, and otherwise check that the existing one has the requested
 * state, name, strategy and partition count.
 */
module PlacementGroups {
  import opened Wrappers
  import opened Text

  /** A placement group as the describe call returns it. */
  datatype PlacementGroup = PlacementGroup(
    groupName: Option<string>,
    state: Option<string>,
    strategy: Option<string>,
    partitionCount: Option<int>)

  datatype PgError =
    | GroupNameNil
    | InvalidState(state: string)
    | InvalidName(name: string)
    | InvalidStrategy(strategy: string)
    | PartitionCountNil
    | InvalidPartitionCount(found: int, wanted: int)
    | CreateFailed(message: string)
    | DescribeFailed(message: string)

  /** findPlacementGroup: the first returned group whose name is exactly the requested one (an absent name reads as ""). */
  function FindPlacementGroup(groupName: string, groups: seq<PlacementGroup>): (r: Option<PlacementGroup>)
    ensures r.None? <==> forall i :: 0 <= i < |groups| ==> Deref(groups[i].groupName) != groupName
    ensures r.Some? ==> exists i :: 0 <= i < |groups| && groups[i] == r.value &&
                          Deref(r.value.groupName) == groupName &&
                          forall k :: 0 <= k < i ==> Deref(groups[k].groupName) != groupName
  {
    if groups == [] then None
    else if Deref(groups[0].groupName) == groupName then Some(groups[0])
    else
      var rest := FindPlacementGroup(groupName, groups[1..]);
      assert forall i :: 1 <= i < |groups| ==> groups[1..][i - 1] == groups[i];
      if rest.Some? then
        var i :| 0 <= i < |groups[1..]| && groups[1..][i] == rest.value &&
                 Deref(rest.value.groupName) == groupName &&
                 forall k :: 0 <= k < i ==> Deref(groups[1..][k].groupName) != groupName;
        assert groups[i + 1] == rest.value;
        rest
      else rest
  }

  /** The guards of validatePlacementGroup that come before the partition count. */
  predicate StateNameStrategyMatch(pg: PlacementGroup, groupName: Option<string>, strategy: Option<string>)
  {
    Deref(pg.state) == "available" && Deref(groupName) == Deref(pg.groupName) && Deref(strategy) == Deref(pg.strategy)
  }

  /**
   * validatePlacementGroup: state "available", then the name, then the
   * strategy; the partition counts only matter for the "partition" strategy,
   * where both must be present and equal.
   */
  function ValidatePlacementGroup(pg: PlacementGroup, groupName: Option<string>, partitionCount: Option<int>, strategy: Option<string>)
    : (r: Outcome<PgError>)
    requires StateNameStrategyMatch(pg, groupName, strategy) ==> strategy.Some?
    ensures Deref(pg.state) != "available" ==> r == Fail(InvalidState(Deref(pg.state)))
    ensures r == Pass <==>
              StateNameStrategyMatch(pg, groupName, strategy) &&
              (strategy.value == "partition" ==> partitionCount.Some? && pg.partitionCount == partitionCount)
    ensures StateNameStrategyMatch(pg, groupName, strategy) && strategy.value != "partition" ==> r == Pass
  {
    if Deref(pg.state) != "available" then Fail(InvalidState(Deref(pg.state)))
    else if Deref(groupName) != Deref(pg.groupName) then Fail(InvalidName(Deref(pg.groupName)))
    else if Deref(strategy) != Deref(pg.strategy) then Fail(InvalidStrategy(Deref(pg.strategy)))
    else if strategy.value != "partition" then Pass
    else if partitionCount.None? || pg.partitionCount.None? then Fail(PartitionCountNil)
    else if partitionCount.value != pg.partitionCount.value then Fail(InvalidPartitionCount(pg.partitionCount.value, partitionCount.value))
    else Pass
  }

  /** The create request sent when no group is found. */
  datatype CreateRequest = CreateRequest(groupName: string, partitionCount: Option<int>, strategy: Option<string>)

  /**
   * FindOrCreatePartitionGroup, given the describe call's error or the
   * groups it returned, and the outcome of the create call: the create
   * request it issues, if any, and its outcome.
   */
  function FindOrCreatePartitionGroup(groupName: Option<string>, partitionCount: Option<int>, strategy: Option<string>,
                                      described: Result<seq<PlacementGroup>, string>, createResult: Outcome<string>)
    : (r: (Option<CreateRequest>, Outcome<PgError>))
    requires (groupName.Some? && described.Ok? && FindPlacementGroup(groupName.value, described.value).Some? &&
              StateNameStrategyMatch(FindPlacementGroup(groupName.value, described.value).value, groupName, strategy))
             ==> strategy.Some?
    ensures groupName.None? ==> r == (None, Fail(GroupNameNil))
    ensures groupName.Some? && described.Err? ==> r == (None, Fail(DescribeFailed(described.error)))
    ensures r.0.Some? <==> groupName.Some? && described.Ok? &&
                           forall i :: 0 <= i < |described.value| ==> Deref(described.value[i].groupName) != groupName.value
    ensures r.0.Some? ==> r.0.value == CreateRequest(groupName.value, partitionCount, strategy) &&
                          (r.1 == Pass <==> createResult == Pass)
    ensures groupName.Some? && described.Ok? && r.0.None? ==>
              r.1 == ValidatePlacementGroup(FindPlacementGroup(groupName.value, described.value).value, groupName, partitionCount, strategy)
  {
    if groupName.None? then (None, Fail(GroupNameNil))
    else if described.Err? then (None, Fail(DescribeFailed(described.error)))
    else
      match FindPlacementGroup(groupName.value, described.value)
      case None =>
        (Some(CreateRequest(groupName.value, partitionCount, strategy)),
         if createResult.Fail? then Fail(CreateFailed(createResult.error)) else Pass)
      case Some(pg) => (None, ValidatePlacementGroup(pg, groupName, partitionCount, strategy))
  }

  /** An existing group that already matches is validated, never recreated, whatever the create call would do. */
  lemma ExistingGroupNotRecreated(name: string, count: Option<int>, strategy: string, groups: seq<PlacementGroup>, c1: Outcome<string>, c2: Outcome<string>)
    requires exists i :: 0 <= i < |groups| && Deref(groups[i].groupName) == name
    ensures FindOrCreatePartitionGroup(Some(name), count, Some(strategy), Ok(groups), c1) ==
            FindOrCreatePartitionGroup(Some(name), count, Some(strategy), Ok(groups), c2)
    ensures FindOrCreatePartitionGroup(Some(name), count, Some(strategy), Ok(groups), c1).0.None?
  {
  }
}
