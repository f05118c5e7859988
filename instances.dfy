/**
 * Instance health bookkeeping: a map from instance id to one of the three
 * states "healthy", "unhealthy" and "terminating", filled from the ASG, ELB
 * and target-group views and merged with terminating > unhealthy > healthy.
 */
module Instances {
  import opened Wrappers
  import opened Text
  import Sets

  const Terminating := "terminating"
  const Unhealthy := "unhealthy"
  const Healthy := "healthy"

  /** The value behind `aws.Instances`: instance id to state. */
  type InstanceMap = map<string, string>

  /** Every state in the map is one of the three known states. */
  predicate WellFormed(m: InstanceMap)
  {
    forall id :: id in m ==> m[id] == Healthy || m[id] == Unhealthy || m[id] == Terminating
  }

  /** The ids whose state is exactly `state`. */
  function IdsWith(m: InstanceMap, state: string): set<string>
  {
    set id | id in m && m[id] == state
  }

  /** One step of collecting every id: the next id is new, so the ids stay distinct. */
  lemma KeyStep(all: set<string>, ids: seq<string>, remaining: set<string>, id: string)
    requires id in remaining && remaining <= all
    requires Distinct(ids) && Elements(ids) == all - remaining && |ids| == |Elements(ids)|
    ensures Distinct(ids + [id]) && Elements(ids + [id]) == all - (remaining - {id})
    ensures |ids + [id]| == |Elements(ids + [id])|
  {
    assert id !in Elements(ids);
    AppendFresh(ids, id);
  }

  /** One step of collecting the ids in `state`: the next id is added exactly when it is in `state`. */
  lemma CollectStep(m: InstanceMap, state: string, ids: seq<string>, remaining: set<string>, id: string)
    requires id in remaining && remaining <= m.Keys
    requires Distinct(ids) && Elements(ids) == IdsWith(m, state) - remaining && |ids| == |Elements(ids)|
    ensures var next := if m[id] == state then ids + [id] else ids;
      Distinct(next) && Elements(next) == IdsWith(m, state) - (remaining - {id}) && |next| == |Elements(next)|
  {
    assert id !in Elements(ids);
    if m[id] == state {
      AppendFresh(ids, id);
    }
  }

  /** An instance as the auto-scaling API describes it. */
  datatype AsgInstance = AsgInstance(instanceId: string, healthStatus: Option<string>, lifecycleState: Option<string>)

  /** A target-group member as the ALB API describes it. */
  datatype TargetHealthDescription = TargetHealthDescription(targetId: string, state: string)

  /** An instance as the classic ELB API describes it. */
  datatype ElbInstanceState = ElbInstanceState(instanceId: string, state: string)

  /** The state recorded for an ASG instance with a known lifecycle state. */
  function ClassifyAsg(healthStatus: Option<string>, lifecycleState: string): (r: string)
    requires |lifecycleState| >= 4
    ensures r == Terminating <==> lifecycleState[..4] == "Term"
    ensures r == Healthy <==> healthStatus == Some("Healthy") && lifecycleState == "InService"
    ensures r == Healthy || r == Unhealthy || r == Terminating
  {
    assert lifecycleState == "InService" ==> lifecycleState[..4] == "InSe";
    var state :=
      if healthStatus.Some? && healthStatus.value == "Healthy" && lifecycleState == "InService"
      then Healthy else Unhealthy;
    if lifecycleState[0..4] == "Term" then Terminating else state
  }

  /** The state recorded for a target-group member. */
  function ClassifyTarget(state: string): (r: string)
    ensures r == Healthy <==> state == "healthy"
    ensures r != Healthy ==> r == Unhealthy
  {
    if state == "healthy" then Healthy else Unhealthy
  }

  /** The state recorded for a classic ELB member. */
  function ClassifyElb(state: string): (r: string)
    ensures r == Healthy <==> state == "InService"
    ensures r != Healthy ==> r == Unhealthy
  {
    if state == "InService" then Healthy else Unhealthy
  }

  /** Combine two views of one instance: terminating > unhealthy > healthy. */
  function StateCompare(s1: string, s2: string): (r: string)
    ensures r == Healthy <==> s1 == Healthy && s2 == Healthy
    ensures r == Terminating <==> s1 == Terminating || s2 == Terminating
    ensures r == Healthy || r == Unhealthy || r == Terminating
  {
    if s1 == Healthy && s2 == Healthy then Healthy
    else if s1 == Terminating || s2 == Terminating then Terminating
    else Unhealthy
  }

  /** A Go map lookup: the zero value "" for a missing key. */
  function Lookup(m: InstanceMap, id: string): string
  {
    if id in m then m[id] else ""
  }

  /** The map MergeInstances returns. */
  function Merged(all: InstanceMap, update: InstanceMap): (r: InstanceMap)
    ensures r.Keys == all.Keys
    ensures WellFormed(r)
  {
    map id | id in all :: StateCompare(all[id], Lookup(update, id))
  }

  lemma StateCompareCommutes(s1: string, s2: string)
    ensures StateCompare(s1, s2) == StateCompare(s2, s1)
  {
  }

  /** An instance the update does not mention loses a healthy state but keeps a terminating one. */
  lemma MissingFromUpdate(all: InstanceMap, update: InstanceMap, id: string)
    requires id in all && id !in update
    ensures Merged(all, update)[id] == (if all[id] == Terminating then Terminating else Unhealthy)
  {
  }

  /** Merging never adds healthy instances and never drops terminating ones. */
  lemma MergeMonotone(all: InstanceMap, update: InstanceMap)
    ensures IdsWith(Merged(all, update), Healthy) <= IdsWith(all, Healthy)
    ensures IdsWith(all, Terminating) <= IdsWith(Merged(all, update), Terminating)
    ensures |IdsWith(Merged(all, update), Healthy)| <= |IdsWith(all, Healthy)|
  {
    var m := Merged(all, update);
    assert IdsWith(m, Healthy) <= IdsWith(all, Healthy) by {
      forall id | id in IdsWith(m, Healthy) ensures id in IdsWith(all, Healthy) {
        assert StateCompare(all[id], Lookup(update, id)) == Healthy;
      }
    }
    Sets.CardinalityMonotone(IdsWith(m, Healthy), IdsWith(all, Healthy));
  }

  /** With well-formed states, the three id sets partition the keys. */
  lemma Partition(m: InstanceMap)
    requires WellFormed(m)
    ensures IdsWith(m, Healthy) + IdsWith(m, Unhealthy) + IdsWith(m, Terminating) == m.Keys
    ensures IdsWith(m, Healthy) !! IdsWith(m, Unhealthy)
    ensures IdsWith(m, Healthy) !! IdsWith(m, Terminating)
    ensures IdsWith(m, Unhealthy) !! IdsWith(m, Terminating)
    ensures |IdsWith(m, Healthy)| + |IdsWith(m, Unhealthy)| + |IdsWith(m, Terminating)| == |m|
  {
    var h, u, t := IdsWith(m, Healthy), IdsWith(m, Unhealthy), IdsWith(m, Terminating);
    assert h + u + t == m.Keys;
    assert |h + u| == |h| + |u|;
    assert |h + u + t| == |h + u| + |t|;
    assert |m.Keys| == |m|;
  }

  /** The three cases of aws/instances_test.go in both directions. */
  lemma MergeCases()
    ensures Merged(map["i" := Healthy], map["i" := Healthy])["i"] == Healthy
    ensures Merged(map["i" := Healthy], map["i" := Unhealthy])["i"] == Unhealthy
    ensures Merged(map["i" := Healthy], map["i" := Terminating])["i"] == Terminating
    ensures Merged(map["i" := Unhealthy], map["i" := Healthy])["i"] == Unhealthy
    ensures Merged(map["i" := Terminating], map["i" := Healthy])["i"] == Terminating
  {
  }

  /** `aws.Instances`: written in place by the Add methods, read by the query loops. */
  class Instances {
    var states: InstanceMap

    constructor ()
      ensures states == map[]
    {
      states := map[];
    }

    constructor FromMap(m: InstanceMap)
      ensures states == m
    {
      states := m;
    }

    method AddTargetGroupInstance(thd: TargetHealthDescription)
      modifies this
      ensures states == old(states)[thd.targetId := ClassifyTarget(thd.state)]
    {
      var state := Unhealthy;
      if thd.state == "healthy" {
        state := Healthy;
      }
      states := states[thd.targetId := state];
    }

    /** Records an ASG instance; a nil instance or nil lifecycle state is ignored. */
    method AddASGInstance(i: Option<AsgInstance>)
      requires i.Some? && i.value.lifecycleState.Some? ==> |i.value.lifecycleState.value| >= 4
      modifies this
      ensures i.None? || i.value.lifecycleState.None? ==> states == old(states)
      ensures i.Some? && i.value.lifecycleState.Some? ==>
        states == old(states)[i.value.instanceId := ClassifyAsg(i.value.healthStatus, i.value.lifecycleState.value)]
    {
      if i.None? || i.value.lifecycleState.None? {
        return;
      }
      var lifecycle := i.value.lifecycleState.value;
      var state := Unhealthy;
      if i.value.healthStatus.Some? && i.value.healthStatus.value == "Healthy" && lifecycle == "InService" {
        state := Healthy;
      }
      if lifecycle[0..4] == "Term" {
        state := Terminating;
      }
      states := states[i.value.instanceId := state];
    }

    method AddELBInstance(st: ElbInstanceState)
      modifies this
      ensures states == old(states)[st.instanceId := ClassifyElb(st.state)]
    {
      var state := Unhealthy;
      if st.state == "InService" {
        state := Healthy;
      }
      states := states[st.instanceId := state];
    }

    /** Counts each known state; other strings are not counted. */
    method HealthyUnhealthyTerming() returns (healthy: nat, unhealthy: nat, terming: nat)
      ensures healthy == |IdsWith(states, Healthy)|
      ensures unhealthy == |IdsWith(states, Unhealthy)|
      ensures terming == |IdsWith(states, Terminating)|
      ensures WellFormed(states) ==> healthy + unhealthy + terming == |states|
    {
      healthy, unhealthy, terming := 0, 0, 0;
      var remaining := states.Keys;
      while remaining != {}
        invariant remaining <= states.Keys
        invariant healthy == |IdsWith(states, Healthy) - remaining|
        invariant unhealthy == |IdsWith(states, Unhealthy) - remaining|
        invariant terming == |IdsWith(states, Terminating) - remaining|
        decreases |remaining|
      {
        var id :| id in remaining;
        var state := states[id];
        ghost var before := remaining;
        remaining := remaining - {id};
        CountStep(IdsWith(states, Healthy), before, id);
        CountStep(IdsWith(states, Unhealthy), before, id);
        CountStep(IdsWith(states, Terminating), before, id);
        if state == Healthy {
          healthy := healthy + 1;
        } else if state == Unhealthy {
          unhealthy := unhealthy + 1;
        } else if state == Terminating {
          terming := terming + 1;
        }
      }
      if WellFormed(states) {
        Partition(states);
      }
    }

    /** All instance ids, each once, in unspecified order. */
    method InstanceIDs() returns (ids: seq<string>)
      ensures Distinct(ids)
      ensures Elements(ids) == states.Keys
      ensures |ids| == |states|
    {
      ids := [];
      var remaining := states.Keys;
      while remaining != {}
        invariant remaining <= states.Keys
        invariant Distinct(ids)
        invariant Elements(ids) == states.Keys - remaining
        invariant |ids| == |Elements(ids)|
        decreases |remaining|
      {
        var id :| id in remaining;
        KeyStep(states.Keys, ids, remaining, id);
        ids := ids + [id];
        remaining := remaining - {id};
      }
      assert |states.Keys| == |states|;
    }

    /** The ids in `state`, each once, in unspecified order. */
    method IDsInState(state: string) returns (ids: seq<string>)
      ensures Distinct(ids)
      ensures Elements(ids) == IdsWith(states, state)
      ensures |ids| == |IdsWith(states, state)|
    {
      ids := [];
      var remaining := states.Keys;
      while remaining != {}
        invariant remaining <= states.Keys
        invariant Distinct(ids)
        invariant Elements(ids) == IdsWith(states, state) - remaining
        invariant |ids| == |Elements(ids)|
        decreases |remaining|
      {
        var id :| id in remaining;
        CollectStep(states, state, ids, remaining, id);
        if states[id] == state {
          ids := ids + [id];
        }
        remaining := remaining - {id};
      }
    }

    method UnhealthyIDs() returns (ids: seq<string>)
      ensures Distinct(ids) && Elements(ids) == IdsWith(states, Unhealthy)
      ensures |ids| == |IdsWith(states, Unhealthy)|
    {
      ids := IDsInState(Unhealthy);
    }

    method HealthyIDs() returns (ids: seq<string>)
      ensures Distinct(ids) && Elements(ids) == IdsWith(states, Healthy)
      ensures |ids| == |IdsWith(states, Healthy)|
    {
      ids := IDsInState(Healthy);
    }

    method TerminatingIDs() returns (ids: seq<string>)
      ensures Distinct(ids) && Elements(ids) == IdsWith(states, Terminating)
      ensures |ids| == |IdsWith(states, Terminating)|
    {
      ids := IDsInState(Terminating);
    }

    /** A new map over this map's ids, each state combined with the update's. */
    method MergeInstances(update: InstanceMap) returns (r: InstanceMap)
      ensures r == Merged(states, update)
    {
      r := map[];
      var remaining := states.Keys;
      while remaining != {}
        invariant remaining <= states.Keys
        invariant r.Keys == states.Keys - remaining
        invariant forall id :: id in r ==> r[id] == StateCompare(states[id], Lookup(update, id))
        decreases |remaining|
      {
        var id :| id in remaining;
        var other := if id in update then update[id] else "";
        r := r[id := StateCompare(states[id], other)];
        remaining := remaining - {id};
      }
    }
  }

  /** Removing `id` from the unvisited set grows the visited part of `s` by at most `id`. */
  lemma CountStep(s: set<string>, before: set<string>, id: string)
    requires id in before
    ensures s - (before - {id}) == (s - before) + (if id in s then {id} else {})
    ensures |s - (before - {id})| == |s - before| + (if id in s then 1 else 0)
  {
    var after := before - {id};
    assert s - after == (s - before) + (if id in s then {id} else {});
  }
}
