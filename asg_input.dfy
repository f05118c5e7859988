/**
 * The create-auto-scaling-group request the deployer builds for a service:
 * fields defaulted in place, and tags upserted by key.
 */
module AsgInput {
  import opened Wrappers
  import Lifecycle
  import Asg

  /** One tag of the request. */
  datatype AsgTag = AsgTag(key: string, value: Option<string>, propagateAtLaunch: bool)

  /** The keys of a tag list, in order. */
  function Keys(tags: seq<AsgTag>): (r: seq<string>)
    ensures |r| == |tags| && forall i :: 0 <= i < |tags| ==> r[i] == tags[i].key
  {
    if tags == [] then [] else Keys(tags[..|tags| - 1]) + [tags[|tags| - 1].key]
  }

  /** No key occurs twice. */
  predicate KeysUnique(tags: seq<AsgTag>)
  {
    forall i, j :: 0 <= i < j < |tags| ==> tags[i].key != tags[j].key
  }

  /** The position of the first tag with `key`, if any. */
  function KeyIndex(tags: seq<AsgTag>, key: string): (r: Option<nat>)
    ensures r.Some? ==> r.value < |tags| && tags[r.value].key == key && forall k :: 0 <= k < r.value ==> tags[k].key != key
    ensures r.None? <==> forall k :: 0 <= k < |tags| ==> tags[k].key != key
  {
    if tags == [] then None
    else if tags[0].key == key then Some(0)
    else match KeyIndex(tags[1..], key)
      case None => None
      case Some(i) => Some(i + 1)
  }

  /** The value of the first tag with `key`: `None` for a missing key. */
  function TagValue(tags: seq<AsgTag>, key: string): Option<Option<string>>
  {
    match KeyIndex(tags, key)
    case None => None
    case Some(i) => Some(tags[i].value)
  }

  /** The tag list after `AddTag(key, value)`: the first tag with the key gets the value, else a new propagating tag is appended. */
  function Upserted(tags: seq<AsgTag>, key: string, value: Option<string>): seq<AsgTag>
  {
    match KeyIndex(tags, key)
    case None => tags + [AsgTag(key, value, true)]
    case Some(i) => tags[i := tags[i].(value := value)]
  }

  /** After an upsert the key maps to the new value, every other key is unchanged, and no tag is lost. */
  lemma UpsertedLookup(tags: seq<AsgTag>, key: string, value: Option<string>, other: string)
    requires other != key
    ensures TagValue(Upserted(tags, key, value), key) == Some(value)
    ensures TagValue(Upserted(tags, key, value), other) == TagValue(tags, other)
    ensures |tags| <= |Upserted(tags, key, value)| <= |tags| + 1
    ensures forall k :: 0 <= k < |tags| ==> Upserted(tags, key, value)[k].key == tags[k].key
  {
    var u := Upserted(tags, key, value);
    match KeyIndex(tags, key) {
      case None =>
        assert u[|tags|].key == key;
        KeyIndexOfSameKeys(tags, u, other);
      case Some(i) =>
        assert u[i].key == key;
        KeyIndexOfSameKeys(tags, u, other);
    }
  }

  /** A list whose keys extend those of another, with no further `key`, finds `key` at the same place. */
  lemma KeyIndexOfSameKeys(a: seq<AsgTag>, b: seq<AsgTag>, key: string)
    requires |a| <= |b|
    requires forall k :: 0 <= k < |a| ==> b[k].key == a[k].key
    requires forall k :: |a| <= k < |b| ==> b[k].key != key
    ensures KeyIndex(b, key) == KeyIndex(a, key)
  {
    match KeyIndex(a, key) {
      case None =>
        assert forall k :: 0 <= k < |b| ==> b[k].key != key by {
          forall k | 0 <= k < |b| ensures b[k].key != key {
            if k < |a| { assert b[k].key == a[k].key; }
          }
        }
      case Some(j) =>
        assert forall k :: 0 <= k < j ==> b[k].key != key by {
          forall k | 0 <= k < j ensures b[k].key != key {
            assert b[k].key == a[k].key;
          }
        }
        KeyIndexAt(b, key, j);
    }
  }

  /** The first position holding `key` is the one `KeyIndex` finds. */
  lemma KeyIndexAt(tags: seq<AsgTag>, key: string, i: nat)
    requires i < |tags| && tags[i].key == key && forall k :: 0 <= k < i ==> tags[k].key != key
    ensures KeyIndex(tags, key) == Some(i)
  {
    var r := KeyIndex(tags, key);
    assert r.Some?;
    assert r.value >= i by {
      if r.value < i { assert false; }
    }
  }

  /** An upsert keeps the keys unique and adds a key exactly when it was missing. */
  lemma UpsertedKeysUnique(tags: seq<AsgTag>, key: string, value: Option<string>)
    requires KeysUnique(tags)
    ensures KeysUnique(Upserted(tags, key, value))
    ensures |Upserted(tags, key, value)| == |tags| + (if KeyIndex(tags, key).None? then 1 else 0)
  {
  }

  const DefaultTerminationPolicy := "ClosestToNextInstanceHour"

  /** `asg.Input`: the request wrapped by the deployer. */
  class Input {
    var autoScalingGroupName: Option<string>
    var launchConfigurationName: Option<string>
    var minSize: Option<int>
    var maxSize: Option<int>
    var desiredCapacity: Option<int>
    var defaultCooldown: Option<int>
    var healthCheckGracePeriod: Option<int>
    var healthCheckType: Option<string>
    var loadBalancerNames: seq<string>
    var targetGroupARNs: seq<string>
    var terminationPolicies: seq<string>
    var vpcZoneIdentifier: Option<string>
    var lifecycleHookSpecifications: set<Lifecycle.HookSpecification>
    var tags: seq<AsgTag>

    /** An empty request. */
    constructor ()
      ensures autoScalingGroupName.None? && launchConfigurationName.None?
      ensures minSize.None? && maxSize.None? && desiredCapacity.None?
      ensures defaultCooldown.None? && healthCheckGracePeriod.None? && healthCheckType.None?
      ensures loadBalancerNames == [] && targetGroupARNs == [] && terminationPolicies == []
      ensures vpcZoneIdentifier.None? && lifecycleHookSpecifications == {} && tags == []
    {
      autoScalingGroupName, launchConfigurationName := None, None;
      minSize, maxSize, desiredCapacity := None, None, None;
      defaultCooldown, healthCheckGracePeriod, healthCheckType := None, None, None;
      loadBalancerNames, targetGroupARNs, terminationPolicies := [], [], [];
      vpcZoneIdentifier, lifecycleHookSpecifications, tags := None, {}, [];
    }

    /**
     * Sizes 1/1/1 and 300-second cooldown and grace period only where absent;
     * the launch configuration is named after the group when absent; the
     * health check is "ELB" iff any load balancer or target group is attached;
     * a single default termination policy when none is given.
     */
    method SetDefaults()
      modifies this
      ensures unchanged(this`autoScalingGroupName, this`loadBalancerNames, this`targetGroupARNs)
      ensures unchanged(this`vpcZoneIdentifier, this`lifecycleHookSpecifications, this`tags)
      ensures minSize == Some(old(minSize).GetOr(1)) && maxSize == Some(old(maxSize).GetOr(1))
      ensures desiredCapacity == Some(old(desiredCapacity).GetOr(1))
      ensures defaultCooldown == Some(old(defaultCooldown).GetOr(300))
      ensures healthCheckGracePeriod == Some(old(healthCheckGracePeriod).GetOr(300))
      ensures launchConfigurationName == if old(launchConfigurationName).None? then autoScalingGroupName else old(launchConfigurationName)
      ensures healthCheckType == Some("ELB") <==> |loadBalancerNames| > 0 || |targetGroupARNs| > 0
      ensures healthCheckType == Some("EC2") <==> |loadBalancerNames| == 0 && |targetGroupARNs| == 0
      ensures terminationPolicies == if old(terminationPolicies) == [] then [DefaultTerminationPolicy] else old(terminationPolicies)
    {
      minSize := Some(minSize.GetOr(1));
      maxSize := Some(maxSize.GetOr(1));
      desiredCapacity := Some(desiredCapacity.GetOr(1));
      defaultCooldown := Some(defaultCooldown.GetOr(300));
      healthCheckGracePeriod := Some(healthCheckGracePeriod.GetOr(300));
      launchConfigurationName := if launchConfigurationName.None? then autoScalingGroupName else launchConfigurationName;
      // EC2 health checks unless a load balancer or target group can report health
      healthCheckType := if |loadBalancerNames| > 0 || |targetGroupARNs| > 0 then Some("ELB") else Some("EC2");
      terminationPolicies := if |terminationPolicies| == 0 then [DefaultTerminationPolicy] else terminationPolicies;
    }

    /** Overwrite the value of the first tag with `key`, or append a new tag propagated at launch. */
    method AddTag(key: string, value: Option<string>)
      modifies this
      ensures tags == Upserted(old(tags), key, value)
      ensures autoScalingGroupName == old(autoScalingGroupName) && launchConfigurationName == old(launchConfigurationName)
      ensures minSize == old(minSize) && maxSize == old(maxSize) && desiredCapacity == old(desiredCapacity)
      ensures defaultCooldown == old(defaultCooldown) && healthCheckGracePeriod == old(healthCheckGracePeriod)
      ensures healthCheckType == old(healthCheckType) && terminationPolicies == old(terminationPolicies)
      ensures loadBalancerNames == old(loadBalancerNames) && targetGroupARNs == old(targetGroupARNs)
      ensures vpcZoneIdentifier == old(vpcZoneIdentifier) && lifecycleHookSpecifications == old(lifecycleHookSpecifications)
    {
      var i := 0;
      while i < |tags|
        invariant 0 <= i <= |tags|
        invariant forall k :: 0 <= k < i ==> tags[k].key != key
      {
        if tags[i].key == key {
          tags := tags[i := tags[i].(value := value)];
          return;
        }
        i := i + 1;
      }
      tags := tags + [AsgTag(key, value, true)];
    }

    /** The group record the deployer keeps after creation: only its name. */
    function ToASG(): (r: Asg.ASG)
      reads this
      ensures r.autoScalingGroupName == autoScalingGroupName
      ensures r.launchConfigurationName.None? && r.desiredCapacity.None? && r.minSize.None?
      ensures r.loadBalancerNames == [] && r.targetGroupARNs == [] && r.instances == []
      ensures Asg.ReleaseID(r).None?
    {
      Asg.ASG(None, None, None, None, None, None, None, autoScalingGroupName, None, [], [], [])
    }
  }
}
