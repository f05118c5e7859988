/**
 * The auto-scaling section of a service: defaults filled only where absent,
 * the health-check grace period clamped to the release timeout, and the
 * ordered validation chain including the scaling policies.
 */
module AutoScaling {
  import opened Wrappers
  import opened Text
  import Policies

  const AllAtOnce := "AllAtOnce"
  const OneThenAllWithCanary := "OneThenAllWithCanary"
  const FastRollout := "25PercentStepRolloutNoCanary"

  predicate KnownStrategy(s: string)
  {
    s == AllAtOnce || s == OneThenAllWithCanary || s == FastRollout
  }

  /** The value of an auto-scaling config; spread is a whole percentage. */
  datatype Settings = Settings(
    minSize: Option<int>,
    maxSize: Option<int>,
    maxTerminations: Option<int>,
    defaultCooldown: Option<int>,
    healthCheckGracePeriod: Option<int>,
    spread: Option<int>,
    policies: seq<Option<Policies.Policy>>,
    strategy: Option<string>)

  const EmptySettings := Settings(None, None, None, None, None, None, [], None)

  /** Why a config is rejected, one case per check. */
  datatype ConfigError =
    | StrategyNil | StrategyUnknown
    | MinSizeNil | MaxSizeNil | SpreadNil
    | MinSizeAboveMaxSize | SpreadOutOfRange
    | PolicyNil | PolicyInvalid(error: Policies.PolicyError)
    | PolicyNamesNotUnique

  /** Every typed policy has a service id, so its name can be formed (SetDefaults has run). */
  predicate PoliciesNamed(ps: seq<Option<Policies.Policy>>)
  {
    forall i :: 0 <= i < |ps| && ps[i].Some? && ps[i].value.policyType.Some? ==> ps[i].value.serviceID.Some?
  }

  /** The first nil or invalid policy, scanning in list order. */
  function PolicyCheck(ps: seq<Option<Policies.Policy>>): Outcome<ConfigError>
    requires PoliciesNamed(ps)
  {
    if ps == [] then Pass
    else
      var front := PolicyCheck(ps[..|ps| - 1]);
      var last := ps[|ps| - 1];
      if front.Fail? then front
      else if last.None? then Fail(PolicyNil)
      else if Policies.ValidateAttributes(last.value).Fail? then
        Fail(PolicyInvalid(Policies.ValidateAttributes(last.value).error))
      else Pass
  }

  /** Every policy is present and of a supported type. */
  predicate PoliciesValid(ps: seq<Option<Policies.Policy>>)
  {
    forall i :: 0 <= i < |ps| ==>
      ps[i].Some? && (ps[i].value.policyType == Some(Policies.CpuScaleDown) || ps[i].value.policyType == Some(Policies.CpuScaleUp))
  }

  /** The names of valid policies, in list order. */
  function PolicyNames(ps: seq<Option<Policies.Policy>>): (r: seq<string>)
    requires PoliciesNamed(ps) && PoliciesValid(ps)
    ensures |r| == |ps|
    ensures forall i :: 0 <= i < |ps| ==> r[i] == Policies.Name(ps[i].value)
  {
    if ps == [] then [] else PolicyNames(ps[..|ps| - 1]) + [Policies.Name(ps[|ps| - 1].value)]
  }

  lemma {:induction false} PolicyCheckPassIff(ps: seq<Option<Policies.Policy>>)
    requires PoliciesNamed(ps)
    ensures PolicyCheck(ps) == Pass <==> PoliciesValid(ps)
  {
    if ps != [] {
      var front := ps[..|ps| - 1];
      PolicyCheckPassIff(front);
      assert forall i :: 0 <= i < |front| ==> front[i] == ps[i];
    }
  }

  /** Once a prefix of the policies fails, the whole list fails the same way. */
  lemma {:induction false} PolicyFailurePersists(ps: seq<Option<Policies.Policy>>, k: nat)
    requires PoliciesNamed(ps) && k <= |ps|
    requires PolicyCheck(ps[..k]).Fail?
    ensures PolicyCheck(ps) == PolicyCheck(ps[..k])
  {
    if k < |ps| {
      var front := ps[..|ps| - 1];
      assert front[..k] == ps[..k];
      PolicyFailurePersists(front, k);
    } else {
      assert ps[..k] == ps;
    }
  }

  /** The validation chain, in the order the checks run. */
  function Check(s: Settings): Outcome<ConfigError>
    requires PoliciesNamed(s.policies)
  {
    if s.strategy.None? then Fail(StrategyNil)
    else if !KnownStrategy(s.strategy.value) then Fail(StrategyUnknown)
    else if s.minSize.None? then Fail(MinSizeNil)
    else if s.maxSize.None? then Fail(MaxSizeNil)
    else if s.spread.None? then Fail(SpreadNil)
    else if s.minSize.value > s.maxSize.value then Fail(MinSizeAboveMaxSize)
    else if s.spread.value < 0 || s.spread.value > 100 then Fail(SpreadOutOfRange)
    else if PolicyCheck(s.policies).Fail? then PolicyCheck(s.policies)
    else
      PolicyCheckPassIff(s.policies);
      if !Distinct(PolicyNames(s.policies)) then Fail(PolicyNamesNotUnique)
      else Pass
  }

  /** A config is accepted exactly when every documented condition holds. */
  lemma CheckPassIff(s: Settings)
    requires PoliciesNamed(s.policies)
    ensures Check(s) == Pass <==>
      s.strategy.Some? && KnownStrategy(s.strategy.value) &&
      s.minSize.Some? && s.maxSize.Some? && s.spread.Some? &&
      s.minSize.value <= s.maxSize.value && 0 <= s.spread.value <= 100 &&
      PoliciesValid(s.policies) && Distinct(PolicyNames(s.policies))
  {
    PolicyCheckPassIff(s.policies);
  }

  /** Unique policy names within one service allow at most one policy per direction. */
  lemma {:induction false} AtMostTwoPolicies(s: Settings)
    requires PoliciesNamed(s.policies) && Check(s) == Pass
    requires forall i, j :: 0 <= i < |s.policies| && 0 <= j < |s.policies| && s.policies[i].Some? && s.policies[j].Some? ==>
      s.policies[i].value.serviceID == s.policies[j].value.serviceID
    ensures |s.policies| <= 2
  {
    CheckPassIff(s);
    if |s.policies| > 2 {
      NoThreeDistinctNames(s.policies);
    }
  }

  /** Three valid policies of one service always repeat a name: there are only two types. */
  lemma NoThreeDistinctNames(ps: seq<Option<Policies.Policy>>)
    requires PoliciesNamed(ps) && PoliciesValid(ps) && |ps| > 2
    requires forall i, j :: 0 <= i < |ps| && 0 <= j < |ps| ==> ps[i].value.serviceID == ps[j].value.serviceID
    ensures !Distinct(PolicyNames(ps))
  {
    var names := PolicyNames(ps);
    if ps[0].value.policyType == ps[1].value.policyType {
      Policies.NameDeterminesType(ps[0].value, ps[1].value);
    } else if ps[0].value.policyType == ps[2].value.policyType {
      Policies.NameDeterminesType(ps[0].value, ps[2].value);
    } else {
      Policies.NameDeterminesType(ps[1].value, ps[2].value);
    }
  }

  /** HealthCheckGracePeriod: the timeout when absent, else no more than the timeout; kept when there is no timeout. */
  function GracePeriod(current: Option<int>, timeout: Option<int>): (r: Option<int>)
    ensures timeout.None? ==> r == current
    ensures timeout.Some? ==> r.Some? && r.value <= timeout.value
    ensures timeout.Some? && current.Some? ==> r.value <= current.value
    ensures timeout.Some? && current.Some? ==> r.value == current.value || r.value == timeout.value
    ensures timeout.Some? && current.None? ==> r == timeout
  {
    if current.None? && timeout.Some? then timeout
    else if current.Some? && timeout.Some? then Some(if current.value < timeout.value then current.value else timeout.value)
    else current
  }

  /** Every present policy records the service id; nil entries stay nil. */
  function StampPolicies(ps: seq<Option<Policies.Policy>>, serviceID: Option<string>): (r: seq<Option<Policies.Policy>>)
    ensures |r| == |ps|
    ensures forall i :: 0 <= i < |ps| ==>
      (ps[i].None? ==> r[i].None?) && (ps[i].Some? ==> r[i] == Some(Policies.WithServiceID(ps[i].value, serviceID)))
  {
    seq(|ps|, i requires 0 <= i < |ps| => if ps[i].Some? then Some(Policies.WithServiceID(ps[i].value, serviceID)) else None)
  }

  /** The config after SetDefaults. */
  function WithDefaults(s: Settings, serviceID: Option<string>, timeout: Option<int>): Settings
  {
    Settings(
      Some(s.minSize.GetOr(1)),
      Some(s.maxSize.GetOr(1)),
      Some(s.maxTerminations.GetOr(0)),
      s.defaultCooldown,
      GracePeriod(s.healthCheckGracePeriod, timeout),
      Some(s.spread.GetOr(0)),
      StampPolicies(s.policies, serviceID),
      Some(s.strategy.GetOr(AllAtOnce)))
  }

  /** SetDefaults fills only absent fields, and a second call with the same arguments changes nothing. */
  lemma WithDefaultsFillsAbsent(s: Settings, serviceID: Option<string>, timeout: Option<int>)
    ensures var d := WithDefaults(s, serviceID, timeout);
      (s.minSize.Some? ==> d.minSize == s.minSize) && (s.maxSize.Some? ==> d.maxSize == s.maxSize) &&
      (s.spread.Some? ==> d.spread == s.spread) && (s.strategy.Some? ==> d.strategy == s.strategy) &&
      (s.maxTerminations.Some? ==> d.maxTerminations == s.maxTerminations) &&
      d.minSize.Some? && d.maxSize.Some? && d.spread.Some? && d.strategy.Some? && d.maxTerminations.Some? &&
      d.defaultCooldown == s.defaultCooldown
    ensures WithDefaults(WithDefaults(s, serviceID, timeout), serviceID, timeout) == WithDefaults(s, serviceID, timeout)
  {
    var d := WithDefaults(s, serviceID, timeout);
    var ps := StampPolicies(d.policies, serviceID);
    assert forall i :: 0 <= i < |ps| ==> ps[i] == d.policies[i];
  }

  /** An empty config validates once defaults are filled (no policies, no timeout). */
  lemma EmptyConfigValidates()
    ensures PoliciesNamed(WithDefaults(EmptySettings, None, None).policies)
    ensures Check(WithDefaults(EmptySettings, None, None)) == Pass
  {
    var d := WithDefaults(EmptySettings, None, None);
    assert d.policies == [];
    CheckPassIff(d);
  }

  /** `AutoScalingConfig`: its fields are filled in place by SetDefaults. */
  class AutoScalingConfig {
    var minSize: Option<int>
    var maxSize: Option<int>
    var maxTerminations: Option<int>
    var defaultCooldown: Option<int>
    var healthCheckGracePeriod: Option<int>
    var spread: Option<int>
    var policies: seq<Option<Policies.Policy>>
    var strategy: Option<string>

    function Value(): Settings
      reads this
    {
      Settings(minSize, maxSize, maxTerminations, defaultCooldown, healthCheckGracePeriod, spread, policies, strategy)
    }

    constructor ()
      ensures Value() == EmptySettings
    {
      minSize, maxSize, maxTerminations, defaultCooldown := None, None, None, None;
      healthCheckGracePeriod, spread, policies, strategy := None, None, [], None;
    }

    constructor FromSettings(s: Settings)
      ensures Value() == s
    {
      minSize, maxSize, maxTerminations, defaultCooldown := s.minSize, s.maxSize, s.maxTerminations, s.defaultCooldown;
      healthCheckGracePeriod, spread, policies, strategy := s.healthCheckGracePeriod, s.spread, s.policies, s.strategy;
    }

    method SetDefaults(serviceID: Option<string>, timeout: Option<int>)
      modifies this
      ensures Value() == WithDefaults(old(Value()), serviceID, timeout)
    {
      var stamped := policies;
      var i := 0;
      while i < |stamped|
        invariant 0 <= i <= |stamped| && |stamped| == |policies|
        invariant forall k :: 0 <= k < i ==> stamped[k] == StampPolicies(policies, serviceID)[k]
        invariant forall k :: i <= k < |stamped| ==> stamped[k] == policies[k]
      {
        if stamped[i].Some? {
          stamped := stamped[i := Some(Policies.WithServiceID(stamped[i].value, serviceID))];
        }
        i := i + 1;
      }
      assert stamped == StampPolicies(policies, serviceID);
      var grace := healthCheckGracePeriod;
      if grace.None? && timeout.Some? {
        grace := timeout;
      } else if grace.Some? && timeout.Some? && timeout.value < grace.value {
        grace := timeout;
      }
      strategy := Some(strategy.GetOr(AllAtOnce));
      minSize := Some(minSize.GetOr(1));
      maxSize := Some(maxSize.GetOr(1));
      spread := Some(spread.GetOr(0));
      maxTerminations := Some(maxTerminations.GetOr(0));
      healthCheckGracePeriod := grace;
      policies := stamped;
    }

    /** Runs the checks in order and returns the first failure. */
    method ValidateAttributes() returns (r: Outcome<ConfigError>)
      requires PoliciesNamed(policies)
      ensures r == Check(Value())
    {
      if strategy.None? {
        return Fail(StrategyNil);
      }
      if !KnownStrategy(strategy.value) {
        return Fail(StrategyUnknown);
      }
      if minSize.None? {
        return Fail(MinSizeNil);
      }
      if maxSize.None? {
        return Fail(MaxSizeNil);
      }
      if spread.None? {
        return Fail(SpreadNil);
      }
      if minSize.value > maxSize.value {
        return Fail(MinSizeAboveMaxSize);
      }
      if spread.value < 0 || spread.value > 100 {
        return Fail(SpreadOutOfRange);
      }
      var names: seq<string> := [];
      var i := 0;
      while i < |policies|
        invariant 0 <= i <= |policies|
        invariant PolicyCheck(policies[..i]) == Pass
        invariant PoliciesValid(policies[..i])
        invariant names == PolicyNames(policies[..i])
      {
        var p := policies[i];
        assert policies[..i + 1][..i] == policies[..i];
        if p.None? {
          PolicyFailurePersists(policies, i + 1);
          return Fail(PolicyNil);
        }
        var err := Policies.ValidateAttributes(p.value);
        if err.Fail? {
          PolicyFailurePersists(policies, i + 1);
          return Fail(PolicyInvalid(err.error));
        }
        names := names + [Policies.Name(p.value)];
        i := i + 1;
      }
      assert policies[..i] == policies;
      if !Distinct(names) {
        return Fail(PolicyNamesNotUnique);
      }
      return Pass;
    }
  }
}
