/**
 * CPU scaling policies of a service: the defaulted getters, the generated
 * name, validation of the type, and the two AWS requests built from a policy.
 */
module Policies {
  import opened Wrappers
  import opened Text
  import Alarms

  const CpuScaleDown := "cpu_scale_down"
  const CpuScaleUp := "cpu_scale_up"

  /**
   * A scaling policy. The thresholds are whole percentages, and
   * `serviceID` is stored by SetDefaults.
   */
  datatype Policy = Policy(
    serviceID: Option<string>,
    policyType: Option<string>,
    scalingAdjustmentVal: Option<int>,
    thresholdVal: Option<int>,
    periodVal: Option<int>,
    evaluationPeriodsVal: Option<int>,
    cooldownVal: Option<int>)

  /** Why a policy is rejected. */
  datatype PolicyError = TypeNil | UnsupportedType(name: string, policyType: string)

  /** The policy name: the service id, a dash, then the type. */
  function Name(p: Policy): string
    requires p.serviceID.Some? && p.policyType.Some?
  {
    p.serviceID.value + "-" + p.policyType.value
  }

  /** Within one service, a policy name determines the policy type. */
  lemma NameDeterminesType(p: Policy, q: Policy)
    requires p.serviceID.Some? && p.policyType.Some? && q.policyType.Some?
    requires q.serviceID == p.serviceID
    ensures Name(p) == Name(q) <==> p.policyType == q.policyType
  {
    var prefix := p.serviceID.value + "-";
    if Name(p) == Name(q) {
      assert Name(p) == prefix + p.policyType.value;
      assert Name(q) == prefix + q.policyType.value;
      assert p.policyType.value == Name(p)[|prefix|..];
      assert q.policyType.value == Name(q)[|prefix|..];
    }
  }

  /** The change in capacity: the explicit value, else -1 to scale down and +1 otherwise. */
  function ScalingAdjustment(p: Policy): (r: int)
    requires p.scalingAdjustmentVal.Some? || p.policyType.Some?
    ensures p.scalingAdjustmentVal.Some? ==> r == p.scalingAdjustmentVal.value
    ensures p.scalingAdjustmentVal.None? ==> (r < 0 <==> p.policyType.value == CpuScaleDown)
    ensures p.scalingAdjustmentVal.None? ==> r == 1 || r == -1
  {
    if p.scalingAdjustmentVal.Some? then p.scalingAdjustmentVal.value
    else if p.policyType.value == CpuScaleDown then -1
    else 1
  }

  /** The CPU threshold: the explicit value, else 20 to scale down and 50 otherwise. */
  function Threshold(p: Policy): (r: int)
    requires p.thresholdVal.Some? || p.policyType.Some?
    ensures p.thresholdVal.Some? ==> r == p.thresholdVal.value
    ensures p.thresholdVal.None? ==> r == (if p.policyType.value == CpuScaleDown then 20 else 50)
  {
    if p.thresholdVal.Some? then p.thresholdVal.value
    else if p.policyType.value == CpuScaleDown then 20
    else 50
  }

  function Period(p: Policy): int
  {
    p.periodVal.GetOr(300)
  }

  function EvaluationPeriods(p: Policy): int
  {
    p.evaluationPeriodsVal.GetOr(2)
  }

  function Cooldown(p: Policy): int
  {
    p.cooldownVal.GetOr(60)
  }

  /** The default getters: an explicit value always wins, otherwise 300 s, 2 periods and 60 s. */
  lemma GetterDefaults(p: Policy)
    ensures Period(p) == (if p.periodVal.Some? then p.periodVal.value else 300)
    ensures EvaluationPeriods(p) == (if p.evaluationPeriodsVal.Some? then p.evaluationPeriodsVal.value else 2)
    ensures Cooldown(p) == (if p.cooldownVal.Some? then p.cooldownVal.value else 60)
  {
  }

  /** Without explicit values, scaling down uses a lower threshold than scaling up. */
  lemma DefaultThresholdsOrdered(down: Policy, up: Policy)
    requires down.policyType == Some(CpuScaleDown) && up.policyType == Some(CpuScaleUp)
    requires down.thresholdVal.None? && up.thresholdVal.None?
    ensures Threshold(down) < Threshold(up)
    ensures ScalingAdjustment(down) < 0 < ScalingAdjustment(up) || down.scalingAdjustmentVal.Some? || up.scalingAdjustmentVal.Some?
  {
  }

  /** A policy is accepted exactly when its type is one of the two CPU types. */
  function ValidateAttributes(p: Policy): (r: Outcome<PolicyError>)
    requires p.policyType.Some? && p.policyType.value != CpuScaleDown && p.policyType.value != CpuScaleUp ==> p.serviceID.Some?
    ensures r == Pass <==> p.policyType == Some(CpuScaleDown) || p.policyType == Some(CpuScaleUp)
    ensures p.policyType.None? ==> r == Fail(TypeNil)
  {
    if p.policyType.None? then Fail(TypeNil)
    else if p.policyType.value != CpuScaleDown && p.policyType.value != CpuScaleUp then
      Fail(UnsupportedType(Name(p), p.policyType.value))
    else Pass
  }

  /** SetDefaults: the policy remembers the service id it belongs to. */
  function WithServiceID(p: Policy, serviceID: Option<string>): (r: Policy)
    ensures r.serviceID == serviceID
    ensures r.(serviceID := p.serviceID) == p
  {
    p.(serviceID := serviceID)
  }

  /** The PutScalingPolicy request. */
  datatype PolicyInput = PolicyInput(
    autoScalingGroupName: Option<string>,
    policyName: Option<string>,
    scalingAdjustment: int,
    adjustmentType: string,
    cooldown: int)

  function CreatePutScalingPolicyInput(p: Policy, asgName: Option<string>): (r: PolicyInput)
    requires p.scalingAdjustmentVal.Some? || p.policyType.Some?
    ensures r.policyName == p.policyType && r.autoScalingGroupName == asgName
    ensures r.adjustmentType == "ChangeInCapacity"
    ensures r.scalingAdjustment == ScalingAdjustment(p) && r.cooldown == Cooldown(p)
  {
    PolicyInput(asgName, p.policyType, ScalingAdjustment(p), "ChangeInCapacity", Cooldown(p))
  }

  /** Scale up above the threshold, scale down below it; no operator for other types. */
  function ComparisonOperator(policyType: string): (r: Option<string>)
    ensures policyType == CpuScaleUp ==> r == Some("GreaterThanThreshold")
    ensures policyType == CpuScaleDown ==> r == Some("LessThanThreshold")
    ensures r.None? <==> policyType != CpuScaleUp && policyType != CpuScaleDown
  {
    match policyType
    case "cpu_scale_up" => Some("GreaterThanThreshold")
    case "cpu_scale_down" => Some("LessThanThreshold")
    case _ => None
  }

  /** The CPU alarm that triggers the policy. */
  method CreateMetricAlarmInput(p: Policy, asgName: Option<string>, policyARN: Option<string>)
    returns (alarm: Alarms.AlarmInput)
    requires p.serviceID.Some? && p.policyType.Some?
    ensures fresh(alarm)
    ensures alarm.metricName == Some("CPUUtilization") && alarm.namespace == Some("AWS/EC2")
    ensures alarm.statistic == Some("Average") && alarm.actionsEnabled == Some(true)
    ensures alarm.period == Some(Period(p)) && alarm.evaluationPeriods == Some(EvaluationPeriods(p))
    ensures alarm.alarmName == Some(Name(p)) && alarm.threshold == Some(Threshold(p))
    ensures alarm.dimensions == [Alarms.Dimension("AutoScalingGroupName", asgName)]
    ensures alarm.alarmActions == (if policyARN.Some? then [policyARN.value] else [])
    ensures alarm.comparisonOperator == ComparisonOperator(p.policyType.value)
    ensures alarm.alarmDescription.Some?
  {
    alarm := new Alarms.AlarmInput.WithFields(
      Some(Name(p)), Some("CPUUtilization"), Some("AWS/EC2"), Some("Average"),
      ComparisonOperator(p.policyType.value), Some(true),
      Some(Period(p)), Some(EvaluationPeriods(p)), Some(Threshold(p)),
      [Alarms.Dimension("AutoScalingGroupName", asgName)],
      if policyARN.Some? then [policyARN.value] else []);
    alarm.SetAlarmDescription();
  }
}
