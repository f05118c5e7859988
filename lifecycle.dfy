/**
 * Lifecycle hooks of a service: ARNs derived from a role and an SNS topic
 * name, the conversion to the auto-scaling hook specification, and the
 * hook's validation chain.
 */
module Lifecycle {
  import opened Wrappers
  import opened Text

  const Launching := "autoscaling:EC2_INSTANCE_LAUNCHING"
  const Terminating := "autoscaling:EC2_INSTANCE_TERMINATING"

  function RoleArn(accountID: string, role: string): string
  {
    "arn:aws:iam::" + accountID + ":role/" + role
  }

  function TopicArn(region: string, accountID: string, topic: string): string
  {
    "arn:aws:sns:" + region + ":" + accountID + ":" + topic
  }

  /** The auto-scaling API's lifecycle hook specification. */
  datatype HookSpecification = HookSpecification(
    lifecycleHookName: Option<string>,
    heartbeatTimeout: Option<int>,
    lifecycleTransition: Option<string>,
    notificationTargetARN: Option<string>,
    roleARN: Option<string>)

  /**
   * The SDK's own parameter check: the name and the transition are required
   * and non-empty; the ARNs, when given, are non-empty.
   */
  predicate SpecificationValid(spec: HookSpecification)
  {
    spec.lifecycleHookName.Some? && |spec.lifecycleHookName.value| >= 1 &&
    spec.lifecycleTransition.Some? && |spec.lifecycleTransition.value| >= 1 &&
    (spec.notificationTargetARN.Some? ==> |spec.notificationTargetARN.value| >= 1) &&
    (spec.roleARN.Some? ==> |spec.roleARN.value| >= 1)
  }

  datatype HookError = SpecificationInvalid | RoleARNEmpty | NotificationTargetARNEmpty | TransitionUnknown

  /** `LifeCycleHook`: SetDefaults fills its name and ARNs in place. */
  class LifeCycleHook {
    var transition: Option<string>
    var sns: Option<string>
    var role: Option<string>
    var heartbeatTimeout: Option<int>
    var roleARN: Option<string>
    var notificationTargetARN: Option<string>
    var name: Option<string>

    constructor (transition: Option<string>, sns: Option<string>, role: Option<string>, heartbeatTimeout: Option<int>)
      ensures this.transition == transition && this.sns == sns && this.role == role
      ensures this.heartbeatTimeout == heartbeatTimeout
      ensures roleARN.None? && notificationTargetARN.None? && name.None?
    {
      this.transition, this.sns, this.role, this.heartbeatTimeout := transition, sns, role, heartbeatTimeout;
      roleARN, notificationTargetARN, name := None, None, None;
    }

    function State(): HookState
      reads this
    {
      HookState(transition, sns, role, heartbeatTimeout, roleARN, notificationTargetARN, name)
    }

    /** The hook as the auto-scaling API receives it: every field carried over unchanged. */
    function ToLifecycleHookSpecification(): (r: HookSpecification)
      reads this
      ensures r.lifecycleHookName == name && r.heartbeatTimeout == heartbeatTimeout
      ensures r.lifecycleTransition == transition
      ensures r.notificationTargetARN == notificationTargetARN && r.roleARN == roleARN
    {
      HookSpecification(name, heartbeatTimeout, transition, notificationTargetARN, roleARN)
    }

    /** Name is always the hook's key; each ARN is derived only when its source is set and the ARN is absent. */
    method SetDefaults(region: Option<string>, accountID: Option<string>, hookName: string)
      requires role.Some? && roleARN.None? ==> accountID.Some?
      requires sns.Some? && notificationTargetARN.None? ==> region.Some? && accountID.Some?
      modifies this
      ensures name == Some(hookName)
      ensures roleARN == (if old(role).Some? && old(roleARN).None? then Some(RoleArn(accountID.value, old(role).value)) else old(roleARN))
      ensures notificationTargetARN ==
        (if old(sns).Some? && old(notificationTargetARN).None? then Some(TopicArn(region.value, accountID.value, old(sns).value))
         else old(notificationTargetARN))
      ensures transition == old(transition) && sns == old(sns) && role == old(role) && heartbeatTimeout == old(heartbeatTimeout)
      ensures region.Some? && accountID.Some? ==> State() == Defaulted(old(State()), region.value, accountID.value, hookName)
    {
      name := Some(hookName);
      if role.Some? && roleARN.None? {
        roleARN := Some(RoleArn(accountID.value, role.value));
      }
      if sns.Some? && notificationTargetARN.None? {
        notificationTargetARN := Some(TopicArn(region.value, accountID.value, sns.value));
      }
    }

    /** The checks in order: the SDK's parameter check, both ARNs non-empty, a known transition. */
    function ValidateAttributes(): (r: Outcome<HookError>)
      reads this
      ensures r == Pass <==>
        SpecificationValid(ToLifecycleHookSpecification()) && !EmptyStr(roleARN) && !EmptyStr(notificationTargetARN) &&
        (transition == Some(Launching) || transition == Some(Terminating))
      ensures !SpecificationValid(ToLifecycleHookSpecification()) ==> r == Fail(SpecificationInvalid)
      ensures SpecificationValid(ToLifecycleHookSpecification()) && EmptyStr(roleARN) ==> r == Fail(RoleARNEmpty)
    {
      ValidateHook(ToLifecycleHookSpecification())
    }
  }

  /** The fields of a hook, as one value. */
  datatype HookState = HookState(
    transition: Option<string>,
    sns: Option<string>,
    role: Option<string>,
    heartbeatTimeout: Option<int>,
    roleARN: Option<string>,
    notificationTargetARN: Option<string>,
    name: Option<string>)

  /** The hook after SetDefaults: named by its key, each ARN derived from its source when absent. */
  function Defaulted(h: HookState, region: string, accountID: string, hookName: string): (r: HookState)
    ensures r.name == Some(hookName)
    ensures h.role.Some? ==> r.roleARN.Some?
    ensures h.sns.Some? ==> r.notificationTargetARN.Some?
    ensures h.roleARN.Some? ==> r.roleARN == h.roleARN
    ensures h.notificationTargetARN.Some? ==> r.notificationTargetARN == h.notificationTargetARN
    ensures r.transition == h.transition && r.sns == h.sns && r.role == h.role && r.heartbeatTimeout == h.heartbeatTimeout
  {
    h.(name := Some(hookName),
       roleARN := if h.role.Some? && h.roleARN.None? then Some(RoleArn(accountID, h.role.value)) else h.roleARN,
       notificationTargetARN :=
         if h.sns.Some? && h.notificationTargetARN.None? then Some(TopicArn(region, accountID, h.sns.value))
         else h.notificationTargetARN)
  }

  /** Defaulting twice with the same arguments is defaulting once. */
  lemma DefaultedIdempotent(h: HookState, region: string, accountID: string, hookName: string)
    ensures Defaulted(Defaulted(h, region, accountID, hookName), region, accountID, hookName) ==
            Defaulted(h, region, accountID, hookName)
  {
  }

  /** Every field the hook checks is carried by its specification, so the checks are stated on that value. */
  predicate HookValid(spec: HookSpecification)
  {
    SpecificationValid(spec) && !EmptyStr(spec.roleARN) && !EmptyStr(spec.notificationTargetARN) &&
    (spec.lifecycleTransition == Some(Launching) || spec.lifecycleTransition == Some(Terminating))
  }

  /** ValidateAttributes on the hook's specification: the first check that fails. */
  function ValidateHook(spec: HookSpecification): (r: Outcome<HookError>)
    ensures r == Pass <==> HookValid(spec)
    ensures !SpecificationValid(spec) ==> r == Fail(SpecificationInvalid)
    ensures SpecificationValid(spec) && EmptyStr(spec.roleARN) ==> r == Fail(RoleARNEmpty)
  {
    if !SpecificationValid(spec) then Fail(SpecificationInvalid)
    else if EmptyStr(spec.roleARN) then Fail(RoleARNEmpty)
    else if EmptyStr(spec.notificationTargetARN) then Fail(NotificationTargetARNEmpty)
    else if spec.lifecycleTransition.value != Launching && spec.lifecycleTransition.value != Terminating then Fail(TransitionUnknown)
    else Pass
  }

  /** A launching hook with a role and a topic validates once its defaults are set. */
  method LaunchingHookValidates() returns (r: Outcome<HookError>)
    ensures r == Pass
  {
    var hook := new LifeCycleHook(Some(Launching), Some("sns"), Some("role"), None);
    hook.SetDefaults(Some("region"), Some("accountID"), "name");
    r := hook.ValidateAttributes();
  }
}
