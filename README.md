# Odin deployer core, modelled in Dafny

Odin deploys a *release* of a project's services to AWS. Each service gets a
new auto-scaling group (ASG) built from the release's launch configuration,
load balancers, target groups, subnets, security groups, alarms, scaling
policies and lifecycle hooks. A step-function state machine then drives the
release through its steps: validate, fetch the resources, create the new groups,
wait for them to become healthy, then either tear down the previous groups or
clean up after a failure or a halt.

This project models that core:

* **Rollout strategies** (`Strategies`): how many instances to launch and how
  many must be healthy for a strategy, a desired capacity and a spread. It also
  models the fast rollout rate and the minimum/maximum/desired capacities
  derived from the previous group.
* **Instance health** (`Instances`): instances are gathered from the ASG, the
  classic load balancers and the target groups. The health report counts the
  healthy, launching and terminating ones.
* **Services** (`Services`, `AutoScaling`, `Policies`, `Lifecycle`,
  `LaunchConfig`, `Alarms`, `AsgInput`, `Encoding`): defaults and validation,
  plus the launch configuration, ASG, alarm and policy inputs built from a
  service. The user data goes into the launch configuration through
  `to.Base64p`, a library function modelled in `Encoding` as standard base64
  (section 4 of RFC 4648) of the text's UTF-8 bytes (RFC 3629).
* **Resource lookups** (`Asg`, `Ami`, `SecurityGroups`, `Subnets`,
  `TargetGroups`, `PlacementGroups`, `Tags`, `Resources`): choosing
  exactly one resource by name or tag, and checking tags and release ids.
* **Releases** (`Releases`, `ReleaseHalt`, `ReleaseResources`, `SafeRelease`):
  defaults, validation, the halt and timeout checks, fetching and checking the
  previous and new groups, tear-down of the old or the new groups, and the
  safe-release checks.
* **The state machine and its handlers** (`Machine`, `Handlers`): the states and
  transitions of the deploy machine, and how each task handler classifies the
  outcomes of the release operations it runs into its error kind and the
  machine's next state. The release operations themselves are modelled in
  `Releases` and `ReleaseResources`.
* **The clients** (`Client`, `DeployerClient`): both share the execution name
  prefix, the release checks and the progress display (spinner, coloured
  health dots, sorted service lines). The deployer client also loads a release
  given inline as JSON or as a file path.

AWS calls, JSON decoding, the clock and the library functions the core relies
on are inputs of the functions that need them. The model states what the core
computes from those inputs.

## Model

| member | source | states |
|---|---|---|
| Strategies.GoDivTruncates | deployer/models/strategy.go:183-185 | dividing by 100 truncates toward zero as Go's int64 `/` does, for either sign of the dividend |
| Strategies.Min | deployer/models/strategy.go:169-174 | the result is at most both arguments and is one of them |
| Strategies.Max | deployer/models/strategy.go:176-181 | the result is at least both arguments and is one of them |
| Strategies.PercentBounds | deployer/models/strategy.go:183-185 | `percent` of a count is non-negative, no larger for a percentage at most 100 and no smaller for one at least 100 |
| Strategies.DesiredCapacity | deployer/models/strategy.go:39-54 | never below the min size; at most the max size when min <= max; a previous capacity inside [min, max] is kept, one above the max gives the max and one below the min gives the min; with no previous capacity it is the min size |
| Strategies.TargetCapacity | deployer/models/strategy.go:19-27 | the launch target never exceeds the max size |
| Strategies.TargetHealthy | deployer/models/strategy.go:29-37 | the healthy threshold is never below the min size |
| Strategies.TargetsOrdered | deployer/models/strategy.go:19-54 | for validated settings, min <= healthy threshold <= desired <= launch target <= max |
| Strategies.FastRolloutRateAsWritten | deployer/models/strategy.go:189-194 | the step as written is at least 1 and, for a base of at least 1, at most the base (the two promises in the code's comment) |
| Strategies.FastRolloutRateAsWrittenStalls | deployer/models/strategy.go:189-194 | as written, rate(1, 2) is 1 and for base 3 every count from 1 to 3 maps to itself: the rollout makes no progress below a base of 4 |
| Strategies.RatesAgreeAtStart | deployer/models/strategy.go:189-194 | with no instances launched, the corrected step equals the step as written for every base amount |
| Strategies.FastRolloutRate | deployer/models/strategy.go:187-194 | the corrected step is at least 1, at most the base, strictly above any count below the base, and equal to the base once the count reaches it |
| Strategies.RolloutRounds | deployer/models/strategy.go:123-126 | repeating the step from any count reaches the base within base - min(count, base) rounds |
| Strategies.RolloutAtLeastOne | deployer/models/strategy_test.go:216-220 | rate(0, 1), rate(0, 2) and rate(0, 4) are 1 |
| Strategies.RolloutNotStuck | deployer/models/strategy_test.go:222-224 | rate(1, 1) is 1 and rate(1, 2) is 2 |
| Strategies.RolloutCapped | deployer/models/strategy_test.go:226-228 | rate(100, 5) is 5 and rate(10, 10) is 10 |
| Strategies.RolloutQuarterStep | deployer/models/strategy_test.go:230-232 | rate(1, 4) is 2 and rate(2, 4) is 3; with base 25 the counts 0, 1, 2 step to 6, 7, 8 |
| Strategies.RateAddsQuarter | deployer/models/strategy.go:187-194 | away from the cap, a step from n with base b >= 4 gives exactly n + b/4 |
| Strategies.RateMonotoneInBase | deployer/models/strategy.go:189-194 | a larger base never gives a smaller step |
| Strategies.InitialMinSize | deployer/models/strategy.go:60-72 | 1 for OneThenAllWithCanary; between 1 and the min size for the quarter-step rollout; otherwise the configured min size, absent or not |
| Strategies.InitialDesiredCapacity | deployer/models/strategy.go:74-85 | 1 for OneThenAllWithCanary; between 1 and the launch target for the quarter-step rollout; otherwise the launch target |
| Strategies.ReachedMaxTerminations | deployer/models/strategy.go:91-106 | while a canary has at most one instance, any terminating instance trips the limit; otherwise it trips iff more instances are terminating than max terminations |
| Strategies.CalculateMinDesired | deployer/models/strategy.go:108-131 | the quarter-step rollout applies the step to the min size and the launch target; otherwise (1, 1) while canarying without exactly one healthy instance, and (min size, launch target) in every other case |
| Strategies.CalculateMinDesiredBounded | deployer/models/strategy.go:108-131 | for validated settings every strategy asks for 1 <= min <= min size and min <= desired <= launch target |
| Strategies.TestStrategyValues | deployer/models/strategy_test.go:74-100 | with min 1, max 50, no spread and previous capacity 25, the target is 25 and the initial values are (1, 25), (1, 1) and (1, 6) for the three strategies |
| Strategies.TerminationCases | deployer/models/strategy_test.go:102-112 | the termination verdicts for one healthy, one terminating, one of two terminating and two terminating, for AllAtOnce and for the canary (lines 162-172) |
| Strategies.AllAtOnceMinDesiredCases | deployer/models/strategy_test.go:114-147 | AllAtOnce asks for (1, 25) for one healthy, one unhealthy and two launching instances |
| Strategies.CanaryMinDesiredCases | deployer/models/strategy_test.go:174-210 | the canary holds at (1, 1) with one unhealthy instance and asks for (1, 25) with one healthy or two launching |
| Strategies.FastRolloutMinDesiredOne | deployer/models/strategy_test.go:257-271 | the quarter-step rollout asks for (1, 7) with one instance, healthy or not |
| Strategies.FastRolloutMinDesiredTwo | deployer/models/strategy_test.go:272-276 | the quarter-step rollout asks for (1, 8) with two launching instances |
| Strategies.CapacityCases | deployer/models/strategy_test.go:29-58 | the desired, target and healthy capacities of the invariant tests, with spreads of 100, 50 and 0 percent |
| Instances.ClassifyAsg | aws/instances.go:31-39 | terminating iff the lifecycle state starts with "Term"; healthy iff the health status is "Healthy" and the state is "InService"; always one of the three states |
| Instances.ClassifyTarget | aws/instances.go:18-21 | healthy iff the target state is "healthy", unhealthy otherwise |
| Instances.ClassifyElb | aws/instances.go:46-49 | healthy iff the ELB state is "InService", unhealthy otherwise |
| Instances.StateCompare | aws/instances.go:127-140 | healthy iff both sides are healthy; terminating iff either side is terminating; unhealthy otherwise |
| Instances.StateCompareCommutes | aws/instances.go:127-140 | the comparison does not depend on the order of its arguments |
| Instances.Merged | aws/instances.go:118-125 | the merge has exactly the receiver's ids, each in one of the three states |
| Instances.MissingFromUpdate | aws/instances.go:121 | an id the update lacks becomes unhealthy unless it was terminating |
| Instances.MergeMonotone | aws/instances.go:118-140 | merging never adds a healthy id and never loses a terminating one |
| Instances.Partition | aws/instances.go:84-115 | when every state is one of the three, the healthy, unhealthy and terminating ids are disjoint, cover the keys, and their sizes sum to the map's size |
| Instances.MergeCases | aws/instances_test.go:9-29 | the merge table of the tests: healthy+healthy, healthy+unhealthy, healthy+terminating, unhealthy+healthy, terminating+healthy |
| Instances.Instances.AddTargetGroupInstance | aws/instances.go:16-23 | the target's id is set to its classified state; nothing else changes |
| Instances.Instances.AddASGInstance | aws/instances.go:25-42 | a missing instance or lifecycle state leaves the map as it was; otherwise the id is set to its classified state |
| Instances.Instances.AddELBInstance | aws/instances.go:44-51 | the instance's id is set to its classified state; nothing else changes |
| Instances.Instances.HealthyUnhealthyTerming | aws/instances.go:53-71 | the three counts are the sizes of the three id sets, and sum to the map's size when every state is one of the three |
| Instances.Instances.InstanceIDs | aws/instances.go:73-82 | every id exactly once |
| Instances.Instances.IDsInState | aws/instances.go:84-115 | exactly the ids in the given state, each once |
| Instances.Instances.UnhealthyIDs | aws/instances.go:84-93 | exactly the unhealthy ids, each once |
| Instances.Instances.HealthyIDs | aws/instances.go:95-104 | exactly the healthy ids, each once |
| Instances.Instances.TerminatingIDs | aws/instances.go:106-115 | exactly the terminating ids, each once |
| Instances.Instances.MergeInstances | aws/instances.go:117-125 | the loop builds exactly the merged map |
| Tags.FetchTag | aws/aws.go:26-42 | no key gives nothing; otherwise the value of the first tag with that key, or nothing when no tag has it (tags without a key are skipped) |
| Tags.FetchTagIgnoresLaterDuplicates | aws/aws.go:32-39 | a later tag with an already present key does not change the lookup |
| Tags.HasAllValue | aws/aws.go:98-104 | true iff the tag is present and is "_all" |
| Tags.HasName | aws/aws.go:106-153 | true iff both values are present and equal (the shape of HasProjectName, HasConfigName, HasServiceName and HasReleaseID) |
| Tags.AllowedServiceKey | aws/aws.go:142 | "project::config::service": the project comes first and the length is the parts' lengths plus 4 |
| Tags.MatchesAllowedService | aws/aws.go:136-143 | false when any of the four values is missing; otherwise true iff the allowed value is the project::config::service key |
| AutoScaling.PolicyNames | deployer/models/autoscaling.go:57-69 | one name per policy, in order, each the policy's `Name` |
| AutoScaling.PolicyCheckPassIff | deployer/models/autoscaling.go:59-69 | the policy loop passes iff no policy is nil and every policy validates |
| AutoScaling.PolicyFailurePersists | deployer/models/autoscaling.go:59-69 | once a prefix of the policies fails, the whole list fails with that same error |
| AutoScaling.CheckPassIff | deployer/models/autoscaling.go:24-76 | validation passes iff the strategy is one of the three, min, max and spread are present, min <= max, the spread is in [0, 100] percent, every policy is present and valid, and the policy names are distinct |
| AutoScaling.AtMostTwoPolicies | deployer/models/autoscaling.go:57-73 | a validated config whose policies share one service id has at most two policies (one per allowed type) |
| AutoScaling.NoThreeDistinctNames | deployer/models/autoscaling.go:71-73 | three valid policies of one service cannot have distinct names |
| AutoScaling.GracePeriod | deployer/models/autoscaling.go:101-115 | no timeout leaves the period as it was; an absent period becomes the timeout; a present one becomes the smaller of itself and the timeout |
| AutoScaling.StampPolicies | deployer/models/autoscaling.go:117-121 | every present policy gets the service id and nothing else changes; nil policies stay nil |
| AutoScaling.WithDefaultsFillsAbsent | deployer/models/autoscaling.go:78-124 | strategy, min, max, spread and max terminations are filled only where absent and are all present afterwards; the cooldown is untouched; applying the defaults twice gives the same config as once |
| AutoScaling.EmptyConfigValidates | deployer/models/autoscaling_test.go:10-14 | an empty config validates after SetDefaults(nil, nil) |
| AutoScaling.AutoScalingConfig.SetDefaults | deployer/models/autoscaling.go:78-124 | the fields after the call are the defaulted settings of the fields before it |
| AutoScaling.AutoScalingConfig.ValidateAttributes | deployer/models/autoscaling.go:24-76 | the loop over the policies returns exactly the verdict of the validation chain |
| Policies.NameDeterminesType | deployer/models/policy.go:28-31 | two policies of one service have the same name iff they have the same type |
| Policies.ScalingAdjustment | deployer/models/policy.go:33-47 | a set adjustment is returned as is; otherwise -1 for cpu_scale_down and +1 for any other type |
| Policies.Threshold | deployer/models/policy.go:49-63 | a set threshold is returned as is; otherwise 20 for cpu_scale_down and 50 for any other type |
| Policies.GetterDefaults | deployer/models/policy.go:65-88 | period, evaluation periods and cooldown default to 300, 2 and 60 |
| Policies.DefaultThresholdsOrdered | deployer/models/policy.go:33-63 | with default values, the scale-down threshold is below the scale-up one, and the adjustments are -1 and +1 |
| Policies.ValidateAttributes | deployer/models/policy.go:109-128 | passes iff the type is cpu_scale_down or cpu_scale_up; a nil type is its own error |
| Policies.WithServiceID | deployer/models/policy.go:130-134 | only the service id changes |
| Policies.CreatePutScalingPolicyInput | deployer/models/policy.go:166-174 | named by the type, on the given group, "ChangeInCapacity" by the policy's adjustment, with its cooldown |
| Policies.ComparisonOperator | deployer/models/policy.go:154-159 | "GreaterThanThreshold" for scale-up, "LessThanThreshold" for scale-down, none for any other type |
| Policies.CreateMetricAlarmInput | deployer/models/policy.go:136-164 | CPUUtilization average in AWS/EC2, actions on, the policy's period, evaluation periods, name and threshold, one group dimension, the policy ARN as the only action when given, the comparison by type, and a description set |
| Lifecycle.LifeCycleHook.ToLifecycleHookSpecification | deployer/models/lifecycle.go:26-37 | the specification carries the hook's name, heartbeat, transition and both ARNs |
| Lifecycle.LifeCycleHook.SetDefaults | deployer/models/lifecycle.go:55-66 | the name is set; a role ARN and a topic ARN are built only when the role or topic is given and the ARN is not; the other fields are unchanged |
| Lifecycle.LifeCycleHook.ValidateAttributes | deployer/models/lifecycle.go:68-88 | passes iff the specification is valid, both ARNs are non-empty and the transition is launching or terminating; the first failing check gives the error |
| Lifecycle.Defaulted | deployer/models/lifecycle.go:55-66 | the name is set, given ARNs are kept, a role or topic always yields its ARN, and the other fields are unchanged |
| Lifecycle.DefaultedIdempotent | deployer/models/lifecycle.go:55-66 | setting the defaults twice gives the same hook as once |
| Lifecycle.ValidateHook | deployer/models/lifecycle.go:68-88 | the validation chain on a specification: passes iff the hook is valid, errors in the code's order |
| Lifecycle.LaunchingHookValidates | deployer/models/lifecycle_test.go:10-19 | a launching hook with a role and a topic validates after SetDefaults |
| Services.ServiceIDOf | deployer/models/service.go:105-113 | present iff project, config, service name and creation time are; then it is "project-config-", the RFC 3339 time with every ':' turned into '-' and the rest unchanged, then "-" and the service name |
| Services.TimeColonsReplaced | deployer/models/service.go:111 | replacing ':' by '-' in "date:mm:ss" gives "date-mm-ss" |
| Services.ServiceIDFormat | deployer/models/service.go:105-113 | the id of a time "date:mm:ss" is "p-c-date-mm-ss-n" (the shape the test expects, deployer/models/service_test.go:23-30) |
| Services.ServiceIDLength | deployer/models/service.go:111-112 | the id is as long as its four parts plus three dashes; nothing is truncated |
| Services.FirstMatch | deployer/models/service.go:128-130 | the replacer picks the first placeholder, in argument order, that the text starts with, and none exactly when no placeholder matches |
| Services.DivergeNotPrefix | deployer/models/service.go:128-130 | a placeholder that differs from another at some position is never a prefix of text starting with the other |
| Services.ReplacePlaceholder | deployer/models/service.go:128-130 | text starting with a placeholder that no earlier one shadows becomes its value followed by the rest, replaced |
| Services.ReplaceCopies | deployer/models/service.go:128-130 | a character no placeholder starts with is copied and the rest is replaced |
| Services.Placeholders | deployer/models/service.go:122-126 | four non-empty placeholders, each starting with '{', no two of which can shadow each other |
| Services.ReplaceLine | deployer/models/service.go:128-130 | a placeholder followed by a newline becomes its value followed by the newline and the rest, replaced |
| Services.ReplaceNoBrace | deployer/models/service.go:128-130 | text without '{' passes through the replacer unchanged |
| Services.UserDataCase | deployer/models/service_test.go:13-21 | the four-line template becomes release id, project, config and "web", one per line |
| Services.HealthyMeetsMinSize | deployer/models/service.go:214-216 | a healthy service has at least min-size healthy instances |
| Services.MergeAllDemotes | deployer/models/service.go:476-494 | folding load-balancer views into the group's view keeps the ids, never adds a healthy id and never loses a terminating one |
| Services.HealthyAfterMergeHealthyBefore | deployer/models/service.go:476-496 | if the merged view is healthy, the group's own view already was |
| Services.OkValues | deployer/models/service.go:477-494 | the values of an all-successful list of views, in order |
| Services.FirstError | deployer/models/service.go:477-494 | the error of the first failed view, with every earlier view successful |
| Services.FirstErrorAt | deployer/models/service.go:477-494 | the first failed view's error is the one reported |
| Services.IdentityValues | deployer/models/service.go:386-391 | the six fixed tag keys and only those |
| Services.UpsertedAt | aws/asg/asg_input.go:65-80 | after an upsert the key has the new value and every other key keeps its old one |
| Services.UserTagAdded | deployer/models/service.go:382-384 | adding one more user tag extends the set of user tags already present by that key |
| Services.IdentityTaggedLookup | deployer/models/service.go:386-391 | after the six fixed tags are added, keys stay unique, the fixed keys have the release's values (overriding user tags) and other keys are unchanged |
| Services.IdentityTaggedAt | deployer/models/service.go:386-391 | the same lookup fact for one key |
| Services.Somes | deployer/models/service.go:326-331 | each found load balancer wrapped as present, in order |
| Services.Service.SetUserData | deployer/models/service.go:133-136 | only the user data changes |
| Services.Service.LifeCycleHookSpecs | deployer/models/service.go:148-155 | exactly the specifications of the release's present hooks |
| Services.Service.SetDefaults | deployer/models/service.go:180-198 | release and name set; an absent autoscaling config becomes an empty one and is defaulted with the service id and the release timeout; an absent resource list becomes the placeholder subnet; the service id exists iff project, config and time do, and then every policy is named; nothing else changes |
| Services.Service.SetHealthy | deployer/models/service.go:200-217 | the report holds the targets and the healthy, terminating and launching counts; healthy iff healthy count >= healthy target; a healthy service has at least min-size healthy instances; nothing else changes |
| Services.Service.UpdateHealthy | deployer/models/service.go:462-498 | a failed group lookup is returned; more terminating than allowed is a halt naming them, before any load balancer is asked; then the first failed load-balancer or target-group lookup; on success the report is that of the group view merged with every view, in order; a failure leaves the health state as it was |
| Services.Service.ValidateAttributes | deployer/models/service.go:252-290 | passes iff name and instance type are non-empty, autoscaling is present and valid, there is at least one security group, and security groups, ELBs and target groups are each unique without nil; an invalid autoscaling config gives its own error |
| Services.Service.Validate | deployer/models/service.go:223-238 | the attribute verdict first; then passes iff every hook is present and valid, and otherwise names a nil or invalid hook |
| Services.Service.FetchResources | deployer/models/service.go:296-332 | a failed security-group describe call is returned as the error; succeeds iff the security groups, load balancers and target groups are all found and the profile is found when named; the result holds exactly the security groups the lookup found and, for each target-group name in order, the group found for it, then the load balancers, the profile when named, and nothing else yet |
| Services.Service.CreateInput | deployer/models/service.go:362-396 | name and launch configuration are the service id; min, max, cooldown and grace period as configured or defaulted; desired capacity is the launch target; load balancers, target groups, subnets and hook specifications from the resources; ELB health check iff any load balancer; unique tag keys, the fixed tags overriding the user tags |
| Services.Service.FillLaunchConfig | deployer/models/service.go:422-431 | name, image, security groups, profile and instance type filled from the service, and the user data as the base64 of its UTF-8 bytes (`Encoding.Base64Text`); monitoring, EBS optimisation and block devices untouched |
| Services.Service.CreateLaunchConfigurationInputAsWritten | deployer/models/service.go:418-436 | as written, defaults are set before the instance type is, so the EBS-optimised flag is always that of the default "t2.nano": false; the user data is base64-encoded |
| Services.Service.CreateLaunchConfigurationInput | deployer/models/service.go:418-436 | the corrected input: the EBS-optimised flag matches the instance type actually used, and the other fields, the base64-encoded user data included, are as written |
| Services.Service.CreateResources | deployer/models/service.go:338-360 | launch configuration, group and policies are created in order and the first failure is returned; the created group is recorded once the group exists; on success the report is that of an empty instance map |
| Services.Service.CreateLaunchConfiguration | deployer/models/service.go:438-446 | the request sent is named by the service id, carries the base64 of the service's user data and its instance type (or the default one), and is EBS-optimised exactly when that type is; the create call's outcome is returned |
| Encoding.Utf8Char | deployer/models/service.go:431 | one to four bytes by code point range, an ASCII character as its own byte, continuation bytes in 0x80-0xBF |
| Encoding.Utf8CharRoundTrip | deployer/models/service.go:431 | a character's lead byte announces its length and the bytes give back its code point |
| Encoding.Utf8RoundTrip | deployer/models/service.go:431 | decoding the UTF-8 bytes of any text gives the text back |
| Encoding.Base64 | deployer/models/service.go:431 | four symbols per three bytes, rounded up, as in section 4 of RFC 4648 |
| Encoding.GroupRoundTrip | deployer/models/service.go:431 | a group of three bytes decodes to those bytes, last or not |
| Encoding.Base64RoundTrip | deployer/models/service.go:431 | decoding the base64 of any bytes gives the bytes back, padding included |
| Encoding.Base64Text | deployer/models/service.go:431 | the encoded user data is a whole number of four-symbol groups, at least one per three characters |
| Encoding.Base64TextRoundTrip | deployer/models/service.go:431 | the encoded user data decodes back to the user data |
| Encoding.Base64Examples | deployer/models/service.go:431 | "f", "fo" and "foo" encode as in section 10 of RFC 4648 |
| Services.Service.CreateASG | deployer/models/service.go:408-416 | on success the created group's name is the service id; a failure is passed on |
| Services.HealthOutcome | deployer/models/service.go:462-498 | passes iff the group lookup succeeds, terminating instances are within the limit and every load-balancer and target-group lookup succeeds |
| Services.Defaulted | deployer/models/service.go:180-198 | release and name set, autoscaling and resources present, existing resources kept, the other fields unchanged |
| Services.StampedPoliciesNamed | deployer/models/service.go:197 | with a service id, defaulting names every policy |
| Services.EbsOptimizedFinding | deployer/models/service.go:418-436 | for a c4.large service the code as written sends EBS-optimised false, the corrected one true |
| LaunchConfig.BlockDevice | aws/lc/launch_configuration_input.go:67-87 | the given volume size, with volume type "gp2" and device "/dev/xvda" when not given |
| LaunchConfig.DefaultTypeNotOptimized | aws/lc/launch_configuration_input.go:9-45 | "t2.nano" is not in the EBS-optimised table; "c4.large" and "r4.16xlarge" are |
| LaunchConfig.LaunchConfigInput.SetDefaults | aws/lc/launch_configuration_input.go:96-110 | instance type "t2.nano" and monitoring off when absent; an absent EBS flag is looked up for the instance type the input then has; nothing else changes |
| LaunchConfig.LaunchConfigInput.AddBlockDevice | aws/lc/launch_configuration_input.go:67-94 | no volume size leaves the mappings alone; otherwise one mapping is appended; nothing else changes |
| LaunchConfig.AddBlockDeviceCases | aws/lc/launch_configuration_input_test.go:10-17 | the three calls of the test append the three mappings with their defaults filled |
| AsgInput.Keys | aws/asg/asg_input.go:71-76 | the tags' keys, in order |
| AsgInput.KeyIndex | aws/asg/asg_input.go:71-76 | the position of the first tag with the key, or none exactly when no tag has it |
| AsgInput.UpsertedLookup | aws/asg/asg_input.go:65-80 | after AddTag the key has the new value, every other key keeps its value, existing keys stay in place, and at most one tag is added |
| AsgInput.KeyIndexOfSameKeys | aws/asg/asg_input.go:71-76 | the key search only depends on the keys up to the first match |
| AsgInput.UpsertedKeysUnique | aws/asg/asg_input.go:65-80 | AddTag keeps keys unique and adds a tag exactly when the key was absent |
| AsgInput.Input.SetDefaults | aws/asg/asg_input.go:29-63 | sizes 1, cooldown and grace period 300 when absent; launch configuration named after the group when absent; health check "ELB" iff any load balancer or target group, else "EC2"; default termination policy when none; the rest unchanged |
| AsgInput.Input.AddTag | aws/asg/asg_input.go:65-80 | the tags become the upsert of the key; no other field changes |
| AsgInput.Input.ToASG | aws/asg/asg_input.go:82-87 | a group with only the input's name: no release id, no sizes, no attachments, no instances |
| Asg.ReleaseID | aws/asg/asg.go:54-60 | the "ReleaseID" tag when present and non-empty, otherwise the legacy "ReleaseId" tag |
| Asg.AllowedService | aws/asg/asg.go:49-52 | the group's project::config::service key, which MatchesAllowedService accepts for the group's own tags |
| Asg.NewASGsSnoc | aws/asg/asg.go:72-93 | converting groups one by one: appending a group appends its converted form |
| Asg.LiveStep | aws/asg/asg.go:224-232 | scanning one more group appends it exactly when it has no status |
| Asg.FindInAws | aws/asg/asg.go:219-243 | exactly the groups without a status (not being deleted), converted, in order |
| Asg.FindByName | aws/asg/asg.go:113-137 | succeeds iff a name is given and exactly one group is found, which is returned; a nil name and no match are their own errors |
| Asg.KeepIf | aws/asg/asg.go:170-216 | the loop keeps exactly the groups the test accepts, in order |
| Asg.ForProjectConfig | aws/asg/asg.go:203-217 | the live groups tagged with the project and the config, in order |
| Asg.ForProjectConfigReleaseID | aws/asg/asg.go:186-201 | the project's groups whose release id is the given one |
| Asg.ForProjectConfigNOTReleaseID | aws/asg/asg.go:169-184 | the project's groups whose release id is not the given one |
| Asg.ReleaseFiltersPartition | aws/asg/asg.go:169-201 | the two release filters split the project's groups: their sizes add up and together they hold each group exactly once |
| Asg.ServiceNames | aws/asg/asg.go:152-163 | the service name of each group, in order |
| Asg.ServiceMapKeys | aws/asg/asg.go:143-166 | a successful map is keyed by exactly the groups' service names |
| Asg.ServiceMapValues | aws/asg/asg.go:143-166 | each entry is one of the groups, carrying that service name |
| Asg.ServiceMapOkIff | aws/asg/asg.go:143-166 | the map succeeds iff every group has a service name and no two share one |
| Asg.ServiceMapFailurePersists | aws/asg/asg.go:152-161 | once a prefix of the groups fails, the whole list fails with the same error |
| Asg.ServiceMap | aws/asg/asg.go:150-165 | the loop computes exactly the service map or its first error |
| Asg.ForProjectConfigNotReleaseIDServiceMap | aws/asg/asg.go:143-166 | the service map of the project's groups of other releases |
| Asg.AttachmentNames | aws/asg/asg.go:305-312 | the attachments' names, in order |
| Asg.AttachedNames | aws/asg/asg.go:294-336 | the names of the attachments not in state "Removed", in order |
| Asg.AttachedStep | aws/asg/asg.go:305-312 | scanning one more attachment appends its name exactly when it is not removed |
| Asg.AttachedLBs | aws/asg/asg.go:274-292 | the attached target groups then the attached classic load balancers, no more than there are attachments, and every attachment not removed is listed |
| Asg.NameListed | aws/asg/asg.go:305-312 | an attachment not removed is listed |
| Asg.AttachedCases | aws/asg/asg_test.go:104-153 | an attachment in state "aaa" is listed, one in state "Removed" is not |
| Asg.Detach | aws/asg/asg.go:248-273 | load balancers are detached only when there are some, and that request comes first, naming the group and all its load balancers; their failure is the result and stops before target groups; otherwise, when there are target groups, their request names them all and its outcome is the result; a group with neither makes no call |
| Asg.AlarmNamesComplete | aws/asg/asg.go:363-376 | one entry per alarm of every policy, each alarm listed |
| Asg.AlarmNames | aws/asg/asg.go:363-376 | the nested loop collects exactly the alarm names, policy by policy |
| Ami.IsIDCases | aws/ami/image_test.go:11-16 | "ami-asfasf" is an image id; "ubuntu", "amigdshiunet" and "ami" are not |
| Ami.QueryFor | aws/ami/image.go:25-49 | an argument that is an image id is looked up by id, anything else by its Name tag, with the argument unchanged |
| Ami.Find | aws/ami/image.go:25-73 | a nil argument is an error; a failed describe call is returned as the error; no match gives no image and no error; a single nil match is the nil-image error; exactly one non-nil match gives its id and DeployWith tag; more than one match is an error carrying the count |
| Subnets.IsIDCases | aws/subnet/subnet_test.go:28-32 | "subnet-asfasf" is a subnet id; "ubuntu" and "subnetgfjosd" are not |
| Subnets.SplitIDsTags | aws/subnet/subnets.go:55-68 | the names split, in order, into the ids and the Name tags, together holding each name once |
| Subnets.ToSubnets | aws/subnet/subnets.go:89-105 | one converted subnet per described subnet, in order |
| Subnets.Find | aws/subnet/subnets.go:17-44 | a failed id query, or else a failed tag query, is returned as the error; otherwise the id matches followed by the tag matches, a query being made only when there are names of its kind; anything but one subnet per name is an error giving both counts |
| Subnets.FindUsesOneQuery | aws/subnet/subnets.go:23-37 | when every name is an id the tag query does not affect the result, and the other way round |
| SecurityGroups.NewSGsOf | aws/sg/security_group.go:81-95 | one security group per described group |
| SecurityGroups.NewSGsOfAt | aws/sg/security_group.go:81-95 | the i-th group is the conversion of the i-th described group and keeps its id |
| SecurityGroups.NewSGs | aws/sg/security_group.go:81-95 | the loop builds exactly the converted groups, in order |
| SecurityGroups.Matches | aws/sg/security_group.go:52-61 | the number of groups tagged with a name is at most the number of groups and is zero exactly when no group carries that Name tag |
| SecurityGroups.CheckNames | aws/sg/security_group.go:51-71 | the check passes exactly when every name matches exactly one group; otherwise it reports a name not found or found more than once |
| SecurityGroups.CountMatches | aws/sg/security_group.go:52-62 | the loop counts the groups with the name, failing with that name when a group has no Name tag |
| SecurityGroups.FindResult | aws/sg/security_group.go:35-79 | the groups are returned exactly when all are named, each name matches exactly one and there are as many groups as names; an unnamed group is reported against the first name |
| SecurityGroups.Find | aws/sg/security_group.go:35-79 | a failed describe call is returned as the error; otherwise the imperative lookup returns what FindResult specifies for the converted groups |
| PlacementGroups.FindPlacementGroup | aws/pg/placement_group.go:35-57 | the first group with the name, or none exactly when no group has it |
| PlacementGroups.ValidatePlacementGroup | aws/pg/placement_group.go:68-97 | a group not "available" is refused with its state; otherwise it passes exactly when name and strategy match and, for the "partition" strategy, the partition count matches too |
| PlacementGroups.FindOrCreatePartitionGroup | aws/pg/placement_group.go:11-33 | a nil name is an error; a failed describe call is then returned as the error; a group is created with the requested name, count and strategy exactly when none has the name, and the outcome is that of the create call; an existing group is validated instead |
| PlacementGroups.ExistingGroupNotRecreated | aws/pg/placement_group.go:26-32 | when a group with the name exists nothing is created and the create call's result is irrelevant |
| Alarms.LineIf | aws/alarms/alarm_input.go:25-39 | a description line is present exactly when its fields are |
| Alarms.DescriptionLinesShape | aws/alarms/alarm_input.go:21-44 | at most four non-empty lines, the first "Scale-" and the alarm name when it is set, and none exactly when every group of fields is missing |
| Alarms.AlarmInput.SetAlarmDescription | aws/alarms/alarm_input.go:21-44 | the description becomes the lines joined by newlines, and no other field changes |
| Alarms.DescriptionShape | aws/alarms/alarm_input.go:21-44 | the joined description is empty exactly when there are no lines and starts with "Scale-" and the alarm name when it is set |
| TargetGroups.AllowedService | aws/alb/target_group.go:44-52 | without all three project, config and service tags no service is allowed; an AllowedService tag wins; otherwise the group's own project::config::service key |
| TargetGroups.AllowedServiceCases | aws/alb/target_group_test.go:12-33 | the explicit and the implicit allowed service of the tests |
| TargetGroups.CreateDescribeTargetHealthInput | aws/alb/target_group.go:74-84 | the request names the group and holds one target per instance id, in input order |
| TargetGroups.FindByName | aws/alb/target_group.go:128-146 | a failed describe call is returned as the error; otherwise found exactly when there is one group and it has the requested name, else "LoadBalancer Not Found" |
| TargetGroups.FindTagsByName | aws/alb/target_group.go:148-166 | a failed describe-tags call is returned as the error; otherwise the tags exactly when there is one description and it is for the requested ARN, else "TargetGroup Not Found" |
| TargetGroups.SlowStart | aws/alb/target_group.go:168-187 | zero when the query failed or no entry is a parseable "slow_start.duration_seconds"; otherwise the value of the first such entry |
| TargetGroups.FindSlowStartDuration | aws/alb/target_group.go:168-187 | the scan with early return gives SlowStart |
| TargetGroups.Find | aws/alb/target_group.go:104-126 | the error of the name lookup, else the error of the tag lookup for the ARN found; found exactly when both succeed, with the requested name, the found ARN, the ProjectName, ConfigName, ServiceName and AllowedService tags fetched from the one description, and the slow-start duration |
| TargetGroups.FindAll | aws/alb/target_group.go:91-102 | all groups in the order of the names when every lookup succeeds; otherwise the error of the first name that fails |
| Releases.WaitForHealthyFor | deployer/models/release.go:72-88 | the health-check interval is 15 seconds under a 30-minute timeout, 60 under two hours and 120 otherwise, each band in both directions |
| Releases.WaitForHealthyMonotone | deployer/models/release.go:72-88 | a longer timeout never gets a shorter interval |
| Releases.DetachWaitFor | deployer/models/release.go:90-93 | the detach wait is at least 5 seconds and a given value of 5 or more is kept |
| Releases.DefaultIntervalKeepsRule | deployer/models/release.go:126-138 | a timeout within the 48-hour maximum and its default interval never break the (5 / interval) * timeout < 10000 rule |
| Releases.StatesOf | deployer/models/release.go:109-113 | the non-nil services, by name |
| Releases.DefaultedAll | deployer/models/release.go:109-113 | every service defaulted with its own name, and no name added or lost |
| Releases.WithUserData | deployer/models/release.go:61-65 | every service gets the release's user data, and no name added or lost |
| Releases.HookSpecs | deployer/models/release.go:27 | one specification per hook name, nil exactly where the hook is nil |
| Releases.ScalarDefaulted | deployer/models/release.go:71-101 | a missing timeout becomes 600, the interval follows the timeout, the detach wait is fixed up, a missing healthy flag is false, missing hooks become empty, and nothing else changes |
| Releases.ScalarDefaultedIdempotent | deployer/models/release.go:71-101 | defaulting twice is defaulting once |
| Releases.Release.Info | deployer/models/release.go:109-113 | what a service reads from its release: project, config, release id, creation time, timeout and the hook names |
| Releases.Release.SetDefaults | deployer/models/release.go:71-114 | the scalar defaults, each non-nil hook defaulted with the region, account and its own name, and each non-nil service defaulted with the release and its own name |
| Releases.Release.SetScalarDefaults | deployer/models/release.go:72-101 | the release's own fields become ScalarDefaulted and the hooks are untouched |
| Releases.Release.SetHookDefaults | deployer/models/release.go:103-107 | each non-nil hook is defaulted with its own name |
| Releases.Release.SetServiceDefaults | deployer/models/release.go:109-113 | the services become DefaultedAll of their old states, and the release and hooks are untouched |
| Releases.Release.SetServiceUserData | deployer/models/release.go:61-65 | the services become WithUserData of their old states |
| Releases.Release.SetDefaultsWithUserData | deployer/models/release.go:54-68 | defaults are set; a failed download is returned and leaves the user data alone; a successful one is stored and copied to every service |
| Releases.Release.UseUserData | deployer/models/release.go:56-65 | the download's error is returned, or its text stored and copied to every service, changing nothing else |
| Releases.Release.DownloadUserData | deployer/models/release.go:181-195 | a successful download becomes the user data and a failed one is returned, changing nothing else |
| Releases.Release.AttributeCheck | deployer/models/release.go:121-142 | passes exactly when the base checks pass, the timeout is at most 172800, the rule of thumb holds and an image is given; the base error and the timeout error are reported first |
| Releases.Release.ValidateServices | deployer/models/release.go:198-219 | nil and empty service maps are refused; otherwise it passes exactly when every service is non-nil and valid, and a failure names a nil or invalid service |
| Releases.UserDataCheck | deployer/models/release.go:156-173 | passes exactly when the expected SHA256 is given, the download succeeds and its digest equals it; a missing SHA256 is its own error |
| Releases.Release.ValidateUserDataSHA | deployer/models/release.go:156-173 | returns UserDataCheck; the user data is downloaded only when a SHA256 is given |
| Releases.Release.Validate | deployer/models/release.go:121-153 | passes exactly when the attribute checks, the user data digest and every service pass, reporting the first failure in that order |
| ReleaseHalt.HaltFilePresent | deployer/models/release_halt.go:47-61 | a failed lookup or a missing last-modified time never halts; otherwise the file counts exactly when written no more than five minutes before and two minutes after now |
| ReleaseHalt.IsHalt | deployer/models/release_halt.go:18-32 | past the creation time plus the timeout the release times out; before that it halts exactly when a recent halt file is present, and passes otherwise |
| ReleaseHalt.TimeoutBeforeHaltFile | deployer/models/release_halt.go:23-29 | once timed out, the halt file does not change the answer |
| ReleaseHalt.TimeoutCases | deployer/models/release_halt_test.go:12-28 | a zero timeout halts, nine seconds into a ten-second timeout passes, eleven seconds halts |
| ReleaseHalt.HaltFileCases | deployer/models/release_halt_test.go:30-43 | a fresh halt file halts; one ten minutes old, a missing time or a failed lookup does not |
| ReleaseResources.SharedLookups | deployer/models/release_resources.go:18-53 | a failed group describe call is returned as the error; any live group already carrying this release id refuses the release with their count; otherwise it succeeds exactly when the previous-groups map, the subnets, the image and the hooks are all found (describe errors of the subnet and image queries being returned), and holds exactly those |
| ReleaseResources.ExistingReleaseRefused | deployer/models/release_resources.go:21-29 | one group of the project and config with this release id is enough to refuse, whatever the other lookups return |
| ReleaseResources.WithShared | deployer/models/release_resources.go:61-63 | a service's resources get the shared subnets and image and the previous group of the same service name, keeping its own groups, balancers and profile |
| ReleaseResources.Assembled | deployer/models/release_resources.go:55-66 | one resource set per service name, each completed with the shared lookups |
| ReleaseResources.FetchResources | deployer/models/release_resources.go:18-69 | a failed shared lookup is returned; otherwise the resources of every service exactly when each service's fetch succeeds, else the failure of one service named with it |
| ReleaseResources.CheckService | deployer/models/release_resources.go:75-81 | missing resources are refused with the service name; otherwise the service passes exactly when its resources validate against it |
| ReleaseResources.ValidateResources | deployer/models/release_resources.go:72-84 | passes exactly when every service passes CheckService, and a failure is that of one of them |
| ReleaseResources.NamesOf | deployer/models/service_resources.go:55-94 | the recorded names keep the image id and the previous group's name, or nil when absent |
| ReleaseResources.WithResources | deployer/models/release_resources.go:92-100 | the previous desired capacity comes from the previous group when there is one, the resource names are recorded, and nothing else changes |
| ReleaseResources.UpdatedAll | deployer/models/release_resources.go:87-102 | services with resources are updated and the others are skipped unchanged |
| ReleaseResources.UpdateService | deployer/models/release_resources.go:96-100 | the service's new state is WithResources of its old state |
| ReleaseResources.UpdateWithResources | deployer/models/release_resources.go:87-102 | the services' new states are UpdatedAll of their old states |
| ReleaseResources.FirstFailure | deployer/models/service.go:339-360 | creation passes exactly when the launch configuration, the group and the policies are all created, and otherwise reports one of their errors |
| ReleaseResources.CreateService | deployer/models/service.go:339-360 | returns FirstFailure; on success the created group is named with the service id; only the created group, health report and healthy flag change |
| ReleaseResources.CreateResources | deployer/models/release_resources.go:109-117 | passes exactly when every service is created, otherwise returns one service's failure; on success every service records its created group |
| ReleaseResources.CheckHealth | deployer/models/service.go:464-498 | the health check's outcome is that of the service's strategy on its instance views; a failure leaves its health and report alone; a pass records the strategy's verdict and report on the group's instances merged with every load balancer's and target group's view; its autoscaling, previous capacity and resources are untouched |
| ReleaseResources.CheckNext | deployer/models/release_resources.go:125-135 | one turn of the loop: the service's check result is returned, services not yet checked keep their states, and on a pass its recorded health joins the others' and the running conjunction |
| ReleaseResources.CheckLoop | deployer/models/release_resources.go:125-135 | stops at a failing service and returns its check's error; otherwise every service passed and holds its verdict, and the result is their conjunction |
| ReleaseResources.CheckAll | deployer/models/release_resources.go:125-135 | passes exactly when every service's health check passes, otherwise returns one failing service's error; on success the conjunction of the services' healthy flags, which is the conjunction of their strategies' verdicts on their merged views |
| ReleaseResources.UpdateHealthy | deployer/models/release_resources.go:125-140 | on success the release is healthy exactly when every service is, that is when every service's strategy accepts its merged instance view; on failure its healthy flag is unchanged; no other release field changes |
| ReleaseResources.TearDownAll | deployer/models/release_resources.go:155-173 | the groups torn down are a prefix of the list, each passing the guards and torn down; it passes exactly when all are; otherwise it stops at the first group whose guard or teardown fails, with that error |
| ReleaseResources.TearDown | deployer/models/release_resources.go:155-173 | the loop with early return computes TearDownAll |
| ReleaseResources.TearDownStart | deployer/models/release_resources.go:155-173 | the loop's state at index 0 is the whole teardown |
| ReleaseResources.TearDownUnfold | deployer/models/release_resources.go:155-173 | one loop step: a failing guard or teardown stops with the groups so far, otherwise the loop goes on |
| ReleaseResources.SuccessfulTearDownAsWritten | deployer/models/release_resources.go:147-176 | tears down the project and config groups of other releases under the guards as written |
| ReleaseResources.SuccessfulTearDown | deployer/models/release_resources.go:147-176 | tears down the project and config groups of other releases, each torn-down group having this project and config and a release id different from this one |
| ReleaseResources.UnsuccessfulTearDown | deployer/models/release_resources.go:179-210 | tears down this release's groups, each torn down group having this project, config and release id |
| ReleaseResources.UnsuccessfulGuardsNeverFire | deployer/models/release_resources.go:181-202 | the groups the filter keeps always pass the guards, so only a teardown can fail, and with every teardown succeeding all are torn down |
| ReleaseResources.SuccessfulGuardsOnReleaseID | deployer/models/release_resources.go:149-167 | only a teardown error or a group with no release id can stop the successful teardown |
| ReleaseResources.InFilteredGroup | aws/asg/asg.go:203-217 | a group the project and config filter keeps has that project and config |
| ReleaseResources.UntaggedGroupReachesComparison | deployer/models/release_resources.go:149-167 | a live group of the project and config without a release tag reaches the release id comparison as written; with the nil check it is refused |
| Resources.PresentIds | deployer/models/service_resources.go:70-105 | the kept ids are non-empty and no more than the items |
| Resources.PresentIdsSound | deployer/models/service_resources.go:70-105 | every kept id is the id of some present item |
| Resources.PresentIdsComplete | deployer/models/service_resources.go:70-105 | the id of every present item with a non-empty id is kept |
| Resources.PresentIdsAll | deployer/models/service_resources.go:70-105 | when every item is present with a non-empty id, the ids are kept one for one, in order |
| Resources.KeepIds | deployer/models/service_resources.go:70-105 | the skipping loop computes PresentIds |
| Resources.ToServiceResourceNames | deployer/models/service_resources.go:55-116 | the image id, profile ARN and previous group name or nil, and the present non-empty ids of the security groups, load balancers, target groups and subnets |
| Resources.ValidateImage | deployer/models/service_resources.go:194-208 | passes exactly when the image is present with DeployWith "odin"; a nil image and a nil tag have their own errors |
| Resources.ValidateSubnet | deployer/models/service_resources.go:211-225 | passes exactly when the subnet is present with DeployWith "odin"; a nil subnet and a nil tag have their own errors |
| Resources.ValidatePrevASG | deployer/models/service_resources.go:228-256 | no previous group passes; otherwise it passes exactly when the group has the service's project, config and service names and a release id different from the service's |
| Resources.ProfilePaths | deployer/models/service_resources.go:270-276 | four paths, the service's own first and /_all/_all/_all/ last |
| Resources.ValidateIAMProfile | deployer/models/service_resources.go:259-286 | no profile passes; otherwise it passes exactly when its path is one of the four allowed paths; a nil path has its own error |
| Resources.SlashIndex | deployer/models/service_resources.go:270-276 | the position of the first slash, within the string |
| Resources.SlashIndexAfter | deployer/models/service_resources.go:270-276 | a segment without a slash ends at the slash that follows it |
| Resources.SegmentDetermined | deployer/models/service_resources.go:270-276 | two paths that agree agree on their first segment and on the rest |
| Resources.ProfilePathInjective | deployer/models/service_resources.go:270-276 | slash-free project, config and service names are recovered from their profile path |
| Resources.OtherProjectProfileRejected | deployer/models/service_resources.go:269-285 | a profile under another project's path that is not _all is refused |
| Resources.ValidateOwner | deployer/models/service_resources.go:303-321 | passes exactly when the resource is present and each of its project, config and service tags is the service's or _all; a nil resource and a wrong project have their own errors |
| Resources.OwnerWildcards | deployer/models/service_resources.go:308-318 | a resource tagged _all everywhere is accepted and an untagged one is refused on its project |
| Resources.ValidateCounts | deployer/models/service_resources.go:165-191 | passes exactly when the image is present and as many security groups, load balancers, target groups and subnets were found as requested |
| Resources.FirstBadSubnet | deployer/models/service_resources.go:138-142 | passes exactly when every subnet passes, otherwise fails as one of them does |
| Resources.FirstBadOwner | deployer/models/service_resources.go:144-160 | passes exactly when every resource of the kind passes, otherwise fails as one of them does |
| Resources.SgOwners | deployer/models/service_resources.go:289-291 | the project, config and service tags of each security group, in order |
| Resources.ElbOwners | deployer/models/service_resources.go:294-296 | the project, config and service tags of each load balancer, in order |
| Resources.TgOwners | deployer/models/service_resources.go:299-301 | the project, config and service tags of each target group, in order |
| Resources.ValidateSpecPassIff | deployer/models/service_resources.go:119-163 | the resources validate exactly when the counts, image, profile, previous group, every subnet and every security group, load balancer and target group do |
| Resources.CheckSubnets | deployer/models/service_resources.go:138-142 | the loop with early return computes FirstBadSubnet |
| Resources.CheckOwners | deployer/models/service_resources.go:144-160 | the loop with early return computes FirstBadOwner |
| Resources.Validate | deployer/models/service_resources.go:119-163 | the sequence of checks computes ValidateSpec, reporting the first failure in the source's order |
| SafeRelease.SafeValue | deployer/models/release_safe.go:192-290 | no difference exactly when both values are nil or equal; otherwise which side is nil, or the previous and requested values |
| SafeRelease.SafeValueSymmetric | deployer/models/release_safe.go:192-290 | a value never differs from itself, and differing does not depend on which side is the previous one |
| SafeRelease.Present | deployer/models/release_safe.go:310-321 | the non-nil strings, each one a string of the list |
| SafeRelease.StrS2Map | deployer/models/release_safe.go:310-321 | the slice of the non-nil strings and a map holding exactly them, each set to true |
| SafeRelease.UnorderedDiff | deployer/models/release_safe.go:292-308 | no difference exactly when both lists hold the same set of non-nil strings |
| SafeRelease.ElementsPresent | deployer/models/release_safe.go:310-321 | a string is in the map exactly when it is a non-nil entry of the list |
| SafeRelease.SafeUnorderedStrList | deployer/models/release_safe.go:292-308 | the size check and the membership loop compute UnorderedDiff |
| SafeRelease.UnorderedIgnoresOrderAndDuplicates | deployer/models/release_safe.go:292-308 | reordering, adding nil entries or repeating a string makes no difference |
| SafeRelease.AutoscalingCheck | deployer/models/release_safe.go:160-187 | passes exactly when min size, max size, max terminations, cooldown, grace period and spread are all equal; a failure names the service |
| SafeRelease.ServiceCheck | deployer/models/release_safe.go:110-158 | passes exactly when security groups, profile, load balancers, target groups, EBS size, type and device, public IP, instance type and autoscaling all agree; security groups are checked first |
| SafeRelease.PoliciesIgnored | deployer/models/release_safe.go:185 | changing the scaling policies never makes a service unsafe |
| SafeRelease.SameServicesSameNames | deployer/models/release_safe.go:88-108 | safe services have exactly the previous release's service names |
| SafeRelease.ValidateSafeServices | deployer/models/release_safe.go:88-108 | passes exactly when the services are the same; a different count, a missing previous service or one failing ServiceCheck is reported |
| SafeRelease.ValidateSafeReleaseViews | deployer/models/release_safe.go:66-85 | passes exactly when subnets, image, timeout and services agree; subnets, image and timeout are reported in that order before any service |
| SafeRelease.IdenticalReleaseSafe | deployer/models/release_safe_test.go:32-38 | a release compared with itself is safe |
| SafeRelease.SameServiceSymmetric | deployer/models/release_safe.go:110-187 | a service is the same as the previous one exactly when the previous one is the same as it |
| SafeRelease.SameServicesSymmetric | deployer/models/release_safe.go:88-108 | the services check does not depend on which release is the previous one |
| SafeRelease.SameReleaseSymmetric | deployer/models/release_safe.go:66-85 | the release check does not depend on which release is the previous one |
| SafeRelease.PreviousDefaulted | deployer/models/release_safe.go:60-62 | the stored release with its defaults: same subnets, image and services, a missing timeout made 600, and every service given its autoscaling |
| SafeRelease.CurrentView | deployer/models/release_safe.go:66-85 | the fields the comparison reads from the release, one entry per non-nil service |
| SafeRelease.ValidateSafeRelease | deployer/models/release_safe.go:24-64 | with no previous groups the check passes; a missing stored release and a failed fetch are errors; otherwise it passes exactly when the release is the same as the defaulted previous one |
| Machine.Next | deployer/machine.go:16-178 | every task and wait state moves on to another state |
| Machine.WaitSeconds | deployer/machine.go:86-96 | WaitForDeploy waits 30 seconds and WaitForHealthy 15 |
| Machine.Catch | deployer/machine.go:20-177 | only task states catch errors, and a caught error always leaves the state |
| Machine.MaxAttempts | deployer/machine.go:101-172 | at most three retries, and only for errors the state also catches |
| Machine.Choose | deployer/machine.go:114-130 | "Healthy?" goes to CleanUpSuccess exactly when healthy is true, back to WaitForHealthy exactly when false, and to CleanUpFailure exactly when it is missing |
| Machine.Step | deployer/machine.go:16-192 | retries never exceed three; staying in a state means a raised error used one more retry; moving resets the count; an execution aborts exactly when a raised error is neither retried nor caught |
| Machine.Run | deployer/machine.go:16-192 | the execution starts at the given configuration, each step follows from the previous one and its event, and it stops only when the next event is not enabled |
| Machine.Path | deployer/machine.go:16-192 | the states an execution passes through, up to an abort |
| Machine.Done | deployer/machine.go:16-192 | a run of successful task outcomes |
| Machine.ValidateRoutes | deployer/machine.go:16-28 | Validate goes to Lock on success, to FailureClean on bad input, panic or unmarshal errors, and aborts on any other error |
| Machine.FailureCleanEntries | deployer/machine.go:16-178 | FailureClean is entered only from a failed Validate, from Lock on LockExistsError, or after ReleaseLockFailure completes |
| Machine.StepKeepsLock | deployer/machine.go:29-178 | from a state holding the lock an execution reaches only states still holding it, Success, FailureDirty, or FailureClean out of ReleaseLockFailure |
| Machine.CleanFailureReleasesLock | deployer/machine.go:29-178 | once the lock is held, an execution reaches FailureClean only straight after ReleaseLockFailure |
| Machine.ConsecutiveAttempts | deployer/machine.go:101-172 | k repetitions of a state use k more retries, never more than three in all |
| Machine.PathStep | deployer/machine.go:16-192 | the path of an execution is its first state followed by the path from the next configuration |
| Machine.FollowedPath | deployer/machine.go:16-192 | a sequence of events that follows a path to a terminal state produces exactly that path |
| Machine.SuccessfulPath | deployer/machine.go:16-192 | successful tasks and a healthy check go Validate, Lock, ValidateResources, Deploy, the two waits, CheckHealthy, "Healthy?", CleanUpSuccess, Success |
| Machine.BadInputPath | deployer/intergration_test.go:74-121 | unmarshalling and bad release errors go from Validate straight to FailureClean |
| Machine.LockExistsPath | deployer/intergration_test.go:123-146 | an existing lock goes Validate, Lock, FailureClean |
| Machine.DeployHaltPath | deployer/intergration_test.go:43-68 | a halt during Deploy goes through ReleaseLockFailure to FailureClean |
| Machine.CheckHealthyHaltPath | deployer/intergration_test.go:148-186 | a halt during CheckHealthy goes through CleanUpFailure and ReleaseLockFailure to FailureClean |
| Machine.HealthErrorRetried | deployer/machine.go:101-112 | a health error is retried three times and the fourth goes to CleanUpFailure |
| Handlers.WrapperMessage | deployer/handlers.go:24-26 | the message is "ERROR: " followed by the wrapped error |
| Handlers.WrapperMessageUnwraps | deployer/handlers.go:24-26 | dropping the prefix gives back the wrapped error |
| Handlers.WrapperMessageInjective | deployer/handlers.go:24-26 | different errors give different messages |
| Handlers.Validate | deployer/handlers.go:75-91 | passes exactly when the release validates; otherwise a BadReleaseError, which the machine sends to FailureClean |
| Handlers.Lock | deployer/handlers.go:94-116 | passes exactly when the lock is grabbed without error; not grabbed is a LockExistsError (to FailureClean), grabbed with an error a LockError (to ReleaseLockFailure) |
| Handlers.LockNotGrabbedMessage | deployer/handlers.go:102-108 | the lock's own error, or "Lock Already Exists" when there is none |
| Handlers.ValidateResources | deployer/handlers.go:120-146 | passes exactly when the resources are fetched and valid; each failure is a BadReleaseError, which the machine sends to ReleaseLockFailure |
| Handlers.Deploy | deployer/handlers.go:150-170 | passes exactly when the user data, the halt check and the creation pass, checked in that order: a BadReleaseError, a HaltError, then a DeployError, the last going to CleanUpFailure and the others to ReleaseLockFailure |
| Handlers.HaltBeforeCreate | deployer/handlers.go:157-166 | once halted, the creation's outcome does not matter and no DeployError is raised |
| Handlers.TimedOutDeployReleasesLock | deployer/handlers.go:157-159 | a timed-out release halts in Deploy and the machine goes on to ReleaseLockFailure |
| Handlers.CheckHealthy | deployer/handlers.go:173-200 | passes exactly when not halted and the health check passes; a halt, from the release or from terminating instances, is a HaltError that is not retried; any other health failure is a retried HealthError; both go to CleanUpFailure |
| Handlers.ReleaseLockFailure | deployer/handlers.go:245-257 | passes exactly when the lock is released; otherwise a LockError, which ends in FailureDirty |
| Handlers.CleanUpSuccess | deployer/handlers.go:203-224 | passes exactly when the other releases are torn down and the lock released; the errors are a CleanUpError and then a LockError; success is recorded only when it passes |
| Handlers.CleanUpFailure | deployer/handlers.go:227-242 | failure is recorded first; passes exactly when this release's groups are torn down, otherwise a CleanUpError |
| Handlers.CleanUpErrorsRetriedThenDirty | deployer/machine.go:131-178 | the errors of the clean-up states are retried three times and then end in FailureDirty |
| Handlers.RaisedErrorsCaught | deployer/machine.go:16-178 | every error a handler raises, and every panic, is caught by its state |
| Handlers.NeverAborts | deployer/machine.go:16-192 | an execution whose tasks raise only the errors their handlers raise never aborts |
| Client.ExecutionPrefix | client/client.go:19-22 | "deploy-", the project name with every slash turned into a dash, "-", the config name and a final "-" |
| Client.SlashesAndDashesShareAPrefix | client/client.go:19-22 | projects that differ only by a slash where the other has a dash get the same execution prefix |
| Client.ExecutionPrefixExamples | client/client.go:19-22 | "p"/"c" gives "deploy-p-c-" and "org/p"/"c" gives "deploy-org-p-c-" |
| Client.ValidateClientAttributes | client/client.go:30-49 | passes exactly when the release is present with non-empty project, config and bucket; each failure is reported in that order, each in both directions |
| Client.EmptyReleaseRejected | client/client.go:36-38 | a release with no attributes fails on its project name |
| Client.StateName | client/client.go:107-115 | the last task name, else the last state name, else empty |
| Client.SpinnerAt | client/client.go:165-170 | the spinner shows one of its four characters |
| Client.SpinnerCycles | client/client.go:165-170 | the spinner repeats every four ticks and changes on every tick |
| Client.SpinnerAtFive | client/client_test.go:43-52 | at counter 5 the spinner shows "-" |
| Client.DotCount | client/client.go:183 | one dot for each of the larger of the target launched and the launching counts |
| Client.DotColour | client/client.go:185-201 | dot i is green below the healthy count, then yellow up to launching minus terminating, then red up to launching, then gray, each in both directions |
| Client.ColoursBanded | client/client.go:185-201 | the colours come in bands: green, then yellow, then red, then gray |
| Client.DotRun | client/client.go:189-202 | a run of dots, one per index, each in the colour of its index |
| Client.DotRunExtend | client/client.go:189-202 | a run extends by the dot of the next index |
| Client.CellsLayout | client/client.go:189-202 | when the target healthy count falls within the dots, the bar sits just before that dot; otherwise there is no bar |
| Client.ColourCounts | client/client.go:185-201 | the number of dots of each colour among the first n |
| Client.ConsistentReportColours | client/client.go:183-201 | for a report whose healthy and terminating counts fit in launching: as many green dots as healthy, yellow as launching less healthy and terminating, red as terminating, and gray for the rest |
| Client.FiveDotRow | client/client_test.go:54-62 | the test's report draws one green and two yellow dots, the bar, and two more yellow dots |
| Client.RenderAll | client/client.go:191-201 | one coloured string per cell, in order |
| Client.ServiceLine | client/client.go:172-207 | empty exactly when the service has no health report; otherwise the service name, ": " and its dots |
| Client.ServiceStr | client/client.go:172-207 | the drawing loop builds ServiceLine |
| Client.LineBagRemove | client/client.go:149-154 | the collected lines do not depend on the order the services are visited in |
| Client.StatusLineDeterministic | client/client.go:148-158 | since the lines are sorted, the status line is the same for any visiting order |
| Client.MinimalReleaseStatus | client/client_test.go:50-52 | the minimal release at spinner position 5 shows "-RUNNING(TaskName)" |
| Client.Console.WaiterStr | client/client.go:134-163 | a decoding error is returned; otherwise the spinner, the status and state name, then the release error or its service lines, sorted and holding exactly the lines of the services with reports |
| Client.Console.Waiter | client/client.go:117-132 | an error from the poll is reported without turning the spinner; otherwise the spinner turns and the line is a carriage return, WaiterStr's line and padding |
| Sorting.LeqTotal | client/client.go:156 | any two strings are ordered one way or the other |
| Sorting.LeqTransitive | client/client.go:156 | the string order is transitive |
| Sorting.LeqAntisymmetric | client/client.go:156 | strings ordered both ways are equal |
| Sorting.SortedTail | client/client.go:156 | the tail of a sorted list is sorted |
| Sorting.SortedCons | client/client.go:156 | a string no greater than any of a sorted list can go in front of it |
| Sorting.Insert | client/client.go:156 | inserting into a sorted list gives a sorted list holding the same strings and the new one |
| Sorting.HeadBeforeInserted | client/client.go:156 | inserting after the head keeps the head first |
| Sorting.Sort | client/client.go:156 | sort.Strings gives a sorted permutation of its input |
| Sorting.SortedFirstLeast | client/client.go:156 | the first of a sorted list is no greater than any string in it |
| Sorting.SortedSameHead | client/client.go:156 | two sorted orders of the same strings start with the same string |
| Sorting.TailBag | client/client.go:156 | the tail holds the strings of the list less its head |
| Sorting.SortedUnique | client/client.go:156 | a collection of strings has only one sorted order |
| Sorting.SortPermutation | client/client.go:156 | sorting a permutation of a list gives the same result |
| DeployerClient.TrimLeft | deployer/client/client.go:55 | the longest suffix not starting with a space or newline, everything dropped being a space or newline |
| DeployerClient.TrimRight | deployer/client/client.go:55 | the longest prefix not ending with a space or newline, everything dropped being a space or newline |
| DeployerClient.Trim | deployer/client/client.go:55 | a slice of the argument that neither starts nor ends with a space or newline |
| DeployerClient.TrimIdempotent | deployer/client/client.go:55 | trimming again changes nothing |
| DeployerClient.TrimLeftPrefix | deployer/client/client.go:55 | leading spaces and newlines are dropped up to the first other character |
| DeployerClient.FileOrJSON | deployer/client/client.go:50-67 | nil is an error; an argument starting with "{" once trimmed is returned as given; anything else is read as a file path, a missing file being an error |
| DeployerClient.InlineJSONKeptAsGiven | deployer/client/client.go:55-59 | JSON after spaces and newlines is returned untrimmed and no file is read |
| DeployerClient.ReleaseFromFileOrJSON | deployer/client/client.go:69-96 | a release is returned only when loading and decoding succeed and its defaulted attributes pass the client checks; the user data placeholder is replaced by the ".userdata" file beside the argument, which must exist; loading and decoding errors are passed on |
| DeployerClient.InlineReleaseAccepted | deployer/client/client_test.go:36-55 | inline JSON decoding to a release that passes the checks is returned as decoded, with its defaults |
| DeployerClient.EmptyReleaseRejected | deployer/client/client_test.go:57-60 | "{}" is refused for its missing project name |
| DeployerClient.BadJSONRejected | deployer/client/client_test.go:62-65 | "{" is handed to the decoder and its error is reported |
| Text.ReplaceChar | deployer/models/service.go:111 | replacing one character: same length, each occurrence replaced and every other character kept |
| Text.ReplaceCharAppend | deployer/models/service.go:111-112 | replacing in a concatenation replaces in each part |
| Text.ReplaceCharAbsent | client/client.go:20 | a string without the character is unchanged |
| Text.NatToString | aws/alarms/alarm_input.go:34-38 | the decimal rendering of a natural number has at least one character |
| Text.NatToStringDigits | aws/alarms/alarm_input.go:34-38 | the rendering is all digits and its value is the number |
| Text.Atoi | aws/alb/target_group.go:179 | the empty string does not parse, and whatever parses holds a digit |
| Text.AtoiIntToString | aws/alb/target_group.go:179 | parsing the decimal rendering of any integer gives it back |

## Left out

- AWS API calls (describe, create, delete, attach, tag): their answers are inputs to the functions that need them, and the changes they make are modelled as values (which groups are torn down, for example), not as remote state.
- JSON encoding and decoding: the decoder is a function parameter (`parse`), and a decoding error is an input value.
- Printing, logging, file I/O, the clock and UUID generation: times are integer seconds passed in, file contents are a map from path to text, and the RFC 3339 timestamp in a service id is an opaque string.
- Floating-point arithmetic: the spread is an integer percentage and `math.Max` over floats is integer `Max`. Go truncates `float64(x) * p` where the model truncates `x * p / 100`, so a spread such as `1 - 0.9` that Go holds as just under 0.1 can give one instance less in Go.
- int64 overflow: integers are unbounded. `strconv.Atoi` on the target group slow-start attribute is modelled without its range check.
- Map iteration order in Go: the model iterates over sets, and every result is stated independently of the order.
- Concurrency: the step-function engine that runs the state machine, its retries and its timing are not part of this model. The machine is modelled as its states and transitions.
- The S3 writes behind `Halt` and `RemoveHalt` (putting and deleting the halt object) are I/O. The halt check takes the result of looking up the halt file's last-modified time as an input.
- `SetDefaultRegionAccount` and the `bifrost` release's `SetDefaults` are library code outside this repository. `DeployerClient.ReleaseFromFileOrJSON` takes them as the `setDefaults` parameter.
- `client.releaseFromFile` and `prepareRelease` in the plain client only read a file and call the defaults above; `DeployerClient` models the same loading path.
- TargetGroups: `GetInstances` in aws/alb/target_group.go is a thin wrapper around `DescribeTargetHealth` and is not modelled. Its result feeds `Instances.Instances.AddTargetGroupInstance`, which is modelled.
- Services.Service.Validate: the SDK's own validation of the generated launch configuration and ASG inputs (service.go:240-247) is not modelled.
- Policies.ValidateAttributes: the SDK `Validate` calls on the policy inputs (policy.go:119-125) are not modelled.
- DeployerClient.FileOrJSON: requires an argument that is not blank once trimmed, because the source indexes the first character of the trimmed text and fails at runtime on an argument made only of spaces and newlines.
- Releases.Release.SetDefaults: requires the region and account to be present, because the external defaults above always set them first.
- ReleaseResources.NamesOf: states only the image and previous-group names. The full set of service resource names is stated by `Resources.ToServiceResourceNames`.
- Policies shared by pointer between services: a policy is a value in the model, so no aliasing of policies between services is modelled.
- Version differences between the code and its tests, where the model follows the code: service_test.go:32-39 expects service ids cut to 80 characters, but service.go:105-113 does not cut them. helpers_test.go:28-41 expects `DetachForSuccess` and `WaitDetachForSuccess` states that machine.go does not have. autoscaling_test.go:35-70 and release_safe_test.go call helpers and types that the source does not define.
- Version differences inside the code: service.go calls the scaling `SetDefaults` with one argument where autoscaling.go takes two, and the model passes the release timeout as autoscaling.go asks. service.go:158-166 calls `TargetCapacity`, `TargetHealthy` and `MaxTerminationsInt` on the auto-scaling settings, which autoscaling.go does not define; the model uses the functions of the same names in strategy.go (`Strategies.TargetCapacity`, `Strategies.TargetHealthy` and `Strategies.MaxTermsInt`). release_safe.go reads an `AssociatePublicIpAddress` field that the service struct does not declare, and the model gives the service that field. The deployer client reads the release's user data as a field.
- The group describe call behind the tear-downs (`ForProjectConfigNOTReleaseID` and `ForProjectConfigReleaseID` in aws/asg/asg.go:170-200, whose describe error is returned at lines 204-206) is taken as succeeded: `SuccessfulTearDown`, `UnsuccessfulTearDown`, `Handlers.CleanUpSuccess` and `Handlers.CleanUpFailure` receive the described groups. `ReleaseResources.SharedLookups` and `ReleaseResources.FetchResources` do model that call's error.
- Strategies.CalculateMinDesired: the quarter-step rollout uses the corrected step `FastRolloutRate`, not the step as written in strategy.go:189-194 (see Findings). For min size = max size = 2, spread 0 and one instance, the code as written gives (1, 1) and the model gives (2, 2). `Strategies.InitialMinSize` and `Strategies.InitialDesiredCapacity` also use the corrected step, but only with no instances, where the two steps agree (`Strategies.RatesAgreeAtStart`).
- Handlers.ValidateResources: takes the outcomes of fetching and of validating the resources as inputs. It does not run `release.UpdateWithResources(resources)` (deployer/handlers.go:142), which is modelled on its own as `ReleaseResources.UpdateWithResources`.
- Handlers.Validate, Handlers.Deploy, Handlers.CheckHealthy: take the outcomes of the release operations they call as inputs, and do not run those operations. The operations are modelled on their own in `Releases` and `ReleaseResources`.
- Handlers.CleanUpSuccess: it runs the corrected `ReleaseResources.SuccessfulTearDown` (see Findings). A live group with no release id is therefore refused with a CleanUpError, where the code as written dereferences the nil id and panics. Both paths fail the step.
- Services.Service.CreateLaunchConfiguration: it sends the corrected request `CreateLaunchConfigurationInput` (see Findings). The code as written sends `CreateLaunchConfigurationInputAsWritten`, whose EBS-optimised flag is always false.
- Go nil dereferences and slice panics that the code leaves to its callers' defaults are preconditions in the model. A call that breaks one of them panics in Go:
- Asg.AllowedService: requires the project, config and service tags, which asg.go:51 dereferences.
- Policies.ScalingAdjustment: requires a set adjustment or a type, because policy.go:39 dereferences the type.
- Policies.Threshold: requires a set threshold or a type, because policy.go:55 dereferences the type.
- Services.Service.ValidateAttributes, Services.Service.Validate and Releases.Release.Validate: require `PoliciesNamed` (every typed policy has a service id), because a policy's name at policy.go:30 dereferences the service id; `SetDefaults` sets it before validation.
- Releases.Release.Validate: requires the timeout and the wait-for-healthy interval, which release.go:127 and 132 dereference after the base check; `SetDefaults` sets both.
- PlacementGroups.ValidatePlacementGroup: requires a strategy whenever state, name and strategy match, because placement_group.go:83 dereferences it.
- Instances.ClassifyAsg: requires a lifecycle state of at least four characters, because instances.go:37 slices its first four.
- Resources.ValidatePrevASG: requires the service's release id when the previous group has one, because service_resources.go:251 dereferences it.
- Resources.ValidateIAMProfile: requires the service's project, config and name when the profile has a path, because service_resources.go:270-274 dereference them.
- TargetGroups.FindTagsByName: a nil ARN is refused as "TargetGroup Not Found", where target_group.go:161 dereferences it and panics.
- Alarms.DescriptionLinesShape: the threshold is an integer, so a threshold with a fractional part, which Go prints as a float, is not modelled.
- Policies.Policy.thresholdVal: an integer where policy.go:22 holds a `*float64`, so fractional thresholds are not modelled.
- Policies.Threshold: returns an integer, for the same reason as `Policies.Policy.thresholdVal`.
- Alarms.AlarmInput.threshold: an integer, for the same reason as `Policies.Policy.thresholdVal`.
- Lifecycle.LifeCycleHook.ValidateAttributes: the AWS SDK's own `Validate` of the hook specification (lifecycle.go:71-73) is modelled by `SpecificationValid`, which checks the name, the transition and the given ARNs for presence and non-emptiness. The SDK's length limits are not modelled.

## Findings

| source | as written | input that shows it | evidently intended | confidence | as-written member | corrected member |
|---|---|---|---|---|---|---|
| deployer/models/strategy.go:189-194 | the fast rollout rate adds a quarter of the base amount, rounded down, which is zero when the base is below 4 | `fastRolloutRate(1, 2)` is 1 where deployer/models/strategy_test.go:224 expects 2, so a rollout of two stays at one instance | add at least one instance each round: `max(1, base/4)` | not executed | Strategies.FastRolloutRateAsWritten, Strategies.FastRolloutRateAsWrittenStalls | Strategies.FastRolloutRate |
| deployer/models/service.go:418-436 | the launch configuration input's defaults, including `EbsOptimized`, are filled in (line 420) before the instance type is assigned (line 429), so `EbsOptimized` is computed for the default type `t2.nano` | a service whose instance type is `c4.large` gets `EbsOptimized` false | compute `EbsOptimized` after the service's instance type is set | not executed | Services.Service.CreateLaunchConfigurationInputAsWritten, Services.EbsOptimizedFinding | Services.Service.CreateLaunchConfigurationInput |
| deployer/models/release_resources.go:165-167 | a successful tear-down compares each previous group's release id without checking that the group has one, although the lookup that finds those groups (aws/asg/asg.go:170-184) keeps groups with no release tag | a live group of the same project and config with no `ReleaseID` or `ReleaseId` tag dereferences a nil release id | refuse such a group with "Bad ReleaseID", as the unsuccessful tear-down does at line 200 | not executed | ReleaseResources.SuccessfulTearDownAsWritten, ReleaseResources.UntaggedGroupReachesComparison | ReleaseResources.SuccessfulTearDown |
