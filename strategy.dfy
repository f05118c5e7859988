/**
 * Rollout strategies: how many instances a release asks the ASG for and
 * how many must be healthy, derived from the auto-scaling settings and the
 * previous group's desired capacity. Spread is a whole number of percent.
 */
module Strategies {
  import opened Wrappers
  import opened Instances
  import AutoScaling

  /** Integer division truncating toward zero, as Go's `/` on int64. */
  function GoDiv(a: int, b: int): int
    requires b > 0
  {
    if a >= 0 then a / b else -((-a) / b)
  }

  /** Dividing by 100 takes the sign of the dividend and drops the remainder toward zero. */
  lemma GoDivTruncates(a: int)
    ensures a >= 0 ==> 0 <= GoDiv(a, 100) * 100 <= a < GoDiv(a, 100) * 100 + 100
    ensures a < 0 ==> a - 100 < GoDiv(a, 100) * 100 <= 0
  {
  }

  function Min(x: int, y: int): (r: int)
    ensures r <= x && r <= y && (r == x || r == y)
  {
    if x < y then x else y
  }

  function Max(x: int, y: int): (r: int)
    ensures r >= x && r >= y && (r == x || r == y)
  {
    if x > y then x else y
  }

  /** `x` scaled by `p` percent, truncated toward zero. */
  function Percent(x: int, p: int): int
  {
    GoDiv(x * p, 100)
  }

  /** Scaling a count by a percentage at most 100 never grows it; at least 100 never shrinks it. */
  lemma PercentBounds(x: int, p: int)
    requires x >= 0 && p >= 0
    ensures 0 <= Percent(x, p)
    ensures p <= 100 ==> Percent(x, p) <= x
    ensures p >= 100 ==> Percent(x, p) >= x
  {
    MulMonotone(x, 0, p);
    GoDivTruncates(x * p);
    if p <= 100 {
      MulMonotone(x, p, 100);
    } else {
      MulMonotone(x, 100, p);
    }
  }

  lemma MulMonotone(x: int, p: int, q: int)
    requires x >= 0 && p <= q
    ensures x * p <= x * q
  {
  }

  /** The strategy's view of a service: its auto-scaling settings and the previous desired capacity. */
  datatype Strategy = Strategy(autoscaling: AutoScaling.Settings, previousDesiredCapacity: Option<int>)

  function SpreadPercent(st: Strategy): int { st.autoscaling.spread.GetOr(20) }
  function MinSizeInt(st: Strategy): int { st.autoscaling.minSize.GetOr(1) }
  function MaxSizeInt(st: Strategy): int { st.autoscaling.maxSize.GetOr(1) }
  function MaxTermsInt(st: Strategy): int { st.autoscaling.maxTerminations.GetOr(0) }

  /** The number of instances wanted: the previous capacity clamped into [min, max]. */
  function DesiredCapacity(st: Strategy): (r: int)
    ensures r >= MinSizeInt(st)
    ensures MinSizeInt(st) <= MaxSizeInt(st) ==> r <= MaxSizeInt(st)
    ensures st.previousDesiredCapacity.Some? && MinSizeInt(st) <= st.previousDesiredCapacity.value <= MaxSizeInt(st)
      ==> r == st.previousDesiredCapacity.value
    ensures st.previousDesiredCapacity.None? && MinSizeInt(st) >= 0 ==> r == MinSizeInt(st)
    ensures st.previousDesiredCapacity.Some? && st.previousDesiredCapacity.value > MaxSizeInt(st) && MinSizeInt(st) <= MaxSizeInt(st)
      ==> r == MaxSizeInt(st)
    ensures st.previousDesiredCapacity.Some? && st.previousDesiredCapacity.value < MinSizeInt(st) ==> r == MinSizeInt(st)
  {
    var pc := st.previousDesiredCapacity.GetOr(-1);
    Max(Min(pc, MaxSizeInt(st)), MinSizeInt(st))
  }

  /** Instances to launch: desired capacity plus spread, never above max. */
  function TargetCapacity(st: Strategy): (r: int)
    ensures r <= MaxSizeInt(st)
  {
    Min(MaxSizeInt(st), Percent(DesiredCapacity(st), 100 + SpreadPercent(st)))
  }

  /** Instances that must be healthy: desired capacity less spread, never below min. */
  function TargetHealthy(st: Strategy): (r: int)
    ensures r >= MinSizeInt(st)
  {
    Max(MinSizeInt(st), Percent(DesiredCapacity(st), 100 - SpreadPercent(st)))
  }

  /** The settings a validated, defaulted config has. */
  predicate Sane(st: Strategy)
  {
    0 <= MinSizeInt(st) <= MaxSizeInt(st) && 0 <= SpreadPercent(st) <= 100
  }

  /** min <= healthy target <= desired <= launch target <= max. */
  lemma TargetsOrdered(st: Strategy)
    requires Sane(st)
    ensures MinSizeInt(st) <= TargetHealthy(st) <= DesiredCapacity(st) <= TargetCapacity(st) <= MaxSizeInt(st)
  {
    var dc := DesiredCapacity(st);
    PercentBounds(dc, 100 - SpreadPercent(st));
    PercentBounds(dc, 100 + SpreadPercent(st));
  }

  /** The rollout step of 25PercentStepRolloutNoCanary as written: a quarter of the base on top of the current count. */
  function FastRolloutRateAsWritten(instanceCount: int, baseAmount: int): (r: int)
    ensures r >= 1
    ensures baseAmount >= 1 ==> r <= baseAmount
  {
    Max(1, Min(instanceCount + GoDiv(baseAmount, 4), baseAmount))
  }

  /** Below a base of four the quarter rounds to zero, so one launched instance of two stays at one. */
  lemma FastRolloutRateAsWrittenStalls()
    ensures FastRolloutRateAsWritten(1, 2) == 1
    ensures forall n :: 1 <= n <= 3 ==> FastRolloutRateAsWritten(n, 3) == n
  {
  }

  /** With no instance launched yet the two steps agree, so a fresh group starts as the code as written starts it. */
  lemma RatesAgreeAtStart(baseAmount: int)
    ensures FastRolloutRate(0, baseAmount) == FastRolloutRateAsWritten(0, baseAmount)
  {
  }

  /** The rollout step with at least one instance added each round, capped at the base. */
  function FastRolloutRate(instanceCount: int, baseAmount: int): (r: int)
    ensures r >= 1
    ensures baseAmount >= 1 ==> r <= baseAmount
    ensures 0 <= instanceCount < baseAmount ==> instanceCount < r
    ensures baseAmount >= 1 && instanceCount >= baseAmount ==> r == baseAmount
  {
    Max(1, Min(instanceCount + Max(1, GoDiv(baseAmount, 4)), baseAmount))
  }

  /** Repeating the step from any start reaches the base within `baseAmount` rounds. */
  function RolloutRounds(instanceCount: nat, baseAmount: nat): (rounds: nat)
    requires baseAmount >= 1
    ensures rounds <= baseAmount - Min(instanceCount, baseAmount)
    decreases baseAmount - Min(instanceCount, baseAmount)
  {
    if instanceCount >= baseAmount then 0
    else 1 + RolloutRounds(FastRolloutRate(instanceCount, baseAmount), baseAmount)
  }

  /** The rollout-rate tests, grouped as they are commented: always at least one instance. */
  lemma RolloutAtLeastOne()
    ensures FastRolloutRate(0, 1) == 1 && FastRolloutRate(0, 2) == 1 && FastRolloutRate(0, 4) == 1
  {
  }

  /** Low counts do not get stuck: one of two launched moves on to two. */
  lemma RolloutNotStuck()
    ensures FastRolloutRate(1, 1) == 1 && FastRolloutRate(1, 2) == 2
  {
  }

  /** Never more than the base amount. */
  lemma RolloutCapped()
    ensures FastRolloutRate(100, 5) == 5 && FastRolloutRate(10, 10) == 10
  {
  }

  /** A quarter of the base on top of the instances already there. */
  lemma RolloutQuarterStep()
    ensures FastRolloutRate(1, 4) == 2 && FastRolloutRate(2, 4) == 3
    ensures FastRolloutRate(0, 25) == 6 && FastRolloutRate(1, 25) == 7 && FastRolloutRate(2, 25) == 8
  {
  }

  /** The min size a fresh group starts with; absent only when AllAtOnce has no min size. */
  function InitialMinSize(st: Strategy): (r: Option<int>)
    requires st.autoscaling.strategy.Some?
    ensures st.autoscaling.strategy.value == AutoScaling.OneThenAllWithCanary ==> r == Some(1)
    ensures st.autoscaling.strategy.value == AutoScaling.FastRollout ==>
      r.Some? && 1 <= r.value && (MinSizeInt(st) >= 1 ==> r.value <= MinSizeInt(st))
    ensures st.autoscaling.strategy.value != AutoScaling.OneThenAllWithCanary && st.autoscaling.strategy.value != AutoScaling.FastRollout
      ==> r == st.autoscaling.minSize
  {
    match st.autoscaling.strategy.value
    case "OneThenAllWithCanary" => Some(1)
    case "25PercentStepRolloutNoCanary" => Some(FastRolloutRate(0, MinSizeInt(st)))
    case _ => st.autoscaling.minSize
  }

  /** The desired capacity a fresh group starts with. */
  function InitialDesiredCapacity(st: Strategy): (r: int)
    requires st.autoscaling.strategy.Some?
    ensures st.autoscaling.strategy.value == AutoScaling.OneThenAllWithCanary ==> r == 1
    ensures st.autoscaling.strategy.value == AutoScaling.FastRollout ==>
      1 <= r && (TargetCapacity(st) >= 1 ==> r <= TargetCapacity(st))
    ensures st.autoscaling.strategy.value != AutoScaling.OneThenAllWithCanary && st.autoscaling.strategy.value != AutoScaling.FastRollout
      ==> r == TargetCapacity(st)
  {
    match st.autoscaling.strategy.value
    case "OneThenAllWithCanary" => 1
    case "25PercentStepRolloutNoCanary" => FastRolloutRate(0, TargetCapacity(st))
    case _ => TargetCapacity(st)
  }

  /** A canary deploy is one with at most one instance so far. */
  predicate Canarying(st: Strategy, instances: InstanceMap)
    requires st.autoscaling.strategy.Some?
  {
    st.autoscaling.strategy.value == AutoScaling.OneThenAllWithCanary && |instances| <= 1
  }

  /** Whether more instances are terminating than the strategy tolerates. */
  function ReachedMaxTerminations(st: Strategy, instances: InstanceMap): (r: bool)
    requires st.autoscaling.strategy.Some?
    ensures Canarying(st, instances) ==> (r <==> IdsWith(instances, Terminating) != {})
    ensures !Canarying(st, instances) ==> (r <==> |IdsWith(instances, Terminating)| > MaxTermsInt(st))
  {
    var maxTerming := if Canarying(st, instances) then 0 else MaxTermsInt(st);
    |IdsWith(instances, Terminating)| > maxTerming
  }

  /** The min size and desired capacity to set on the group during the deploy. */
  function CalculateMinDesired(st: Strategy, instances: InstanceMap): (r: (int, int))
    requires st.autoscaling.strategy.Some?
    ensures st.autoscaling.strategy.value == AutoScaling.FastRollout ==>
      r == (FastRolloutRate(|instances|, MinSizeInt(st)), FastRolloutRate(|instances|, TargetCapacity(st)))
    ensures st.autoscaling.strategy.value != AutoScaling.FastRollout && Canarying(st, instances) && |IdsWith(instances, Healthy)| != 1
      ==> r == (1, 1)
    ensures st.autoscaling.strategy.value != AutoScaling.FastRollout && !(Canarying(st, instances) && |IdsWith(instances, Healthy)| != 1)
      ==> r == (MinSizeInt(st), TargetCapacity(st))
  {
    match st.autoscaling.strategy.value
    case "OneThenAllWithCanary" =>
      if |instances| <= 1 && |IdsWith(instances, Healthy)| != 1 then (1, 1)
      else (MinSizeInt(st), TargetCapacity(st))
    case "25PercentStepRolloutNoCanary" =>
      (FastRolloutRate(|instances|, MinSizeInt(st)), FastRolloutRate(|instances|, TargetCapacity(st)))
    case _ => (MinSizeInt(st), TargetCapacity(st))
  }

  /** Every strategy keeps the targets within the group's bounds while instances launch. */
  lemma CalculateMinDesiredBounded(st: Strategy, instances: InstanceMap)
    requires st.autoscaling.strategy.Some? && Sane(st) && MinSizeInt(st) >= 1
    ensures var (mn, dc) := CalculateMinDesired(st, instances);
      1 <= mn <= MinSizeInt(st) && mn <= dc <= TargetCapacity(st)
  {
    TargetsOrdered(st);
    var n := |instances|;
    if st.autoscaling.strategy.value == AutoScaling.FastRollout {
      var mn := FastRolloutRate(n, MinSizeInt(st));
      var dc := FastRolloutRate(n, TargetCapacity(st));
      RateMonotoneInBase(n, MinSizeInt(st), TargetCapacity(st));
    }
  }

  /** A larger base never gives a smaller step. */
  lemma RateMonotoneInBase(n: int, b1: int, b2: int)
    requires 1 <= b1 <= b2
    ensures FastRolloutRate(n, b1) <= FastRolloutRate(n, b2)
  {
    assert GoDiv(b1, 4) <= GoDiv(b2, 4);
  }

  /** The deploy tests' strategy: min 1, max 50, one termination allowed, no spread, previous capacity 25. */
  function TestStrategy(name: string): Strategy
  {
    var raw := AutoScaling.Settings(Some(1), Some(50), Some(1), None, None, Some(0), [], Some(name));
    Strategy(AutoScaling.WithDefaults(raw, Some("service_id"), Some(30)), Some(25))
  }

  /** The strategy tests' values: targets of 25, canary and quarter-step initial values. */
  lemma TestStrategyValues()
    ensures TargetCapacity(TestStrategy(AutoScaling.AllAtOnce)) == 25
    ensures InitialMinSize(TestStrategy(AutoScaling.AllAtOnce)) == Some(MinSizeInt(TestStrategy(AutoScaling.AllAtOnce)))
    ensures InitialDesiredCapacity(TestStrategy(AutoScaling.AllAtOnce)) == 25
    ensures InitialMinSize(TestStrategy(AutoScaling.OneThenAllWithCanary)) == Some(1)
    ensures InitialDesiredCapacity(TestStrategy(AutoScaling.OneThenAllWithCanary)) == 1
    ensures InitialMinSize(TestStrategy(AutoScaling.FastRollout)) == Some(1)
    ensures InitialDesiredCapacity(TestStrategy(AutoScaling.FastRollout)) == 6
  {
  }

  /** Termination limits from the strategy tests: one allowed, except during a canary. */
  lemma TerminationCases()
    ensures var oneGood := map["one" := Healthy];
      var oneTerming := map["one" := Terminating];
      var oneOfTwo := map["one" := Terminating, "two" := Healthy];
      var twoTerming := map["one" := Terminating, "two" := Terminating];
      !ReachedMaxTerminations(TestStrategy(AutoScaling.AllAtOnce), oneGood) &&
      !ReachedMaxTerminations(TestStrategy(AutoScaling.AllAtOnce), oneTerming) &&
      !ReachedMaxTerminations(TestStrategy(AutoScaling.AllAtOnce), oneOfTwo) &&
      ReachedMaxTerminations(TestStrategy(AutoScaling.AllAtOnce), twoTerming) &&
      !ReachedMaxTerminations(TestStrategy(AutoScaling.OneThenAllWithCanary), oneGood) &&
      ReachedMaxTerminations(TestStrategy(AutoScaling.OneThenAllWithCanary), oneTerming) &&
      !ReachedMaxTerminations(TestStrategy(AutoScaling.OneThenAllWithCanary), oneOfTwo) &&
      ReachedMaxTerminations(TestStrategy(AutoScaling.OneThenAllWithCanary), twoTerming)
  {
    var oneGood := map["one" := Healthy];
    var oneTerming := map["one" := Terminating];
    var oneOfTwo := map["one" := Terminating, "two" := Healthy];
    var twoTerming := map["one" := Terminating, "two" := Terminating];
    assert IdsWith(oneGood, Terminating) == {};
    assert IdsWith(oneTerming, Terminating) == {"one"};
    assert IdsWith(oneOfTwo, Terminating) == {"one"};
    assert IdsWith(twoTerming, Terminating) == {"one", "two"};
  }

  /** AllAtOnce asks for min 1 and the full 25 whatever has launched. */
  lemma AllAtOnceMinDesiredCases()
    ensures CalculateMinDesired(TestStrategy(AutoScaling.AllAtOnce), map["one" := Healthy]) == (1, 25)
    ensures CalculateMinDesired(TestStrategy(AutoScaling.AllAtOnce), map["one" := Unhealthy]) == (1, 25)
    ensures CalculateMinDesired(TestStrategy(AutoScaling.AllAtOnce), map["one" := Unhealthy, "two" := Unhealthy]) == (1, 25)
  {
  }

  /** A canary holds at one until its single instance is healthy, then asks for all 25. */
  lemma CanaryMinDesiredCases()
    ensures CalculateMinDesired(TestStrategy(AutoScaling.OneThenAllWithCanary), map["one" := Unhealthy]) == (1, 1)
    ensures CalculateMinDesired(TestStrategy(AutoScaling.OneThenAllWithCanary), map["one" := Healthy]) == (1, 25)
    ensures CalculateMinDesired(TestStrategy(AutoScaling.OneThenAllWithCanary), map["one" := Unhealthy, "two" := Unhealthy]) == (1, 25)
  {
    assert IdsWith(map["one" := Healthy], Healthy) == {"one"};
    assert IdsWith(map["one" := Unhealthy], Healthy) == {};
  }

  /** The quarter-step rollout adds a quarter of 25 to the one instance already launched, healthy or not. */
  lemma FastRolloutMinDesiredOne(state: string)
    requires state == Healthy || state == Unhealthy
    ensures CalculateMinDesired(TestStrategy(AutoScaling.FastRollout), map["one" := state]) == (1, 7)
  {
    var st := TestStrategy(AutoScaling.FastRollout);
    assert MinSizeInt(st) == 1 && TargetCapacity(st) == 25;
    RateAddsQuarter(1, 25);
  }

  /** With two instances launched the quarter step starts from two. */
  lemma FastRolloutMinDesiredTwo()
    ensures CalculateMinDesired(TestStrategy(AutoScaling.FastRollout), map["one" := Unhealthy, "two" := Unhealthy]) == (1, 8)
  {
    var st := TestStrategy(AutoScaling.FastRollout);
    assert MinSizeInt(st) == 1 && TargetCapacity(st) == 25;
    assert |map["one" := Unhealthy, "two" := Unhealthy]| == 2;
    RateAddsQuarter(2, 25);
  }

  /** Away from the cap, each step adds a quarter of the base (at least one). */
  lemma RateAddsQuarter(n: int, b: int)
    requires b >= 4 && n + GoDiv(b, 4) <= b && n >= 0
    ensures FastRolloutRate(n, b) == n + GoDiv(b, 4)
  {
  }

  /** Capacity values from the strategy tests (spread 100 and 50 percent, absent previous capacity). */
  lemma CapacityCases()
    ensures DesiredCapacity(Simple(1, 3, Some(-1), None)) == 1 && DesiredCapacity(Simple(1, 3, Some(2), None)) == 2
    ensures DesiredCapacity(Simple(1, 3, Some(3), None)) == 3
    ensures TargetCapacity(Simple(1, 1, Some(1), Some(100))) == 1 && TargetCapacity(Simple(1, 3, Some(2), Some(100))) == 3
    ensures TargetCapacity(Simple(1, 10, None, Some(50))) == 1 && TargetCapacity(Simple(1, 10, Some(4), Some(50))) == 6
    ensures TargetCapacity(Simple(1, 10, Some(6), Some(50))) == 9 && TargetCapacity(Simple(1, 10, Some(8), Some(50))) == 10
    ensures TargetHealthy(Simple(1, 10, Some(3), Some(100))) == 1 && TargetHealthy(Simple(1, 10, Some(4), Some(50))) == 2
    ensures TargetHealthy(Simple(1, 10, Some(10), Some(50))) == 5 && TargetHealthy(Simple(1, 1, Some(1), Some(0))) == 1
  {
  }

  function Simple(min: int, max: int, dc: Option<int>, spread: Option<int>): Strategy
  {
    Strategy(AutoScaling.Settings(Some(min), Some(max), Some(0), None, None, spread, [], Some(AutoScaling.AllAtOnce)), dc)
  }
}
