/**
 * The CloudWatch alarm request built for a scaling policy, and the
 * human-readable description derived from its fields.
 */
module Alarms {
  import opened Wrappers
  import opened Text

  /** One alarm dimension. */
  datatype Dimension = Dimension(name: string, value: Option<string>)

  /** The line for a field pair, present only when both fields are. */
  function LineIf(present: bool, line: string): (r: seq<string>)
    ensures |r| <= 1
    ensures r == [] <==> !present
    ensures forall i :: 0 <= i < |r| ==> r[i] == line
  {
    if present then [line] else []
  }

  function StatisticLine(statistic: Option<string>, metricName: Option<string>): seq<string>
  {
    LineIf(statistic.Some? && metricName.Some?, " if " + Deref(statistic) + " " + Deref(metricName))
  }

  function ThresholdLine(comparison: Option<string>, threshold: Option<int>): seq<string>
  {
    LineIf(comparison.Some? && threshold.Some?,
           " is " + Deref(comparison) + " " + IntToString(threshold.GetOr(0)) + "%")
  }

  function PeriodLine(period: Option<int>, evaluations: Option<int>): seq<string>
  {
    LineIf(period.Some? && evaluations.Some?,
           " for " + IntToString(period.GetOr(0)) + " seconds " + IntToString(evaluations.GetOr(0)) + " times in a row")
  }

  /**
   * The description lines, in the fixed order name, statistic and metric,
   * comparator and threshold, period and evaluation count.
   */
  function DescriptionLines(
    alarmName: Option<string>, statistic: Option<string>, metricName: Option<string>,
    comparison: Option<string>, threshold: Option<int>, period: Option<int>, evaluations: Option<int>
  ): seq<string>
  {
    LineIf(alarmName.Some?, "Scale-" + Deref(alarmName))
    + StatisticLine(statistic, metricName)
    + ThresholdLine(comparison, threshold)
    + PeriodLine(period, evaluations)
  }

  /** At most four lines, none empty; the name line comes first when there is a name; no lines iff no field pair is complete. */
  lemma DescriptionLinesShape(
    alarmName: Option<string>, statistic: Option<string>, metricName: Option<string>,
    comparison: Option<string>, threshold: Option<int>, period: Option<int>, evaluations: Option<int>)
    ensures var r := DescriptionLines(alarmName, statistic, metricName, comparison, threshold, period, evaluations);
      |r| <= 4 &&
      (forall i :: 0 <= i < |r| ==> r[i] != "") &&
      (alarmName.Some? ==> r[0] == "Scale-" + alarmName.value) &&
      (r == [] <==>
        alarmName.None? && (statistic.None? || metricName.None?) &&
        (comparison.None? || threshold.None?) && (period.None? || evaluations.None?))
  {
    var a := LineIf(alarmName.Some?, "Scale-" + Deref(alarmName));
    var b := StatisticLine(statistic, metricName);
    var c := ThresholdLine(comparison, threshold);
    var d := PeriodLine(period, evaluations);
    assert a + b + c + d == DescriptionLines(alarmName, statistic, metricName, comparison, threshold, period, evaluations);
    ConcatNonEmpty(a, b);
    ConcatNonEmpty(a + b, c);
    ConcatNonEmpty(a + b + c, d);
  }

  lemma ConcatNonEmpty(a: seq<string>, b: seq<string>)
    requires forall i :: 0 <= i < |a| ==> a[i] != ""
    requires forall i :: 0 <= i < |b| ==> b[i] != ""
    ensures forall i :: 0 <= i < |a + b| ==> (a + b)[i] != ""
  {
    forall i | 0 <= i < |a + b| ensures (a + b)[i] != "" {
      if i >= |a| {
        assert (a + b)[i] == b[i - |a|];
      }
    }
  }

  /** Joining non-empty lines gives "" exactly when there are no lines. */
  lemma {:induction false} JoinEmptyIff(lines: seq<string>, sep: string)
    requires forall i :: 0 <= i < |lines| ==> lines[i] != ""
    ensures Join(lines, sep) == "" <==> lines == []
  {
    if |lines| > 1 {
      assert |Join(lines, sep)| >= |lines[0]| > 0;
    }
  }

  /** A description that has a name line starts with "Scale-". */
  lemma {:induction false} JoinStartsWithFirst(lines: seq<string>, sep: string)
    requires |lines| > 0
    ensures HasPrefix(Join(lines, sep), lines[0])
  {
    if |lines| > 1 {
      assert Join(lines, sep) == lines[0] + (sep + Join(lines[1..], sep));
    }
  }

  /** `alarms.AlarmInput`: a PutMetricAlarm request whose fields are assigned one by one. */
  class AlarmInput {
    var alarmName: Option<string>
    var metricName: Option<string>
    var namespace: Option<string>
    var statistic: Option<string>
    var comparisonOperator: Option<string>
    var actionsEnabled: Option<bool>
    var period: Option<int>
    var evaluationPeriods: Option<int>
    var threshold: Option<int>
    var dimensions: seq<Dimension>
    var alarmActions: seq<string>
    var alarmDescription: Option<string>

    constructor ()
      ensures alarmName.None? && metricName.None? && namespace.None? && statistic.None?
      ensures comparisonOperator.None? && actionsEnabled.None?
      ensures period.None? && evaluationPeriods.None? && threshold.None?
      ensures dimensions == [] && alarmActions == [] && alarmDescription.None?
    {
      alarmName, metricName, namespace, statistic := None, None, None, None;
      comparisonOperator, actionsEnabled := None, None;
      period, evaluationPeriods, threshold := None, None, None;
      dimensions, alarmActions, alarmDescription := [], [], None;
    }

    /** A request with the given fields and no description yet. */
    constructor WithFields(
      alarmName: Option<string>, metricName: Option<string>, namespace: Option<string>,
      statistic: Option<string>, comparisonOperator: Option<string>, actionsEnabled: Option<bool>,
      period: Option<int>, evaluationPeriods: Option<int>, threshold: Option<int>,
      dimensions: seq<Dimension>, alarmActions: seq<string>)
      ensures this.alarmName == alarmName && this.metricName == metricName && this.namespace == namespace
      ensures this.statistic == statistic && this.comparisonOperator == comparisonOperator
      ensures this.actionsEnabled == actionsEnabled && this.period == period
      ensures this.evaluationPeriods == evaluationPeriods && this.threshold == threshold
      ensures this.dimensions == dimensions && this.alarmActions == alarmActions
      ensures this.alarmDescription.None?
    {
      this.alarmName, this.metricName, this.namespace := alarmName, metricName, namespace;
      this.statistic, this.comparisonOperator := statistic, comparisonOperator;
      this.actionsEnabled, this.period, this.evaluationPeriods := actionsEnabled, period, evaluationPeriods;
      this.threshold, this.dimensions, this.alarmActions := threshold, dimensions, alarmActions;
      this.alarmDescription := None;
    }

    /** The description the present fields call for. */
    function Description(): string
      reads this
    {
      Join(DescriptionLines(alarmName, statistic, metricName, comparisonOperator, threshold, period, evaluationPeriods), "\n")
    }

    /** Builds the description line by line; it never fails, whatever fields are missing. */
    method SetAlarmDescription()
      modifies this
      ensures alarmDescription == Some(old(Description()))
      ensures alarmName == old(alarmName) && metricName == old(metricName) && namespace == old(namespace)
      ensures statistic == old(statistic) && comparisonOperator == old(comparisonOperator)
      ensures actionsEnabled == old(actionsEnabled) && period == old(period)
      ensures evaluationPeriods == old(evaluationPeriods) && threshold == old(threshold)
      ensures dimensions == old(dimensions) && alarmActions == old(alarmActions)
    {
      var desc: seq<string> := [];
      ghost var c1, l1 := alarmName.Some?, "Scale-" + Deref(alarmName);
      if alarmName.Some? {
        desc := desc + ["Scale-" + alarmName.value];
      }
      assert desc == LineIf(c1, l1);
      if statistic.Some? && metricName.Some? {
        desc := desc + [" if " + statistic.value + " " + metricName.value];
      }
      assert desc == LineIf(c1, l1) + StatisticLine(statistic, metricName);
      if comparisonOperator.Some? && threshold.Some? {
        desc := desc + [" is " + comparisonOperator.value + " " + IntToString(threshold.value) + "%"];
      }
      assert desc == LineIf(c1, l1) + StatisticLine(statistic, metricName) + ThresholdLine(comparisonOperator, threshold);
      if period.Some? && evaluationPeriods.Some? {
        desc := desc + [" for " + IntToString(period.value) + " seconds " + IntToString(evaluationPeriods.value) + " times in a row"];
      }
      assert desc == LineIf(c1, l1) + StatisticLine(statistic, metricName) + ThresholdLine(comparisonOperator, threshold)
        + PeriodLine(period, evaluationPeriods);
      alarmDescription := Some(Join(desc, "\n"));
    }
  }

  /** The description is empty exactly when no line applies, and starts with the name line when there is one. */
  lemma DescriptionShape(
    alarmName: Option<string>, statistic: Option<string>, metricName: Option<string>,
    comparison: Option<string>, threshold: Option<int>, period: Option<int>, evaluations: Option<int>)
    ensures var lines := DescriptionLines(alarmName, statistic, metricName, comparison, threshold, period, evaluations);
      (Join(lines, "\n") == "" <==> lines == []) &&
      (alarmName.Some? ==> HasPrefix(Join(lines, "\n"), "Scale-" + alarmName.value))
  {
    var lines := DescriptionLines(alarmName, statistic, metricName, comparison, threshold, period, evaluations);
    DescriptionLinesShape(alarmName, statistic, metricName, comparison, threshold, period, evaluations);
    JoinEmptyIff(lines, "\n");
    if alarmName.Some? {
      JoinStartsWithFirst(lines, "\n");
    }
  }
}
