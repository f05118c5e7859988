/**
 * The command-line client's view of a deploy: the execution-name prefix,
 * the attributes a release needs before it is sent, and the one-line
 * progress display (a spinner, the current state, and a row of coloured
 * dots per service).
 */
module Client {
  import opened Wrappers
  import opened Text
  import Services
  import Sorting

  // ---------------------------------------------------------------- names

  /** `deploy-<project, '/' -> '-'>-<config>-`: the prefix of a deploy's execution name. */
  function ExecutionPrefix(project: string, config: string): (r: string)
    ensures |r| == |project| + |config| + 9
    ensures HasPrefix(r, "deploy-") && r[|r| - 1] == '-'
    ensures r[7 + |project|] == '-' && r[8 + |project|..|r| - 1] == config
    ensures forall i :: 0 <= i < |project| ==> r[7 + i] == (if project[i] == '/' then '-' else project[i])
    ensures forall i :: 7 <= i < 7 + |project| ==> r[i] != '/'
  {
    "deploy-" + ReplaceChar(project, '/', '-') + "-" + config + "-"
  }

  /** A project name with slashes and one with dashes in their place share a prefix. */
  lemma SlashesAndDashesShareAPrefix(p: string, q: string, config: string)
    requires |p| == |q|
    requires forall i :: 0 <= i < |p| ==> p[i] == q[i] || (p[i] == '/' && q[i] == '-')
    ensures ExecutionPrefix(p, config) == ExecutionPrefix(q, config)
  {
    assert ReplaceChar(p, '/', '-') == ReplaceChar(q, '/', '-');
  }

  lemma ExecutionPrefixExamples()
    ensures ExecutionPrefix("p", "c") == "deploy-p-c-"
    ensures ExecutionPrefix("org/p", "c") == "deploy-org-p-c-"
  {
    assert ReplaceChar("org/p", '/', '-') == "org-p";
  }

  // ------------------------------------------------------------ attributes

  /** The attributes of a release the client checks before starting a deploy. */
  datatype ClientRelease = ClientRelease(projectName: Option<string>, configName: Option<string>, bucket: Option<string>)

  datatype ClientError = ReleaseNil | ProjectNameUndefined | ConfigNameUndefined | BucketUndefined

  /** `validateClientAttributes`: nil, then project, config and bucket, the first failure reported. */
  function ValidateClientAttributes(release: Option<ClientRelease>): (r: Outcome<ClientError>)
    ensures r.Pass? <==> release.Some? && !EmptyStr(release.value.projectName)
                         && !EmptyStr(release.value.configName) && !EmptyStr(release.value.bucket)
    ensures r == Fail(ReleaseNil) <==> release.None?
    ensures r == Fail(ProjectNameUndefined) <==> release.Some? && EmptyStr(release.value.projectName)
    ensures r == Fail(ConfigNameUndefined) <==>
              release.Some? && !EmptyStr(release.value.projectName) && EmptyStr(release.value.configName)
    ensures r == Fail(BucketUndefined) <==>
              release.Some? && !EmptyStr(release.value.projectName) && !EmptyStr(release.value.configName)
              && EmptyStr(release.value.bucket)
  {
    if release.None? then Fail(ReleaseNil)
    else if EmptyStr(release.value.projectName) then Fail(ProjectNameUndefined)
    else if EmptyStr(release.value.configName) then Fail(ConfigNameUndefined)
    else if EmptyStr(release.value.bucket) then Fail(BucketUndefined)
    else Pass
  }

  /** A release decoded from `{}` has none of the attributes and fails on its project name. */
  lemma EmptyReleaseRejected()
    ensures ValidateClientAttributes(Some(ClientRelease(None, None, None))) == Fail(ProjectNameUndefined)
  {
  }

  // ------------------------------------------------------------ the display

  /** An execution's error as it appears in the release output. */
  datatype ExecutionError = ExecutionError(error: string, cause: string)

  /** The parts of the release output the display reads. */
  datatype OutputRelease = OutputRelease(
    projectName: Option<string>,
    error: Option<ExecutionError>,
    services: map<string, Option<Services.HealthReport>>)

  /** What a release decoded from no output looks like. */
  const NoRelease := OutputRelease(None, None, map[])

  /**
   * The engine's view of the current step. The last output is the decoded
   * release, or the decoding error when the output is not a release.
   */
  datatype StateDetails = StateDetails(
    lastTaskName: Option<string>,
    lastStateName: Option<string>,
    lastOutput: Option<Result<OutputRelease, string>>)

  /** `stateName`: the last task's name, else the last state's, else "". */
  function StateName(sd: StateDetails): (r: string)
    ensures sd.lastTaskName.Some? ==> r == sd.lastTaskName.value
    ensures sd.lastTaskName.None? && sd.lastStateName.Some? ==> r == sd.lastStateName.value
    ensures sd.lastTaskName.None? && sd.lastStateName.None? ==> r == ""
  {
    if sd.lastTaskName.Some? then sd.lastTaskName.value
    else if sd.lastStateName.Some? then sd.lastStateName.value
    else ""
  }

  const SpinnerChars := "/-\\|"

  /** The spinner character for a counter value. */
  function SpinnerAt(counter: nat): (r: char)
    ensures r in SpinnerChars
  {
    SpinnerChars[counter % 4]
  }

  /** The spinner repeats every four ticks, and each tick shows a different character. */
  lemma SpinnerCycles(n: nat)
    ensures SpinnerAt(n + 4) == SpinnerAt(n)
    ensures SpinnerAt(n + 1) != SpinnerAt(n)
  {
  }

  lemma SpinnerAtFive()
    ensures SpinnerAt(5) == '-'
  {
  }

  /** A mark in a service's row: the bar at the healthy target, or a coloured dot per instance. */
  datatype Colour = Gray | Green | Yellow | Red
  datatype Mark = Bar | Dot(colour: Colour)

  /** The number of dots: the launch target, or more while extra instances are launched. */
  function DotCount(report: Services.HealthReport): (n: nat)
    ensures n >= report.launching && n >= report.targetLaunched
    ensures n == report.launching || n == report.targetLaunched
  {
    if report.targetLaunched > report.launching then report.targetLaunched else report.launching
  }

  /**
   * The colour of dot `i`: green for the healthy, yellow for the launching
   * that are neither healthy nor terminating, red for the terminating, gray beyond.
   */
  function DotColour(i: int, report: Services.HealthReport): (c: Colour)
    ensures c == Green <==> i < report.healthy
    ensures c == Yellow <==> report.healthy <= i < report.launching - report.terminating
    ensures c == Red <==> report.healthy <= i && report.launching - report.terminating <= i < report.launching
    ensures c == Gray <==> report.healthy <= i && report.launching <= i
  {
    var green := report.healthy;
    var red := report.terminating;
    var yellow := report.launching - green - red;
    if i < green then Green
    else if i < green + yellow then Yellow
    else if i < green + yellow + red then Red
    else Gray
  }

  /** The order the colours take along a row. */
  function Rank(c: Colour): nat
  {
    match c
    case Green => 0
    case Yellow => 1
    case Red => 2
    case Gray => 3
  }

  /** Along a row the colours come in bands: green, then yellow, then red, then gray. */
  lemma ColoursBanded(report: Services.HealthReport, i: int, j: int)
    requires i <= j
    ensures Rank(DotColour(i, report)) <= Rank(DotColour(j, report))
  {
  }

  /** The first `n` marks of a row: dot `i` is preceded by the bar when `i` is the healthy target. */
  function Cells(report: Services.HealthReport, n: nat): seq<Mark>
  {
    if n == 0 then []
    else Cells(report, n - 1) + (if n - 1 == report.targetHealthy then [Bar] else []) + [Dot(DotColour(n - 1, report))]
  }

  /** The dots `lo` to `hi` of a row, without a bar. */
  function DotRun(report: Services.HealthReport, lo: nat, hi: nat): (r: seq<Mark>)
    requires lo <= hi
    ensures |r| == hi - lo
    ensures forall k :: 0 <= k < |r| ==> r[k] == Dot(DotColour(lo + k, report))
  {
    seq(hi - lo, k requires 0 <= k < hi - lo => Dot(DotColour(lo + k, report)))
  }

  lemma DotRunExtend(report: Services.HealthReport, lo: nat, hi: nat)
    requires lo <= hi
    ensures DotRun(report, lo, hi) + [Dot(DotColour(hi, report))] == DotRun(report, lo, hi + 1)
  {
  }

  /**
   * A row of `n` dots has one bar, placed after the first `targetHealthy`
   * dots, when that target is below `n`, and no bar otherwise.
   */
  lemma {:induction false} CellsLayout(report: Services.HealthReport, n: nat)
    ensures 0 <= report.targetHealthy < n ==>
      Cells(report, n) == DotRun(report, 0, report.targetHealthy) + [Bar] + DotRun(report, report.targetHealthy, n)
    ensures !(0 <= report.targetHealthy < n) ==> Cells(report, n) == DotRun(report, 0, n)
  {
    if n > 0 {
      CellsLayout(report, n - 1);
      var b := report.targetHealthy;
      if 0 <= b < n - 1 {
        DotRunExtend(report, b, n - 1);
      } else if b == n - 1 {
        assert DotRun(report, b, n) == [Dot(DotColour(b, report))];
      } else {
        DotRunExtend(report, 0, n - 1);
      }
    }
  }

  /** How many of the first `n` dots have colour `c`. */
  function CountColour(report: Services.HealthReport, n: nat, c: Colour): nat
  {
    if n == 0 then 0 else CountColour(report, n - 1, c) + (if DotColour(n - 1, report) == c then 1 else 0)
  }

  function Max(a: int, b: int): int { if a < b then b else a }
  function Min(a: int, b: int): int { if a < b then a else b }

  /** The size of each colour band among the first `n` dots. */
  lemma {:induction false} ColourCounts(report: Services.HealthReport, n: nat)
    ensures CountColour(report, n, Green) == Min(n, report.healthy)
    ensures CountColour(report, n, Yellow) == Max(0, Min(n, report.launching - report.terminating) - report.healthy)
    ensures CountColour(report, n, Red) ==
              Max(0, Min(n, report.launching) - Max(report.healthy, report.launching - report.terminating))
    ensures CountColour(report, n, Gray) == Max(0, n - Max(report.healthy, report.launching))
  {
    if n > 0 {
      ColourCounts(report, n - 1);
    }
  }

  /**
   * When the report is consistent (no more healthy and terminating than
   * launching) a full row has exactly `healthy` green, `terminating` red and
   * the rest of the launching yellow dots; the dots beyond are gray.
   */
  lemma ConsistentReportColours(report: Services.HealthReport)
    requires report.healthy + report.terminating <= report.launching
    ensures CountColour(report, DotCount(report), Green) == report.healthy
    ensures CountColour(report, DotCount(report), Yellow) == report.launching - report.healthy - report.terminating
    ensures CountColour(report, DotCount(report), Red) == report.terminating
    ensures CountColour(report, DotCount(report), Gray) == DotCount(report) - report.launching
  {
    ColourCounts(report, DotCount(report));
  }

  /** The report the client tests use: a target of 3 healthy of 5, one healthy, five launching. */
  lemma FiveDotRow()
    ensures Cells(Services.HealthReport(3, 5, 1, 5, 0, {}), DotCount(Services.HealthReport(3, 5, 1, 5, 0, {})))
         == [Dot(Green), Dot(Yellow), Dot(Yellow), Bar, Dot(Yellow), Dot(Yellow)]
  {
    var r := Services.HealthReport(3, 5, 1, 5, 0, {});
    CellsLayout(r, 5);
  }

  function Escape(code: string): string { [27 as char] + code }

  /** The terminal colour codes. */
  function ColourCode(c: Colour): string
  {
    match c
    case Red => Escape("[0;31m")
    case Gray => Escape("[1;37m")
    case Green => Escape("[0;32m")
    case Yellow => Escape("[1;33m")
  }

  const NoColour := Escape("[0m")

  /** A mark as the terminal shows it. */
  function Render(m: Mark): string
  {
    match m
    case Bar => ColourCode(Gray) + "|" + NoColour
    case Dot(c) => ColourCode(c) + "." + NoColour
  }

  function RenderAll(ms: seq<Mark>): (r: seq<string>)
    ensures |r| == |ms|
    ensures forall k :: 0 <= k < |ms| ==> r[k] == Render(ms[k])
  {
    seq(|ms|, k requires 0 <= k < |ms| => Render(ms[k]))
  }

  /** A service's line: its name and its row of marks, or "" when it has no health report. */
  function ServiceLine(name: string, report: Option<Services.HealthReport>): (r: string)
    ensures r == "" <==> report.None?
    ensures report.Some? ==> HasPrefix(r, name + ": ")
  {
    if report.None? then ""
    else
      var line := name + ": " + Join(RenderAll(Cells(report.value, DotCount(report.value))), "");
      assert line[..|name + ": "|] == name + ": ";
      line
  }

  /** `serviceStr`: one mark at a time, the bar before the dot at the healthy target. */
  method ServiceStr(name: string, report: Option<Services.HealthReport>) returns (line: string)
    ensures line == ServiceLine(name, report)
  {
    if report.Some? {
      var r := report.value;
      var dots: seq<string> := [];
      var barAt := r.targetHealthy;
      var numberOfDots := DotCount(r);
      var numberOfGreenDots := r.healthy;
      var numberOfRedDots := r.terminating;
      var numberOfYellowDots := r.launching - numberOfGreenDots - numberOfRedDots;
      for i := 0 to numberOfDots
        invariant dots == RenderAll(Cells(r, i))
      {
        if i == barAt {
          dots := dots + [ColourCode(Gray) + "|" + NoColour];
        }
        if i < numberOfGreenDots {
          dots := dots + [ColourCode(Green) + "." + NoColour];
        } else if i < numberOfGreenDots + numberOfYellowDots {
          dots := dots + [ColourCode(Yellow) + "." + NoColour];
        } else if i < numberOfGreenDots + numberOfYellowDots + numberOfRedDots {
          dots := dots + [ColourCode(Red) + "." + NoColour];
        } else {
          dots := dots + [ColourCode(Gray) + "." + NoColour];
        }
        assert dots == RenderAll(Cells(r, i + 1));
      }
      line := name + ": " + Join(dots, "");
    } else {
      line := "";
    }
  }

  // ------------------------------------------------------------ status line

  /** The release the output decodes to; no output decodes to the empty release. */
  function Released(sd: StateDetails): OutputRelease
  {
    if sd.lastOutput.Some? && sd.lastOutput.value.Ok? then sd.lastOutput.value.value else NoRelease
  }

  predicate DecodeFailed(sd: StateDetails)
  {
    sd.lastOutput.Some? && sd.lastOutput.value.Err?
  }

  /** The service rows are shown when the output is a release with a project and no error. */
  predicate ShowsServices(sd: StateDetails)
  {
    !DecodeFailed(sd) && Released(sd).projectName.Some? && Released(sd).error.None?
  }

  /** The service lines a release shows: one per service with a health report, in any order. */
  ghost function LineBag(services: map<string, Option<Services.HealthReport>>, names: set<string>): multiset<string>
    requires names <= services.Keys
    decreases names
  {
    if names == {} then multiset{}
    else
      var n := Pick(names);
      LineBag(services, names - {n}) + LineOf(n, services[n])
  }

  /** Some member of a set of names: the next service the loop visits. */
  ghost function Pick(names: set<string>): (n: string)
    requires names != {}
    ensures n in names
  {
    var n :| n in names; n
  }

  function LineOf(name: string, report: Option<Services.HealthReport>): multiset<string>
  {
    var st := ServiceLine(name, report);
    if st != "" then multiset{st} else multiset{}
  }

  /** The bag of lines does not depend on the order the services are visited in. */
  lemma {:induction false} LineBagRemove(services: map<string, Option<Services.HealthReport>>, names: set<string>, x: string)
    requires names <= services.Keys && x in names
    ensures LineBag(services, names) == LineBag(services, names - {x}) + LineOf(x, services[x])
    decreases names
  {
    var n := Pick(names);
    if n != x {
      LineBagRemove(services, names - {n}, x);
      LineBagRemove(services, names - {x}, n);
      assert names - {n} - {x} == names - {x} - {n};
    }
  }

  /** The status line before the spinner, given the service lines in the order shown. */
  function StatusLine(status: string, sd: StateDetails, lines: seq<string>): string
  {
    var head := status + "(" + StateName(sd) + ")";
    var release := Released(sd);
    if release.projectName.None? then head
    else if release.error.Some? then head + " Error " + release.error.value.error + "(" + release.error.value.cause + ")"
    else if |lines| > 0 then head + " " + Join(lines, "  ")
    else head
  }

  /**
   * The lines shown are sorted and are the service lines of the release,
   * so the status line is the same whatever order the services were visited in.
   */
  lemma StatusLineDeterministic(status: string, sd: StateDetails, lines1: seq<string>, lines2: seq<string>)
    requires Sorting.Sorted(lines1) && Sorting.Sorted(lines2) && multiset(lines1) == multiset(lines2)
    ensures StatusLine(status, sd, lines1) == StatusLine(status, sd, lines2)
  {
    Sorting.SortedUnique(lines1, lines2);
  }

  /** A release with a project, no error and a service without a report shows only its status. */
  lemma MinimalReleaseStatus(lines: seq<string>)
    requires multiset(lines) == LineBag(map["web" := None], {"web"})
    ensures [SpinnerAt(5)] + StatusLine("RUNNING",
              StateDetails(Some("TaskName"), None, Some(Ok(OutputRelease(Some("project"), None, map["web" := None])))), lines)
            == "-RUNNING(TaskName)"
  {
    UnreportedServiceNoLine(lines);
    SpinnerAtFive();
    var sd := StateDetails(Some("TaskName"), None, Some(Ok(OutputRelease(Some("project"), None, map["web" := None]))));
    assert StateName(sd) == "TaskName";
  }

  /** A service without a health report contributes no line. */
  lemma UnreportedServiceNoLine(lines: seq<string>)
    requires multiset(lines) == LineBag(map["web" := None], {"web"})
    ensures lines == []
  {
    assert LineBag(map["web" := None], {"web"}) == multiset{} by {
      LineBagRemove(map["web" := None], {"web"}, "web");
      assert {"web"} - {"web"} == {};
    }
    assert |lines| == |multiset(lines)| == 0;
  }

  const Padding := "               "

  /** The console the progress is drawn on; the counter turns the spinner. */
  class Console {
    var spinnerCounter: nat

    constructor()
      ensures spinnerCounter == 0
    {
      spinnerCounter := 0;
    }

    /**
     * `waiterStr`: the spinner, the status and state, then the release's
     * error or its service lines sorted and joined by two spaces. An output
     * that does not decode is an error.
     */
    method WaiterStr(status: string, sd: StateDetails) returns (r: Result<string, string>, ghost lines: seq<string>)
      ensures DecodeFailed(sd) ==> r == Err(sd.lastOutput.value.error)
      ensures !DecodeFailed(sd) ==> r == Ok([SpinnerAt(spinnerCounter)] + StatusLine(status, sd, lines))
      ensures ShowsServices(sd) ==>
                Sorting.Sorted(lines) && multiset(lines) == LineBag(Released(sd).services, Released(sd).services.Keys)
    {
      lines := [];
      var newLine := status + "(" + StateName(sd) + ")";
      if DecodeFailed(sd) {
        return Err(sd.lastOutput.value.error), lines;
      }
      var release := Released(sd);
      if release.projectName.Some? {
        if release.error.Some? {
          newLine := newLine + " Error " + release.error.value.error + "(" + release.error.value.cause + ")";
        } else {
          var sh: seq<string> := [];
          var rest := release.services.Keys;
          while rest != {}
            invariant rest <= release.services.Keys
            invariant multiset(sh) + LineBag(release.services, rest) == LineBag(release.services, release.services.Keys)
            decreases rest
          {
            var name :| name in rest;
            var st := ServiceStr(name, release.services[name]);
            if st != "" {
              sh := sh + [st];
            }
            LineBagRemove(release.services, rest, name);
            rest := rest - {name};
          }
          if |sh| > 0 {
            sh := Sorting.Sort(sh);
            newLine := newLine + " " + Join(sh, "  ");
          }
          lines := sh;
        }
      }
      r := Ok([SpinnerAt(spinnerCounter)] + newLine);
    }

    /**
     * `waiter`: an engine error is reported; otherwise the spinner turns
     * and the status line is drawn over the previous one.
     */
    method Waiter(status: string, sd: StateDetails, err: Option<string>) returns (r: Result<string, string>, ghost lines: seq<string>)
      modifies this
      ensures err.Some? ==> r == Err("Unexpected Error " + err.value) && spinnerCounter == old(spinnerCounter)
      ensures err.None? ==> spinnerCounter == old(spinnerCounter) + 1
      ensures err.None? && DecodeFailed(sd) ==> r == Err(sd.lastOutput.value.error)
      ensures err.None? && !DecodeFailed(sd) ==>
                r == Ok("\r" + [SpinnerAt(spinnerCounter)] + StatusLine(status, sd, lines) + Padding)
      ensures err.None? && ShowsServices(sd) ==>
                Sorting.Sorted(lines) && multiset(lines) == LineBag(Released(sd).services, Released(sd).services.Keys)
    {
      lines := [];
      if err.Some? {
        return Err("Unexpected Error " + err.value), lines;
      }
      spinnerCounter := spinnerCounter + 1;
      var ws;
      ws, lines := WaiterStr(status, sd);
      if ws.Err? {
        return ws, lines;
      }
      r := Ok("\r" + ws.value + Padding);
      assert "\r" + ws.value + Padding == "\r" + [SpinnerAt(spinnerCounter)] + StatusLine(status, sd, lines) + Padding;
    }
  }
}
