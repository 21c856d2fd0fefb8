/** `ReportGenerator`: the numeric summary block, the trend narration of the
    HTML page and the records embedded in the JSON document. Page layout,
    charts and serialisation are not part of this model. */
module Report {
  import opened Wrappers
  import opened Collections
  import opened Records
  import opened Store
  import opened Trend
  import opened Flaky
  import opened Failures

  /** The summary block (`summary` of the JSON document, cards of the HTML page). */
  datatype Summary = Summary(
    totalTests: nat,
    passedTests: nat,
    failedTests: nat,
    skippedTests: nat,
    successRate: real,
    totalDuration: real,
    averageDuration: real)

  function SummaryOf(results: seq<TestResult>): Summary
  {
    var n := |results|;
    var passed := CountIf(results, IsPassed);
    Summary(n, passed, CountIf(results, IsFailed), CountIf(results, IsSkipped),
            SuccessRate(passed, n), SumDurations(results), Average(SumDurations(results), n))
  }

  lemma {:induction false} StatusesPartition(rs: seq<TestResult>)
    ensures CountIf(rs, IsPassed) + CountIf(rs, IsFailed) + CountIf(rs, IsSkipped) == |rs|
  {
    if rs != [] {
      StatusesPartition(rs[..|rs| - 1]);
    }
  }

  /** Every record is counted under exactly one status; both ratios are
      guarded against the empty window; the rate is a percentage and the mean
      times the count gives the total. */
  lemma SummarySpec(results: seq<TestResult>)
    ensures var s := SummaryOf(results);
      && s.passedTests + s.failedTests + s.skippedTests == s.totalTests == |results|
      && 0.0 <= s.successRate <= 100.0
      && (results == [] ==> s.successRate == 0.0 && s.averageDuration == 0.0 && s.totalDuration == 0.0)
      && (results != [] ==> s.averageDuration * |results| as real == s.totalDuration)
  {
    StatusesPartition(results);
    RateBounds(CountIf(results, IsPassed), |results|);
  }

  /** The success-rate line of the trends section. */
  datatype RateNarration = Improving(pointsPerDay: real) | Declining(pointsPerDay: real) | RateStable

  /** The duration line of the trends section; `Faster` carries the improvement as a positive number. */
  datatype DurationNarration = Faster(secondsSavedPerDay: real) | Slower(secondsPerDay: real) | DurationStable

  function NarrateRate(slope: real): (n: RateNarration)
    ensures n.Improving? <==> slope > 0.0
    ensures n.Declining? <==> slope < 0.0
    ensures n.RateStable? <==> slope == 0.0
    ensures !n.RateStable? ==> n.pointsPerDay == slope
  {
    if slope > 0.0 then Improving(slope)
    else if slope < 0.0 then Declining(slope)
    else RateStable
  }

  function NarrateDuration(slope: real): (n: DurationNarration)
    ensures n.Faster? <==> slope < 0.0
    ensures n.Slower? <==> slope > 0.0
    ensures n.DurationStable? <==> slope == 0.0
    ensures n.Faster? ==> n.secondsSavedPerDay == -slope > 0.0
    ensures n.Slower? ==> n.secondsPerDay == slope > 0.0
  {
    if slope < 0.0 then Faster(-slope)
    else if slope > 0.0 then Slower(slope)
    else DurationStable
  }

  /** The figures the HTML page shows. */
  datatype HtmlReport = HtmlReport(
    totalTests: nat,
    successRate: real,
    failedTests: nat,
    averageDuration: real,
    flakyShown: seq<FlakyTest>,
    flakyCount: nat,
    topFailingTests: seq<FailingTest>,
    rateNarration: RateNarration,
    durationNarration: DurationNarration)

  /** Rows of the flaky-test table. */
  const FlakyTableRows: nat := 10

  /** The page for a window's records. On an empty window the analysis is the
      no-data marker and the trend comparison cannot be rendered: no page. */
  function HtmlReportOf(results: seq<TestResult>): Option<HtmlReport>
  {
    var t := TrendOf(results);
    if t.NoResults? then None
    else
      var s := SummaryOf(results);
      var flaky := FlakyTests(results, DefaultMinExecutions);
      Some(HtmlReport(s.totalTests, s.successRate, s.failedTests, s.averageDuration,
                      Take(flaky, FlakyTableRows), |flaky|, PatternsOf(results).topFailingTests,
                      NarrateRate(t.successRateTrend), NarrateDuration(t.durationTrend)))
  }

  /** A page exists exactly for a non-empty window; it lists at most ten flaky
      tests, the best-scored ones, while its count covers all of them. */
  lemma HtmlReportSpec(results: seq<TestResult>)
    ensures HtmlReportOf(results).Some? <==> results != []
    ensures HtmlReportOf(results).Some? ==>
      var h := HtmlReportOf(results).value;
      && |h.flakyShown| <= FlakyTableRows
      && h.flakyShown == FlakyTests(results, DefaultMinExecutions)[..|h.flakyShown|]
      && h.flakyCount == |FlakyTests(results, DefaultMinExecutions)|
      && h.totalTests == |results|
      && (h.rateNarration.Improving? <==> TrendOf(results).successRateTrend > 0.0)
  {
    TrendSpec(results);
  }

  /** Number of records embedded in the JSON document. */
  const RawRecordLimit: nat := 100

  /** `results[-100:]`: the last `min(100, n)` records of the list. */
  function RawTail(results: seq<TestResult>): (tail: seq<TestResult>)
    ensures |tail| == if |results| < RawRecordLimit then |results| else RawRecordLimit
    ensures tail == results[|results| - |tail|..]
  {
    if |results| <= RawRecordLimit then results else results[|results| - RawRecordLimit..]
  }

  /** On a newest-first list the embedded records are the oldest of the
      window: none left out is older than one kept. */
  lemma RawTailOldest(results: seq<TestResult>)
    requires forall i, j :: 0 <= i < j < |results| ==> results[i].timestamp >= results[j].timestamp
    ensures forall x, y :: x in results[..|results| - |RawTail(results)|] && y in RawTail(results) ==>
              x.timestamp >= y.timestamp
  {
    var k := |results| - |RawTail(results)|;
    var kept, dropped := results[k..], results[..k];
    assert RawTail(results) == kept;
    forall x, y | x in dropped && y in kept ensures x.timestamp >= y.timestamp {
      var i :| 0 <= i < |dropped| && dropped[i] == x;
      var j :| 0 <= j < |kept| && kept[j] == y;
      assert results[i] == x && results[k + j] == y;
    }
  }

  datatype Metadata = Metadata(generatedAt: int, environment: string, reportPeriodDays: int, frameworkVersion: string)

  const FrameworkVersion := "1.0.0"

  datatype JsonReport = JsonReport(
    metadata: Metadata,
    summary: Summary,
    trends: TrendAnalysis,
    flakyTests: seq<FlakyTest>,
    failurePatterns: FailurePatterns,
    testResults: seq<TestResult>)

  /** `os.getenv('ENVIRONMENT', 'unknown')` */
  function EnvironmentName(env: Option<string>): string
  {
    match env case Some(e) => e case None => "unknown"
  }

  function JsonReportOf(results: seq<TestResult>, now: int, env: Option<string>, days: int): JsonReport
  {
    JsonReport(Metadata(now, EnvironmentName(env), days, FrameworkVersion),
               SummaryOf(results), TrendOf(results), FlakyTests(results, DefaultMinExecutions),
               PatternsOf(results), RawTail(results))
  }

  /** `generate_json_report(output_path, days)` up to serialisation: every
      block is computed over the same window. */
  method GenerateJsonReport(store: TestDataManager, cutoff: int, now: int, env: Option<string>, days: int)
    returns (report: JsonReport)
    ensures report == JsonReportOf(NewestFirst(store.rows, cutoff), now, env, days)
  {
    var results := store.GetRecentResults(cutoff);
    var trends := CalculateTrendAnalysis(store, cutoff);
    var flaky := IdentifyFlakyTests(store, cutoff, DefaultMinExecutions);
    var patterns := AnalyzeFailurePatterns(store, cutoff);
    report := JsonReport(Metadata(now, EnvironmentName(env), days, FrameworkVersion),
                         SummaryOf(results), trends, flaky, patterns, RawTail(results));
  }

  /** `generate_html_report(output_path, days)` up to rendering; `None` where
      rendering fails on an empty window. */
  method GenerateHtmlReport(store: TestDataManager, cutoff: int) returns (page: Option<HtmlReport>)
    ensures page == HtmlReportOf(NewestFirst(store.rows, cutoff))
  {
    var results := store.GetRecentResults(cutoff);
    var trends := CalculateTrendAnalysis(store, cutoff);
    var flaky := IdentifyFlakyTests(store, cutoff, DefaultMinExecutions);
    var patterns := AnalyzeFailurePatterns(store, cutoff);
    if trends.NoResults? {
      return None;
    }
    var s := SummaryOf(results);
    page := Some(HtmlReport(s.totalTests, s.successRate, s.failedTests, s.averageDuration,
                            Take(flaky, FlakyTableRows), |flaky|, patterns.topFailingTests,
                            NarrateRate(trends.successRateTrend), NarrateDuration(trends.durationTrend)));
  }
}
