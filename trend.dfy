/** `TestAnalytics.calculate_trend_analysis`: per-day tallies of the window's
    records, the day-by-day success rate and mean duration, their slopes and
    their means. */
module Trend {
  import opened Wrappers
  import opened Collections
  import opened Records
  import opened Regression
  import opened Store

  /** One entry of `daily_stats`. */
  datatype DayStats = DayStats(total: nat, passed: nat, failed: nat, duration: real)

  /** The analysis, or the `{"error": ...}` answer for an empty window. */
  datatype TrendAnalysis =
    | NoResults
    | Trend(dailyStats: map<int, DayStats>, successRateTrend: real, durationTrend: real,
            averageSuccessRate: real, averageDuration: real)

  const NoDay := DayStats(0, 0, 0, 0.0)

  /** Counting one more record into a day's tally. */
  function Tally(s: DayStats, r: TestResult): DayStats
  {
    DayStats(s.total + 1,
             s.passed + (if r.status == Passed then 1 else 0),
             s.failed + (if r.status == Failed then 1 else 0),
             s.duration + r.duration)
  }

  /** Reference tally of a list of records: its size, its PASSED and FAILED
      counts and its total duration. */
  function Summary(rs: seq<TestResult>): (s: DayStats)
    ensures s.passed + s.failed <= s.total == |rs|
  {
    CountIfDisjoint3(rs, IsPassed, IsFailed, IsSkipped);
    DayStats(|rs|, CountIf(rs, IsPassed), CountIf(rs, IsFailed), SumDurations(rs))
  }

  lemma SummarySnoc(rs: seq<TestResult>, r: TestResult)
    ensures Summary(rs + [r]) == Tally(Summary(rs), r)
  {
    assert (rs + [r])[..|rs|] == rs;
  }

  /** The records of one calendar day, in list order. */
  function OnDay(rs: seq<TestResult>, d: int): seq<TestResult>
  {
    Filter(rs, (r: TestResult) => Day(r.timestamp) == d)
  }

  /** The day of each record. */
  function DaysOf(rs: seq<TestResult>): (ds: seq<int>)
    ensures |ds| == |rs| && forall i :: 0 <= i < |rs| ==> ds[i] == Day(rs[i].timestamp)
  {
    if rs == [] then [] else DaysOf(rs[..|rs| - 1]) + [Day(rs[|rs| - 1].timestamp)]
  }

  /** The grouping loop: `daily_stats` after reading the records in order. */
  function DailyStats(rs: seq<TestResult>): (m: map<int, DayStats>)
    ensures forall d :: d in m <==> d in DaysOf(rs)
  {
    if rs == [] then map[]
    else
      var m := DailyStats(rs[..|rs| - 1]);
      var r := rs[|rs| - 1];
      var d := Day(r.timestamp);
      m[d := Tally(if d in m then m[d] else NoDay, r)]
  }

  lemma OnDaySnoc(rs: seq<TestResult>, d: int)
    requires rs != []
    ensures OnDay(rs, d) == OnDay(rs[..|rs| - 1], d)
                            + (if Day(rs[|rs| - 1].timestamp) == d then [rs[|rs| - 1]] else [])
  {
  }

  lemma OnDayAbsent(rs: seq<TestResult>, d: int)
    requires d !in DaysOf(rs)
    ensures OnDay(rs, d) == []
  {
  }

  /** Each day's entry is the tally of exactly the records of that day. */
  lemma {:induction false} DailyStatsSpec(rs: seq<TestResult>, d: int)
    requires d in DailyStats(rs)
    ensures DailyStats(rs)[d] == Summary(OnDay(rs, d))
    ensures DailyStats(rs)[d].total > 0
  {
    var rs', r := rs[..|rs| - 1], rs[|rs| - 1];
    OnDaySnoc(rs, d);
    if Day(r.timestamp) != d {
      DailyStatsSpec(rs', d);
      assert OnDay(rs, d) == OnDay(rs', d) + [] == OnDay(rs', d);
    } else if d in DailyStats(rs') {
      DailyStatsSpec(rs', d);
      SummarySnoc(OnDay(rs', d), r);
    } else {
      OnDayAbsent(rs', d);
      SummarySnoc([], r);
    }
  }

  /** One turn of the grouping loop. */
  lemma DayStep(rs: seq<TestResult>, i: nat)
    requires i < |rs|
    ensures var m, d := DailyStats(rs[..i]), Day(rs[i].timestamp);
      DailyStats(rs[..i + 1]) == m[d := Tally(if d in m then m[d] else NoDay, rs[i])]
    ensures var ks, d := Dedup(DaysOf(rs[..i])), Day(rs[i].timestamp);
      Dedup(DaysOf(rs[..i + 1])) == if d in ks then ks else ks + [d]
  {
    assert rs[..i + 1][..i] == rs[..i];
  }

  ghost predicate StrictlyIncreasing(s: seq<int>)
  {
    forall i, j :: 0 <= i < j < |s| ==> s[i] < s[j]
  }

  function InsertAsc(x: int, s: seq<int>): (r: seq<int>)
    requires StrictlyIncreasing(s)
    ensures StrictlyIncreasing(r)
    ensures forall y :: y in r <==> y == x || y in s
  {
    if s == [] then [x]
    else if x < s[0] then [x] + s
    else if x == s[0] then s
    else
      var t := InsertAsc(x, s[1..]);
      assert forall k :: 0 <= k < |t| ==> s[0] < t[k] by {
        forall k | 0 <= k < |t| ensures s[0] < t[k] {
          assert t[k] in t;
          if t[k] != x {
            var m :| 0 <= m < |s[1..]| && s[1..][m] == t[k];
            assert s[m + 1] == t[k];
          }
        }
      }
      [s[0]] + t
  }

  /** `sorted(daily_stats.keys())`: the distinct days, ascending. */
  function SortedDays(days: seq<int>): (r: seq<int>)
    ensures StrictlyIncreasing(r)
    ensures forall d :: d in r <==> d in days
  {
    if days == [] then [] else InsertAsc(days[|days| - 1], SortedDays(days[..|days| - 1]))
  }

  /** Success rate and mean duration of one day. */
  function DayRate(s: DayStats): real
  {
    SuccessRate(s.passed, s.total)
  }

  function DayDuration(s: DayStats): real
  {
    Average(s.duration, s.total)
  }

  function RateSeries(daily: map<int, DayStats>, dates: seq<int>): (ys: seq<real>)
    requires forall i :: 0 <= i < |dates| ==> dates[i] in daily
    ensures |ys| == |dates|
  {
    seq(|dates|, i requires 0 <= i < |dates| => DayRate(daily[dates[i]]))
  }

  function DurationSeries(daily: map<int, DayStats>, dates: seq<int>): (ys: seq<real>)
    requires forall i :: 0 <= i < |dates| ==> dates[i] in daily
    ensures |ys| == |dates|
  {
    seq(|dates|, i requires 0 <= i < |dates| => DayDuration(daily[dates[i]]))
  }

  /** The slope of a daily series; no slope below two days. */
  function SeriesTrend(ys: seq<real>): real
  {
    if |ys| > 1 then DailySlope(ys) else 0.0
  }

  /** The days of the window in ascending order. */
  function Dates(results: seq<TestResult>): (dates: seq<int>)
    ensures forall i :: 0 <= i < |dates| ==> dates[i] in DailyStats(results)
  {
    DedupSpec(DaysOf(results));
    SortedDays(Dedup(DaysOf(results)))
  }

  /** The analysis of a window's records. */
  function TrendOf(results: seq<TestResult>): TrendAnalysis
  {
    if results == [] then NoResults
    else
      var daily := DailyStats(results);
      var dates := Dates(results);
      var rates := RateSeries(daily, dates);
      var durations := DurationSeries(daily, dates);
      Trend(daily, SeriesTrend(rates), SeriesTrend(durations), Mean(rates), Mean(durations))
  }

  lemma {:induction false} SumBounds(s: seq<real>, hi: real)
    requires forall i :: 0 <= i < |s| ==> 0.0 <= s[i] <= hi
    ensures 0.0 <= Sum(s) <= |s| as real * hi
  {
    if s != [] {
      SumBounds(s[..|s| - 1], hi);
      assert (|s| - 1) as real * hi + hi == |s| as real * hi;
    }
  }

  lemma MeanBounds(s: seq<real>)
    requires forall i :: 0 <= i < |s| ==> 0.0 <= s[i] <= 100.0
    ensures 0.0 <= Mean(s) <= 100.0
  {
    SumBounds(s, 100.0);
    if |s| > 0 {
      var n := |s| as real;
      assert Sum(s) / n <= 100.0 * n / n;
    }
  }

  /** What the analysis states about the window. */
  lemma TrendSpec(results: seq<TestResult>)
    ensures TrendOf(results).NoResults? <==> results == []
    ensures var t := TrendOf(results); t.Trend? ==>
      && (forall d :: d in t.dailyStats <==> exists r :: r in results && Day(r.timestamp) == d)
      && (forall d :: d in t.dailyStats ==> t.dailyStats[d] == Summary(OnDay(results, d)))
      && (forall d :: d in t.dailyStats ==> t.dailyStats[d].passed + t.dailyStats[d].failed <= t.dailyStats[d].total)
      && 0.0 <= t.averageSuccessRate <= 100.0
  {
    if results != [] {
      var t := TrendOf(results);
      forall d ensures d in t.dailyStats <==> exists r :: r in results && Day(r.timestamp) == d {
        if d in t.dailyStats {
          var i :| 0 <= i < |results| && DaysOf(results)[i] == d;
          assert results[i] in results;
        } else {
          forall r | r in results ensures Day(r.timestamp) != d {
            var i :| 0 <= i < |results| && results[i] == r;
            assert DaysOf(results)[i] == Day(r.timestamp);
          }
        }
      }
      forall d | d in t.dailyStats ensures t.dailyStats[d] == Summary(OnDay(results, d)) {
        DailyStatsSpec(results, d);
      }
      var daily := DailyStats(results);
      var dates := Dates(results);
      var rates := RateSeries(daily, dates);
      forall i | 0 <= i < |rates| ensures 0.0 <= rates[i] <= 100.0 {
        DailyStatsSpec(results, dates[i]);
        RateBounds(daily[dates[i]].passed, daily[dates[i]].total);
      }
      MeanBounds(rates);
    }
  }

  /** When every record falls on one day there is no trend. */
  lemma OneDayNoTrend(results: seq<TestResult>)
    requires results != []
    requires forall r :: r in results ==> Day(r.timestamp) == Day(results[0].timestamp)
    ensures TrendOf(results).successRateTrend == 0.0 && TrendOf(results).durationTrend == 0.0
  {
    var dates := Dates(results);
    DedupSpec(DaysOf(results));
    if |dates| >= 2 {
      assert dates[0] < dates[1];
      forall k | 0 <= k < 2 ensures dates[k] == Day(results[0].timestamp) {
        assert dates[k] in Dedup(DaysOf(results));
        var i :| 0 <= i < |results| && DaysOf(results)[i] == dates[k];
        assert results[i] in results;
      }
      assert false;
    }
  }

  /** Over two days the success-rate trend is the later day's rate minus the
      earlier day's. */
  lemma TwoDayTrend(results: seq<TestResult>)
    requires results != [] && |Dates(results)| == 2
    ensures var daily, dates := DailyStats(results), Dates(results);
      && dates[0] < dates[1]
      && TrendOf(results).successRateTrend == DayRate(daily[dates[1]]) - DayRate(daily[dates[0]])
  {
    var daily, dates := DailyStats(results), Dates(results);
    TwoDaySlope(RateSeries(daily, dates));
  }

  /** The grouping loop of `calculate_trend_analysis`: `daily_stats` and its
      keys in insertion order. */
  method GroupByDay(results: seq<TestResult>) returns (daily: map<int, DayStats>, keys: seq<int>)
    ensures daily == DailyStats(results)
    ensures keys == Dedup(DaysOf(results))
  {
    daily, keys := map[], [];
    for i := 0 to |results|
      invariant daily == DailyStats(results[..i])
      invariant keys == Dedup(DaysOf(results[..i]))
    {
      var r := results[i];
      var d := Day(r.timestamp);
      DayStep(results, i);
      DedupSpec(DaysOf(results[..i]));
      var s := if d in daily then daily[d] else NoDay;
      if d !in daily {
        keys := keys + [d];
      }
      daily := daily[d := Tally(s, r)];
    }
    assert results[..|results|] == results;
  }

  /** The per-day loop of `calculate_trend_analysis`: success rate and mean
      duration of each day, in date order. */
  method DailySeries(daily: map<int, DayStats>, dates: seq<int>) returns (rates: seq<real>, durations: seq<real>)
    requires forall i :: 0 <= i < |dates| ==> dates[i] in daily
    ensures rates == RateSeries(daily, dates)
    ensures durations == DurationSeries(daily, dates)
  {
    rates, durations := [], [];
    for j := 0 to |dates|
      invariant |rates| == j && |durations| == j
      invariant forall k :: 0 <= k < j ==> rates[k] == DayRate(daily[dates[k]])
      invariant forall k :: 0 <= k < j ==> durations[k] == DayDuration(daily[dates[k]])
    {
      var s := daily[dates[j]];
      rates := rates + [SuccessRate(s.passed, s.total)];
      durations := durations + [Average(s.duration, s.total)];
    }
  }

  /** `calculate_trend_analysis(days)`: query the window, group by day, then
      take the slopes and means of the two daily series. */
  method CalculateTrendAnalysis(store: TestDataManager, cutoff: int) returns (t: TrendAnalysis)
    ensures t == TrendOf(NewestFirst(store.rows, cutoff))
  {
    var results := store.GetRecentResults(cutoff);
    if results == [] {
      return NoResults;
    }
    var daily, keys := GroupByDay(results);
    var dates := SortedDays(keys);
    assert dates == Dates(results);
    var rates, durations := DailySeries(daily, dates);
    var rateTrend, durationTrend := 0.0, 0.0;
    if |rates| > 1 {
      rateTrend := DailySlope(rates);
      durationTrend := DailySlope(durations);
    }
    t := Trend(daily, rateTrend, durationTrend, Mean(rates), Mean(durations));
  }
}
