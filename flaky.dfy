/** `TestAnalytics.identify_flaky_tests`: tests that both passed and failed
    within the window, scored by how evenly their runs split. */
module Flaky {
  import opened Wrappers
  import opened Collections
  import opened Records
  import opened Store

  datatype FlakyTest = FlakyTest(
    testName: Option<string>,
    totalExecutions: nat,
    passedCount: nat,
    failedCount: nat,
    flakyScore: real)

  /** `min_executions` when the caller gives none. */
  const DefaultMinExecutions: int := 5

  function Score(t: FlakyTest): real
  {
    t.flakyScore
  }

  /** `(test_name, status)` of every record, in list order. */
  function NameStatus(rs: seq<TestResult>): (items: seq<(Option<string>, Status)>)
    ensures |items| == |rs|
    ensures forall i :: 0 <= i < |rs| ==> items[i] == (rs[i].testName, rs[i].status)
  {
    seq(|rs|, i requires 0 <= i < |rs| => (rs[i].testName, rs[i].status))
  }

  function CountStatus(ss: seq<Status>, s: Status): nat
  {
    CountIf(ss, (x: Status) => x == s)
  }

  /** `min(passed, failed) / total * 100` */
  function FlakyScore(passed: nat, failed: nat, total: nat): real
  {
    if total == 0 then 0.0
    else (if passed < failed then passed else failed) as real / total as real * 100.0
  }

  /** The verdict on one test's run history: flaky when it ran at least
      `minExecutions` times and both passed and failed. */
  function Assess(g: Group<Option<string>, Status>, minExecutions: int): Option<FlakyTest>
  {
    var n := |g.members|;
    var p, f := CountStatus(g.members, Passed), CountStatus(g.members, Failed);
    if n >= minExecutions && p > 0 && f > 0 then Some(FlakyTest(g.key, n, p, f, FlakyScore(p, f, n)))
    else None
  }

  /** The flaky entries of `test_stats`, in its insertion order. */
  function Candidates(gs: seq<Group<Option<string>, Status>>, minExecutions: int): seq<FlakyTest>
  {
    if gs == [] then []
    else
      Candidates(gs[..|gs| - 1], minExecutions)
      + (match Assess(gs[|gs| - 1], minExecutions) case Some(t) => [t] case None => [])
  }

  /** The answer of `identify_flaky_tests` for the window's records. */
  function FlakyTests(results: seq<TestResult>, minExecutions: int): seq<FlakyTest>
  {
    SortDesc(Candidates(GroupBy(NameStatus(results)), minExecutions), Score)
  }

  /** The run history of one test name in the window: its statuses in list order. */
  function Runs(results: seq<TestResult>, name: Option<string>): seq<Status>
  {
    MembersOf(NameStatus(results), name)
  }

  /** Every flaky verdict of a group appears among the candidates. */
  lemma {:induction false} CandidatesComplete(gs: seq<Group<Option<string>, Status>>, minExecutions: int, i: nat)
    requires i < |gs| && Assess(gs[i], minExecutions).Some?
    ensures Assess(gs[i], minExecutions).value in Candidates(gs, minExecutions)
  {
    var p := gs[..|gs| - 1];
    if i < |p| {
      assert p[i] == gs[i];
      CandidatesComplete(p, minExecutions, i);
    }
  }

  /** Every candidate is the flaky verdict of some group. */
  lemma {:induction false} CandidatesSound(gs: seq<Group<Option<string>, Status>>, minExecutions: int, t: FlakyTest)
    requires t in Candidates(gs, minExecutions)
    ensures exists i :: 0 <= i < |gs| && Assess(gs[i], minExecutions) == Some(t)
  {
    var p := gs[..|gs| - 1];
    if t in Candidates(p, minExecutions) {
      CandidatesSound(p, minExecutions, t);
      var i :| 0 <= i < |p| && Assess(p[i], minExecutions) == Some(t);
      assert gs[i] == p[i];
    } else {
      assert Assess(gs[|gs| - 1], minExecutions) == Some(t);
    }
  }

  lemma CandidatesSpec(gs: seq<Group<Option<string>, Status>>, minExecutions: int)
    ensures forall t :: t in Candidates(gs, minExecutions) <==>
              exists i :: 0 <= i < |gs| && Assess(gs[i], minExecutions) == Some(t)
  {
    forall t ensures t in Candidates(gs, minExecutions) <==>
                     exists i :: 0 <= i < |gs| && Assess(gs[i], minExecutions) == Some(t)
    {
      if t in Candidates(gs, minExecutions) {
        CandidatesSound(gs, minExecutions, t);
      }
      if i :| 0 <= i < |gs| && Assess(gs[i], minExecutions) == Some(t) {
        CandidatesComplete(gs, minExecutions, i);
      }
    }
  }

  /** A test is reported exactly when it appears in the window, ran at least
      `minExecutions` times, and both passed and failed; the entry carries its
      run count, its PASSED and FAILED counts and its score. */
  lemma FlakySpec(results: seq<TestResult>, minExecutions: int, t: FlakyTest)
    ensures t in FlakyTests(results, minExecutions) <==>
      && (exists r :: r in results && r.testName == t.testName)
      && var runs := Runs(results, t.testName);
      && |runs| >= minExecutions
      && t.totalExecutions == |runs|
      && t.passedCount == CountStatus(runs, Passed) > 0
      && t.failedCount == CountStatus(runs, Failed) > 0
      && t.flakyScore == FlakyScore(t.passedCount, t.failedCount, |runs|)
  {
    var items := NameStatus(results);
    var gs := GroupBy(items);
    var name := t.testName;
    FlakyVerdicts(results, minExecutions, t);
    VerdictOfName(items, minExecutions, t);
    NamePresent(results, name);
    assert (Assess(Group(name, Runs(results, name)), minExecutions) == Some(t)) <==>
      && var runs := Runs(results, name);
      && |runs| >= minExecutions
      && t.totalExecutions == |runs|
      && t.passedCount == CountStatus(runs, Passed) > 0
      && t.failedCount == CountStatus(runs, Failed) > 0
      && t.flakyScore == FlakyScore(t.passedCount, t.failedCount, |runs|);
  }

  /** The sorted list holds exactly the groups' flaky verdicts. */
  lemma FlakyVerdicts(results: seq<TestResult>, minExecutions: int, t: FlakyTest)
    ensures t in FlakyTests(results, minExecutions) <==>
              exists i :: 0 <= i < |GroupBy(NameStatus(results))| && Assess(GroupBy(NameStatus(results))[i], minExecutions) == Some(t)
  {
    var gs := GroupBy(NameStatus(results));
    SortDescSpec(Candidates(gs, minExecutions), Score);
    CandidatesSpec(gs, minExecutions);
  }

  /** Some group's verdict is `t` iff `t`'s name is a key and the verdict on
      that name's whole run history is `t`. */
  lemma VerdictOfName(items: seq<(Option<string>, Status)>, minExecutions: int, t: FlakyTest)
    ensures (exists i :: 0 <= i < |GroupBy(items)| && Assess(GroupBy(items)[i], minExecutions) == Some(t)) <==>
              t.testName in KeysOf(items) && Assess(Group(t.testName, MembersOf(items, t.testName)), minExecutions) == Some(t)
  {
    var gs := GroupBy(items);
    GroupBySpec(items);
    if i :| 0 <= i < |gs| && Assess(gs[i], minExecutions) == Some(t) {
      assert gs[i].key == t.testName;
      assert gs[i] == Group(t.testName, MembersOf(items, t.testName));
    }
    if t.testName in KeysOf(items) && Assess(Group(t.testName, MembersOf(items, t.testName)), minExecutions) == Some(t) {
      var i :| 0 <= i < |gs| && gs[i].key == t.testName;
      assert gs[i] == Group(t.testName, MembersOf(items, t.testName));
    }
  }

  /** A name is a key of `test_stats` iff some record of the window carries it. */
  lemma NamePresent(results: seq<TestResult>, name: Option<string>)
    ensures (exists r :: r in results && r.testName == name) <==> name in KeysOf(NameStatus(results))
  {
    var items := NameStatus(results);
    if name in KeysOf(items) {
      var i :| 0 <= i < |items| && KeysOf(items)[i] == name;
      assert results[i] in results;
    }
    if r :| r in results && r.testName == name {
      var i :| 0 <= i < |results| && results[i] == r;
      assert KeysOf(items)[i] == name;
    }
  }

  /** A part no larger than half its whole is a ratio in (0, 1/2]. */
  lemma HalfBound(a: real, b: real)
    requires 0.0 < a && 2.0 * a <= b
    ensures 0.0 < a / b <= 0.5
  {
    var x := a / b;
    assert x * b == a;
  }

  lemma ScoreBounds(passed: nat, failed: nat, total: nat)
    requires passed > 0 && failed > 0 && passed + failed <= total
    ensures 0.0 < FlakyScore(passed, failed, total) <= 50.0
  {
    var m := if passed < failed then passed else failed;
    HalfBound(m as real, total as real);
  }

  /** Every score lies in (0, 50], and passed plus failed never exceeds the
      run count (skipped runs count as executions). */
  lemma FlakyBounds(results: seq<TestResult>, minExecutions: int)
    ensures forall t :: t in FlakyTests(results, minExecutions) ==>
      && t.passedCount + t.failedCount <= t.totalExecutions
      && t.totalExecutions >= minExecutions
      && 0.0 < t.flakyScore <= 50.0
  {
    forall t | t in FlakyTests(results, minExecutions)
      ensures t.passedCount + t.failedCount <= t.totalExecutions
      ensures t.totalExecutions >= minExecutions
      ensures 0.0 < t.flakyScore <= 50.0
    {
      FlakySpec(results, minExecutions, t);
      var runs := Runs(results, t.testName);
      CountIfDisjoint3(runs, (x: Status) => x == Passed, (x: Status) => x == Failed, (x: Status) => x == Skipped);
      ScoreBounds(t.passedCount, t.failedCount, t.totalExecutions);
    }
  }

  /** Highest score first; equal scores keep `test_stats` order. */
  lemma FlakyOrder(results: seq<TestResult>, minExecutions: int)
    ensures NonIncreasing(FlakyTests(results, minExecutions), Score)
    ensures forall v :: WithKey(FlakyTests(results, minExecutions), Score, v)
                     == WithKey(Candidates(GroupBy(NameStatus(results)), minExecutions), Score, v)
  {
    SortDescSpec(Candidates(GroupBy(NameStatus(results)), minExecutions), Score);
  }

  /** Four passes and two failures in six runs score 2/6 of 100. */
  lemma FourPassTwoFail()
    ensures Assess(Group(Some("t"), [Passed, Failed, Passed, Passed, Failed, Passed]), DefaultMinExecutions)
         == Some(FlakyTest(Some("t"), 6, 4, 2, 100.0 / 3.0))
  {
    var ss := [Passed, Failed, Passed, Passed, Failed, Passed];
    var p := (x: Status) => x == Passed;
    var f := (x: Status) => x == Failed;
    assert ss[..5] == [Passed, Failed, Passed, Passed, Failed];
    assert ss[..4] == ss[..5][..4] == [Passed, Failed, Passed, Passed];
    assert ss[..3] == ss[..4][..3] == [Passed, Failed, Passed];
    assert ss[..2] == ss[..3][..2] == [Passed, Failed];
    assert ss[..1] == ss[..2][..1] == [Passed];
    assert ss[..1][..0] == [];
    assert CountIf(ss[..1], p) == 1 && CountIf(ss[..1], f) == 0;
    assert CountIf(ss[..2], p) == 1 && CountIf(ss[..2], f) == 1;
    assert CountIf(ss[..3], p) == 2 && CountIf(ss[..3], f) == 1;
    assert CountIf(ss[..4], p) == 3 && CountIf(ss[..4], f) == 1;
    assert CountIf(ss[..5], p) == 3 && CountIf(ss[..5], f) == 2;
    assert CountIf(ss, p) == 4 && CountIf(ss, f) == 2;
  }

  /** The grouping loop of `identify_flaky_tests`: `test_stats`, each test
      name with its statuses in list order. */
  method GroupStatuses(results: seq<TestResult>) returns (stats: seq<Group<Option<string>, Status>>)
    ensures stats == GroupBy(NameStatus(results))
  {
    var items := NameStatus(results);
    stats := [];
    for i := 0 to |results|
      invariant stats == GroupBy(items[..i])
    {
      GroupByStep(items[..i], results[i].testName, results[i].status);
      assert items[..i + 1] == items[..i] + [(results[i].testName, results[i].status)];
      stats := AddToGroup(stats, results[i].testName, results[i].status);
    }
    assert items[..|results|] == items;
  }

  /** The scoring loop of `identify_flaky_tests`: the flaky entries of
      `test_stats`, in its order. */
  method FlakyCandidates(stats: seq<Group<Option<string>, Status>>, minExecutions: int) returns (candidates: seq<FlakyTest>)
    ensures candidates == Candidates(stats, minExecutions)
  {
    candidates := [];
    for j := 0 to |stats|
      invariant candidates == Candidates(stats[..j], minExecutions)
    {
      assert stats[..j + 1][..j] == stats[..j];
      var statuses := stats[j].members;
      if |statuses| >= minExecutions {
        var passed := CountStatus(statuses, Passed);
        var failed := CountStatus(statuses, Failed);
        if passed > 0 && failed > 0 {
          candidates := candidates + [FlakyTest(stats[j].key, |statuses|, passed, failed,
                                                FlakyScore(passed, failed, |statuses|))];
        }
      }
    }
    assert stats[..|stats|] == stats;
  }

  /** `identify_flaky_tests(days, min_executions)`. */
  method IdentifyFlakyTests(store: TestDataManager, cutoff: int, minExecutions: int) returns (flaky: seq<FlakyTest>)
    ensures flaky == FlakyTests(NewestFirst(store.rows, cutoff), minExecutions)
  {
    var results := store.GetRecentResults(cutoff);
    var stats := GroupStatuses(results);
    var candidates := FlakyCandidates(stats, minExecutions);
    flaky := SortDesc(candidates, Score);
  }
}
