/** `TestAnalytics.analyze_failure_patterns` and `_get_top_failing_tests`:
    breakdowns of the window's FAILED records by error kind, by component,
    and by test. */
module Failures {
  import opened Wrappers
  import opened Collections
  import opened Text
  import opened Records
  import opened Store

  /** One entry of the top-failing list. */
  datatype FailingTest = FailingTest(testName: Option<string>, failureCount: nat, latestError: string)

  datatype FailurePatterns = FailurePatterns(
    totalFailures: nat,
    errorTypeDistribution: seq<(string, nat)>,
    componentFailureDistribution: seq<(string, nat)>,
    topFailingTests: seq<FailingTest>)

  /** `_get_top_failing_tests`'s default `limit`. */
  const TopLimit: nat := 10

  /** `error_type or 'Unknown'`, `component or 'Unknown'`: an absent or empty label is 'Unknown'. */
  function Label(x: Option<string>): string
  {
    OrElse(x, "Unknown")
  }

  function Failures(results: seq<TestResult>): seq<TestResult>
  {
    Filter(results, IsFailed)
  }

  function ErrorLabel(r: TestResult): string { Label(r.errorType) }
  function ComponentLabel(r: TestResult): string { Label(r.component) }
  function TestName(r: TestResult): Option<string> { r.testName }

  /** Each record paired with its dict key. */
  function KeyedBy<K>(rs: seq<TestResult>, key: TestResult -> K): (items: seq<(K, TestResult)>)
    ensures |items| == |rs| && forall i :: 0 <= i < |rs| ==> items[i] == (key(rs[i]), rs[i])
  {
    seq(|rs|, i requires 0 <= i < |rs| => (key(rs[i]), rs[i]))
  }

  /** The records whose key is `k`, in list order. */
  function WithLabel<K(==)>(rs: seq<TestResult>, key: TestResult -> K, k: K): seq<TestResult>
  {
    if rs == [] then []
    else WithLabel(rs[..|rs| - 1], key, k) + (if key(rs[|rs| - 1]) == k then [rs[|rs| - 1]] else [])
  }

  lemma {:induction false} MembersKeyed<K>(rs: seq<TestResult>, key: TestResult -> K, k: K)
    ensures MembersOf(KeyedBy(rs, key), k) == WithLabel(rs, key, k)
  {
    if rs != [] {
      MembersKeyed(rs[..|rs| - 1], key, k);
      assert KeyedBy(rs, key)[..|rs| - 1] == KeyedBy(rs[..|rs| - 1], key);
    }
  }

  /** The message the loop leaves behind: that of the last record it saw, or "". */
  function LatestError(rs: seq<TestResult>): string
  {
    if rs == [] then "" else OrElse(rs[|rs| - 1].errorMessage, "")
  }

  /** The `test_failures` dict read as entries. */
  function Entries(gs: seq<Group<Option<string>, TestResult>>): (es: seq<FailingTest>)
    ensures |es| == |gs|
    ensures forall i :: 0 <= i < |gs| ==>
              es[i] == FailingTest(gs[i].key, |gs[i].members|, LatestError(gs[i].members))
  {
    seq(|gs|, i requires 0 <= i < |gs| => FailingTest(gs[i].key, |gs[i].members|, LatestError(gs[i].members)))
  }

  /** One turn of the `test_failures` loop: bump the count, overwrite the message. */
  function RecordFailure(es: seq<FailingTest>, name: Option<string>, message: string): seq<FailingTest>
  {
    if es == [] then [FailingTest(name, 1, message)]
    else if es[0].testName == name then [FailingTest(name, es[0].failureCount + 1, message)] + es[1..]
    else [es[0]] + RecordFailure(es[1..], name, message)
  }

  lemma {:induction false} RecordFailureStep(gs: seq<Group<Option<string>, TestResult>>, r: TestResult)
    ensures Entries(AddToGroup(gs, r.testName, r)) == RecordFailure(Entries(gs), r.testName, OrElse(r.errorMessage, ""))
  {
    if gs != [] && gs[0].key != r.testName {
      RecordFailureStep(gs[1..], r);
      assert Entries(gs)[1..] == Entries(gs[1..]);
    } else if gs != [] {
      assert Entries(gs)[1..] == Entries(gs[1..]);
    }
  }

  function FailureCount(e: FailingTest): real
  {
    e.failureCount as real
  }

  /** The answer of `_get_top_failing_tests(failed_results, limit)`. */
  function TopFailing(failed: seq<TestResult>, limit: nat): seq<FailingTest>
  {
    Take(SortDesc(Entries(GroupBy(KeyedBy(failed, TestName))), FailureCount), limit)
  }

  /** The answer of `analyze_failure_patterns` for the window's records. */
  function PatternsOf(results: seq<TestResult>): FailurePatterns
  {
    var failed := Failures(results);
    FailurePatterns(|failed|,
                    Counts(GroupBy(KeyedBy(failed, ErrorLabel))),
                    Counts(GroupBy(KeyedBy(failed, ComponentLabel))),
                    TopFailing(failed, TopLimit))
  }

  /** Each key of a grouping holds exactly the records carrying it. */
  lemma GroupsKeyed<K>(rs: seq<TestResult>, key: TestResult -> K)
    ensures var gs := GroupBy(KeyedBy(rs, key));
      forall i :: 0 <= i < |gs| ==> gs[i].members == WithLabel(rs, key, gs[i].key)
  {
    var items := KeyedBy(rs, key);
    var gs := GroupBy(items);
    forall i | 0 <= i < |gs| ensures gs[i].members == WithLabel(rs, key, gs[i].key) {
      MembersKeyed(rs, key, gs[i].key);
    }
  }

  /** A grouping's keys are distinct and cover every record's key. */
  lemma GroupKeysCover<K>(rs: seq<TestResult>, key: TestResult -> K)
    ensures var gs := GroupBy(KeyedBy(rs, key));
      && (forall i, j :: 0 <= i < j < |gs| ==> gs[i].key != gs[j].key)
      && (forall r :: r in rs ==> exists i :: 0 <= i < |gs| && gs[i].key == key(r))
  {
    var items := KeyedBy(rs, key);
    var gs := GroupBy(items);
    GroupBySpec(items);
    forall i, j | 0 <= i < j < |gs| ensures gs[i].key != gs[j].key {
      var ks := seq(|gs|, k requires 0 <= k < |gs| => gs[k].key);
      assert ks[i] == gs[i].key && ks[j] == gs[j].key;
    }
    forall r | r in rs ensures exists i :: 0 <= i < |gs| && gs[i].key == key(r) {
      var k :| 0 <= k < |rs| && rs[k] == r;
      assert KeysOf(items)[k] == key(r);
      assert key(r) in KeysOf(items);
    }
  }

  /** A breakdown by `key` lists every key present exactly once, with the
      number of records carrying it, and adds up to the number of records. */
  lemma CountsSpec<K>(rs: seq<TestResult>, key: TestResult -> K)
    ensures var cs := Counts(GroupBy(KeyedBy(rs, key)));
      && CountTotal(cs) == |rs|
      && (forall i :: 0 <= i < |cs| ==> cs[i].1 == |WithLabel(rs, key, cs[i].0)|)
      && (forall i, j :: 0 <= i < j < |cs| ==> cs[i].0 != cs[j].0)
      && (forall r :: r in rs ==> exists i :: 0 <= i < |cs| && cs[i].0 == key(r))
  {
    var gs := GroupBy(KeyedBy(rs, key));
    GroupBySize(KeyedBy(rs, key));
    CountTotalSize(gs);
    GroupsKeyed(rs, key);
    GroupKeysCover(rs, key);
  }

  /** The failure total counts the FAILED records; both breakdowns add up to it. */
  lemma DistributionSpec(results: seq<TestResult>)
    ensures var p := PatternsOf(results);
      && p.totalFailures == CountIf(results, IsFailed)
      && p.errorTypeDistribution == Counts(GroupBy(KeyedBy(Failures(results), ErrorLabel)))
      && p.componentFailureDistribution == Counts(GroupBy(KeyedBy(Failures(results), ComponentLabel)))
      && CountTotal(p.errorTypeDistribution) == p.totalFailures
      && CountTotal(p.componentFailureDistribution) == p.totalFailures
  {
    CountsSpec(Failures(results), ErrorLabel);
    CountsSpec(Failures(results), ComponentLabel);
  }

  lemma TopFailingShape(failed: seq<TestResult>, limit: nat)
    ensures |TopFailing(failed, limit)| <= limit
    ensures NonIncreasing(TopFailing(failed, limit), FailureCount)
  {
    SortDescSpec(Entries(GroupBy(KeyedBy(failed, TestName))), FailureCount);
  }

  /** Each group's entry counts exactly the failures of its test, which
      number at least one, and carries the message of the last of them. */
  lemma GroupEntry(failed: seq<TestResult>, i: nat)
    requires i < |GroupBy(KeyedBy(failed, TestName))|
    ensures var e := Entries(GroupBy(KeyedBy(failed, TestName)))[i];
      && (exists r :: r in failed && r.testName == e.testName)
      && e.failureCount == |WithLabel(failed, TestName, e.testName)| > 0
      && e.latestError == LatestError(WithLabel(failed, TestName, e.testName))
  {
    var items := KeyedBy(failed, TestName);
    var gs := GroupBy(items);
    GroupBySpec(items);
    MembersKeyed(failed, TestName, gs[i].key);
    assert exists j :: 0 <= j < |GroupBy(items)| && GroupBy(items)[j].key == gs[i].key;
    assert gs[i].key in KeysOf(items);
    var k :| 0 <= k < |items| && KeysOf(items)[k] == gs[i].key;
    assert failed[k] in failed;
    MembersOfHas(items, k);
  }

  /** Each listed entry counts exactly the failures of its test and carries
      the message of the last of them in list order (or ""). */
  lemma TopFailingEntries(failed: seq<TestResult>, limit: nat, e: FailingTest)
    requires e in TopFailing(failed, limit)
    ensures exists r :: r in failed && r.testName == e.testName
    ensures e.failureCount == |WithLabel(failed, TestName, e.testName)| > 0
    ensures e.latestError == LatestError(WithLabel(failed, TestName, e.testName))
  {
    var es := Entries(GroupBy(KeyedBy(failed, TestName)));
    SortDescSpec(es, FailureCount);
    assert e in SortDesc(es, FailureCount);
    var i :| 0 <= i < |es| && es[i] == e;
    GroupEntry(failed, i);
  }

  /** No test left out of the list fails more often than one kept. */
  lemma TopFailingMost(failed: seq<TestResult>, limit: nat, e: FailingTest, x: FailingTest)
    requires e in Entries(GroupBy(KeyedBy(failed, TestName)))
    requires e !in TopFailing(failed, limit) && x in TopFailing(failed, limit)
    ensures x.failureCount >= e.failureCount
  {
    var sorted := SortDesc(Entries(GroupBy(KeyedBy(failed, TestName))), FailureCount);
    var top := TopFailing(failed, limit);
    SortDescSpec(Entries(GroupBy(KeyedBy(failed, TestName))), FailureCount);
    var a :| 0 <= a < |top| && top[a] == x;
    var b :| 0 <= b < |sorted| && sorted[b] == e;
    assert FailureCount(sorted[a]) >= FailureCount(sorted[b]);
  }

  /** `_get_top_failing_tests(failed_results, limit)`. */
  method GetTopFailingTests(failed: seq<TestResult>, limit: nat) returns (top: seq<FailingTest>)
    ensures top == TopFailing(failed, limit)
  {
    var items := KeyedBy(failed, TestName);
    var entries: seq<FailingTest> := [];
    for i := 0 to |failed|
      invariant entries == Entries(GroupBy(items[..i]))
    {
      var r := failed[i];
      GroupByStep(items[..i], r.testName, r);
      assert items[..i + 1] == items[..i] + [(r.testName, r)];
      RecordFailureStep(GroupBy(items[..i]), r);
      entries := RecordFailure(entries, r.testName, OrElse(r.errorMessage, ""));
    }
    assert items[..|failed|] == items;
    var sorted := SortDesc(entries, FailureCount);
    top := Take(sorted, limit);
  }

  /** The `error_types` loop of `analyze_failure_patterns`, read out as
      `{k: len(v) for k, v in error_types.items()}`. */
  method ErrorTypeDistribution(failed: seq<TestResult>) returns (errorTypes: seq<(string, nat)>)
    ensures errorTypes == Counts(GroupBy(KeyedBy(failed, ErrorLabel)))
  {
    var et := KeyedBy(failed, ErrorLabel);
    var groups: seq<Group<string, TestResult>> := [];
    for i := 0 to |failed|
      invariant groups == GroupBy(et[..i])
    {
      GroupByStep(et[..i], Label(failed[i].errorType), failed[i]);
      assert et[..i + 1] == et[..i] + [(Label(failed[i].errorType), failed[i])];
      groups := AddToGroup(groups, Label(failed[i].errorType), failed[i]);
    }
    assert et[..|failed|] == et;
    errorTypes := Counts(groups);
  }

  /** The `component_failures` counting loop of `analyze_failure_patterns`. */
  method ComponentDistribution(failed: seq<TestResult>) returns (components: seq<(string, nat)>)
    ensures components == Counts(GroupBy(KeyedBy(failed, ComponentLabel)))
  {
    var co := KeyedBy(failed, ComponentLabel);
    components := [];
    for i := 0 to |failed|
      invariant components == Counts(GroupBy(co[..i]))
    {
      GroupByStep(co[..i], Label(failed[i].component), failed[i]);
      CountsStep(GroupBy(co[..i]), Label(failed[i].component), failed[i]);
      assert co[..i + 1] == co[..i] + [(Label(failed[i].component), failed[i])];
      components := Bump(components, Label(failed[i].component));
    }
    assert co[..|failed|] == co;
  }

  /** The list comprehension of `analyze_failure_patterns`: the FAILED records, in order. */
  method FailedResults(results: seq<TestResult>) returns (failed: seq<TestResult>)
    ensures failed == Failures(results)
  {
    failed := [];
    for i := 0 to |results|
      invariant failed == Filter(results[..i], IsFailed)
    {
      assert results[..i + 1][..i] == results[..i];
      if results[i].status == Failed {
        failed := failed + [results[i]];
      }
    }
    assert results[..|results|] == results;
  }

  /** `analyze_failure_patterns(days)`. */
  method AnalyzeFailurePatterns(store: TestDataManager, cutoff: int) returns (p: FailurePatterns)
    ensures p == PatternsOf(NewestFirst(store.rows, cutoff))
  {
    var results := store.GetRecentResults(cutoff);
    var failed := FailedResults(results);
    var errorTypes := ErrorTypeDistribution(failed);
    var components := ComponentDistribution(failed);
    var top := GetTopFailingTests(failed, TopLimit);
    p := FailurePatterns(|failed|, errorTypes, components, top);
  }
}
