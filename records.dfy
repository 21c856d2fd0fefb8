/** The records of the test-reporting engine: one executed test case
    (`TestResult`) and one suite summary (`TestSuiteResult`). */
module Records {
  import opened Wrappers

  /** The three outcomes the parser ever assigns to a case. */
  datatype Status = Passed | Failed | Skipped

  /** One executed test. Timestamps are whole seconds on the local clock. */
  datatype TestResult = TestResult(
    testName: Option<string>,
    testSuite: string,
    status: Status,
    duration: real,
    timestamp: int,
    errorMessage: Option<string>,
    errorType: Option<string>,
    testFile: Option<string>,
    environment: Option<string>,
    component: Option<string>)

  /** Aggregate over one suite execution. */
  datatype TestSuiteResult = TestSuiteResult(
    suiteName: string,
    totalTests: int,
    passedTests: int,
    failedTests: int,
    skippedTests: int,
    duration: real,
    successRate: real,
    timestamp: int,
    environment: string)

  const SecondsPerDay: int := 86400

  /** Calendar day of a timestamp (`timestamp.date()`), as a day number. */
  function Day(ts: int): int
  {
    ts / SecondsPerDay
  }

  /** `passed / total * 100 if total > 0 else 0` */
  function SuccessRate(passed: int, total: int): real
  {
    if total > 0 then passed as real / total as real * 100.0 else 0.0
  }

  /** The rate is a percentage, zero for an empty total, and 100 exactly
      when everything passed. */
  lemma RateBounds(passed: nat, total: nat)
    requires passed <= total
    ensures 0.0 <= SuccessRate(passed, total) <= 100.0
    ensures total == 0 ==> SuccessRate(passed, total) == 0.0
    ensures SuccessRate(passed, total) == 100.0 <==> total > 0 && passed == total
  {
    if total > 0 {
      assert passed as real / total as real <= 1.0;
      if passed < total {
        assert passed as real / total as real < 1.0;
      }
    }
  }

  /** `sum / count if count > 0 else 0` */
  function Average(sum: real, count: int): real
  {
    if count > 0 then sum / count as real else 0.0
  }

  predicate IsPassed(r: TestResult) { r.status == Passed }
  predicate IsFailed(r: TestResult) { r.status == Failed }
  predicate IsSkipped(r: TestResult) { r.status == Skipped }

  /** Records strictly newer than the cutoff: `WHERE timestamp > cutoff`. */
  function Since(rows: seq<TestResult>, cutoff: int): (r: seq<TestResult>)
    ensures forall x :: x in r <==> x in rows && x.timestamp > cutoff
    ensures |r| <= |rows|
  {
    if rows == [] then []
    else
      Since(rows[..|rows| - 1], cutoff)
      + (if rows[|rows| - 1].timestamp > cutoff then [rows[|rows| - 1]] else [])
  }

  function TimestampKey(r: TestResult): real
  {
    r.timestamp as real
  }

  function SumDurations(rs: seq<TestResult>): real
  {
    if rs == [] then 0.0 else SumDurations(rs[..|rs| - 1]) + rs[|rs| - 1].duration
  }
}
