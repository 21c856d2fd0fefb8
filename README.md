# Test-framework reporting, deployment health check and RBAC verification

This project models the decision logic of three scripts from a Confluent
Cloud test framework.

- **Test reporting** (`scripts/test-reporting.py`). JUnit XML documents are
  turned into test-case records (`TestResult`) and suite summaries
  (`TestSuiteResult`). The case records go into an append-only store
  (`TestDataManager`). Queries over a time window feed four analyses
  (`TestAnalytics`):
  - a day-by-day trend with least-squares slopes;
  - flaky-test detection;
  - failure-pattern breakdowns;
  - a top-failing list.

  `ReportGenerator` then builds a summary block, a trend narration and an
  embedded tail of raw records.
- **Deployment health check** (`deployment-health-check.py`). Eight checks
  each give PASS, FAIL, WARN or SKIP. Three of them are critical:
  connectivity, security configuration and end-to-end flow. The checks roll
  up into an overall HEALTHY, WARNING or CRITICAL status. An exception raised
  by a check aborts the run with an extra failed critical check. `main` turns
  the overall status into an exit code of 2, 1 or 0.
- **RBAC verification** (`test-rbac-permissions.py`). Each service account
  runs a fixed set of operations for its role: admin, operator or consumer.
  Each attempt is recorded as expected or unexpected success. Non-admin
  accounts are also put through three "escalation" attempts labelled as
  admin-only operations.
  The results are summarised, mismatches are classified as HIGH or MEDIUM
  findings, and canned recommendations are chosen.

Module layout:

| file | contents |
|---|---|
| `wrappers.dfy`, `text.dfy` | `Option`/`Result`; string prefix and substring tests, Python truthiness |
| `collections.dfy` | counting and filtering; grouping in first-seen key order (a Python `dict`); a stable descending sort (Python's `sorted(..., reverse=True)`); slicing |
| `records.dfy` | `TestResult`, `TestSuiteResult`, the guarded success rate and average, the window filter |
| `junit.dfy` | `parse_junit_file` over an already-parsed element tree |
| `store.dfy` | `TestDataManager` as a class whose table is a sequence field |
| `regression.dfy` | `_calculate_linear_trend` |
| `trend.dfy`, `flaky.dfy`, `failures.dfy` | the three `TestAnalytics` queries, each a loop method proved against a reference function |
| `report.dfy` | the HTML and JSON report contents |
| `health_check.dfy` | the eight check rules, `run_health_checks` and `main`'s counts and exit code |
| `rbac.dfy` | `_test_operation`, the role test sets, the escalation probe, the report, findings and recommendations |

Clock readings, environment variables and the replies of Kafka or the
Confluent API are parameters. The cluster is a function from (account,
probe) to a returned value or a raised error, where a probe is the Kafka call
a test actually makes (list topics, describe the cluster, create or delete a
named topic, subscribe, produce). Timestamps
are whole seconds; a calendar day is `timestamp / 86400`.

## Model

| member | source | states |
|---|---|---|
| `Records.RateBounds` | scripts/test-reporting.py:226 | a success rate with `passed <= total` lies in [0, 100]; it is 0 for an empty total and 100 exactly when total > 0 and every test passed |
| `Records.Since` | scripts/test-reporting.py:172-177 | a record is in the window iff it is stored and its timestamp is strictly after the cutoff; the window is never larger than the table |
| `JUnit.SuiteTimestamp` | scripts/test-reporting.py:211-217 | a non-empty `timestamp` attribute that parses gives the suite time; otherwise the suite time is the processing time |
| `JUnit.ParseSuite` | scripts/test-reporting.py:210-239 | a suite fails to parse iff a count or `time` attribute is not a number; on success the name defaults to "Unknown Suite", the duration is the `time` attribute (0 when absent), failed = failures + errors, passed + failed + skipped == total, rate × total == passed × 100 (0 when total ≤ 0) |
| `JUnit.FindTag` | scripts/test-reporting.py:248-250 | finds a child with the tag iff one exists, and what it returns is the first such child |
| `JUnit.CaseVerdict` | scripts/test-reporting.py:248-267 | FAILED iff a failure or error marker is present; PASSED iff there are no markers, and then there is no message or type; a `failure` child wins over `error`, which wins over `skipped`; the message and type come from the first child of the winning kind, the type defaulting to "Failure" or "Error", and a skip has type "Skipped" |
| `JUnit.ParseCase` | scripts/test-reporting.py:242-280 | a case fails iff its `time` is not a number; the record has the case's name, the suite's name and timestamp, classname defaulting to the suite name, the duration from `time` (0 when absent), and the case verdict |
| `JUnit.SuiteElements` | scripts/test-reporting.py:203-205 | with nested `testsuite` elements, exactly those, each as often as it occurs, in document order (a subsequence of the descendants as long as their count of `testsuite` elements); otherwise a `testsuite` root alone, or nothing; no suites iff the root is not a `testsuite` and holds none |
| `JUnit.SingleSuiteRoot` | scripts/test-reporting.py:203-205 | a `testsuite` root with no nested suites is read as exactly itself |
| `JUnit.ParseCasesShape` | scripts/test-reporting.py:242-280 | a suite's cases parse iff every duration is readable; then there is one record per `testcase`, in order |
| `JUnit.ParseSuitesOk` | scripts/test-reporting.py:209-245 | a document parses iff all suite counts and all case durations are numbers; a bad timestamp never fails it |
| `JUnit.ParseSuitesShape` | scripts/test-reporting.py:207-282 | a parsed document has one summary per suite element and one record per `testcase`, in document order, each built from its own element and suite |
| `JUnit.ParseSuiteCases` | scripts/test-reporting.py:242-280 | the per-suite case loop yields the reference parse of the suite's cases, or the first attribute error |
| `JUnit.ParseJUnitFile` | scripts/test-reporting.py:195-282 | the nested parsing loop yields exactly the reference parse, including aborting on the first non-numeric attribute |
| `Store.TestDataManager.constructor` | scripts/test-reporting.py:83-146 | a fresh database holds no records |
| `Store.TestDataManager.StoreTestResult` | scripts/test-reporting.py:148-165 | the insert succeeds iff the case has a name (`test_name` is NOT NULL); on success the table grows by exactly that record, otherwise it is unchanged |
| `Store.TestDataManager.GetRecentResults` | scripts/test-reporting.py:167-189 | returns exactly the stored records after the cutoff, with multiplicity, newest first |
| `Store.QuerySpec` | scripts/test-reporting.py:172-177 | the window answer is a permutation of the filtered table and is ordered newest first |
| `Store.SinceAppend` | scripts/test-reporting.py:148-177 | storing one record extends the window by it exactly when it is newer than the cutoff |
| `Store.RoundTrip` | scripts/test-reporting.py:167-189 | a table holding exactly a batch dated after the cutoff answers the window query with the whole batch, as a multiset |
| `Store.NamedPrefix` | scripts/test-reporting.py:689-691 | the length of the leading run of named records: all before it are named, and the one at it is not |
| `Store.StoreAll` | scripts/test-reporting.py:689-691 | the ingestion loop succeeds iff every record is named; it stores the records up to the first nameless one |
| `Store.AllNamedStored` | scripts/test-reporting.py:689-691 | when every record is named, the stored prefix is the whole batch |
| `Store.StoreAndQuery` | scripts/test-reporting.py:148-189 | storing a batch into a fresh database and querying returns the window of the stored prefix, newest first; with every record named and dated after the cutoff, that is the whole batch, as a multiset |
| `Regression.LinearTrend` | scripts/test-reporting.py:397-409 | a series shorter than 2 gives slope 0; otherwise the division fails iff the denominator is 0, and slope × denominator == numerator |
| `Regression.RangeDenominatorPositive` | scripts/test-reporting.py:325 | over x = 0..n-1 with n ≥ 2, 12 × denominator == n²(n²−1) > 0, so the slope is always defined |
| `Regression.DailySlope` | scripts/test-reporting.py:324-327 | the slope over day indices is the least-squares slope `LinearTrend` returns |
| `Regression.TwoDaySlope` | scripts/test-reporting.py:397-409 | over two days the slope is the later value minus the earlier |
| `Regression.ThreeDaySlope` | scripts/test-reporting.py:397-409 | over three days the slope is half the change from the first day to the last |
| `Regression.LineSums` | scripts/test-reporting.py:403-406 | for a straight-line series y = a + k·x over x = 0..n-1, Σy = n·a + k·Σx and Σxy = a·Σx + k·Σx² |
| `Regression.LinearSeriesSlope` | scripts/test-reporting.py:397-409 | a series of two or more days lying on a line y = a + k·day has slope exactly k |
| `Regression.ConstantSeriesSlope` | scripts/test-reporting.py:397-409 | a constant series of two or more days has slope 0 |
| `Trend.Summary` | scripts/test-reporting.py:302-309 | in a tally, passed + failed ≤ total == number of records |
| `Trend.DailyStats` | scripts/test-reporting.py:298-309 | the map has an entry exactly for each day that has a record |
| `Trend.DailyStatsSpec` | scripts/test-reporting.py:298-309 | each day's entry is the tally of exactly that day's records and is non-empty |
| `Trend.SortedDays` | scripts/test-reporting.py:312 | the dates are strictly ascending and are exactly the days present |
| `Trend.MeanBounds` | scripts/test-reporting.py:336 | the mean of daily success rates lies in [0, 100] |
| `Trend.TrendSpec` | scripts/test-reporting.py:290-338 | the no-data answer is given iff the window is empty; otherwise every stored day's entry is that day's tally, and the average rate lies in [0, 100] |
| `Trend.OneDayNoTrend` | scripts/test-reporting.py:324-330 | when all records fall on one day, both trends are 0 |
| `Trend.TwoDayTrend` | scripts/test-reporting.py:316-327 | over two days, the rate trend is the second day's rate minus the first day's |
| `Trend.GroupByDay` | scripts/test-reporting.py:298-309 | the grouping loop builds exactly the reference day map and its first-seen key order |
| `Trend.DailySeries` | scripts/test-reporting.py:316-321 | the per-day loop yields the rate and mean-duration series of the sorted days |
| `Trend.CalculateTrendAnalysis` | scripts/test-reporting.py:290-338 | the method returns the reference analysis of the newest-first window |
| `Flaky.NameStatus` | scripts/test-reporting.py:345-349 | one (name, status) pair per record, in order |
| `Flaky.CandidatesSpec` | scripts/test-reporting.py:351-365 | a test is a candidate iff its group's assessment says flaky |
| `Flaky.FlakySpec` | scripts/test-reporting.py:340-367 | a test is reported iff it appears in the window, ran at least `min_executions` times and both passed and failed; its counts are those of its runs and its score is min(passed, failed)/runs × 100 |
| `Flaky.ScoreBounds` | scripts/test-reporting.py:358 | with at least one pass and one failure, the score lies in (0, 50] |
| `Flaky.FlakyBounds` | scripts/test-reporting.py:353-365 | every reported test has passed + failed ≤ executions, executions ≥ the minimum and score in (0, 50] |
| `Flaky.FlakyOrder` | scripts/test-reporting.py:367 | highest score first, and tests with equal scores keep first-seen order (stable sort) |
| `Flaky.FourPassTwoFail` | scripts/test-reporting.py:352-365 | four passes and two failures in six runs are flagged with score 2/6 × 100 |
| `Flaky.GroupStatuses` | scripts/test-reporting.py:344-349 | the grouping loop collects each test name's statuses in first-seen name order, as the reference grouping does |
| `Flaky.FlakyCandidates` | scripts/test-reporting.py:351-365 | the candidate loop keeps exactly the reference candidates, in group order |
| `Flaky.IdentifyFlakyTests` | scripts/test-reporting.py:340-367 | the method returns the reference flaky list for the window |
| `Failures.KeyedBy` | scripts/test-reporting.py:374-388 | each record paired with its grouping key, in order |
| `Failures.MembersKeyed` | scripts/test-reporting.py:374-380 | a key's group holds exactly the records with that key, in order |
| `Failures.Entries` | scripts/test-reporting.py:413-419 | one top-failing entry per group: the failure count is the group size, and the message comes from the group's last record |
| `Failures.RecordFailureStep` | scripts/test-reporting.py:414-419 | one loop turn: the count is bumped and the latest message overwritten (empty when absent) |
| `Failures.CountsSpec` | scripts/test-reporting.py:374-392 | a breakdown lists every key present exactly once, each with the number of records carrying it, and the counts add up to the number of records |
| `Failures.DistributionSpec` | scripts/test-reporting.py:369-395 | the total counts the FAILED records, and both the error-type and the component breakdowns add up to it |
| `Failures.TopFailingShape` | scripts/test-reporting.py:421-425 | at most `limit` entries, in non-increasing failure count |
| `Failures.TopFailingEntries` | scripts/test-reporting.py:411-425 | each listed test failed; its count is its number of failures, and its message comes from its last failure in list order |
| `Failures.TopFailingMost` | scripts/test-reporting.py:421-424 | no test left off the list fails more often than a listed one |
| `Failures.GetTopFailingTests` | scripts/test-reporting.py:411-425 | the method returns the reference top-failing list |
| `Failures.FailedResults` | scripts/test-reporting.py:371 | the comprehension keeps exactly the FAILED records of the window, in order |
| `Failures.ErrorTypeDistribution` | scripts/test-reporting.py:373-379 | the grouping loop yields the reference error-type counts (absent type read as `Unknown`) |
| `Failures.ComponentDistribution` | scripts/test-reporting.py:381-387 | the counting loop yields the reference component counts (absent component read as `Unknown`) |
| `Failures.AnalyzeFailurePatterns` | scripts/test-reporting.py:369-395 | the method returns the reference failure patterns of the window |
| `Report.StatusesPartition` | scripts/test-reporting.py:644-647 | passed + failed + skipped == total |
| `Report.SummarySpec` | scripts/test-reporting.py:643-651 | counts partition the window; the rate is in [0, 100]; an empty window gives rate, mean and total 0; mean × count == total duration |
| `Report.NarrateRate` | scripts/test-reporting.py:552-559 | Improving iff slope > 0, Declining iff slope < 0, Stable iff slope == 0; the shown figure is the slope |
| `Report.NarrateDuration` | scripts/test-reporting.py:560-568 | Faster iff slope < 0 (showing −slope > 0), Slower iff slope > 0, Stable iff slope == 0 |
| `Report.HtmlReportSpec` | scripts/test-reporting.py:434-605 | a page exists iff the window is non-empty; the flaky table shows at most ten tests, the top of the flaky list, while the count covers all; the rate narration follows the trend's sign |
| `Report.RawTail` | scripts/test-reporting.py:657 | the embedded records are the last min(100, n) of the list |
| `Report.RawTailOldest` | scripts/test-reporting.py:657 | on a newest-first list no record left out is older than an embedded one |
| `Report.GenerateJsonReport` | scripts/test-reporting.py:629-662 | every block of the document is computed over the same window |
| `Report.GenerateHtmlReport` | scripts/test-reporting.py:434-605 | the method yields the reference page, or none on an empty window |
| `HealthCheck.ConnectivityCheck` | terraform/modules/production-deployment/scripts/deployment-health-check.py:125-150 | critical; PASS iff the topic listing succeeded, otherwise FAIL |
| `HealthCheck.EnvironmentTopics` | terraform/modules/production-deployment/scripts/deployment-health-check.py:161 | exactly the listed topics that start with the environment name |
| `HealthCheck.TopicsCheck` | terraform/modules/production-deployment/scripts/deployment-health-check.py:152-194 | non-critical; PASS iff the listing succeeded with at least the expected count, otherwise FAIL |
| `HealthCheck.ConnectorsCheck` | terraform/modules/production-deployment/scripts/deployment-health-check.py:196-247 | PASS iff the listing is usable, the status replies of its first three connectors can be read, and it has at least the expected count; WARN iff the same with fewer; FAIL iff the listing is an error or empty, or one of those status replies makes the check raise |
| `HealthCheck.ConnectorsSampleOnly` | terraform/modules/production-deployment/scripts/deployment-health-check.py:209-212 | only the first three connectors' status replies matter |
| `HealthCheck.SchemaRegistryCheck` | terraform/modules/production-deployment/scripts/deployment-health-check.py:249-292 | SKIP iff no registry URL is configured; PASS iff it answered 200 with a JSON array or string (the only bodies both `len` and `[:5]` accept); otherwise FAIL |
| `HealthCheck.MonitoringTopics` | terraform/modules/production-deployment/scripts/deployment-health-check.py:301 | exactly the listed topics that are monitoring topics |
| `HealthCheck.MonitoringCheck` | terraform/modules/production-deployment/scripts/deployment-health-check.py:294-336 | FAIL iff listing topics raised; PASS iff there are monitoring topics, and the Sumo Logic endpoint is unset or answered 200; otherwise WARN |
| `HealthCheck.AdminConfigFor` | terraform/modules/production-deployment/scripts/deployment-health-check.py:36-42 | the admin client config carries the API key and secret as SASL credentials |
| `HealthCheck.SecurityTopics` | terraform/modules/production-deployment/scripts/deployment-health-check.py:345 | exactly the listed topics whose names mark them as security topics |
| `HealthCheck.SecurityCheck` | terraform/modules/production-deployment/scripts/deployment-health-check.py:338-374 | critical; PASS iff the client uses SASL_SSL, credentials are set and the listing succeeded; otherwise FAIL |
| `HealthCheck.SecurityWithShippedConfig` | terraform/modules/production-deployment/scripts/deployment-health-check.py:36-42 | with the config the checker builds, TLS always holds, so the security check passes iff the listing succeeded and both the API key and secret are non-empty |
| `HealthCheck.LatencyThreshold` | terraform/modules/production-deployment/scripts/deployment-health-check.py:387 | 5000 ms in "prod", 10000 ms elsewhere |
| `HealthCheck.PerformanceCheck` | terraform/modules/production-deployment/scripts/deployment-health-check.py:376-410 | PASS iff the latency is below the environment threshold; WARN iff it is at or above it; FAIL iff the probe raised |
| `HealthCheck.EndToEndCheck` | terraform/modules/production-deployment/scripts/deployment-health-check.py:412-492 | critical; PASS iff the produced message was consumed back; otherwise FAIL |
| `HealthCheck.OverallSpec` | terraform/modules/production-deployment/scripts/deployment-health-check.py:99-107 | CRITICAL iff some critical check did not pass; WARNING iff some check did not pass and none of those is critical; HEALTHY iff all passed; never UNKNOWN |
| `HealthCheck.SkipNotHealthy` | terraform/modules/production-deployment/scripts/deployment-health-check.py:99-107 | a skipped check prevents HEALTHY |
| `HealthCheck.FirstRaise` | terraform/modules/production-deployment/scripts/deployment-health-check.py:58-97 | the checks before it completed, and the one at it raised |
| `HealthCheck.Outcomes` | terraform/modules/production-deployment/scripts/deployment-health-check.py:58-97 | one check per completed step, in order |
| `HealthCheck.HealthRunSpec` | terraform/modules/production-deployment/scripts/deployment-health-check.py:51-123 | the status is the roll-up of the recorded checks, never UNKNOWN; a run without a raise records every check; a raise records the checks before it plus a failed critical `health_check_execution` and makes the status CRITICAL |
| `HealthCheck.RunHealthChecks` | terraform/modules/production-deployment/scripts/deployment-health-check.py:51-123 | the loop yields exactly the reference summary |
| `HealthCheck.StandardChecks` | terraform/modules/production-deployment/scripts/deployment-health-check.py:58-97 | eight checks, and exactly connectivity, security and end-to-end are critical |
| `HealthCheck.AllCompleted` | terraform/modules/production-deployment/scripts/deployment-health-check.py:58-97 | each check wrapped as a completed step, in order |
| `HealthCheck.CompletedRun` | terraform/modules/production-deployment/scripts/deployment-health-check.py:51-123 | a run with no raise records exactly its checks |
| `HealthCheck.CriticalOfEight` | terraform/modules/production-deployment/scripts/deployment-health-check.py:99-107 | with that criticality layout, CRITICAL iff check 0, 5 or 7 did not pass |
| `HealthCheck.StandardRunSpec` | terraform/modules/production-deployment/scripts/deployment-health-check.py:51-123 | a full run reports CRITICAL iff the cluster could not be listed, the security check failed or the end-to-end message was not received |
| `HealthCheck.NoConnectorsFails` | terraform/modules/production-deployment/scripts/deployment-health-check.py:204 | an empty connector list is unusable: FAIL even when none are expected |
| `HealthCheck.CountChecks` | terraform/modules/production-deployment/scripts/deployment-health-check.py:556-558 | passed + failed + warnings ≤ total |
| `HealthCheck.CountPartition` | terraform/modules/production-deployment/scripts/deployment-health-check.py:556-558 | pass, fail, warn and skip counts add up to the number of checks |
| `HealthCheck.ExitCode` | terraform/modules/production-deployment/scripts/deployment-health-check.py:573-578 | exit 2 iff CRITICAL, 1 iff WARNING, 0 otherwise |
| `HealthCheck.ExitCodeSpec` | terraform/modules/production-deployment/scripts/deployment-health-check.py:51-123 | exit 0 iff every check ran and passed; exit 2 iff a check raised or a critical check did not pass |
| `Rbac.TestOperation` | terraform/modules/enterprise-security/scripts/test-rbac-permissions.py:226-260 | the attempt counts as a success iff the operation returned a value that `is not None and != False` (so 0 fails but an empty string succeeds); the test passes iff actual == expected; a raise records its message and counts as a failure |
| `Rbac.AdminDeleteNeverRuns` | terraform/modules/enterprise-security/scripts/test-rbac-permissions.py:70-119 | as written, the admin set has three records and never contains `delete_topic` |
| `Rbac.AdminTests` | terraform/modules/enterprise-security/scripts/test-rbac-permissions.py:70-119 | corrected: list, create, then delete of the same `{environment}-rbac-test-{time}` topic iff the create succeeded, then describe, all expected to succeed; 4 records, else 3 |
| `Rbac.AdminDeleteDiscrepancy` | terraform/modules/enterprise-security/scripts/test-rbac-permissions.py:103 | on a cluster that allows everything, the written and the intended admin sets differ (3 vs 4 records) |
| `Rbac.RunPlan` | terraform/modules/enterprise-security/scripts/test-rbac-permissions.py:226-260 | one record per planned test, in order, each the judged outcome of its own probe under its own label and expectation |
| `Rbac.OperatorTests` | terraform/modules/enterprise-security/scripts/test-rbac-permissions.py:121-173 | four records in order: `list_topics` (expected allowed), `create_connector_topic` on `{environment}-connector-rbac-test-{time}` (allowed), `create_non_connector_topic` on `{environment}-other-topic-{time}` (denied), `describe_cluster` (denied) |
| `Rbac.ConsumerTests` | terraform/modules/enterprise-security/scripts/test-rbac-permissions.py:175-224 | three records in order: `subscribe_allowed_topic` to `{environment}-monitoring-logs` (expected allowed), `subscribe_restricted_topic` to `{environment}-admin-logs` (denied), `produce_message` to the monitoring topic (denied) |
| `Rbac.RoleTests` | terraform/modules/enterprise-security/scripts/test-rbac-permissions.py:34-56 | an account produces records iff it has credentials and a known role; each record is for that account, for a known operation, and is consistent; the admin contributes the corrected `AdminTests` (4 records when the create succeeds, where the code as written gives 3) |
| `Rbac.PermissionSpec` | terraform/modules/enterprise-security/scripts/test-rbac-permissions.py:34-56 | every permission record is consistent, for a known operation and from one of the accounts |
| `Rbac.SkippedAccount` | terraform/modules/enterprise-security/scripts/test-rbac-permissions.py:44-46 | an account without credentials adds nothing |
| `Rbac.TestServiceAccountPermissions` | terraform/modules/enterprise-security/scripts/test-rbac-permissions.py:34-56 | the loop yields exactly the reference permission results, with the corrected admin set |
| `Rbac.EscalationRecords` | terraform/modules/enterprise-security/scripts/test-rbac-permissions.py:362-380 | three attempts per account, in order: `escalation_create_admin_topic` creating `{environment}-admin-escalation-test`, `escalation_alter_cluster_config` describing the cluster, `escalation_delete_system_topics` listing topics; each expected to be denied |
| `Rbac.EscalationSpec` | terraform/modules/enterprise-security/scripts/test-rbac-permissions.py:344-382 | three records per non-admin account with credentials; each is expected to fail, is named `escalation_…` and comes from such an account |
| `Rbac.TestPrivilegeEscalation` | terraform/modules/enterprise-security/scripts/test-rbac-permissions.py:344-382 | the nested loops yield exactly the reference escalation results |
| `Rbac.SummaryOf` | terraform/modules/enterprise-security/scripts/test-rbac-permissions.py:384-400 | passed + failed == total; the rate is in [0, 100], 0 for no tests, and 100 iff there are tests and none failed |
| `Rbac.FindingsFor` | terraform/modules/enterprise-security/scripts/test-rbac-permissions.py:415-433 | one finding of the given severity per record, naming its account and operation |
| `Rbac.FindingsCount` | terraform/modules/enterprise-security/scripts/test-rbac-permissions.py:409-435 | one finding per mismatched test; the HIGH ones are exactly the unexpected successes |
| `Rbac.FindingsOrder` | terraform/modules/enterprise-security/scripts/test-rbac-permissions.py:409-435 | no MEDIUM finding precedes a HIGH one |
| `Rbac.FindingsSources` | terraform/modules/enterprise-security/scripts/test-rbac-permissions.py:409-435 | every finding names the account and operation of a result |
| `Rbac.AnalyzeSecurityFindings` | terraform/modules/enterprise-security/scripts/test-rbac-permissions.py:409-435 | the two loops yield exactly the reference findings |
| `Rbac.RecommendationsSpec` | terraform/modules/enterprise-security/scripts/test-rbac-permissions.py:437-456 | three review items iff some test failed, then two escalation items iff some escalation succeeded |
| `Rbac.RecommendationsLength` | terraform/modules/enterprise-security/scripts/test-rbac-permissions.py:437-456 | with consistent records, 0, 3 or 5 items: a successful escalation is always a failed test |
| `Rbac.GenerateRecommendations` | terraform/modules/enterprise-security/scripts/test-rbac-permissions.py:437-456 | the method yields exactly the reference recommendations |
| `Rbac.RoleOperationsNotEscalation` | terraform/modules/enterprise-security/scripts/test-rbac-permissions.py:70-224 | no role operation's name contains `escalation_` |
| `Rbac.RunRecommendations` | terraform/modules/enterprise-security/scripts/test-rbac-permissions.py:476-483 | a whole run yields 0, 3 or 5 recommendations |
| `Rbac.DeleteSystemTopicsIsListing` | terraform/modules/enterprise-security/scripts/test-rbac-permissions.py:368-372 | `escalation_delete_system_topics` is an unexpected success iff the account's `list_topics` probe succeeds: both run the same topic listing |
| `Rbac.AlterClusterConfigIsDescribe` | terraform/modules/enterprise-security/scripts/test-rbac-permissions.py:368-372 | `escalation_alter_cluster_config` is an unexpected success iff the account's `describe_cluster` probe succeeds: both run the same cluster description |
| `Rbac.HighFindingFor` | terraform/modules/enterprise-security/scripts/test-rbac-permissions.py:409-435 | every unexpected success yields a HIGH finding naming its account and operation |
| `Rbac.EscalationRecommended` | terraform/modules/enterprise-security/scripts/test-rbac-permissions.py:437-456 | a successful escalation that failed its test makes the recommendations five items ending with the CRITICAL block |
| `Rbac.EscalationResultsHas` | terraform/modules/enterprise-security/scripts/test-rbac-permissions.py:344-382 | every escalating account's three records are among the escalation results |
| `Rbac.OperatorListingEscalates` | terraform/modules/enterprise-security/scripts/test-rbac-permissions.py:368-372 | a credentialed `connector_operator` whose `list_topics` test passes always yields a HIGH finding for `escalation_delete_system_topics`, and the run's recommendations are five items ending with the CRITICAL escalation block |
| `Rbac.GenerateRbacReport` | terraform/modules/enterprise-security/scripts/test-rbac-permissions.py:384-407 | the report holds the summary, all results, the findings and the recommendations of the same results |
| `Rbac.ExitStatus` | terraform/modules/enterprise-security/scripts/test-rbac-permissions.py:493-505 | exit 0 iff there are results and all passed, otherwise 1 |
| `Rbac.CountAllPassed` | terraform/modules/enterprise-security/scripts/test-rbac-permissions.py:494-503 | the pass count equals the total iff every test passed |

## Left out

- SQLite storage, ISO-8601 timestamp strings and their text comparison: the table is a sequence, and timestamps are integer seconds compared numerically.
- The SQL result order between records with equal timestamps: the model fixes one (stable on insertion order); SQLite does not promise one.
- Each analytics query reads `datetime.now()` separately: the model uses one cutoff for all the queries of a report.
- XML parsing (`ET.parse`) and the `int()`/`float()`/`fromisoformat` conversions: each attribute carries the value they yield, or none where they raise.
- Environment variables (`ENVIRONMENT`, `KAFKA_BOOTSTRAP_SERVERS`, credentials, registry and Sumo Logic URLs) are parameters.
- `_create_visualizations` (plotly) and the HTML/JSON rendering and serialisation: the model stops at the figures the page and document contain.
- Floating-point arithmetic: durations, rates and slopes are exact reals.
- `Regression.LinearTrend` requires equal-length series; `zip` truncation of unequal lists never occurs in the source's calls.
- `main` of the reporting script: argument parsing, file globbing, the per-file try/except in directory mode, and logging.
- The `ExecutionSummary` record is never used by the core, so it is not modelled.
- Network and client calls (Kafka admin, producer and consumer, `_call_confluent_api`, `_get_auth_header`, `_get_service_account_credentials`): their outcomes are parameters.
- Latency timing and the produce/consume mechanics of the end-to-end check: the measured latency and the "received" flag are parameters.
- The `message` and `details` fields of health checks and the `execution_time_seconds` and `timestamp` fields are not modelled. Building some details can raise, and that raise decides the check: the connector status lookups and the schema subject slice. The model keeps those two outcomes as inputs: the shape of each connector status reply and the kind of the registry's JSON body.
- `HealthCheck.ConnectorsCheck`: a listing body that is a JSON object, string or number is not modelled; the listing is a list of names or an error reply.
- The operator cleanup delete (test-rbac-permissions.py:168-171) uses the same never-present `success` key and only has a side effect on the cluster, so it is not modelled.
- The cluster's answer is a function of (account, probe), so a probe's outcome is stable within a run: a transient error or time-out between the permission phase and the escalation phase, which use separate admin clients, is not modelled. `Rbac.OperatorListingEscalates`, `Rbac.DeleteSystemTopicsIsListing` and `Rbac.AlterClusterConfigIsDescribe` rely on this.
- `Rbac.OperatorTests`: the source reads `int(time.time())` once per topic name; the model takes one clock reading (`Cluster.stamp`) for every throw-away topic name of a run.
- `JUnit.ParseSuite`: the source calls `datetime.now()` once per suite when the timestamp is missing or unreadable; the model takes one processing time `now` for the whole file.
- A failure to parse the service-account JSON in the RBAC `main` exits before any test; it is not modelled.
- The RBAC exit status on an empty run: the rate print divides by zero and the uncaught error exits with status 1; `Rbac.ExitStatus` gives 1 without modelling the traceback.

Where the prose description of the system and the code differ, the model follows the code:

- A non-numeric count or duration aborts the whole file instead of being skipped.
- The tail of records the JSON report selects (`results[-100:]` of a newest-first list) is the OLDEST 100 of the window, not the newest.
- No JSON document is written for a non-empty window. Its trend block holds `daily_stats` keyed by `datetime.date` values (scripts/test-reporting.py:300), and `json.dumps(..., default=str)` (scripts/test-reporting.py:660) raises a `TypeError` on such keys, because `default` applies to values only. The model keeps the document's contents (`Report.GenerateJsonReport`) and leaves serialisation out; only an empty window's document, whose tail is empty, is actually written.
- A top-failing entry's "latest" error is the message of the last record in list order, which is its oldest failure.
- The HTML report cannot be produced for an empty window, because the trend analysis is then the error marker.
- Two of the three escalation attempts do not do what their labels say: `alter_cluster_config` only describes the cluster and `delete_system_topics` only lists topics. The model runs those probes, so an operator that is allowed to list topics is always reported as escalating (`Rbac.OperatorListingEscalates`).

## Findings

| source | as written | input that shows it | evidently intended | confidence | as-written member | corrected member |
|---|---|---|---|---|---|---|
| terraform/modules/enterprise-security/scripts/test-rbac-permissions.py:103 | the admin `delete_topic` test runs only if the create record's `success` key is truthy, but records only have `actual_success`, so delete is never tested | a cluster where every operation returns True: 3 admin records instead of 4 | run `delete_topic` when `create_topic` actually succeeded | not executed | `Rbac.AdminDeleteNeverRuns` | `Rbac.AdminTests` |
