/** `RBACTester`: runs each service account's role-specific operations and a
    fixed set of privilege-escalation attempts against the cluster, judges
    every attempt against the expected outcome, and reports a summary,
    security findings and recommendations. The cluster is an input: a total
    function from (service account, probe actually run) to what the probe
    did. */
module Rbac {
  import opened Wrappers
  import opened Collections
  import opened Text
  import opened Records

  // ---------------------------------------------------------------- one operation

  /** The Python value an operation hands back. */
  datatype Value = NoneValue | BoolValue(b: bool) | IntValue(i: int) | TextValue(s: string)

  /** What an operation did: returned a value or raised. */
  datatype OpOutcome = Returned(value: Value) | Raised(error: string)

  /** The Kafka call a test makes. Several labels share a probe: the
      `alter_cluster_config` escalation describes the cluster and the
      `delete_system_topics` escalation lists topics. */
  datatype Probe =
    | ListTopics
    | DescribeCluster
    | CreateTopic(topic: string)
    | DeleteTopic(topic: string)
    | Subscribe(topics: seq<string>)
    | Produce(topic: string)

  /** The cluster under test: the tester's environment, the clock reading
      (`int(time.time())` as text) that names throw-away topics, and what
      each probe does when run with an account's credentials. */
  datatype Cluster = Cluster(environment: string, stamp: string, respond: (string, Probe) -> OpOutcome)

  /** One planned test: the label it is recorded under, the probe it runs,
      and whether the probe should succeed. */
  datatype PlannedTest = PlannedTest(name: string, probe: Probe, expected: bool)

  /** `result is not None and result != False`; in Python `0 == False`, so a
      returned integer zero is no success either. */
  predicate Succeeded(v: Value)
  {
    match v
    case NoneValue => false
    case BoolValue(b) => b
    case IntValue(i) => i != 0
    case TextValue(_) => true
  }

  /** One result dict (timestamp and details dropped). */
  datatype TestRecord = TestRecord(
    serviceAccount: string,
    operation: string,
    expectedSuccess: bool,
    actualSuccess: bool,
    testPassed: bool,
    errorMessage: Option<string>)

  /** The verdict relation every result satisfies. */
  predicate Consistent(r: TestRecord)
  {
    r.testPassed <==> r.actualSuccess == r.expectedSuccess
  }

  /** `_test_operation`. A raise counts as no success and keeps the message;
      the test passes when what happened is what was expected. */
  function TestOperation(account: string, operation: string, outcome: OpOutcome, expectedSuccess: bool): (r: TestRecord)
    ensures r.serviceAccount == account && r.operation == operation && r.expectedSuccess == expectedSuccess
    ensures r.actualSuccess <==>
              outcome.Returned? && outcome.value != NoneValue
              && outcome.value != BoolValue(false) && outcome.value != IntValue(0)
    ensures Consistent(r)
    ensures outcome.Raised? ==> !r.actualSuccess && (r.testPassed <==> !expectedSuccess)
    ensures r.errorMessage.Some? <==> outcome.Raised?
    ensures outcome.Raised? ==> r.errorMessage == Some(outcome.error)
  {
    match outcome
    case Returned(v) =>
      var actual := Succeeded(v);
      TestRecord(account, operation, expectedSuccess, actual, actual == expectedSuccess, None)
    case Raised(e) =>
      TestRecord(account, operation, expectedSuccess, false, !expectedSuccess, Some(e))
  }

  /** Run a planned test as `account` and judge it. */
  function Attempt(cluster: Cluster, account: string, t: PlannedTest): TestRecord
  {
    TestOperation(account, t.name, cluster.respond(account, t.probe), t.expected)
  }

  /** Run a list of planned tests in order. */
  function RunPlan(cluster: Cluster, account: string, plan: seq<PlannedTest>): (rs: seq<TestRecord>)
    ensures |rs| == |plan|
    ensures forall i :: 0 <= i < |plan| ==>
              rs[i] == Attempt(cluster, account, plan[i])
              && rs[i].operation == plan[i].name && rs[i].expectedSuccess == plan[i].expected
  {
    seq(|plan|, i requires 0 <= i < |plan| => Attempt(cluster, account, plan[i]))
  }

  // ---------------------------------------------------------------- role test sets

  /** Every operation label the role test sets use. */
  const PermissionOperations: seq<string> := [
    "list_topics", "create_topic", "delete_topic", "describe_cluster",
    "create_connector_topic", "create_non_connector_topic",
    "subscribe_allowed_topic", "subscribe_restricted_topic", "produce_message"]

  /** Keys of the dict `_test_operation` returns. */
  const RecordKeys: seq<string> := [
    "service_account", "operation", "expected_success", "actual_success",
    "test_passed", "timestamp", "details", "error_message"]

  /** `{environment}-rbac-test-{time}`: the admin's throw-away topic. */
  function AdminTopic(cluster: Cluster): string
  {
    cluster.environment + "-rbac-test-" + cluster.stamp
  }

  const AdminList: PlannedTest := PlannedTest("list_topics", ListTopics, true)
  const AdminDescribe: PlannedTest := PlannedTest("describe_cluster", DescribeCluster, true)

  function AdminCreate(cluster: Cluster): PlannedTest
  {
    PlannedTest("create_topic", CreateTopic(AdminTopic(cluster)), true)
  }

  /** The delete removes the very topic the create made. */
  function AdminDelete(cluster: Cluster): PlannedTest
  {
    PlannedTest("delete_topic", DeleteTopic(AdminTopic(cluster)), true)
  }

  /** `_test_admin_permissions` as written: the delete test is guarded by
      `test_result.get('success')`, a key the record never has, so it never
      runs. */
  function AdminTestsAsWritten(account: string, cluster: Cluster): (rs: seq<TestRecord>)
  {
    var list := Attempt(cluster, account, AdminList);
    var create := Attempt(cluster, account, AdminCreate(cluster));
    var deleteRuns := "success" in RecordKeys && create.actualSuccess;
    var delete := if deleteRuns then [Attempt(cluster, account, AdminDelete(cluster))] else [];
    [list, create] + delete + [Attempt(cluster, account, AdminDescribe)]
  }

  /** As written, the admin set never deletes its test topic: it is always
      the same three tests, even when the create succeeded. */
  lemma AdminDeleteNeverRuns(account: string, cluster: Cluster)
    ensures |AdminTestsAsWritten(account, cluster)| == 3
    ensures forall r :: r in AdminTestsAsWritten(account, cluster) ==> r.operation != "delete_topic"
  {
    assert "success" !in RecordKeys;
  }

  /** `_test_admin_permissions` with the guard reading the create result's
      `actual_success`: the delete test runs exactly when the create worked.
      All four operations are expected to succeed. */
  function AdminTests(account: string, cluster: Cluster): (rs: seq<TestRecord>)
    ensures var created := Attempt(cluster, account, AdminCreate(cluster)).actualSuccess;
            && |rs| == (if created then 4 else 3)
            && rs[0] == Attempt(cluster, account, AdminList) && rs[0].operation == "list_topics"
            && rs[1] == Attempt(cluster, account, AdminCreate(cluster)) && rs[1].operation == "create_topic"
            && (created ==> rs[2] == Attempt(cluster, account, AdminDelete(cluster)) && rs[2].operation == "delete_topic")
            && rs[|rs| - 1] == Attempt(cluster, account, AdminDescribe) && rs[|rs| - 1].operation == "describe_cluster"
    ensures forall r :: r in rs ==> r.expectedSuccess
    ensures (exists r :: r in rs && r.operation == "delete_topic")
            <==> Attempt(cluster, account, AdminCreate(cluster)).actualSuccess
  {
    var list := Attempt(cluster, account, AdminList);
    var create := Attempt(cluster, account, AdminCreate(cluster));
    var delete := if create.actualSuccess then [Attempt(cluster, account, AdminDelete(cluster))] else [];
    [list, create] + delete + [Attempt(cluster, account, AdminDescribe)]
  }

  /** Against a cluster that lets everything succeed, the intended admin set
      has four tests and the written one three. */
  lemma AdminDeleteDiscrepancy(environment: string, stamp: string)
    ensures var cluster := Cluster(environment, stamp, (a, p) => Returned(BoolValue(true)));
            |AdminTests("kafka_admin", cluster)| == 4 && |AdminTestsAsWritten("kafka_admin", cluster)| == 3
  {
    var cluster := Cluster(environment, stamp, (a, p) => Returned(BoolValue(true)));
    AdminDeleteNeverRuns("kafka_admin", cluster);
  }

  /** The operator's plan: listing topics and creating a
      `{environment}-connector-rbac-test-{time}` topic should work; creating
      `{environment}-other-topic-{time}` and describing the cluster should not. */
  function OperatorPlan(cluster: Cluster): seq<PlannedTest>
  {
    [ PlannedTest("list_topics", ListTopics, true),
      PlannedTest("create_connector_topic", CreateTopic(cluster.environment + "-connector-rbac-test-" + cluster.stamp), true),
      PlannedTest("create_non_connector_topic", CreateTopic(cluster.environment + "-other-topic-" + cluster.stamp), false),
      PlannedTest("describe_cluster", DescribeCluster, false) ]
  }

  /** `_test_operator_permissions`: the four operator tests, in order. */
  function OperatorTests(account: string, cluster: Cluster): (rs: seq<TestRecord>)
    ensures |rs| == 4
    ensures forall i :: 0 <= i < 4 ==> rs[i] == Attempt(cluster, account, OperatorPlan(cluster)[i])
    ensures rs[0].operation == "list_topics" && rs[0].expectedSuccess
    ensures rs[1].operation == "create_connector_topic" && rs[1].expectedSuccess
    ensures rs[2].operation == "create_non_connector_topic" && !rs[2].expectedSuccess
    ensures rs[3].operation == "describe_cluster" && !rs[3].expectedSuccess
  {
    RunPlan(cluster, account, OperatorPlan(cluster))
  }

  /** The consumer's plan: subscribing to `{environment}-monitoring-logs`
      should work; subscribing to `{environment}-admin-logs` and producing to
      the monitoring topic should not. */
  function ConsumerPlan(cluster: Cluster): seq<PlannedTest>
  {
    var allowed := cluster.environment + "-monitoring-logs";
    [ PlannedTest("subscribe_allowed_topic", Subscribe([allowed]), true),
      PlannedTest("subscribe_restricted_topic", Subscribe([cluster.environment + "-admin-logs"]), false),
      PlannedTest("produce_message", Produce(allowed), false) ]
  }

  /** `_test_consumer_permissions`: the three consumer tests, in order. */
  function ConsumerTests(account: string, cluster: Cluster): (rs: seq<TestRecord>)
    ensures |rs| == 3
    ensures forall i :: 0 <= i < 3 ==> rs[i] == Attempt(cluster, account, ConsumerPlan(cluster)[i])
    ensures rs[0].operation == "subscribe_allowed_topic" && rs[0].expectedSuccess
    ensures rs[1].operation == "subscribe_restricted_topic" && !rs[1].expectedSuccess
    ensures rs[2].operation == "produce_message" && !rs[2].expectedSuccess
  {
    RunPlan(cluster, account, ConsumerPlan(cluster))
  }

  /** A service account as the script sees it: its name, its id, and the
      credentials found for that id (`None` when the variable is unset). */
  datatype Account = Account(name: string, id: string, apiKey: Option<string>, apiSecret: Option<string>)

  /** `not api_key or not api_secret` skips the account. */
  predicate HasCredentials(a: Account)
  {
    Truthy(a.apiKey) && Truthy(a.apiSecret)
  }

  predicate IsRole(name: string)
  {
    name == "kafka_admin" || name == "connector_operator" || name == "data_consumer"
  }

  /** The results one account contributes to the permission tests. */
  function RoleTests(a: Account, cluster: Cluster): (rs: seq<TestRecord>)
    ensures rs != [] <==> HasCredentials(a) && IsRole(a.name)
    ensures forall r :: r in rs ==>
              r.serviceAccount == a.name && r.operation in PermissionOperations && Consistent(r)
  {
    if !HasCredentials(a) then []
    else if a.name == "kafka_admin" then AdminTests(a.name, cluster)
    else if a.name == "connector_operator" then OperatorTests(a.name, cluster)
    else if a.name == "data_consumer" then ConsumerTests(a.name, cluster)
    else []
  }

  /** `test_service_account_permissions` as a value: the accounts' results in order. */
  function PermissionResults(accounts: seq<Account>, cluster: Cluster): seq<TestRecord>
  {
    if accounts == [] then []
    else PermissionResults(accounts[..|accounts| - 1], cluster) + RoleTests(accounts[|accounts| - 1], cluster)
  }

  /** Every permission result belongs to a listed account that has
      credentials and one of the three role names, and its verdict is
      consistent. */
  lemma {:induction false} PermissionSpec(accounts: seq<Account>, cluster: Cluster)
    ensures forall r :: r in PermissionResults(accounts, cluster) ==>
              && Consistent(r)
              && r.operation in PermissionOperations
              && exists i :: 0 <= i < |accounts| && accounts[i].name == r.serviceAccount
                             && HasCredentials(accounts[i]) && IsRole(accounts[i].name)
  {
    if accounts != [] {
      var init := accounts[..|accounts| - 1];
      PermissionSpec(init, cluster);
      var last := |accounts| - 1;
      forall r | r in PermissionResults(accounts, cluster)
        ensures exists i :: 0 <= i < |accounts| && accounts[i].name == r.serviceAccount
                            && HasCredentials(accounts[i]) && IsRole(accounts[i].name)
      {
        if r in PermissionResults(init, cluster) {
          var i :| 0 <= i < |init| && init[i].name == r.serviceAccount
                   && HasCredentials(init[i]) && IsRole(init[i].name);
          assert accounts[i] == init[i];
        } else {
          assert r in RoleTests(accounts[last], cluster);
        }
      }
    }
  }

  /** An account with no credentials, or a name outside the three roles,
      leaves the results unchanged. */
  lemma SkippedAccount(accounts: seq<Account>, a: Account, cluster: Cluster)
    requires !HasCredentials(a) || !IsRole(a.name)
    ensures PermissionResults(accounts + [a], cluster) == PermissionResults(accounts, cluster)
  {
    assert (accounts + [a])[..|accounts|] == accounts;
  }

  /** One more account extends the permission results by its own role tests. */
  lemma PermissionStep(accounts: seq<Account>, i: nat, cluster: Cluster)
    requires i < |accounts|
    ensures PermissionResults(accounts[..i + 1], cluster)
            == PermissionResults(accounts[..i], cluster) + RoleTests(accounts[i], cluster)
  {
    assert accounts[..i + 1][..i] == accounts[..i];
  }

  /** `test_service_account_permissions`: extend the results account by account. */
  method TestServiceAccountPermissions(accounts: seq<Account>, cluster: Cluster) returns (results: seq<TestRecord>)
    ensures results == PermissionResults(accounts, cluster)
  {
    results := [];
    for i := 0 to |accounts|
      invariant results == PermissionResults(accounts[..i], cluster)
    {
      PermissionStep(accounts, i, cluster);
      var a := accounts[i];
      if !HasCredentials(a) {
        continue;
      }
      if a.name == "kafka_admin" {
        results := results + AdminTests(a.name, cluster);
      } else if a.name == "connector_operator" {
        results := results + OperatorTests(a.name, cluster);
      } else if a.name == "data_consumer" {
        results := results + ConsumerTests(a.name, cluster);
      }
    }
    assert accounts[..|accounts|] == accounts;
  }

  // ---------------------------------------------------------------- privilege escalation

  const EscalationPrefix: string := "escalation_"

  /** The three escalation attempts, by name and the probe actually run:
      creating `{environment}-admin-escalation-test`, describing the cluster,
      and listing topics. */
  function EscalationTests(cluster: Cluster): seq<(string, Probe)>
  {
    [ ("create_admin_topic", CreateTopic(cluster.environment + "-admin-escalation-test")),
      ("alter_cluster_config", DescribeCluster),
      ("delete_system_topics", ListTopics) ]
  }

  /** The escalation results for one account: each attempt is recorded as
      `escalation_<name>` and expected to be denied. */
  function EscalationRecords(account: string, cluster: Cluster): (rs: seq<TestRecord>)
    ensures |rs| == 3
    ensures forall i :: 0 <= i < 3 ==>
              rs[i] == TestOperation(account, EscalationPrefix + EscalationTests(cluster)[i].0,
                                     cluster.respond(account, EscalationTests(cluster)[i].1), false)
  {
    var tests := EscalationTests(cluster);
    seq(3, i requires 0 <= i < 3 =>
      TestOperation(account, EscalationPrefix + tests[i].0, cluster.respond(account, tests[i].1), false))
  }

  /** Accounts the escalation tests run: not the admin, and with credentials. */
  predicate Escalates(a: Account)
  {
    a.name != "kafka_admin" && HasCredentials(a)
  }

  function EscalationResults(accounts: seq<Account>, cluster: Cluster): seq<TestRecord>
  {
    if accounts == [] then []
    else
      var a := accounts[|accounts| - 1];
      EscalationResults(accounts[..|accounts| - 1], cluster)
      + (if Escalates(a) then EscalationRecords(a.name, cluster) else [])
  }

  /** Three results per escalating account; each is expected to be denied,
      carries the `escalation_` prefix, and never names the admin account. */
  lemma {:induction false} EscalationSpec(accounts: seq<Account>, cluster: Cluster)
    ensures |EscalationResults(accounts, cluster)| == 3 * CountIf(accounts, Escalates)
    ensures forall r :: r in EscalationResults(accounts, cluster) ==>
              && !r.expectedSuccess
              && StartsWith(r.operation, EscalationPrefix)
              && Consistent(r)
              && r.serviceAccount != "kafka_admin"
              && exists i :: 0 <= i < |accounts| && accounts[i].name == r.serviceAccount && Escalates(accounts[i])
  {
    if accounts != [] {
      var init := accounts[..|accounts| - 1];
      var a := accounts[|accounts| - 1];
      EscalationSpec(init, cluster);
      var own := if Escalates(a) then EscalationRecords(a.name, cluster) else [];
      forall r | r in EscalationResults(accounts, cluster)
        ensures && !r.expectedSuccess
                && StartsWith(r.operation, EscalationPrefix)
                && Consistent(r)
                && r.serviceAccount != "kafka_admin"
                && exists i :: 0 <= i < |accounts| && accounts[i].name == r.serviceAccount && Escalates(accounts[i])
      {
        if r in EscalationResults(init, cluster) {
          var i :| 0 <= i < |init| && init[i].name == r.serviceAccount && Escalates(init[i]);
          assert accounts[i] == init[i];
        } else {
          assert r in own;
          var k :| 0 <= k < |own| && own[k] == r;
          assert (EscalationPrefix + EscalationTests(cluster)[k].0)[..|EscalationPrefix|] == EscalationPrefix;
          assert accounts[|accounts| - 1] == a;
        }
      }
    }
  }

  /** `test_privilege_escalation`: the three attempts for every escalating account. */
  method TestPrivilegeEscalation(accounts: seq<Account>, cluster: Cluster) returns (results: seq<TestRecord>)
    ensures results == EscalationResults(accounts, cluster)
  {
    results := [];
    for i := 0 to |accounts|
      invariant results == EscalationResults(accounts[..i], cluster)
    {
      assert accounts[..i + 1][..i] == accounts[..i];
      var a := accounts[i];
      if a.name == "kafka_admin" || !HasCredentials(a) {
        continue;
      }
      ghost var before := results;
      var escalationTests := EscalationTests(cluster);
      for j := 0 to |escalationTests|
        invariant results == before + EscalationRecords(a.name, cluster)[..j]
      {
        var (testName, probe) := escalationTests[j];
        var record := TestOperation(a.name, EscalationPrefix + testName, cluster.respond(a.name, probe), false);
        assert EscalationRecords(a.name, cluster)[..j + 1] == EscalationRecords(a.name, cluster)[..j] + [record];
        results := results + [record];
      }
      assert EscalationRecords(a.name, cluster)[..|escalationTests|] == EscalationRecords(a.name, cluster);
    }
    assert accounts[..|accounts|] == accounts;
  }

  // ---------------------------------------------------------------- report

  datatype RbacSummary = RbacSummary(totalTests: nat, passedTests: nat, failedTests: nat, successRate: real)

  predicate IsPassedTest(r: TestRecord) { r.testPassed }

  /** The `summary` block: failed is the complement of passed, and the rate
      is a percentage guarded against an empty run. */
  function SummaryOf(results: seq<TestRecord>): (s: RbacSummary)
    ensures s.totalTests == |results|
    ensures s.passedTests + s.failedTests == s.totalTests
    ensures s.passedTests == CountIf(results, IsPassedTest)
    ensures 0.0 <= s.successRate <= 100.0
    ensures s.totalTests == 0 ==> s.successRate == 0.0
    ensures s.successRate == 100.0 <==> s.totalTests > 0 && s.failedTests == 0
  {
    var passed := CountIf(results, IsPassedTest);
    CountIfLe(results, IsPassedTest, r => true);
    CountAll(results);
    RateBounds(passed, |results|);
    RbacSummary(|results|, passed, |results| - passed, SuccessRate(passed, |results|))
  }

  lemma {:induction false} CountAll(results: seq<TestRecord>)
    ensures CountIf(results, r => true) == |results|
  {
    if results != [] {
      CountAll(results[..|results| - 1]);
    }
  }

  datatype Severity = High | Medium

  /** One entry of `security_findings` (the fixed wording is implied by the severity). */
  datatype SecurityFinding = SecurityFinding(severity: Severity, serviceAccount: string, operation: string)

  /** Denial expected but the operation went through. */
  predicate UnexpectedSuccess(r: TestRecord) { !r.expectedSuccess && r.actualSuccess }

  /** Success expected but the operation was denied. */
  predicate UnexpectedFailure(r: TestRecord) { r.expectedSuccess && !r.actualSuccess }

  predicate Mismatched(r: TestRecord) { r.actualSuccess != r.expectedSuccess }

  function FindingsFor(rs: seq<TestRecord>, severity: Severity): (fs: seq<SecurityFinding>)
    ensures |fs| == |rs|
    ensures forall i :: 0 <= i < |rs| ==> fs[i] == SecurityFinding(severity, rs[i].serviceAccount, rs[i].operation)
  {
    seq(|rs|, i requires 0 <= i < |rs| => SecurityFinding(severity, rs[i].serviceAccount, rs[i].operation))
  }

  /** `_analyze_security_findings` as a value: a HIGH finding per unexpected
      success, then a MEDIUM finding per unexpected failure. */
  function SecurityFindings(results: seq<TestRecord>): seq<SecurityFinding>
  {
    FindingsFor(Filter(results, UnexpectedSuccess), High) + FindingsFor(Filter(results, UnexpectedFailure), Medium)
  }

  predicate IsHigh(f: SecurityFinding) { f.severity == High }

  lemma {:induction false} MismatchSplit(results: seq<TestRecord>)
    ensures CountIf(results, UnexpectedSuccess) + CountIf(results, UnexpectedFailure) == CountIf(results, Mismatched)
  {
    if results != [] {
      MismatchSplit(results[..|results| - 1]);
    }
  }

  /** One finding per mismatched result, and as many HIGH findings as
      unexpected successes. */
  lemma FindingsCount(results: seq<TestRecord>)
    ensures |SecurityFindings(results)| == CountIf(results, Mismatched)
    ensures CountIf(SecurityFindings(results), IsHigh) == CountIf(results, UnexpectedSuccess)
  {
    var highs := FindingsFor(Filter(results, UnexpectedSuccess), High);
    var mediums := FindingsFor(Filter(results, UnexpectedFailure), Medium);
    MismatchSplit(results);
    CountIfAppend(highs, mediums, IsHigh);
    AllHigh(highs);
    NoHigh(mediums);
  }

  /** Every HIGH finding comes before every MEDIUM one. */
  lemma FindingsOrder(results: seq<TestRecord>)
    ensures var fs := SecurityFindings(results);
            forall i, j :: 0 <= i < j < |fs| && fs[i].severity == Medium ==> fs[j].severity == Medium
  {
  }

  /** Each finding names a result of its kind: HIGH an unexpected success,
      MEDIUM an unexpected failure. */
  lemma FindingsSources(results: seq<TestRecord>)
    ensures forall f :: f in SecurityFindings(results) ==>
              exists r :: r in results && r.serviceAccount == f.serviceAccount && r.operation == f.operation
                          && (if f.severity == High then UnexpectedSuccess(r) else UnexpectedFailure(r))
  {
    var us := Filter(results, UnexpectedSuccess);
    var uf := Filter(results, UnexpectedFailure);
    var highs := FindingsFor(us, High);
    var mediums := FindingsFor(uf, Medium);
    forall f | f in SecurityFindings(results)
      ensures exists r :: r in results && r.serviceAccount == f.serviceAccount && r.operation == f.operation
                          && (if f.severity == High then UnexpectedSuccess(r) else UnexpectedFailure(r))
    {
      if f in highs {
        var k :| 0 <= k < |highs| && highs[k] == f;
        assert us[k] in us;
      } else {
        assert f in mediums;
        var k :| 0 <= k < |mediums| && mediums[k] == f;
        assert uf[k] in uf;
      }
    }
  }

  lemma {:induction false} AllHigh(fs: seq<SecurityFinding>)
    requires forall i :: 0 <= i < |fs| ==> fs[i].severity == High
    ensures CountIf(fs, IsHigh) == |fs|
  {
    if fs != [] {
      AllHigh(fs[..|fs| - 1]);
    }
  }

  lemma {:induction false} NoHigh(fs: seq<SecurityFinding>)
    requires forall i :: 0 <= i < |fs| ==> fs[i].severity == Medium
    ensures CountIf(fs, IsHigh) == 0
  {
    if fs != [] {
      NoHigh(fs[..|fs| - 1]);
    }
  }

  /** `_analyze_security_findings`: append the HIGH findings, then the MEDIUM ones. */
  method AnalyzeSecurityFindings(results: seq<TestRecord>) returns (findings: seq<SecurityFinding>)
    ensures findings == SecurityFindings(results)
  {
    findings := [];
    var unexpectedSuccesses := Filter(results, UnexpectedSuccess);
    for i := 0 to |unexpectedSuccesses|
      invariant findings == FindingsFor(unexpectedSuccesses[..i], High)
    {
      var r := unexpectedSuccesses[i];
      findings := findings + [SecurityFinding(High, r.serviceAccount, r.operation)];
    }
    assert unexpectedSuccesses[..|unexpectedSuccesses|] == unexpectedSuccesses;
    ghost var highs := findings;
    var unexpectedFailures := Filter(results, UnexpectedFailure);
    for i := 0 to |unexpectedFailures|
      invariant findings == highs + FindingsFor(unexpectedFailures[..i], Medium)
    {
      var r := unexpectedFailures[i];
      findings := findings + [SecurityFinding(Medium, r.serviceAccount, r.operation)];
    }
    assert unexpectedFailures[..|unexpectedFailures|] == unexpectedFailures;
  }

  const ReviewRecommendations: seq<string> := [
    "Review and update RBAC role bindings",
    "Validate ACL rules for service accounts",
    "Consider implementing principle of least privilege"]

  const EscalationRecommendations: seq<string> := [
    "CRITICAL: Privilege escalation detected - immediate review required",
    "Implement additional access controls and monitoring"]

  predicate FailedTest(r: TestRecord) { !r.testPassed }

  /** `'escalation_' in r['operation']` */
  predicate IsEscalation(r: TestRecord) { Contains(r.operation, EscalationPrefix) }

  predicate ActuallySucceeded(r: TestRecord) { r.actualSuccess }

  predicate SuccessfulEscalation(r: TestRecord) { IsEscalation(r) && ActuallySucceeded(r) }

  /** `_generate_recommendations` as a value. */
  function Recommendations(results: seq<TestRecord>): seq<string>
  {
    (if Filter(results, FailedTest) != [] then ReviewRecommendations else [])
    + (if Filter(results, SuccessfulEscalation) != [] then EscalationRecommendations else [])
  }

  /** The three review items lead iff some test failed; the two escalation
      items close the list iff some escalation went through; nothing else is
      recommended. */
  lemma RecommendationsSpec(results: seq<TestRecord>)
    ensures var rec := Recommendations(results);
            var failed := exists r :: r in results && !r.testPassed;
            var escalated := exists r :: r in results && SuccessfulEscalation(r);
            && |rec| == (if failed then 3 else 0) + (if escalated then 2 else 0)
            && (failed ==> rec[..3] == ReviewRecommendations)
            && (escalated ==> rec[|rec| - 2..] == EscalationRecommendations)
  {
    FilterSpec(results, FailedTest);
    FilterSpec(results, SuccessfulEscalation);
    var f := Filter(results, FailedTest);
    var e := Filter(results, SuccessfulEscalation);
    if f != [] { assert f[0] in f; }
    if e != [] { assert e[0] in e; }
  }

  /** When every escalation test expects denial and every verdict is
      consistent, a successful escalation is also a failed test, so the list
      has 0, 3 or 5 items. */
  lemma RecommendationsLength(results: seq<TestRecord>)
    requires forall r :: r in results ==> Consistent(r)
    requires forall r :: r in results && Contains(r.operation, EscalationPrefix) ==> !r.expectedSuccess
    ensures |Recommendations(results)| in {0, 3, 5}
  {
    FilterSpec(results, FailedTest);
    FilterSpec(results, SuccessfulEscalation);
    var e := Filter(results, SuccessfulEscalation);
    if e != [] {
      assert e[0] in e;
      assert FailedTest(e[0]);
      assert e[0] in Filter(results, FailedTest);
    }
  }

  /** Filtering the escalation records and then the successful ones finds
      something exactly when filtering for successful escalations does. */
  lemma SuccessfulEscalationsFound(results: seq<TestRecord>)
    ensures Filter(Filter(results, IsEscalation), ActuallySucceeded) != [] <==> Filter(results, SuccessfulEscalation) != []
  {
    var two := Filter(Filter(results, IsEscalation), ActuallySucceeded);
    var one := Filter(results, SuccessfulEscalation);
    FilterSpec(results, IsEscalation);
    FilterSpec(Filter(results, IsEscalation), ActuallySucceeded);
    FilterSpec(results, SuccessfulEscalation);
    if one != [] {
      var r := one[0];
      assert r in one;
      assert r in results && IsEscalation(r) && ActuallySucceeded(r);
      assert r in Filter(results, IsEscalation);
      assert r in two;
    }
    if two != [] {
      var r := two[0];
      assert r in two;
      assert r in Filter(results, IsEscalation) && ActuallySucceeded(r);
      assert r in one;
    }
  }

  /** `_generate_recommendations`: the review block, then the escalation block. */
  method GenerateRecommendations(results: seq<TestRecord>) returns (recommendations: seq<string>)
    ensures recommendations == Recommendations(results)
  {
    recommendations := [];
    var failedTests := Filter(results, FailedTest);
    if failedTests != [] {
      recommendations := recommendations + [ReviewRecommendations[0]];
      recommendations := recommendations + [ReviewRecommendations[1]];
      recommendations := recommendations + [ReviewRecommendations[2]];
    }
    assert recommendations == if failedTests != [] then ReviewRecommendations else [];
    var escalationResults := Filter(results, IsEscalation);
    var successfulEscalations := Filter(escalationResults, ActuallySucceeded);
    SuccessfulEscalationsFound(results);
    if successfulEscalations != [] {
      recommendations := recommendations + [EscalationRecommendations[0]];
      recommendations := recommendations + [EscalationRecommendations[1]];
    }
  }

  // ---------------------------------------------------------------- the whole run

  /** No role operation label carries the escalation prefix: each lacks some
      letter of it. */
  lemma {:induction false} MissingLetter(s: string, sub: string, c: char)
    requires c in sub && c !in s
    ensures !Contains(s, sub)
  {
    if |s| > 0 {
      MissingLetter(s[1..], sub, c);
    }
  }

  /** `list_topics`, `delete_topic` and `describe_cluster` have no 'a'. */
  lemma AdminLabelsLackA(i: nat)
    requires i == 0 || i == 2 || i == 3
    ensures !Contains(PermissionOperations[i], EscalationPrefix)
  {
    assert 'a' !in PermissionOperations[i];
    MissingLetter(PermissionOperations[i], EscalationPrefix, 'a');
  }

  /** `subscribe_allowed_topic` has no 'n'. */
  lemma AllowedLabelLacksN()
    ensures !Contains(PermissionOperations[6], EscalationPrefix)
  {
    assert 'n' !in PermissionOperations[6];
    MissingLetter(PermissionOperations[6], EscalationPrefix, 'n');
  }

  /** The other labels have no 'l'. */
  lemma OtherLabelsLackL(i: nat)
    requires i == 1 || i == 4 || i == 5 || i == 7 || i == 8
    ensures !Contains(PermissionOperations[i], EscalationPrefix)
  {
    assert 'l' !in PermissionOperations[i];
    MissingLetter(PermissionOperations[i], EscalationPrefix, 'l');
  }

  lemma RoleOperationsNotEscalation()
    ensures forall op :: op in PermissionOperations ==> !Contains(op, EscalationPrefix)
  {
    forall i | 0 <= i < |PermissionOperations|
      ensures !Contains(PermissionOperations[i], EscalationPrefix)
    {
      if i == 0 || i == 2 || i == 3 {
        AdminLabelsLackA(i);
      } else if i == 6 {
        AllowedLabelLacksN();
      } else {
        OtherLabelsLackL(i);
      }
    }
  }

  /** The results `main` gathers: the permission tests, then the escalation tests. */
  function RunResults(accounts: seq<Account>, cluster: Cluster): seq<TestRecord>
  {
    PermissionResults(accounts, cluster) + EscalationResults(accounts, cluster)
  }

  /** Over a whole run the recommendations number 0, 3 or 5. */
  lemma RunRecommendations(accounts: seq<Account>, cluster: Cluster)
    ensures |Recommendations(RunResults(accounts, cluster))| in {0, 3, 5}
  {
    PermissionSpec(accounts, cluster);
    EscalationSpec(accounts, cluster);
    RoleOperationsNotEscalation();
    RecommendationsLength(RunResults(accounts, cluster));
  }

  /** The `delete_system_topics` escalation lists topics, the same probe as
      the operator's `list_topics` test: for every account the escalation is
      an unexpected success exactly when that probe succeeds. */
  lemma DeleteSystemTopicsIsListing(account: string, cluster: Cluster)
    ensures var esc := EscalationRecords(account, cluster)[2];
            && esc.operation == EscalationPrefix + "delete_system_topics"
            && (UnexpectedSuccess(esc) <==> OperatorTests(account, cluster)[0].actualSuccess)
  {
  }

  /** The `alter_cluster_config` escalation only describes the cluster, the
      same probe as the operator's `describe_cluster` test. */
  lemma AlterClusterConfigIsDescribe(account: string, cluster: Cluster)
    ensures var esc := EscalationRecords(account, cluster)[1];
            && esc.operation == EscalationPrefix + "alter_cluster_config"
            && (UnexpectedSuccess(esc) <==> OperatorTests(account, cluster)[3].actualSuccess)
  {
  }

  /** Every escalating account contributes its three records to the escalation results. */
  lemma {:induction false} EscalationResultsHas(accounts: seq<Account>, cluster: Cluster, i: nat, k: nat)
    requires i < |accounts| && Escalates(accounts[i]) && k < 3
    ensures EscalationRecords(accounts[i].name, cluster)[k] in EscalationResults(accounts, cluster)
  {
    var last := |accounts| - 1;
    if i < last {
      assert accounts[..last][i] == accounts[i];
      EscalationResultsHas(accounts[..last], cluster, i, k);
    }
  }

  /** An unexpected success among the results yields a HIGH finding naming it. */
  lemma HighFindingFor(results: seq<TestRecord>, r: TestRecord)
    requires r in results && UnexpectedSuccess(r)
    ensures SecurityFinding(High, r.serviceAccount, r.operation) in SecurityFindings(results)
  {
    var us := Filter(results, UnexpectedSuccess);
    FilterSpec(results, UnexpectedSuccess);
    var k :| 0 <= k < |us| && us[k] == r;
    assert FindingsFor(us, High)[k] == SecurityFinding(High, r.serviceAccount, r.operation);
  }

  /** A successful escalation among the results, which is also a failed
      test, makes the recommendations the review block then the CRITICAL
      escalation block. */
  lemma EscalationRecommended(results: seq<TestRecord>, r: TestRecord)
    requires r in results && SuccessfulEscalation(r) && !r.testPassed
    ensures var rec := Recommendations(results);
            |rec| == 5 && rec[3..] == EscalationRecommendations
  {
    RecommendationsSpec(results);
  }

  /** A credentialed `connector_operator` whose `list_topics` test passes
      always escalates through `delete_system_topics`: the run reports a HIGH
      finding for it and the recommendations end with the CRITICAL block. */
  lemma OperatorListingEscalates(accounts: seq<Account>, cluster: Cluster, i: nat)
    requires i < |accounts| && accounts[i].name == "connector_operator" && HasCredentials(accounts[i])
    requires OperatorTests("connector_operator", cluster)[0].actualSuccess
    ensures SecurityFinding(High, "connector_operator", EscalationPrefix + "delete_system_topics")
              in SecurityFindings(RunResults(accounts, cluster))
    ensures var rec := Recommendations(RunResults(accounts, cluster));
            |rec| == 5 && rec[3..] == EscalationRecommendations
  {
    var results := RunResults(accounts, cluster);
    var r := EscalationRecords("connector_operator", cluster)[2];
    DeleteSystemTopicsIsListing("connector_operator", cluster);
    EscalationResultsHas(accounts, cluster, i, 2);
    assert r in results;
    HighFindingFor(results, r);
    ContainsAt(r.operation, EscalationPrefix, 0);
    EscalationRecommended(results, r);
  }

  /** The report document (timestamp dropped). */
  datatype RbacReport = RbacReport(
    environment: string,
    clusterId: string,
    summary: RbacSummary,
    testResults: seq<TestRecord>,
    securityFindings: seq<SecurityFinding>,
    recommendations: seq<string>)

  /** `generate_rbac_report`. */
  method GenerateRbacReport(environment: string, clusterId: string, results: seq<TestRecord>) returns (report: RbacReport)
    ensures report.summary == SummaryOf(results)
    ensures report.testResults == results
    ensures report.securityFindings == SecurityFindings(results)
    ensures report.recommendations == Recommendations(results)
    ensures report.environment == environment && report.clusterId == clusterId
  {
    var findings := AnalyzeSecurityFindings(results);
    var recommendations := GenerateRecommendations(results);
    report := RbacReport(environment, clusterId, SummaryOf(results), results, findings, recommendations);
  }

  /** `main`'s exit status. An empty run divides by zero while printing the
      rate, and the uncaught error ends the process with status 1, the same
      as a run with a failed test. */
  function ExitStatus(results: seq<TestRecord>): (code: nat)
    ensures code == 0 <==> results != [] && forall r :: r in results ==> r.testPassed
    ensures code != 0 ==> code == 1
  {
    var s := SummaryOf(results);
    CountAllPassed(results);
    if s.totalTests == 0 then 1
    else if s.passedTests != s.totalTests then 1
    else 0
  }

  lemma {:induction false} CountAllPassed(results: seq<TestRecord>)
    ensures CountIf(results, IsPassedTest) == |results| <==> forall r :: r in results ==> r.testPassed
  {
    if results != [] {
      var init := results[..|results| - 1];
      CountAllPassed(init);
      CountIfLe(init, IsPassedTest, r => true);
      CountAll(init);
      assert results == init + [results[|results| - 1]];
    }
  }
}
