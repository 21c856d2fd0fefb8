/** `DeploymentHealthChecker`: eight checks against a deployed cluster, each
    reduced to PASS, FAIL, WARN or SKIP, their aggregation into an overall
    status, and the summary counts and exit code of `main`. Everything the
    checks observe (topic listings, REST and HTTP replies, the measured
    latency, the produce/consume round trip) is an input; `None` stands for
    a probe that raised and was caught inside its check. */
module HealthCheck {
  import opened Wrappers
  import opened Collections
  import opened Text

  datatype CheckStatus = Pass | Fail | Warn | Skip

  /** One entry of `health_summary['checks']` (messages and details dropped). */
  datatype Check = Check(name: string, status: CheckStatus, critical: bool)

  /** `overall_status`; `UNKNOWN` is the initial value that the run always overwrites. */
  datatype Overall = Unknown | Healthy | Warning | Critical

  // ---------------------------------------------------------------- the eight checks

  /** `_check_cluster_connectivity`: critical, PASS exactly when the listing succeeds. */
  function ConnectivityCheck(listing: Option<seq<string>>): (c: Check)
    ensures c.name == "cluster_connectivity" && c.critical
    ensures c.status == (if listing.Some? then Pass else Fail)
  {
    Check("cluster_connectivity", if listing.Some? then Pass else Fail, true)
  }

  /** Topic names starting with the environment name (`environment_topics`). */
  function EnvironmentTopics(topics: seq<string>, environment: string): (r: seq<string>)
    ensures forall t :: t in r <==> t in topics && StartsWith(t, environment)
  {
    FilterSpec(topics, t => StartsWith(t, environment));
    Filter(topics, t => StartsWith(t, environment))
  }

  /** `_check_topics`: non-critical; PASS iff at least `expected` topics exist, FAIL otherwise. */
  function TopicsCheck(listing: Option<seq<string>>, expected: int): (c: Check)
    ensures c.name == "topics_validation" && !c.critical
    ensures c.status == Pass <==> listing.Some? && |listing.value| >= expected
    ensures c.status != Pass ==> c.status == Fail
  {
    var status := if listing.Some? && |listing.value| >= expected then Pass else Fail;
    Check("topics_validation", status, false)
  }

  /** What `_call_confluent_api` hands back for the connector listing: the
      decoded JSON list of names on HTTP 200, `{'error': …}` otherwise. */
  datatype ApiReply = Names(names: seq<string>) | ErrorReply(error: string)

  /** What `_call_confluent_api` hands back for one connector's status. A
      JSON object (the `{'error': …}` reply is one) records whether its
      `connector` entry is absent or an object and whether its `tasks` entry
      is absent or has a length; any other JSON value records only whether
      Python finds it truthy. */
  datatype StatusReply =
    | StatusObject(connectorIsObject: bool, tasksSized: bool)
    | OtherJson(truthy: bool)

  /** The status reply survives `status_response.get('connector', {}).get('state', …)`
      and `len(status_response.get('tasks', []))`, or is falsy and skipped. */
  predicate StatusReadable(s: StatusReply)
  {
    match s
    case StatusObject(connectorIsObject, tasksSized) => connectorIsObject && tasksSized
    case OtherJson(truthy) => !truthy
  }

  /** The statuses of the first three connectors (`api_response[:3]`) can all be read. */
  predicate SampleReadable(names: seq<string>, statuses: string -> StatusReply)
  {
    forall n :: n in Take(names, 3) ==> StatusReadable(statuses(n))
  }

  /** `api_response and 'error' not in api_response`: an error dict, an empty
      list, or a list holding a connector literally named "error" is rejected. */
  predicate UsableReply(reply: ApiReply)
  {
    reply.Names? && reply.names != [] && "error" !in reply.names
  }

  /** `_check_connectors`: `statuses` gives the status reply for each
      connector name. Non-critical; PASS iff the listing is usable, the first
      three statuses can be read and the listing is long enough; WARN iff the
      same but short; FAIL iff the listing is unusable or one of those
      statuses makes the check raise. */
  function ConnectorsCheck(reply: ApiReply, statuses: string -> StatusReply, expected: int): (c: Check)
    ensures c.name == "connectors_validation" && !c.critical
    ensures c.status == Pass <==>
              UsableReply(reply) && SampleReadable(reply.names, statuses) && |reply.names| >= expected
    ensures c.status == Warn <==>
              UsableReply(reply) && SampleReadable(reply.names, statuses) && |reply.names| < expected
    ensures c.status == Fail <==> !UsableReply(reply) || !SampleReadable(reply.names, statuses)
  {
    var status :=
      if !UsableReply(reply) || !SampleReadable(reply.names, statuses) then Fail
      else if |reply.names| >= expected then Pass
      else Warn;
    Check("connectors_validation", status, false)
  }

  /** Only the first three connectors are asked for their status: the
      replies for the others never change the check. */
  lemma ConnectorsSampleOnly(names: seq<string>, s1: string -> StatusReply, s2: string -> StatusReply, expected: int)
    requires forall i :: 0 <= i < |names| && i < 3 ==> s1(names[i]) == s2(names[i])
    ensures ConnectorsCheck(Names(names), s1, expected) == ConnectorsCheck(Names(names), s2, expected)
  {
    var sample := Take(names, 3);
    forall n | n in sample
      ensures s1(n) == s2(n)
    {
      var i :| 0 <= i < |sample| && sample[i] == n;
      assert names[i] == n;
    }
  }

  /** The kind of JSON value a body decodes to, or `NotJson` when `.json()` raises. */
  datatype JsonKind = JsonArray | JsonString | JsonObject | JsonScalar | NotJson

  /** `len(subjects)` and `subjects[:5]` both work on this kind. */
  predicate Sliceable(k: JsonKind)
  {
    k == JsonArray || k == JsonString
  }

  /** An HTTP exchange: the status code and the kind of its JSON body;
      `NoReply` when the request raised. */
  datatype HttpReply = Reply(statusCode: int, body: JsonKind) | NoReply

  /** `_check_schema_registry`: SKIP when no URL is configured (unset or
      empty), PASS on a 200 reply whose body is a JSON array or string, FAIL
      otherwise (a non-200 status, a raised request, or a body that is not
      JSON, has no length or cannot be sliced). */
  function SchemaRegistryCheck(url: Option<string>, reply: HttpReply): (c: Check)
    ensures c.name == "schema_registry_health" && !c.critical
    ensures c.status == Skip <==> !Truthy(url)
    ensures c.status == Pass <==>
              Truthy(url) && reply.Reply? && reply.statusCode == 200 && Sliceable(reply.body)
    ensures c.status != Pass && c.status != Skip ==> c.status == Fail
  {
    var status :=
      if !Truthy(url) then Skip
      else if reply.Reply? && reply.statusCode == 200 && Sliceable(reply.body) then Pass
      else Fail;
    Check("schema_registry_health", status, false)
  }

  predicate IsMonitoringTopic(t: string)
  {
    Contains(t, "monitoring") || Contains(t, "metrics") || Contains(t, "logs")
  }

  function MonitoringTopics(topics: seq<string>): (r: seq<string>)
    ensures forall t :: t in r <==> t in topics && IsMonitoringTopic(t)
  {
    FilterSpec(topics, IsMonitoringTopic);
    Filter(topics, IsMonitoringTopic)
  }

  /** `_check_monitoring_integration`. `sumoStatus` is the HTTP status of the
      test post (`None` when the post raised); it is only consulted when an
      endpoint is configured. Non-critical; PASS iff some monitoring topic
      exists and either no endpoint is configured or it answered 200; WARN
      otherwise; FAIL when the listing itself raised. */
  function MonitoringCheck(listing: Option<seq<string>>, sumoEndpoint: Option<string>, sumoStatus: Option<int>): (c: Check)
    ensures c.name == "monitoring_integration" && !c.critical
    ensures c.status == Pass <==>
              listing.Some? && |MonitoringTopics(listing.value)| > 0
              && (!Truthy(sumoEndpoint) || sumoStatus == Some(200))
    ensures c.status == Fail <==> listing.None?
    ensures c.status != Pass && c.status != Fail ==> c.status == Warn
  {
    var sumoHealthy := Truthy(sumoEndpoint) && sumoStatus == Some(200);
    var status :=
      if listing.None? then Fail
      else if |MonitoringTopics(listing.value)| > 0 && (!Truthy(sumoEndpoint) || sumoHealthy) then Pass
      else Warn;
    Check("monitoring_integration", status, false)
  }

  /** The admin client's configuration as far as the checks read it. */
  datatype AdminConfig = AdminConfig(securityProtocol: string, saslUsername: Option<string>, saslPassword: Option<string>)

  const SecurityProtocol: string := "SASL_SSL"

  /** The configuration the constructor builds from the API key and secret. */
  function AdminConfigFor(apiKey: Option<string>, apiSecret: Option<string>): (config: AdminConfig)
    ensures config.saslUsername == apiKey && config.saslPassword == apiSecret
  {
    AdminConfig(SecurityProtocol, apiKey, apiSecret)
  }

  predicate IsSecurityTopic(t: string)
  {
    Contains(t, "audit") || Contains(t, "security")
  }

  function SecurityTopics(topics: seq<string>): (r: seq<string>)
    ensures forall t :: t in r <==> t in topics && IsSecurityTopic(t)
  {
    FilterSpec(topics, IsSecurityTopic);
    Filter(topics, IsSecurityTopic)
  }

  /** `_check_security_configuration`: critical; PASS iff the protocol
      mentions SASL_SSL and both credentials are non-empty. The audit topics
      are only reported. */
  function SecurityCheck(listing: Option<seq<string>>, config: AdminConfig): (c: Check)
    ensures c.name == "security_configuration" && c.critical
    ensures c.status == Pass <==>
              listing.Some? && Contains(config.securityProtocol, "SASL_SSL")
              && Truthy(config.saslUsername) && Truthy(config.saslPassword)
    ensures c.status != Pass ==> c.status == Fail
  {
    var tls := Contains(config.securityProtocol, "SASL_SSL");
    var auth := Truthy(config.saslUsername) && Truthy(config.saslPassword);
    var status := if listing.Some? && tls && auth then Pass else Fail;
    Check("security_configuration", status, true)
  }

  /** With the constructor's configuration TLS always holds, so security is
      decided by the listing and the two credentials alone. */
  lemma SecurityWithShippedConfig(listing: Option<seq<string>>, apiKey: Option<string>, apiSecret: Option<string>)
    ensures SecurityCheck(listing, AdminConfigFor(apiKey, apiSecret)).status == Pass
            <==> listing.Some? && Truthy(apiKey) && Truthy(apiSecret)
  {
    assert StartsWith(SecurityProtocol, "SASL_SSL");
  }

  /** `max_latency_ms`: 5000 in "prod", 10000 elsewhere. */
  function LatencyThreshold(environment: string): (ms: real)
    ensures ms == 5000.0 <==> environment == "prod"
    ensures ms == 10000.0 <==> environment != "prod"
  {
    if environment == "prod" then 5000.0 else 10000.0
  }

  /** `_check_performance_baseline`: `latencyMs` is the measured listing time
      (`None` when the listing raised). Non-critical; PASS iff strictly below
      the threshold, WARN at or above it, FAIL when the listing raised. */
  function PerformanceCheck(latencyMs: Option<real>, environment: string): (c: Check)
    ensures c.name == "performance_baseline" && !c.critical
    ensures c.status == Pass <==> latencyMs.Some? && latencyMs.value < LatencyThreshold(environment)
    ensures c.status == Warn <==> latencyMs.Some? && latencyMs.value >= LatencyThreshold(environment)
    ensures c.status == Fail <==> latencyMs.None?
  {
    var status :=
      if latencyMs.None? then Fail
      else if latencyMs.value < LatencyThreshold(environment) then Pass
      else Warn;
    Check("performance_baseline", status, false)
  }

  /** `_check_end_to_end_flow`: `received` says whether the test message came
      back within the ten polls (`None` when any step raised). Critical. */
  function EndToEndCheck(received: Option<bool>): (c: Check)
    ensures c.name == "end_to_end_flow" && c.critical
    ensures c.status == Pass <==> received == Some(true)
    ensures c.status != Pass ==> c.status == Fail
  {
    Check("end_to_end_flow", if received == Some(true) then Pass else Fail, true)
  }

  // ---------------------------------------------------------------- aggregation

  predicate NotPassed(c: Check) { c.status != Pass }
  predicate IsCritical(c: Check) { c.critical }

  /** The overall status from `failed_checks` and `critical_failures`. */
  function OverallStatus(checks: seq<Check>): Overall
  {
    var failed := Filter(checks, NotPassed);
    if Filter(failed, IsCritical) != [] then Critical
    else if failed != [] then Warning
    else Healthy
  }

  /** CRITICAL iff some non-passing check is critical; WARNING iff something
      did not pass but nothing critical; HEALTHY iff everything passed. A
      SKIP therefore counts against health like a WARN. */
  lemma OverallSpec(checks: seq<Check>)
    ensures OverallStatus(checks) == Critical <==>
              exists c :: c in checks && c.status != Pass && c.critical
    ensures OverallStatus(checks) == Warning <==>
              (exists c :: c in checks && c.status != Pass)
              && (forall c :: c in checks && c.status != Pass ==> !c.critical)
    ensures OverallStatus(checks) == Healthy <==> forall c :: c in checks ==> c.status == Pass
    ensures OverallStatus(checks) != Unknown
  {
    var failed := Filter(checks, NotPassed);
    FilterSpec(checks, NotPassed);
    FilterSpec(failed, IsCritical);
    var critical := Filter(failed, IsCritical);
    if critical != [] {
      assert critical[0] in critical;
    }
    if failed != [] {
      assert failed[0] in failed;
    }
  }

  /** A SKIP anywhere rules out HEALTHY. */
  lemma SkipNotHealthy(checks: seq<Check>, i: nat)
    requires i < |checks| && checks[i].status == Skip
    ensures OverallStatus(checks) != Healthy
  {
    OverallSpec(checks);
    assert checks[i] in checks;
  }

  /** One step of the check sequence: it either hands back its check or the
      sequence raises at that point. */
  datatype Step = Completed(check: Check) | Raised

  /** The check appended when the sequence raises. */
  const ExecutionFailure: Check := Check("health_check_execution", Fail, true)

  datatype HealthSummary = HealthSummary(
    environment: string,
    clusterId: string,
    checks: seq<Check>,
    overallStatus: Overall)

  /** Number of steps that complete before the first raise. */
  function FirstRaise(steps: seq<Step>): (k: nat)
    ensures k <= |steps|
    ensures forall i :: 0 <= i < k ==> steps[i].Completed?
    ensures k < |steps| ==> steps[k].Raised?
  {
    if steps == [] || steps[0].Raised? then 0
    else 1 + FirstRaise(steps[1..])
  }

  /** The checks of steps that all completed. */
  function Outcomes(steps: seq<Step>): (checks: seq<Check>)
    requires forall i :: 0 <= i < |steps| ==> steps[i].Completed?
    ensures |checks| == |steps|
    ensures forall i :: 0 <= i < |steps| ==> checks[i] == steps[i].check
  {
    seq(|steps|, i requires 0 <= i < |steps| => steps[i].check)
  }

  /** `run_health_checks` as a value: the checks appended up to the first
      raise, then either the aggregated status or the execution failure and
      CRITICAL. */
  function HealthRun(environment: string, clusterId: string, steps: seq<Step>): HealthSummary
  {
    var k := FirstRaise(steps);
    var done := Outcomes(steps[..k]);
    if k == |steps| then HealthSummary(environment, clusterId, done, OverallStatus(done))
    else HealthSummary(environment, clusterId, done + [ExecutionFailure], Critical)
  }

  /** A list holding the execution failure aggregates to CRITICAL. */
  lemma WithExecutionFailure(done: seq<Check>)
    ensures OverallStatus(done + [ExecutionFailure]) == Critical
  {
    var checks := done + [ExecutionFailure];
    OverallSpec(checks);
    assert checks[|done|] in checks;
  }

  /** Without a raise, every step's check is kept in order and the status is
      the aggregation; with one, the checks before it are kept, the critical
      `health_check_execution` FAIL is appended, and the status is CRITICAL,
      which is also what the aggregation of the appended list gives. */
  lemma HealthRunSpec(environment: string, clusterId: string, steps: seq<Step>)
    ensures HealthRun(environment, clusterId, steps).overallStatus
            == OverallStatus(HealthRun(environment, clusterId, steps).checks)
    ensures HealthRun(environment, clusterId, steps).overallStatus != Unknown
    ensures (forall i :: 0 <= i < |steps| ==> steps[i].Completed?) ==>
              HealthRun(environment, clusterId, steps).checks == Outcomes(steps)
    ensures (exists i :: 0 <= i < |steps| && steps[i].Raised?) ==>
              var h := HealthRun(environment, clusterId, steps);
              && h.overallStatus == Critical
              && h.checks == Outcomes(steps[..FirstRaise(steps)]) + [ExecutionFailure]
  {
    var h := HealthRun(environment, clusterId, steps);
    var k := FirstRaise(steps);
    var done := Outcomes(steps[..k]);
    if k < |steps| {
      assert h == HealthSummary(environment, clusterId, done + [ExecutionFailure], Critical);
      WithExecutionFailure(done);
      assert !forall i :: 0 <= i < |steps| ==> steps[i].Completed? by {
        assert steps[k].Raised?;
      }
    } else {
      assert steps[..k] == steps;
      assert h == HealthSummary(environment, clusterId, done, OverallStatus(done));
      OverallSpec(done);
      assert !exists i :: 0 <= i < |steps| && steps[i].Raised?;
    }
  }

  /** `run_health_checks`: append each step's check; on a raise append the
      execution failure and report CRITICAL; otherwise aggregate. */
  method RunHealthChecks(environment: string, clusterId: string, steps: seq<Step>) returns (summary: HealthSummary)
    ensures summary == HealthRun(environment, clusterId, steps)
  {
    var checks: seq<Check> := [];
    for i := 0 to |steps|
      invariant i <= FirstRaise(steps)
      invariant checks == Outcomes(steps[..i])
    {
      if steps[i].Raised? {
        return HealthSummary(environment, clusterId, checks + [ExecutionFailure], Critical);
      }
      assert steps[..i + 1][..i] == steps[..i];
      checks := checks + [steps[i].check];
    }
    assert steps[..|steps|] == steps;
    return HealthSummary(environment, clusterId, checks, OverallStatus(checks));
  }

  // ---------------------------------------------------------------- the standard run

  /** Everything the eight checks observe. */
  datatype Probes = Probes(
    connectivityListing: Option<seq<string>>,
    topicsListing: Option<seq<string>>,
    connectorsReply: ApiReply,
    connectorStatuses: string -> StatusReply,
    schemaRegistryUrl: Option<string>,
    schemaRegistryReply: HttpReply,
    monitoringListing: Option<seq<string>>,
    sumoEndpoint: Option<string>,
    sumoStatus: Option<int>,
    securityListing: Option<seq<string>>,
    latencyMs: Option<real>,
    endToEndReceived: Option<bool>)

  /** The eight checks in the order `run_health_checks` performs them. */
  function StandardChecks(environment: string, config: AdminConfig, expectedTopics: int, expectedConnectors: int, p: Probes): (cs: seq<Check>)
    ensures |cs| == 8
    ensures forall i :: 0 <= i < 8 ==> (cs[i].critical <==> i == 0 || i == 5 || i == 7)
  {
    [ ConnectivityCheck(p.connectivityListing),
      TopicsCheck(p.topicsListing, expectedTopics),
      ConnectorsCheck(p.connectorsReply, p.connectorStatuses, expectedConnectors),
      SchemaRegistryCheck(p.schemaRegistryUrl, p.schemaRegistryReply),
      MonitoringCheck(p.monitoringListing, p.sumoEndpoint, p.sumoStatus),
      SecurityCheck(p.securityListing, config),
      PerformanceCheck(p.latencyMs, environment),
      EndToEndCheck(p.endToEndReceived) ]
  }

  /** Each check catches its own exceptions, so every step completes. */
  function AllCompleted(checks: seq<Check>): (steps: seq<Step>)
    ensures |steps| == |checks|
    ensures forall i :: 0 <= i < |checks| ==> steps[i] == Completed(checks[i])
  {
    seq(|checks|, i requires 0 <= i < |checks| => Completed(checks[i]))
  }

  /** A run in which nothing raises reports exactly its checks, aggregated. */
  lemma CompletedRun(environment: string, clusterId: string, checks: seq<Check>)
    ensures HealthRun(environment, clusterId, AllCompleted(checks))
            == HealthSummary(environment, clusterId, checks, OverallStatus(checks))
  {
    var steps := AllCompleted(checks);
    HealthRunSpec(environment, clusterId, steps);
    assert Outcomes(steps) == checks;
  }

  /** For eight checks of which exactly the first, sixth and last are
      critical, the run is CRITICAL iff one of those three did not pass. */
  lemma CriticalOfEight(checks: seq<Check>)
    requires |checks| == 8
    requires forall i :: 0 <= i < 8 ==> (checks[i].critical <==> i == 0 || i == 5 || i == 7)
    ensures OverallStatus(checks) == Critical <==>
              checks[0].status != Pass || checks[5].status != Pass || checks[7].status != Pass
  {
    OverallSpec(checks);
    forall c | c in checks && c.critical
      ensures c == checks[0] || c == checks[5] || c == checks[7]
    {
      var i :| 0 <= i < |checks| && checks[i] == c;
    }
    assert checks[0] in checks && checks[5] in checks && checks[7] in checks;
  }

  /** The standard run reports the eight checks in order, and it is CRITICAL
      exactly when connectivity, security or the end-to-end flow did not
      pass: those are the three critical checks. */
  lemma StandardRunSpec(environment: string, clusterId: string, config: AdminConfig,
                        expectedTopics: int, expectedConnectors: int, p: Probes)
    ensures var cs := StandardChecks(environment, config, expectedTopics, expectedConnectors, p);
            var h := HealthRun(environment, clusterId, AllCompleted(cs));
            && h.checks == cs
            && (h.overallStatus == Critical <==>
                  p.connectivityListing.None?
                  || SecurityCheck(p.securityListing, config).status != Pass
                  || p.endToEndReceived != Some(true))
  {
    var cs := StandardChecks(environment, config, expectedTopics, expectedConnectors, p);
    CompletedRun(environment, clusterId, cs);
    CriticalOfEight(cs);
  }

  /** With the CLI's default of zero expected connectors, an empty connector
      listing still fails its check. */
  lemma NoConnectorsFails(statuses: string -> StatusReply)
    ensures ConnectorsCheck(Names([]), statuses, 0).status == Fail
  {
  }

  // ---------------------------------------------------------------- main

  predicate IsPass(c: Check) { c.status == Pass }
  predicate IsFail(c: Check) { c.status == Fail }
  predicate IsWarn(c: Check) { c.status == Warn }
  predicate IsSkip(c: Check) { c.status == Skip }

  /** The counts `main` prints. Statuses are only ever PASS, FAIL, WARN and
      SKIP, so the 'WARNING' alternative of the warning filter never matches. */
  datatype CheckCounts = CheckCounts(total: nat, passed: nat, failed: nat, warnings: nat)

  function CountChecks(checks: seq<Check>): (counts: CheckCounts)
    ensures counts.passed + counts.failed + counts.warnings <= counts.total
  {
    CountIfDisjoint3(checks, IsPass, IsFail, IsWarn);
    CheckCounts(|checks|, CountIf(checks, IsPass), CountIf(checks, IsFail), CountIf(checks, IsWarn))
  }

  /** Passed, failed and warnings fall short of the total by exactly the SKIPs. */
  lemma {:induction false} CountPartition(checks: seq<Check>)
    ensures CountIf(checks, IsPass) + CountIf(checks, IsFail) + CountIf(checks, IsWarn) + CountIf(checks, IsSkip)
            == |checks|
  {
    if checks != [] {
      CountPartition(checks[..|checks| - 1]);
    }
  }

  /** `sys.exit` code: 2 for CRITICAL, 1 for WARNING, 0 otherwise. */
  function ExitCode(status: Overall): (code: int)
    ensures code == 2 <==> status == Critical
    ensures code == 1 <==> status == Warning
    ensures code == 0 <==> status != Critical && status != Warning
  {
    match status
    case Critical => 2
    case Warning => 1
    case _ => 0
  }

  /** When no step raised, the aggregation reads every step's check. */
  lemma CompletedStatus(steps: seq<Step>)
    requires forall i :: 0 <= i < |steps| ==> steps[i].Completed?
    ensures OverallStatus(Outcomes(steps)) == Healthy <==>
              forall i :: 0 <= i < |steps| ==> steps[i].check.status == Pass
    ensures OverallStatus(Outcomes(steps)) == Critical <==>
              exists i :: 0 <= i < |steps| && steps[i].check.status != Pass && steps[i].check.critical
  {
    var checks := Outcomes(steps);
    OverallSpec(checks);
    forall i | 0 <= i < |steps| ensures steps[i].check in checks {
      assert checks[i] == steps[i].check;
    }
    if c :| c in checks && c.status != Pass {
      var i :| 0 <= i < |checks| && checks[i] == c;
      assert steps[i].check == c;
    }
  }

  /** The process exits 0 exactly when no step raised and every check passed,
      and 2 exactly when a step raised or a critical check did not pass. */
  lemma ExitCodeSpec(environment: string, clusterId: string, steps: seq<Step>)
    ensures var h := HealthRun(environment, clusterId, steps);
            ExitCode(h.overallStatus) == 0 <==>
              forall i :: 0 <= i < |steps| ==> steps[i].Completed? && steps[i].check.status == Pass
    ensures var h := HealthRun(environment, clusterId, steps);
            ExitCode(h.overallStatus) == 2 <==>
              exists i :: 0 <= i < |steps| && (steps[i].Raised? || (steps[i].check.status != Pass && steps[i].check.critical))
  {
    var k := FirstRaise(steps);
    if k == |steps| {
      assert steps[..k] == steps;
      CompletedStatus(steps);
    } else {
      assert steps[k].Raised?;
    }
  }
}
