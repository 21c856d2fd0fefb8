/** The JUnit parser: turns an already-parsed `<testsuite>`/`<testsuites>`
    element tree into one `TestSuiteResult` per suite and one `TestResult` per
    `<testcase>`, in document order. */
module JUnit {
  import opened Wrappers
  import opened Text
  import opened Collections
  import opened Records

  /** An attribute's text together with what `int()`, `float()` and
      `datetime.fromisoformat()` (after 'Z' becomes '+00:00') make of it;
      `None` where that conversion raises. */
  datatype Attr = Attr(raw: string, asInt: Option<int>, asReal: Option<real>, asTime: Option<int>)

  /** An element of the parsed document. */
  datatype Element = Element(tag: string, attrs: map<string, Attr>, text: Option<string>, children: seq<Element>)

  /** The `ValueError` raised by a count or duration attribute that is not a number. */
  datatype ParseError = NotANumber(attribute: string, raw: string)

  type Parsed = (seq<TestResult>, seq<TestSuiteResult>)

  // ---------------------------------------------------------------- attributes

  /** `e.get(name)` */
  function Get(e: Element, name: string): Option<string>
  {
    if name in e.attrs then Some(e.attrs[name].raw) else None
  }

  /** `e.get(name, default)` */
  function GetOr(e: Element, name: string, default: string): string
  {
    if name in e.attrs then e.attrs[name].raw else default
  }

  /** `int(e.get(name, 0))` */
  function IntAttr(e: Element, name: string): Result<int, ParseError>
  {
    if name !in e.attrs then Ok(0)
    else if e.attrs[name].asInt.Some? then Ok(e.attrs[name].asInt.value)
    else Err(NotANumber(name, e.attrs[name].raw))
  }

  /** `float(e.get(name, 0))` */
  function RealAttr(e: Element, name: string): Result<real, ParseError>
  {
    if name !in e.attrs then Ok(0.0)
    else if e.attrs[name].asReal.Some? then Ok(e.attrs[name].asReal.value)
    else Err(NotANumber(name, e.attrs[name].raw))
  }

  predicate IntReadable(e: Element, name: string)
  {
    name !in e.attrs || e.attrs[name].asInt.Some?
  }

  predicate RealReadable(e: Element, name: string)
  {
    name !in e.attrs || e.attrs[name].asReal.Some?
  }

  /** The suite's numeric attributes are absent or numbers. */
  predicate SuiteReadable(e: Element)
  {
    IntReadable(e, "tests") && IntReadable(e, "failures") && IntReadable(e, "errors")
    && IntReadable(e, "skipped") && RealReadable(e, "time")
  }

  /** A count attribute's value, 0 when absent. */
  function CountOf(e: Element, name: string): int
    requires IntReadable(e, name)
  {
    if name in e.attrs then e.attrs[name].asInt.value else 0
  }

  /** A duration attribute's value, 0.0 when absent. */
  function DurationOf(e: Element, name: string): real
    requires RealReadable(e, name)
  {
    if name in e.attrs then e.attrs[name].asReal.value else 0.0
  }

  // ---------------------------------------------------------------- suites

  /** The suite timestamp: the attribute when it is non-empty and parses,
      otherwise the processing time `now`. */
  function SuiteTimestamp(e: Element, now: int): (ts: int)
    ensures ts != now ==> "timestamp" in e.attrs && e.attrs["timestamp"].raw != ""
                          && e.attrs["timestamp"].asTime == Some(ts)
    ensures "timestamp" in e.attrs && e.attrs["timestamp"].raw != "" && e.attrs["timestamp"].asTime.Some? ==>
              ts == e.attrs["timestamp"].asTime.value
  {
    if Truthy(Get(e, "timestamp")) && e.attrs["timestamp"].asTime.Some?
    then e.attrs["timestamp"].asTime.value
    else now
  }

  /** One suite's summary. Fails only on a non-numeric count or duration;
      the counts always add up, even when `passed` comes out negative. */
  function ParseSuite(e: Element, now: int, env: string): (r: Result<TestSuiteResult, ParseError>)
    ensures r.Ok? <==> SuiteReadable(e)
    ensures r.Ok? ==>
              && r.value.suiteName == GetOr(e, "name", "Unknown Suite")
              && r.value.totalTests == CountOf(e, "tests")
              && r.value.failedTests == CountOf(e, "failures") + CountOf(e, "errors")
              && r.value.skippedTests == CountOf(e, "skipped")
              && r.value.duration == DurationOf(e, "time")
              && r.value.passedTests + r.value.failedTests + r.value.skippedTests == r.value.totalTests
              && (r.value.totalTests > 0 ==>
                    r.value.successRate * r.value.totalTests as real == r.value.passedTests as real * 100.0)
              && (r.value.totalTests <= 0 ==> r.value.successRate == 0.0)
              && r.value.timestamp == SuiteTimestamp(e, now)
              && r.value.environment == env
  {
    var total :- IntAttr(e, "tests");
    var failures :- IntAttr(e, "failures");
    var errors :- IntAttr(e, "errors");
    var skipped :- IntAttr(e, "skipped");
    var duration :- RealAttr(e, "time");
    var passed := total - failures - errors - skipped;
    Ok(TestSuiteResult(GetOr(e, "name", "Unknown Suite"), total, passed, failures + errors, skipped,
                       duration, SuccessRate(passed, total), SuiteTimestamp(e, now), env))
  }

  // ---------------------------------------------------------------- cases

  /** `cs[i]` is the first element of `cs` with the given tag. */
  predicate FirstWithTag(cs: seq<Element>, tag: string, i: int)
  {
    0 <= i < |cs| && cs[i].tag == tag && forall j :: 0 <= j < i ==> cs[j].tag != tag
  }

  /** Position of the first element with the given tag; `|cs|` when there is none. */
  function TagIndex(cs: seq<Element>, tag: string): (i: nat)
    ensures i <= |cs|
    ensures forall j :: 0 <= j < i ==> cs[j].tag != tag
    ensures i < |cs| ==> cs[i].tag == tag
  {
    if cs == [] || cs[0].tag == tag then 0 else 1 + TagIndex(cs[1..], tag)
  }

  /** `e.find(tag)` over `e.children`: the first child with the tag, if any. */
  function FindTag(cs: seq<Element>, tag: string): (r: Option<Element>)
    ensures r.None? <==> forall c :: c in cs ==> c.tag != tag
    ensures r.Some? ==> exists i :: FirstWithTag(cs, tag, i)
    ensures forall i :: FirstWithTag(cs, tag, i) ==> r == Some(cs[i])
  {
    var i := TagIndex(cs, tag);
    if i < |cs| then
      assert FirstWithTag(cs, tag, i);
      Some(cs[i])
    else
      assert forall c :: c in cs ==> c.tag != tag by {
        forall c | c in cs ensures c.tag != tag {
          var j :| 0 <= j < |cs| && cs[j] == c;
        }
      }
      None
  }

  predicate HasChild(e: Element, tag: string)
  {
    exists c :: c in e.children && c.tag == tag
  }

  /** `marker.text or marker.get('message')` */
  function MarkerMessage(m: Element): Option<string>
  {
    Or(m.text, Get(m, "message"))
  }

  datatype Verdict = Verdict(status: Status, message: Option<string>, kind: Option<string>)

  /** A case's status and failure detail: a failure marker wins over an error
      marker, which wins over a skipped marker, which wins over PASSED. The
      message and type come from the first child of the winning kind; the
      type defaults to "Failure" or "Error". */
  function CaseVerdict(tc: Element): (v: Verdict)
    ensures v.status == Passed <==> !HasChild(tc, "failure") && !HasChild(tc, "error") && !HasChild(tc, "skipped")
    ensures v.status == Failed <==> HasChild(tc, "failure") || HasChild(tc, "error")
    ensures v.status == Passed ==> v == Verdict(Passed, None, None)
    ensures forall i :: FirstWithTag(tc.children, "failure", i) ==>
              v == Verdict(Failed, MarkerMessage(tc.children[i]), Some(GetOr(tc.children[i], "type", "Failure")))
    ensures !HasChild(tc, "failure") ==>
              forall i :: FirstWithTag(tc.children, "error", i) ==>
                v == Verdict(Failed, MarkerMessage(tc.children[i]), Some(GetOr(tc.children[i], "type", "Error")))
    ensures !HasChild(tc, "failure") && !HasChild(tc, "error") ==>
              forall i :: FirstWithTag(tc.children, "skipped", i) ==>
                v == Verdict(Skipped, MarkerMessage(tc.children[i]), Some("Skipped"))
  {
    match FindTag(tc.children, "failure")
    case Some(f) => Verdict(Failed, MarkerMessage(f), Some(GetOr(f, "type", "Failure")))
    case None =>
      match FindTag(tc.children, "error")
      case Some(er) => Verdict(Failed, MarkerMessage(er), Some(GetOr(er, "type", "Error")))
      case None =>
        match FindTag(tc.children, "skipped")
        case Some(sk) => Verdict(Skipped, MarkerMessage(sk), Some("Skipped"))
        case None => Verdict(Passed, None, None)
  }

  /** One case record: it inherits the suite's name and timestamp, and its
      file defaults to the suite name. Fails only on a non-numeric `time`. */
  function ParseCase(tc: Element, suiteName: string, ts: int, env: string): (r: Result<TestResult, ParseError>)
    ensures r.Ok? <==> RealReadable(tc, "time")
    ensures r.Ok? ==>
              && r.value.testName == Get(tc, "name")
              && r.value.testSuite == suiteName
              && r.value.timestamp == ts
              && r.value.duration == DurationOf(tc, "time")
              && r.value.testFile == Some(GetOr(tc, "classname", suiteName))
              && r.value.environment == Some(env)
              && r.value.component == None
              && Verdict(r.value.status, r.value.errorMessage, r.value.errorType) == CaseVerdict(tc)
  {
    var duration :- RealAttr(tc, "time");
    var v := CaseVerdict(tc);
    Ok(TestResult(Get(tc, "name"), suiteName, v.status, duration, ts, v.message, v.kind,
                  Some(GetOr(tc, "classname", suiteName)), Some(env), None))
  }

  // ---------------------------------------------------------------- document

  /** Every element below the given ones, in document order. */
  function Descendants(cs: seq<Element>): seq<Element>
    decreases cs
  {
    if cs == [] then []
    else [cs[0]] + Descendants(cs[0].children) + Descendants(cs[1..])
  }

  function WithTag(es: seq<Element>, tag: string): seq<Element>
  {
    Filter(es, (e: Element) => e.tag == tag)
  }

  /** The elements `findall(".//testsuite")` selects. */
  predicate IsSuite(e: Element)
  {
    e.tag == "testsuite"
  }

  /** Some element below the root is a `testsuite`. */
  predicate NestedSuites(root: Element)
  {
    exists d :: d in Descendants(root.children) && d.tag == "testsuite"
  }

  /** `root.findall('.//testsuite')`, else the root itself when it is a
      `testsuite`, else nothing. */
  function SuiteElements(root: Element): (ss: seq<Element>)
    ensures forall s :: s in ss <==>
              || (s in Descendants(root.children) && s.tag == "testsuite")
              || (!NestedSuites(root) && root.tag == "testsuite" && s == root)
    ensures NestedSuites(root) ==> InOrder(ss, Descendants(root.children))
    ensures NestedSuites(root) ==> |ss| == CountIf(Descendants(root.children), IsSuite)
    ensures !NestedSuites(root) ==> |ss| <= 1
    ensures ss == [] <==> !NestedSuites(root) && root.tag != "testsuite"
  {
    var ds := Descendants(root.children);
    var found := Filter(ds, IsSuite);
    FilterSpec(ds, IsSuite);
    FilterInOrder(ds, IsSuite);
    if found != [] then
      assert found[0] in found;
      found
    else if root.tag == "testsuite" then [root]
    else []
  }

  /** `testsuite.findall('testcase')`: the direct `testcase` children. */
  function TestCases(suite: Element): seq<Element>
  {
    WithTag(suite.children, "testcase")
  }

  function ParseCases(tcs: seq<Element>, suiteName: string, ts: int, env: string): Result<seq<TestResult>, ParseError>
  {
    if tcs == [] then Ok([])
    else
      var init :- ParseCases(tcs[..|tcs| - 1], suiteName, ts, env);
      var c :- ParseCase(tcs[|tcs| - 1], suiteName, ts, env);
      Ok(init + [c])
  }

  function ParseSuites(ss: seq<Element>, now: int, env: string): Result<Parsed, ParseError>
  {
    if ss == [] then Ok(([], []))
    else
      var init :- ParseSuites(ss[..|ss| - 1], now, env);
      var s :- ParseSuite(ss[|ss| - 1], now, env);
      var cs :- ParseCases(TestCases(ss[|ss| - 1]), s.suiteName, s.timestamp, env);
      Ok((init.0 + cs, init.1 + [s]))
  }

  /** Reference definition of `parse_junit_file` on a parsed document. */
  function ParseJUnit(root: Element, now: int, env: string): Result<Parsed, ParseError>
  {
    ParseSuites(SuiteElements(root), now, env)
  }

  // ---------------------------------------------------------------- the parser loop

  lemma {:induction false} ParseCasesErrSticks(tcs: seq<Element>, i: nat, suiteName: string, ts: int, env: string)
    requires i <= |tcs| && ParseCases(tcs[..i], suiteName, ts, env).Err?
    ensures ParseCases(tcs, suiteName, ts, env) == ParseCases(tcs[..i], suiteName, ts, env)
    decreases |tcs| - i
  {
    if i < |tcs| {
      assert tcs[..i + 1][..i] == tcs[..i];
      ParseCasesErrSticks(tcs, i + 1, suiteName, ts, env);
    } else {
      assert tcs[..i] == tcs;
    }
  }

  lemma {:induction false} ParseSuitesErrSticks(ss: seq<Element>, i: nat, now: int, env: string)
    requires i <= |ss| && ParseSuites(ss[..i], now, env).Err?
    ensures ParseSuites(ss, now, env) == ParseSuites(ss[..i], now, env)
    decreases |ss| - i
  {
    if i < |ss| {
      assert ss[..i + 1][..i] == ss[..i];
      ParseSuitesErrSticks(ss, i + 1, now, env);
    } else {
      assert ss[..i] == ss;
    }
  }

  lemma ParseCasesStep(tcs: seq<Element>, j: nat, suiteName: string, ts: int, env: string)
    requires j < |tcs| && ParseCases(tcs[..j], suiteName, ts, env).Ok?
    ensures ParseCases(tcs[..j + 1], suiteName, ts, env) ==
              match ParseCase(tcs[j], suiteName, ts, env)
              case Ok(c) => Ok(ParseCases(tcs[..j], suiteName, ts, env).value + [c])
              case Err(e) => Err(e)
  {
    assert tcs[..j + 1][..j] == tcs[..j];
  }

  lemma ParseSuitesStep(ss: seq<Element>, i: nat, now: int, env: string)
    requires i < |ss| && ParseSuites(ss[..i], now, env).Ok?
    ensures ParseSuites(ss[..i + 1], now, env) ==
              match ParseSuite(ss[i], now, env)
              case Err(e) => Err(e)
              case Ok(s) =>
                match ParseCases(TestCases(ss[i]), s.suiteName, s.timestamp, env)
                case Err(e) => Err(e)
                case Ok(cs) => Ok((ParseSuites(ss[..i], now, env).value.0 + cs,
                                   ParseSuites(ss[..i], now, env).value.1 + [s]))
  {
    assert ss[..i + 1][..i] == ss[..i];
  }

  /** The inner loop of `parse_junit_file`: one record per `testcase` of a
      suite, in order; the first non-numeric duration aborts. */
  method ParseSuiteCases(testcases: seq<Element>, name: string, ts: int, env: string)
    returns (r: Result<seq<TestResult>, ParseError>)
    ensures r == ParseCases(testcases, name, ts, env)
  {
    var parsed: seq<TestResult> := [];
    for j := 0 to |testcases|
      invariant ParseCases(testcases[..j], name, ts, env) == Ok(parsed)
    {
      ParseCasesStep(testcases, j, name, ts, env);
      var c := ParseCase(testcases[j], name, ts, env);
      if c.Err? {
        ParseCasesErrSticks(testcases, j + 1, name, ts, env);
        assert testcases[..|testcases|] == testcases;
        return Err(c.error);
      }
      parsed := parsed + [c.value];
    }
    assert testcases[..|testcases|] == testcases;
    return Ok(parsed);
  }

  /** `JUnitParser.parse_junit_file` after `ET.parse`: walks the suites and
      their cases, appending to `results` and `suite_results`; the first
      non-numeric count or duration aborts the whole file. */
  method ParseJUnitFile(root: Element, now: int, env: string) returns (r: Result<Parsed, ParseError>)
    ensures r == ParseJUnit(root, now, env)
  {
    var testsuites := SuiteElements(root);
    var results: seq<TestResult> := [];
    var suiteResults: seq<TestSuiteResult> := [];
    for i := 0 to |testsuites|
      invariant ParseSuites(testsuites[..i], now, env) == Ok((results, suiteResults))
    {
      ParseSuitesStep(testsuites, i, now, env);
      var suite := ParseSuite(testsuites[i], now, env);
      if suite.Err? {
        ParseSuitesErrSticks(testsuites, i + 1, now, env);
        return Err(suite.error);
      }
      var cases := ParseSuiteCases(TestCases(testsuites[i]), suite.value.suiteName, suite.value.timestamp, env);
      if cases.Err? {
        ParseSuitesErrSticks(testsuites, i + 1, now, env);
        return Err(cases.error);
      }
      results := results + cases.value;
      suiteResults := suiteResults + [suite.value];
    }
    assert testsuites[..|testsuites|] == testsuites;
    return Ok((results, suiteResults));
  }

  // ---------------------------------------------------------------- properties

  /** Each `testcase` element of the document paired with the index of its suite. */
  function CaseSlots(ss: seq<Element>): seq<(Element, nat)>
  {
    if ss == [] then []
    else
      var tcs := TestCases(ss[|ss| - 1]);
      CaseSlots(ss[..|ss| - 1]) + seq(|tcs|, j requires 0 <= j < |tcs| => (tcs[j], |ss| - 1))
  }

  lemma {:induction false} ParseCasesShape(tcs: seq<Element>, suiteName: string, ts: int, env: string)
    ensures ParseCases(tcs, suiteName, ts, env).Ok? <==> forall tc :: tc in tcs ==> RealReadable(tc, "time")
    ensures ParseCases(tcs, suiteName, ts, env).Ok? ==>
              |ParseCases(tcs, suiteName, ts, env).value| == |tcs|
              && forall j :: 0 <= j < |tcs| ==>
                   ParseCase(tcs[j], suiteName, ts, env) == Ok(ParseCases(tcs, suiteName, ts, env).value[j])
  {
    if tcs != [] {
      var p, last := tcs[..|tcs| - 1], tcs[|tcs| - 1];
      assert tcs == p + [last];
      ParseCasesShape(p, suiteName, ts, env);
      var init, c := ParseCases(p, suiteName, ts, env), ParseCase(last, suiteName, ts, env);
      assert (forall tc :: tc in tcs ==> RealReadable(tc, "time"))
             <==> (forall tc :: tc in p ==> RealReadable(tc, "time")) && RealReadable(last, "time");
      if init.Ok? && c.Ok? {
        var v := init.value + [c.value];
        assert ParseCases(tcs, suiteName, ts, env) == Ok(v);
        forall j | 0 <= j < |tcs| ensures ParseCase(tcs[j], suiteName, ts, env) == Ok(v[j]) {
          if j < |p| { assert tcs[j] == p[j]; }
        }
      }
    }
  }

  /** A document parses iff every suite's counts and every case's duration are
      readable: a bad timestamp never makes it fail. */
  lemma {:induction false} ParseSuitesOk(ss: seq<Element>, now: int, env: string)
    ensures ParseSuites(ss, now, env).Ok? <==>
              forall s :: s in ss ==> SuiteReadable(s) && forall tc :: tc in TestCases(s) ==> RealReadable(tc, "time")
  {
    if ss != [] {
      var p, last := ss[..|ss| - 1], ss[|ss| - 1];
      assert ss == p + [last];
      ParseSuitesOk(p, now, env);
      var suite := ParseSuite(last, now, env);
      var lastOk := SuiteReadable(last) && forall tc :: tc in TestCases(last) ==> RealReadable(tc, "time");
      if suite.Ok? {
        ParseCasesShape(TestCases(last), suite.value.suiteName, suite.value.timestamp, env);
      }
      assert ParseSuites(ss, now, env).Ok? <==> ParseSuites(p, now, env).Ok? && lastOk;
    }
  }

  lemma ParseSuitesSnoc(ss: seq<Element>, now: int, env: string)
    requires ss != [] && ParseSuites(ss, now, env).Ok?
    ensures ParseSuites(ss[..|ss| - 1], now, env).Ok?
    ensures ParseSuite(ss[|ss| - 1], now, env).Ok?
    ensures var s := ParseSuite(ss[|ss| - 1], now, env).value;
            var cs := ParseCases(TestCases(ss[|ss| - 1]), s.suiteName, s.timestamp, env);
            && cs.Ok?
            && ParseSuites(ss, now, env).value
               == (ParseSuites(ss[..|ss| - 1], now, env).value.0 + cs.value,
                   ParseSuites(ss[..|ss| - 1], now, env).value.1 + [s])
  {
  }

  /** Each suite element parses to the summary at its own position. */
  ghost predicate SuitesMatch(ss: seq<Element>, suites: seq<TestSuiteResult>, now: int, env: string)
  {
    |suites| == |ss| && forall i :: 0 <= i < |ss| ==> ParseSuite(ss[i], now, env) == Ok(suites[i])
  }

  /** Each case slot parses, under its own suite's name and timestamp, to the record at its position. */
  ghost predicate CasesMatch(slots: seq<(Element, nat)>, cases: seq<TestResult>, suites: seq<TestSuiteResult>, env: string)
  {
    |cases| == |slots|
    && forall k :: 0 <= k < |cases| ==>
         slots[k].1 < |suites|
         && ParseCase(slots[k].0, suites[slots[k].1].suiteName, suites[slots[k].1].timestamp, env) == Ok(cases[k])
  }

  /** Matching suites extend by the last element's own parse. */
  lemma SuitesMatchSnoc(ss: seq<Element>, suites0: seq<TestSuiteResult>, s: TestSuiteResult, now: int, env: string)
    requires ss != [] && SuitesMatch(ss[..|ss| - 1], suites0, now, env)
    requires ParseSuite(ss[|ss| - 1], now, env) == Ok(s)
    ensures SuitesMatch(ss, suites0 + [s], now, env)
  {
    var p, suites := ss[..|ss| - 1], suites0 + [s];
    forall i | 0 <= i < |ss| ensures ParseSuite(ss[i], now, env) == Ok(suites[i]) {
      if i < |p| {
        assert ss[i] == p[i];
      }
    }
  }

  lemma {:induction false} CasesMatchSnoc(ss: seq<Element>, cases0: seq<TestResult>, suites0: seq<TestSuiteResult>,
                                          s: TestSuiteResult, cs: seq<TestResult>, env: string)
    requires ss != [] && |suites0| == |ss| - 1
    requires CasesMatch(CaseSlots(ss[..|ss| - 1]), cases0, suites0, env)
    requires |cs| == |TestCases(ss[|ss| - 1])|
    requires forall j :: 0 <= j < |cs| ==>
               ParseCase(TestCases(ss[|ss| - 1])[j], s.suiteName, s.timestamp, env) == Ok(cs[j])
    ensures CasesMatch(CaseSlots(ss), cases0 + cs, suites0 + [s], env)
  {
    var p, tcs := ss[..|ss| - 1], TestCases(ss[|ss| - 1]);
    var cases, suites := cases0 + cs, suites0 + [s];
    var slots := CaseSlots(ss);
    assert slots == CaseSlots(p) + seq(|tcs|, j requires 0 <= j < |tcs| => (tcs[j], |ss| - 1));
    forall k | 0 <= k < |cases|
      ensures slots[k].1 < |suites|
              && ParseCase(slots[k].0, suites[slots[k].1].suiteName, suites[slots[k].1].timestamp, env) == Ok(cases[k])
    {
      if k < |cases0| {
        assert slots[k] == CaseSlots(p)[k];
        assert suites[slots[k].1] == suites0[slots[k].1];
      } else {
        assert slots[k] == (tcs[k - |cases0|], |ss| - 1);
      }
    }
  }

  /** A parsed document yields one summary per suite element and one record
      per `testcase` child, in document order, each record built from its
      element and its own suite's name and timestamp. */
  lemma {:induction false} ParseSuitesShape(ss: seq<Element>, now: int, env: string)
    requires ParseSuites(ss, now, env).Ok?
    ensures SuitesMatch(ss, ParseSuites(ss, now, env).value.1, now, env)
    ensures CasesMatch(CaseSlots(ss), ParseSuites(ss, now, env).value.0, ParseSuites(ss, now, env).value.1, env)
  {
    if ss != [] {
      var p, last := ss[..|ss| - 1], ss[|ss| - 1];
      ParseSuitesSnoc(ss, now, env);
      ParseSuitesShape(p, now, env);
      var cases0, suites0 := ParseSuites(p, now, env).value.0, ParseSuites(p, now, env).value.1;
      var s := ParseSuite(last, now, env).value;
      var tcs := TestCases(last);
      ParseCasesShape(tcs, s.suiteName, s.timestamp, env);
      var cs := ParseCases(tcs, s.suiteName, s.timestamp, env).value;
      SuitesMatchSnoc(ss, suites0, s, now, env);
      CasesMatchSnoc(ss, cases0, suites0, s, cs, env);
    }
  }

  /** A `<testsuite>` root without nested suites is read as a single suite. */
  lemma SingleSuiteRoot(root: Element, now: int, env: string)
    requires root.tag == "testsuite"
    requires forall d :: d in Descendants(root.children) ==> d.tag != "testsuite"
    ensures SuiteElements(root) == [root]
  {
    assert !NestedSuites(root);
  }
}
