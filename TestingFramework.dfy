/**
 * The voice-command testing framework of `testing_framework.rs`: test
 * cases with a mock execution, suites, and a run that tallies every case
 * as passed, failed or skipped.
 *
 * The `TestSuite` trait has one implementation, the basic suite, whose
 * setup and cleanup always succeed; a suite is therefore a value here.
 */
module TestingFramework {
  import opened Common
  import opened VoiceTypes

  datatype TestCategory = Basic | AudioTests | SttTests | SystemTests | Performance | Integration | ErrorHandling

  datatype TestStatus = Passed | Failed | Skipped | Error

  datatype TestExpectedResult = Success(detail: Option<string>) | Failure(reason: string) | Timeout | ExpectedError(reason: string)

  datatype TestCase = TestCase(name: string, description: string, category: TestCategory, expected_result: TestExpectedResult)

  datatype TestError =
    | ExecutionFailed(msg: string)
    | SetupFailed(msg: string)
    | CleanupFailed(msg: string)
    | TimedOut(msg: string)
    | ValidationFailed(msg: string)
    | ConfigurationError(msg: string)

  /** The `Display` text of an error. */
  function ErrorText(e: TestError): string
  {
    match e
    case ExecutionFailed(m) => "Test execution failed: " + m
    case SetupFailed(m) => "Test setup failed: " + m
    case CleanupFailed(m) => "Test cleanup failed: " + m
    case TimedOut(m) => "Test timeout: " + m
    case ValidationFailed(m) => "Test validation failed: " + m
    case ConfigurationError(m) => "Configuration error: " + m
  }

  /** `TestResult` without its clock readings. */
  datatype TestResult = TestResult(
    test_name: string,
    test_category: TestCategory,
    status: TestStatus,
    command_result: Option<CommandResult>,
    error_message: Option<string>)

  /** `TestRunResults` without its run id and clock readings. */
  datatype TestRunResults = TestRunResults(
    total_tests: nat,
    passed_tests: nat,
    failed_tests: nat,
    skipped_tests: nat,
    test_results: seq<TestResult>)

  datatype TestFrameworkConfig = TestFrameworkConfig(
    parallel_execution: bool,
    max_parallel_tests: nat,
    timeout_multiplier: real,
    retry_failed_tests: bool,
    max_retries: nat,
    collect_performance_data: bool,
    generate_reports: bool,
    output_directory: string)

  function DefaultFrameworkConfig(): TestFrameworkConfig
  {
    TestFrameworkConfig(true, 4, 1.0, false, 0, true, true, "./test_results")
  }

  /** `TestCase::new`: a case expected to succeed. */
  function NewTestCase(name: string, description: string, category: TestCategory): (t: TestCase)
    ensures t.name == name && t.description == description && t.category == category
    ensures t.expected_result == Success(None)
  {
    TestCase(name, description, category, Success(None))
  }

  /** The six case names the mock execution knows. */
  predicate KnownCase(name: string)
  {
    name in {"enable_vad_command", "disable_vad_command", "set_sensitivity_command",
             "toggle_instant_output_command", "show_status_command", "show_help_command"}
  }

  /** `TestCase::execute`: a mock success for the known names, an execution failure otherwise. */
  function Execute(t: TestCase): (r: Result<TestResult, TestError>)
    ensures r.Ok? <==> KnownCase(t.name)
    ensures r.Ok? ==> r.value.status == Passed && r.value.test_name == t.name && r.value.test_category == t.category
    ensures r.Err? ==> r.error == TestError.ExecutionFailed("Unknown test case")
  {
    if KnownCase(t.name) then
      var message := "Test command '" + t.name + "' executed successfully";
      var cmd := CommandResult(true, message, None);
      Ok(TestResult(t.name, t.category, if cmd.success then Passed else Failed, Some(cmd), None))
    else Err(TestError.ExecutionFailed("Unknown test case"))
  }

  /** The result a run records for one case: an execution error becomes a result with status Error. */
  function CaseResult(t: TestCase): (r: TestResult)
    ensures r.test_name == t.name && r.test_category == t.category
    ensures r.status == (if KnownCase(t.name) then Passed else Error)
  {
    match Execute(t)
    case Ok(result) => result
    case Err(e) => TestResult(t.name, t.category, Error, None, Some(ErrorText(e)))
  }

  datatype Suite = Suite(name: string, description: string, test_cases: seq<TestCase>)

  /** `BasicVoiceCommandTestSuite::new`. */
  function BasicSuite(): Suite
  {
    Suite("Basic Voice Commands", "Basic voice command functionality tests", [
      NewTestCase("enable_vad_command", "Test enabling VAD", Basic),
      NewTestCase("disable_vad_command", "Test disabling VAD", Basic),
      NewTestCase("set_sensitivity_command", "Test setting sensitivity", Basic),
      NewTestCase("toggle_instant_output_command", "Test toggling instant output", Basic),
      NewTestCase("show_status_command", "Test showing status", SystemTests),
      NewTestCase("show_help_command", "Test showing help", SystemTests)])
  }

  /** The basic suite has six cases, all with a name the mock execution knows. */
  lemma BasicSuiteShape()
    ensures BasicSuite().name == "Basic Voice Commands"
    ensures |BasicSuite().test_cases| == 6
    ensures forall i :: 0 <= i < 6 ==> KnownCase(BasicSuite().test_cases[i].name)
  {
  }

  lemma {:induction false} AllKnownCount(cases: seq<TestCase>)
    requires forall i :: 0 <= i < |cases| ==> KnownCase(cases[i].name)
    ensures CountKnown(cases) == |cases|
  {
    if |cases| > 0 {
      AllKnownCount(cases[..|cases| - 1]);
    }
  }

  /** The cases of the suites, suite after suite. */
  function AllCases(suites: seq<Suite>): seq<TestCase>
  {
    if |suites| == 0 then [] else AllCases(suites[..|suites| - 1]) + suites[|suites| - 1].test_cases
  }

  function ResultsOf(cases: seq<TestCase>): (r: seq<TestResult>)
    ensures |r| == |cases|
    ensures forall i :: 0 <= i < |r| ==> r[i] == CaseResult(cases[i])
  {
    if |cases| == 0 then [] else ResultsOf(cases[..|cases| - 1]) + [CaseResult(cases[|cases| - 1])]
  }

  /** The tally a status counts towards: an error counts as a failure. */
  datatype Tally = PassedTally | FailedTally | SkippedTally

  function TallyOf(status: TestStatus): Tally
  {
    match status
    case Passed => PassedTally
    case Failed => FailedTally
    case Skipped => SkippedTally
    case Error => FailedTally
  }

  function CountStatus(rs: seq<TestResult>, t: Tally): (n: nat)
    ensures n <= |rs|
  {
    if |rs| == 0 then 0 else CountStatus(rs[..|rs| - 1], t) + (if TallyOf(rs[|rs| - 1].status) == t then 1 else 0)
  }

  lemma CountStatusSnoc(rs: seq<TestResult>, x: TestResult, t: Tally)
    ensures CountStatus(rs + [x], t) == CountStatus(rs, t) + (if TallyOf(x.status) == t then 1 else 0)
  {
    assert (rs + [x])[..|rs|] == rs;
  }

  lemma {:induction false} CountStatusAppend(a: seq<TestResult>, b: seq<TestResult>, t: Tally)
    ensures CountStatus(a + b, t) == CountStatus(a, t) + CountStatus(b, t)
  {
    if |b| > 0 {
      var b0 := b[..|b| - 1];
      CountStatusAppend(a, b0, t);
      assert a + b == (a + b0) + [b[|b| - 1]];
      CountStatusSnoc(a + b0, b[|b| - 1], t);
    } else {
      assert a + b == a;
    }
  }

  lemma {:induction false} ResultsOfAppend(a: seq<TestCase>, b: seq<TestCase>)
    ensures ResultsOf(a + b) == ResultsOf(a) + ResultsOf(b)
  {
  }

  /** One suite's turn in `run_all_tests`: its results are appended and tallied. */
  method RunSuiteCases(ghost before: seq<TestCase>, test_cases: seq<TestCase>, all_results: seq<TestResult>,
                       passed_tests: nat, failed_tests: nat, skipped_tests: nat)
    returns (all': seq<TestResult>, passed': nat, failed': nat, skipped': nat)
    requires all_results == ResultsOf(before)
    requires passed_tests == CountStatus(all_results, PassedTally)
    requires failed_tests == CountStatus(all_results, FailedTally)
    requires skipped_tests == CountStatus(all_results, SkippedTally)
    ensures all' == ResultsOf(before + test_cases)
    ensures passed' == CountStatus(all', PassedTally)
    ensures failed' == CountStatus(all', FailedTally)
    ensures skipped' == CountStatus(all', SkippedTally)
  {
    var results, passed, failed, skipped := RunCases(test_cases);
    SuiteAdded(before, test_cases, all_results, results);
    all' := all_results + results;
    passed', failed', skipped' := passed_tests + passed, failed_tests + failed, skipped_tests + skipped;
  }

  lemma AllCasesStep(suites: seq<Suite>, s: nat)
    requires s < |suites|
    ensures AllCases(suites[..s + 1]) == AllCases(suites[..s]) + suites[s].test_cases
  {
    assert suites[..s + 1][..s] == suites[..s];
  }

  /** Appending one suite's results keeps the results and the three tallies in step. */
  lemma SuiteAdded(before: seq<TestCase>, cases: seq<TestCase>, rs: seq<TestResult>, more: seq<TestResult>)
    requires rs == ResultsOf(before) && more == ResultsOf(cases)
    ensures rs + more == ResultsOf(before + cases)
    ensures CountStatus(rs + more, PassedTally) == CountStatus(rs, PassedTally) + CountStatus(more, PassedTally)
    ensures CountStatus(rs + more, FailedTally) == CountStatus(rs, FailedTally) + CountStatus(more, FailedTally)
    ensures CountStatus(rs + more, SkippedTally) == CountStatus(rs, SkippedTally) + CountStatus(more, SkippedTally)
  {
    ResultsOfAppend(before, cases);
    CountStatusAppend(rs, more, PassedTally);
    CountStatusAppend(rs, more, FailedTally);
    CountStatusAppend(rs, more, SkippedTally);
  }

  /** Every result is counted exactly once: the three tallies add up to the results. */
  lemma {:induction false} TalliesPartition(rs: seq<TestResult>)
    ensures CountStatus(rs, PassedTally) + CountStatus(rs, FailedTally) + CountStatus(rs, SkippedTally) == |rs|
  {
    if |rs| > 0 {
      var init := rs[..|rs| - 1];
      TalliesPartition(init);
      assert rs == init + [rs[|rs| - 1]];
      CountStatusSnoc(init, rs[|rs| - 1], PassedTally);
      CountStatusSnoc(init, rs[|rs| - 1], FailedTally);
      CountStatusSnoc(init, rs[|rs| - 1], SkippedTally);
    }
  }

  /** The number of cases with a known name. */
  function CountKnown(cases: seq<TestCase>): nat
  {
    if |cases| == 0 then 0 else CountKnown(cases[..|cases| - 1]) + (if KnownCase(cases[|cases| - 1].name) then 1 else 0)
  }

  /** A run never skips, and passes exactly the cases with a known name. */
  lemma {:induction false} ResultsNeverSkipped(cases: seq<TestCase>)
    ensures CountStatus(ResultsOf(cases), SkippedTally) == 0
    ensures CountStatus(ResultsOf(cases), PassedTally) == CountKnown(cases)
    ensures CountStatus(ResultsOf(cases), FailedTally) == |cases| - CountKnown(cases)
  {
    if |cases| > 0 {
      var init := cases[..|cases| - 1];
      ResultsNeverSkipped(init);
      var x := CaseResult(cases[|cases| - 1]);
      assert ResultsOf(cases) == ResultsOf(init) + [x];
      CountStatusSnoc(ResultsOf(init), x, PassedTally);
      CountStatusSnoc(ResultsOf(init), x, FailedTally);
      CountStatusSnoc(ResultsOf(init), x, SkippedTally);
    }
  }

  /** The inner loop of `run_all_tests`: the cases of one suite, each on a fresh engine. */
  method RunCases(test_cases: seq<TestCase>) returns (results: seq<TestResult>, passed: nat, failed: nat, skipped: nat)
    ensures results == ResultsOf(test_cases)
    ensures passed == CountStatus(results, PassedTally)
    ensures failed == CountStatus(results, FailedTally)
    ensures skipped == CountStatus(results, SkippedTally)
  {
    results := [];
    var p, f, k := 0, 0, 0;
    for j := 0 to |test_cases|
      invariant results == ResultsOf(test_cases[..j])
      invariant p == CountStatus(results, PassedTally)
      invariant f == CountStatus(results, FailedTally)
      invariant k == CountStatus(results, SkippedTally)
    {
      var result := CaseResult(test_cases[j]);
      match result.status {
        case Passed => p := p + 1;
        case Failed => f := f + 1;
        case Skipped => k := k + 1;
        case Error => f := f + 1;
      }
      CountStatusSnoc(results, result, PassedTally);
      CountStatusSnoc(results, result, FailedTally);
      CountStatusSnoc(results, result, SkippedTally);
      assert test_cases[..j + 1][..j] == test_cases[..j];
      results := results + [result];
    }
    assert test_cases[..|test_cases|] == test_cases;
    passed, failed, skipped := p, f, k;
  }

  /** `VoiceCommandTestFramework`. */
  class VoiceCommandTestFramework {
    var test_suites: map<string, Suite>
    var config: TestFrameworkConfig

    /** `VoiceCommandTestFramework::new`. */
    constructor (config: TestFrameworkConfig)
      ensures test_suites == map[] && this.config == config
    {
      test_suites := map[];
      this.config := config;
    }

    /** `register_test_suite`: the suite is stored under its name, replacing any namesake. */
    method RegisterTestSuite(suite: Suite)
      modifies this
      ensures test_suites == old(test_suites)[suite.name := suite]
      ensures config == old(config)
    {
      test_suites := test_suites[suite.name := suite];
    }

    /** The suites in the map's iteration order `order`. */
    function SuitesIn(order: seq<string>): (r: seq<Suite>)
      reads this
      requires forall k :: k in order ==> k in test_suites
      ensures |r| == |order|
      ensures forall i :: 0 <= i < |r| ==> r[i] == test_suites[order[i]]
    {
      if |order| == 0 then [] else SuitesIn(order[..|order| - 1]) + [test_suites[order[|order| - 1]]]
    }

    /**
     * `run_all_tests`: every case of every suite runs on a fresh engine and
     * adds one result; `order` is the iteration order of the suite map.
     */
    method RunAllTests(order: seq<string>) returns (r: Result<TestRunResults, TestError>)
      requires IsOrderOf(order, test_suites.Keys)
      ensures r.Ok?
      ensures r.value.test_results == ResultsOf(AllCases(SuitesIn(order)))
      ensures r.value.total_tests == |AllCases(SuitesIn(order))|
      ensures r.value.passed_tests == CountStatus(r.value.test_results, PassedTally)
      ensures r.value.failed_tests == CountStatus(r.value.test_results, FailedTally)
      ensures r.value.skipped_tests == CountStatus(r.value.test_results, SkippedTally)
      ensures r.value.passed_tests + r.value.failed_tests + r.value.skipped_tests == r.value.total_tests
    {
      ghost var suites := SuitesIn(order);
      var all_results: seq<TestResult> := [];
      var total_tests := 0;
      var passed_tests := 0;
      var failed_tests := 0;
      var skipped_tests := 0;
      for s := 0 to |order|
        invariant all_results == ResultsOf(AllCases(suites[..s]))
        invariant total_tests == |AllCases(suites[..s])|
        invariant passed_tests == CountStatus(all_results, PassedTally)
        invariant failed_tests == CountStatus(all_results, FailedTally)
        invariant skipped_tests == CountStatus(all_results, SkippedTally)
      {
        var suite := test_suites[order[s]];
        var test_cases := suite.test_cases;
        total_tests := total_tests + |test_cases|;
        AllCasesStep(suites, s);
        all_results, passed_tests, failed_tests, skipped_tests :=
          RunSuiteCases(AllCases(suites[..s]), test_cases, all_results, passed_tests, failed_tests, skipped_tests);
      }
      assert suites[..|order|] == suites;
      TalliesPartition(all_results);
      r := Ok(TestRunResults(total_tests, passed_tests, failed_tests, skipped_tests, all_results));
    }
  }

  /** `create_test_framework`: the default configuration and the basic suite. */
  method CreateTestFramework() returns (f: VoiceCommandTestFramework)
    ensures fresh(f)
    ensures f.test_suites == map["Basic Voice Commands" := BasicSuite()]
    ensures f.config == DefaultFrameworkConfig()
  {
    f := new VoiceCommandTestFramework(DefaultFrameworkConfig());
    f.RegisterTestSuite(BasicSuite());
  }

  /** The created framework holds one suite, and running it passes all six cases. */
  method ComprehensiveRunScenario() returns (suites: nat, r: Result<TestRunResults, TestError>)
    ensures suites == 1
    ensures r.Ok? && r.value.total_tests == 6 && r.value.passed_tests == 6
    ensures r.value.failed_tests == 0 && r.value.skipped_tests == 0
  {
    var name := "Basic Voice Commands";
    var f := CreateTestFramework();
    suites := |f.test_suites|;
    SingleKeyOrder(f.test_suites, name, BasicSuite());
    r := f.RunAllTests([name]);
    assert f.SuitesIn([name]) == [BasicSuite()];
    BasicRunCounts();
  }

  /** A one-entry map is visited in the one order there is. */
  lemma SingleKeyOrder(m: map<string, Suite>, k: string, v: Suite)
    requires m == map[k := v]
    ensures IsOrderOf([k], m.Keys) && |m| == 1
  {
    assert m.Keys == {k};
  }

  /** Running the basic suite alone: six results, all passed. */
  lemma BasicRunCounts()
    ensures |AllCases([BasicSuite()])| == 6
    ensures CountStatus(ResultsOf(AllCases([BasicSuite()])), PassedTally) == 6
    ensures CountStatus(ResultsOf(AllCases([BasicSuite()])), FailedTally) == 0
    ensures CountStatus(ResultsOf(AllCases([BasicSuite()])), SkippedTally) == 0
  {
    var basic := BasicSuite();
    assert AllCases([basic]) == basic.test_cases by {
      assert [basic][..0] == [];
    }
    ResultsNeverSkipped(basic.test_cases);
    BasicSuiteShape();
    AllKnownCount(basic.test_cases);
  }
}
