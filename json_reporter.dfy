/**
 * The end-to-end test dashboard reporter (`e2e/reporters/json-reporter.ts`).
 * It groups finished tests by suite, keeps per-suite counters, and at the
 * end of a run writes a summary with a pass rate and appends the run to a
 * history of at most 50 runs.
 *
 * Clocks, the Playwright configuration, the Node version and the history
 * file are parameters: `onEnd` receives the current time, the first
 * project's settings, and the stored history as it parses (`None` when the
 * file is missing or is not JSON). Console output is not modelled.
 */
module JsonReporter {
  import opened Wrappers

  datatype Status = Passed | Failed | Skipped | TimedOut | Interrupted

  datatype TestResultData = TestResultData(
    name: string,
    file: string,
    status: Status,
    duration: int,
    error: Option<string>,
    retry: nat)

  datatype SuiteResultData = SuiteResultData(
    name: string,
    tests: seq<TestResultData>,
    passed: nat,
    failed: nat,
    skipped: nat)

  const DefaultSuite := "Default Suite"

  /** `test.parent.title || 'Default Suite'` */
  function SuiteName(parentTitle: string): string {
    if parentTitle == "" then DefaultSuite else parentTitle
  }

  function EmptySuite(name: string): SuiteResultData {
    SuiteResultData(name, [], 0, 0, 0)
  }

  /** The record of one finished test: the error message is kept only for a failure that carries one. */
  function TestData(title: string, file: string, status: Status, duration: int, error: Option<string>, retry: nat)
    : (r: TestResultData)
    ensures r.error.Some? <==> status == Failed && error.Some?
    ensures r.error.Some? ==> r.error == error
    ensures r.name == title && r.status == status
  {
    TestResultData(title, file, status, duration, if status == Failed && error.Some? then error else None, retry)
  }

  // ---------------------------------------------------------------------
  // Counters

  /** How many of the tests ended with `status`. */
  function Count(tests: seq<TestResultData>, status: Status): nat
    decreases |tests|
  {
    if |tests| == 0 then 0
    else Count(tests[..|tests| - 1], status) + (if tests[|tests| - 1].status == status then 1 else 0)
  }

  /** The counters agree with the tests: failures include time-outs, interruptions count nowhere. */
  predicate Tallied(s: SuiteResultData) {
    s.passed == Count(s.tests, Passed)
    && s.failed == Count(s.tests, Failed) + Count(s.tests, TimedOut)
    && s.skipped == Count(s.tests, Skipped)
  }

  lemma CountSnoc(tests: seq<TestResultData>, t: TestResultData, status: Status)
    ensures Count(tests + [t], status) == Count(tests, status) + (if t.status == status then 1 else 0)
  {
    assert (tests + [t])[..|tests|] == tests;
  }

  /** The five statuses partition the tests. */
  lemma {:induction false} CountsPartition(tests: seq<TestResultData>)
    ensures Count(tests, Passed) + Count(tests, Failed) + Count(tests, TimedOut) + Count(tests, Skipped)
            + Count(tests, Interrupted) == |tests|
    decreases |tests|
  {
    if |tests| > 0 {
      CountsPartition(tests[..|tests| - 1]);
    }
  }

  /** A suite never counts more outcomes than it has tests; the gap is its interrupted tests. */
  lemma TalliedWithin(s: SuiteResultData)
    requires Tallied(s)
    ensures s.passed + s.failed + s.skipped == |s.tests| - Count(s.tests, Interrupted)
    ensures s.passed + s.failed + s.skipped <= |s.tests|
  {
    CountsPartition(s.tests);
  }

  /** One finished test appended to its suite, with the counter its status names bumped. */
  function Record(suite: SuiteResultData, data: TestResultData): (r: SuiteResultData)
    ensures r.name == suite.name && r.tests == suite.tests + [data]
  {
    var s := suite.(tests := suite.tests + [data]);
    match data.status
    case Passed => s.(passed := s.passed + 1)
    case Failed => s.(failed := s.failed + 1)
    case TimedOut => s.(failed := s.failed + 1)
    case Skipped => s.(skipped := s.skipped + 1)
    case Interrupted => s
  }

  /** Recording a test keeps every counter equal to the number of tests with its statuses. */
  lemma RecordTallied(suite: SuiteResultData, data: TestResultData)
    requires Tallied(suite)
    ensures Tallied(Record(suite, data))
  {
    CountSnoc(suite.tests, data, Passed);
    CountSnoc(suite.tests, data, Failed);
    CountSnoc(suite.tests, data, TimedOut);
    CountSnoc(suite.tests, data, Skipped);
  }

  // ---------------------------------------------------------------------
  // Summary

  datatype Summary = Summary(total: nat, passed: nat, failed: nat, skipped: nat, passRate: int)

  datatype Totals = Totals(total: nat, passed: nat, failed: nat, skipped: nat)

  /** The `reduce` over the suites: each field the sum of the suites' values. */
  function TotalsOf(suites: seq<SuiteResultData>): Totals
    decreases |suites|
  {
    if |suites| == 0 then Totals(0, 0, 0, 0)
    else
      var t := TotalsOf(suites[..|suites| - 1]);
      var s := suites[|suites| - 1];
      Totals(t.total + |s.tests|, t.passed + s.passed, t.failed + s.failed, t.skipped + s.skipped)
  }

  /** When every suite is tallied, the run counts no more outcomes than tests. */
  lemma {:induction false} TotalsWithin(suites: seq<SuiteResultData>)
    requires forall i :: 0 <= i < |suites| ==> Tallied(suites[i])
    ensures TotalsOf(suites).passed + TotalsOf(suites).failed + TotalsOf(suites).skipped <= TotalsOf(suites).total
    decreases |suites|
  {
    if |suites| > 0 {
      TotalsWithin(suites[..|suites| - 1]);
      TalliedWithin(suites[|suites| - 1]);
    }
  }

  /**
   * `Math.round(passed / total * 100)`, 0 for an empty run, computed exactly:
   * the nearest integer to 100 * passed / total, halves rounded up.
   */
  function PassRate(passed: nat, total: nat): (rate: int)
    ensures total == 0 ==> rate == 0
    ensures total > 0 ==> 2 * total * rate <= 200 * passed + total < 2 * total * rate + 2 * total
    ensures passed <= total ==> 0 <= rate <= 100
  {
    if total == 0 then 0
    else
      var rate := (200 * passed + total) / (2 * total);
      RoundedBounds(passed, total, rate);
      rate
  }

  lemma RoundedBounds(passed: nat, total: nat, rate: int)
    requires total > 0 && rate == (200 * passed + total) / (2 * total)
    ensures 2 * total * rate <= 200 * passed + total < 2 * total * rate + 2 * total
    ensures passed <= total ==> 0 <= rate <= 100
  {
    var n, d := 200 * passed + total, 2 * total;
    DivBounds(n, d);
    if passed <= total && rate > 100 {
      MulAtLeast(d, rate, 101);
    }
  }

  lemma DivBounds(n: nat, d: nat)
    requires d > 0
    ensures 0 <= n / d && d * (n / d) <= n < d * (n / d) + d
  {
  }

  lemma MulAtLeast(d: nat, x: int, y: int)
    requires x >= y
    ensures d * x >= d * y
  {
  }

  lemma PassRateExtremes(passed: nat, total: nat)
    requires total > 0
    ensures passed == 0 ==> PassRate(passed, total) == 0
    ensures passed == total ==> PassRate(passed, total) == 100
  {
    var rate := PassRate(passed, total);
    var d := 2 * total;
    if passed == 0 && rate > 0 {
      MulAtLeast(d, rate, 1);
    }
    if passed == total {
      if rate <= 99 {
        MulAtLeast(d, 99, rate);
      }
    }
  }

  function SummaryOf(suites: seq<SuiteResultData>): Summary {
    var t := TotalsOf(suites);
    Summary(t.total, t.passed, t.failed, t.skipped, PassRate(t.passed, t.total))
  }

  // ---------------------------------------------------------------------
  // End of run

  datatype Project = Project(name: string, baseURL: Option<string>)

  datatype Environment = Environment(browser: string, baseURL: string, node: string)

  datatype DashboardData = DashboardData(
    timestamp: string,
    duration: int,
    summary: Summary,
    suites: seq<SuiteResultData>,
    environment: Environment)

  /** `projects[0]?.name || 'unknown'` and `projects[0]?.use?.baseURL || 'http://localhost:3000'` */
  function EnvironmentOf(firstProject: Option<Project>, node: string): Environment {
    Environment(
      if firstProject.Some? && firstProject.value.name != "" then firstProject.value.name else "unknown",
      if firstProject.Some? && firstProject.value.baseURL.Some? && firstProject.value.baseURL.value != ""
      then firstProject.value.baseURL.value else "http://localhost:3000",
      node)
  }

  /** `if (history.length > n) history = history.slice(-n)` */
  function KeepLast<T>(history: seq<T>, n: nat): (r: seq<T>)
    ensures |r| == if |history| <= n then |history| else n
    ensures r == history[|history| - |r|..]
  {
    if |history| > n then history[|history| - n..] else assert history == history[0..]; history
  }

  /** The history after a run: the stored runs, or none, with this run last, cut to the 50 newest. */
  function NextHistory(stored: Option<seq<DashboardData>>, data: DashboardData): (h: seq<DashboardData>)
    ensures |h| == (if stored.None? then 1 else if |stored.value| + 1 < 50 then |stored.value| + 1 else 50)
    ensures h[|h| - 1] == data
    ensures stored.Some? && |stored.value| < 50 ==> h == stored.value + [data]
  {
    var previous := if stored.None? then [] else stored.value;
    KeepLast(previous + [data], 50)
  }

  /** Each run leaves at most 50 runs, the newest last, preceded by the newest of the runs before it. */
  lemma HistoryBounded(stored: Option<seq<DashboardData>>, data: DashboardData)
    requires stored.Some?
    ensures |NextHistory(stored, data)| <= 50
    ensures NextHistory(stored, data)[..|NextHistory(stored, data)| - 1]
            == stored.value[|stored.value| - (|NextHistory(stored, data)| - 1)..]
  {
    var h := NextHistory(stored, data);
    var all := stored.value + [data];
    var k := |all| - |h|;
    assert h[..|h| - 1] == all[k..|all| - 1];
    assert all[k..|all| - 1] == stored.value[k..];
  }

  // ---------------------------------------------------------------------
  // The reporter

  class JsonDashboardReporter {
    var results: map<string, SuiteResultData>
    /** The suite names in the order they were first seen, the iteration order of the source's `Map`. */
    var order: seq<string>
    var startTime: int

    ghost predicate Valid()
      reads this
    {
      Consistent(results, order)
    }

    constructor ()
      ensures Valid() && results == map[] && order == [] && startTime == 0
    {
      results := map[];
      order := [];
      startTime := 0;
    }

    /** `onBegin`: the run starts at `now`. */
    method OnBegin(now: int)
      requires Valid()
      modifies this
      ensures Valid() && startTime == now && results == old(results) && order == old(order)
    {
      startTime := now;
    }

    /**
     * `onTestEnd`: the suite named by the parent title (or "Default Suite")
     * is created empty on its first test; the test is appended to it and
     * the counter its status names is bumped.
     */
    method OnTestEnd(parentTitle: string, title: string, file: string, status: Status,
                     duration: int, error: Option<string>, retry: nat)
      requires Valid()
      modifies this
      ensures Valid()
      ensures var name := SuiteName(parentTitle);
        var before := if name in old(results) then old(results)[name] else EmptySuite(name);
        results == old(results)[name := Record(before, TestData(title, file, status, duration, error, retry))]
      ensures order == if SuiteName(parentTitle) in old(results) then old(order) else old(order) + [SuiteName(parentTitle)]
      ensures startTime == old(startTime)
    {
      var suiteName := SuiteName(parentTitle);
      var testData := TestData(title, file, status, duration, error, retry);
      if suiteName in results {
        var suite := Record(results[suiteName], testData);
        RecordTallied(results[suiteName], testData);
        ConsistentPut(results, order, suiteName, suite);
        results := results[suiteName := suite];
      } else {
        var suite := Record(EmptySuite(suiteName), testData);
        RecordTallied(EmptySuite(suiteName), testData);
        ConsistentPut(results, order, suiteName, suite);
        results := results[suiteName := suite];
        order := order + [suiteName];
      }
    }

    /** `Array.from(this.results.values())` */
    function Suites(): (suites: seq<SuiteResultData>)
      reads this
      requires Valid()
      ensures |suites| == |order|
      ensures forall i :: 0 <= i < |order| ==> suites[i] == results[order[i]] && Tallied(suites[i])
    {
      SuitesOf(results, order)
    }

    /** `onEnd`: the dashboard of this run and the history to store. */
    method OnEnd(now: int, timestamp: string, firstProject: Option<Project>, node: string,
                 stored: Option<seq<DashboardData>>)
      returns (data: DashboardData, history: seq<DashboardData>)
      requires Valid()
      ensures data == DashboardData(timestamp, now - startTime, SummaryOf(Suites()), Suites(),
                                    EnvironmentOf(firstProject, node))
      ensures history == NextHistory(stored, data)
    {
      var suites := Suites();
      data := DashboardData(timestamp, now - startTime, SummaryOf(suites), suites, EnvironmentOf(firstProject, node));
      history := NextHistory(stored, data);
    }
  }

  /** Every suite appears once in the order, under its own name, with its counters tallied. */
  ghost predicate Consistent(results: map<string, SuiteResultData>, order: seq<string>) {
    (forall i, j :: 0 <= i < j < |order| ==> order[i] != order[j])
    && (forall k :: k in results <==> k in order)
    && (forall k :: k in results ==> results[k].name == k && Tallied(results[k]))
  }

  /** Storing a tallied suite under its own name keeps the map consistent, a new name joining the end of the order. */
  lemma ConsistentPut(results: map<string, SuiteResultData>, order: seq<string>, name: string, s: SuiteResultData)
    requires Consistent(results, order) && s.name == name && Tallied(s)
    ensures Consistent(results[name := s], if name in results then order else order + [name])
  {
    if name !in results {
      var order' := order + [name];
      forall i, j | 0 <= i < j < |order'|
        ensures order'[i] != order'[j]
      {
        if j == |order| {
          assert order'[i] == order[i] && order[i] in results;
        }
      }
    }
  }

  function SuitesOf(results: map<string, SuiteResultData>, order: seq<string>): (suites: seq<SuiteResultData>)
    requires forall i :: 0 <= i < |order| ==> order[i] in results
    ensures |suites| == |order|
    ensures forall i :: 0 <= i < |order| ==> suites[i] == results[order[i]]
    decreases |order|
  {
    if |order| == 0 then [] else [results[order[0]]] + SuitesOf(results, order[1..])
  }

  /** The dashboard summary counts no more outcomes than tests, and its pass rate is a percentage. */
  lemma SummaryWithin(suites: seq<SuiteResultData>)
    requires forall i :: 0 <= i < |suites| ==> Tallied(suites[i])
    ensures SummaryOf(suites).passed + SummaryOf(suites).failed + SummaryOf(suites).skipped <= SummaryOf(suites).total
    ensures 0 <= SummaryOf(suites).passRate <= 100
    ensures SummaryOf(suites).total == 0 ==> SummaryOf(suites).passRate == 0
  {
    TotalsWithin(suites);
  }
}
