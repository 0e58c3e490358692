/** The per-browser report and the steps that build it: a fresh report at
    browser start, one test case per spec, the summary at completion. */
module Report {
  import opened Wrappers
  import opened JsText
  import opened Karma
  import opened Formatting

  datatype Failure = Failure(error: string)

  /** One spec. `skipped` false stands for an absent `skipped` field;
      `failures` is present only for a spec that did not succeed. */
  datatype TestCase = TestCase(
    name: string,
    time: real,            // seconds
    className: string,
    skipped: bool,
    failures: Option<seq<Failure>>)

  /** The aggregate fields written at browser completion. */
  datatype Summary = Summary(
    tests: int,
    errors: int,
    failures: int,
    time: real,            // seconds
    systemOut: string,
    systemErr: string)

  /** The `testSuite` object of one browser; `summary` is absent until the browser completes. */
  datatype TestSuite = TestSuite(
    name: string,
    package: string,
    timestamp: string,
    hostname: string,
    properties: map<string, string>,
    testCases: seq<TestCase>,
    summary: Option<Summary>)

  const FULL_NAME_KEY := "browser.fullName"

  /** An ISO-8601 time cut to whole seconds (its first 19 characters). */
  function Timestamp(iso: string): string
  {
    Prefix(iso, 19)
  }

  /** A time in milliseconds, absent meaning 0, expressed in seconds. */
  function Seconds(ms: Option<int>): real
  {
    (ms.GetOr(0) as real) / 1000.0
  }

  // ------------------------------------------------------------- browser start

  /** The properties of a fresh report: the browser's full name, then every
      configured property, which wins over it on a clash of names. */
  function SuiteProperties(fullName: string, extra: map<string, string>): (r: map<string, string>)
    ensures r.Keys == {FULL_NAME_KEY} + extra.Keys
    ensures forall k :: k in r ==> r[k] == if k in extra then extra[k] else fullName
  {
    map[FULL_NAME_KEY := fullName] + extra
  }

  /** Builds the property object key by key, as the for-in loop over the configured properties does. */
  method BuildProperties(fullName: string, extra: map<string, string>) returns (props: map<string, string>)
    ensures props == SuiteProperties(fullName, extra)
  {
    props := map[FULL_NAME_KEY := fullName];
    var todo := extra.Keys;
    while todo != {}
      invariant todo <= extra.Keys
      invariant props.Keys == {FULL_NAME_KEY} + (extra.Keys - todo)
      invariant forall k :: k in props ==> props[k] == if k in extra && k !in todo then extra[k] else fullName
      decreases todo
    {
      var k :| k in todo;
      props := props[k := extra[k]];
      todo := todo - {k};
    }
  }

  /** The report a browser gets when it starts. */
  function NewSuite(cfg: Config, browser: Browser, now: string, hostname: string): TestSuite
  {
    TestSuite(browser.name, cfg.pkgName, Timestamp(now), hostname,
              SuiteProperties(browser.fullName, cfg.properties), [], None)
  }

  /** The table after starting `browsers` in order, each overwriting its slot;
      `nows[j]` is the clock reading taken when `browsers[j]` starts. */
  function InitializeAll(cfg: Config, suites: map<int, Option<TestSuite>>, browsers: seq<Browser>,
                         nows: seq<string>, hostname: string): map<int, Option<TestSuite>>
    requires |nows| == |browsers|
    decreases |browsers|
  {
    if browsers == [] then suites
    else
      var n := |browsers| - 1;
      InitializeAll(cfg, suites, browsers[..n], nows[..n], hostname)[browsers[n].id := Some(NewSuite(cfg, browsers[n], nows[n], hostname))]
  }

  /** After a run start, the slot of an id that no listed browser has is as before. */
  lemma {:induction false} InitializeAllUnlisted(cfg: Config, suites: map<int, Option<TestSuite>>, browsers: seq<Browser>,
                                                 nows: seq<string>, hostname: string, id: int)
    requires |nows| == |browsers|
    requires forall j :: 0 <= j < |browsers| ==> browsers[j].id != id
    ensures var r := InitializeAll(cfg, suites, browsers, nows, hostname);
            (id in r <==> id in suites) && (id in suites ==> r[id] == suites[id])
  {
    if browsers != [] {
      var n := |browsers| - 1;
      assert browsers[n].id != id;
      InitializeAllUnlisted(cfg, suites, browsers[..n], nows[..n], hostname, id);
    }
  }

  /** After a run start, the slot of a listed id holds a fresh report for the
      last browser listed with that id, stamped with that browser's clock reading. */
  lemma {:induction false} InitializeAllLast(cfg: Config, suites: map<int, Option<TestSuite>>, browsers: seq<Browser>,
                                             nows: seq<string>, hostname: string, j: nat)
    requires |nows| == |browsers|
    requires j < |browsers|
    requires forall k :: j < k < |browsers| ==> browsers[k].id != browsers[j].id
    ensures var r := InitializeAll(cfg, suites, browsers, nows, hostname);
            browsers[j].id in r && r[browsers[j].id] == Some(NewSuite(cfg, browsers[j], nows[j], hostname))
  {
    var n := |browsers| - 1;
    if j < n {
      var prefix := browsers[..n];
      assert browsers[n].id != browsers[j].id;
      assert prefix[j] == browsers[j] && nows[..n][j] == nows[j];
      InitializeAllLast(cfg, suites, prefix, nows[..n], hostname, j);
    }
  }

  // ---------------------------------------------------------------- spec event

  /** Formats every raw error entry of a spec, in order, as the forEach over `result.log` does. */
  method CollectFailures(formatError: string -> string, log: seq<string>) returns (failures: seq<Failure>)
    ensures |failures| == |log|
    ensures forall i :: 0 <= i < |log| ==> failures[i] == Failure(formatError(log[i]))
  {
    failures := [];
    var i := 0;
    while i < |log|
      invariant 0 <= i <= |log|
      invariant |failures| == i
      invariant forall j :: 0 <= j < i ==> failures[j] == Failure(formatError(log[j]))
    {
      failures := failures + [Failure(formatError(log[i]))];
      i := i + 1;
    }
  }

  /** `c` is the test case the reporter records for `result` in `browser`. */
  ghost predicate IsCaseOf(cfg: Config, formatError: string -> string, c: TestCase, browser: Browser, result: SpecResult)
  {
    && c.name == CaseName(cfg, browser, result)
    && c.time == Seconds(result.time)
    && c.className == ClassName(cfg, browser, result)
    && c.skipped == result.skipped
    && (c.failures.Some? <==> !result.success)
    && (c.failures.Some? ==>
          && |c.failures.value| == |result.log|
          && forall i :: 0 <= i < |result.log| ==> c.failures.value[i] == Failure(formatError(result.log[i])))
  }

  /** Builds the test case of one spec. */
  method MakeTestCase(cfg: Config, formatError: string -> string, browser: Browser, result: SpecResult)
    returns (c: TestCase)
    ensures IsCaseOf(cfg, formatError, c, browser, result)
  {
    c := TestCase(CaseName(cfg, browser, result), Seconds(result.time), ClassName(cfg, browser, result), false, None);
    if result.skipped {
      c := c.(skipped := true);
    }
    if !result.success {
      var failures := CollectFailures(formatError, result.log);
      c := c.(failures := Some(failures));
    }
  }

  /** `after` is `before` with exactly one more test case, the case of `result`, at the end. */
  ghost predicate AppendsCase(cfg: Config, formatError: string -> string, before: TestSuite, after: TestSuite,
                              browser: Browser, result: SpecResult)
  {
    && after.(testCases := before.testCases) == before
    && |after.testCases| == |before.testCases| + 1
    && after.testCases[..|before.testCases|] == before.testCases
    && IsCaseOf(cfg, formatError, after.testCases[|before.testCases|], browser, result)
  }

  // ---------------------------------------------------------- browser complete

  /** The aggregate fields of a completed browser, from its last result and the message log. */
  function SummaryOf(result: BrowserResult, messages: seq<string>): Summary
  {
    var log := Join(messages, ",") + "\n";
    Summary(result.total.GetOr(0),
            if result.disconnected || result.error then 1 else 0,
            result.failed.GetOr(0),
            Seconds(result.netTime),
            log, log)
  }

  /** `suite` with its aggregate fields filled in. */
  function Complete(suite: TestSuite, result: BrowserResult, messages: seq<string>): TestSuite
  {
    suite.(summary := Some(SummaryOf(result, messages)))
  }

  /** For every log: the summary counts one error exactly when the browser
      disconnected or errored, and standard output and standard error are the
      same text, ending in a newline. When no message holds a comma, that text
      without its newline splits at commas back into the messages. */
  lemma SummaryRecordsLog(result: BrowserResult, messages: seq<string>)
    ensures var s := SummaryOf(result, messages);
            && (s.errors == 1 <==> result.disconnected || result.error)
            && (s.errors == 0 || s.errors == 1)
            && s.systemOut == s.systemErr
            && |s.systemOut| > 0 && s.systemOut[|s.systemOut| - 1] == '\n'
            && ((forall i :: 0 <= i < |messages| ==> ',' !in messages[i]) ==>
                  Split(s.systemOut[..|s.systemOut| - 1], ',') == if messages == [] then [""] else messages)
  {
    var s := SummaryOf(result, messages);
    assert s.systemOut[..|s.systemOut| - 1] == Join(messages, [',']);
    if messages != [] && forall i :: 0 <= i < |messages| ==> ',' !in messages[i] {
      SplitJoin(messages, ',');
    }
  }
}
