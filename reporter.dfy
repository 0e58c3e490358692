/** The reporter object: one report slot per browser id, the message log,
    and the latch that lets process exit wait for the report writes. */
module Reporter {
  import opened Wrappers
  import opened Karma
  import opened Formatting
  import opened Report

  /** Stands for a `done` callback handed to `onExit`. */
  type DoneToken = nat

  /** A file write that has been issued: the target path and the report written there. */
  datatype WriteRequest = WriteRequest(path: FilePath, suite: TestSuite)

  class JsonReporter {
    const config: Config
    const formatError: string -> string

    /** `suites`: a missing key is a browser that never started, `None` a slot released after its write. */
    var suites: map<int, Option<TestSuite>>
    var allMessages: seq<string>
    var pendingFileWritings: int
    /** The stored exit callback; `None` is the initial do-nothing function. */
    var fileWritingFinished: Option<DoneToken>
    /** The writes issued and not yet completed. */
    ghost var inFlight: seq<WriteRequest>

    /** The pending counter is the number of writes issued and not yet completed. */
    ghost predicate Valid()
      reads this
    {
      pendingFileWritings == |inFlight|
    }

    /** Whether the browser with this id has a live report. */
    predicate Started(id: int)
      reads this
    {
      id in suites && suites[id].Some?
    }

    /** Applies the configuration defaults: no suite name means `""`, no
        output directory means `"."`, and browser names are used unless the
        setting is given. */
    constructor (suite: Option<string>, outputDir: Option<string>, outputFile: Option<string>,
                 useBrowserName: Option<bool>, nameFormatter: Option<Formatter>,
                 classNameFormatter: Option<Formatter>, properties: map<string, string>,
                 formatError: string -> string)
      ensures Valid()
      ensures config.pkgName == suite.GetOr("") && config.outputDir == outputDir.GetOr(".")
      ensures config.outputFile == outputFile && config.useBrowserName == useBrowserName.GetOr(true)
      ensures config.nameFormatter == nameFormatter && config.classNameFormatter == classNameFormatter
      ensures config.properties == properties && this.formatError == formatError
      ensures suites == map[] && allMessages == [] && pendingFileWritings == 0
      ensures fileWritingFinished == None && inFlight == []
    {
      config := Config(suite.GetOr(""), outputDir.GetOr("."), outputFile, useBrowserName.GetOr(true),
                       nameFormatter, classNameFormatter, properties);
      this.formatError := formatError;
      suites := map[];
      allMessages := [];
      pendingFileWritings := 0;
      fileWritingFinished := None;
      inFlight := [];
    }

    /** The log adapter: records one message at the end of the log. */
    method Adapter(msg: string)
      requires Valid()
      modifies this`allMessages
      ensures Valid()
      ensures allMessages == old(allMessages) + [msg]
    {
      allMessages := allMessages + [msg];
    }

    /** Gives `browser` a fresh report, replacing whatever its slot held. */
    method InitializeJSONForBrowser(browser: Browser, now: string, hostname: string)
      requires Valid()
      modifies this`suites
      ensures Valid()
      ensures suites == old(suites)[browser.id := Some(NewSuite(config, browser, now, hostname))]
    {
      var props := BuildProperties(browser.fullName, config.properties);
      var suite := TestSuite(browser.name, config.pkgName, Timestamp(now), hostname, props, [], None);
      suites := suites[browser.id := Some(suite)];
    }

    /** Starts every listed browser, in order; `nows[i]` is the clock reading
        taken when `browsers[i]` is initialised. */
    method OnRunStart(browsers: seq<Browser>, nows: seq<string>, hostname: string)
      requires |nows| == |browsers|
      requires Valid()
      modifies this`suites
      ensures Valid()
      ensures suites == InitializeAll(config, old(suites), browsers, nows, hostname)
    {
      var i := 0;
      while i < |browsers|
        invariant 0 <= i <= |browsers|
        invariant suites == InitializeAll(config, old(suites), browsers[..i], nows[..i], hostname)
      {
        InitializeJSONForBrowser(browsers[i], nows[i], hostname);
        assert browsers[..i + 1][..i] == browsers[..i] && nows[..i + 1][..i] == nows[..i];
        i := i + 1;
      }
      assert browsers[..|browsers|] == browsers && nows[..|nows|] == nows;
    }

    method OnBrowserStart(browser: Browser, now: string, hostname: string)
      requires Valid()
      modifies this`suites
      ensures Valid()
      ensures suites == old(suites)[browser.id := Some(NewSuite(config, browser, now, hostname))]
    {
      InitializeJSONForBrowser(browser, now, hostname);
    }

    /** One spec finished (success, skipped and failure alike). A browser
        without a live report is ignored; otherwise its report gets the
        spec's case at the end and no other slot changes. */
    method OnSpecComplete(browser: Browser, result: SpecResult)
      requires Valid()
      modifies this`suites
      ensures Valid()
      ensures !old(Started(browser.id)) ==> suites == old(suites)
      ensures old(Started(browser.id)) ==>
                && Started(browser.id)
                && suites.Keys == old(suites).Keys
                && (forall id :: id in suites && id != browser.id ==> suites[id] == old(suites)[id])
                && AppendsCase(config, formatError, old(suites)[browser.id].value, suites[browser.id].value, browser, result)
    {
      if browser.id !in suites || suites[browser.id].None? {
        return;
      }
      var suite := suites[browser.id].value;
      var spec := MakeTestCase(config, formatError, browser, result);
      suites := suites[browser.id := Some(suite.(testCases := suite.testCases + [spec]))];
    }

    /** Issues the write of the browser's report, when it has one, and counts it as pending. */
    method WriteJSONForBrowser(browser: Browser)
      requires Valid()
      modifies this`pendingFileWritings, this`inFlight
      ensures Valid()
      ensures old(Started(browser.id)) ==>
                && pendingFileWritings == old(pendingFileWritings) + 1
                && inFlight == old(inFlight) + [WriteRequest(OutputPath(config, browser.name), suites[browser.id].value)]
      ensures !old(Started(browser.id)) ==>
                pendingFileWritings == old(pendingFileWritings) && inFlight == old(inFlight)
    {
      var newOutputFile := OutputPath(config, browser.name);
      if browser.id !in suites || suites[browser.id].None? {
        return;
      }
      pendingFileWritings := pendingFileWritings + 1;
      inFlight := inFlight + [WriteRequest(newOutputFile, suites[browser.id].value)];
    }

    /** A browser finished. Without a live report or a last result nothing
        happens; otherwise the summary is filled in, the write of the
        completed report is issued and the slot is released. */
    method OnBrowserComplete(browser: Browser)
      requires Valid()
      modifies this`suites, this`pendingFileWritings, this`inFlight
      ensures Valid()
      ensures !(old(Started(browser.id)) && browser.lastResult.Some?) ==>
                && suites == old(suites)
                && pendingFileWritings == old(pendingFileWritings) && inFlight == old(inFlight)
      ensures old(Started(browser.id)) && browser.lastResult.Some? ==>
                && suites == old(suites)[browser.id := None]
                && pendingFileWritings == old(pendingFileWritings) + 1
                && inFlight == old(inFlight) + [WriteRequest(OutputPath(config, browser.name),
                     Complete(old(suites)[browser.id].value, browser.lastResult.value, allMessages))]
    {
      if browser.id !in suites || suites[browser.id].None? || browser.lastResult.None? {
        return;
      }
      var suite := Complete(suites[browser.id].value, browser.lastResult.value, allMessages);
      suites := suites[browser.id := Some(suite)];
      WriteJSONForBrowser(browser);
      suites := suites[browser.id := None];
    }

    /** The whole run finished: the message log is emptied. */
    method OnRunComplete()
      requires Valid()
      modifies this`allMessages
      ensures Valid()
      ensures allMessages == []
    {
      allMessages := [];
    }

    /** The write `inFlight[i]` completed, successfully or not (`ok` only
        chooses a log line). The counter drops by one; when it reaches zero the
        stored callback, if any, is invoked, and it stays stored. */
    method WriteCompleted(ghost i: nat, ok: bool) returns (invoked: Option<DoneToken>)
      requires Valid() && i < |inFlight|
      modifies this`pendingFileWritings, this`inFlight
      ensures Valid()
      ensures inFlight == old(inFlight[..i] + inFlight[i + 1..])
      ensures pendingFileWritings == old(pendingFileWritings) - 1
      ensures invoked == if pendingFileWritings == 0 then fileWritingFinished else None
    {
      inFlight := inFlight[..i] + inFlight[i + 1..];
      pendingFileWritings := pendingFileWritings - 1;
      invoked := if pendingFileWritings == 0 then fileWritingFinished else None;
    }

    /** Process exit: `done` runs at once exactly when no write is in flight;
        otherwise it is stored, replacing any earlier callback. */
    method OnExit(done: DoneToken) returns (invoked: Option<DoneToken>)
      requires Valid()
      modifies this`fileWritingFinished
      ensures invoked.Some? <==> inFlight == []
      ensures invoked == if pendingFileWritings == 0 then Some(done) else None
      ensures fileWritingFinished == if pendingFileWritings == 0 then old(fileWritingFinished) else Some(done)
    {
      if pendingFileWritings != 0 {
        fileWritingFinished := Some(done);
        invoked := None;
      } else {
        invoked := Some(done);
      }
    }
  }

  /** A browser that starts and completes leaves one write pending: `onExit`
      then waits, and `done` runs when that write completes. */
  method ExitWaitsForPendingWrite(browser: Browser, now: string, hostname: string, done: DoneToken,
                                  formatError: string -> string)
    returns (atExit: Option<DoneToken>, atCompletion: Option<DoneToken>)
    requires browser.lastResult.Some?
    ensures atExit == None
    ensures atCompletion == Some(done)
  {
    var reporter := new JsonReporter(None, None, None, None, None, None, map[], formatError);
    reporter.OnBrowserStart(browser, now, hostname);
    reporter.OnBrowserComplete(browser);
    atExit := reporter.OnExit(done);
    atCompletion := reporter.WriteCompleted(0, true);
  }

  // ------------------------------------------------- the handler as written

  datatype JsError = TypeError | ReferenceError

  /** How a JavaScript call ends: normally with the new table, or by throwing. */
  datatype Completion = Normal(suites: map<int, Option<TestSuite>>) | Threw(error: JsError)

  /** The spec handler as written: it reads `.testSuite` of the slot, which
      throws on a missing or released slot, and then tests the undeclared
      name `testsuite`, which always throws. */
  function SpecHandlerAsWritten(suites: map<int, Option<TestSuite>>, id: int): Completion
  {
    if id !in suites || suites[id].None? then Threw(TypeError)
    else Threw(ReferenceError)
  }

  /** For a started browser, the handler as written throws a `ReferenceError`,
      while the guarded handler records exactly the spec's one case. */
  method SpecHandlerDiscrepancy(browser: Browser, result: SpecResult, now: string, hostname: string,
                                formatError: string -> string)
    returns (asWritten: Completion, cases: seq<TestCase>)
    ensures asWritten == Threw(ReferenceError)
    ensures |cases| == 1
    ensures IsCaseOf(Config("", ".", None, true, None, None, map[]), formatError, cases[0], browser, result)
  {
    var reporter := new JsonReporter(None, None, None, None, None, None, map[], formatError);
    reporter.OnBrowserStart(browser, now, hostname);
    asWritten := SpecHandlerAsWritten(reporter.suites, browser.id);
    reporter.OnSpecComplete(browser, result);
    cases := reporter.suites[browser.id].value.testCases;
  }

  /** For a browser that never started, the handler as written throws a
      `TypeError`, while the guarded handler leaves the table as it was. */
  method SpecHandlerDiscrepancyUnstarted(browser: Browser, result: SpecResult, formatError: string -> string)
    returns (asWritten: Completion, after: map<int, Option<TestSuite>>)
    ensures asWritten == Threw(TypeError)
    ensures after == map[]
  {
    var reporter := new JsonReporter(None, None, None, None, None, None, map[], formatError);
    asWritten := SpecHandlerAsWritten(reporter.suites, browser.id);
    reporter.OnSpecComplete(browser, result);
    after := reporter.suites;
  }
}
