# JSON reporter for the Karma test runner — a Dafny model

The reporter listens to the runner's lifecycle events. This paragraph describes the
intended behaviour, which is what the model captures. It keeps one report per
browser, keyed by the browser's runtime id. A browser start gives that browser a
fresh report. Each finished spec appends one test case to it. Browser completion
fills in the totals, issues an asynchronous write of the report to a JSON file and
releases the slot. A message adapter collects log messages; they are copied into
every completed report and cleared when the run completes. A pending-write counter
and one stored `done` callback let process exit wait until every issued write has
completed.

The code as written falls short of this in two places. The spec handler always
throws, so no case is ever recorded (see `## Findings`). The serialisation call
throws before any file is written, so the counter never drops (see the
Serialisation line under `## Left out`).

The model has six modules:

- `Wrappers` (wrappers.dfy): `Option`, standing for `undefined`/`null`.
- `JsText` (js_text.dfy): the JavaScript string operations used (global one-character
  `replace`, `Array.prototype.join`, `substr(0, n)`), and a one-character split that
  states what a join keeps.
- `Karma` (karma.dfy): the browser, browser-result and spec-result payloads.
- `Formatting` (formatting.dfy): the configuration record, the default case and class
  names, and the four-way output-path rule.
- `Report` (report.dfy): the report records. Also the loops that build the property
  object and the failure list, the run-start fold, and the completion summary.
- `Reporter` (reporter.dfy): the class `JsonReporter`. Its fields are the report table
  (`map<int, Option<TestSuite>>`; a missing key means never started, `None` means
  released), the message log, the pending counter and the stored callback. A ghost
  sequence `inFlight` holds the writes issued and not yet completed. `Valid()` states
  that the counter equals its length. A write's completion is its own method,
  `WriteCompleted`, and may come in any order.

Three behaviours of the code worth noting:
- `systemOut`/`systemErr` join the messages with `,`, the default of `join()`.
- The stored exit callback is never cleared, so a later drain to zero runs it again.
- Before completion the totals (`tests`, `errors`, …) are absent (`summary == None`).

## Model

| member | source | states |
|---|---|---|
| `JsText.ReplaceAll` | index.js:79 | same length; each occurrence of the pattern character becomes the replacement and every other character is kept |
| `JsText.Prefix` | index.js:47 | `substr(0, n)` is a prefix of the input, of length `n` or the whole input when shorter |
| `JsText.SplitJoin` | index.js:143-144 | splitting at `c` gives back the joined parts when no part holds `c` |
| `JsText.JoinSplit` | index.js:143-144 | joining the pieces of any split at `c` with `c` gives back the string |
| `Formatting.DefaultCaseNameFields` | index.js:7-9 | when no suite name and not the description holds a space, the default case name splits at spaces into the suite names, then the description; an empty suite leaves an empty leading field (a leading space) |
| `Formatting.DefaultCaseNameExamples` | index.js:7-9 | `["Foo","Bar"]`, `"works"` gives `"Foo Bar works"`; an empty suite gives `" works"` |
| `Formatting.SafeBrowserName` | index.js:79 | the file-name form of a browser name has the same length, every space becomes `_`, and every other character is kept |
| `Formatting.ClassSafeName` | index.js:114 | the class-name form of a browser name has the same length, every space and every `.` becomes `_`, and every other character is kept |
| `Formatting.DefaultClassNameFields` | index.js:113-117 | when neither the package name nor `suite[0]` holds a `.`, the default class name's dot-separated fields are, in order, the sanitised browser name if browser names are used, the package name if non-empty, and `suite[0]` (the text `undefined` for an empty suite) |
| `Formatting.ClassNameFirstField` | index.js:113-117 | for every package name and suite, dots included, the first dot-separated field of a class name built with browser names is the sanitised browser name |
| `Formatting.OutputPathCollision` | index.js:77-90 | two browsers get the same output path if and only if the path does not depend on the browser (browser names off, or an absolute output file) or their names agree once spaces become `_` |
| `Formatting.OutputPathExample` | index.js:86-87 | browser `Chrome`, no output file, browser names on, directory `./out` gives `./out` joined with `TESTS-Chrome.json` |
| `Report.SuiteProperties` | index.js:66-74 | a fresh report's properties are `browser.fullName` plus every configured property, and a configured property wins on a clash of names |
| `Report.BuildProperties` | index.js:66-74 | the key-by-key loop over the configured properties yields exactly those properties |
| `Report.InitializeAllUnlisted` | index.js:120-123 | after a run start, an id no listed browser has keeps its slot, or its absence |
| `Report.InitializeAllLast` | index.js:120-123 | after a run start, a listed id holds a fresh report for the last browser listed with that id, stamped with that browser's own clock reading |
| `Report.CollectFailures` | index.js:190-197 | one failure per raw log entry, in order, each the formatted entry |
| `Report.MakeTestCase` | index.js:172-197 | the case has the configured or default name and class name and the time in seconds; `skipped` is set exactly when the result is skipped; failures are present exactly when the result did not succeed, one formatted entry per log entry in order |
| `Report.SummaryRecordsLog` | index.js:138-144 | for every log: errors is 1 exactly when the browser disconnected or errored, else 0; standard output equals standard error and ends with a newline; when no message holds a comma, the text without its newline splits at commas back into the messages, or into `[""]` for an empty log |
| `Reporter.JsonReporter.constructor` | index.js:13-36 | defaults: an absent suite name is `""`, an absent output directory `"."`, browser names are used unless set; empty table and log, no pending write, no stored callback |
| `Reporter.JsonReporter.Adapter` | index.js:40-44 | the message is appended at the end of the log; nothing else changes |
| `Reporter.JsonReporter.InitializeJSONForBrowser` | index.js:46-75 | the browser's slot is replaced by a fresh report (its name, the package name, the timestamp cut to seconds, the host name, the properties, no cases); no other slot changes |
| `Reporter.JsonReporter.OnRunStart` | index.js:120-123 | the table is that of starting each listed browser in order, each with the clock reading taken for it |
| `Reporter.JsonReporter.OnBrowserStart` | index.js:126-128 | the same initialisation as for one listed browser |
| `Reporter.JsonReporter.OnSpecComplete` | index.js:166-199 | without a live report nothing changes; otherwise exactly one case, that of the result, is appended after the earlier cases, the report's other fields stay, and no other slot changes |
| `Reporter.JsonReporter.WriteJSONForBrowser` | index.js:77-97 | a write of the browser's report to its output path is issued, and the counter rises by one, exactly when the slot is live |
| `Reporter.JsonReporter.OnBrowserComplete` | index.js:131-159 | without a live report or a last result nothing changes; otherwise one write of the completed report is issued, to the browser's path, and the slot becomes `None` |
| `Reporter.JsonReporter.OnRunComplete` | index.js:162-164 | the message log is empty |
| `Reporter.JsonReporter.WriteCompleted` | index.js:99-109 | the completed write leaves the in-flight set and the counter drops by one, success or not; when it reaches zero the stored callback is invoked and stays stored |
| `Reporter.JsonReporter.OnExit` | index.js:202-208 | `done` runs at once exactly when no write is in flight; otherwise it is stored, replacing any earlier one |
| `Reporter.ExitWaitsForPendingWrite` | index.js:97-108 | with one write pending, `onExit` does not run `done`; the completion of that write does |
| `Reporter.SpecHandlerDiscrepancy` | index.js:166-199 | for a started browser, the handler as written throws a `ReferenceError`, while the guarded handler records exactly one case, that of the result |
| `Reporter.SpecHandlerDiscrepancyUnstarted` | index.js:166-171 | for a browser that never started, the handler as written throws a `TypeError`, while the guarded handler leaves the table unchanged |

## Left out

- File I/O and logging: `helper.mkdirIfNotExists`, `path.dirname`, `fs.writeFile`, `log.warn` and `log.debug` (index.js:98-104) are not modelled. A write is an issued `WriteRequest` plus a later `WriteCompleted` call. Its `ok` flag only picks the log line.
- Serialisation: `jsonToOutput.end({pretty: true})` (index.js:99) is opaque. The stored report is a plain object with no `end` method, so as written that call would throw inside the directory callback, before the file write and the counter decrement. The model lets the write complete.
- Output directory resolution: `path.resolve(config.basePath, …)`, `helper.normalizeWinPath` and the appended `path.sep` (index.js:32) are not modelled. `Config.outputDir` is the configured directory or `"."`.
- Formatting.OutputPathCollision: compares the segment lists given to `path.join`, not the normalised path strings, because path normalisation is foreign code. Segments holding `/` or `..` could still collide after normalisation.
- Formatting.IsAbsolute: only the POSIX rule (a leading `/`) of `path-is-absolute`. Windows drive and UNC paths are not modelled.
- Clock and host name: `new Date().toISOString()` and `os.hostname()` are parameters. `OnRunStart` takes one clock reading per listed browser (`nows`), `OnBrowserStart` one (`now`). Both take one host name for the whole call, while the source calls `os.hostname()` once per initialised browser.
- Times: `/ 1000` is exact division on `real`. Floating-point rounding is not modelled.
- JavaScript truthiness on unexpected types: `useBrowserName` is a `bool`. Counts and times are `Option<int>`, so `NaN` is not modelled. A truthy `nameFormatter` that is not a function (which would throw) is not modelled. Property values are strings.
- The order of JSON keys (for-in order) and the `{testSuite: …}` wrapper object: the model stores the inner report as a record with a property map.
- Dependency injection and wiring: `baseReporterDecorator`, `$inject`, `module.exports` (index.js:38, index.js:211-216).
- The event loop: write completions arrive as independent `WriteCompleted` calls in any order. Nothing else is asynchronous.

## Findings

| source | as written | input that shows it | evidently intended | confidence | as-written member | corrected member |
|---|---|---|---|---|---|---|
| index.js:166-171 | reads `suites[browser.id].testSuite`, then tests the undeclared name `testsuite` | any spec event: for a browser that never started, the slot lookup throws a `TypeError`; for a started browser, `testsuite` throws a `ReferenceError` | skip a browser without a live report, and otherwise append the spec's case | high; not executed | `Reporter.SpecHandlerDiscrepancy` and `Reporter.SpecHandlerDiscrepancyUnstarted` (on `Reporter.SpecHandlerAsWritten`) | `Reporter.JsonReporter.OnSpecComplete` |
