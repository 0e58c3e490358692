/** The payloads the test runner hands to a reporter. The reporter only reads them. */
module Karma {
  import opened Wrappers

  /** `browser.lastResult`: the run summary of one browser. Absent numbers are `None`. */
  datatype BrowserResult = BrowserResult(
    total: Option<int>,
    failed: Option<int>,
    disconnected: bool,
    error: bool,
    netTime: Option<int>)   // milliseconds

  /** A browser as the runner identifies it: a runtime-assigned id, a display name, a full name. */
  datatype Browser = Browser(id: int, name: string, fullName: string, lastResult: Option<BrowserResult>)

  /** The outcome of one spec. */
  datatype SpecResult = SpecResult(
    suite: seq<string>,      // the enclosing describe-block names, outermost first
    description: string,
    time: Option<int>,       // milliseconds
    skipped: bool,
    success: bool,
    log: seq<string>)        // raw error entries, in order

  /** A user-supplied case-name or class-name formatter. */
  type Formatter = (Browser, SpecResult) -> string
}
