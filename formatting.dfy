/** The reporter's configuration and the pure naming rules built on it:
    the case name, the class name and the output file of a browser. */
module Formatting {
  import opened Wrappers
  import opened JsText
  import opened Karma

  /** The reporter's settings once defaults are applied (the constructor of
      `Reporter.JsonReporter` applies them). `properties` are the extra
      report properties, keyed by property name. */
  datatype Config = Config(
    pkgName: string,
    outputDir: string,
    outputFile: Option<string>,
    useBrowserName: bool,
    nameFormatter: Option<Formatter>,
    classNameFormatter: Option<Formatter>,
    properties: map<string, string>)

  // ---------------------------------------------------------------- case name

  /** The default case name: the suite names joined by single spaces, one
      more space, then the description. */
  function DefaultCaseName(suite: seq<string>, description: string): string
  {
    Join(suite, " ") + " " + description
  }

  /** The configured case-name formatter, or the default one when none is set. */
  function CaseName(cfg: Config, browser: Browser, result: SpecResult): string
  {
    match cfg.nameFormatter
    case Some(f) => f(browser, result)
    case None => DefaultCaseName(result.suite, result.description)
  }

  /** When no name holds a space, splitting the default case name at spaces
      gives back the suite names and then the description; an empty suite
      leaves an empty first field, the leading space. */
  lemma {:induction false} DefaultCaseNameFields(suite: seq<string>, description: string)
    requires forall i :: 0 <= i < |suite| ==> ' ' !in suite[i]
    requires ' ' !in description
    ensures Split(DefaultCaseName(suite, description), ' ') ==
            (if suite == [] then [""] else suite) + [description]
  {
    if suite == [] {
      assert DefaultCaseName(suite, description) == "" + [' '] + description;
      SplitAtFirst("", ' ', description);
      SplitNoSeparator(description, ' ');
    } else {
      JoinSnoc(suite, " ", description);
      assert forall i :: 0 <= i < |suite + [description]| ==> ' ' !in (suite + [description])[i];
      SplitJoin(suite + [description], ' ');
    }
  }

  lemma DefaultCaseNameExamples()
    ensures DefaultCaseName(["Foo", "Bar"], "works") == "Foo Bar works"
    ensures DefaultCaseName([], "works") == " works"
  {
  }

  // --------------------------------------------------------------- class name

  /** The browser name with every space replaced by `_`, as used in file names. */
  function SafeBrowserName(name: string): (r: string)
    ensures |r| == |name| && ' ' !in r
    ensures forall i :: 0 <= i < |name| && name[i] == ' ' ==> r[i] == '_'
    ensures forall i :: 0 <= i < |name| && name[i] != ' ' ==> r[i] == name[i]
  {
    ReplaceAll(name, ' ', '_')
  }

  /** The browser name with every space and every `.` replaced by `_`, as used in class names. */
  function ClassSafeName(name: string): (r: string)
    ensures |r| == |name| && ' ' !in r && '.' !in r
    ensures forall i :: 0 <= i < |name| && (name[i] == ' ' || name[i] == '.') ==> r[i] == '_'
    ensures forall i :: 0 <= i < |name| && name[i] != ' ' && name[i] != '.' ==> r[i] == name[i]
  {
    ReplaceAll(ReplaceAll(name, ' ', '_'), '.', '_')
  }

  /** `result.suite[0]` in a string concatenation: the outermost suite name,
      or the text `undefined` when there is none. */
  function SuiteHead(suite: seq<string>): string
  {
    if |suite| > 0 then suite[0] else "undefined"
  }

  /** The default class name: the browser part (when browser names are used),
      the package part (when the package name is non-empty), the outermost suite. */
  function DefaultClassName(useBrowserName: bool, pkgName: string, browserName: string, suite: seq<string>): string
  {
    (if useBrowserName then ClassSafeName(browserName) + "." else "")
    + (if pkgName != "" then pkgName + "." else "")
    + SuiteHead(suite)
  }

  /** The configured class-name formatter when it is a function, else the default. */
  function ClassName(cfg: Config, browser: Browser, result: SpecResult): string
  {
    match cfg.classNameFormatter
    case Some(f) => f(browser, result)
    case None => DefaultClassName(cfg.useBrowserName, cfg.pkgName, browser.name, result.suite)
  }

  /** The default class name is made of dot-separated fields, in order: the
      sanitised browser name if browser names are used, the package name if
      it is non-empty, and the outermost suite name. */
  lemma {:induction false} DefaultClassNameFields(useBrowserName: bool, pkgName: string, browserName: string, suite: seq<string>)
    requires '.' !in pkgName && '.' !in SuiteHead(suite)
    ensures Split(DefaultClassName(useBrowserName, pkgName, browserName, suite), '.') ==
            (if useBrowserName then [ClassSafeName(browserName)] else [])
            + (if pkgName != "" then [pkgName] else [])
            + [SuiteHead(suite)]
  {
    var head := SuiteHead(suite);
    var tail := (if pkgName != "" then pkgName + "." else "") + head;
    SplitNoSeparator(head, '.');
    if pkgName != "" {
      assert tail == pkgName + ['.'] + head;
      SplitAtFirst(pkgName, '.', head);
    } else {
      assert tail == head;
    }
    assert Split(tail, '.') == (if pkgName != "" then [pkgName] else []) + [head];
    if useBrowserName {
      var b := ClassSafeName(browserName);
      assert DefaultClassName(useBrowserName, pkgName, browserName, suite) == b + ['.'] + tail;
      SplitAtFirst(b, '.', tail);
    } else {
      assert DefaultClassName(useBrowserName, pkgName, browserName, suite) == tail;
    }
  }

  /** For every package name and suite, even ones holding dots, the first
      dot-separated field of a class name built with browser names is the
      sanitised browser name: that name itself holds no `.`. */
  lemma {:induction false} ClassNameFirstField(pkgName: string, browserName: string, suite: seq<string>)
    ensures Split(DefaultClassName(true, pkgName, browserName, suite), '.')[0] == ClassSafeName(browserName)
  {
    var b := ClassSafeName(browserName);
    var tail := (if pkgName != "" then pkgName + "." else "") + SuiteHead(suite);
    assert DefaultClassName(true, pkgName, browserName, suite) == b + ['.'] + tail;
    SplitAtFirst(b, '.', tail);
  }

  // -------------------------------------------------------------- output file

  /** Where a report goes: a path used verbatim, or the path `path.join`
      builds from the given segments. */
  datatype FilePath = Verbatim(path: string) | Joined(segments: seq<string>)

  /** `path-is-absolute` on POSIX: the path starts at the root. */
  predicate IsAbsolute(p: string)
  {
    |p| > 0 && p[0] == '/'
  }

  /** The output file of the browser named `browserName`; the first rule that applies wins. */
  function OutputPath(cfg: Config, browserName: string): FilePath
  {
    var safe := SafeBrowserName(browserName);
    match cfg.outputFile
    case Some(file) =>
      if IsAbsolute(file) then Verbatim(file)
      else if cfg.useBrowserName then Joined([cfg.outputDir, safe, file])
      else Joined([cfg.outputDir, file])
    case None =>
      if cfg.useBrowserName then Joined([cfg.outputDir, "TESTS-" + safe + ".json"])
      else Joined([cfg.outputDir, "TESTS.json"])
  }

  /** Whether the output path depends on the browser: browser names are used
      and no absolute output file overrides them. */
  predicate PathNamesBrowser(cfg: Config)
  {
    cfg.useBrowserName && !(cfg.outputFile.Some? && IsAbsolute(cfg.outputFile.value))
  }

  /** Two browsers write to the same path exactly when the path does not
      depend on the browser, or when their names agree once spaces become `_`. */
  lemma {:induction false} OutputPathCollision(cfg: Config, a: string, b: string)
    ensures OutputPath(cfg, a) == OutputPath(cfg, b) <==>
            !PathNamesBrowser(cfg) || SafeBrowserName(a) == SafeBrowserName(b)
  {
    var sa, sb := SafeBrowserName(a), SafeBrowserName(b);
    if PathNamesBrowser(cfg) && OutputPath(cfg, a) == OutputPath(cfg, b) {
      if cfg.outputFile.Some? {
        assert OutputPath(cfg, a).segments[1] == sa;
      } else {
        var ta, tb := "TESTS-" + sa + ".json", "TESTS-" + sb + ".json";
        assert OutputPath(cfg, a).segments[1] == ta;
        assert ta == tb;
        assert sa == ta[6..6 + |sa|];
        assert sb == tb[6..6 + |sb|];
      }
    }
  }

  lemma OutputPathExample()
    ensures OutputPath(Config("", "./out", None, true, None, None, map[]), "Chrome")
            == Joined(["./out", "TESTS-Chrome.json"])
  {
    var safe := SafeBrowserName("Chrome");
    assert forall i :: 0 <= i < |safe| ==> safe[i] == "Chrome"[i];
    assert safe == "Chrome";
    assert "TESTS-" + safe + ".json" == "TESTS-Chrome.json";
  }
}
