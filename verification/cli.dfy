/**
 * The command-line front end (synapse-package-test/node_modules/@snps/cli/src/main.rs):
 * project-name validation, the deterministic test and lint simulators and
 * the counters `lint` keeps over them, the unit choice of `format_bytes`, and
 * the directories a new project gets.  File names and stems are taken as
 * strings; the file system, progress bars and printing are not modelled.
 */
module Cli {
  import opened Wrappers
  import opened Text

  // ---------------------------------------------------------------------
  // Project names
  // ---------------------------------------------------------------------

  const NameCharsetMessage := "Project name can only contain letters, numbers, hyphens, and underscores"
  const NameLengthMessage := "Project name must be between 2 and 50 characters"

  /** A character of the class `[a-zA-Z0-9_-]`. */
  predicate IsNameChar(c: char) {
    IsAsciiDigit(c) || IsAsciiUpper(c) || ('a' <= c <= 'z') || c == '_' || c == '-'
  }

  /**
   * `validate_project_name`: the name must match `^[a-zA-Z0-9_-]+$` and have
   * between 2 and 50 characters; the character check comes first.
   */
  function ValidateProjectName(name: string): (r: Result<(), string>)
    ensures r.Success? <==> name != [] && (forall i :: 0 <= i < |name| ==> IsNameChar(name[i])) && 2 <= |name| <= 50
    ensures (name == [] || exists i :: 0 <= i < |name| && !IsNameChar(name[i])) ==> r == Failure(NameCharsetMessage)
    ensures r.Failure? && r.error == NameLengthMessage ==> |name| < 2 || |name| > 50
    ensures name != [] && (forall i :: 0 <= i < |name| ==> IsNameChar(name[i])) && (|name| < 2 || |name| > 50) ==>
      r == Failure(NameLengthMessage)
  {
    if name == [] || exists i :: 0 <= i < |name| && !IsNameChar(name[i]) then Failure(NameCharsetMessage)
    else if |name| < 2 || |name| > 50 then Failure(NameLengthMessage)
    else Success(())
  }

  /** One more element of a prefix. */
  lemma PrefixSnoc<T>(s: seq<T>, k: nat)
    requires k < |s|
    ensures s[..k + 1] == s[..k] + [s[k]]
  {
  }

  // ---------------------------------------------------------------------
  // Decimal numerals, used in test names
  // ---------------------------------------------------------------------

  function DigitChar(d: nat): (c: char)
    requires d < 10
    ensures '0' <= c <= '9' && (c as int) - ('0' as int) == d
  {
    ('0' as int + d) as char
  }

  /** The decimal numeral of `n`, as `format!("{}", n)` writes it. */
  function NatText(n: nat): (r: string)
    ensures |r| >= 1
    ensures forall i :: 0 <= i < |r| ==> '0' <= r[i] <= '9'
  {
    if n < 10 then [DigitChar(n)] else NatText(n / 10) + [DigitChar(n % 10)]
  }

  /** The value of a string of decimal digits. */
  function NatValue(s: string): nat
    requires forall i :: 0 <= i < |s| ==> '0' <= s[i] <= '9'
  {
    if s == [] then 0 else NatValue(s[..|s| - 1]) * 10 + ((s[|s| - 1] as int) - ('0' as int))
  }

  /** Reading a numeral back gives the number it was written from. */
  lemma {:induction false} NatTextRoundTrip(n: nat)
    ensures NatValue(NatText(n)) == n
  {
    var t := NatText(n);
    if n < 10 {
      assert t[..0] == [];
    } else {
      NatTextRoundTrip(n / 10);
      assert t[..|t| - 1] == NatText(n / 10);
    }
  }

  /** Different numbers have different numerals. */
  lemma NatTextInjective(a: nat, b: nat)
    requires NatText(a) == NatText(b)
    ensures a == b
  {
    NatTextRoundTrip(a);
    NatTextRoundTrip(b);
  }

  // ---------------------------------------------------------------------
  // Test simulation
  // ---------------------------------------------------------------------

  const Passed := "passed"
  const Failed := "failed"
  /** A test file whose stem contains this word fails its first test. */
  const FailKeyword := "fail"
  const FailureText := "Expected true to be false"

  /** A simulated test result; the duration is kept as an exact real. */
  datatype TestResult = TestResult(name: string, status: string, duration: real, error: Option<string>)

  /** Whether a file with this stem is run under the optional name filter. */
  predicate Kept(stem: string, pattern: Option<string>) {
    pattern.None? || Contains(stem, pattern.value)
  }

  /** The `i`-th (from 0) simulated result of a test file. */
  function TestCase(stem: string, i: nat): (r: TestResult)
    ensures r.name == stem + " test " + NatText(i + 1)
    ensures r.status == Failed <==> i == 0 && Contains(stem, FailKeyword)
    ensures r.status == Passed <==> r.status != Failed
    ensures r.error.Some? <==> r.status == Failed
  {
    var status := if i == 0 && Contains(stem, FailKeyword) then Failed else Passed;
    TestResult(stem + " test " + NatText(i + 1), status, 0.1 + (i as real) * 0.05,
      if status == Failed then Some(FailureText) else None)
  }

  /** How many results a test file yields: 3 plus its stem's length modulo 5. */
  function TestCount(stem: string): (r: nat)
    ensures 3 <= r <= 7
  {
    3 + |stem| % 5
  }

  /** The results of one test file, in order. */
  function FileResults(stem: string): (r: seq<TestResult>)
    ensures |r| == TestCount(stem)
    ensures forall i :: 0 <= i < |r| ==> r[i] == TestCase(stem, i)
  {
    seq(TestCount(stem), i requires 0 <= i => TestCase(stem, i))
  }

  /** `simulate_test_execution` as a specification: the results of the kept files, file after file. */
  function TestRun(stems: seq<string>, pattern: Option<string>): seq<TestResult>
  {
    if stems == [] then []
    else
      var last := stems[|stems| - 1];
      TestRun(stems[..|stems| - 1], pattern) + (if Kept(last, pattern) then FileResults(last) else [])
  }

  /** `simulate_test_execution`: runs every kept file and collects its results. */
  method SimulateTestExecution(stems: seq<string>, pattern: Option<string>) returns (results: seq<TestResult>)
    ensures results == TestRun(stems, pattern)
  {
    results := [];
    for n := 0 to |stems|
      invariant results == TestRun(stems[..n], pattern)
    {
      var stem := stems[n];
      assert stems[..n + 1][..n] == stems[..n];
      assert TestRun(stems[..n + 1], pattern) ==
        TestRun(stems[..n], pattern) + (if Kept(stem, pattern) then FileResults(stem) else []);
      if pattern.Some? && !Contains(stem, pattern.value) {
        AppendEmpty(results);
        continue;
      }
      results := RunTestFile(stem, results);
    }
    assert stems[..|stems|] == stems;
  }

  /** The inner loop of `simulate_test_execution`: appends one file's results. */
  method RunTestFile(stem: string, before: seq<TestResult>) returns (results: seq<TestResult>)
    ensures results == before + FileResults(stem)
  {
    results := before;
    var count := 3 + |stem| % 5;
    for i := 0 to count
      invariant results == before + FileResults(stem)[..i]
    {
      var status := if i == 0 && Contains(stem, FailKeyword) then Failed else Passed;
      var error := if status == Failed then Some(FailureText) else None;
      var duration := 0.1 + (i as real) * 0.05;
      results := results + [TestResult(stem + " test " + NatText(i + 1), status, duration, error)];
      PrefixSnoc(FileResults(stem), i);
    }
    assert FileResults(stem)[..count] == FileResults(stem);
  }

  /** Within a file the test names are all different. */
  lemma FileResultNamesDistinct(stem: string, i: nat, j: nat)
    requires i < TestCount(stem) && j < TestCount(stem)
    requires FileResults(stem)[i].name == FileResults(stem)[j].name
    ensures i == j
  {
    var p := stem + " test ";
    assert FileResults(stem)[i].name == p + NatText(i + 1);
    assert FileResults(stem)[j].name == p + NatText(j + 1);
    assert NatText(i + 1) == (p + NatText(i + 1))[|p|..];
    assert NatText(j + 1) == (p + NatText(j + 1))[|p|..];
    NatTextInjective(i + 1, j + 1);
  }

  /** Every result of a run comes from a file that the filter keeps. */
  lemma {:induction false} TestResultFromKeptFile(stems: seq<string>, pattern: Option<string>, k: nat)
    requires k < |TestRun(stems, pattern)|
    ensures exists j :: 0 <= j < |stems| && Kept(stems[j], pattern) && TestRun(stems, pattern)[k] in FileResults(stems[j])
  {
    assert stems != [];
    var front := stems[..|stems| - 1];
    var last := stems[|stems| - 1];
    var r := TestRun(stems, pattern);
    var a := TestRun(front, pattern);
    assert r == a + (if Kept(last, pattern) then FileResults(last) else []);
    if k < |a| {
      TestResultFromKeptFile(front, pattern, k);
      var j :| 0 <= j < |front| && Kept(front[j], pattern) && a[k] in FileResults(front[j]);
      assert stems[j] == front[j];
      assert r[k] == a[k];
    } else {
      assert Kept(last, pattern) && r[k] == FileResults(last)[k - |a|];
      assert r[k] in FileResults(stems[|stems| - 1]);
    }
  }

  /** The number of failed results. */
  function CountFailed(rs: seq<TestResult>): (r: nat)
    ensures r <= |rs|
  {
    if rs == [] then 0
    else CountFailed(rs[..|rs| - 1]) + (if rs[|rs| - 1].status == Failed then 1 else 0)
  }

  lemma {:induction false} CountFailedAppend(a: seq<TestResult>, b: seq<TestResult>)
    ensures CountFailed(a + b) == CountFailed(a) + CountFailed(b)
  {
    if b != [] {
      CountFailedAppend(a, b[..|b| - 1]);
      assert (a + b)[..|a + b| - 1] == a + b[..|b| - 1];
    } else {
      assert a + b == a;
    }
  }

  lemma {:induction false} FileFailuresPrefix(stem: string, i: nat)
    requires i <= TestCount(stem)
    ensures CountFailed(FileResults(stem)[..i]) == if i > 0 && Contains(stem, FailKeyword) then 1 else 0
  {
    if i > 0 {
      FileFailuresPrefix(stem, i - 1);
      assert FileResults(stem)[..i][..i - 1] == FileResults(stem)[..i - 1];
    }
  }

  /** A test file fails exactly once when its stem contains "fail", and never otherwise. */
  lemma FileFailures(stem: string)
    ensures CountFailed(FileResults(stem)) == if Contains(stem, FailKeyword) then 1 else 0
  {
    FileFailuresPrefix(stem, TestCount(stem));
    assert FileResults(stem)[..TestCount(stem)] == FileResults(stem);
  }

  /** The number of kept files whose stem contains "fail". */
  function FailingFiles(stems: seq<string>, pattern: Option<string>): (r: nat)
    ensures r <= |stems|
  {
    if stems == [] then 0
    else
      var last := stems[|stems| - 1];
      FailingFiles(stems[..|stems| - 1], pattern) + (if Kept(last, pattern) && Contains(last, FailKeyword) then 1 else 0)
  }

  /** A run has exactly one failure per kept file whose stem contains "fail". */
  lemma {:induction false} TestRunFailures(stems: seq<string>, pattern: Option<string>)
    ensures CountFailed(TestRun(stems, pattern)) == FailingFiles(stems, pattern)
  {
    if stems != [] {
      var front := stems[..|stems| - 1];
      var last := stems[|stems| - 1];
      TestRunFailures(front, pattern);
      var tail := if Kept(last, pattern) then FileResults(last) else [];
      assert TestRun(stems, pattern) == TestRun(front, pattern) + tail;
      assert FailingFiles(stems, pattern) ==
        FailingFiles(front, pattern) + (if Kept(last, pattern) && Contains(last, FailKeyword) then 1 else 0);
      CountFailedAppend(TestRun(front, pattern), tail);
      if Kept(last, pattern) {
        FileFailures(last);
      } else {
        assert CountFailed(tail) == 0;
      }
    }
  }

  // ---------------------------------------------------------------------
  // Lint simulation
  // ---------------------------------------------------------------------

  datatype LintIssue = LintIssue(file: string, line: nat, column: nat, severity: string, message: string, rule: string, fixable: bool)

  /** The words in a file name that make the simulator report an issue. */
  const ComponentKeyword := "component"
  const ApiKeyword := "api"
  const UtilsKeyword := "utils"

  const UnusedVarsRule := "no-unused-vars"
  const ReturnTypeRule := "explicit-function-return-type"
  const ConstAssertionsRule := "prefer-const-assertions"

  function ComponentIssue(file: string): LintIssue {
    LintIssue(file, 5, 10, "warning", "Unused variable 'props'", UnusedVarsRule, true)
  }

  function ApiIssue(file: string): LintIssue {
    LintIssue(file, 12, 1, "error", "Missing return type annotation", ReturnTypeRule, true)
  }

  function UtilsIssue(file: string): LintIssue {
    LintIssue(file, 8, 15, "warning", "Prefer const assertions", ConstAssertionsRule, false)
  }

  /** The position of a simulated issue's rule in the order the simulator checks them. */
  function RuleRank(rule: string): nat {
    if rule == UnusedVarsRule then 0 else if rule == ReturnTypeRule then 1 else 2
  }

  /**
   * The issues `simulate_lint_issues` reports for a file name: one for
   * "component", one for "api", one for "utils", in that order; the first
   * two are fixable and the last is not.
   */
  function LintIssuesFor(file: string): (r: seq<LintIssue>)
    ensures |r| <= 3
  {
    (if Contains(file, ComponentKeyword) then [ComponentIssue(file)] else [])
    + (if Contains(file, ApiKeyword) then [ApiIssue(file)] else [])
    + (if Contains(file, UtilsKeyword) then [UtilsIssue(file)] else [])
  }

  /** Each simulated issue names the file, only the const-assertions issue is not fixable, and the rules come in the simulator's order. */
  lemma LintIssuesShape(file: string)
    ensures var r := LintIssuesFor(file);
      && (forall i :: 0 <= i < |r| ==> r[i].file == file)
      && (forall i :: 0 <= i < |r| ==> (r[i].fixable <==> r[i].rule != ConstAssertionsRule))
      && (forall i, j :: 0 <= i < j < |r| ==> RuleRank(r[i].rule) < RuleRank(r[j].rule))
  {
  }

  /** A file's simulated issues: one per keyword its name contains. */
  lemma LintIssuesMembers(file: string)
    ensures var r := LintIssuesFor(file);
      && (ComponentIssue(file) in r <==> Contains(file, ComponentKeyword))
      && (ApiIssue(file) in r <==> Contains(file, ApiKeyword))
      && (UtilsIssue(file) in r <==> Contains(file, UtilsKeyword))
  {
  }

  /** `simulate_lint_issues`: pushes the issues for each keyword the file name contains. */
  method SimulateLintIssues(file: string) returns (issues: seq<LintIssue>)
    ensures issues == LintIssuesFor(file)
  {
    issues := [];
    if Contains(file, ComponentKeyword) {
      issues := issues + [ComponentIssue(file)];
    }
    if Contains(file, ApiKeyword) {
      issues := issues + [ApiIssue(file)];
    }
    if Contains(file, UtilsKeyword) {
      issues := issues + [UtilsIssue(file)];
    }
  }

  /** The issues of all files, file after file. */
  function AllLintIssues(files: seq<string>): seq<LintIssue>
  {
    if files == [] then [] else AllLintIssues(files[..|files| - 1]) + LintIssuesFor(files[|files| - 1])
  }

  /** The number of fixable issues; never more than the number of issues. */
  function CountFixable(issues: seq<LintIssue>): (r: nat)
    ensures r <= |issues|
  {
    if issues == [] then 0
    else CountFixable(issues[..|issues| - 1]) + (if issues[|issues| - 1].fixable then 1 else 0)
  }

  lemma CountFixableSnoc(issues: seq<LintIssue>, x: LintIssue)
    ensures CountFixable(issues + [x]) == CountFixable(issues) + (if x.fixable then 1 else 0)
  {
    assert (issues + [x])[..|issues|] == issues;
  }

  lemma AllLintIssuesSnoc(files: seq<string>, n: nat)
    requires n < |files|
    ensures AllLintIssues(files[..n + 1]) == AllLintIssues(files[..n]) + LintIssuesFor(files[n])
  {
    assert files[..n + 1][..n] == files[..n];
  }

  /**
   * The counters of `lint_code`: the issues of every file, their total, the
   * fixable ones, and the total left after fixing in fix mode.  The fixable
   * count never exceeds the total, so the subtraction cannot underflow.
   */
  method LintCode(files: seq<string>, fix: bool) returns (issues: seq<LintIssue>, totalIssues: nat, fixableIssues: nat)
    ensures issues == AllLintIssues(files)
    ensures fixableIssues == CountFixable(issues) && fixableIssues <= |issues|
    ensures totalIssues == if fix then |issues| - fixableIssues else |issues|
  {
    issues := [];
    totalIssues := 0;
    fixableIssues := 0;
    for n := 0 to |files|
      invariant issues == AllLintIssues(files[..n])
      invariant totalIssues == |issues| && fixableIssues == CountFixable(issues)
    {
      AllLintIssuesSnoc(files, n);
      var fileIssues := SimulateLintIssues(files[n]);
      totalIssues := totalIssues + |fileIssues|;
      issues, fixableIssues := PushIssues(issues, fixableIssues, fileIssues);
    }
    assert files[..|files|] == files;
    if fix && fixableIssues > 0 {
      totalIssues := totalIssues - fixableIssues;
    }
  }

  /** The inner loop of `lint_code`: pushes a file's issues, counting the fixable ones. */
  method PushIssues(issues: seq<LintIssue>, fixableIssues: nat, fileIssues: seq<LintIssue>)
    returns (issues': seq<LintIssue>, fixableIssues': nat)
    requires fixableIssues == CountFixable(issues)
    ensures issues' == issues + fileIssues && fixableIssues' == CountFixable(issues')
  {
    issues', fixableIssues' := issues, fixableIssues;
    for k := 0 to |fileIssues|
      invariant issues' == issues + fileIssues[..k]
      invariant fixableIssues' == CountFixable(issues')
    {
      CountFixableSnoc(issues', fileIssues[k]);
      if fileIssues[k].fixable {
        fixableIssues' := fixableIssues' + 1;
      }
      issues' := issues' + [fileIssues[k]];
      PrefixSnoc(fileIssues, k);
    }
    assert fileIssues[..|fileIssues|] == fileIssues;
  }

  // ---------------------------------------------------------------------
  // Byte sizes
  // ---------------------------------------------------------------------

  const Units := ["B", "KB", "MB", "GB", "TB"]

  function Pow1024(k: nat): (r: nat)
    ensures r >= 1
  {
    if k == 0 then 1 else 1024 * Pow1024(k - 1)
  }

  /**
   * The unit loop of `format_bytes`: divides by 1024 while the size is at
   * least 1024 and a larger unit remains.  The unit index stays in range,
   * the scaled size times 1024 to the index is the byte count, the size is
   * below 1024 unless the unit is the last, and at least 1 unless it is bytes.
   */
  method FormatBytesUnit(bytes: nat) returns (size: real, unitIndex: nat, unit: string)
    ensures unitIndex < |Units| && unit == Units[unitIndex]
    ensures size * (Pow1024(unitIndex) as real) == bytes as real
    ensures unitIndex < |Units| - 1 ==> size < 1024.0
    ensures unitIndex > 0 ==> size >= 1.0
  {
    size := bytes as real;
    unitIndex := 0;
    while size >= 1024.0 && unitIndex < |Units| - 1
      invariant unitIndex < |Units|
      invariant size * (Pow1024(unitIndex) as real) == bytes as real
      invariant unitIndex > 0 ==> size >= 1.0
      decreases |Units| - unitIndex
    {
      var p := Pow1024(unitIndex) as real;
      assert (size / 1024.0) * (p * 1024.0) == size * p;
      size := size / 1024.0;
      unitIndex := unitIndex + 1;
    }
    unit := Units[unitIndex];
  }

  // ---------------------------------------------------------------------
  // Project layout
  // ---------------------------------------------------------------------

  const BaseDirs := ["src", "src/components", "src/pages", "src/api", "src/utils", "src/types", "tests", "public", "dist", ".synapse"]

  const Templates := {"api", "fullstack", "ui-library", "enterprise"}

  /** The directories each template adds to the base layout. */
  const ApiDirs := ["src/routes", "src/middleware", "src/controllers", "src/models", "src/config", "docs"]
  const FullstackDirs := ["src/client", "src/server", "src/shared", "src/client/components", "src/client/pages",
    "src/client/hooks", "src/server/routes", "src/server/middleware"]
  const UiLibraryDirs := ["src/components/ui", "src/components/forms", "src/components/layout", "src/stories",
    "src/themes", "docs", "examples"]
  const EnterpriseDirs := ["src/modules", "src/services", "src/guards", "src/interceptors", "src/validators",
    "src/constants", "docs", "deployments", "scripts"]

  /** The directories a template adds to the base layout; none for an unrecognised template. */
  function TemplateDirs(template: string): (r: seq<string>)
    ensures template !in Templates ==> r == []
    ensures template in Templates ==> 6 <= |r| <= 9
  {
    if template == "api" then ApiDirs
    else if template == "fullstack" then FullstackDirs
    else if template == "ui-library" then UiLibraryDirs
    else if template == "enterprise" then EnterpriseDirs
    else []
  }

  /**
   * The directory list of `create_project_structure`: the ten base
   * directories first, always, then the template's own.
   */
  method ProjectDirectories(template: string) returns (dirs: seq<string>)
    ensures |dirs| >= 10 && dirs[..10] == BaseDirs
    ensures dirs[10..] == TemplateDirs(template)
    ensures template !in Templates ==> dirs == BaseDirs
  {
    dirs := BaseDirs;
    if template == "api" {
      dirs := dirs + ApiDirs;
    } else if template == "fullstack" {
      dirs := dirs + FullstackDirs;
    } else if template == "ui-library" {
      dirs := dirs + UiLibraryDirs;
    } else if template == "enterprise" {
      dirs := dirs + EnterpriseDirs;
    }
  }
}
