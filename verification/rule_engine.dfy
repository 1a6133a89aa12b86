/**
 * The rule engine (packages/rule-engine-rust/src/lib.rs): a list of rules
 * edited in place, line-by-line checks of a file's text against each rule,
 * suggested fixes, and a summary that counts the violations.
 */
module RuleEngine {
  import opened Wrappers
  import opened Text

  datatype Rule = Rule(
    id: string,
    category: Option<string>,
    severity: string,
    title: string,
    description: string,
    remediation: string,
    pattern: Option<string>,
    logic: string,
    tags: seq<string>,
    createdAt: string,
    updatedAt: string)

  /** A violation; its random id and its creation time are not modelled. */
  datatype Violation = Violation(
    ruleId: string,
    filePath: string,
    lineNumber: Option<nat>,
    message: string,
    severity: string,
    category: string,
    autoFixable: bool,
    suggestedFix: Option<string>)

  datatype DataSource = DataSource(id: string, name: string, url: string,
    lastChecked: Option<string>, lastUpdated: Option<string>, data: string)

  datatype CacheEntry = CacheEntry(key: string, data: string, expiresAt: string, createdAt: string)

  /**
   * What the checks need from outside: whether a rule's pattern compiles as
   * a regular expression and whether it matches a line, and whether the
   * pattern names an existing file beside the checked one.
   */
  datatype Oracle = Oracle(
    regexCompiles: string -> bool,
    regexMatches: (string, string) -> bool,
    siblingExists: (string, string) -> bool)

  // ---------------------------------------------------------------- rule list

  /** The position of the first rule with the given id. */
  function FirstIndex(rules: seq<Rule>, id: string): (r: Option<nat>)
    ensures r.Some? ==> (r.value < |rules| && rules[r.value].id == id &&
      forall j :: 0 <= j < r.value ==> rules[j].id != id)
    ensures r.None? <==> forall j :: 0 <= j < |rules| ==> rules[j].id != id
  {
    if rules == [] then None
    else if rules[0].id == id then Some(0)
    else match FirstIndex(rules[1..], id)
      case None => None
      case Some(i) => Some(i + 1)
  }

  // ---------------------------------------------------------------- checking one rule

  const AutoFixableTag := "auto-fixable"
  const DefaultCategory := "default"

  /** `is_auto_fixable`: the rule carries the tag "auto-fixable". */
  predicate IsAutoFixable(rule: Rule) {
    AutoFixableTag in rule.tags
  }

  /**
   * `generate_suggested_fix`: none unless the rule is auto-fixable; for a
   * "contains" rule with a pattern, the line with every occurrence removed;
   * otherwise the remediation text.
   */
  function SuggestedFix(rule: Rule, line: string): (r: Option<string>)
    ensures !IsAutoFixable(rule) ==> r.None?
    ensures IsAutoFixable(rule) && rule.logic != "contains" ==> r == Some(rule.remediation)
    ensures IsAutoFixable(rule) && rule.logic == "contains" ==> (r.Some? <==> rule.pattern.Some?)
    ensures IsAutoFixable(rule) && rule.logic == "contains" && rule.pattern.Some? ==>
      r == Some(Replace(line, rule.pattern.value, ""))
  {
    if !IsAutoFixable(rule) then None
    else if rule.logic == "contains" then
      match rule.pattern
      case Some(p) => Some(Replace(line, p, ""))
      case None => None
    else Some(rule.remediation)
  }

  /** A violation of `rule` in `filePath`, at a line or for the whole file. */
  function ViolationOf(rule: Rule, filePath: string, lineNumber: Option<nat>, fix: Option<string>): Violation {
    Violation(rule.id, filePath, lineNumber, rule.title + ": " + rule.description, rule.severity,
      rule.category.GetOr(DefaultCategory), IsAutoFixable(rule), fix)
  }

  /** Whether a line is hit by a line-wise rule ("regex" or "contains") with pattern `p`. */
  predicate LineHits(rule: Rule, p: string, line: string, oracle: Oracle) {
    if rule.logic == "regex" then oracle.regexMatches(p, line) else Contains(line, p)
  }

  /** One violation per hit line, numbered from 1, in line order. */
  function LineViolations(rule: Rule, p: string, filePath: string, lines: seq<string>, oracle: Oracle): (r: seq<Violation>)
    ensures |r| <= |lines|
  {
    if lines == [] then []
    else
      var n := |lines|;
      var before := LineViolations(rule, p, filePath, lines[..n - 1], oracle);
      if LineHits(rule, p, lines[n - 1], oracle) then
        before + [ViolationOf(rule, filePath, Some(n), SuggestedFix(rule, lines[n - 1]))]
      else before
  }

  /** Each violation names a hit line by its 1-based number and carries that line's fix. */
  lemma {:induction false} LineViolationAt(rule: Rule, p: string, filePath: string, lines: seq<string>, oracle: Oracle, k: nat)
    requires k < |LineViolations(rule, p, filePath, lines, oracle)|
    ensures var v := LineViolations(rule, p, filePath, lines, oracle)[k];
      v.lineNumber.Some? && 1 <= v.lineNumber.value <= |lines| &&
      LineHits(rule, p, lines[v.lineNumber.value - 1], oracle) &&
      v == ViolationOf(rule, filePath, v.lineNumber, SuggestedFix(rule, lines[v.lineNumber.value - 1]))
  {
    var n := |lines|;
    var init := lines[..n - 1];
    var before := LineViolations(rule, p, filePath, init, oracle);
    if k < |before| {
      LineViolationAt(rule, p, filePath, init, oracle, k);
      var m := before[k].lineNumber.value;
      assert init[m - 1] == lines[m - 1];
    }
  }

  /** The line numbers strictly increase. */
  lemma {:induction false} LineViolationsIncrease(rule: Rule, p: string, filePath: string, lines: seq<string>, oracle: Oracle, k: nat, l: nat)
    requires k < l < |LineViolations(rule, p, filePath, lines, oracle)|
    ensures var r := LineViolations(rule, p, filePath, lines, oracle);
      r[k].lineNumber.Some? && r[l].lineNumber.Some? && r[k].lineNumber.value < r[l].lineNumber.value
  {
    LineViolationAt(rule, p, filePath, lines, oracle, l);
    var n := |lines|;
    var init := lines[..n - 1];
    var before := LineViolations(rule, p, filePath, init, oracle);
    LineViolationAt(rule, p, filePath, init, oracle, k);
    if l < |before| {
      LineViolationsIncrease(rule, p, filePath, init, oracle, k, l);
    }
  }

  /** Every hit line has its violation. */
  lemma {:induction false} LineViolationsComplete(rule: Rule, p: string, filePath: string, lines: seq<string>, oracle: Oracle, i: nat)
    requires i < |lines| && LineHits(rule, p, lines[i], oracle)
    ensures exists k :: (0 <= k < |LineViolations(rule, p, filePath, lines, oracle)| &&
      LineViolations(rule, p, filePath, lines, oracle)[k].lineNumber == Some(i + 1))
  {
    var n := |lines|;
    var init := lines[..n - 1];
    var r := LineViolations(rule, p, filePath, lines, oracle);
    var before := LineViolations(rule, p, filePath, init, oracle);
    if i < n - 1 {
      assert init[i] == lines[i];
      LineViolationsComplete(rule, p, filePath, init, oracle, i);
      var k :| 0 <= k < |before| && before[k].lineNumber == Some(i + 1);
      assert r[k] == before[k];
    } else {
      assert r[|before|].lineNumber == Some(n);
    }
  }

  /** `check_rule_against_file` for a file with the given text. */
  function RuleViolations(rule: Rule, filePath: string, content: string, oracle: Oracle): (r: seq<Violation>)
    ensures rule.pattern.None? ==> r == []
    ensures rule.logic !in {"regex", "contains", "not_contains", "file_exists"} ==> r == []
    ensures rule.logic == "not_contains" && rule.pattern.Some? ==>
      (r != [] <==> !Contains(content, rule.pattern.value)) &&
      (r != [] ==> r == [ViolationOf(rule, filePath, None, Some(rule.remediation))])
  {
    match rule.pattern
    case None => []
    case Some(p) =>
      if rule.logic == "regex" then
        if oracle.regexCompiles(p) then LineViolations(rule, p, filePath, Lines(content), oracle) else []
      else if rule.logic == "contains" then LineViolations(rule, p, filePath, Lines(content), oracle)
      else if rule.logic == "not_contains" then
        if !Contains(content, p) then [ViolationOf(rule, filePath, None, Some(rule.remediation))] else []
      else if rule.logic == "file_exists" then
        if !oracle.siblingExists(filePath, p) then [ViolationOf(rule, filePath, None, Some(rule.remediation))] else []
      else []
  }

  /** The loop over the lines of `check_rule_against_file`, for a line-wise rule. */
  method CheckLines(rule: Rule, p: string, filePath: string, lines: seq<string>, oracle: Oracle)
    returns (violations: seq<Violation>)
    ensures violations == LineViolations(rule, p, filePath, lines, oracle)
  {
    violations := [];
    for i := 0 to |lines|
      invariant violations == LineViolations(rule, p, filePath, lines[..i], oracle)
    {
      assert lines[..i + 1][..i] == lines[..i];
      if LineHits(rule, p, lines[i], oracle) {
        violations := violations + [ViolationOf(rule, filePath, Some(i + 1), SuggestedFix(rule, lines[i]))];
      }
    }
    assert lines[..|lines|] == lines;
  }

  /** `check_rule_against_file`. */
  method CheckRuleAgainstFile(rule: Rule, filePath: string, content: string, oracle: Oracle)
    returns (violations: seq<Violation>)
    ensures violations == RuleViolations(rule, filePath, content, oracle)
  {
    violations := [];
    match rule.pattern
    case None =>
    case Some(p) =>
      if rule.logic == "regex" {
        if oracle.regexCompiles(p) {
          violations := CheckLines(rule, p, filePath, Lines(content), oracle);
        }
      } else if rule.logic == "contains" {
        violations := CheckLines(rule, p, filePath, Lines(content), oracle);
      } else if rule.logic == "not_contains" || rule.logic == "file_exists" {
        var missing := if rule.logic == "not_contains" then !Contains(content, p) else !oracle.siblingExists(filePath, p);
        if missing {
          violations := [ViolationOf(rule, filePath, None, Some(rule.remediation))];
        }
      }
  }

  /** A "contains" rule hits exactly the lines holding its pattern, numbered from 1 in order. */
  lemma ContainsHitsLines(rule: Rule, filePath: string, content: string, oracle: Oracle, i: nat)
    requires rule.logic == "contains" && rule.pattern.Some? && i < |Lines(content)|
    ensures Contains(Lines(content)[i], rule.pattern.value) <==>
      exists k :: 0 <= k < |RuleViolations(rule, filePath, content, oracle)| &&
        RuleViolations(rule, filePath, content, oracle)[k].lineNumber == Some(i + 1)
  {
    var r := RuleViolations(rule, filePath, content, oracle);
    var lines := Lines(content);
    var p := rule.pattern.value;
    if Contains(lines[i], p) {
      LineViolationsComplete(rule, p, filePath, lines, oracle, i);
    }
    if exists k :: 0 <= k < |r| && r[k].lineNumber == Some(i + 1) {
      var k :| 0 <= k < |r| && r[k].lineNumber == Some(i + 1);
      LineViolationAt(rule, p, filePath, lines, oracle, k);
    }
  }

  /** Removing a pattern that occurs once, and whose first character occurs nowhere else, leaves the rest of the line. */
  lemma FixRemovesOccurrence(rule: Rule, a: string, p: string, b: string)
    requires IsAutoFixable(rule) && rule.logic == "contains" && rule.pattern == Some(p)
    requires p != [] && p[0] !in a && p[0] !in b
    ensures SuggestedFix(rule, a + p + b) == Some(a + b)
  {
    assert a + p + b == a + (p + b);
    ReplaceAllAppend(a, p + b, p, "");
    ReplaceAllLead(b, p, "");
    ReplaceAllAbsent(b, p, "");
    assert "" + b == b;
  }

  /** The fix of a "contains" rule never lengthens the line, and leaves it unchanged exactly when the pattern does not occur. */
  lemma FixChangesLineIff(rule: Rule, line: string, p: string)
    requires IsAutoFixable(rule) && rule.logic == "contains" && rule.pattern == Some(p) && p != []
    ensures SuggestedFix(rule, line).Some?
    ensures |SuggestedFix(rule, line).value| <= |line|
    ensures SuggestedFix(rule, line).value == line <==> !Contains(line, p)
  {
    RemoveAllSpec(line, p);
  }

  // ---------------------------------------------------------------- summary

  datatype RuleSummary = RuleSummary(
    totalViolations: nat,
    criticalCount: nat,
    highCount: nat,
    mediumCount: nat,
    lowCount: nat,
    autoFixableCount: nat,
    categories: map<string, nat>)

  function Lookup(m: map<string, nat>, k: string): nat {
    if k in m then m[k] else 0
  }

  /** The categories of the violations, with their multiplicities. */
  function CategoryBag(violations: seq<Violation>): (r: multiset<string>)
    ensures |r| == |violations|
  {
    if violations == [] then multiset{}
    else CategoryBag(violations[..|violations| - 1]) + multiset{violations[|violations| - 1].category}
  }

  /** The number of violations with the given severity text. */
  function CountSeverity(violations: seq<Violation>, severity: string): (r: nat)
    ensures r <= |violations|
  {
    if violations == [] then 0
    else
      CountSeverity(violations[..|violations| - 1], severity) +
      (if violations[|violations| - 1].severity == severity then 1 else 0)
  }

  /** The number of auto-fixable violations. */
  function CountFixable(violations: seq<Violation>): (r: nat)
    ensures r <= |violations|
  {
    if violations == [] then 0
    else CountFixable(violations[..|violations| - 1]) + (if violations[|violations| - 1].autoFixable then 1 else 0)
  }

  /** `create_summary`, one violation at a time. */
  function SummaryOf(violations: seq<Violation>): RuleSummary {
    if violations == [] then RuleSummary(0, 0, 0, 0, 0, 0, map[])
    else
      var s := SummaryOf(violations[..|violations| - 1]);
      var v := violations[|violations| - 1];
      RuleSummary(
        s.totalViolations + 1,
        s.criticalCount + (if v.severity == "Critical" then 1 else 0),
        s.highCount + (if v.severity == "High" then 1 else 0),
        s.mediumCount + (if v.severity == "Medium" then 1 else 0),
        s.lowCount + (if v.severity == "Low" then 1 else 0),
        s.autoFixableCount + (if v.autoFixable then 1 else 0),
        s.categories[v.category := Lookup(s.categories, v.category) + 1])
  }

  /**
   * The summary's total is the number of violations, the four severity
   * counts count those severity texts (other texts are counted in none),
   * the auto-fixable count counts the auto-fixable ones, and each category
   * is counted as often as it occurs, so the category counts sum to the total.
   */
  lemma {:induction false} SummaryCounts(violations: seq<Violation>)
    ensures var r := SummaryOf(violations);
      r.totalViolations == |violations| &&
      r.criticalCount == CountSeverity(violations, "Critical") &&
      r.highCount == CountSeverity(violations, "High") &&
      r.mediumCount == CountSeverity(violations, "Medium") &&
      r.lowCount == CountSeverity(violations, "Low") &&
      r.autoFixableCount == CountFixable(violations)
  {
    if violations != [] {
      SummaryCounts(violations[..|violations| - 1]);
    }
  }

  /** Each category is counted as often as it occurs, and only occurring categories are keys. */
  lemma {:induction false} SummaryCategories(violations: seq<Violation>)
    ensures forall c :: Lookup(SummaryOf(violations).categories, c) == CategoryBag(violations)[c]
    ensures forall c :: c in SummaryOf(violations).categories ==> SummaryOf(violations).categories[c] > 0
  {
    if violations != [] {
      SummaryCategories(violations[..|violations| - 1]);
    }
  }

  /** The four severity counts together never exceed the total. */
  lemma {:induction false} SeverityCountsBounded(violations: seq<Violation>)
    ensures CountSeverity(violations, "Critical") + CountSeverity(violations, "High") +
      CountSeverity(violations, "Medium") + CountSeverity(violations, "Low") <= |violations|
  {
    if violations != [] {
      SeverityCountsBounded(violations[..|violations| - 1]);
    }
  }

  /** The loop of `create_summary`. */
  method CreateSummary(violations: seq<Violation>) returns (summary: RuleSummary)
    ensures summary == SummaryOf(violations)
  {
    var critical, high, medium, low, fixable := 0, 0, 0, 0, 0;
    var categories: map<string, nat> := map[];
    for i := 0 to |violations|
      invariant SummaryOf(violations[..i]) == RuleSummary(i, critical, high, medium, low, fixable, categories)
    {
      assert violations[..i + 1][..i] == violations[..i];
      var v := violations[i];
      if v.severity == "Critical" {
        critical := critical + 1;
      } else if v.severity == "High" {
        high := high + 1;
      } else if v.severity == "Medium" {
        medium := medium + 1;
      } else if v.severity == "Low" {
        low := low + 1;
      }
      if v.autoFixable {
        fixable := fixable + 1;
      }
      categories := categories[v.category := Lookup(categories, v.category) + 1];
    }
    assert violations[..|violations|] == violations;
    summary := RuleSummary(|violations|, critical, high, medium, low, fixable, categories);
  }

  // ---------------------------------------------------------------- paths

  const SkipDirs: seq<string> := ["node_modules", "target", "dist", "build", ".git", "coverage"]
  const CheckedExtensions: seq<string> := [".ts", ".js", ".tsx", ".jsx", ".rs", ".toml", ".json", ".md"]

  /** `should_skip_directory`: the path contains one of the six names anywhere. */
  function ShouldSkipDirectory(path: string): (r: bool)
    ensures r <==> exists i :: 0 <= i < |SkipDirs| && Contains(path, SkipDirs[i])
  {
    AnyContained(path, SkipDirs)
  }

  function AnyContained(path: string, names: seq<string>): (r: bool)
    ensures r <==> exists i :: 0 <= i < |names| && Contains(path, names[i])
  {
    if names == [] then false
    else if Contains(path, names[0]) then true
    else
      var r := AnyContained(path, names[1..]);
      assert forall i :: 1 <= i < |names| ==> names[1..][i - 1] == names[i];
      r
  }

  /** `should_check_file`: the path ends with one of the eight extensions. */
  function ShouldCheckFile(path: string): (r: bool)
    ensures r <==> exists i :: 0 <= i < |CheckedExtensions| && EndsWith(path, CheckedExtensions[i])
  {
    AnyEnding(path, CheckedExtensions)
  }

  function AnyEnding(path: string, exts: seq<string>): (r: bool)
    ensures r <==> exists i :: 0 <= i < |exts| && EndsWith(path, exts[i])
  {
    if exts == [] then false
    else if EndsWith(path, exts[0]) then true
    else
      var r := AnyEnding(path, exts[1..]);
      assert forall i :: 1 <= i < |exts| ==> exts[1..][i - 1] == exts[i];
      r
  }

  /** A path ending in one of the skipped names is skipped, whatever comes before it. */
  lemma SkipsNamedDirectory(prefix: string, i: nat)
    requires i < |SkipDirs|
    ensures ShouldSkipDirectory(prefix + SkipDirs[i])
  {
    ContainsSuffix(prefix, SkipDirs[i]);
  }

  /** A text contains any of its suffixes. */
  lemma {:induction false} ContainsSuffix(prefix: string, s: string)
    ensures Contains(prefix + s, s)
    decreases |prefix|
  {
    if prefix == [] {
      assert prefix + s == s;
      assert (prefix + s)[..|s|] == s;
    } else {
      assert (prefix + s)[1..] == prefix[1..] + s;
      ContainsSuffix(prefix[1..], s);
    }
  }

  /** "test.ts" and "test.rs" are checked and "test.txt" is not. */
  lemma CheckedFileExamples(ts: string, rs: string, txt: string)
    requires ts == "test.ts" && rs == "test.rs" && txt == "test.txt"
    ensures ShouldCheckFile(ts) && ShouldCheckFile(rs) && !ShouldCheckFile(txt)
  {
    assert EndsWith(ts, CheckedExtensions[0]);
    assert EndsWith(rs, CheckedExtensions[4]);
    forall i | 0 <= i < |CheckedExtensions| ensures !EndsWith(txt, CheckedExtensions[i]) {
      assert txt[|txt| - 1] == 't' && txt[|txt| - 2] == 'x';
    }
  }

  // ---------------------------------------------------------------- checking a file

  /** What reading a path gives: no file, a read error, or the text. */
  datatype FileState = Missing | Unreadable(error: string) | Readable(text: string)

  datatype CheckResult = CheckResult(violations: seq<Violation>, summary: RuleSummary)

  /** The violations of every rule, in rule order. */
  function AllViolations(rules: seq<Rule>, filePath: string, content: string, oracle: Oracle): seq<Violation> {
    if rules == [] then []
    else
      AllViolations(rules[..|rules| - 1], filePath, content, oracle) +
      RuleViolations(rules[|rules| - 1], filePath, content, oracle)
  }

  // ---------------------------------------------------------------- the engine

  class RuleEngine {
    var rules: seq<Rule>
    var dataSources: map<string, DataSource>
    var cache: map<string, CacheEntry>

    /** `RuleEngine::new`: no rules, data sources or cache entries. */
    constructor ()
      ensures rules == [] && dataSources == map[] && cache == map[]
    {
      rules := [];
      dataSources := map[];
      cache := map[];
    }

    /** `add_rule`: appended at the end. */
    method AddRule(rule: Rule)
      modifies this
      ensures rules == old(rules) + [rule]
      ensures dataSources == old(dataSources) && cache == old(cache)
    {
      rules := rules + [rule];
    }

    /** `add_rules`: appended at the end, in order. */
    method AddRules(more: seq<Rule>)
      modifies this
      ensures rules == old(rules) + more
      ensures dataSources == old(dataSources) && cache == old(cache)
    {
      rules := rules + more;
    }

    /** `add_data_source`: stored under its id, replacing any source with that id. */
    method AddDataSource(source: DataSource)
      modifies this
      ensures dataSources == old(dataSources)[source.id := source]
      ensures rules == old(rules) && cache == old(cache)
    {
      dataSources := dataSources[source.id := source];
    }

    /** `get_rule_by_id`: the first rule with the id. */
    function GetRuleById(id: string): (r: Option<Rule>)
      reads this
      ensures r.None? <==> forall j :: 0 <= j < |rules| ==> rules[j].id != id
      ensures r.Some? ==> exists i :: (0 <= i < |rules| && rules[i] == r.value && r.value.id == id &&
        forall j :: 0 <= j < i ==> rules[j].id != id)
    {
      match FirstIndex(rules, id)
      case None => None
      case Some(i) => Some(rules[i])
    }

    /** `update_rule`: the first rule with the id is replaced; false and no change when there is none. */
    method UpdateRule(id: string, updated: Rule) returns (found: bool)
      modifies this
      ensures found <==> exists j :: 0 <= j < |old(rules)| && old(rules)[j].id == id
      ensures found ==> rules == old(rules)[FirstIndex(old(rules), id).value := updated]
      ensures !found ==> rules == old(rules)
      ensures dataSources == old(dataSources) && cache == old(cache)
    {
      match FirstIndex(rules, id)
      case Some(i) =>
        rules := rules[i := updated];
        found := true;
      case None =>
        found := false;
    }

    /** `delete_rule`: the first rule with the id is removed; false and no change when there is none. */
    method DeleteRule(id: string) returns (found: bool)
      modifies this
      ensures found <==> exists j :: 0 <= j < |old(rules)| && old(rules)[j].id == id
      ensures found ==> |rules| == |old(rules)| - 1
      ensures found ==> var i := FirstIndex(old(rules), id).value;
        rules == old(rules)[..i] + old(rules)[i + 1..]
      ensures !found ==> rules == old(rules)
      ensures dataSources == old(dataSources) && cache == old(cache)
    {
      match FirstIndex(rules, id)
      case Some(i) =>
        rules := rules[..i] + rules[i + 1..];
        found := true;
      case None =>
        found := false;
    }

    /** `clear_cache`. */
    method ClearCache()
      modifies this
      ensures cache == map[]
      ensures rules == old(rules) && dataSources == old(dataSources)
    {
      cache := map[];
    }

    /**
     * `check_file`: an error for a missing or unreadable file; otherwise
     * every rule's violations in rule order, and their summary.
     */
    method CheckFile(filePath: string, file: FileState, oracle: Oracle) returns (r: Result<CheckResult, string>)
      ensures file.Missing? ==> r == Failure("File does not exist")
      ensures file.Unreadable? ==> r == Failure("Failed to read file: " + file.error)
      ensures file.Readable? ==> r.Success?
      ensures file.Readable? ==> r.value.violations == AllViolations(rules, filePath, file.text, oracle)
      ensures file.Readable? ==> r.value.summary == SummaryOf(r.value.violations)
    {
      match file
      case Missing =>
        r := Failure("File does not exist");
      case Unreadable(e) =>
        r := Failure("Failed to read file: " + e);
      case Readable(content) =>
        var violations: seq<Violation> := [];
        for i := 0 to |rules|
          invariant violations == AllViolations(rules[..i], filePath, content, oracle)
        {
          assert rules[..i + 1][..i] == rules[..i];
          var found := CheckRuleAgainstFile(rules[i], filePath, content, oracle);
          violations := violations + found;
        }
        assert rules[..|rules|] == rules;
        var summary := CreateSummary(violations);
        r := Success(CheckResult(violations, summary));
    }
  }

  /** A rule added under a fresh id is the one later found, updated or deleted by that id: it sits at the end. */
  lemma AddedRuleFound(rules: seq<Rule>, rule: Rule)
    requires forall j :: 0 <= j < |rules| ==> rules[j].id != rule.id
    ensures FirstIndex(rules + [rule], rule.id) == Some(|rules|)
  {
    var all := rules + [rule];
    assert all[|rules|] == rule;
    assert forall j :: 0 <= j < |rules| ==> all[j] == rules[j];
  }

  /** After an update that keeps the id, that id finds the updated rule at the same place. */
  lemma UpdateThenFind(rules: seq<Rule>, id: string, updated: Rule)
    requires FirstIndex(rules, id).Some? && updated.id == id
    ensures FirstIndex(rules[FirstIndex(rules, id).value := updated], id) == FirstIndex(rules, id)
  {
    var i := FirstIndex(rules, id).value;
    var after := rules[i := updated];
    assert after[i] == updated;
    assert forall j :: 0 <= j < |rules| && j != i ==> after[j] == rules[j];
  }

  /** The element at position `k` once the one at `i` is removed. */
  lemma RemovedAt<T>(s: seq<T>, i: nat, k: nat)
    requires i < |s| && k < |s| - 1
    ensures (s[..i] + s[i + 1..])[k] == if k < i then s[k] else s[k + 1]
  {
  }

  /** After deleting the first rule with an id, that id finds the next such rule, if any. */
  lemma DeleteThenFind(rules: seq<Rule>, id: string)
    requires FirstIndex(rules, id).Some?
    ensures var i := FirstIndex(rules, id).value;
      FirstIndex(rules[..i] + rules[i + 1..], id).None? <==>
        forall j :: i < j < |rules| ==> rules[j].id != id
  {
    var i := FirstIndex(rules, id).value;
    var after := rules[..i] + rules[i + 1..];
    match FirstIndex(after, id)
    case None =>
      forall j | i < j < |rules| ensures rules[j].id != id {
        assert after[j - 1] == rules[j];
      }
    case Some(k) =>
      RemovedAt(rules, i, k);
  }
}
