/**
 * The commit-message linter (packages/commit-lint-rust/src/lib.rs): six
 * fixed rules read the header (first line) and the body (the other lines),
 * their errors and warnings are concatenated in rule order, and a score
 * from 0 to 100 is derived from the counts.  The regular expressions of the
 * rules are written out as string matchers over ASCII.
 */
module CommitLint {
  import opened Wrappers
  import opened Text

  // ---------------------------------------------------------------- header patterns

  /** The length of the longest prefix of word characters (`\w+`, greedy). */
  function WordRun(s: string): (r: nat)
    ensures r <= |s|
    ensures forall i :: 0 <= i < r ==> IsWordChar(s[i])
    ensures r < |s| ==> !IsWordChar(s[r])
  {
    if s != [] && IsWordChar(s[0]) then 1 + WordRun(s[1..]) else 0
  }

  /** The captures of `^(\w+)(?:\(([^)]+)\))?:` : the type and, when present, the scope. */
  datatype Prefix = Prefix(commitType: string, scope: Option<string>)

  /**
   * The header's `type(scope):` prefix.  The word run cannot be shortened
   * (the character after a shorter run is a word character, neither '(' nor
   * ':'), and the scope runs to the first ')', so the match is unique.
   */
  function HeaderPrefix(header: string): (r: Option<Prefix>)
    ensures r.Some? ==> (r.value.commitType != [] &&
      forall i :: 0 <= i < |r.value.commitType| ==> IsWordChar(r.value.commitType[i]))
    ensures r.Some? && r.value.scope.None? ==> StartsWith(header, r.value.commitType + ":")
    ensures r.Some? && r.value.scope.Some? ==>
      r.value.scope.value != [] && ')' !in r.value.scope.value &&
      StartsWith(header, r.value.commitType + "(" + r.value.scope.value + "):")
  {
    var n := WordRun(header);
    if n == 0 || n == |header| then None
    else if header[n] == ':' then
      assert header[..n + 1] == header[..n] + ":";
      Some(Prefix(header[..n], None))
    else if header[n] == '(' then
      var rest := header[n + 1..];
      match Find(rest, ')')
      case Some(j) =>
        if j >= 1 && j + 1 < |rest| && rest[j + 1] == ':' then
          assert header[..n + j + 3] == header[..n] + "(" + rest[..j] + "):";
          Some(Prefix(header[..n], Some(rest[..j])))
        else None
      case None => None
    else None
  }

  /** A word followed by ':' is read as a type without scope. */
  lemma PrefixOfType(t: string, rest: string)
    requires t != [] && forall i :: 0 <= i < |t| ==> IsWordChar(t[i])
    ensures HeaderPrefix(t + ":" + rest) == Some(Prefix(t, None))
  {
    var h := t + ":" + rest;
    WordRunOf(t, ":" + rest);
    assert h == t + (":" + rest);
    assert h[..|t|] == t;
  }

  /** A word, a parenthesised scope without ')' and ':' are read as type and scope. */
  lemma PrefixOfScopedType(t: string, scope: string, rest: string)
    requires t != [] && forall i :: 0 <= i < |t| ==> IsWordChar(t[i])
    requires scope != [] && ')' !in scope
    ensures HeaderPrefix(t + "(" + scope + "):" + rest) == Some(Prefix(t, Some(scope)))
  {
    var h := t + "(" + scope + "):" + rest;
    var after := "(" + scope + "):" + rest;
    assert h == t + after;
    WordRunOf(t, after);
    assert WordRun(h) == |t| && h[|t|] == '(';
    assert h[..|t|] == t;
    var r := h[|t| + 1..];
    assert r == scope + "):" + rest;
    assert r[|scope|] == ')';
    assert r[..|scope|] == scope;
    FindAt(r, ')', |scope|);
    assert r[|scope| + 1] == ':';
  }

  /** The word run of a word followed by a non-word character is that word. */
  lemma {:induction false} WordRunOf(t: string, rest: string)
    requires forall i :: 0 <= i < |t| ==> IsWordChar(t[i])
    requires rest != [] && !IsWordChar(rest[0])
    ensures WordRun(t + rest) == |t|
    decreases |t|
  {
    if t == [] {
      assert t + rest == rest;
    } else {
      assert (t + rest)[1..] == t[1..] + rest;
      WordRunOf(t[1..], rest);
    }
  }

  /**
   * The capture of `^[^:]+:\s*(.+)` : everything after the first ':' and
   * the blanks that follow it, or its last character when only blanks
   * follow, since `.+` needs one character; nothing when the header starts
   * with ':' or has none.
   */
  function Subject(header: string): (r: Option<string>)
    ensures ':' !in header ==> r.None?
    ensures r.Some? ==> r.value != [] && EndsWith(header, r.value)
  {
    match Find(header, ':')
    case None => None
    case Some(c) =>
      if c == 0 then None
      else
        var tail := header[c + 1..];
        var s := TrimStart(tail);
        TrimStartSpec(tail);
        if s != [] then Some(s)
        else if tail != [] then Some(tail[|tail| - 1..])
        else None
  }

  /** "type: subject" has that subject when the subject starts with a non-blank. */
  lemma SubjectOf(p: string, s: string)
    requires p != [] && ':' !in p
    requires s != [] && !IsWhitespace(s[0])
    ensures Subject(p + ": " + s) == Some(s)
  {
    var h := p + ": " + s;
    assert h[|p|] == ':';
    assert h[..|p|] == p;
    FindAt(h, ':', |p|);
    assert h[|p| + 1..] == " " + s;
    assert (" " + s)[1..] == s;
    assert TrimStart(s) == s;
    assert TrimStart(" " + s) == s;
  }

  // ---------------------------------------------------------------- rules

  datatype RuleResult = RuleResult(errors: seq<string>, warnings: seq<string>)

  datatype Rule = TypeEnum | ScopeEnum | SubjectLength | Case | EmptyLine | FooterFormat

  /** The rules `CommitLinter::new` installs, in order. */
  const DefaultRules: seq<Rule> := [TypeEnum, ScopeEnum, SubjectLength, Case, EmptyLine, FooterFormat]

  const ValidTypes: set<string> := {"feat", "fix", "docs", "style", "refactor", "perf", "test", "build", "ci", "chore", "revert"}
  /** The allowed types joined with ", ", in their declared order. */
  const TypeList := "feat, fix, docs, style, refactor, perf, test, build, ci, chore, revert"
  const MissingType := "Commit message must start with type:"

  /** The type rule: one error when the prefix is missing or names a type outside the list. */
  function TypeEnumRule(header: string): (r: RuleResult)
    ensures r.warnings == [] && |r.errors| <= 1
    ensures r.errors != [] <==> HeaderPrefix(header).None? || HeaderPrefix(header).value.commitType !in ValidTypes
    ensures HeaderPrefix(header).None? ==> r.errors == [MissingType]
  {
    match HeaderPrefix(header)
    case None => RuleResult([MissingType], [])
    case Some(p) =>
      if p.commitType !in ValidTypes then
        RuleResult(["Invalid type \"" + p.commitType + "\". Must be one of: " + TypeList], [])
      else RuleResult([], [])
  }

  /** The scope rule: never an error; one warning for a scope over 20 characters. */
  function ScopeEnumRule(header: string): (r: RuleResult)
    ensures r.errors == [] && |r.warnings| <= 1
    ensures r.warnings != [] <==>
      HeaderPrefix(header).Some? && HeaderPrefix(header).value.scope.Some? &&
      |HeaderPrefix(header).value.scope.value| > 20
  {
    match HeaderPrefix(header)
    case Some(Prefix(_, Some(scope))) =>
      if |scope| > 20 then RuleResult([], ["Scope should be 20 characters or less"]) else RuleResult([], [])
    case _ => RuleResult([], [])
  }

  /** The subject-length rule: an error under 10 characters, a warning over 50, never both. */
  function SubjectLengthRule(header: string): (r: RuleResult)
    ensures |r.errors| + |r.warnings| <= 1
    ensures r.errors != [] <==> Subject(header).Some? && |Subject(header).value| < 10
    ensures r.warnings != [] <==> Subject(header).Some? && |Subject(header).value| > 50
  {
    match Subject(header)
    case Some(subject) =>
      if |subject| < 10 then RuleResult(["Subject must be at least 10 characters long"], [])
      else if |subject| > 50 then RuleResult([], ["Subject should be 50 characters or less"])
      else RuleResult([], [])
    case None => RuleResult([], [])
  }

  /** The case rule: one error when the subject starts upper-case or ends with '.'. */
  function CaseRule(header: string): (r: RuleResult)
    ensures r.warnings == [] && |r.errors| <= 1
    ensures r.errors != [] <==>
      Subject(header).Some? && (IsAsciiUpper(Subject(header).value[0]) || EndsWith(Subject(header).value, "."))
  {
    match Subject(header)
    case Some(subject) =>
      if IsAsciiUpper(subject[0]) then RuleResult(["Subject must start with lowercase letter"], [])
      else if EndsWith(subject, ".") then RuleResult(["Subject must not end with period"], [])
      else RuleResult([], [])
    case None => RuleResult([], [])
  }

  /** The empty-line rule: a warning when the body's first line is not empty. */
  function EmptyLineRule(body: seq<string>): (r: RuleResult)
    ensures r.errors == [] && |r.warnings| <= 1
    ensures r.warnings != [] <==> body != [] && body[0] != []
  {
    if body != [] && body[0] != [] then RuleResult([], ["Body must be separated from header by empty line"])
    else RuleResult([], [])
  }

  // ---------------------------------------------------------------- footer

  /** The text after `Closes:`, `Fixes:` or `Resolves:` at the start of a line. */
  function AfterIssueKeyword(line: string): Option<string> {
    if StartsWith(line, "Closes:") then Some(line[7..])
    else if StartsWith(line, "Fixes:") then Some(line[6..])
    else if StartsWith(line, "Resolves:") then Some(line[9..])
    else None
  }

  /** `^(Closes|Fixes|Resolves):\s*#?\d+` : blanks, an optional '#', then a digit. */
  predicate IsIssueReference(line: string) {
    match AfterIssueKeyword(line)
    case None => false
    case Some(rest) =>
      var t := TrimStart(rest);
      var u := if t != [] && t[0] == '#' then t[1..] else t;
      u != [] && IsAsciiDigit(u[0])
  }

  const BreakingTooShort := "Breaking change description should be more detailed"

  /**
   * The footer rule for one line: a short `BREAKING CHANGE:` line warns; an
   * issue reference passes; any other line with ':' warns when the trimmed
   * text before or after its first ':' is under 3 characters.
   */
  function FooterLineWarning(line: string): (r: Option<string>)
    ensures ':' !in line ==> r.None?
  {
    if StartsWith(line, "BREAKING CHANGE:") then
      assert line[15] == ':';
      if |line| < 20 then Some(BreakingTooShort) else None
    else if IsIssueReference(line) then None
    else match Find(line, ':')
      case None => None
      case Some(c) =>
        if |Trim(line[..c])| < 3 || |Trim(line[c + 1..])| < 3 then
          Some("Footer line \"" + line + "\" should have more descriptive content")
        else None
  }

  /** The footer rule's warnings, one line at a time. */
  function FooterWarnings(body: seq<string>): (r: seq<string>)
    ensures |r| <= |body|
  {
    if body == [] then []
    else
      var w := FooterLineWarning(body[|body| - 1]);
      FooterWarnings(body[..|body| - 1]) + (if w.Some? then [w.value] else [])
  }

  /** `FooterFormatRule::validate`: the loop over the body lines. */
  method FooterFormatRule(body: seq<string>) returns (r: RuleResult)
    ensures r == RuleResult([], FooterWarnings(body))
  {
    var warnings: seq<string> := [];
    for i := 0 to |body|
      invariant warnings == FooterWarnings(body[..i])
    {
      assert body[..i + 1][..i] == body[..i];
      var line := body[i];
      if StartsWith(line, "BREAKING CHANGE:") {
        if |line| < 20 {
          warnings := warnings + [BreakingTooShort];
        }
        continue;
      }
      if IsIssueReference(line) {
        continue;
      }
      match Find(line, ':')
      case Some(c) =>
        var key := Trim(line[..c]);
        var value := Trim(line[c + 1..]);
        if |key| < 3 || |value| < 3 {
          warnings := warnings + ["Footer line \"" + line + "\" should have more descriptive content"];
        }
      case None =>
    }
    assert body[..|body|] == body;
    r := RuleResult([], warnings);
  }

  /** A body without ':' draws no footer warning. */
  lemma {:induction false} FooterNeedsColon(body: seq<string>)
    requires forall i :: 0 <= i < |body| ==> ':' !in body[i]
    ensures FooterWarnings(body) == []
  {
    if body != [] {
      FooterNeedsColon(body[..|body| - 1]);
    }
  }

  /** An issue reference never draws a footer warning. */
  lemma IssueReferencePasses(line: string)
    requires IsIssueReference(line)
    ensures FooterLineWarning(line).None?
  {
    assert line[0] == 'C' || line[0] == 'F' || line[0] == 'R';
  }

  /** `Closes: #` followed by a digit is an issue reference. */
  lemma ClosesIsIssueReference(digits: string)
    requires digits != [] && IsAsciiDigit(digits[0])
    ensures IsIssueReference("Closes: #" + digits)
  {
    var line := "Closes: #" + digits;
    assert line[..7] == "Closes:";
    assert line[7..] == " #" + digits;
    assert (" #" + digits)[1..] == "#" + digits;
    assert ("#" + digits)[1..] == digits;
  }

  // ---------------------------------------------------------------- the linter

  /** One rule's output for a header and body. */
  function RuleOutput(rule: Rule, header: string, body: seq<string>): RuleResult {
    match rule
    case TypeEnum => TypeEnumRule(header)
    case ScopeEnum => ScopeEnumRule(header)
    case SubjectLength => SubjectLengthRule(header)
    case Case => CaseRule(header)
    case EmptyLine => EmptyLineRule(body)
    case FooterFormat => RuleResult([], FooterWarnings(body))
  }

  /** The errors of several outputs concatenated, and their warnings concatenated. */
  function Concat(outs: seq<RuleResult>): RuleResult {
    if outs == [] then RuleResult([], [])
    else
      var before := Concat(outs[..|outs| - 1]);
      var last := outs[|outs| - 1];
      RuleResult(before.errors + last.errors, before.warnings + last.warnings)
  }

  /** Each rule's output, in rule order. */
  function RuleOutputs(rules: seq<Rule>, header: string, body: seq<string>): (r: seq<RuleResult>)
    ensures |r| == |rules|
  {
    seq(|rules|, i requires 0 <= i < |rules| => RuleOutput(rules[i], header, body))
  }

  /** The outputs of the rules concatenated in rule order. */
  function Outputs(rules: seq<Rule>, header: string, body: seq<string>): RuleResult {
    Concat(RuleOutputs(rules, header, body))
  }

  /**
   * `calculate_score`: 100 without issues, else 100 less 10 per error and 5
   * per warning, floored at 0.
   */
  function Score(errors: nat, warnings: nat): (r: nat)
    ensures r <= 100 && r % 5 == 0
    ensures r == 100 <==> errors == 0 && warnings == 0
    ensures errors >= 10 || warnings >= 20 ==> r == 0
  {
    if errors + warnings == 0 then 100
    else if 100 - errors * 10 - warnings * 5 < 0 then 0
    else 100 - errors * 10 - warnings * 5
  }

  /** More issues never raise the score. */
  lemma ScoreMonotone(e1: nat, w1: nat, e2: nat, w2: nat)
    requires e1 <= e2 && w1 <= w2
    ensures Score(e2, w2) <= Score(e1, w1)
  {
  }

  datatype LintResult = LintResult(valid: bool, errors: seq<string>, warnings: seq<string>, score: nat)

  /** The header: the first line, or "" for a message without lines. */
  function Header(message: string): string {
    var lines := Lines(message);
    if lines == [] then "" else lines[0]
  }

  /** The body: every line after the first. */
  function Body(message: string): seq<string> {
    var lines := Lines(message);
    if lines == [] then [] else lines[1..]
  }

  /** What `lint` reports for a message under the given rules. */
  function LintOf(rules: seq<Rule>, message: string): LintResult {
    var out := Outputs(rules, Header(message), Body(message));
    LintResult(out.errors == [], out.errors, out.warnings, Score(|out.errors|, |out.warnings|))
  }

  class CommitLinter {
    const rules: seq<Rule>

    /** `CommitLinter::new` (and `default`): the six rules in fixed order. */
    constructor ()
      ensures rules == DefaultRules
    {
      rules := DefaultRules;
    }

    /** `lint`: every rule's errors and warnings appended in rule order, then scored. */
    method Lint(message: string) returns (r: LintResult)
      ensures r == LintOf(rules, message)
      ensures r.valid <==> r.errors == []
      ensures r.score <= 100
    {
      var lines := Lines(message);
      var header := if lines == [] then "" else lines[0];
      var body := if lines == [] then [] else lines[1..];
      var errors: seq<string> := [];
      var warnings: seq<string> := [];
      for i := 0 to |rules|
        invariant RuleResult(errors, warnings) == Outputs(rules[..i], header, body)
      {
        OutputsStep(rules, i, header, body);
        var result: RuleResult;
        if rules[i] == FooterFormat {
          result := FooterFormatRule(body);
        } else {
          result := RuleOutput(rules[i], header, body);
        }
        errors := errors + result.errors;
        warnings := warnings + result.warnings;
      }
      assert rules[..|rules|] == rules;
      r := LintResult(errors == [], errors, warnings, Score(|errors|, |warnings|));
    }
  }

  /** `lint_commit_message`: an error exactly when the default rules report the message invalid. */
  function LintCommitMessage(message: string): (r: Result<(), string>)
    ensures r.Failure? <==> LintOf(DefaultRules, message).errors != []
    ensures r.Failure? ==> r.error == "Commit message validation failed"
  {
    if LintOf(DefaultRules, message).valid then Success(()) else Failure("Commit message validation failed")
  }

  /**
   * Under the default rules the errors come from the type, subject-length
   * and case rules, the warnings from the scope, subject-length, empty-line
   * and footer rules, each in that order.
   */
  lemma DefaultOutputs(header: string, body: seq<string>)
    ensures Outputs(DefaultRules, header, body) == RuleResult(
      TypeEnumRule(header).errors + SubjectLengthRule(header).errors + CaseRule(header).errors,
      ScopeEnumRule(header).warnings + SubjectLengthRule(header).warnings + EmptyLineRule(body).warnings +
      FooterWarnings(body))
    ensures |Outputs(DefaultRules, header, body).errors| <= 3
  {
    var os := RuleOutputs(DefaultRules, header, body);
    assert Outputs(DefaultRules, header, body) == Concat(os);
    ConcatOfSix(os);
    var t, sc, sl := TypeEnumRule(header), ScopeEnumRule(header), SubjectLengthRule(header);
    var c, e := CaseRule(header), EmptyLineRule(body);
    assert os[0] == t && os[1] == sc && os[2] == sl && os[3] == c && os[4] == e;
    assert os[5] == RuleResult([], FooterWarnings(body));
    assert t.warnings == [] && sc.errors == [] && c.warnings == [] && e.errors == [];
    AppendEmpty(t.errors);
    AppendEmpty(t.errors + sl.errors + c.errors);
    AppendEmpty(sc.warnings);
    AppendEmpty(sc.warnings + sl.warnings);
  }

  /** Six outputs concatenated, written out. */
  lemma ConcatOfSix(os: seq<RuleResult>)
    requires |os| == 6
    ensures Concat(os) == RuleResult(
      os[0].errors + os[1].errors + os[2].errors + os[3].errors + os[4].errors + os[5].errors,
      os[0].warnings + os[1].warnings + os[2].warnings + os[3].warnings + os[4].warnings + os[5].warnings)
  {
    assert os[..0] == [];
    ConcatStep(os, 0);
    AppendEmpty(os[0].errors);
    AppendEmpty(os[0].warnings);
    assert Concat(os[..1]) == RuleResult(os[0].errors, os[0].warnings);
    ConcatStep(os, 1);
    assert Concat(os[..2]) == RuleResult(os[0].errors + os[1].errors, os[0].warnings + os[1].warnings);
    ConcatStep(os, 2);
    assert Concat(os[..3]) == RuleResult(
      os[0].errors + os[1].errors + os[2].errors, os[0].warnings + os[1].warnings + os[2].warnings);
    ConcatStep(os, 3);
    ConcatStep(os, 4);
    ConcatStep(os, 5);
    assert os[..6] == os;
  }

  lemma ConcatStep(os: seq<RuleResult>, k: nat)
    requires k < |os|
    ensures Concat(os[..k + 1]) == RuleResult(Concat(os[..k]).errors + os[k].errors, Concat(os[..k]).warnings + os[k].warnings)
  {
    assert os[..k + 1][..k] == os[..k];
  }

  /** Running one more rule appends its errors and warnings. */
  lemma OutputsStep(rules: seq<Rule>, k: nat, header: string, body: seq<string>)
    requires k < |rules|
    ensures Outputs(rules[..k + 1], header, body) == RuleResult(
      Outputs(rules[..k], header, body).errors + RuleOutput(rules[k], header, body).errors,
      Outputs(rules[..k], header, body).warnings + RuleOutput(rules[k], header, body).warnings)
  {
    var os := RuleOutputs(rules[..k + 1], header, body);
    assert os[..k] == RuleOutputs(rules[..k], header, body);
  }

  /**
   * A message is valid under the default rules exactly when its header has
   * an allowed type and its subject, if any, has at least 10 characters,
   * starts with no capital and does not end with '.'.
   */
  lemma ValidIff(message: string)
    ensures LintOf(DefaultRules, message).valid <==>
      HeaderPrefix(Header(message)).Some? && HeaderPrefix(Header(message)).value.commitType in ValidTypes &&
      (Subject(Header(message)).Some? ==>
        var s := Subject(Header(message)).value;
        |s| >= 10 && !IsAsciiUpper(s[0]) && !EndsWith(s, "."))
  {
    DefaultOutputs(Header(message), Body(message));
  }

  /**
   * A one-line `type: subject` message with an allowed type and a subject of
   * 10 to 50 characters that starts with a lower-case, non-blank character
   * and does not end with '.' draws no issue at all.
   */
  lemma ConventionalMessageClean(t: string, s: string)
    requires t in ValidTypes && forall i :: 0 <= i < |t| ==> IsWordChar(t[i])
    requires 10 <= |s| <= 50 && !IsWhitespace(s[0]) && !IsAsciiUpper(s[0]) && !EndsWith(s, ".") && '\n' !in s
    ensures LintOf(DefaultRules, t + ": " + s) == LintResult(true, [], [], 100)
  {
    var m := t + ": " + s;
    assert '\n' !in m by {
      forall i | 0 <= i < |m| ensures m[i] != '\n' {
        if i >= |t| + 2 { assert m[i] == s[i - |t| - 2]; }
      }
    }
    LinesSingle(m);
    assert Header(m) == m && Body(m) == [];
    assert m == t + ":" + (" " + s);
    PrefixOfType(t, " " + s);
    assert m == t + ": " + s;
    assert ':' !in t by {
      forall i | 0 <= i < |t| ensures t[i] != ':' { assert IsWordChar(t[i]); }
    }
    SubjectOf(t, s);
    CleanHeaderOutputs(m, t, s);
  }

  /** A header with an allowed type, no scope and a well-formed subject, with no body, draws no output from any rule. */
  lemma CleanHeaderOutputs(h: string, t: string, s: string)
    requires HeaderPrefix(h) == Some(Prefix(t, None)) && t in ValidTypes
    requires Subject(h) == Some(s) && 10 <= |s| <= 50 && !IsAsciiUpper(s[0]) && !EndsWith(s, ".")
    ensures Outputs(DefaultRules, h, []) == RuleResult([], [])
  {
    DefaultOutputs(h, []);
    assert TypeEnumRule(h) == RuleResult([], []);
    assert ScopeEnumRule(h) == RuleResult([], []);
    assert SubjectLengthRule(h) == RuleResult([], []);
    assert CaseRule(h) == RuleResult([], []);
    assert EmptyLineRule([]) == RuleResult([], []);
    assert FooterWarnings([]) == [];
  }

  /** "feat: add new feature" is valid and scores 100. */
  lemma FeatureMessageScoresFull(m: string)
    requires m == "feat: add new feature"
    ensures LintOf(DefaultRules, m).valid
    ensures LintOf(DefaultRules, m).score == 100
  {
    var s := "add new feature";
    assert m == "feat" + ": " + s;
    assert !EndsWith(s, ".") by { assert s[|s| - 1] == 'e'; }
    ConventionalMessageClean("feat", s);
  }

  /** A one-line message whose first word is followed by a blank has no type prefix, so it is invalid. */
  lemma UntypedMessageRejected(w: string, rest: string)
    requires w != [] && forall i :: 0 <= i < |w| ==> IsWordChar(w[i])
    requires rest != [] && rest[0] == ' ' && '\n' !in rest
    ensures !LintOf(DefaultRules, w + rest).valid
    ensures LintOf(DefaultRules, w + rest).score < 100
  {
    var m := w + rest;
    assert '\n' !in m by {
      forall i | 0 <= i < |m| ensures m[i] != '\n' {
        if i >= |w| { assert m[i] == rest[i - |w|]; }
      }
    }
    LinesSingle(m);
    WordRunOf(w, rest);
    assert m[|w|] == ' ';
    ValidIff(m);
  }

  /** "invalid commit message" is invalid and scores below 100. */
  lemma PlainMessageRejected(m: string)
    requires m == "invalid commit message"
    ensures !LintOf(DefaultRules, m).valid
    ensures LintOf(DefaultRules, m).score < 100
  {
    assert m == "invalid" + " commit message";
    UntypedMessageRejected("invalid", " commit message");
  }
}
