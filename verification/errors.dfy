/**
 * The compiler's error system (rust-compiler/src/errors.rs): a closed set of
 * error kinds that all carry a message, a file and a position; the code,
 * severity, category, fixability and help tables over the kinds; an
 * append-only collection with per-severity and per-category counters; and a
 * handler that can stop at the first error.
 */
module Errors {
  import opened Wrappers

  /** Rust's `u32`. */
  type U32 = x: int | 0 <= x < 0x1_0000_0000

  /** The variants of `CompilerError`; every variant has the same four fields. */
  datatype ErrorKind =
    | ParseError | TypeError | SemanticError | TransformError | CodegenError | BundleError
    | CacheError | FileSystemError | ConfigurationError | PluginError | ValidationError
    | PerformanceError | SecurityError | AccessibilityError | TestingError | LintingError
    | FormattingError | InternalError

  datatype CompilerError = CompilerError(kind: ErrorKind, message: string, file: string, line: U32, column: U32)

  datatype Severity = Error | Warning | Info | Debug

  datatype Category =
    | Syntax | Type | Semantic | Transform | Codegen | Bundle | System | Configuration | Plugin
    | Validation | Performance | Security | Accessibility | Testing | Linting | Formatting | Internal

  /** `code()`: the code string of each kind. */
  function Code(k: ErrorKind): string {
    match k
    case ParseError => "PARSE_ERROR"
    case TypeError => "TYPE_ERROR"
    case SemanticError => "SEMANTIC_ERROR"
    case TransformError => "TRANSFORM_ERROR"
    case CodegenError => "CODEGEN_ERROR"
    case BundleError => "BUNDLE_ERROR"
    case CacheError => "CACHE_ERROR"
    case FileSystemError => "FILE_SYSTEM_ERROR"
    case ConfigurationError => "CONFIGURATION_ERROR"
    case PluginError => "PLUGIN_ERROR"
    case ValidationError => "VALIDATION_ERROR"
    case PerformanceError => "PERFORMANCE_ERROR"
    case SecurityError => "SECURITY_ERROR"
    case AccessibilityError => "ACCESSIBILITY_ERROR"
    case TestingError => "TESTING_ERROR"
    case LintingError => "LINTING_ERROR"
    case FormattingError => "FORMATTING_ERROR"
    case InternalError => "INTERNAL_ERROR"
  }

  /** The seventeen codes `new` recognises; "INTERNAL_ERROR" is not one of them. */
  const KnownCodes: set<string> := {
    "PARSE_ERROR", "TYPE_ERROR", "SEMANTIC_ERROR", "TRANSFORM_ERROR", "CODEGEN_ERROR",
    "BUNDLE_ERROR", "CACHE_ERROR", "FILE_SYSTEM_ERROR", "CONFIGURATION_ERROR", "PLUGIN_ERROR",
    "VALIDATION_ERROR", "PERFORMANCE_ERROR", "SECURITY_ERROR", "ACCESSIBILITY_ERROR",
    "TESTING_ERROR", "LINTING_ERROR", "FORMATTING_ERROR"}

  /** The kind `new` picks for a code string: the listed codes, anything else an internal error. */
  function KindOfCode(code: string): ErrorKind {
    if code == "PARSE_ERROR" then ParseError
    else if code == "TYPE_ERROR" then TypeError
    else if code == "SEMANTIC_ERROR" then SemanticError
    else if code == "TRANSFORM_ERROR" then TransformError
    else if code == "CODEGEN_ERROR" then CodegenError
    else if code == "BUNDLE_ERROR" then BundleError
    else if code == "CACHE_ERROR" then CacheError
    else if code == "FILE_SYSTEM_ERROR" then FileSystemError
    else if code == "CONFIGURATION_ERROR" then ConfigurationError
    else if code == "PLUGIN_ERROR" then PluginError
    else if code == "VALIDATION_ERROR" then ValidationError
    else if code == "PERFORMANCE_ERROR" then PerformanceError
    else if code == "SECURITY_ERROR" then SecurityError
    else if code == "ACCESSIBILITY_ERROR" then AccessibilityError
    else if code == "TESTING_ERROR" then TestingError
    else if code == "LINTING_ERROR" then LintingError
    else if code == "FORMATTING_ERROR" then FormattingError
    else InternalError
  }

  /**
   * `CompilerError::new`: the fields are kept as given, a listed code comes
   * back from `code()`, and any other code makes an internal error.
   */
  function New(code: string, message: string, file: string, line: U32, column: U32): (r: CompilerError)
    ensures r.message == message && r.file == file && r.line == line && r.column == column
    ensures code in KnownCodes ==> Code(r.kind) == code
    ensures code !in KnownCodes ==> r.kind == InternalError && Code(r.kind) == "INTERNAL_ERROR"
  {
    CompilerError(KindOfCode(code), message, file, line, column)
  }

  /** Every kind is reached by `new` from its own code. */
  lemma CodeRoundTrip(k: ErrorKind)
    ensures KindOfCode(Code(k)) == k
  {
    if k in {ParseError, TypeError, SemanticError} {
      CodeRoundTrip1(k);
    } else if k in {TransformError, CodegenError, BundleError} {
      CodeRoundTrip2(k);
    } else if k in {CacheError, FileSystemError, ConfigurationError} {
      CodeRoundTrip3(k);
    } else if k in {PluginError, ValidationError, PerformanceError} {
      CodeRoundTrip4(k);
    } else if k in {SecurityError, AccessibilityError, TestingError} {
      CodeRoundTrip5(k);
    } else if k in {LintingError, FormattingError} {
      CodeRoundTrip6(k);
    } else {
      CodeRoundTrip7(k);
    }
  }

  /** The round trip, checked a few kinds at a time in the order `new` tests the codes. */
  lemma CodeRoundTrip1(k: ErrorKind)
    requires k in {ParseError, TypeError, SemanticError}
    ensures KindOfCode(Code(k)) == k
  {
  }

  lemma CodeRoundTrip2(k: ErrorKind)
    requires k in {TransformError, CodegenError, BundleError}
    ensures KindOfCode(Code(k)) == k
  {
  }

  lemma CodeRoundTrip3(k: ErrorKind)
    requires k in {CacheError, FileSystemError, ConfigurationError}
    ensures KindOfCode(Code(k)) == k
  {
  }

  lemma CodeRoundTrip4(k: ErrorKind)
    requires k in {PluginError, ValidationError, PerformanceError}
    ensures KindOfCode(Code(k)) == k
  {
  }

  lemma CodeRoundTrip5(k: ErrorKind)
    requires k in {SecurityError, AccessibilityError, TestingError}
    ensures KindOfCode(Code(k)) == k
  {
  }

  lemma CodeRoundTrip6(k: ErrorKind)
    requires k in {LintingError, FormattingError}
    ensures KindOfCode(Code(k)) == k
  {
  }

  lemma CodeRoundTrip7(k: ErrorKind)
    requires k == InternalError
    ensures KindOfCode(Code(k)) == k
  {
  }

  /** The listed codes are exactly the codes of the kinds other than the internal error. */
  lemma KnownCodesListed(k: ErrorKind)
    ensures k != InternalError <==> Code(k) in KnownCodes
  {
  }

  /** `severity()`: a warning for five kinds, information for formatting, an error otherwise. */
  function SeverityOf(k: ErrorKind): (r: Severity)
    ensures r != Debug
    ensures r == Warning <==> k in {CacheError, PluginError, PerformanceError, AccessibilityError, LintingError}
    ensures r == Info <==> k == FormattingError
  {
    match k
    case CacheError => Warning
    case PluginError => Warning
    case PerformanceError => Warning
    case AccessibilityError => Warning
    case LintingError => Warning
    case FormattingError => Info
    case _ => Error
  }

  /** `is_fixable()`: false for exactly six kinds. */
  function IsFixable(k: ErrorKind): (r: bool)
    ensures !r <==> k in {ParseError, TransformError, CodegenError, BundleError, FileSystemError, InternalError}
  {
    !(k.ParseError? || k.TransformError? || k.CodegenError? || k.BundleError? || k.FileSystemError? || k.InternalError?)
  }

  /** The one kind of each category other than `System`. */
  function KindOfCategory(c: Category): ErrorKind {
    match c
    case Syntax => ParseError
    case Type => TypeError
    case Semantic => SemanticError
    case Transform => TransformError
    case Codegen => CodegenError
    case Bundle => BundleError
    case System => CacheError
    case Configuration => ConfigurationError
    case Plugin => PluginError
    case Validation => ValidationError
    case Performance => PerformanceError
    case Security => SecurityError
    case Accessibility => AccessibilityError
    case Testing => TestingError
    case Linting => LintingError
    case Formatting => FormattingError
    case Internal => InternalError
  }

  /** `category()`: cache and file-system errors share `System`; every other kind has a category of its own. */
  function CategoryOf(k: ErrorKind): (r: Category)
    ensures r == System <==> k == CacheError || k == FileSystemError
    ensures r != System ==> KindOfCategory(r) == k
  {
    match k
    case ParseError => Syntax
    case TypeError => Type
    case SemanticError => Semantic
    case TransformError => Transform
    case CodegenError => Codegen
    case BundleError => Bundle
    case CacheError => System
    case FileSystemError => System
    case ConfigurationError => Configuration
    case PluginError => Plugin
    case ValidationError => Validation
    case PerformanceError => Performance
    case SecurityError => Security
    case AccessibilityError => Accessibility
    case TestingError => Testing
    case LintingError => Linting
    case FormattingError => Formatting
    case InternalError => Internal
  }

  /** Two distinct kinds share a category only when they are the cache and file-system kinds. */
  lemma CategoryInjective(a: ErrorKind, b: ErrorKind)
    requires a != b && CategoryOf(a) == CategoryOf(b)
    ensures {a, b} == {CacheError, FileSystemError}
  {
    assert CategoryOf(a) != System ==> KindOfCategory(CategoryOf(a)) == a;
  }

  const DocsBase := "https://docs.synapse.dev/errors/"

  /** The page name of each kind in the documentation. */
  function DocPage(k: ErrorKind): string {
    match k
    case ParseError => "parse-error"
    case TypeError => "type-error"
    case SemanticError => "semantic-error"
    case TransformError => "transform-error"
    case CodegenError => "codegen-error"
    case BundleError => "bundle-error"
    case CacheError => "cache-error"
    case FileSystemError => "file-system-error"
    case ConfigurationError => "configuration-error"
    case PluginError => "plugin-error"
    case ValidationError => "validation-error"
    case PerformanceError => "performance-error"
    case SecurityError => "security-error"
    case AccessibilityError => "accessibility-error"
    case TestingError => "testing-error"
    case LintingError => "linting-error"
    case FormattingError => "formatting-error"
    case InternalError => "internal-error"
  }

  /** `documentation_url()`: every kind has a page under the documentation base. */
  function DocumentationUrl(k: ErrorKind): (r: Option<string>)
    ensures r.Some? && |r.value| > |DocsBase| && r.value[..|DocsBase|] == DocsBase
  {
    Some(DocsBase + DocPage(k))
  }

  /** Different kinds are documented on different pages. */
  lemma DocumentationUrlInjective(k1: ErrorKind, k2: ErrorKind)
    ensures DocumentationUrl(k1) == DocumentationUrl(k2) ==> k1 == k2
  {
    if DocumentationUrl(k1) == DocumentationUrl(k2) {
      var u := DocumentationUrl(k1).value;
      assert u[|DocsBase|..] == DocPage(k1);
      assert DocumentationUrl(k2).value[|DocsBase|..] == DocPage(k2);
    }
  }

  function Three(a: string, b: string, c: string): (r: seq<string>)
    ensures |r| == 3
  {
    [a, b, c]
  }

  /** `suggestions()`: three fixed hints per kind. */
  function Suggestions(k: ErrorKind): (r: seq<string>)
    ensures |r| == 3
  {
    match k
    case ParseError => Three("Check syntax and fix any syntax errors", "Ensure all brackets and braces are properly closed", "Check for missing semicolons or commas")
    case TypeError => Three("Check type annotations and fix type mismatches", "Ensure all variables are properly typed", "Check for missing type imports")
    case SemanticError => Three("Check for undefined variables or functions", "Ensure all imports are properly resolved", "Check for circular dependencies")
    case TransformError => Three("Check transform configuration", "Ensure all required plugins are installed", "Check for transform conflicts")
    case CodegenError => Three("Check codegen configuration", "Ensure all required dependencies are available", "Check for codegen conflicts")
    case BundleError => Three("Check bundle configuration", "Ensure all entry points are valid", "Check for bundle conflicts")
    case CacheError => Three("Clear cache and try again", "Check cache permissions", "Check cache configuration")
    case FileSystemError => Three("Check file permissions", "Ensure file exists and is accessible", "Check disk space")
    case ConfigurationError => Three("Check configuration file syntax", "Ensure all required options are set", "Check configuration validation")
    case PluginError => Three("Check plugin configuration", "Ensure plugin is properly installed", "Check plugin compatibility")
    case ValidationError => Three("Check validation rules", "Ensure all required fields are present", "Check validation configuration")
    case PerformanceError => Three("Check performance configuration", "Optimize code for better performance", "Check performance budgets")
    case SecurityError => Three("Check security configuration", "Review security best practices", "Check for security vulnerabilities")
    case AccessibilityError => Three("Check accessibility guidelines", "Ensure proper ARIA attributes", "Check color contrast and keyboard navigation")
    case TestingError => Three("Check test configuration", "Ensure all tests are properly written", "Check test dependencies")
    case LintingError => Three("Check linting rules", "Fix linting violations", "Check linting configuration")
    case FormattingError => Three("Check formatting rules", "Fix formatting violations", "Check formatting configuration")
    case InternalError => Three("Report this as a bug", "Check system requirements", "Try restarting the compiler")
  }

  /** The three queries of a collection: by severity, by category and by file. */
  datatype Selector = BySeverity(severity: Severity) | ByCategory(category: Category) | ByFile(file: string)

  predicate Selects(sel: Selector, e: CompilerError) {
    match sel
    case BySeverity(s) => SeverityOf(e.kind) == s
    case ByCategory(c) => CategoryOf(e.kind) == c
    case ByFile(f) => e.file == f
  }

  /** The errors a selector picks, in stored order. */
  function Select(errs: seq<CompilerError>, sel: Selector): (r: seq<CompilerError>)
    ensures |r| <= |errs|
    ensures forall e :: e in r <==> e in errs && Selects(sel, e)
  {
    if errs == [] then []
    else Select(errs[..|errs| - 1], sel) + if Selects(sel, errs[|errs| - 1]) then [errs[|errs| - 1]] else []
  }

  /** Selecting from a concatenation selects from each part in turn. */
  lemma {:induction false} SelectAppend(a: seq<CompilerError>, b: seq<CompilerError>, sel: Selector)
    ensures Select(a + b, sel) == Select(a, sel) + Select(b, sel)
    decreases |b|
  {
    if b == [] {
      assert a + b == a;
    } else {
      var init := b[..|b| - 1];
      assert (a + b)[..|a + b| - 1] == a + init;
      assert (a + b)[|a + b| - 1] == b[|b| - 1];
      SelectAppend(a, init, sel);
    }
  }

  /** A single error is selected exactly when the selector picks it. */
  lemma SelectOne(e: CompilerError, sel: Selector)
    ensures Select([e], sel) == if Selects(sel, e) then [e] else []
  {
    assert [e][..0] == [];
  }

  /** How many errors a selector picks. */
  function Count(errs: seq<CompilerError>, sel: Selector): nat {
    |Select(errs, sel)|
  }

  /** A counter map read with `unwrap_or(&0)`. */
  function Lookup<K(!new)>(m: map<K, nat>, k: K): nat {
    if k in m then m[k] else 0
  }

  lemma SelectSnoc(errs: seq<CompilerError>, e: CompilerError, sel: Selector)
    ensures Count(errs + [e], sel) == Count(errs, sel) + if Selects(sel, e) then 1 else 0
  {
    assert (errs + [e])[..|errs|] == errs;
  }

  /** Every stored error falls in exactly one of the four severity buckets. */
  lemma {:induction false} SeverityCountsSum(errs: seq<CompilerError>)
    ensures Count(errs, BySeverity(Error)) + Count(errs, BySeverity(Warning))
          + Count(errs, BySeverity(Info)) + Count(errs, BySeverity(Debug)) == |errs|
  {
    if errs != [] {
      var init := errs[..|errs| - 1];
      SeverityCountsSum(init);
      assert errs == init + [errs[|errs| - 1]];
      SelectSnoc(init, errs[|errs| - 1], BySeverity(Error));
      SelectSnoc(init, errs[|errs| - 1], BySeverity(Warning));
      SelectSnoc(init, errs[|errs| - 1], BySeverity(Info));
      SelectSnoc(init, errs[|errs| - 1], BySeverity(Debug));
    }
  }

  /** No error is ever counted as debug. */
  lemma {:induction false} NoDebugErrors(errs: seq<CompilerError>)
    ensures Count(errs, BySeverity(Debug)) == 0
  {
    if errs != [] {
      NoDebugErrors(errs[..|errs| - 1]);
    }
  }

  datatype ErrorSummary = ErrorSummary(total: nat, errors: nat, warnings: nat, info: nat, debug: nat)

  class ErrorCollection {
    var errors: seq<CompilerError>
    var errorCounts: map<Severity, nat>
    var categoryCounts: map<Category, nat>
    var totalCount: nat

    /** The counters always agree with the stored list, and a bucket is present only once it is non-zero. */
    ghost predicate Valid()
      reads this
    {
      totalCount == |errors| &&
      (forall s :: Lookup(errorCounts, s) == Count(errors, BySeverity(s))) &&
      (forall c :: Lookup(categoryCounts, c) == Count(errors, ByCategory(c))) &&
      (forall s :: s in errorCounts ==> errorCounts[s] > 0) &&
      (forall c :: c in categoryCounts ==> categoryCounts[c] > 0)
    }

    /** `ErrorCollection::new`. */
    constructor ()
      ensures Valid()
      ensures errors == [] && errorCounts == map[] && categoryCounts == map[] && totalCount == 0
    {
      errors := [];
      errorCounts := map[];
      categoryCounts := map[];
      totalCount := 0;
    }

    /** `add`: appends the error and bumps the total, its severity bucket and its category bucket. */
    method Add(e: CompilerError)
      requires Valid()
      modifies this
      ensures Valid()
      ensures errors == old(errors) + [e]
      ensures totalCount == old(totalCount) + 1
      ensures forall s :: Lookup(errorCounts, s) == Lookup(old(errorCounts), s) + if s == SeverityOf(e.kind) then 1 else 0
      ensures forall c :: Lookup(categoryCounts, c) == Lookup(old(categoryCounts), c) + if c == CategoryOf(e.kind) then 1 else 0
    {
      var severity := SeverityOf(e.kind);
      var category := CategoryOf(e.kind);
      ghost var before := errors;
      errors := errors + [e];
      totalCount := totalCount + 1;
      errorCounts := errorCounts[severity := Lookup(errorCounts, severity) + 1];
      categoryCounts := categoryCounts[category := Lookup(categoryCounts, category) + 1];
      forall s
        ensures Lookup(errorCounts, s) == Count(errors, BySeverity(s))
      {
        SelectSnoc(before, e, BySeverity(s));
      }
      forall c
        ensures Lookup(categoryCounts, c) == Count(errors, ByCategory(c))
      {
        SelectSnoc(before, e, ByCategory(c));
      }
    }

    /** `add_all`: adds each error in order. */
    method AddAll(es: seq<CompilerError>)
      requires Valid()
      modifies this
      ensures Valid()
      ensures errors == old(errors) + es
    {
      ghost var start := errors;
      var i := 0;
      while i < |es|
        invariant 0 <= i <= |es|
        invariant Valid()
        invariant errors == start + es[..i]
      {
        Add(es[i]);
        assert es[..i + 1] == es[..i] + [es[i]];
        i := i + 1;
      }
      assert es[..i] == es;
    }

    /** `get_by_severity`, `get_by_category` and `get_by_file`. */
    function Get(sel: Selector): (r: seq<CompilerError>)
      reads this
      ensures r == Select(errors, sel)
      ensures forall e :: e in r <==> e in errors && Selects(sel, e)
    {
      Select(errors, sel)
    }

    /** `has_errors`: some stored error has error severity. */
    function HasErrors(): (r: bool)
      requires Valid()
      reads this
      ensures r <==> exists e :: e in errors && SeverityOf(e.kind) == Error
    {
      var picked := Select(errors, BySeverity(Error));
      assert |picked| > 0 ==> picked[0] in picked;
      Lookup(errorCounts, Error) > 0
    }

    /** `has_warnings`: some stored error has warning severity. */
    function HasWarnings(): (r: bool)
      requires Valid()
      reads this
      ensures r <==> exists e :: e in errors && SeverityOf(e.kind) == Warning
    {
      var picked := Select(errors, BySeverity(Warning));
      assert |picked| > 0 ==> picked[0] in picked;
      Lookup(errorCounts, Warning) > 0
    }

    /** `summary`: the counters, whose buckets add up to the total and whose debug bucket is empty. */
    function Summary(): (r: ErrorSummary)
      requires Valid()
      reads this
      ensures r.total == |errors|
      ensures r.errors == Count(errors, BySeverity(Error)) && r.warnings == Count(errors, BySeverity(Warning))
      ensures r.info == Count(errors, BySeverity(Info))
      ensures r.debug == 0
      ensures r.total == r.errors + r.warnings + r.info + r.debug
    {
      SeverityCountsSum(errors);
      NoDebugErrors(errors);
      ErrorSummary(totalCount, Lookup(errorCounts, Error), Lookup(errorCounts, Warning),
                   Lookup(errorCounts, Info), Lookup(errorCounts, Debug))
    }

    /** `clear`: back to the empty collection. */
    method Clear()
      modifies this
      ensures Valid()
      ensures errors == [] && errorCounts == map[] && categoryCounts == map[] && totalCount == 0
    {
      errors := [];
      errorCounts := map[];
      categoryCounts := map[];
      totalCount := 0;
    }
  }

  /** Some error in the list has Error severity: what makes a stopping handler refuse. */
  predicate HoldsError(errs: seq<CompilerError>) {
    exists x :: x in errs && SeverityOf(x.kind) == Error
  }

  /** The handler around a collection; the formatter it prints with is not part of this model. */
  class ErrorHandler {
    const collection: ErrorCollection
    var stopOnFirstError: bool
    var showImmediately: bool

    ghost predicate Valid()
      reads this, collection
    {
      collection.Valid()
    }

    /** `ErrorHandler::new`: an empty collection; errors do not stop compilation. */
    constructor ()
      ensures Valid() && fresh(collection)
      ensures collection.errors == [] && !stopOnFirstError && showImmediately
    {
      collection := new ErrorCollection();
      stopOnFirstError := false;
      showImmediately := true;
    }

    /**
     * `add_error`: the error is always recorded; the result is that error
     * exactly when stopping at the first error is on and an error is stored.
     */
    method AddError(e: CompilerError) returns (r: Result<(), CompilerError>)
      requires Valid()
      modifies collection
      ensures Valid()
      ensures collection.errors == old(collection.errors) + [e]
      ensures r.Failure? <==> stopOnFirstError && exists x :: x in collection.errors && SeverityOf(x.kind) == Error
      ensures r.Failure? ==> r.error == e
    {
      collection.Add(e);
      if stopOnFirstError && collection.HasErrors() {
        return Failure(collection.errors[|collection.errors| - 1]);
      }
      return Success(());
    }

    /**
     * `add_errors`: adds in order and stops after the first error that is
     * handed back: the first point at which a stopping handler holds an
     * error-severity entry.
     */
    method AddErrors(es: seq<CompilerError>) returns (r: Result<(), CompilerError>, ghost added: nat)
      requires Valid()
      modifies collection
      ensures Valid()
      ensures added <= |es| && collection.errors == old(collection.errors) + es[..added]
      ensures r.Success? ==> added == |es|
      ensures r.Failure? ==> 0 < added && r.error == es[added - 1] && stopOnFirstError
      ensures r.Failure? ==> HoldsError(old(collection.errors) + es[..added])
      ensures r.Failure? && added > 1 ==> !HoldsError(old(collection.errors) + es[..added - 1])
      ensures r.Success? && stopOnFirstError && es != [] ==> !HoldsError(old(collection.errors) + es)
    {
      for i := 0 to |es|
        invariant Valid()
        invariant collection.errors == old(collection.errors) + es[..i]
        invariant stopOnFirstError && i > 0 ==> !HoldsError(old(collection.errors) + es[..i])
      {
        var step := AddError(es[i]);
        assert es[..i + 1] == es[..i] + [es[i]];
        if step.Failure? {
          return step, i + 1;
        }
      }
      return Success(()), |es|;
    }

    /** `has_errors`, through the collection. */
    function HasErrors(): (r: bool)
      requires Valid()
      reads this, collection
      ensures r <==> exists e :: e in collection.errors && SeverityOf(e.kind) == Error
    {
      collection.HasErrors()
    }

    /** `clear`, through the collection. */
    method Clear()
      modifies collection
      ensures Valid() && collection.errors == []
    {
      collection.Clear();
    }
  }
}
