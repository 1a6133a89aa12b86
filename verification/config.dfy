/**
 * The compiler configuration (rust-compiler/src/config.rs): one value per
 * section, each with its defaults, a field-wise merge in which the other
 * configuration takes precedence, and a validator that reports the first
 * rule a configuration breaks.
 */
module Config {
  import opened Wrappers
  import opened Text

  type Path = string

  /** The outcome of a validator: success, or the message of the first broken rule. */
  type Check = Result<(), string>

  /** `HashMap::extend`: every key of either map, the second map's value winning. */
  function Extend<K(!new), V>(m: map<K, V>, n: map<K, V>): (r: map<K, V>)
    ensures r.Keys == m.Keys + n.Keys
    ensures forall k :: k in n ==> r[k] == n[k]
    ensures forall k :: k in m && k !in n ==> r[k] == m[k]
  {
    m + n
  }

  /**
   * The first failing check of a list, or success when none fails.
   */
  function {:induction false} FirstFailure(checks: seq<Check>): (r: Check)
    ensures r.Success? <==> forall c :: c in checks ==> c.Success?
    ensures r.Failure? ==> exists i :: 0 <= i < |checks| && checks[i] == r &&
                                       forall j :: 0 <= j < i ==> checks[j].Success?
    ensures checks != [] && checks[0].Failure? ==> r == checks[0]
    ensures checks != [] && checks[0].Success? ==> r == FirstFailure(checks[1..])
  {
    if checks == [] then Success(())
    else if checks[0].Failure? then checks[0]
    else
      var rest := FirstFailure(checks[1..]);
      if rest.Failure? then
        var i :| 0 <= i < |checks[1..]| && checks[1..][i] == rest &&
                 forall j :: 0 <= j < i ==> checks[1..][j].Success?;
        assert checks[i + 1] == rest;
        rest
      else
        rest
  }

  /** A field `merge` takes from `other` unless `other` holds the default, in which case the current value stays. */
  function UnlessDefault<T(==)>(mine: T, theirs: T, default: T): (r: T)
    ensures theirs != default ==> r == theirs
    ensures theirs == default ==> r == mine
  {
    if theirs != default then theirs else mine
  }

  /** `TargetLanguage` (declared outside this file): its default and the other values, told apart by a tag. */
  datatype TargetLanguage = JavaScript | OtherLanguage(tag: nat)

  /** `ModuleFormat` (declared outside this file): its default and the other values. */
  datatype ModuleFormat = ESNext | OtherModuleFormat(tag: nat)

  datatype EsVersion = Es3 | Es5 | Es2015 | Es2016 | Es2017 | Es2018 | Es2019 | Es2020 | Es2021 | Es2022

  datatype JsxRuntime = Classic | Automatic

  datatype OutputFormat = ESNextFormat | ESModule | CommonJS | AMD | UMD | SystemJS | IIFE

  datatype ChunkSplittingStrategy = SizeBased | DependencyBased | Manual

  datatype CoverageReporter = Text | Html | Json | Lcov | Cobertura | Teamcity | Clover

  datatype RuleSeverity = RuleError | RuleWarning | RuleInfo | RuleOff

  /** A `serde_json::Value`, kept as its serialised text. */
  datatype JsonValue = JsonValue(text: string)

  datatype RuleConfig = RuleConfig(severity: RuleSeverity, options: map<string, JsonValue>, enabled: bool)

  datatype PluginConfig = PluginConfig(name: string, version: string, options: map<string, JsonValue>, enabled: bool, priority: int)

  // ---------------------------------------------------------------- TypeScript

  /** The thirty switches of the TypeScript section. */
  datatype TypeScriptFlags = TypeScriptFlags(
    strict: bool,
    noImplicitAny: bool,
    strictNullChecks: bool,
    strictFunctionTypes: bool,
    strictBindCallApply: bool,
    strictPropertyInitialization: bool,
    noImplicitReturns: bool,
    noFallthroughCasesInSwitch: bool,
    noUncheckedIndexedAccess: bool,
    exactOptionalPropertyTypes: bool,
    noImplicitOverride: bool,
    noPropertyAccessFromIndexSignature: bool,
    allowUnusedLabels: bool,
    allowUnreachableCode: bool,
    noImplicitThis: bool,
    useUnknownInCatchVariables: bool,
    forceConsistentCasingInFileNames: bool,
    skipLibCheck: bool,
    declaration: bool,
    declarationMap: bool,
    removeComments: bool,
    importHelpers: bool,
    downlevelIteration: bool,
    experimentalDecorators: bool,
    emitDecoratorMetadata: bool,
    resolveJsonModule: bool,
    isolatedModules: bool,
    verbatimModuleSyntax: bool,
    allowSyntheticDefaultImports: bool,
    esModuleInterop: bool)

  datatype TypeScriptConfig = TypeScriptConfig(
    flags: TypeScriptFlags,
    baseUrl: Option<Path>,
    paths: map<string, seq<string>>,
    typeRoots: seq<Path>,
    types: seq<string>,
    lib: seq<string>)

  const DefaultLib: seq<string> := ["ES2022", "DOM", "DOM.Iterable"]

  function DefaultTypeScript(): TypeScriptConfig {
    TypeScriptConfig(
      TypeScriptFlags(
        true, true, true, true, true, true, true, true, true, true, true, true,
        false, false,
        true, true, true, true, true, true,
        false, false,
        true, true, true, true, true, true, true, true),
      None, map[], [], [], DefaultLib)
  }

  /**
   * `TypeScriptConfig::merge`: every flag comes from `other`; a base URL is
   * taken only when `other` has one; the path map is extended and the three
   * lists are appended to.
   */
  function MergeTypeScript(self: TypeScriptConfig, other: TypeScriptConfig): (r: TypeScriptConfig)
    ensures r.flags == other.flags
    ensures r.baseUrl == if other.baseUrl.Some? then other.baseUrl else self.baseUrl
    ensures r.paths.Keys == self.paths.Keys + other.paths.Keys
    ensures forall k :: k in other.paths ==> r.paths[k] == other.paths[k]
    ensures forall k :: k in self.paths && k !in other.paths ==> r.paths[k] == self.paths[k]
    ensures r.typeRoots == self.typeRoots + other.typeRoots && r.types == self.types + other.types
    ensures r.lib == self.lib + other.lib
  {
    TypeScriptConfig(
      other.flags,
      if other.baseUrl.Some? then other.baseUrl else self.baseUrl,
      Extend(self.paths, other.paths),
      self.typeRoots + other.typeRoots,
      self.types + other.types,
      self.lib + other.lib)
  }

  /** The sixteen settings strict mode insists on. */
  predicate StrictSettingsHold(c: TypeScriptFlags) {
    c.noImplicitAny && c.strictNullChecks && c.strictFunctionTypes && c.strictBindCallApply &&
    c.strictPropertyInitialization && c.noImplicitReturns && c.noFallthroughCasesInSwitch &&
    c.noUncheckedIndexedAccess && c.exactOptionalPropertyTypes && c.noImplicitOverride &&
    c.noPropertyAccessFromIndexSignature && !c.allowUnusedLabels && !c.allowUnreachableCode &&
    c.noImplicitThis && c.useUnknownInCatchVariables && c.forceConsistentCasingInFileNames
  }

  function StrictRequires(setting: string, state: string): string {
    setting + " must be " + state + " when strict mode is enabled"
  }

  /** One setting strict mode insists on: its name, the state it must be in, and whether it is. */
  datatype StrictSetting = StrictSetting(name: string, required: string, met: bool)

  /** The strict settings in the order `TypeScriptConfig::validate` checks them. */
  function StrictSettings(f: TypeScriptFlags): (r: seq<StrictSetting>)
    ensures |r| == 16
  {
    [ StrictSetting("noImplicitAny", "enabled", f.noImplicitAny),
      StrictSetting("strictNullChecks", "enabled", f.strictNullChecks),
      StrictSetting("strictFunctionTypes", "enabled", f.strictFunctionTypes),
      StrictSetting("strictBindCallApply", "enabled", f.strictBindCallApply),
      StrictSetting("strictPropertyInitialization", "enabled", f.strictPropertyInitialization),
      StrictSetting("noImplicitReturns", "enabled", f.noImplicitReturns),
      StrictSetting("noFallthroughCasesInSwitch", "enabled", f.noFallthroughCasesInSwitch),
      StrictSetting("noUncheckedIndexedAccess", "enabled", f.noUncheckedIndexedAccess),
      StrictSetting("exactOptionalPropertyTypes", "enabled", f.exactOptionalPropertyTypes),
      StrictSetting("noImplicitOverride", "enabled", f.noImplicitOverride),
      StrictSetting("noPropertyAccessFromIndexSignature", "enabled", f.noPropertyAccessFromIndexSignature),
      StrictSetting("allowUnusedLabels", "disabled", !f.allowUnusedLabels),
      StrictSetting("allowUnreachableCode", "disabled", !f.allowUnreachableCode),
      StrictSetting("noImplicitThis", "enabled", f.noImplicitThis),
      StrictSetting("useUnknownInCatchVariables", "enabled", f.useUnknownInCatchVariables),
      StrictSetting("forceConsistentCasingInFileNames", "enabled", f.forceConsistentCasingInFileNames) ]
  }

  /** The settings strict mode insists on all hold exactly when every listed setting is met. */
  lemma StrictSettingsListed(f: TypeScriptFlags)
    ensures StrictSettingsHold(f) <==> forall k :: 0 <= k < 16 ==> StrictSettings(f)[k].met
  {
    var s := StrictSettings(f);
    if forall k :: 0 <= k < 16 ==> s[k].met {
      assert s[0].met && s[1].met && s[2].met && s[3].met && s[4].met && s[5].met && s[6].met && s[7].met;
      assert s[8].met && s[9].met && s[10].met && s[11].met && s[12].met && s[13].met && s[14].met && s[15].met;
    }
  }

  /** `TypeScriptConfig::validate`: nothing is checked outside strict mode; in it, the settings are checked in order. */
  function ValidateTypeScript(c: TypeScriptConfig): (r: Check)
    ensures r.Success? <==> !c.flags.strict || StrictSettingsHold(c.flags)
  {
    if !c.flags.strict then Success(())
    else if !c.flags.noImplicitAny then Failure(StrictRequires("noImplicitAny", "enabled"))
    else if !c.flags.strictNullChecks then Failure(StrictRequires("strictNullChecks", "enabled"))
    else if !c.flags.strictFunctionTypes then Failure(StrictRequires("strictFunctionTypes", "enabled"))
    else if !c.flags.strictBindCallApply then Failure(StrictRequires("strictBindCallApply", "enabled"))
    else if !c.flags.strictPropertyInitialization then Failure(StrictRequires("strictPropertyInitialization", "enabled"))
    else if !c.flags.noImplicitReturns then Failure(StrictRequires("noImplicitReturns", "enabled"))
    else if !c.flags.noFallthroughCasesInSwitch then Failure(StrictRequires("noFallthroughCasesInSwitch", "enabled"))
    else if !c.flags.noUncheckedIndexedAccess then Failure(StrictRequires("noUncheckedIndexedAccess", "enabled"))
    else if !c.flags.exactOptionalPropertyTypes then Failure(StrictRequires("exactOptionalPropertyTypes", "enabled"))
    else if !c.flags.noImplicitOverride then Failure(StrictRequires("noImplicitOverride", "enabled"))
    else if !c.flags.noPropertyAccessFromIndexSignature then Failure(StrictRequires("noPropertyAccessFromIndexSignature", "enabled"))
    else if c.flags.allowUnusedLabels then Failure(StrictRequires("allowUnusedLabels", "disabled"))
    else if c.flags.allowUnreachableCode then Failure(StrictRequires("allowUnreachableCode", "disabled"))
    else if !c.flags.noImplicitThis then Failure(StrictRequires("noImplicitThis", "enabled"))
    else if !c.flags.useUnknownInCatchVariables then Failure(StrictRequires("useUnknownInCatchVariables", "enabled"))
    else if !c.flags.forceConsistentCasingInFileNames then Failure(StrictRequires("forceConsistentCasingInFileNames", "enabled"))
    else Success(())
  }

  /** In strict mode the first unmet setting, in the source's order, is the one reported. */
  lemma ValidateTypeScriptReportsFirst(c: TypeScriptConfig, k: nat)
    requires c.flags.strict && k < 16 && !StrictSettings(c.flags)[k].met
    requires forall j :: 0 <= j < k ==> StrictSettings(c.flags)[j].met
    ensures ValidateTypeScript(c) ==
      Failure(StrictRequires(StrictSettings(c.flags)[k].name, StrictSettings(c.flags)[k].required))
  {
    if k < 4 {
      ReportsFirstFrom0(c, k);
    } else if k < 8 {
      ReportsFirstFrom4(c, k);
    } else if k < 12 {
      ReportsFirstFrom8(c, k);
    } else {
      ReportsFirstFrom12(c, k);
    }
  }

  /** `ValidateTypeScriptReportsFirst` for settings 0 to 3. */
  lemma ReportsFirstFrom0(c: TypeScriptConfig, k: nat)
    requires c.flags.strict && k < 4 && !StrictSettings(c.flags)[k].met
    requires forall j :: 0 <= j < k ==> StrictSettings(c.flags)[j].met
    ensures ValidateTypeScript(c) ==
      Failure(StrictRequires(StrictSettings(c.flags)[k].name, StrictSettings(c.flags)[k].required))
  {
    var s := StrictSettings(c.flags);
    if k == 0 {
    } else if k == 1 {
      assert s[0].met;
    } else if k == 2 {
      assert s[0].met && s[1].met;
    } else {
      assert s[0].met && s[1].met && s[2].met;
    }
  }

  /** `ValidateTypeScriptReportsFirst` for settings 4 to 7. */
  lemma ReportsFirstFrom4(c: TypeScriptConfig, k: nat)
    requires c.flags.strict && 4 <= k < 8 && !StrictSettings(c.flags)[k].met
    requires forall j :: 0 <= j < k ==> StrictSettings(c.flags)[j].met
    ensures ValidateTypeScript(c) ==
      Failure(StrictRequires(StrictSettings(c.flags)[k].name, StrictSettings(c.flags)[k].required))
  {
    var s := StrictSettings(c.flags);
    assert s[0].met && s[1].met && s[2].met && s[3].met;
    if k == 4 {
    } else if k == 5 {
      assert s[4].met;
    } else if k == 6 {
      assert s[4].met && s[5].met;
    } else {
      assert s[4].met && s[5].met && s[6].met;
    }
  }

  /** `ValidateTypeScriptReportsFirst` for settings 8 to 11. */
  lemma ReportsFirstFrom8(c: TypeScriptConfig, k: nat)
    requires c.flags.strict && 8 <= k < 12 && !StrictSettings(c.flags)[k].met
    requires forall j :: 0 <= j < k ==> StrictSettings(c.flags)[j].met
    ensures ValidateTypeScript(c) ==
      Failure(StrictRequires(StrictSettings(c.flags)[k].name, StrictSettings(c.flags)[k].required))
  {
    var s := StrictSettings(c.flags);
    assert s[0].met && s[1].met && s[2].met && s[3].met && s[4].met && s[5].met && s[6].met && s[7].met;
    if k == 8 {
    } else if k == 9 {
      assert s[8].met;
    } else if k == 10 {
      assert s[8].met && s[9].met;
    } else {
      assert s[8].met && s[9].met && s[10].met;
    }
  }

  /** `ValidateTypeScriptReportsFirst` for settings 12 to 15. */
  lemma ReportsFirstFrom12(c: TypeScriptConfig, k: nat)
    requires c.flags.strict && 12 <= k < 16 && !StrictSettings(c.flags)[k].met
    requires forall j :: 0 <= j < k ==> StrictSettings(c.flags)[j].met
    ensures ValidateTypeScript(c) ==
      Failure(StrictRequires(StrictSettings(c.flags)[k].name, StrictSettings(c.flags)[k].required))
  {
    var s := StrictSettings(c.flags);
    assert s[0].met && s[1].met && s[2].met && s[3].met && s[4].met && s[5].met && s[6].met && s[7].met && s[8].met && s[9].met && s[10].met && s[11].met;
    if k == 12 {
    } else if k == 13 {
      assert s[12].met;
    } else if k == 14 {
      assert s[12].met && s[13].met;
    } else {
      assert s[12].met && s[13].met && s[14].met;
    }
  }

  // ---------------------------------------------------------------- React

  datatype ReactConfig = ReactConfig(
    enabled: bool,
    jsxRuntime: JsxRuntime,
    jsxPragma: Option<string>,
    jsxFragment: Option<string>,
    jsxImportSource: Option<string>,
    refresh: bool,
    devTools: bool)

  function DefaultReact(): ReactConfig {
    ReactConfig(false, Automatic, None, None, None, true, true)
  }

  /** `ReactConfig::merge`: every field is copied from `other`. */
  function MergeReact(self: ReactConfig, other: ReactConfig): ReactConfig {
    ReactConfig(other.enabled, other.jsxRuntime, other.jsxPragma, other.jsxFragment,
                other.jsxImportSource, other.refresh, other.devTools)
  }

  /** Merging React settings replaces them wholesale. */
  lemma MergeReactToOther(self: ReactConfig, other: ReactConfig)
    ensures MergeReact(self, other) == other
  {
  }

  const ClassicNeedsPragma := "jsxPragma must be specified when using classic JSX runtime"
  const AutomaticNeedsImportSource := "jsxImportSource must be specified when using automatic JSX runtime"

  /** `ReactConfig::validate`: an enabled configuration needs the setting its JSX runtime relies on. */
  function ValidateReact(c: ReactConfig): (r: Check)
    ensures r.Failure? <==> c.enabled && ((c.jsxRuntime == Classic && c.jsxPragma.None?) ||
                                          (c.jsxRuntime == Automatic && c.jsxImportSource.None?))
    ensures r.Failure? ==> r.error == (if c.jsxRuntime == Classic then ClassicNeedsPragma else AutomaticNeedsImportSource)
  {
    if c.enabled then
      match c.jsxRuntime
      case Classic => if c.jsxPragma.None? then Failure(ClassicNeedsPragma) else Success(())
      case Automatic => if c.jsxImportSource.None? then Failure(AutomaticNeedsImportSource) else Success(())
    else Success(())
  }

  // ---------------------------------------------------------------- Bundling

  datatype BundlingConfig = BundlingConfig(
    entryPoints: seq<Path>,
    outputFormat: OutputFormat,
    codeSplitting: bool,
    chunkSizeLimit: nat,
    treeShaking: bool,
    minify: bool,
    sourceMaps: bool,
    assetInlineLimit: nat,
    externals: seq<string>,
    analyze: bool,
    splitChunks: bool,
    chunkSplittingStrategy: ChunkSplittingStrategy)

  const DefaultChunkSizeLimit: nat := 244 * 1024
  const DefaultAssetInlineLimit: nat := 4096

  function DefaultBundling(): BundlingConfig {
    BundlingConfig([], ESModule, true, DefaultChunkSizeLimit, true, false, true, DefaultAssetInlineLimit,
                   [], false, true, SizeBased)
  }

  /** `BundlingConfig::merge`: entry points are replaced only by a non-empty list; externals are appended to. */
  function MergeBundling(self: BundlingConfig, other: BundlingConfig): (r: BundlingConfig)
    ensures r.(entryPoints := other.entryPoints, externals := other.externals) == other
    ensures other.entryPoints != [] ==> r.entryPoints == other.entryPoints
    ensures other.entryPoints == [] ==> r.entryPoints == self.entryPoints
    ensures r.externals == self.externals + other.externals
  {
    other.(
      entryPoints := if other.entryPoints != [] then other.entryPoints else self.entryPoints,
      externals := self.externals + other.externals)
  }

  const NoEntryPoints := "At least one entry point must be specified"
  const ChunkSizeZero := "Chunk size limit must be greater than 0"
  const AssetInlineZero := "Asset inline limit must be greater than 0"

  /** `BundlingConfig::validate`: at least one entry point and two non-zero limits, checked in that order. */
  function ValidateBundling(c: BundlingConfig): (r: Check)
    ensures r.Failure? <==> c.entryPoints == [] || c.chunkSizeLimit == 0 || c.assetInlineLimit == 0
    ensures c.entryPoints == [] ==> r == Failure(NoEntryPoints)
    ensures c.entryPoints != [] && c.chunkSizeLimit == 0 ==> r == Failure(ChunkSizeZero)
  {
    if c.entryPoints == [] then Failure(NoEntryPoints)
    else if c.chunkSizeLimit == 0 then Failure(ChunkSizeZero)
    else if c.assetInlineLimit == 0 then Failure(AssetInlineZero)
    else Success(())
  }

  // ---------------------------------------------------------------- Optimization

  datatype OptimizationConfig = OptimizationConfig(
    deadCodeElimination: bool,
    constantFolding: bool,
    functionInlining: bool,
    loopUnrolling: bool,
    variableHoisting: bool,
    propertyAccessOptimization: bool,
    arrayAccessOptimization: bool,
    stringOptimization: bool,
    numberOptimization: bool,
    booleanOptimization: bool,
    objectOptimization: bool,
    functionOptimization: bool,
    classOptimization: bool,
    moduleOptimization: bool,
    asyncOptimization: bool,
    generatorOptimization: bool,
    arrowFunctionOptimization: bool,
    templateLiteralOptimization: bool,
    destructuringOptimization: bool,
    spreadOptimization: bool,
    restOptimization: bool,
    optionalChainingOptimization: bool,
    nullishCoalescingOptimization: bool)

  function DefaultOptimization(): OptimizationConfig {
    OptimizationConfig(true, true, true, false, true, true, true, true, true, true, true, true,
                       true, true, true, true, true, true, true, true, true, true, true)
  }

  /** `OptimizationConfig::merge`: every flag is copied from `other`. */
  function MergeOptimization(self: OptimizationConfig, other: OptimizationConfig): OptimizationConfig {
    other
  }

  /** Merging optimization flags replaces them wholesale. */
  lemma MergeOptimizationToOther(self: OptimizationConfig, other: OptimizationConfig)
    ensures MergeOptimization(self, other) == other
  {
  }

  /** `OptimizationConfig::validate`: every combination of flags is accepted. */
  function ValidateOptimization(c: OptimizationConfig): (r: Check)
    ensures r.Success?
  {
    Success(())
  }

  // ---------------------------------------------------------------- Linting

  datatype LintingConfig = LintingConfig(
    enabled: bool,
    rules: map<string, RuleConfig>,
    autoFix: bool,
    formatOnSave: bool,
    strictMode: bool,
    tddEnforcement: bool,
    performanceLinting: bool,
    securityLinting: bool,
    accessibilityLinting: bool,
    bestPracticesLinting: bool)

  function DefaultLinting(): LintingConfig {
    LintingConfig(true, map[], true, true, true, true, true, true, true, true)
  }

  /** `LintingConfig::merge`: the rule map is extended; every flag comes from `other`. */
  function MergeLinting(self: LintingConfig, other: LintingConfig): (r: LintingConfig)
    ensures r.(rules := other.rules) == other
    ensures r.rules.Keys == self.rules.Keys + other.rules.Keys
    ensures forall k :: k in other.rules ==> r.rules[k] == other.rules[k]
    ensures forall k :: k in self.rules && k !in other.rules ==> r.rules[k] == self.rules[k]
  {
    other.(rules := Extend(self.rules, other.rules))
  }

  const TddRequired := "TDD enforcement must be enabled when strict mode is enabled"

  /** `LintingConfig::validate`: strict linting requires TDD enforcement. */
  function ValidateLinting(c: LintingConfig): (r: Check)
    ensures r.Failure? <==> c.enabled && c.strictMode && !c.tddEnforcement
    ensures r.Failure? ==> r.error == TddRequired
  {
    if c.enabled && c.strictMode && !c.tddEnforcement then Failure(TddRequired) else Success(())
  }

  // ---------------------------------------------------------------- Testing

  datatype TestingConfig = TestingConfig(
    enabled: bool,
    testDir: Path,
    testPatterns: seq<string>,
    parallel: bool,
    parallelWorkers: nat,
    timeout: nat,
    coverage: bool,
    coverageThreshold: real,
    coverageReporters: seq<CoverageReporter>,
    watch: bool,
    bail: bool,
    verbose: bool,
    silent: bool)

  const DefaultTestDir := "tests"
  const DefaultTestPatterns: seq<string> := ["**/*.test.ts", "**/*.test.tsx", "**/*.spec.ts", "**/*.spec.tsx"]

  /** `TestingConfig::default`, with one worker per CPU the host reports. */
  function DefaultTesting(hostCpus: nat): TestingConfig {
    TestingConfig(true, DefaultTestDir, DefaultTestPatterns, true, hostCpus, 5000, true, 100.0,
                  [Text, Html, Json], false, false, false, false)
  }

  /**
   * `TestingConfig::merge`: the test directory is replaced unless `other`'s
   * is the default, the patterns only by a non-empty list, everything else
   * always.
   */
  function MergeTesting(self: TestingConfig, other: TestingConfig): (r: TestingConfig)
    ensures r.(testDir := other.testDir, testPatterns := other.testPatterns) == other
    ensures other.testDir != DefaultTestDir ==> r.testDir == other.testDir
    ensures other.testDir == DefaultTestDir ==> r.testDir == self.testDir
    ensures other.testPatterns != [] ==> r.testPatterns == other.testPatterns
    ensures other.testPatterns == [] ==> r.testPatterns == self.testPatterns
  {
    other.(
      testDir := if other.testDir != DefaultTestDir then other.testDir else self.testDir,
      testPatterns := if other.testPatterns != [] then other.testPatterns else self.testPatterns)
  }

  const NoWorkers := "Parallel workers must be greater than 0"
  const NoTimeout := "Timeout must be greater than 0"
  const ThresholdOutOfRange := "Coverage threshold must be between 0 and 100"

  /** `TestingConfig::validate`: an enabled configuration needs workers, a timeout and, with coverage on, a threshold in [0, 100]. */
  function ValidateTesting(c: TestingConfig): (r: Check)
    ensures r.Failure? <==> c.enabled && (c.parallelWorkers == 0 || c.timeout == 0 ||
                                          (c.coverage && !(0.0 <= c.coverageThreshold <= 100.0)))
    ensures c.enabled && c.parallelWorkers == 0 ==> r == Failure(NoWorkers)
  {
    if c.enabled then
      if c.parallelWorkers == 0 then Failure(NoWorkers)
      else if c.timeout == 0 then Failure(NoTimeout)
      else if c.coverage && (c.coverageThreshold < 0.0 || c.coverageThreshold > 100.0) then Failure(ThresholdOutOfRange)
      else Success(())
    else Success(())
  }

  // ---------------------------------------------------------------- Strict

  datatype StrictConfig = StrictConfig(
    enabled: bool,
    enforceTdd: bool,
    enforceBestPractices: bool,
    enforceDesignPatterns: bool,
    enforcePerformance: bool,
    enforceSecurity: bool,
    enforceAccessibility: bool,
    enforceCodeStyle: bool,
    enforceDocumentation: bool,
    enforceTesting: bool,
    enforceLinting: bool,
    enforceFormatting: bool)

  function DefaultStrict(): StrictConfig {
    StrictConfig(true, true, true, true, true, true, true, true, true, true, true, true)
  }

  /** `StrictConfig::merge`: every flag is copied from `other`. */
  function MergeStrict(self: StrictConfig, other: StrictConfig): StrictConfig {
    other
  }

  /** Merging strict-mode flags replaces them wholesale. */
  lemma MergeStrictToOther(self: StrictConfig, other: StrictConfig)
    ensures MergeStrict(self, other) == other
  {
  }

  /** `StrictConfig::validate`: strict mode requires TDD enforcement. */
  function ValidateStrict(c: StrictConfig): (r: Check)
    ensures r.Failure? <==> c.enabled && !c.enforceTdd
    ensures r.Failure? ==> r.error == TddRequired
  {
    if c.enabled && !c.enforceTdd then Failure(TddRequired) else Success(())
  }

  // ---------------------------------------------------------------- Performance

  datatype PerformanceConfig = PerformanceConfig(
    enabled: bool,
    profiling: bool,
    memoryTracking: bool,
    cpuTracking: bool,
    ioTracking: bool,
    networkTracking: bool,
    cacheTracking: bool,
    bundleAnalysis: bool,
    performanceBudgets: bool,
    budgetThresholds: map<string, nat>)

  function DefaultPerformance(): PerformanceConfig {
    PerformanceConfig(true, true, true, true, true, true, true, true, true, map[])
  }

  /** `PerformanceConfig::merge`: the budget map is extended; every flag comes from `other`. */
  function MergePerformance(self: PerformanceConfig, other: PerformanceConfig): (r: PerformanceConfig)
    ensures r.(budgetThresholds := other.budgetThresholds) == other
    ensures r.budgetThresholds.Keys == self.budgetThresholds.Keys + other.budgetThresholds.Keys
    ensures forall k :: k in other.budgetThresholds ==> r.budgetThresholds[k] == other.budgetThresholds[k]
    ensures forall k :: k in self.budgetThresholds && k !in other.budgetThresholds ==>
              r.budgetThresholds[k] == self.budgetThresholds[k]
  {
    other.(budgetThresholds := Extend(self.budgetThresholds, other.budgetThresholds))
  }

  /** `PerformanceConfig::validate`: every combination of settings is accepted. */
  function ValidatePerformance(c: PerformanceConfig): (r: Check)
    ensures r.Success?
  {
    Success(())
  }


  // ---------------------------------------------------------------- Compiler

  datatype CompilerConfig = CompilerConfig(
    targetLanguage: TargetLanguage,
    targetEsVersion: EsVersion,
    moduleFormat: ModuleFormat,
    outputDir: Path,
    sourceDir: Path,
    cacheDir: Path,
    minify: bool,
    sourceMaps: bool,
    treeShaking: bool,
    codeSplitting: bool,
    chunkSizeLimit: nat,
    assetInlineLimit: nat,
    typescript: TypeScriptConfig,
    react: ReactConfig,
    bundling: BundlingConfig,
    optimization: OptimizationConfig,
    linting: LintingConfig,
    testing: TestingConfig,
    plugins: seq<PluginConfig>,
    env: map<string, string>,
    strict: StrictConfig,
    performance: PerformanceConfig)

  const DefaultOutputDir := "dist"
  const DefaultSourceDir := "src"
  const DefaultCacheDir := ".synapse-cache"

  /** `CompilerConfig::default`; the host's CPU count feeds the testing section. */
  function DefaultConfig(hostCpus: nat): CompilerConfig {
    CompilerConfig(JavaScript, Es2022, ESNext, DefaultOutputDir, DefaultSourceDir, DefaultCacheDir,
                   false, true, true, true, DefaultChunkSizeLimit, DefaultAssetInlineLimit,
                   DefaultTypeScript(), DefaultReact(), DefaultBundling(), DefaultOptimization(),
                   DefaultLinting(), DefaultTesting(hostCpus), [], map[], DefaultStrict(), DefaultPerformance())
  }

  /**
   * `CompilerConfig::merge`: the language, ES version, module format and the
   * three directories are taken from `other` only when they differ from the
   * default; the switches and limits always; the sections merge section by
   * section; plugins are appended and the environment is extended.
   */
  function Merge(self: CompilerConfig, other: CompilerConfig): (r: CompilerConfig)
    ensures other.targetLanguage != JavaScript ==> r.targetLanguage == other.targetLanguage
    ensures other.targetLanguage == JavaScript ==> r.targetLanguage == self.targetLanguage
    ensures other.targetEsVersion != Es2022 ==> r.targetEsVersion == other.targetEsVersion
    ensures other.targetEsVersion == Es2022 ==> r.targetEsVersion == self.targetEsVersion
    ensures other.moduleFormat != ESNext ==> r.moduleFormat == other.moduleFormat
    ensures other.moduleFormat == ESNext ==> r.moduleFormat == self.moduleFormat
    ensures r.outputDir == if other.outputDir != DefaultOutputDir then other.outputDir else self.outputDir
    ensures r.sourceDir == if other.sourceDir != DefaultSourceDir then other.sourceDir else self.sourceDir
    ensures r.cacheDir == if other.cacheDir != DefaultCacheDir then other.cacheDir else self.cacheDir
    ensures r.minify == other.minify && r.sourceMaps == other.sourceMaps
    ensures r.treeShaking == other.treeShaking && r.codeSplitting == other.codeSplitting
    ensures r.chunkSizeLimit == other.chunkSizeLimit && r.assetInlineLimit == other.assetInlineLimit
    ensures r.plugins == self.plugins + other.plugins
    ensures r.env.Keys == self.env.Keys + other.env.Keys
    ensures forall k :: k in other.env ==> r.env[k] == other.env[k]
    ensures forall k :: k in self.env && k !in other.env ==> r.env[k] == self.env[k]
    ensures r.react == other.react && r.optimization == other.optimization && r.strict == other.strict
    ensures r.typescript == MergeTypeScript(self.typescript, other.typescript)
    ensures r.bundling == MergeBundling(self.bundling, other.bundling)
    ensures r.linting == MergeLinting(self.linting, other.linting)
    ensures r.testing == MergeTesting(self.testing, other.testing)
    ensures r.performance == MergePerformance(self.performance, other.performance)
  {
    MergeReactToOther(self.react, other.react);
    MergeOptimizationToOther(self.optimization, other.optimization);
    MergeStrictToOther(self.strict, other.strict);
    CompilerConfig(
      UnlessDefault(self.targetLanguage, other.targetLanguage, JavaScript),
      UnlessDefault(self.targetEsVersion, other.targetEsVersion, Es2022),
      UnlessDefault(self.moduleFormat, other.moduleFormat, ESNext),
      UnlessDefault(self.outputDir, other.outputDir, DefaultOutputDir),
      UnlessDefault(self.sourceDir, other.sourceDir, DefaultSourceDir),
      UnlessDefault(self.cacheDir, other.cacheDir, DefaultCacheDir),
      other.minify, other.sourceMaps, other.treeShaking, other.codeSplitting,
      other.chunkSizeLimit, other.assetInlineLimit,
      MergeTypeScript(self.typescript, other.typescript),
      MergeReact(self.react, other.react),
      MergeBundling(self.bundling, other.bundling),
      MergeOptimization(self.optimization, other.optimization),
      MergeLinting(self.linting, other.linting),
      MergeTesting(self.testing, other.testing),
      self.plugins + other.plugins,
      Extend(self.env, other.env),
      MergeStrict(self.strict, other.strict),
      MergePerformance(self.performance, other.performance))
  }

  /**
   * Merging a configuration into the defaults gives that configuration back,
   * except that the default libraries stay in front of its own and an empty
   * pattern list falls back to the default patterns.
   */
  lemma MergeIntoDefault(other: CompilerConfig, hostCpus: nat)
    ensures Merge(DefaultConfig(hostCpus), other) ==
      other.(typescript := other.typescript.(lib := DefaultLib + other.typescript.lib),
             testing := other.testing.(testPatterns :=
               if other.testing.testPatterns == [] then DefaultTestPatterns else other.testing.testPatterns))
  {
    MergeTypeScriptIntoDefault(other.typescript);
    MergeBundlingIntoDefault(other.bundling);
    MergeLintingIntoDefault(other.linting);
    MergeTestingIntoDefault(other.testing, hostCpus);
    MergePerformanceIntoDefault(other.performance);
    MergeReactToOther(DefaultReact(), other.react);
    MergeOptimizationToOther(DefaultOptimization(), other.optimization);
    MergeStrictToOther(DefaultStrict(), other.strict);
    AppendEmpty(other.plugins);
    assert Extend(map[], other.env) == other.env;
  }

  lemma MergeTypeScriptIntoDefault(other: TypeScriptConfig)
    ensures MergeTypeScript(DefaultTypeScript(), other) == other.(lib := DefaultLib + other.lib)
  {
    assert Extend(map[], other.paths) == other.paths;
    AppendEmpty(other.typeRoots);
    AppendEmpty(other.types);
  }

  lemma MergeBundlingIntoDefault(other: BundlingConfig)
    ensures MergeBundling(DefaultBundling(), other) == other
  {
    AppendEmpty(other.externals);
  }

  lemma MergeLintingIntoDefault(other: LintingConfig)
    ensures MergeLinting(DefaultLinting(), other) == other
  {
    assert Extend(map[], other.rules) == other.rules;
  }

  lemma MergeTestingIntoDefault(other: TestingConfig, hostCpus: nat)
    ensures MergeTesting(DefaultTesting(hostCpus), other) ==
      other.(testPatterns := if other.testPatterns == [] then DefaultTestPatterns else other.testPatterns)
  {
  }

  lemma MergePerformanceIntoDefault(other: PerformanceConfig)
    ensures MergePerformance(DefaultPerformance(), other) == other
  {
    assert Extend(map[], other.budgetThresholds) == other.budgetThresholds;
  }

  /** Merging the defaults into a configuration keeps its language, ES version, module format, directories, plugins and environment. */
  lemma MergeDefaultKeepsChoices(self: CompilerConfig, hostCpus: nat)
    ensures var r := Merge(self, DefaultConfig(hostCpus));
      r.targetLanguage == self.targetLanguage && r.targetEsVersion == self.targetEsVersion &&
      r.moduleFormat == self.moduleFormat && r.outputDir == self.outputDir &&
      r.sourceDir == self.sourceDir && r.cacheDir == self.cacheDir &&
      r.plugins == self.plugins && r.env == self.env
  {
    var r := Merge(self, DefaultConfig(hostCpus));
    assert self.plugins + [] == self.plugins;
    assert r.env == self.env;
  }

  function SourceDirMissing(dir: Path): string {
    "Source directory does not exist: \"" + dir + "\""
  }

  /** The checks `CompilerConfig::validate` makes, in the order it makes them. */
  function Checks(c: CompilerConfig, sourceDirExists: bool): seq<Check> {
    [ if sourceDirExists then Success(()) else Failure(SourceDirMissing(c.sourceDir)),
      if c.chunkSizeLimit == 0 then Failure(ChunkSizeZero) else Success(()),
      if c.assetInlineLimit == 0 then Failure(AssetInlineZero) else Success(()),
      ValidateTypeScript(c.typescript),
      ValidateReact(c.react),
      ValidateBundling(c.bundling),
      ValidateOptimization(c.optimization),
      ValidateLinting(c.linting),
      ValidateTesting(c.testing),
      ValidateStrict(c.strict),
      ValidatePerformance(c.performance) ]
  }

  /**
   * `CompilerConfig::validate`: the source directory must exist (whether it
   * does is a parameter here), both limits must be non-zero and every
   * section must validate; the first failure is reported.
   */
  function Validate(c: CompilerConfig, sourceDirExists: bool): (r: Check)
    ensures !sourceDirExists ==> r == Failure(SourceDirMissing(c.sourceDir))
    ensures sourceDirExists && c.chunkSizeLimit == 0 ==> r == Failure(ChunkSizeZero)
    ensures sourceDirExists && c.chunkSizeLimit > 0 && c.assetInlineLimit == 0 ==> r == Failure(AssetInlineZero)
  {
    var checks := Checks(c, sourceDirExists);
    assert checks[1..][0] == checks[1] && checks[1..][1..][0] == checks[2];
    FirstFailure(checks)
  }

  /** A configuration is accepted exactly when the directory exists, both limits are non-zero and every section validates. */
  lemma ValidateAccepts(c: CompilerConfig, sourceDirExists: bool)
    ensures Validate(c, sourceDirExists).Success? <==>
      sourceDirExists && c.chunkSizeLimit > 0 && c.assetInlineLimit > 0 &&
      ValidateTypeScript(c.typescript).Success? && ValidateReact(c.react).Success? &&
      ValidateBundling(c.bundling).Success? && ValidateLinting(c.linting).Success? &&
      ValidateTesting(c.testing).Success? && ValidateStrict(c.strict).Success?
  {
    var checks := Checks(c, sourceDirExists);
  }

  /** The default TypeScript section meets every strict setting, so it validates. */
  lemma DefaultTypeScriptValid()
    ensures ValidateTypeScript(DefaultTypeScript()).Success?
  {
    assert StrictSettingsHold(DefaultTypeScript().flags);
  }

  /** The default sections validate, except bundling, which has no entry point. */
  lemma DefaultSections(hostCpus: nat)
    ensures ValidateTypeScript(DefaultTypeScript()).Success?
    ensures ValidateReact(DefaultReact()).Success?
    ensures ValidateBundling(DefaultBundling()) == Failure(NoEntryPoints)
    ensures ValidateLinting(DefaultLinting()).Success? && ValidateStrict(DefaultStrict()).Success?
    ensures hostCpus > 0 ==> ValidateTesting(DefaultTesting(hostCpus)).Success?
  {
    DefaultTypeScriptValid();
  }

  /** So the default configuration itself is rejected, for its missing entry point. */
  lemma DefaultConfigRejected(hostCpus: nat)
    ensures Validate(DefaultConfig(hostCpus), true) == Failure(NoEntryPoints)
  {
    DefaultSections(hostCpus);
    var c := DefaultConfig(hostCpus);
    assert c.typescript == DefaultTypeScript() && c.react == DefaultReact() && c.bundling == DefaultBundling();
    var checks := Checks(c, true);
    assert checks[3].Success? && checks[4].Success?;
    assert checks[5] == Failure(NoEntryPoints);
    assert forall j :: 0 <= j < 5 ==> checks[j].Success?;
  }
}
