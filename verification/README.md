# Synapse toolchain core, modelled in Dafny

This project models the deterministic core of the Synapse front-end toolchain and proves properties of it:

- **Batch compiler.** The four phases of the "quantum" batch compiler (`QuantumCompiler`), and the `SynapseCompiler` front end that holds it. The phases are:
  1. one state per input path;
  2. import scanning and the reverse "entangled" relation;
  3. compiling every file into a path-keyed result map;
  4. a bounded loop that re-runs only the failing entries through a fixed textual correction.
- **Error system.** The compiler's closed error kinds with their code, severity, category, fixability and help tables; the error collection with its counters; and the error handler that can stop at the first error.
- **Compiler configuration.** The per-section `validate` and `merge` operations.
- **`.env` parser.** Line parsing, quote stripping, `${NAME}` expansion, typed getters and schema validation.
- **Commit-message linter.** Six rules and a score.
- **Rule engine.** Rule-list CRUD, "contains"/"not_contains" line matching, suggested fixes and the violation summary.
- **HTTP client.** URL joining and header precedence, over a mock response.
- **CLI helpers.** Project-name validation, the deterministic test and lint simulators with their counters, the unit loop of `format_bytes` and the directory list of a new project.

The modules follow the source files:

| file | module | models |
|---|---|---|
| quantum.dfy | `Quantum` | rust-compiler/src/quantum.rs |
| compiler.dfy | `Compiler` | rust-compiler/src/lib.rs |
| errors.dfy | `Errors` | rust-compiler/src/errors.rs |
| config.dfy | `Config` | rust-compiler/src/config.rs |
| env_parser.dfy | `EnvParser` | packages/env-parser-rust/src/lib.rs |
| commit_lint.dfy | `CommitLint` | packages/commit-lint-rust/src/lib.rs |
| rule_engine.dfy | `RuleEngine` | packages/rule-engine-rust/src/lib.rs |
| http_client.dfy | `HttpClient` | packages/http-client-rust/src/lib.rs |
| cli.dfy | `Cli` | synapse-package-test/node_modules/@snps/cli/src/main.rs |
| text.dfy | `Text` | the Rust string operations the sources rely on |
| wrappers.dfy | `Wrappers` | `Option` and `Result` |

`Text` covers `find`, `starts_with`/`ends_with`, `contains`, `trim*`, `lines`, `replace`, `split` and `splitn`, all over ASCII.

**How the environment is modelled.**
- The file system is a value, `Quantum.Host`. It holds the readable files with their contents, the I/O error message for each unreadable path, and the two-decimal efficiency figure printed into a compiled file's header.
- The process environment of the `.env` parser is a map parameter.
- The host CPU count is a parameter.
- User-supplied regular expressions and number parsing are oracle parameters.
- The fixed regular expressions are written out as string matchers: the commit-header and footer patterns, and the `${…}` pattern.

**Where the code form follows the source.** Loops and in-place updates in the source are methods with loop invariants. Each such method is proved equal to a specification function, and the properties are proved about that function. Classes model the objects whose fields the source updates: `SynapseCompiler`, `ErrorCollection`, `ErrorHandler`, `EnvParser`, `RuleEngine`, `HttpClient` and `CommitLinter`.

## Model

| member | source | states |
|---|---|---|
| Quantum.InitializeQuantumSuperposition | rust-compiler/src/quantum.rs:134-164 | one state per input path, in input order, each in `Superposition` with no dependencies and no entangled files |
| Quantum.InitialPathSet | rust-compiler/src/quantum.rs:140-160 | the paths of the phase-1 states are exactly the input paths |
| Quantum.ExtractImportPathSpec | rust-compiler/src/quantum.rs:362-371 | `extract_import_path` is None exactly when the line has fewer than two double quotes; otherwise it is the text between the first double quote and the next |
| Quantum.LineImportMembers | rust-compiler/src/quantum.rs:349-355 | a line contributes path `p` iff its trimmed text starts with "import" or "from" and its first double-quoted text is `p` |
| Quantum.ImportsOfMembers | rust-compiler/src/quantum.rs:343-359 | a path is among a file's dependencies iff some import line of the file quotes it |
| Quantum.ImportsOfLength | rust-compiler/src/quantum.rs:349-356 | each line contributes at most one dependency |
| Quantum.ResolveDependencies | rust-compiler/src/quantum.rs:343-359 | Err, carrying the read error, exactly when the file is unreadable; otherwise the quoted paths of the import lines in line order, duplicates kept |
| Quantum.NoDoubleQuoteNoImports | rust-compiler/src/quantum.rs:362-371 | a one-line file without double quotes has no dependencies |
| Quantum.SingleQuotedImportIgnored | rust-compiler/src/quantum.rs:453 | the single-quoted import of the `test_quantum_compilation` test yields no dependency |
| Quantum.FindEntangledFiles | rust-compiler/src/quantum.rs:186-194 | lists, each once, exactly the other scanned paths whose file resolves and imports the state's path |
| Quantum.EntangleDependencies | rust-compiler/src/quantum.rs:167-200 | same number of states; a state whose file resolves gets the resolved dependency list and gains exactly its dependents as entangled files; a state whose file does not resolve is unchanged |
| Quantum.EntangledPathSet | rust-compiler/src/quantum.rs:167-200 | phase 2 keeps the set of paths |
| Quantum.EntanglementIsReverseImport | rust-compiler/src/quantum.rs:181-196 | after phases 1 and 2, `p` is entangled with input `i` iff `i`'s file resolves, `p` is another input path and `p`'s file resolves and imports `i`'s path |
| Quantum.QuantumCompileFile | rust-compiler/src/quantum.rs:374-390 | Ok exactly for a readable file, and then the output is exactly "// Quantum compiled from: <path>", a line "// Quantum efficiency: <efficiency>%", then the content; otherwise the read error |
| Quantum.QuantumOutputFirstLine | rust-compiler/src/quantum.rs:374-390 | for a path without a newline, the first line of the output is the header naming the path and the output ends with the file's content unchanged |
| Quantum.MeasureFile | rust-compiler/src/quantum.rs:211-234 | success iff the compile succeeded; on success no errors and the compiled output; on failure exactly one error (the read error) and empty output; never a source map or warnings |
| Quantum.QuantumMeasurement | rust-compiler/src/quantum.rs:203-240 | the result map's keys are the states' paths, and each entry is that file's measurement |
| Quantum.ApplyErrorCorrections | rust-compiler/src/quantum.rs:428-437 | the correction header followed by the content with every "let " turned into "const "; no "let " remains after the header |
| Quantum.ConstLetRoundTrip | rust-compiler/src/quantum.rs:432-433 | replacing "const " by "let " and then "let " by "const " equals replacing only "let " by "const " |
| Quantum.NoLetAfterRewrite | rust-compiler/src/quantum.rs:433 | no "let " survives replacing every "let " by "const " |
| Quantum.CorrectCompilationErrors | rust-compiler/src/quantum.rs:405-425 | always a success with no errors, warnings or source map; the output is the correction of the file's content, or of "" for an unreadable file |
| Quantum.CorrectedResults | rust-compiler/src/quantum.rs:268-279 | one correction round keeps the keys, leaves successful entries untouched, replaces each failing entry by its correction and leaves no failure |
| Quantum.InsertAll | rust-compiler/src/quantum.rs:277-279 | inserting the corrections: the keys are the union and a correction overrides the old entry |
| Quantum.QuantumErrorCorrection | rust-compiler/src/quantum.rs:243-289 | keys unchanged; at most 2 × level rounds; nothing changes when the level is 0 or nothing fails; otherwise exactly one round runs and no failure survives |
| Quantum.CompileQuantumParallel | rust-compiler/src/quantum.rs:96-131 | the result's keys are the input paths; a readable file keeps its compiled result; an unreadable one gets the correction result when the level is positive, in which case every entry succeeds; entanglement does not change the results |
| Compiler.SynapseCompiler.constructor | rust-compiler/src/lib.rs:53-71 | always succeeds; a quantum compiler is held iff `quantum_mode`, built with the configured thread count (else the host's) and correction level 2 |
| Compiler.SynapseCompiler.CompileFile | rust-compiler/src/lib.rs:74-91 | fails only for an unreadable file; otherwise succeeds with no errors or warnings, the output is exactly "// Compiled from: <path>", a newline, then the content, and a source map is present iff `source_maps` |
| Compiler.CompiledOutputFirstLine | rust-compiler/src/lib.rs:74-91 | for a path without a newline, the first line of the output names the path and everything after it is the file's content unchanged |
| Compiler.SynapseCompiler.CompileFilesQuantum | rust-compiler/src/lib.rs:94-100 | an error, with the fixed message, exactly when no quantum compiler is held; otherwise one successful result per input path |
| Compiler.SynapseCompiler.EnableQuantumMode | rust-compiler/src/lib.rs:103-115 | afterwards a quantum compiler is held and `quantum_mode` is on; a second call changes nothing |
| Errors.New | rust-compiler/src/errors.rs:161-272 | the message, file, line and column are kept; a listed code comes back from `code()`; any other code gives an internal error with code "INTERNAL_ERROR" |
| Errors.CodeRoundTrip | rust-compiler/src/errors.rs:161-296 | every kind is rebuilt by `new` from its own code |
| Errors.KnownCodesListed | rust-compiler/src/errors.rs:275-296 | a kind's code is one of the 17 codes `new` recognises iff the kind is not the internal error |
| Errors.SeverityOf | rust-compiler/src/errors.rs:395-416 | Warning exactly for cache, plugin, performance, accessibility and linting errors; Info exactly for formatting errors; never Debug; Error otherwise |
| Errors.IsFixable | rust-compiler/src/errors.rs:419-440 | not fixable exactly for parse, transform, codegen, bundle, file-system and internal errors |
| Errors.CategoryOf | rust-compiler/src/errors.rs:443-464 | `System` exactly for cache and file-system errors; every other kind maps to a category that maps back to it |
| Errors.CategoryInjective | rust-compiler/src/errors.rs:443-464 | two different kinds share a category only when they are the cache and file-system errors |
| Errors.DocumentationUrl | rust-compiler/src/errors.rs:467-488 | every kind has a documentation page under the documentation base URL |
| Errors.DocumentationUrlInjective | rust-compiler/src/errors.rs:467-488 | different kinds have different documentation URLs |
| Errors.Suggestions | rust-compiler/src/errors.rs:491-584 | every kind has three suggestions |
| Errors.Select | rust-compiler/src/errors.rs:752-773 | the errors of a given severity, category or file are exactly the stored errors that have it |
| Errors.SelectAppend | rust-compiler/src/errors.rs:752-773 | selecting from a concatenation is the selection from each part, in order, so the filter keeps stored order and repeats |
| Errors.SelectOne | rust-compiler/src/errors.rs:752-773 | a single error is kept exactly when it has the severity, category or file asked for |
| Errors.SeverityCountsSum | rust-compiler/src/errors.rs:786-794 | the four severity counts sum to the number of stored errors |
| Errors.NoDebugErrors | rust-compiler/src/errors.rs:786-794 | no stored error ever has Debug severity |
| Errors.ErrorCollection.constructor | rust-compiler/src/errors.rs:723-730 | an empty list, empty counters and a zero total, which satisfy the counter invariant |
| Errors.ErrorCollection.Add | rust-compiler/src/errors.rs:733-742 | appends the error, adds one to the total, to its severity bucket and to its category bucket and to no other, and keeps total = list length = the sum of the buckets |
| Errors.ErrorCollection.AddAll | rust-compiler/src/errors.rs:745-749 | appends all the errors in order and keeps the invariant |
| Errors.ErrorCollection.Get | rust-compiler/src/errors.rs:752-773 | `get_by_severity`/`get_by_category`/`get_by_file` return the selection of the stored list, so exactly the matching stored errors in stored order with repeats |
| Errors.ErrorCollection.HasErrors | rust-compiler/src/errors.rs:776-778 | holds iff some stored error has Error severity |
| Errors.ErrorCollection.HasWarnings | rust-compiler/src/errors.rs:781-783 | holds iff some stored error has Warning severity |
| Errors.ErrorCollection.Summary | rust-compiler/src/errors.rs:786-794 | the total and the per-severity counts agree with the stored list, the debug count is 0, and the counts sum to the total |
| Errors.ErrorCollection.Clear | rust-compiler/src/errors.rs:797-802 | the list, both counter maps and the total are reset |
| Errors.ErrorHandler.constructor | rust-compiler/src/errors.rs:935-942 | an empty collection; it does not stop at the first error and shows errors immediately |
| Errors.ErrorHandler.AddError | rust-compiler/src/errors.rs:945-957 | the error is always recorded; the result is Err(that error) iff stopping at the first error is on and an error-severity entry is stored |
| Errors.ErrorHandler.AddErrors | rust-compiler/src/errors.rs:960-965 | records the errors in order up to and including the first one that is refused, and returns that refusal, which only happens when stopping at the first error is on; the refused one is the first error-severity error held, none before it was; success with stopping on means no error-severity error is held; otherwise records all of them |
| Errors.ErrorHandler.HasErrors | rust-compiler/src/errors.rs:973-975 | holds iff the collection holds an error-severity entry |
| Errors.ErrorHandler.Clear | rust-compiler/src/errors.rs:988-990 | the collection is emptied and stays consistent |
| Config.MergeTypeScript | rust-compiler/src/config.rs:370-410 | every flag comes from `other`; a base URL only when `other` has one; the path map is extended with `other`'s keys winning; the three lists are appended to |
| Config.ValidateTypeScript | rust-compiler/src/config.rs:412-466 | accepted iff strict mode is off or all the strict settings hold (14 flags on, unused labels and unreachable code off) |
| Config.StrictSettingsListed | rust-compiler/src/config.rs:414-463 | the sixteen strict settings, in the order they are checked, all hold exactly when the strict-settings predicate holds |
| Config.ValidateTypeScriptReportsFirst | rust-compiler/src/config.rs:412-466 | in strict mode, when setting k is the first unmet one, the error names setting k and the value it requires |
| Config.ValidateReact | rust-compiler/src/config.rs:519-535 | rejected iff enabled and either the runtime is classic without a pragma or automatic without an import source, with the message for that runtime |
| Config.MergeReactToOther | rust-compiler/src/config.rs:509-517 | merging React settings copies every field from `other` |
| Config.MergeOptimizationToOther | rust-compiler/src/config.rs:736-760 | merging optimization flags copies every flag from `other` |
| Config.MergeStrictToOther | rust-compiler/src/config.rs:1031-1044 | merging strict-mode flags copies every flag from `other` |
| Config.MergeBundling | rust-compiler/src/config.rs:598-613 | entry points are replaced only by a non-empty list, externals are appended, every other field comes from `other` |
| Config.ValidateBundling | rust-compiler/src/config.rs:615-629 | rejected iff there are no entry points or either limit is 0; no entry points is reported first |
| Config.ValidateOptimization | rust-compiler/src/config.rs:762-765 | always accepted |
| Config.MergeLinting | rust-compiler/src/config.rs:820-831 | the rule map is extended with `other`'s keys winning; every other field comes from `other` |
| Config.ValidateLinting | rust-compiler/src/config.rs:833-838 | rejected iff enabled, strict and TDD enforcement is off |
| Config.MergeTesting | rust-compiler/src/config.rs:914-932 | the test directory is replaced unless `other`'s is "tests", the patterns only by a non-empty list, everything else always |
| Config.ValidateTesting | rust-compiler/src/config.rs:934-949 | rejected iff enabled and there are no workers, the timeout is 0, or coverage is on with a threshold outside [0, 100]; no workers is reported first |
| Config.ValidateStrict | rust-compiler/src/config.rs:1046-1051 | rejected iff enabled and TDD is not enforced |
| Config.MergePerformance | rust-compiler/src/config.rs:1106-1117 | the budget map is extended with `other`'s keys winning; every flag comes from `other` |
| Config.ValidatePerformance | rust-compiler/src/config.rs:1119-1122 | always accepted |
| Config.Merge | rust-compiler/src/config.rs:128-167 | language, ES version, module format and the three directories come from `other` only when they differ from the default; switches and limits always; the typescript, bundling, linting, testing and performance sections are each the merge of that section; plugins are appended; the environment is extended with `other`'s keys winning |
| Config.MergeIntoDefault | rust-compiler/src/config.rs:84-109 | merging any configuration into the default gives that configuration, except that the default lib list stays in front and empty test patterns keep the default ones |
| Config.MergeTypeScriptIntoDefault | rust-compiler/src/config.rs:324-366 | merging into the TypeScript default keeps `other` except the default lib list in front |
| Config.MergeBundlingIntoDefault | rust-compiler/src/config.rs:579-594 | merging into the bundling default gives `other` |
| Config.MergeLintingIntoDefault | rust-compiler/src/config.rs:803-816 | merging into the linting default gives `other` |
| Config.MergeTestingIntoDefault | rust-compiler/src/config.rs:885-910 | merging into the testing default gives `other`, with the default patterns when `other` has none |
| Config.MergePerformanceIntoDefault | rust-compiler/src/config.rs:1089-1102 | merging into the performance default gives `other` |
| Config.MergeDefaultKeepsChoices | rust-compiler/src/config.rs:128-167 | merging the default into a configuration keeps its language, ES version, module format, directories, plugins and environment |
| Config.Validate | rust-compiler/src/config.rs:170-211 | a missing source directory is reported first, then a zero chunk limit, then a zero inline limit |
| Config.ValidateAccepts | rust-compiler/src/config.rs:170-211 | accepted iff the source directory exists, both limits are positive and every section validates |
| Config.DefaultSections | rust-compiler/src/config.rs:578-629 | the default TypeScript, React, linting and strict sections validate, and so does the testing one when the host has a CPU; the default bundling section is rejected for lacking entry points |
| Config.DefaultConfigRejected | rust-compiler/src/config.rs:170-211 | the default configuration is rejected for lacking entry points even when the source directory exists |
| EnvParser.Unquote | packages/env-parser-rust/src/lib.rs:166-172 | one pair of matching outer quotes is removed from a value of at least two characters; any other value is kept |
| EnvParser.ParseLine | packages/env-parser-rust/src/lib.rs:157-178 | no pair for a line without '='; every pair has a non-empty key without '=' (what the key and value are is stated by the round-trip lemmas and `AsWrittenAgrees`) |
| EnvParser.AsWrittenAgrees | packages/env-parser-rust/src/lib.rs:157-178 | wherever the source does not panic, the corrected parser gives the same pair or the same absence |
| EnvParser.LoneQuotePanics | packages/env-parser-rust/src/lib.rs:167-169 | for `KEY="` or `KEY='` the source's slice is out of range, while the corrected parser keeps the quote as the value |
| EnvParser.QuotedLineRoundTrip | packages/env-parser-rust/src/lib.rs:332-336 | `KEY="value"` parses to the key and the value without quotes |
| EnvParser.PlainLineRoundTrip | packages/env-parser-rust/src/lib.rs:325-329 | `KEY=value` parses to that key and value when neither has outer whitespace, the key has no '=' and the value is not quoted |
| EnvParser.Placeholders | packages/env-parser-rust/src/lib.rs:181-184 | every name captured by `\$\{([^}]+)\}` is non-empty and has no '}' |
| EnvParser.Resolve | packages/env-parser-rust/src/lib.rs:188-194 | a name defined by earlier lines wins, then the process environment, else nothing |
| EnvParser.ExpandVariables | packages/env-parser-rust/src/lib.rs:180-200 | the loop equals the expansion function: one replacement round per captured name, from the original value |
| EnvParser.ExpandPlain | packages/env-parser-rust/src/lib.rs:180-200 | a value without '$' is unchanged |
| EnvParser.ExpandOneReference | packages/env-parser-rust/src/lib.rs:184-196 | a single `${NAME}` is replaced by its resolution, or kept when the name resolves nowhere |
| EnvParser.ParseContent | packages/env-parser-rust/src/lib.rs:136-155 | the loop builds the map of the lines: blank and '#' lines skipped, each value expanded against the lines before it |
| EnvParser.ParseFile | packages/env-parser-rust/src/lib.rs:125-134 | an unreadable file gives the empty map, a readable one its parsed content |
| EnvParser.ParseLinesKeys | packages/env-parser-rust/src/lib.rs:140-151 | a key is stored iff some line defines it |
| EnvParser.LastDefinitionWins | packages/env-parser-rust/src/lib.rs:148-150 | a key's stored value is the one of its last defining line, expanded against the lines before it |
| EnvParser.BooleanWord | packages/env-parser-rust/src/lib.rs:283-289 | true exactly for true/1/yes/on and false exactly for false/0/no/off, ignoring ASCII case |
| EnvParser.ValidateValue | packages/env-parser-rust/src/lib.rs:245-298 | the boolean validator accepts exactly the boolean words; an accepted string respects its length bounds and a too-short one gets the minimum-length message; an unknown validator type is an error |
| EnvParser.KeyOutcome | packages/env-parser-rust/src/lib.rs:207-235 | a required missing key is an error; a present non-empty value is accepted or rejected by its validator; an absent optional key without default is skipped |
| EnvParser.ValidateSchema | packages/env-parser-rust/src/lib.rs:202-243 | valid iff no errors; the errors are exactly the rejected keys' messages and the data exactly the accepted keys' values |
| EnvParser.EnvParser.constructor | packages/env-parser-rust/src/lib.rs:36-40 | no variables |
| EnvParser.EnvParser.LoadFromString | packages/env-parser-rust/src/lib.rs:49-51 | the variables become the parsed content |
| EnvParser.EnvParser.LoadFromFile | packages/env-parser-rust/src/lib.rs:43-46 | the variables become the parsed file, or nothing for an unreadable one |
| EnvParser.EnvParser.Get | packages/env-parser-rust/src/lib.rs:54-59 | the stored value, else the default, else "" |
| EnvParser.EnvParser.GetNumber | packages/env-parser-rust/src/lib.rs:62-67 | the parsed stored value, else the default, else 0 |
| EnvParser.EnvParser.GetBoolean | packages/env-parser-rust/src/lib.rs:70-79 | a stored value is true iff it is a true word, so an unknown word is false rather than the default; the default is used only for an absent key |
| EnvParser.EnvParser.GetArray | packages/env-parser-rust/src/lib.rs:82-87 | the stored value split on the separator (default ",") with every piece trimmed; an absent key gives an empty list |
| EnvParser.EnvParser.Has | packages/env-parser-rust/src/lib.rs:90-92 | holds iff the key is stored |
| EnvParser.EnvParser.All | packages/env-parser-rust/src/lib.rs:95-97 | exactly the stored keys, each with its stored value |
| EnvParser.EnvParser.Validate | packages/env-parser-rust/src/lib.rs:100-105 | a schema that does not deserialise counts as empty and is valid; otherwise valid iff no key is rejected, and the data holds exactly the accepted keys |
| EnvParser.GetArraySingle | packages/env-parser-rust/src/lib.rs:82-87 | a value without the separator gives one trimmed piece |
| CommitLint.HeaderPrefix | packages/commit-lint-rust/src/lib.rs:109-110 | the `type(scope):` prefix of `^(\w+)(?:\(([^)]+)\))?:`: a non-empty word type and, when present, a non-empty scope without ')', both at the start of the header |
| CommitLint.PrefixOfType | packages/commit-lint-rust/src/lib.rs:109-111 | a word followed by ':' is read as a type without scope |
| CommitLint.PrefixOfScopedType | packages/commit-lint-rust/src/lib.rs:109-111 | a word, a parenthesised scope without ')' and ':' are read as that type and scope |
| CommitLint.Subject | packages/commit-lint-rust/src/lib.rs:159-181 | the capture of `^[^:]+:\s*(.+)`: none without ':', otherwise a non-empty tail of the header |
| CommitLint.SubjectOf | packages/commit-lint-rust/src/lib.rs:159-181 | "type: subject" has that subject when it starts with a non-blank |
| CommitLint.TypeEnumRule | packages/commit-lint-rust/src/lib.rs:104-133 | one error iff the prefix is missing or the type is not one of the 11 allowed; never a warning |
| CommitLint.ScopeEnumRule | packages/commit-lint-rust/src/lib.rs:137-155 | never an error; one warning iff the scope is longer than 20 characters |
| CommitLint.SubjectLengthRule | packages/commit-lint-rust/src/lib.rs:159-181 | one error iff the subject is under 10 characters, one warning iff over 50, never both |
| CommitLint.CaseRule | packages/commit-lint-rust/src/lib.rs:185-207 | one error iff the subject starts upper-case or ends with '.'; never a warning |
| CommitLint.EmptyLineRule | packages/commit-lint-rust/src/lib.rs:211-223 | one warning iff the body's first line is non-empty; never an error |
| CommitLint.FooterLineWarning | packages/commit-lint-rust/src/lib.rs:230-252 | a line without ':' never warns |
| CommitLint.FooterFormatRule | packages/commit-lint-rust/src/lib.rs:227-258 | the loop yields only warnings, the footer warnings of the body lines in order |
| CommitLint.FooterNeedsColon | packages/commit-lint-rust/src/lib.rs:242-251 | a body without ':' draws no footer warning |
| CommitLint.IssueReferencePasses | packages/commit-lint-rust/src/lib.rs:238-240 | an issue reference line never warns |
| CommitLint.ClosesIsIssueReference | packages/commit-lint-rust/src/lib.rs:238 | "Closes: #" followed by digits matches `^(Closes\|Fixes\|Resolves):\s*#?\d+` |
| CommitLint.Score | packages/commit-lint-rust/src/lib.rs:86-93 | within [0, 100] and a multiple of 5; 100 iff there are no issues; 0 from 10 errors or 20 warnings on |
| CommitLint.ScoreMonotone | packages/commit-lint-rust/src/lib.rs:86-93 | more errors or warnings never raise the score |
| CommitLint.CommitLinter.constructor | packages/commit-lint-rust/src/lib.rs:40-51 | the six rules in their fixed order |
| CommitLint.CommitLinter.Lint | packages/commit-lint-rust/src/lib.rs:54-76 | the loop concatenates the rules' errors and warnings in rule order; valid iff no errors; score at most 100 |
| CommitLint.DefaultOutputs | packages/commit-lint-rust/src/lib.rs:40-76 | under the default rules the errors come from the type, subject-length and case rules, the warnings from the scope, subject-length, empty-line and footer rules, in that order; at most 3 errors |
| CommitLint.ValidIff | packages/commit-lint-rust/src/lib.rs:54-76 | a message is valid iff its header has an allowed type and its subject, if any, has at least 10 characters, does not start upper-case and does not end with '.' |
| CommitLint.LintCommitMessage | packages/commit-lint-rust/src/lib.rs:262-289 | an error with the fixed message exactly when linting reports errors |
| CommitLint.ConventionalMessageClean | packages/commit-lint-rust/src/lib.rs:326-335 | a one-line `type: subject` message with an allowed type and a well-formed subject of 10 to 50 characters draws no issue and scores 100 |
| CommitLint.FeatureMessageScoresFull | packages/commit-lint-rust/src/lib.rs:326-335 | "feat: add new feature" is valid and scores 100 |
| CommitLint.UntypedMessageRejected | packages/commit-lint-rust/src/lib.rs:296-303 | a one-line message whose first word is followed by a blank is invalid and scores below 100 |
| CommitLint.PlainMessageRejected | packages/commit-lint-rust/src/lib.rs:296-303 | "invalid commit message" is invalid and scores below 100 |
| RuleEngine.SuggestedFix | packages/rule-engine-rust/src/lib.rs:353-368 | none unless the rule is tagged "auto-fixable"; the remediation for a non-"contains" rule; for "contains" a fix iff the rule has a pattern, and then it is the line with every occurrence of the pattern removed |
| RuleEngine.FixChangesLineIff | packages/rule-engine-rust/src/lib.rs:353-368 | the "contains" fix never lengthens the line and leaves it unchanged iff the pattern does not occur in it |
| RuleEngine.FixRemovesOccurrence | packages/rule-engine-rust/src/lib.rs:353-368 | the fix of a line holding one occurrence of the pattern is the line without it |
| RuleEngine.LineViolationAt | packages/rule-engine-rust/src/lib.rs:246-266 | every line violation names a 1-based line that is hit, with the rule's message, severity, category and the fix of that line |
| RuleEngine.LineViolationsIncrease | packages/rule-engine-rust/src/lib.rs:246-266 | line numbers strictly increase along the violations |
| RuleEngine.LineViolationsComplete | packages/rule-engine-rust/src/lib.rs:246-266 | every hit line has a violation |
| RuleEngine.CheckLines | packages/rule-engine-rust/src/lib.rs:249-265 | the per-line loop yields exactly the line violations |
| RuleEngine.RuleViolations | packages/rule-engine-rust/src/lib.rs:218-310 | none without a pattern or for an unknown logic kind; "not_contains" yields one violation without line number iff the content lacks the pattern |
| RuleEngine.CheckRuleAgainstFile | packages/rule-engine-rust/src/lib.rs:218-310 | the method yields exactly the rule's violations |
| RuleEngine.ContainsHitsLines | packages/rule-engine-rust/src/lib.rs:267-285 | for "contains", line `i` contains the pattern iff some violation has line number `i + 1` |
| RuleEngine.SummaryCounts | packages/rule-engine-rust/src/lib.rs:370-398 | the total is the number of violations; each severity count counts that severity; the auto-fixable count counts the auto-fixable violations |
| RuleEngine.SummaryCategories | packages/rule-engine-rust/src/lib.rs:370-398 | each category is counted as often as it occurs, so the category counts sum to the total |
| RuleEngine.SeverityCountsBounded | packages/rule-engine-rust/src/lib.rs:370-398 | critical + high + medium + low is at most the total |
| RuleEngine.CreateSummary | packages/rule-engine-rust/src/lib.rs:370-398 | the counting loop equals the summary function |
| RuleEngine.ShouldSkipDirectory | packages/rule-engine-rust/src/lib.rs:339-342 | holds iff the path contains one of the six skipped names |
| RuleEngine.ShouldCheckFile | packages/rule-engine-rust/src/lib.rs:344-347 | holds iff the path ends with one of the eight checked extensions |
| RuleEngine.SkipsNamedDirectory | packages/rule-engine-rust/src/lib.rs:439-444 | any path ending in a skipped name is skipped |
| RuleEngine.CheckedFileExamples | packages/rule-engine-rust/src/lib.rs:447-453 | "test.ts" and "test.rs" are checked, "test.txt" is not |
| RuleEngine.RuleEngine.constructor | packages/rule-engine-rust/src/lib.rs:92-98 | no rules, data sources or cache entries |
| RuleEngine.RuleEngine.AddRule | packages/rule-engine-rust/src/lib.rs:101-103 | appends the rule at the end; nothing else changes |
| RuleEngine.RuleEngine.AddRules | packages/rule-engine-rust/src/lib.rs:106-108 | appends the rules in order; nothing else changes |
| RuleEngine.RuleEngine.AddDataSource | packages/rule-engine-rust/src/lib.rs:111-113 | stores the source under its id; nothing else changes |
| RuleEngine.RuleEngine.GetRuleById | packages/rule-engine-rust/src/lib.rs:181-183 | the first rule with the id, or none iff no rule has it |
| RuleEngine.RuleEngine.UpdateRule | packages/rule-engine-rust/src/lib.rs:186-193 | true iff some rule has the id, and then the first such rule is replaced; otherwise the list is unchanged |
| RuleEngine.RuleEngine.DeleteRule | packages/rule-engine-rust/src/lib.rs:196-203 | true iff some rule has the id, and then only the first such rule is removed, shortening the list by one; otherwise the list is unchanged |
| RuleEngine.RuleEngine.ClearCache | packages/rule-engine-rust/src/lib.rs:206-208 | the cache is emptied; rules and data sources are kept |
| RuleEngine.RuleEngine.CheckFile | packages/rule-engine-rust/src/lib.rs:128-152 | a missing or unreadable file is an error with its message; otherwise every rule's violations in rule order and their summary |
| RuleEngine.AddedRuleFound | packages/rule-engine-rust/src/lib.rs:418-436 | a rule added with a fresh id is found at the end of the list |
| RuleEngine.UpdateThenFind | packages/rule-engine-rust/src/lib.rs:186-193 | after an update the id is still found at the same position |
| RuleEngine.DeleteThenFind | packages/rule-engine-rust/src/lib.rs:196-203 | after a delete the id is gone iff no later rule had it |
| HttpClient.BuildUrl | packages/http-client-rust/src/lib.rs:127-137 | without a base, or for an http(s) URL, the URL unchanged; otherwise the base without trailing '/', one '/', and the URL without leading '/' |
| HttpClient.LeadingSlashIgnored | packages/http-client-rust/src/lib.rs:132 | leading slashes on the path make no difference |
| HttpClient.TrailingSlashIgnored | packages/http-client-rust/src/lib.rs:132 | trailing slashes on the base make no difference |
| HttpClient.JoinPlain | packages/http-client-rust/src/lib.rs:132 | a plain base and path are joined with exactly one '/' |
| HttpClient.BuildUrlExample | packages/http-client-rust/src/lib.rs:164-168 | "https://api.example.com" and "/users" give "https://api.example.com/users" |
| HttpClient.MergeHeaders | packages/http-client-rust/src/lib.rs:69-72 | the defaults extended by the request headers: the keys of both, request values winning, other defaults kept |
| HttpClient.ForVerb | packages/http-client-rust/src/lib.rs:90-125 | a verb wrapper forces its method, replaces the body when it carries one, and keeps the headers |
| HttpClient.HttpClient.constructor | packages/http-client-rust/src/lib.rs:34-45 | the given base URL, a 5000 ms timeout and exactly three default headers with fixed values |
| HttpClient.HttpClient.Request | packages/http-client-rust/src/lib.rs:63-87 | status 200 "OK"; the mock data carries the fixed message, the joined URL and the method, GET by default; the headers are the merged headers |
| HttpClient.HttpClient.Get | packages/http-client-rust/src/lib.rs:90-94 | the method is GET whatever the configuration says; URL, status and headers as for `request` |
| HttpClient.HttpClient.Post | packages/http-client-rust/src/lib.rs:97-102 | the method is POST; URL, status and headers as for `request` |
| HttpClient.HttpClient.Put | packages/http-client-rust/src/lib.rs:105-110 | the method is PUT; URL, status and headers as for `request` |
| HttpClient.HttpClient.Patch | packages/http-client-rust/src/lib.rs:113-118 | the method is PATCH; URL, status and headers as for `request` |
| HttpClient.HttpClient.Delete | packages/http-client-rust/src/lib.rs:121-125 | the method is DELETE whatever the configuration says; URL, status and headers as for `request` |
| HttpClient.RequestHeaderWins | packages/http-client-rust/src/lib.rs:69-72 | a request header overrides the default of the same name |
| Cli.ValidateProjectName | synapse-package-test/node_modules/@snps/cli/src/main.rs:1938-1953 | accepted iff non-empty, every character in [A-Za-z0-9_-] and 2 to 50 characters; the character-set error comes first; the length error exactly for a non-empty name of allowed characters whose length is out of range |
| Cli.NatTextRoundTrip | synapse-package-test/node_modules/@snps/cli/src/main.rs:812 | the decimal numeral of a test number reads back as that number |
| Cli.NatTextInjective | synapse-package-test/node_modules/@snps/cli/src/main.rs:812 | different test numbers have different numerals |
| Cli.TestCase | synapse-package-test/node_modules/@snps/cli/src/main.rs:811-831 | the result is named "<stem> test <i+1>"; failed iff it is the first and the stem contains "fail"; an error message iff failed |
| Cli.TestCount | synapse-package-test/node_modules/@snps/cli/src/main.rs:809 | between 3 and 7 tests per file |
| Cli.FileResults | synapse-package-test/node_modules/@snps/cli/src/main.rs:809-832 | a file yields its test count of results, the `i`-th being test case `i` |
| Cli.FileResultNamesDistinct | synapse-package-test/node_modules/@snps/cli/src/main.rs:812 | within a file the test names are all different |
| Cli.RunTestFile | synapse-package-test/node_modules/@snps/cli/src/main.rs:811-832 | the inner loop appends exactly the file's results |
| Cli.SimulateTestExecution | synapse-package-test/node_modules/@snps/cli/src/main.rs:795-836 | the loop yields the results of the kept files, file after file |
| Cli.TestResultFromKeptFile | synapse-package-test/node_modules/@snps/cli/src/main.rs:802-806 | every result comes from a file the name filter keeps |
| Cli.FileFailures | synapse-package-test/node_modules/@snps/cli/src/main.rs:814-824 | a file fails exactly once if its stem contains "fail" and never otherwise |
| Cli.TestRunFailures | synapse-package-test/node_modules/@snps/cli/src/main.rs:795-836 | a run has exactly one failure per kept file whose stem contains "fail" |
| Cli.LintIssuesFor | synapse-package-test/node_modules/@snps/cli/src/main.rs:974-1015 | at most three issues per file |
| Cli.LintIssuesShape | synapse-package-test/node_modules/@snps/cli/src/main.rs:974-1015 | every issue names the file; only the const-assertions issue is not fixable; the rules come in the order component, api, utils |
| Cli.LintIssuesMembers | synapse-package-test/node_modules/@snps/cli/src/main.rs:974-1015 | the component, api and utils issues are each present iff the file name contains that keyword |
| Cli.SimulateLintIssues | synapse-package-test/node_modules/@snps/cli/src/main.rs:974-1015 | the method yields exactly the file's issues |
| Cli.PushIssues | synapse-package-test/node_modules/@snps/cli/src/main.rs:926-931 | the inner loop appends the file's issues and keeps the fixable counter equal to the fixable issues |
| Cli.LintCode | synapse-package-test/node_modules/@snps/cli/src/main.rs:915-947 | the issues of every file in order; the fixable count counts the fixable issues and never exceeds the total, so the subtraction in fix mode cannot underflow |
| Cli.FormatBytesUnit | synapse-package-test/node_modules/@snps/cli/src/main.rs:1910-1921 | the unit index stays within the five units; size × 1024^index equals the byte count; below 1024 unless in the last unit, and at least 1 past the first |
| Cli.TemplateDirs | synapse-package-test/node_modules/@snps/cli/src/main.rs:214-262 | an unknown template adds no directory; a known one adds 6 to 9 |
| Cli.ProjectDirectories | synapse-package-test/node_modules/@snps/cli/src/main.rs:200-262 | the ten base directories always come first, followed by the template's own; an unknown template gives the base directories alone |

## Left out

- Concurrency: the rayon parallel iterators are sequential loops and comprehensions. The semaphore is created but never acquired, so it is left out. The never-used compilation cache is left out. The iteration order of a hash map is left open, as an arbitrary choice.
- Floating point and clocks: superposition level, file efficiency, quantum efficiency, durations and timestamps. The efficiency percentage printed in a compiled file's header is host-supplied text.
- Quantum.CompileQuantumParallel: requires a non-empty path list. For an empty list the efficiency report divides a `Duration` by zero files, which panics.
- Compiler.SynapseCompiler.CompileFilesQuantum: inherits that requirement when a quantum compiler is held.
- `SynapseCompiler::version`: reads a build-time constant, so it is left out.
- Paths are raw strings compared character by character. Rust's `PathBuf` compares path components, so `"dist/"` equals `"dist"` and `"a//b"` equals `"a/b"` there but not here. This affects the default-directory comparisons of `Config.Merge` and `Config.MergeTesting` (rust-compiler/src/config.rs:139, 142, 145, 916) and the file-keyed maps of the quantum pipeline (rust-compiler/src/quantum.rs:79, 99).
- File-system and process I/O are values or parameters:
  - file contents are a map, and read errors are host-supplied messages;
  - `source_dir.exists()` is a boolean parameter;
  - `CompilerConfig::from_file`/`save_to_file`, `lint_file`, `load_rules_from_file`, `scan_directory`, `check_directory` are left out;
  - the "file_exists" rule kind is modelled through a host-supplied oracle saying whether the sibling file exists;
  - so are directory creation, file copying, hashing and subprocesses.
- Regular expressions given by users are oracle parameters: the rule-engine "regex" kind and the env "string" pattern check. The commit-lint and `${…}` patterns are hand-written matchers over ASCII, and `\w`, `\s`, `\d`, upper case and lower-casing are ASCII only.
- Lengths: Rust's byte lengths (`len()`) are character counts, which agree on ASCII text.
- Integer widths:
  - `u32` line and column numbers are a bounded subtype;
  - other counters are unbounded naturals, because none can overflow at realistic sizes;
  - `error_correction_level` is a `u8`.
- Config merges: `merge(&mut self, other)` is a function returning the merged value. The model does not capture the update in place.
- Config: `TargetLanguage` and `ModuleFormat` are opaque enumerations with their default constructor. The NaN case of the coverage threshold is not modelled.
- `EnvParser.EnvParser.GetNumber` and the "number" validator: number parsing is an oracle parameter. The panic when a parsed number is NaN or infinite is not modelled.
- EnvParser.ValidateValue: the "number" and "url" branches are stated only through the oracle, and the string pattern check only through the regex oracle.
- Errors.Suggestions: states only that each kind has three suggestions, not their wording.
- Errors: the `Display` formats, `ErrorContext`, `ErrorFormatter` and the handler's `collection`/`has_warnings`/`summary` pass-throughs are left out. They only format text or delegate to the collection.
- CommitLint: `lint_file` (I/O) and the printing in `lint_commit_message` are left out.
- CommitLint.FooterLineWarning: its contract states only that a line without ':' never warns. The full footer behaviour is stated through `FooterFormatRule` and the lemmas beside it.
- RuleEngine: `get_cache_stats` and `count_expired_entries` compare against the clock, and `get_rules` is the field itself, so all three are left out. Violation ids and timestamps (UUIDs, chrono) are left out.
- HttpClient: the request is a mock, with no network.
  - The timeout and query parameters are read but unused.
  - The request body is not echoed in the mock response.
  - The `napi::Result` wrappers never fail, so responses are plain values.
  - The getters `get_base_url`, `get_timeout` and `get_default_headers` are the fields themselves.
- Cli:
  - the `handle_*` commands, prompts, progress bars, printing, the dev server and profiling are left out;
  - test durations are exact reals;
  - the size `format_bytes` computes is an exact real, so rounding from `u64` to `f64` and the printed number are left out;
  - file stems and file names are given as text;
  - the early return of `lint_code` for no files leaves the counters at 0, which the model gives anyway.

## Findings

| source | as written | input that shows it | evidently intended | confidence | as-written member | corrected member |
|---|---|---|---|---|---|---|
| packages/env-parser-rust/src/lib.rs:167-169 | a value that starts and ends with the same quote is sliced as `value[1..len - 1]`, and a lone quote also passes that test | the line `KEY="` (or `KEY='`): the slice `value[1..0]` is out of range and panics | strip the outer quotes only from a value of at least two characters | not executed | EnvParser.LoneQuotePanics | EnvParser.ParseLine |
