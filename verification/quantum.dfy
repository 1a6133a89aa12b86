/**
 * The four-phase batch compilation pipeline of `QuantumCompiler`
 * (rust-compiler/src/quantum.rs).  The parallel iterators are modelled as
 * sequential loops and comprehensions; the file system is the `Host` value.
 */
module Quantum {
  import opened Wrappers
  import opened Text

  /** A path, compared as text. */
  type Path = string

  /** Rust's `u8`. */
  type U8 = x: int | 0 <= x < 256

  /**
   * What the pipeline reads from its environment: the readable files and
   * their contents, the message of the I/O error for an unreadable path, and
   * the two-decimal "efficiency" figure printed into the compiled header
   * (computed by the host from the file's size and extension).
   */
  datatype Host = Host(files: map<Path, string>, readError: Path -> string, efficiencyText: Path -> string)

  datatype QuantumConfig = QuantumConfig(
    maxParallelThreads: nat,
    enableEntanglement: bool,
    errorCorrectionLevel: U8,
    enableSuperposition: bool,
    cacheCoherenceLevel: U8)

  /** `QuantumConfig::default`, with the host's CPU count. */
  function DefaultQuantumConfig(hostCpus: nat): QuantumConfig {
    QuantumConfig(hostCpus, true, 2, true, 3)
  }

  datatype CompilationResult = CompilationResult(
    success: bool,
    output: string,
    sourceMap: Option<string>,
    errors: seq<string>,
    warnings: seq<string>)

  datatype CompilationState =
    | Superposition
    | Entangled
    | Collapsed(result: CompilationResult)
    | Decohered(messages: seq<string>)

  datatype QuantumState = QuantumState(
    filePath: Path,
    compilationState: CompilationState,
    dependencies: seq<Path>,
    entangledFiles: seq<Path>)

  /** The engine; only its configuration influences what it computes. */
  datatype QuantumCompiler = QuantumCompiler(config: QuantumConfig)

  // ---------------------------------------------------------------------
  // Phase 1: superposition

  /** One fresh state per input path, in input order. */
  function InitializeQuantumSuperposition(paths: seq<Path>): (states: seq<QuantumState>)
    ensures |states| == |paths|
    ensures forall i :: 0 <= i < |paths| ==>
      states[i].filePath == paths[i] && states[i].compilationState == Superposition &&
      states[i].dependencies == [] && states[i].entangledFiles == []
  {
    if paths == [] then []
    else [QuantumState(paths[0], Superposition, [], [])] + InitializeQuantumSuperposition(paths[1..])
  }

  // ---------------------------------------------------------------------
  // Dependency scanning

  /** The text between the first double quote of the line and the next one. */
  function ExtractImportPath(line: string): Option<Path> {
    match Find(line, '"')
    case None => None
    case Some(start) =>
      match Find(line[start + 1..], '"')
      case None => None
      case Some(end) => Some(line[start + 1..][..end])
  }

  /**
   * An import path is found iff the line has at least two double quotes; it
   * is then the text between the first double quote and the next one.
   */
  lemma ExtractImportPathSpec(line: string)
    ensures ExtractImportPath(line).None? <==> multiset(line)['"'] < 2
    ensures ExtractImportPath(line).Some? ==> exists i :: QuotedAt(line, i, ExtractImportPath(line).value)
  {
    match Find(line, '"')
    case None =>
      NoQuote(line);
    case Some(start) =>
      match Find(line[start + 1..], '"')
      case None =>
        OneQuote(line, start);
      case Some(end) =>
        TwoQuotes(line, start, end);
        assert QuotedAt(line, start, ExtractImportPath(line).value);
  }

  /**
   * The first double quote of `line` is at `i`, and `v` follows it up to the
   * next double quote.
   */
  predicate QuotedAt(line: string, i: nat, v: string) {
    i + |v| + 1 < |line| && line[i] == '"' && line[i + 1 + |v|] == '"' &&
    '"' !in line[..i] && '"' !in v && line[i + 1..i + 1 + |v|] == v
  }

  lemma NoQuote(line: string)
    requires Find(line, '"').None?
    ensures multiset(line)['"'] == 0
  {
  }

  lemma OneQuote(line: string, start: nat)
    requires Find(line, '"') == Some(start) && Find(line[start + 1..], '"').None?
    ensures multiset(line)['"'] == 1
  {
    QuoteSplit(line, start);
    assert multiset(line[..start])['"'] == 0;
    assert multiset(line[start + 1..])['"'] == 0;
  }

  lemma TwoQuotes(line: string, start: nat, end: nat)
    requires Find(line, '"') == Some(start) && Find(line[start + 1..], '"') == Some(end)
    ensures multiset(line)['"'] >= 2
    ensures QuotedAt(line, start, line[start + 1..][..end])
  {
    var rest := line[start + 1..];
    QuoteSplit(line, start);
    QuoteSplit(rest, end);
    FirstQuoted(line, start, end);
  }

  lemma FirstQuoted(line: string, start: nat, end: nat)
    requires Find(line, '"') == Some(start) && Find(line[start + 1..], '"') == Some(end)
    ensures QuotedAt(line, start, line[start + 1..][..end])
  {
    var rest := line[start + 1..];
    var v := rest[..end];
    assert |v| == end && end < |rest| && rest[end] == '"' && '"' !in v;
    assert line[start + 1 + end] == rest[end];
    assert line[start + 1..start + 1 + end] == v;
  }

  /** Splitting a text at one of its double quotes. */
  lemma QuoteSplit(s: string, i: nat)
    requires i < |s| && s[i] == '"'
    ensures multiset(s)['"'] == multiset(s[..i])['"'] + 1 + multiset(s[i + 1..])['"']
  {
    assert s == s[..i] + "\"" + s[i + 1..];
  }

  /** The lines `resolve_dependencies` inspects: trimmed, they start with "import" or "from". */
  predicate IsImportLine(line: string) {
    StartsWith(Trim(line), "import") || StartsWith(Trim(line), "from")
  }

  /** What one line contributes to the dependency list. */
  function LineImport(line: string): seq<Path> {
    if IsImportLine(line) then
      match ExtractImportPath(line)
      case Some(p) => [p]
      case None => []
    else []
  }

  /** The dependency list of a file with these lines, in line order. */
  function ImportsOf(lines: seq<string>): seq<Path> {
    if lines == [] then []
    else ImportsOf(lines[..|lines| - 1]) + LineImport(lines[|lines| - 1])
  }

  /** `line` is an import line whose first double-quoted text is `p`. */
  predicate ImportsPath(line: string, p: Path) {
    IsImportLine(line) && ExtractImportPath(line) == Some(p)
  }

  lemma LineImportMembers(line: string, p: Path)
    ensures p in LineImport(line) <==> ImportsPath(line, p)
  {
  }

  /** A path is a dependency iff some import line quotes it. */
  lemma {:induction false} ImportsOfMembers(lines: seq<string>, p: Path)
    ensures p in ImportsOf(lines) <==> exists k :: 0 <= k < |lines| && ImportsPath(lines[k], p)
  {
    if lines != [] {
      var init, last := lines[..|lines| - 1], lines[|lines| - 1];
      ImportsOfMembers(init, p);
      LineImportMembers(last, p);
      assert ImportsOf(lines) == ImportsOf(init) + LineImport(last);
      assert lines == init + [last];
    }
  }

  lemma ImportsOfSnoc(lines: seq<string>, i: nat)
    requires i < |lines|
    ensures ImportsOf(lines[..i + 1]) == ImportsOf(lines[..i]) + LineImport(lines[i])
  {
    assert lines[..i + 1][..i] == lines[..i];
  }

  /** Every line contributes at most one dependency. */
  lemma {:induction false} ImportsOfLength(lines: seq<string>)
    ensures |ImportsOf(lines)| <= |lines|
  {
    if lines != [] {
      ImportsOfLength(lines[..|lines| - 1]);
    }
  }

  /** The dependencies of a readable file, or None when it cannot be read. */
  function Deps(host: Host, path: Path): Option<seq<Path>> {
    if path in host.files then Some(ImportsOf(Lines(host.files[path]))) else None
  }

  /** `resolve_dependencies`: scans the file's lines, collecting quoted import paths. */
  method ResolveDependencies(host: Host, path: Path) returns (r: Result<seq<Path>, string>)
    ensures r.Failure? <==> path !in host.files
    ensures r.Failure? ==> r.error == host.readError(path)
    ensures r.Success? ==> r.value == ImportsOf(Lines(host.files[path]))
  {
    if path !in host.files {
      return Failure(host.readError(path));
    }
    var lines := Lines(host.files[path]);
    var dependencies: seq<Path> := [];
    for i := 0 to |lines|
      invariant dependencies == ImportsOf(lines[..i])
    {
      var line := lines[i];
      ImportsOfSnoc(lines, i);
      if IsImportLine(line) {
        var importPath := ExtractImportPath(line);
        if importPath.Some? {
          dependencies := dependencies + [importPath.value];
        }
      }
    }
    assert lines[..|lines|] == lines;
    return Success(dependencies);
  }

  /** A one-line file with no line break is read as that one line. */
  lemma LinesOfOneLine(s: string)
    requires s != [] && '\n' !in s
    ensures Lines(s) == [s]
  {
    assert Find(s, '\n') == None;
    assert SplitOn(s, '\n') == [s];
    assert StripCrs([]) == [];
  }

  /** The import line of the `test_quantum_compilation` test, which quotes its path with single quotes. */
  const SingleQuotedImport := "import { x } from './test1';"

  lemma SingleQuotedImportChars()
    ensures '"' !in SingleQuotedImport && '\n' !in SingleQuotedImport
  {
  }

  /** A one-line file without double quotes has no dependencies. */
  lemma NoDoubleQuoteNoImports(line: string)
    requires line != [] && '"' !in line && '\n' !in line
    ensures ImportsOf(Lines(line)) == []
  {
    LinesOfOneLine(line);
    NoQuote(line);
    assert ExtractImportPath(line) == None;
    assert LineImport(line) == [];
    assert [line][..0] == [];
    assert ImportsOf([line]) == ImportsOf([]) + LineImport(line);
  }

  /** A single-quoted import yields no dependency. */
  lemma SingleQuotedImportIgnored()
    ensures ImportsOf(Lines(SingleQuotedImport)) == []
  {
    SingleQuotedImportChars();
    NoDoubleQuoteNoImports(SingleQuotedImport);
  }

  // ---------------------------------------------------------------------
  // Phase 2: entanglement

  /** The distinct paths of the states (the keys of `state_map`). */
  function PathSet(states: seq<QuantumState>): set<Path> {
    set s | s in states :: s.filePath
  }

  predicate DependsOn(host: Host, other: Path, target: Path) {
    Deps(host, other).Some? && target in Deps(host, other).value
  }

  /** The paths among `paths`, other than `target`, whose file resolves and imports `target`. */
  function Dependents(host: Host, paths: set<Path>, target: Path): set<Path> {
    set p | p in paths && p != target && DependsOn(host, p, target)
  }

  predicate NoDup(s: seq<Path>) {
    forall i, j :: 0 <= i < j < |s| ==> s[i] != s[j]
  }

  /** `s` lists the elements of `d`, each once, in some order. */
  ghost predicate Enumerates(s: seq<Path>, d: set<Path>) {
    NoDup(s) && forall p :: p in s <==> p in d
  }

  /**
   * How phase 2 changes one state: nothing when its own file cannot be read;
   * otherwise the dependencies become the file's imports and the dependents
   * among `paths` are appended to `entangledFiles`, each once, in an order
   * the hash map decides.
   */
  ghost predicate EntangledState(host: Host, paths: set<Path>, before: QuantumState, after: QuantumState) {
    after.filePath == before.filePath && after.compilationState == before.compilationState &&
    match Deps(host, before.filePath)
    case None => after == before
    case Some(ds) =>
      after.dependencies == ds &&
      |before.entangledFiles| <= |after.entangledFiles| &&
      after.entangledFiles[..|before.entangledFiles|] == before.entangledFiles &&
      Enumerates(after.entangledFiles[|before.entangledFiles|..], Dependents(host, paths, before.filePath))
  }

  /** `entangle_dependencies`. */
  method EntangleDependencies(host: Host, states: seq<QuantumState>) returns (out: seq<QuantumState>)
    ensures |out| == |states|
    ensures forall i :: 0 <= i < |states| ==> EntangledState(host, PathSet(states), states[i], out[i])
  {
    var stateMap := PathSet(states);
    out := states;
    for i := 0 to |states|
      invariant |out| == |states|
      invariant forall k :: 0 <= k < i ==> EntangledState(host, stateMap, states[k], out[k])
      invariant forall k :: i <= k < |states| ==> out[k] == states[k]
    {
      var state := out[i];
      var dependencies := ResolveDependencies(host, state.filePath);
      if dependencies.Success? {
        var added := FindEntangledFiles(host, stateMap, state.filePath);
        var next := state.(dependencies := dependencies.value, entangledFiles := state.entangledFiles + added);
        EntangledStateIntro(host, stateMap, state, next, added);
        out := out[i := next];
      } else {
        assert EntangledState(host, stateMap, state, state);
      }
    }
  }

  /**
   * The inner loop of `entangle_dependencies`: the paths of `stateMap`, in
   * the map's order, other than `path`, whose file resolves and imports `path`.
   */
  method FindEntangledFiles(host: Host, stateMap: set<Path>, path: Path) returns (added: seq<Path>)
    ensures Enumerates(added, Dependents(host, stateMap, path))
  {
    added := [];
    var remaining := stateMap;
    while remaining != {}
      invariant remaining <= stateMap
      invariant Enumerates(added, Dependents(host, stateMap - remaining, path))
      decreases remaining
    {
      var other :| other in remaining;
      ghost var seen := stateMap - remaining;
      DependentsAdd(host, seen, other, path);
      if other != path {
        var otherDeps := ResolveDependencies(host, other);
        if otherDeps.Success? && path in otherDeps.value {
          added := added + [other];
        }
      }
      remaining := remaining - {other};
      assert stateMap - remaining == seen + {other};
    }
    assert stateMap - remaining == stateMap;
  }

  /** Widening the scanned set by one path adds that path iff it is a dependent. */
  lemma DependentsAdd(host: Host, seen: set<Path>, other: Path, target: Path)
    requires other !in seen
    ensures Dependents(host, seen + {other}, target) ==
      Dependents(host, seen, target) + if other != target && DependsOn(host, other, target) then {other} else {}
  {
  }

  lemma EntangledStateIntro(host: Host, paths: set<Path>, before: QuantumState, after: QuantumState, added: seq<Path>)
    requires Deps(host, before.filePath).Some?
    requires after == before.(dependencies := Deps(host, before.filePath).value,
                              entangledFiles := before.entangledFiles + added)
    requires Enumerates(added, Dependents(host, paths, before.filePath))
    ensures EntangledState(host, paths, before, after)
  {
    assert after.entangledFiles[..|before.entangledFiles|] == before.entangledFiles;
    assert after.entangledFiles[|before.entangledFiles|..] == added;
  }

  /**
   * After phases 1 and 2 the entanglement relation is the reverse of the
   * import relation: a path is entangled with `paths[i]` iff it is another
   * input whose file imports `paths[i]`, provided `paths[i]` itself resolves.
   */
  lemma {:induction false} EntanglementIsReverseImport(host: Host, paths: seq<Path>, out: seq<QuantumState>, i: int, p: Path)
    requires |out| == |paths| && 0 <= i < |paths|
    requires var states := InitializeQuantumSuperposition(paths);
      EntangledState(host, PathSet(states), states[i], out[i])
    ensures p in out[i].entangledFiles <==>
      paths[i] in host.files && p in paths && p != paths[i] && DependsOn(host, p, paths[i])
  {
    var states := InitializeQuantumSuperposition(paths);
    assert PathSet(states) == set q | q in paths by {
      forall q | q in paths ensures q in PathSet(states) {
        var k :| 0 <= k < |paths| && paths[k] == q;
        assert states[k] in states;
      }
      forall q | q in PathSet(states) ensures q in paths {
        var s :| s in states && s.filePath == q;
        var k :| 0 <= k < |states| && states[k] == s;
      }
    }
    assert states[i].entangledFiles == [];
    if paths[i] in host.files {
      assert out[i].entangledFiles[0..] == out[i].entangledFiles;
    }
  }

  // ---------------------------------------------------------------------
  // Phase 3: measurement

  const CompiledHeader := "// Quantum compiled from: "
  const EfficiencyLabel := "\n// Quantum efficiency: "

  /** `quantum_compile_file`: the file's content under a two-line header. */
  function QuantumCompileFile(host: Host, path: Path): (r: Result<string, string>)
    ensures r.Success? <==> path in host.files
    ensures r.Failure? ==> r.error == host.readError(path)
    ensures r.Success? ==>
      r.value == CompiledHeader + path + EfficiencyLabel + host.efficiencyText(path) + "%\n" + host.files[path]
  {
    if path in host.files then
      Success(CompiledHeader + path + EfficiencyLabel + host.efficiencyText(path) + "%\n" + host.files[path])
    else Failure(host.readError(path))
  }

  /** The first line of a compiled file names its path, and the file's content closes it. */
  lemma QuantumOutputFirstLine(host: Host, path: Path)
    requires path in host.files && '\n' !in path
    ensures var out := QuantumCompileFile(host, path).value;
      var n := |CompiledHeader| + |path|;
      Find(out, '\n') == Some(n) && out[..n] == CompiledHeader + path &&
      out[|out| - |host.files[path]|..] == host.files[path]
  {
    var out := QuantumCompileFile(host, path).value;
    var n := |CompiledHeader| + |path|;
    assert out[..n] == CompiledHeader + path;
    assert out[n] == EfficiencyLabel[0];
    FindAt(out, '\n', n);
  }

  /** The per-file result of phase 3. */
  function MeasureFile(host: Host, path: Path): (r: CompilationResult)
    ensures r.success <==> path in host.files
    ensures r.success ==> r.errors == [] && r.output == QuantumCompileFile(host, path).value
    ensures !r.success ==> r.errors == [host.readError(path)] && r.output == ""
    ensures r.sourceMap == None && r.warnings == []
  {
    match QuantumCompileFile(host, path)
    case Success(text) => CompilationResult(true, text, None, [], [])
    case Failure(e) => CompilationResult(false, "", None, [e], [])
  }

  /** `quantum_measurement`: every state's file compiled, keyed by path. */
  function QuantumMeasurement(host: Host, states: seq<QuantumState>): (r: map<Path, CompilationResult>)
    ensures r.Keys == PathSet(states)
    ensures forall p :: p in r ==> r[p] == MeasureFile(host, p)
  {
    map p | p in PathSet(states) :: MeasureFile(host, p)
  }

  // ---------------------------------------------------------------------
  // Phase 4: error correction

  const CorrectionHeader := "// Quantum Error Corrected\n"

  /**
   * `apply_error_corrections`: the two replacements amount to rewriting every
   * "let " as "const ", so no "let " is left in the body.
   */
  function ApplyErrorCorrections(content: string): (r: string)
    ensures r == CorrectionHeader + ReplaceAll(content, "let ", "const ")
    ensures StartsWith(r, CorrectionHeader)
    ensures !Contains(r[|CorrectionHeader|..], "let ")
  {
    var corrected := ReplaceAll(content, "const ", "let ");
    var corrected' := ReplaceAll(corrected, "let ", "const ");
    ConstLetRoundTrip(content);
    NoLetAfterRewrite(content);
    assert (CorrectionHeader + corrected')[|CorrectionHeader|..] == corrected';
    CorrectionHeader + corrected'
  }

  /** Rewriting "const " to "let " and then "let " to "const " rewrites only the "let "s. */
  lemma {:induction false} ConstLetRoundTrip(s: string)
    ensures ReplaceAll(ReplaceAll(s, "const ", "let "), "let ", "const ") == ReplaceAll(s, "let ", "const ")
    decreases |s|, 1
  {
    if StartsWith(s, "const ") {
      RoundTripAtConst(s);
    } else if StartsWith(s, "let ") {
      RoundTripAtLet(s);
    } else if s != [] {
      RoundTripAtOther(s);
    }
  }

  lemma {:induction false} RoundTripAtConst(s: string)
    requires StartsWith(s, "const ")
    ensures ReplaceAll(ReplaceAll(s, "const ", "let "), "let ", "const ") == ReplaceAll(s, "let ", "const ")
    decreases |s|, 0
  {
    var C, L := "const ", "let ";
    var rest := s[|C|..];
    assert s == C + rest;
    ReplaceAllLead(rest, C, L);
    ReplaceAllLead(ReplaceAll(rest, C, L), L, C);
    ConstLetRoundTrip(rest);
    ReplaceAllAppend(C, rest, L, C);
  }

  lemma {:induction false} RoundTripAtLet(s: string)
    requires StartsWith(s, "let ")
    ensures ReplaceAll(ReplaceAll(s, "const ", "let "), "let ", "const ") == ReplaceAll(s, "let ", "const ")
    decreases |s|, 0
  {
    var C, L := "const ", "let ";
    var rest := s[|L|..];
    assert s == L + rest;
    ReplaceAllAppend(L, rest, C, L);
    ReplaceAllLead(ReplaceAll(rest, C, L), L, C);
    ReplaceAllLead(rest, L, C);
    ConstLetRoundTrip(rest);
  }

  lemma {:induction false} RoundTripAtOther(s: string)
    requires s != [] && !StartsWith(s, "const ") && !StartsWith(s, "let ")
    ensures ReplaceAll(ReplaceAll(s, "const ", "let "), "let ", "const ") == ReplaceAll(s, "let ", "const ")
    decreases |s|, 0
  {
    var C, L := "const ", "let ";
    var y := ReplaceAll(s[1..], C, L);
    assert ReplaceAll(s, C, L) == [s[0]] + y;
    assert !StartsWith([s[0]] + y, L) by {
      if StartsWith([s[0]] + y, L) {
        StartsWithTail(s[0], y, L);
        assert L[1..] == "et ";
        ReplaceAllPrefix(s[1..], C, L, "et ");
      }
    }
    assert ([s[0]] + y)[1..] == y;
    ConstLetRoundTrip(s[1..]);
  }

  /** `a + y` contains a pattern whose first character does not occur in `a` only where `y` does. */
  lemma {:induction false} ContainsAfterForeignPrefix(a: string, y: string, p: string)
    requires |p| > 0 && p[0] !in a
    ensures Contains(a + y, p) <==> Contains(y, p)
    decreases |a|
  {
    if a != [] {
      assert !StartsWith(a + y, p) by { assert (a + y)[0] == a[0]; }
      assert (a + y)[1..] == a[1..] + y;
      ContainsAfterForeignPrefix(a[1..], y, p);
    } else {
      assert a + y == y;
    }
  }

  /** No "let " survives rewriting every "let " to "const ". */
  lemma {:induction false} NoLetAfterRewrite(s: string)
    ensures !Contains(ReplaceAll(s, "let ", "const "), "let ")
    decreases |s|
  {
    var C, L := "const ", "let ";
    if StartsWith(s, L) {
      var rest := s[|L|..];
      NoLetAfterRewrite(rest);
      ContainsAfterForeignPrefix(C, ReplaceAll(rest, L, C), L);
    } else if s != [] {
      var y := ReplaceAll(s[1..], L, C);
      NoLetAfterRewrite(s[1..]);
      assert ReplaceAll(s, L, C) == [s[0]] + y;
      if s[0] == 'l' {
        assert !StartsWith([s[0]] + y, L) by {
          if StartsWith([s[0]] + y, L) {
            StartsWithTail(s[0], y, L);
            assert L[1..] == "et ";
            ReplaceAllPrefix(s[1..], L, C, "et ");
          }
        }
        assert ([s[0]] + y)[1..] == y;
      } else {
        ContainsAfterForeignPrefix([s[0]], y, L);
      }
    } else {
      assert !StartsWith([], L);
    }
  }

  /** `correct_compilation_errors`: an unreadable file counts as empty, and the result always succeeds. */
  function CorrectCompilationErrors(host: Host, path: Path): (r: CompilationResult)
    ensures r.success && r.errors == [] && r.warnings == [] && r.sourceMap == None
    ensures r.output == ApplyErrorCorrections(if path in host.files then host.files[path] else "")
  {
    var content := if path in host.files then host.files[path] else "";
    var corrected := ApplyErrorCorrections(content);
    var success := corrected != [];
    CompilationResult(success, corrected, None, if success then [] else ["Quantum error correction failed"], [])
  }

  /** The paths whose result is a failure. */
  function Failed(results: map<Path, CompilationResult>): set<Path> {
    set p | p in results && !results[p].success
  }

  /** One correction round: every failing entry replaced by its correction, the others kept. */
  function CorrectedResults(host: Host, results: map<Path, CompilationResult>): (r: map<Path, CompilationResult>)
    ensures r.Keys == results.Keys
    ensures Failed(r) == {}
    ensures forall p :: p in results && results[p].success ==> r[p] == results[p]
    ensures forall p :: p in results && !results[p].success ==> r[p] == CorrectCompilationErrors(host, p)
  {
    map p | p in results :: if results[p].success then results[p] else CorrectCompilationErrors(host, p)
  }

  /**
   * `quantum_error_correction`: at most `2 * error_correction_level` rounds,
   * each replacing the currently failing entries; since a correction always
   * succeeds, a second round never starts.
   */
  method QuantumErrorCorrection(config: QuantumConfig, host: Host, results: map<Path, CompilationResult>)
    returns (r: map<Path, CompilationResult>, ghost rounds: nat)
    ensures r.Keys == results.Keys
    ensures rounds <= 2 * config.errorCorrectionLevel
    ensures config.errorCorrectionLevel == 0 || Failed(results) == {} ==> r == results && rounds == 0
    ensures config.errorCorrectionLevel > 0 && Failed(results) != {} ==>
      r == CorrectedResults(host, results) && rounds == 1
    ensures config.errorCorrectionLevel > 0 ==> Failed(r) == {}
  {
    var maxCorrections := config.errorCorrectionLevel * 2;
    var correctionRounds := 0;
    r := results;
    while correctionRounds < maxCorrections
      invariant correctionRounds <= maxCorrections && correctionRounds <= 1
      invariant correctionRounds == 0 ==> r == results
      invariant correctionRounds == 1 ==> Failed(results) != {} && r == CorrectedResults(host, results)
      decreases maxCorrections - correctionRounds
    {
      var failedFiles := Failed(r);
      if failedFiles == {} {
        break;
      }
      var corrections := map p | p in failedFiles :: CorrectCompilationErrors(host, p);
      r := InsertAll(r, corrections);
      assert r == CorrectedResults(host, results);
      correctionRounds := correctionRounds + 1;
    }
    rounds := correctionRounds;
  }

  /** Every entry of `updates` inserted into `base`, in the order the hash map decides. */
  method InsertAll(base: map<Path, CompilationResult>, updates: map<Path, CompilationResult>)
    returns (r: map<Path, CompilationResult>)
    ensures r.Keys == base.Keys + updates.Keys
    ensures forall p :: p in r ==> r[p] == if p in updates then updates[p] else base[p]
  {
    r := base;
    var pending := updates.Keys;
    while pending != {}
      invariant pending <= updates.Keys
      invariant r.Keys == base.Keys + (updates.Keys - pending)
      invariant forall p :: p in r ==> r[p] == if p in updates.Keys - pending then updates[p] else base[p]
      decreases pending
    {
      var p :| p in pending;
      r := r[p := updates[p]];
      pending := pending - {p};
    }
  }

  // ---------------------------------------------------------------------
  // The whole pipeline

  /** Phase 1 keeps exactly the input paths. */
  lemma InitialPathSet(paths: seq<Path>)
    ensures PathSet(InitializeQuantumSuperposition(paths)) == set p | p in paths
  {
    var states := InitializeQuantumSuperposition(paths);
    forall q | q in paths ensures q in PathSet(states) {
      var k :| 0 <= k < |paths| && paths[k] == q;
      assert states[k] in states;
    }
  }

  /** Phase 2 keeps the paths. */
  lemma EntangledPathSet(host: Host, states: seq<QuantumState>, out: seq<QuantumState>)
    requires |out| == |states|
    requires forall i :: 0 <= i < |states| ==> EntangledState(host, PathSet(states), states[i], out[i])
    ensures PathSet(out) == PathSet(states)
  {
    forall q | q in PathSet(states) ensures q in PathSet(out) {
      var k :| 0 <= k < |states| && states[k].filePath == q;
      assert out[k] in out;
    }
  }

  /**
   * `compile_quantum_parallel`: one result per distinct input path; a
   * readable file keeps its compiled output, an unreadable one gets the
   * correction result when correction is on.  Entanglement does not affect
   * the results.  The efficiency report divides by the number of results,
   * so the input must not be empty.
   */
  method CompileQuantumParallel(compiler: QuantumCompiler, host: Host, paths: seq<Path>)
    returns (r: map<Path, CompilationResult>)
    requires |paths| > 0
    ensures r.Keys == set p | p in paths
    ensures forall p :: p in r && p in host.files ==> r[p] == MeasureFile(host, p)
    ensures forall p :: p in r && p !in host.files ==>
      r[p] == if compiler.config.errorCorrectionLevel > 0 then CorrectCompilationErrors(host, p) else MeasureFile(host, p)
    ensures compiler.config.errorCorrectionLevel > 0 ==> forall p :: p in r ==> r[p].success
  {
    var states := InitializeQuantumSuperposition(paths);
    InitialPathSet(paths);
    if compiler.config.enableEntanglement {
      var entangled := EntangleDependencies(host, states);
      EntangledPathSet(host, states, entangled);
      states := entangled;
    }
    var measured := QuantumMeasurement(host, states);
    ghost var rounds;
    r, rounds := QuantumErrorCorrection(compiler.config, host, measured);
    forall p | p in r && p !in host.files && compiler.config.errorCorrectionLevel > 0
      ensures r[p] == CorrectCompilationErrors(host, p)
    {
      assert p in Failed(measured);
    }
  }
}
