/**
 * The `SynapseCompiler` front end (rust-compiler/src/lib.rs): a
 * configuration, and a quantum compiler that is held or not held.
 */
module Compiler {
  import opened Wrappers
  import opened Text
  import Quantum

  datatype CompilerConfig = CompilerConfig(
    minify: bool,
    sourceMaps: bool,
    target: string,
    quantumMode: bool,
    maxParallelThreads: Option<nat>)

  /** `CompilerConfig::default`. */
  function DefaultCompilerConfig(): CompilerConfig {
    CompilerConfig(false, true, "es2022", false, None)
  }

  datatype CompilationResult = CompilationResult(
    success: bool,
    output: string,
    sourceMap: Option<string>,
    errors: seq<string>,
    warnings: seq<string>)

  const QuantumModeDisabled := "Quantum mode not enabled. Set quantum_mode: true in config."
  const SourceMapPlaceholder := "// Source map placeholder"
  const CompiledFrom := "// Compiled from: "

  /**
   * The quantum configuration both `new` and `enable_quantum_mode` build:
   * the configured thread count, or the host's CPU count when none is set,
   * and correction level 2.
   */
  function QuantumConfigFor(config: CompilerConfig, hostCpus: nat): Quantum.QuantumConfig {
    Quantum.QuantumConfig(config.maxParallelThreads.GetOr(hostCpus), true, 2, true, 3)
  }

  class SynapseCompiler {
    var config: CompilerConfig
    var quantumCompiler: Option<Quantum.QuantumCompiler>
    /** The CPU count `num_cpus` reports on this host. */
    const hostCpus: nat

    /** A quantum compiler is held exactly in quantum mode, and it is the one built from the configuration. */
    ghost predicate Valid()
      reads this
    {
      (quantumCompiler.Some? <==> config.quantumMode) &&
      (quantumCompiler.Some? ==> quantumCompiler.value.config == QuantumConfigFor(config, hostCpus))
    }

    /** `SynapseCompiler::new`, which always succeeds. */
    constructor (config: CompilerConfig, hostCpus: nat)
      ensures Valid()
      ensures this.config == config && this.hostCpus == hostCpus
      ensures quantumCompiler.Some? <==> config.quantumMode
    {
      this.config := config;
      this.hostCpus := hostCpus;
      if config.quantumMode {
        quantumCompiler := Some(Quantum.QuantumCompiler(QuantumConfigFor(config, hostCpus)));
      } else {
        quantumCompiler := None;
      }
    }

    /** `compile_file`: the file under a one-line header; it fails only when the file cannot be read. */
    function CompileFile(host: Quantum.Host, path: Quantum.Path): (r: Result<CompilationResult, string>)
      reads this
      ensures r.Success? <==> path in host.files
      ensures r.Failure? ==> r.error == host.readError(path)
      ensures r.Success? ==>
        r.value.success && r.value.errors == [] && r.value.warnings == [] &&
        r.value.output == CompiledFrom + path + "\n" + host.files[path] &&
        (r.value.sourceMap.Some? <==> config.sourceMaps) &&
        (r.value.sourceMap.Some? ==> r.value.sourceMap.value == SourceMapPlaceholder)
    {
      if path !in host.files then Failure(host.readError(path))
      else
        var content := host.files[path];
        Success(CompilationResult(
          true,
          CompiledFrom + path + "\n" + content,
          if config.sourceMaps then Some(SourceMapPlaceholder) else None,
          [], []))
    }

    /**
     * `compile_files_quantum`: an error exactly when no quantum compiler is
     * held; otherwise the pipeline's results, all successful because the held
     * compiler corrects errors.
     */
    method CompileFilesQuantum(host: Quantum.Host, paths: seq<Quantum.Path>)
      returns (r: Result<map<Quantum.Path, Quantum.CompilationResult>, string>)
      requires Valid()
      requires quantumCompiler.Some? ==> |paths| > 0
      ensures r.Failure? <==> quantumCompiler.None?
      ensures r.Failure? ==> r.error == QuantumModeDisabled
      ensures r.Success? ==> r.value.Keys == set p | p in paths
      ensures r.Success? ==> forall p :: p in r.value ==> r.value[p].success
    {
      match quantumCompiler
      case Some(qc) =>
        var results := Quantum.CompileQuantumParallel(qc, host, paths);
        r := Success(results);
      case None =>
        r := Failure(QuantumModeDisabled);
    }

    /** `enable_quantum_mode`: builds a quantum compiler unless one is already held. */
    method EnableQuantumMode()
      requires Valid()
      modifies this
      ensures Valid()
      ensures quantumCompiler.Some? && config.quantumMode
      ensures old(quantumCompiler).Some? ==> config == old(config) && quantumCompiler == old(quantumCompiler)
      ensures old(quantumCompiler).None? ==> config == old(config).(quantumMode := true)
    {
      if quantumCompiler.None? {
        quantumCompiler := Some(Quantum.QuantumCompiler(QuantumConfigFor(config, hostCpus)));
        config := config.(quantumMode := true);
      }
    }
  }

  /** The first line of a compiled file names its path; the rest is the file's content. */
  lemma CompiledOutputFirstLine(c: SynapseCompiler, host: Quantum.Host, path: Quantum.Path)
    requires path in host.files && '\n' !in path
    ensures var out := c.CompileFile(host, path).value.output;
      var n := |CompiledFrom| + |path|;
      Find(out, '\n') == Some(n) && out[..n] == CompiledFrom + path && out[n + 1..] == host.files[path]
  {
    var out := c.CompileFile(host, path).value.output;
    var n := |CompiledFrom| + |path|;
    assert out[..n] == CompiledFrom + path;
    FindAt(out, '\n', n);
  }
}
