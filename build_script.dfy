/**
 * The build script's `main`: classify the target, tell Cargo which C++
 * runtime to link, produce the Rust bindings (generated, or the committed
 * copy when generation fails), stop there on docs.rs, otherwise compile
 * espeak-ng into a static archive and add its directory to the library
 * search path.
 *
 * Everything the script reads or calls outside itself is passed in: the
 * environment (`Env`) and the outcome of each foreign step (`Foreign`).
 * What it produces is a `Run`: the lines printed on standard output, the
 * bindings file left in the output directory, the compilation performed and
 * how the process ended.
 */
module BuildScript {
  import opened Wrappers
  import opened Text
  import opened Paths
  import opened Directives
  import opened CppStdlib
  import opened Manifest
  import opened Messages

  /** The environment variables the script reads. */
  datatype Env = Env(
    target: Option<string>,   // TARGET, None when unset
    outDir: Option<Path>,     // OUT_DIR, None when unset
    docsRs: bool              // DOCS_RS is set
  )

  /** What the binding generator returns for the fixed header and clang arguments. */
  datatype Generation = Generated(code: string) | GenerationError(message: string)

  /** The outcome of every call into code outside the script. */
  datatype Foreign = Foreign(
    generation: Generation,
    writeSucceeds: bool,        // writing generated code to OUT_DIR/bindings.rs
    bundled: Option<string>,    // contents copied from src/bindings.rs, None when the copy fails
    compileSucceeds: bool       // the C compiler builds the archive
  )

  /** Where the bindings file came from: the generator, or a copy of a committed file. */
  datatype Origin = FromGenerator | CopiedFrom(source: string)

  /** The bindings file in the output directory, and where its contents came from. */
  datatype BindingsFile = BindingsFile(path: Path, origin: Origin, contents: string)

  /** The header and clang arguments the binding generator is called with. */
  datatype BindgenCall = BindgenCall(header: string, clangArgs: seq<string>)

  /** The static-library compilation the script requests. */
  datatype Compilation = Compilation(
    files: seq<SourceFile>,
    includes: seq<string>,
    target: string,
    staticFlag: bool,
    flags: seq<string>,
    archive: string
  )

  /** Why the script panicked. */
  datatype Panic = TargetUnset | OutDirUnset | WriteFailed | CopyFailed | CompileFailed

  datatype Exit = Finished | Panicked(cause: Panic)

  /**
   * A run: `stdout` holds the directives in the order printed. Each is one
   * output line when its value holds no line break (see `OneLinePerDirective`).
   */
  datatype Run = Run(
    stdout: seq<Directive>,
    bindgen: Option<BindgenCall>,
    bindings: Option<BindingsFile>,
    compiled: Option<Compilation>,
    exit: Exit
  )

  // ---------------------------------------------------------------------
  // The script as a declarative specification, one function per step.
  // ---------------------------------------------------------------------

  /** The runtime link directive (if any) and the rerun trigger. */
  function Preamble(target: string): seq<Directive> {
    match GetCppLinkStdlib(target)
    case Some(lib) => [RustcLinkLibDylib(lib), RerunIfChanged(WatchedHeader)]
    case None => [RerunIfChanged(WatchedHeader)]
  }

  /** Warnings printed by the binding step: two when generation fails. */
  function BindingWarnings(g: Generation): seq<Directive> {
    match g
    case Generated(_) => []
    case GenerationError(message) => [
      Warning(GenerationFailedLead + message),
      Warning(BundledNotice)
    ]
  }

  /** The bindings file the binding step leaves, None when it panics. */
  function BindingsOutput(out: Path, f: Foreign): Option<BindingsFile> {
    var path := Join(out, BindingsFileName);
    match f.generation
    case Generated(code) =>
      if f.writeSucceeds then Some(BindingsFile(path, FromGenerator, code)) else None
    case GenerationError(_) =>
      if f.bundled.Some? then Some(BindingsFile(path, CopiedFrom(BundledBindings), f.bundled.value)) else None
  }

  function BindingsPanic(g: Generation): Panic {
    if g.Generated? then WriteFailed else CopyFailed
  }

  /** Where the archive is looked for: `build/Release` on targets naming "window". */
  function LinkSearchDir(target: string, out: Path): Path {
    if Contains(target, "window") then Join(Join(out, "build"), "Release")
    else Join(out, "build")
  }

  function EspeakCompilation(target: string): Compilation {
    Compilation(SourceFiles, IncludeDirs, target, true, CompilerFlags, ArchiveName)
  }

  /** The run gets past the binding step: both variables set, no panic writing or copying. */
  predicate BindingsInPlace(env: Env, f: Foreign) {
    env.target.Some? && env.outDir.Some? && BindingsOutput(env.outDir.value, f).Some?
  }

  /** The run goes on to compile: the bindings are in place and this is not docs.rs. */
  predicate ReachesCompilation(env: Env, f: Foreign) {
    BindingsInPlace(env, f) && !env.docsRs
  }

  /** The directives printed, in order. */
  function Emitted(env: Env, f: Foreign): seq<Directive> {
    match env.target
    case None => []
    case Some(target) =>
      Preamble(target) +
      match env.outDir
      case None => []
      case Some(out) =>
        BindingWarnings(f.generation) +
        if ReachesCompilation(env, f) && f.compileSucceeds
        then [RustcLinkSearch(LinkSearchDir(target, out))]
        else []
  }

  /** The call made to the binding generator: every run that reads OUT_DIR makes it. */
  function BindgenInvoked(env: Env): Option<BindgenCall> {
    if env.target.Some? && env.outDir.Some? then Some(BindgenCall(BindgenHeader, BindgenClangArgs)) else None
  }

  /** The bindings file left in the output directory. */
  function BindingsLeft(env: Env, f: Foreign): Option<BindingsFile> {
    if env.target.Some? && env.outDir.Some? then BindingsOutput(env.outDir.value, f) else None
  }

  /** The compilation that completed, if any. */
  function Compiled(env: Env, f: Foreign): Option<Compilation> {
    if ReachesCompilation(env, f) && f.compileSucceeds
    then Some(EspeakCompilation(env.target.value))
    else None
  }

  /** How the process ends. */
  function ExitOf(env: Env, f: Foreign): Exit {
    if env.target.None? then Panicked(TargetUnset)
    else if env.outDir.None? then Panicked(OutDirUnset)
    else if !BindingsInPlace(env, f) then Panicked(BindingsPanic(f.generation))
    else if env.docsRs then Finished
    else if !f.compileSucceeds then Panicked(CompileFailed)
    else Finished
  }

  /** The whole run, for every environment and every outcome of the foreign calls. */
  function Expected(env: Env, f: Foreign): Run {
    Run(Emitted(env, f), BindgenInvoked(env), BindingsLeft(env, f), Compiled(env, f), ExitOf(env, f))
  }

  /**
   * The rendered directives, in order. Each is one line of standard output
   * when no value holds a line break (`OneLinePerDirective`); otherwise its
   * text spans several lines (`MultilineErrorBreaksLine`).
   */
  function Printed(run: Run): seq<string> {
    RenderAll(run.stdout)
  }

  // ---------------------------------------------------------------------
  // The script as it runs: statement by statement, printing as it goes.
  // ---------------------------------------------------------------------

  /** Prints the runtime link directive, when there is one, then the rerun trigger. */
  method EmitPreamble(target: string) returns (stdout: seq<Directive>)
    ensures stdout == Preamble(target)
  {
    stdout := [];
    var cppStdlib := GetCppLinkStdlib(target);
    if cppStdlib.Some? {
      stdout := stdout + [RustcLinkLibDylib(cppStdlib.value)];
    }
    stdout := stdout + [RerunIfChanged(WatchedHeader)];
  }

  /**
   * Writes the generated bindings, or warns twice and copies the bundled
   * ones; `bindings` is None when the write or the copy panics.
   */
  method ProduceBindings(out: Path, f: Foreign)
    returns (call: BindgenCall, stdout: seq<Directive>, bindings: Option<BindingsFile>)
    ensures call == BindgenCall(BindgenHeader, BindgenClangArgs)
    ensures stdout == BindingWarnings(f.generation)
    ensures bindings == BindingsOutput(out, f)
  {
    call := BindgenCall(BindgenHeader, BindgenClangArgs);
    stdout := [];
    var path := Join(out, BindingsFileName);
    match f.generation {
      case Generated(code) =>
        if !f.writeSucceeds {
          return call, stdout, None;
        }
        bindings := Some(BindingsFile(path, FromGenerator, code));
      case GenerationError(message) =>
        stdout := stdout + [Warning(GenerationFailedLead + message)];
        stdout := stdout + [Warning(BundledNotice)];
        if f.bundled.None? {
          return call, stdout, None;
        }
        bindings := Some(BindingsFile(path, CopiedFrom(BundledBindings), f.bundled.value));
    }
  }

  /** The script's `main`, with its environment and foreign calls passed in. */
  method RunBuildScript(env: Env, f: Foreign) returns (run: Run)
    ensures run == Expected(env, f)
  {
    if env.target.None? {
      return Run([], None, None, None, Panicked(TargetUnset));
    }
    var target := env.target.value;
    var stdout := EmitPreamble(target);

    if env.outDir.None? {
      return Run(stdout, None, None, None, Panicked(OutDirUnset));
    }
    var out := env.outDir.value;
    var call, warnings, bindings := ProduceBindings(out, f);
    stdout := stdout + warnings;
    if bindings.None? {
      return Run(stdout, Some(call), None, None, Panicked(BindingsPanic(f.generation)));
    }

    if env.docsRs {
      return Run(stdout, Some(call), bindings, None, Finished);
    }

    var compilation := EspeakCompilation(target);
    if !f.compileSucceeds {
      return Run(stdout, Some(call), bindings, None, Panicked(CompileFailed));
    }

    var searchDir: Path;
    if Contains(target, "window") {
      searchDir := Join(Join(out, "build"), "Release");
    } else {
      searchDir := Join(out, "build");
    }
    stdout := stdout + [RustcLinkSearch(searchDir)];
    return Run(stdout, Some(call), bindings, Some(compilation), Finished);
  }

  // ---------------------------------------------------------------------
  // What every run guarantees.
  // ---------------------------------------------------------------------

  /** Without TARGET nothing is printed; without OUT_DIR only the preamble is. */
  lemma MissingVariablesPanic(env: Env, f: Foreign)
    ensures env.target.None? ==> Expected(env, f) == Run([], None, None, None, Panicked(TargetUnset))
    ensures env.target.Some? && env.outDir.None? ==>
              Expected(env, f) == Run(Preamble(env.target.value), None, None, None, Panicked(OutDirUnset))
  {
  }

  /**
   * The first directives: the runtime link when the classifier names a
   * runtime, then always the rerun trigger on `wrapper.h`.
   */
  lemma PreambleFirst(env: Env, f: Foreign)
    requires env.target.Some?
    ensures var out := Expected(env, f).stdout;
      match GetCppLinkStdlib(env.target.value)
      case Some(lib) =>
        |out| >= 2 && out[0] == RustcLinkLibDylib(lib) && out[1] == RerunIfChanged(WatchedHeader)
      case None =>
        |out| >= 1 && out[0] == RerunIfChanged(WatchedHeader)
  {
    var pre := Preamble(env.target.value);
    assert Emitted(env, f)[..|pre|] == pre;
  }

  /** An msvc target is never told to link a C++ runtime, however the run goes on. */
  lemma MsvcEmitsNoLinkLib(env: Env, f: Foreign)
    requires env.target.Some? && IsMsvc(env.target.value)
    ensures CountDirectives(Expected(env, f).stdout, "rustc-link-lib") == 0
  {
    ClassifierTable(env.target.value);
    NoKeyNoCount(Emitted(env, f), "rustc-link-lib");
  }

  /**
   * The bindings come from exactly one source. Generated code is written
   * without a warning; on a generation error two warnings are printed, in
   * this order, right after the preamble, and the bundled file is copied.
   * Whenever the file is missing the run has panicked in this step.
   */
  lemma BindingsFromOneSource(env: Env, f: Foreign)
    requires env.target.Some? && env.outDir.Some?
    ensures var run, path := Expected(env, f), Join(env.outDir.value, BindingsFileName);
      match f.generation
      case Generated(code) =>
        CountDirectives(run.stdout, "warning") == 0 &&
        run.bindings == (if f.writeSucceeds then Some(BindingsFile(path, FromGenerator, code)) else None)
      case GenerationError(message) =>
        var n := |Preamble(env.target.value)|;
        CountDirectives(run.stdout, "warning") == 2 &&
        |run.stdout| >= n + 2 &&
        run.stdout[n] == Warning(GenerationFailedLead + message) &&
        run.stdout[n + 1] == Warning(BundledNotice) &&
        run.bindings == (if f.bundled.Some? then Some(BindingsFile(path, CopiedFrom(BundledBindings), f.bundled.value)) else None)
    ensures Expected(env, f).bindings.None? <==>
              Expected(env, f).exit == Panicked(BindingsPanic(f.generation))
  {
    WarningsOnlyFromBindings(env, f);
  }

  /** Only the binding step warns: the run counts as many warnings as that step printed. */
  lemma WarningsOnlyFromBindings(env: Env, f: Foreign)
    requires env.target.Some? && env.outDir.Some?
    ensures CountDirectives(Expected(env, f).stdout, "warning") == |BindingWarnings(f.generation)|
  {
    var target, out := env.target.value, env.outDir.value;
    var pre, warnings := Preamble(target), BindingWarnings(f.generation);
    var tail := if ReachesCompilation(env, f) && f.compileSucceeds
                then [RustcLinkSearch(LinkSearchDir(target, out))] else [];
    assert Emitted(env, f) == pre + (warnings + tail);
    assert CountDirectives(pre, "warning") == 0 by {
      NoKeyNoCount(pre, "warning");
    }
    assert CountDirectives(tail, "warning") == 0 by {
      NoKeyNoCount(tail, "warning");
    }
    CountDirectivesAppend(pre, warnings + tail, "warning");
    CountDirectivesAppend(warnings, tail, "warning");
    EveryBindingWarningCounts(f.generation);
  }

  lemma EveryBindingWarningCounts(g: Generation)
    ensures CountDirectives(BindingWarnings(g), "warning") == |BindingWarnings(g)|
  {
    var w := BindingWarnings(g);
    if w != [] {
      assert Key(w[0]) == "warning" && Key(w[1]) == "warning";
      assert w[1..][1..] == [];
      assert CountDirectives(w[1..], "warning") == 1;
    }
  }

  /**
   * On docs.rs the run ends right after the binding step: nothing is
   * compiled, no search path is printed, and the bindings file is there.
   */
  lemma DocsRsStopsAfterBindings(env: Env, f: Foreign)
    requires BindingsInPlace(env, f) && env.docsRs
    ensures var run := Expected(env, f);
      run.exit == Finished && run.compiled.None? && run.bindings.Some? &&
      run.stdout == Preamble(env.target.value) + BindingWarnings(f.generation) &&
      CountDirectives(run.stdout, "rustc-link-search") == 0
  {
    NoKeyNoCount(Emitted(env, f), "rustc-link-search");
  }

  /** A failed compilation panics before any search path is printed. */
  lemma CompileFailureEmitsNoLinkSearch(env: Env, f: Foreign)
    requires ReachesCompilation(env, f) && !f.compileSucceeds
    ensures var run := Expected(env, f);
      run.exit == Panicked(CompileFailed) && run.compiled.None? &&
      CountDirectives(run.stdout, "rustc-link-search") == 0
  {
    NoKeyNoCount(Emitted(env, f), "rustc-link-search");
  }

  /**
   * A compiled run prints exactly one search path, as its last directive:
   * the `build/Release` directory under OUT_DIR when the target names
   * "window", the `build` directory otherwise.
   */
  lemma LinkSearchIsLastAndUnique(env: Env, f: Foreign)
    requires ReachesCompilation(env, f) && f.compileSucceeds
    ensures var run, out := Expected(env, f), env.outDir.value;
      var dir := if Occurs(env.target.value, "window") then Join(Join(out, "build"), "Release")
                 else Join(out, "build");
      run.exit == Finished &&
      run.compiled == Some(EspeakCompilation(env.target.value)) &&
      CountDirectives(run.stdout, "rustc-link-search") == 1 &&
      |run.stdout| > 0 && run.stdout[|run.stdout| - 1] == RustcLinkSearch(dir)
  {
    var target, out := env.target.value, env.outDir.value;
    ContainsSpec(target, "window");
    var ds := Emitted(env, f);
    var front := Preamble(target) + BindingWarnings(f.generation);
    assert ds == front + [RustcLinkSearch(LinkSearchDir(target, out))];
    CountDirectivesAppend(front, [RustcLinkSearch(LinkSearchDir(target, out))], "rustc-link-search");
    NoKeyNoCount(front, "rustc-link-search");
  }

  /**
   * The two target tests are independent: a windows-gnu target links
   * libstdc++ (it is not msvc) and yet looks for the archive in
   * `build/Release` (it names "window").
   */
  lemma WindowsGnuRun(env: Env, f: Foreign, t: string)
    requires t == "x86_64-pc-windows-gnu" && env.target == Some(t)
    requires ReachesCompilation(env, f) && f.compileSucceeds
    ensures var run := Expected(env, f);
      run.stdout == [RustcLinkLibDylib(LibStdCxx), RerunIfChanged(WatchedHeader)] +
                    BindingWarnings(f.generation) +
                    [RustcLinkSearch(Join(Join(env.outDir.value, "build"), "Release"))]
  {
    WindowsGnuTriple(t);
    assert Contains(t, "window") by {
      FoundAt(t, "window", 10);
      ContainsSpec(t, "window");
    }
  }

  /**
   * The rerun trigger names `wrapper.h`, while the generator is called on
   * `include/wrapper.h`. No printed trigger names the header the bindings
   * are generated from.
   */
  lemma RerunTriggerMissesBindgenHeader(env: Env, f: Foreign)
    requires env.target.Some? && env.outDir.Some?
    ensures var run := Expected(env, f);
      run.bindgen == Some(BindgenCall(BindgenHeader, BindgenClangArgs)) &&
      RerunIfChanged(WatchedHeader) in run.stdout &&
      RerunIfChanged(run.bindgen.value.header) !in run.stdout
  {
    var target, out := env.target.value, env.outDir.value;
    var pre, warnings := Preamble(target), BindingWarnings(f.generation);
    var tail := if ReachesCompilation(env, f) && f.compileSucceeds
                then [RustcLinkSearch(LinkSearchDir(target, out))] else [];
    assert Emitted(env, f) == pre + (warnings + tail);
    WatchedHeaderIsNotBindgenHeader();
    assert RerunIfChanged(WatchedHeader) in pre;
    assert RerunIfChanged(BindgenHeader) !in pre;
    assert forall d: Directive | d in warnings + tail :: !d.RerunIfChanged?;
  }

  /**
   * The last printed line of a compiled run, as text: the search directive
   * for `OUT_DIR/build/Release` or `OUT_DIR/build`, and no other line has
   * the `rustc-link-search` key.
   */
  lemma PrintedLinkSearch(env: Env, f: Foreign)
    requires ReachesCompilation(env, f) && f.compileSucceeds
    requires env.outDir.value.components != []
    ensures var lines, out := Printed(Expected(env, f)), env.outDir.value;
      CountKey(lines, "rustc-link-search") == 1 &&
      |lines| > 0 &&
      lines[|lines| - 1] == "cargo:rustc-link-search=" +
        (if Occurs(env.target.value, "window")
         then Display(out) + "/" + "build" + "/" + "Release"
         else Display(out) + "/" + "build")
  {
    var target, out := env.target.value, env.outDir.value;
    var run := Expected(env, f);
    LinkSearchIsLastAndUnique(env, f);
    CountKeyRenderAll(run.stdout, "rustc-link-search");
    var dir := run.stdout[|run.stdout| - 1].dir;
    RenderLinkSearch(dir);
    if Occurs(target, "window") {
      DisplayJoinTwice(out, "build", "Release");
    } else {
      DisplayJoin(out, "build");
    }
  }

  /** Inputs that cannot put a line break into a printed value. */
  predicate NoLineBreakInputs(env: Env, f: Foreign) {
    (f.generation.GenerationError? ==> '\n' !in f.generation.message) &&
    (env.outDir.Some? ==>
       forall i :: 0 <= i < |env.outDir.value.components| ==> '\n' !in env.outDir.value.components[i])
  }

  /** No directive in `ds` has a line break in its value. */
  predicate ValuesOnOneLine(ds: seq<Directive>) {
    forall i :: 0 <= i < |ds| ==> '\n' !in Value(ds[i])
  }

  lemma PreambleOnOneLine(target: string)
    ensures ValuesOnOneLine(Preamble(target))
  {
    ChoiceIsKnownRuntime(target);
    assert '\n' !in WatchedHeader;
  }

  lemma WarningsOnOneLine(g: Generation)
    requires g.GenerationError? ==> '\n' !in g.message
    ensures ValuesOnOneLine(BindingWarnings(g))
  {
    if g.GenerationError? {
      FixedTextsOnOneLine();
      assert '\n' !in GenerationFailedLead + g.message;
    }
  }

  lemma SearchDirOnOneLine(target: string, out: Path)
    requires forall i :: 0 <= i < |out.components| ==> '\n' !in out.components[i]
    ensures ValuesOnOneLine([RustcLinkSearch(LinkSearchDir(target, out))])
  {
    var dir := LinkSearchDir(target, out);
    assert forall i :: 0 <= i < |dir.components| ==> '\n' !in dir.components[i];
    DisplayOneLine(dir);
  }

  /**
   * When neither the generator's error message nor OUT_DIR holds a line
   * break, every directive prints as exactly one line.
   */
  lemma OneLinePerDirective(env: Env, f: Foreign)
    requires NoLineBreakInputs(env, f)
    ensures var lines := Printed(Expected(env, f));
      forall i :: 0 <= i < |lines| ==> '\n' !in lines[i]
  {
    var ds := Emitted(env, f);
    if env.target.Some? {
      var target := env.target.value;
      var pre := Preamble(target);
      PreambleOnOneLine(target);
      if env.outDir.Some? {
        var out := env.outDir.value;
        var warnings := BindingWarnings(f.generation);
        var tail := if ReachesCompilation(env, f) && f.compileSucceeds
                    then [RustcLinkSearch(LinkSearchDir(target, out))] else [];
        assert ds == pre + (warnings + tail);
        WarningsOnOneLine(f.generation);
        SearchDirOnOneLine(target, out);
        assert ValuesOnOneLine(tail);
        assert ValuesOnOneLine(ds) by {
          assert forall i :: 0 <= i < |ds| ==>
            ds[i] in pre || ds[i] in warnings || ds[i] in tail;
        }
      } else {
        assert ds == pre;
      }
    }
    forall i | 0 <= i < |ds|
      ensures '\n' !in Render(ds[i])
    {
      LineBreakOnlyFromValue(ds[i]);
    }
  }

  /**
   * A generator error whose message holds a line break is printed across
   * more than one line: the warning directive is not a single line.
   */
  lemma MultilineErrorBreaksLine(env: Env, f: Foreign)
    requires env.target.Some? && env.outDir.Some?
    requires f.generation.GenerationError? && '\n' in f.generation.message
    ensures var lines := Printed(Expected(env, f));
      exists i :: 0 <= i < |lines| && '\n' in lines[i]
  {
    var message := f.generation.message;
    BindingsFromOneSource(env, f);
    var n := |Preamble(env.target.value)|;
    var d := Warning(GenerationFailedLead + message);
    assert Expected(env, f).stdout[n] == d;
    assert '\n' in Value(d) by {
      var lead := GenerationFailedLead;
      var k :| 0 <= k < |message| && message[k] == '\n';
      assert (lead + message)[|lead| + k] == '\n';
    }
    LineBreakOnlyFromValue(d);
    assert '\n' in Printed(Expected(env, f))[n];
  }

  /** A run that finishes always leaves the bindings file at OUT_DIR/bindings.rs. */
  lemma FinishedRunHasBindings(env: Env, f: Foreign)
    requires Expected(env, f).exit == Finished
    ensures env.outDir.Some? &&
            Expected(env, f).bindings.Some? &&
            Expected(env, f).bindings.value.path == Join(env.outDir.value, BindingsFileName)
  {
  }

  /** Directives none of which has `key` count zero for it. */
  lemma {:induction false} NoKeyNoCount(ds: seq<Directive>, key: string)
    requires forall i :: 0 <= i < |ds| ==> Key(ds[i]) != key
    ensures CountDirectives(ds, key) == 0
  {
    if ds != [] {
      NoKeyNoCount(ds[1..], key);
    }
  }

  lemma {:induction false} CountDirectivesAppend(a: seq<Directive>, b: seq<Directive>, key: string)
    ensures CountDirectives(a + b, key) == CountDirectives(a, key) + CountDirectives(b, key)
  {
    if a != [] {
      assert (a + b)[1..] == a[1..] + b;
      CountDirectivesAppend(a[1..], b, key);
    } else {
      assert a + b == b;
    }
  }
}
