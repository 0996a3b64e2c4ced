# espeak-ng build script: a verified model

This project models the Cargo build script `build.rs` of a Rust crate that
wraps the espeak-ng speech synthesiser. On every build the script:

1. reads TARGET and picks the C++ runtime to link (`get_cpp_link_stdlib`).
   It picks none for msvc, `c++` for apple/freebsd/openbsd, `c++_shared`
   for android and `stdc++` otherwise. It prints the link directive, then
   a rerun trigger on `wrapper.h`;
2. generates Rust bindings for `include/wrapper.h` into
   `OUT_DIR/bindings.rs`. If generation fails, it warns twice and copies the
   committed `src/bindings.rs` there instead;
3. stops there when DOCS_RS is set;
4. otherwise compiles 33 C sources with 5 include directories into the
   static archive `espeak-ng`;
5. prints one `rustc-link-search` directive: `OUT_DIR/build/Release` on
   targets whose name contains "window", `OUT_DIR/build` on all others.

Modules:

- `Text`: substring search. `Contains` is the function the script computes
  with. `Occurs` is the "there is an offset" specification.
- `CppStdlib`: the runtime classifier and its decision table.
- `Paths`: `PathBuf` as a sequence of components, with `join` and `display`.
- `Directives`: the `cargo:` lines the script prints, as a datatype.
  `Render` turns a directive into its text and `Parse` reads the text back.
- `Messages`: the fixed texts of the two warnings.
- `Manifest`: the script's constants: header paths, clang arguments, the
  source files, include directories, compiler flags and archive name.
- `BuildScript`: `main`.
  - The environment (`Env`) and the outcome of every foreign call
    (`Foreign`) are parameters.
  - `Expected` states the whole run declaratively.
  - `RunBuildScript` is `main` written statement by statement, and is
    proved equal to `Expected`.
  - The lemmas state what every run guarantees.

## Model

| member | source | states |
|---|---|---|
| Text.ContainsSpec | build.rs:109-113 | `str::contains` as the script uses it: true exactly when the needle occurs at some offset of the target |
| Text.OccursInConcat | build.rs:109-113 | a string built around the needle contains it |
| CppStdlib.ClassifierTable | build.rs:108-118 | the full decision table, each row in both directions: None iff the target contains "msvc"; `c++` iff not msvc and it contains apple, freebsd or openbsd; `c++_shared` iff none of those and it contains android; `stdc++` iff it contains none of the five |
| CppStdlib.ChoiceIsKnownRuntime | build.rs:108-118 | a chosen runtime is one of `c++`, `c++_shared`, `stdc++` |
| CppStdlib.MsvcDominates | build.rs:109-110 | any target containing "msvc" links no runtime, whatever else it contains |
| CppStdlib.LibCxxFamilyBeatsAndroid | build.rs:111-114 | the apple/freebsd/openbsd test comes before the android test: a target matching both gets `c++` |
| CppStdlib.DecidedByTestedSubstrings | build.rs:108-118 | the choice depends only on which of the five names the target contains |
| CppStdlib.MsvcTriple | build.rs:109-110 | `x86_64-pc-windows-msvc` links no runtime |
| CppStdlib.AppleTriple | build.rs:111-112 | `aarch64-apple-darwin` links `c++` |
| CppStdlib.AndroidTriple | build.rs:113-114 | `aarch64-linux-android` links `c++_shared` |
| CppStdlib.WindowsGnuTriple | build.rs:115-116 | `x86_64-pc-windows-gnu` links `stdc++` |
| Paths.JoinInjective | build.rs:100 | two joins give the same path iff they have the same base and name |
| Paths.DisplayJoin | build.rs:100 | a joined path displays as its base, `/`, then the name |
| Paths.DisplayJoinTwice | build.rs:100 | `out.join(a).join(b)` displays as `out`, `/a`, `/b` |
| Paths.DisplayOneLine | build.rs:99-103 | a path whose components hold no line break displays without one |
| Directives.ParseSound | build.rs:12 | a line that parses is `cargo:` + key + `=` + value |
| Directives.ParseBuilt | build.rs:12 | reading back `cargo:key=value` gives (key, value) when the key has no `=` |
| Directives.ParseRender | build.rs:12-15 | every printed directive reads back as its own key and value |
| Directives.LineBreakOnlyFromValue | build.rs:12-15 | a rendered directive holds a line break exactly when its value does |
| Directives.CountKeyRenderAll | build.rs:12-15 | reading the rendered directives back counts each key as the directives had it; they are the printed lines only when no value holds a line break (see Left out) |
| Manifest.SourceFilesLayout | build.rs:46-80 | 33 sources: the first 27 under `espeak-ng/src/libespeak-ng/`, the last 6 under `espeak-ng/src/ucd-tools/src/`, all ending in `.c` |
| Manifest.PathShape | build.rs:46-80 | every source path starts with its directory and ends in `.c` |
| Manifest.IncludeDirsLayout | build.rs:81-87 | 5 distinct include directories: `./include` first, then 4 under `espeak-ng/src/` |
| Manifest.WatchedHeaderIsNotBindgenHeader | build.rs:15-20 | the watched file `wrapper.h` is a different path from the generator's header `include/wrapper.h`, of which it is the file name |
| BuildScript.EmitPreamble | build.rs:11-15 | prints the runtime link directive when there is one, then the rerun trigger |
| BuildScript.ProduceBindings | build.rs:19-39 | calls the generator on `include/wrapper.h` with the two clang arguments, then writes the generated code, or warns twice and copies `src/bindings.rs`; no file when the write or copy fails |
| BuildScript.RunBuildScript | build.rs:8-105 | `main`, step by step, produces exactly the run `Expected` describes, for every environment and every outcome of the foreign calls |
| BuildScript.MissingVariablesPanic | build.rs:9-17 | without TARGET nothing is printed and the run panics; without OUT_DIR only the preamble is printed |
| BuildScript.PreambleFirst | build.rs:11-15 | the first directive is `rustc-link-lib=dylib=<lib>` when a runtime is chosen, and the next one (or the first, when none is chosen) is `rerun-if-changed=wrapper.h` |
| BuildScript.MsvcEmitsNoLinkLib | build.rs:11-13 | an msvc target gets no link-lib directive in any run |
| BuildScript.BindingsFromOneSource | build.rs:26-39 | generated code gives no warning and a generated file; a generation error gives exactly the two warnings, in order, after the preamble, and a copied file; a missing file means the run panicked in that step |
| BuildScript.WarningsOnlyFromBindings | build.rs:26-39 | the only warnings a run prints are the binding step's |
| BuildScript.EveryBindingWarningCounts | build.rs:33-34 | both lines of the failure branch are warnings |
| BuildScript.DocsRsStopsAfterBindings | build.rs:41-44 | on docs.rs the run finishes after the binding step: nothing compiled, no search path, the bindings file present |
| BuildScript.CompileFailureEmitsNoLinkSearch | build.rs:88-95 | a failed compilation panics before any search path is printed |
| BuildScript.LinkSearchIsLastAndUnique | build.rs:88-104 | a compiled run finishes with exactly one search-path directive, printed last. It is `OUT_DIR/build/Release` iff the target contains "window", else `OUT_DIR/build`. The compilation uses the 33 files, 5 includes, the target, the static flag, both flags and the archive name |
| BuildScript.WindowsGnuRun | build.rs:97-116 | the msvc and "window" tests are independent: `x86_64-pc-windows-gnu` links `stdc++` and searches `build/Release` |
| BuildScript.FinishedRunHasBindings | build.rs:26-44 | every run that finishes leaves the bindings file at `OUT_DIR/bindings.rs` |
| BuildScript.RerunTriggerMissesBindgenHeader | build.rs:15-24 | every run that reaches the generator calls it on `include/wrapper.h` with the two clang arguments, prints the trigger for `wrapper.h`, and prints no trigger for the header the bindings come from |
| BuildScript.PrintedLinkSearch | build.rs:97-104 | as text: exactly one printed line has the `rustc-link-search` key, and the last line is `cargo:rustc-link-search=` followed by OUT_DIR displayed and `/build/Release` or `/build` |
| BuildScript.OneLinePerDirective | build.rs:12-104 | when neither the generator's error message nor OUT_DIR holds a line break, no printed directive holds one |
| BuildScript.MultilineErrorBreaksLine | build.rs:33 | a generator error message with a line break makes the printed warning span more than one line |
| Messages.FixedTextsOnOneLine | build.rs:33-34 | the fixed warning texts hold no line break |

## Left out

- bindgen and cc internals are out of scope. The generation result, the
  write, the copy and the compilation are parameters (`Foreign`), so every
  combination of their outcomes is covered.
- The `cargo:` lines that bindgen's `CargoCallbacks` and the cc crate
  print themselves are not modelled. The model's standard output is only
  what `build.rs` prints with `println!`.
- File contents are abstracted: the bindings file records its path, where
  it came from and its text, not bytes on disk. A partial write before a
  failure is not modelled.
- The environment is read once into `Env`. The script reads OUT_DIR and
  TARGET twice each (lines 17/28 and 9/97); the model assumes both reads
  of a variable return the same value. A non-Unicode value is treated as
  unset.
- Panic messages (`Couldn't write bindings!`, `Unable to copy
  bindings.rs`) are reduced to the `Panic` cause.
- `Paths.Display` joins components with `/` only. Windows separators,
  absolute-path replacement in `join` and lossy display of non-UTF-8
  paths are not modelled.
- Strings are sequences of characters. `str::contains` is modelled as a
  search for a character sequence; UTF-8 byte-level matching gives the
  same answer for these ASCII needles.
- The header the rerun trigger watches (`wrapper.h`) differs from the one
  bindgen reads (`include/wrapper.h`). The model records this as it is
  written (`BuildScript.RerunTriggerMissesBindgenHeader`) and makes no
  claim about what was intended.
- Directives.CountKeyRenderAll: counts keys over the rendered directives,
  not over the lines Cargo reads. Output is not split at line breaks. A
  directive is one line only when its value holds no line break
  (`BuildScript.OneLinePerDirective`). A generator error message with a
  line break prints the first warning across several lines
  (`BuildScript.MultilineErrorBreaksLine`). The lines after the first are
  not warnings, and Cargo would read one that starts with `cargo:` as
  another directive. The directive-level counts do not describe that
  output.
