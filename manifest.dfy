/**
 * The fixed inputs of the build: the header handed to the binding
 * generator with its clang arguments, and the C sources, include
 * directories and compiler settings of the espeak-ng static archive. They
 * are written out once rather than discovered in the source tree.
 */
module Manifest {
  import opened Text

  /** Umbrella header given to the binding generator. */
  const BindgenHeader := "include/wrapper.h"

  const BindgenClangArgs: seq<string> := [
    "-I./espeak-ng/src/include/espeak-ng",
    "-I./espeak-ng/src/libespeak-ng"
  ]

  /** The file the script asks Cargo to watch. */
  const WatchedHeader := "wrapper.h"

  /** The committed bindings used when generation fails. */
  const BundledBindings := "src/bindings.rs"

  const BindingsFileName := "bindings.rs"

  const LibEspeakDir := "espeak-ng/src/libespeak-ng/"
  const UcdToolsDir := "espeak-ng/src/ucd-tools/src/"

  /** A C source: the directory it sits in and its file name without `.c`. */
  datatype SourceFile = SourceFile(dir: string, stem: string) {
    /** The path handed to the compiler. */
    function Path(): string {
      dir + stem + ".c"
    }
  }

  /** The C sources compiled into the archive, in order. */
  const SourceFiles: seq<SourceFile> := [
    SourceFile(LibEspeakDir, "common"),
    SourceFile(LibEspeakDir, "mnemonics"),
    SourceFile(LibEspeakDir, "error"),
    SourceFile(LibEspeakDir, "ieee80"),
    SourceFile(LibEspeakDir, "compiledata"),
    SourceFile(LibEspeakDir, "compiledict"),
    SourceFile(LibEspeakDir, "dictionary"),
    SourceFile(LibEspeakDir, "encoding"),
    SourceFile(LibEspeakDir, "intonation"),
    SourceFile(LibEspeakDir, "langopts"),
    SourceFile(LibEspeakDir, "numbers"),
    SourceFile(LibEspeakDir, "phoneme"),
    SourceFile(LibEspeakDir, "phonemelist"),
    SourceFile(LibEspeakDir, "readclause"),
    SourceFile(LibEspeakDir, "setlengths"),
    SourceFile(LibEspeakDir, "soundicon"),
    SourceFile(LibEspeakDir, "spect"),
    SourceFile(LibEspeakDir, "ssml"),
    SourceFile(LibEspeakDir, "synthdata"),
    SourceFile(LibEspeakDir, "synthesize"),
    SourceFile(LibEspeakDir, "tr_languages"),
    SourceFile(LibEspeakDir, "translate"),
    SourceFile(LibEspeakDir, "translateword"),
    SourceFile(LibEspeakDir, "voices"),
    SourceFile(LibEspeakDir, "wavegen"),
    SourceFile(LibEspeakDir, "speech"),
    SourceFile(LibEspeakDir, "espeak_api"),
    SourceFile(UcdToolsDir, "case"),
    SourceFile(UcdToolsDir, "categories"),
    SourceFile(UcdToolsDir, "ctype"),
    SourceFile(UcdToolsDir, "proplist"),
    SourceFile(UcdToolsDir, "scripts"),
    SourceFile(UcdToolsDir, "tostring")
  ]

  /** Header search directories for the C compiler, in order. */
  const IncludeDirs: seq<string> := [
    "./include",
    "espeak-ng/src/ucd-tools/src/include",
    "espeak-ng/src/include",
    "espeak-ng/src/include/compat",
    "espeak-ng/src/include/espeak-ng"
  ]

  /** Extra compiler flags: implicit declarations are not errors, warnings are off. */
  const CompilerFlags: seq<string> := ["-Wno-error=implicit-function-declaration", "-w"]

  /** Name of the static archive (`libespeak-ng.a`). */
  const ArchiveName := "espeak-ng"

  predicate EndsWith(s: string, t: string) {
    |t| <= |s| && s[|s| - |t|..] == t
  }

  /**
   * 33 C files: the 27 of libespeak-ng first, then the 6 of ucd-tools,
   * every one a `.c` file.
   */
  lemma SourceFilesLayout()
    ensures |SourceFiles| == 33
    ensures forall i :: 0 <= i < 27 ==> StartsWith(SourceFiles[i].Path(), LibEspeakDir)
    ensures forall i :: 27 <= i < 33 ==> StartsWith(SourceFiles[i].Path(), UcdToolsDir)
    ensures forall i :: 0 <= i < 33 ==> EndsWith(SourceFiles[i].Path(), ".c")
  {
    assert forall i :: 0 <= i < 27 ==> SourceFiles[i].dir == LibEspeakDir;
    assert forall i :: 27 <= i < 33 ==> SourceFiles[i].dir == UcdToolsDir;
    forall i | 0 <= i < 33 {
      PathShape(SourceFiles[i]);
    }
  }

  /** A source's path starts with its directory and ends in `.c`. */
  lemma PathShape(f: SourceFile)
    ensures StartsWith(f.Path(), f.dir) && EndsWith(f.Path(), ".c")
  {
    assert f.Path()[..|f.dir|] == f.dir;
  }

  /** Five include directories, the crate's own `./include` first. */
  lemma IncludeDirsLayout()
    ensures |IncludeDirs| == 5 && IncludeDirs[0] == "./include"
    ensures forall i :: 1 <= i < 5 ==> StartsWith(IncludeDirs[i], "espeak-ng/src/")
    ensures forall i, j :: 0 <= i < j < 5 ==> IncludeDirs[i] != IncludeDirs[j]
  {
  }

  /**
   * The file Cargo is told to watch is the header's file name, not the
   * header path the generator is given.
   */
  lemma WatchedHeaderIsNotBindgenHeader()
    ensures WatchedHeader != BindgenHeader
    ensures EndsWith(BindgenHeader, "/" + WatchedHeader)
  {
  }
}
