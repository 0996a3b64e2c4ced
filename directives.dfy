/**
 * The `cargo:KEY=VALUE` lines a build script prints on standard output to
 * instruct Cargo, built from a small set of directives and read back again.
 */
module Directives {
  import opened Wrappers
  import opened Text
  import opened Paths

  /** The directives the build script emits. */
  datatype Directive =
    | RustcLinkLibDylib(lib: string)   // link `lib` dynamically
    | RerunIfChanged(file: string)     // rerun the script when `file` changes
    | Warning(message: string)         // show `message` to the user
    | RustcLinkSearch(dir: Path)       // add `dir` to the library search path

  const Prefix := "cargo:"

  function Key(d: Directive): string {
    match d
    case RustcLinkLibDylib(_) => "rustc-link-lib"
    case RerunIfChanged(_) => "rerun-if-changed"
    case Warning(_) => "warning"
    case RustcLinkSearch(_) => "rustc-link-search"
  }

  function Value(d: Directive): string {
    match d
    case RustcLinkLibDylib(lib) => "dylib=" + lib
    case RerunIfChanged(file) => file
    case Warning(message) => message
    case RustcLinkSearch(dir) => Display(dir)
  }

  /** The line printed for a directive. */
  function Render(d: Directive): string {
    Prefix + Key(d) + "=" + Value(d)
  }

  function RenderAll(ds: seq<Directive>): (lines: seq<string>)
    ensures |lines| == |ds|
    ensures forall i :: 0 <= i < |ds| ==> lines[i] == Render(ds[i])
  {
    if ds == [] then [] else [Render(ds[0])] + RenderAll(ds[1..])
  }

  /** Position of the first `c` in `s`, or `|s|` when there is none. */
  function FirstIndexOf(s: string, c: char): (i: nat)
    ensures i <= |s|
    ensures i < |s| ==> s[i] == c
    ensures c !in s[..i]
  {
    if s == [] then 0
    else if s[0] == c then 0
    else
      var j := FirstIndexOf(s[1..], c);
      assert s[..j + 1] == [s[0]] + s[1..][..j];
      j + 1
  }

  /**
   * A rendered directive holds a line break exactly when its value does:
   * only then is it the single output line it is meant to be.
   */
  lemma LineBreakOnlyFromValue(d: Directive)
    ensures '\n' in Render(d) <==> '\n' in Value(d)
  {
    var head := Prefix + Key(d) + "=";
    assert '\n' !in head by {
      assert '\n' !in Key(d);
    }
    assert Render(d) == head + Value(d);
  }

  /** The text of a search-path directive. */
  lemma RenderLinkSearch(dir: Path)
    ensures Render(RustcLinkSearch(dir)) == "cargo:rustc-link-search=" + Display(dir)
  {
    assert Prefix + Key(RustcLinkSearch(dir)) + "=" == "cargo:rustc-link-search=";
  }

  /**
   * How Cargo reads a line: after `cargo:`, the key runs up to the first
   * '=' and the value is everything after it. Other lines are not directives.
   */
  function Parse(line: string): (kv: Option<(string, string)>)
    ensures kv.Some? ==> '=' !in kv.value.0
  {
    if !StartsWith(line, Prefix) then None
    else
      var body := line[|Prefix|..];
      var i := FirstIndexOf(body, '=');
      if i == |body| then None else Some((body[..i], body[i + 1..]))
  }

  /** The key of a directive line, if it is one. */
  function KeyOf(line: string): Option<string> {
    match Parse(line)
    case Some((key, _)) => Some(key)
    case None => None
  }

  /** Every parsed line is exactly `cargo:` + key + `=` + value. */
  lemma ParseSound(line: string)
    requires Parse(line).Some?
    ensures line == Prefix + Parse(line).value.0 + "=" + Parse(line).value.1
  {
    var body := line[|Prefix|..];
    var i := FirstIndexOf(body, '=');
    assert line == Prefix + body by {
      assert line[..|Prefix|] == Prefix;
    }
    assert body == body[..i] + "=" + body[i + 1..];
  }

  /** A line built from a key free of '=' parses back to that key and value. */
  lemma ParseBuilt(key: string, value: string)
    requires '=' !in key
    ensures Parse(Prefix + key + "=" + value) == Some((key, value))
  {
    var line := Prefix + key + "=" + value;
    var body := key + "=" + value;
    assert line[..|Prefix|] == Prefix;
    assert line[|Prefix|..] == body;
    var s := key + "=" + value;
    assert s[..|key|] == key;
    assert s[|key|] == '=';
    assert FirstIndexOf(body, '=') == |key|;
    assert body[|key| + 1..] == value;
  }

  /** Rendering then parsing gives back the directive's key and value. */
  lemma ParseRender(d: Directive)
    ensures Parse(Render(d)) == Some((Key(d), Value(d)))
  {
    ParseBuilt(Key(d), Value(d));
  }

  /** Number of lines whose directive key is `key`. */
  function CountKey(lines: seq<string>, key: string): nat {
    if lines == [] then 0
    else (if KeyOf(lines[0]) == Some(key) then 1 else 0) + CountKey(lines[1..], key)
  }

  /** Number of directives whose key is `key`. */
  function CountDirectives(ds: seq<Directive>, key: string): nat {
    if ds == [] then 0
    else (if Key(ds[0]) == key then 1 else 0) + CountDirectives(ds[1..], key)
  }

  /**
   * Reading the rendered directives back counts each key as the directives
   * had it. They are the printed lines when no value holds a line break.
   */
  lemma {:induction false} CountKeyRenderAll(ds: seq<Directive>, key: string)
    ensures CountKey(RenderAll(ds), key) == CountDirectives(ds, key)
  {
    if ds != [] {
      ParseRender(ds[0]);
      assert RenderAll(ds)[1..] == RenderAll(ds[1..]);
      CountKeyRenderAll(ds[1..], key);
    }
  }
}
