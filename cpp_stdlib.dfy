/**
 * Target resolver: which C++ runtime library a target triple must link
 * dynamically, decided by an ordered chain of substring tests on the triple.
 */
module CppStdlib {
  import opened Wrappers
  import opened Text

  /** The three runtime names the classifier can choose. */
  const LibCxx := "c++"
  const LibCxxShared := "c++_shared"
  const LibStdCxx := "stdc++"

  /** The target uses the MSVC ABI, whose runtime is linked implicitly. */
  ghost predicate IsMsvc(target: string) {
    Occurs(target, "msvc")
  }

  /** Apple and the BSDs ship LLVM's libc++. */
  ghost predicate IsLibCxxFamily(target: string) {
    Occurs(target, "apple") || Occurs(target, "freebsd") || Occurs(target, "openbsd")
  }

  ghost predicate IsAndroid(target: string) {
    Occurs(target, "android")
  }

  /**
   * The runtime to link, or None when no link directive is needed. The rules
   * are tried in order and the first that matches decides: msvc, then the
   * Apple/BSD family, then android, then everything else.
   */
  function GetCppLinkStdlib(target: string): Option<string> {
    if Contains(target, "msvc") then
      None
    else if Contains(target, "apple") || Contains(target, "freebsd") || Contains(target, "openbsd") then
      Some(LibCxx)
    else if Contains(target, "android") then
      Some(LibCxxShared)
    else
      Some(LibStdCxx)
  }

  /**
   * The whole decision table, each row in both directions: a runtime is
   * chosen exactly when its rule is the first one whose substrings occur.
   */
  lemma ClassifierTable(target: string)
    ensures GetCppLinkStdlib(target) == None <==> IsMsvc(target)
    ensures GetCppLinkStdlib(target) == Some(LibCxx) <==>
              !IsMsvc(target) && IsLibCxxFamily(target)
    ensures GetCppLinkStdlib(target) == Some(LibCxxShared) <==>
              !IsMsvc(target) && !IsLibCxxFamily(target) && IsAndroid(target)
    ensures GetCppLinkStdlib(target) == Some(LibStdCxx) <==>
              !IsMsvc(target) && !IsLibCxxFamily(target) && !IsAndroid(target)
  {
    ContainsSpec(target, "msvc");
    ContainsSpec(target, "apple");
    ContainsSpec(target, "freebsd");
    ContainsSpec(target, "openbsd");
    ContainsSpec(target, "android");
  }

  /** The classifier never fails and only ever names one of the three runtimes. */
  lemma ChoiceIsKnownRuntime(target: string)
    ensures GetCppLinkStdlib(target).Some? ==>
              GetCppLinkStdlib(target).value in {LibCxx, LibCxxShared, LibStdCxx}
  {
  }

  /** The msvc test wins over every other substring the triple may contain. */
  lemma MsvcDominates(prefix: string, suffix: string)
    ensures GetCppLinkStdlib(prefix + "msvc" + suffix) == None
  {
    OccursInConcat(prefix, "msvc", suffix);
  }

  /** Without msvc, the Apple/BSD family wins over android. */
  lemma LibCxxFamilyBeatsAndroid(target: string)
    requires !IsMsvc(target) && IsAndroid(target)
    requires Occurs(target, "apple") || Occurs(target, "freebsd") || Occurs(target, "openbsd")
    ensures GetCppLinkStdlib(target) == Some(LibCxx)
  {
    ClassifierTable(target);
  }

  /** Two triples that agree on the five tested substrings get the same runtime. */
  lemma DecidedByTestedSubstrings(t1: string, t2: string)
    requires forall key :: key in ["msvc", "apple", "freebsd", "openbsd", "android"] ==>
               (Occurs(t1, key) <==> Occurs(t2, key))
    ensures GetCppLinkStdlib(t1) == GetCppLinkStdlib(t2)
  {
    ClassifierTable(t1);
    ClassifierTable(t2);
  }

  // Four triples Rust ships, one per rule of the chain; `t` is the triple.

  lemma MsvcTriple(t: string)
    requires t == "x86_64-pc-windows-msvc"
    ensures GetCppLinkStdlib(t) == None
  {
    FoundAt(t, "msvc", 18);
    ClassifierTable(t);
  }

  lemma AppleTriple(t: string)
    requires t == "aarch64-apple-darwin"
    ensures GetCppLinkStdlib(t) == Some(LibCxx)
  {
    FoundAt(t, "apple", 8);
    MissingCharExcludes(t, "msvc", 'm');
    ClassifierTable(t);
  }

  lemma AndroidTriple(t: string)
    requires t == "aarch64-linux-android"
    ensures GetCppLinkStdlib(t) == Some(LibCxxShared)
  {
    FoundAt(t, "android", 14);
    MissingCharExcludes(t, "msvc", 'm');
    MissingCharExcludes(t, "apple", 'p');
    MissingCharExcludes(t, "freebsd", 'f');
    MissingCharExcludes(t, "openbsd", 'p');
    ClassifierTable(t);
  }

  lemma WindowsGnuTriple(t: string)
    requires t == "x86_64-pc-windows-gnu"
    ensures GetCppLinkStdlib(t) == Some(LibStdCxx)
  {
    assert !Occurs(t, "msvc") && !Occurs(t, "apple") && !Occurs(t, "android") by {
      MissingCharExcludes(t, "msvc", 'm');
      MissingCharExcludes(t, "apple", 'a');
      MissingCharExcludes(t, "android", 'a');
    }
    assert !Occurs(t, "freebsd") && !Occurs(t, "openbsd") by {
      MissingCharExcludes(t, "freebsd", 'f');
      MissingCharExcludes(t, "openbsd", 'e');
    }
    ClassifierTable(t);
  }
}
