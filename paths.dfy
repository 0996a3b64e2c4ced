/**
 * File-system paths as sequences of components, enough to tell apart the
 * directories the build script names under its output directory.
 */
module Paths {

  /**
   * A path as its components; an absolute path starts with the empty
   * component, so `/tmp/out` is `["", "tmp", "out"]`.
   */
  datatype Path = Path(components: seq<string>)

  /** `base.join(name)` for a relative, separator-free `name`: one more component. */
  function Join(base: Path, name: string): Path {
    Path(base.components + [name])
  }

  /** The path as text, components separated by '/'. */
  function Display(p: Path): string
    decreases |p.components|
  {
    var cs := p.components;
    if |cs| == 0 then ""
    else if |cs| == 1 then cs[0]
    else Display(Path(cs[..|cs| - 1])) + "/" + cs[|cs| - 1]
  }

  /** Different names or bases give different joined paths. */
  lemma JoinInjective(b1: Path, n1: string, b2: Path, n2: string)
    ensures Join(b1, n1) == Join(b2, n2) <==> b1 == b2 && n1 == n2
  {
    if Join(b1, n1) == Join(b2, n2) {
      var c1, c2 := b1.components + [n1], b2.components + [n2];
      assert |b1.components| == |b2.components|;
      assert b1.components == c1[..|c1| - 1] == c2[..|c2| - 1] == b2.components;
    }
  }

  /** Displaying a joined path appends '/' and the name to the base's text. */
  lemma DisplayJoin(base: Path, name: string)
    requires base.components != []
    ensures Display(Join(base, name)) == Display(base) + "/" + name
  {
    var cs := base.components + [name];
    assert cs[..|cs| - 1] == base.components;
  }

  /** Two joins under a displayed base show as the base followed by `/a/b`. */
  lemma DisplayJoinTwice(base: Path, a: string, b: string)
    requires base.components != []
    ensures Display(Join(Join(base, a), b)) == Display(base) + "/" + a + "/" + b
  {
    DisplayJoin(base, a);
    DisplayJoin(Join(base, a), b);
  }

  /** A path displays on one line when none of its components holds a line break. */
  lemma {:induction false} DisplayOneLine(p: Path)
    requires forall i :: 0 <= i < |p.components| ==> '\n' !in p.components[i]
    ensures '\n' !in Display(p)
    decreases |p.components|
  {
    var cs := p.components;
    if |cs| > 1 {
      var front := Path(cs[..|cs| - 1]);
      assert forall i :: 0 <= i < |front.components| ==> front.components[i] == cs[i];
      DisplayOneLine(front);
      assert Display(p) == Display(front) + "/" + cs[|cs| - 1];
    }
  }
}
