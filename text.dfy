/**
 * Substring search over strings, as used by the build script's tests on the
 * target triple (Rust's `str::contains`).
 *
 * `Occurs` is the reference definition (some window of `s` equals `t`);
 * `Contains` is the searching function the model computes with, and its
 * contract ties the two together.
 */
module Text {

  /** `t` is a prefix of `s`. */
  predicate StartsWith(s: string, t: string) {
    |t| <= |s| && s[..|t|] == t
  }

  /** `t` occurs in `s` at offset `i`. */
  predicate OccursAt(s: string, t: string, i: int) {
    0 <= i <= |s| - |t| && s[i..i + |t|] == t
  }

  /** Reference definition of "s contains t": some window of `s` equals `t`. */
  ghost predicate Occurs(s: string, t: string) {
    exists i :: OccursAt(s, t, i)
  }

  /** Substring search: try every offset from the left. */
  function Contains(s: string, t: string): bool
    decreases |s|
  {
    StartsWith(s, t) || (s != [] && Contains(s[1..], t))
  }

  /** The search finds `t` exactly when it occurs somewhere in `s`. */
  lemma {:induction false} ContainsSpec(s: string, t: string)
    ensures Contains(s, t) <==> Occurs(s, t)
    decreases |s|
  {
    if StartsWith(s, t) {
      assert OccursAt(s, t, 0);
    } else if s == [] {
      assert forall i :: !OccursAt(s, t, i);
    } else {
      ContainsSpec(s[1..], t);
      OccursShift(s, t);
    }
  }

  /** An occurrence in `s` is either at offset 0 or an occurrence in `s[1..]`. */
  lemma OccursShift(s: string, t: string)
    requires s != []
    ensures Occurs(s, t) <==> StartsWith(s, t) || Occurs(s[1..], t)
  {
    if Occurs(s, t) {
      var i :| OccursAt(s, t, i);
      if i > 0 {
        assert s[1..][i - 1..i - 1 + |t|] == s[i..i + |t|];
        assert OccursAt(s[1..], t, i - 1);
      } else {
        assert s[..|t|] == s[0..0 + |t|];
      }
    }
    if StartsWith(s, t) {
      assert s[0..0 + |t|] == s[..|t|];
      assert OccursAt(s, t, 0);
    }
    if Occurs(s[1..], t) {
      var j :| OccursAt(s[1..], t, j);
      assert s[j + 1..j + 1 + |t|] == s[1..][j..j + |t|];
      assert OccursAt(s, t, j + 1);
    }
  }

  /** A string using a character that `s` lacks cannot occur in `s`. */
  lemma MissingCharExcludes(s: string, t: string, c: char)
    requires c in t && c !in s
    ensures !Occurs(s, t)
  {
  }

  /** An occurrence at a known offset is found by the search. */
  lemma FoundAt(s: string, t: string, i: int)
    requires OccursAt(s, t, i)
    ensures Occurs(s, t)
  {
  }

  /** Whatever surrounds it, a string occurs in any string built around it. */
  lemma {:induction false} OccursInConcat(a: string, t: string, b: string)
    ensures Contains(a + t + b, t)
  {
    var s := a + t + b;
    assert s[|a|..|a| + |t|] == t;
    FoundAt(s, t, |a|);
    ContainsSpec(s, t);
  }
}
