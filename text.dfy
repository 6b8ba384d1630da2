/** String helpers shared by the modules: substring search and ASCII lower-casing. */
module Text {

  /** `sub` occurs in `s` starting at index `i`. */
  predicate OccursAt(s: string, sub: string, i: int) {
    0 <= i <= |s| - |sub| && s[i..i + |sub|] == sub
  }

  /** Python's `sub in s` for strings. */
  predicate Contains(s: string, sub: string) {
    exists i :: 0 <= i <= |s| - |sub| && OccursAt(s, sub, i)
  }

  /** Python's `s.startswith(p)`. */
  predicate StartsWith(s: string, p: string) {
    |p| <= |s| && s[..|p|] == p
  }

  /** Python's `s.endswith(p)`. */
  predicate EndsWith(s: string, p: string) {
    |p| <= |s| && s[|s| - |p|..] == p
  }

  function LowerChar(c: char): (r: char)
    ensures 'A' <= c <= 'Z' ==> r as int == c as int + 32
    ensures !('A' <= c <= 'Z') ==> r == c
  {
    if 'A' <= c <= 'Z' then (c as int + 32) as char else c
  }

  /** Python's `s.lower()`, restricted to the ASCII letters. */
  function Lower(s: string): (r: string)
    ensures |r| == |s|
    ensures forall i :: 0 <= i < |s| ==> r[i] == LowerChar(s[i])
  {
    if s == [] then [] else [LowerChar(s[0])] + Lower(s[1..])
  }

  /** A string containing `sub` also contains every string `sub` contains. */
  lemma {:induction false} ContainsTransitive(s: string, sub: string, inner: string)
    requires Contains(s, sub) && Contains(sub, inner)
    ensures Contains(s, inner)
  {
    var i :| 0 <= i <= |s| - |sub| && OccursAt(s, sub, i);
    var j :| 0 <= j <= |sub| - |inner| && OccursAt(sub, inner, j);
    assert s[i..i + |sub|] == sub;
    forall k | 0 <= k < |inner|
      ensures s[i + j + k] == inner[k]
    {
      assert s[i..i + |sub|][j + k] == sub[j + k];
    }
    assert s[i + j..i + j + |inner|] == inner;
    assert OccursAt(s, inner, i + j);
  }

  /** A string occurs in any string built around it. */
  lemma ContainsMiddle(a: string, b: string, c: string)
    ensures Contains(a + b + c, b)
  {
    assert (a + b + c)[|a|..|a| + |b|] == b;
    assert OccursAt(a + b + c, b, |a|);
  }

  /** Lower-casing twice is lower-casing once. */
  lemma {:induction false} LowerIdempotent(s: string)
    ensures Lower(Lower(s)) == Lower(s)
  {
    if s != [] {
      LowerIdempotent(s[1..]);
    }
  }
}
