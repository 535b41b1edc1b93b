/**
 * The two string operations the command palette relies on:
 * String.prototype.toLowerCase (restricted to ASCII letters) and
 * String.prototype.includes (substring containment).
 */
module Text {

  predicate IsUpper(c: char) { 'A' <= c <= 'Z' }

  /** Lower-cases an ASCII capital letter and leaves every other character alone. */
  function LowerChar(c: char): (r: char)
    ensures !IsUpper(r)
    ensures IsUpper(c) ==> 'a' <= r <= 'z' && r as int - c as int == 'a' as int - 'A' as int
    ensures !IsUpper(c) ==> r == c
  {
    if IsUpper(c) then (c as int + ('a' as int - 'A' as int)) as char else c
  }

  /** Lower-cases every character of `s`, keeping its length. */
  function Lower(s: string): (r: string)
    ensures |r| == |s|
    ensures forall i :: 0 <= i < |s| ==> r[i] == LowerChar(s[i])
  {
    if s == [] then [] else [LowerChar(s[0])] + Lower(s[1..])
  }

  /** Lower-casing distributes over concatenation. */
  lemma LowerAppend(a: string, b: string)
    ensures Lower(a + b) == Lower(a) + Lower(b)
  {
    assert forall i :: 0 <= i < |a + b| ==> Lower(a + b)[i] == (Lower(a) + Lower(b))[i];
  }

  /** Lower-casing twice is the same as lower-casing once. */
  lemma LowerIdempotent(s: string)
    ensures Lower(Lower(s)) == Lower(s)
  {
  }

  /** `p` occurs in `t` starting at index `i`. */
  ghost predicate OccursAt(t: string, p: string, i: int)
  {
    0 <= i && i + |p| <= |t| && t[i..i + |p|] == p
  }

  ghost predicate Occurs(t: string, p: string)
  {
    exists i :: OccursAt(t, p, i)
  }

  /** Substring containment, searched from the left as `includes` does. */
  function Includes(t: string, p: string): (r: bool)
    ensures r <==> Occurs(t, p)
    decreases |t|
  {
    if p <= t then
      assert OccursAt(t, p, 0);
      true
    else if t == [] then
      false
    else
      OccursShift(t, p);
      Includes(t[1..], p)
  }

  /** When `p` is not a prefix of a non-empty `t`, it occurs in `t` iff it occurs in `t[1..]`. */
  lemma OccursShift(t: string, p: string)
    requires t != [] && !(p <= t)
    ensures Occurs(t, p) <==> Occurs(t[1..], p)
  {
    if Occurs(t, p) {
      var i :| OccursAt(t, p, i);
      assert i != 0;
      assert t[1..][i - 1..i - 1 + |p|] == t[i..i + |p|];
      assert OccursAt(t[1..], p, i - 1);
    }
    if Occurs(t[1..], p) {
      var j :| OccursAt(t[1..], p, j);
      assert t[j + 1..j + 1 + |p|] == t[1..][j..j + |p|];
      assert OccursAt(t, p, j + 1);
    }
  }

  /** The empty string occurs in every string. */
  lemma IncludesEmpty(t: string)
    ensures Includes(t, "")
  {
    assert OccursAt(t, "", 0);
  }

  /** A string that contains `p + s` also contains `p`. */
  lemma IncludesPrefixOfPattern(t: string, p: string, s: string)
    requires Includes(t, p + s)
    ensures Includes(t, p)
  {
    var i :| OccursAt(t, p + s, i);
    assert t[i..i + |p|] == (p + s)[..|p|];
    assert OccursAt(t, p, i);
  }
}
