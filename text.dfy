/**
 * Literal substring matching, the meaning of pandas' `Series.str.contains`
 * for the patterns the dashboard uses (none of them holds a regular-expression
 * metacharacter, so the pattern matches itself and nothing else).
 */
module Text {

  /** `p` occurs in `s` starting at position `i`. */
  ghost predicate OccursAt(s: string, p: string, i: int) {
    0 <= i && i + |p| <= |s| && s[i..i + |p|] == p
  }

  predicate StartsWith(s: string, p: string) {
    |p| <= |s| && s[..|p|] == p
  }

  /** An occurrence at `i > 0` in `s` is an occurrence at `i - 1` in the tail of `s`. */
  lemma OccursAtTail(s: string, p: string, i: int)
    requires |s| > 0 && 1 <= i
    ensures OccursAt(s, p, i) <==> OccursAt(s[1..], p, i - 1)
  {
  }

  /** When `p` does not start `s`, it occurs in `s` exactly when it occurs in the tail of `s`. */
  lemma OccursInTail(s: string, p: string)
    requires |s| > 0 && !OccursAt(s, p, 0)
    ensures (exists i :: OccursAt(s, p, i)) <==> (exists j :: OccursAt(s[1..], p, j))
  {
    if i :| OccursAt(s, p, i) {
      OccursAtTail(s, p, i);
    }
    if j :| OccursAt(s[1..], p, j) {
      OccursAtTail(s, p, j + 1);
    }
  }

  /** `s` contains `p` as a contiguous substring (the empty pattern is in every string). */
  function Contains(s: string, p: string): (found: bool)
    ensures found <==> exists i :: OccursAt(s, p, i)
    decreases |s|
  {
    if StartsWith(s, p) then
      assert OccursAt(s, p, 0);
      true
    else if |s| == 0 then
      false
    else
      assert !OccursAt(s, p, 0) by { if |p| <= |s| { assert s[0..|p|] == s[..|p|]; } }
      OccursInTail(s, p);
      Contains(s[1..], p)
  }

  /** A string that contains a non-empty pattern contains the pattern's first character. */
  lemma ContainsFirstChar(s: string, p: string)
    requires |p| > 0 && Contains(s, p)
    ensures p[0] in s
  {
  }

  /** Every string contains itself. */
  lemma ContainsSelf(s: string)
    ensures Contains(s, s)
  {
  }
}
