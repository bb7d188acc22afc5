/** Substring containment, the only string test the router performs. */
module Text {

  /** `sub` sits in `s` starting at position `i`. */
  ghost predicate OccursAt(s: string, sub: string, i: int)
  {
    0 <= i && i + |sub| <= |s| && s[i..i + |sub|] == sub
  }

  /** Reference meaning of containment: some position of `s` holds `sub`. */
  ghost predicate Occurs(s: string, sub: string)
  {
    exists i :: OccursAt(s, sub, i)
  }

  /** Left-to-right search for `sub` in `s`, as Go's strings.Contains:
      the empty string is contained in every string. */
  function Contains(s: string, sub: string): (b: bool)
    ensures b <==> Occurs(s, sub)
    decreases |s|
  {
    if |s| < |sub| then
      assert forall i :: !OccursAt(s, sub, i);
      false
    else if s[..|sub|] == sub then
      assert OccursAt(s, sub, 0);
      true
    else
      var rest := Contains(s[1..], sub);
      OccursShift(s, sub);
      rest
  }

  /** An occurrence in `s` either starts at its head or is an occurrence
      in the tail. */
  lemma OccursShift(s: string, sub: string)
    requires |s| > 0
    ensures Occurs(s, sub) <==> OccursAt(s, sub, 0) || Occurs(s[1..], sub)
  {
    if Occurs(s, sub) && !OccursAt(s, sub, 0) {
      var i :| OccursAt(s, sub, i);
      assert s[1..][i - 1..i - 1 + |sub|] == s[i..i + |sub|];
      assert OccursAt(s[1..], sub, i - 1);
    }
    if Occurs(s[1..], sub) {
      var j :| OccursAt(s[1..], sub, j);
      assert s[1..][j..j + |sub|] == s[j + 1..j + 1 + |sub|];
      assert OccursAt(s, sub, j + 1);
    }
  }
}
