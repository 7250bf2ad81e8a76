/** Python's `str.find`, which the fake bank uses to test prefixes. */
module PyText {

  /** `p` occurs in `s` starting at index `j`. */
  predicate OccursAt(s: string, p: string, j: int) {
    0 <= j && j + |p| <= |s| && s[j..j + |p|] == p
  }

  /** `s.find(p, i)`: the lowest index `r >= i` at which `p` occurs in `s`,
      or -1 when there is none. */
  function FindFrom(s: string, p: string, i: nat): (r: int)
    requires i <= |s|
    ensures r == -1 || (i <= r && OccursAt(s, p, r))
    ensures r == -1 ==> forall j :: i <= j ==> !OccursAt(s, p, j)
    ensures r != -1 ==> forall j :: i <= j < r ==> !OccursAt(s, p, j)
    decreases |s| - i
  {
    if i + |p| > |s| then -1
    else if s[i..i + |p|] == p then i
    else FindFrom(s, p, i + 1)
  }

  /** `s.find(p)`. */
  function Find(s: string, p: string): (r: int)
    ensures -1 <= r <= |s|
  {
    FindFrom(s, p, 0)
  }

  /** `s.find(p) == 0` holds exactly when `p` is a prefix of `s`; this is the
      test `list_objects` applies to every stored key. */
  lemma FindZeroIffPrefix(s: string, p: string)
    ensures Find(s, p) == 0 <==> p <= s
  {
    if p <= s {
      assert OccursAt(s, p, 0);
    }
  }
}
