/** Python's substring test `sub in s` on strings, the only string
    operation the twin relies on (it classifies loads by name). */
module Text {

  /** `sub` matches `s` at position `i` from character `k` of `sub` onwards. */
  predicate MatchesAt(s: string, sub: string, i: nat, k: nat)
    requires i + |sub| <= |s| && k <= |sub|
    decreases |sub| - k
  {
    k == |sub| || (s[i + k] == sub[k] && MatchesAt(s, sub, i, k + 1))
  }

  /** `sub` occurs in `s` at some position `j >= i`. */
  predicate ContainsFrom(s: string, sub: string, i: nat)
    decreases |s| - i
  {
    i + |sub| <= |s| && (MatchesAt(s, sub, i, 0) || ContainsFrom(s, sub, i + 1))
  }

  /** Python's `sub in s`. */
  predicate Contains(s: string, sub: string) {
    ContainsFrom(s, sub, 0)
  }

  /** Independent reference definition: `sub` is a contiguous slice of `s` at `i`. */
  ghost predicate OccursAt(s: string, sub: string, i: int) {
    0 <= i && i + |sub| <= |s| && s[i..i + |sub|] == sub
  }

  lemma {:induction false} MatchesAtIffSlice(s: string, sub: string, i: nat, k: nat)
    requires i + |sub| <= |s| && k <= |sub|
    ensures MatchesAt(s, sub, i, k) <==> s[i + k..i + |sub|] == sub[k..]
    decreases |sub| - k
  {
    if k < |sub| {
      MatchesAtIffSlice(s, sub, i, k + 1);
      var a, b := s[i + k..i + |sub|], sub[k..];
      assert a == [s[i + k]] + s[i + k + 1..i + |sub|];
      assert b == [sub[k]] + sub[k + 1..];
      if a == b {
        assert a[0] == b[0];
        assert a[1..] == b[1..];
      }
    }
  }

  lemma {:induction false} ContainsFromIffOccurs(s: string, sub: string, i: nat)
    ensures ContainsFrom(s, sub, i) <==> exists j :: i <= j && OccursAt(s, sub, j)
    decreases |s| - i
  {
    if i + |sub| <= |s| {
      MatchesAtIffSlice(s, sub, i, 0);
      ContainsFromIffOccurs(s, sub, i + 1);
      if exists j :: i <= j && OccursAt(s, sub, j) {
        var j :| i <= j && OccursAt(s, sub, j);
        if j != i {
          assert i + 1 <= j;
        }
      }
      if MatchesAt(s, sub, i, 0) {
        assert OccursAt(s, sub, i);
      }
    }
  }

  /** Contains agrees with the slice-based reference definition. */
  lemma ContainsIffOccurs(s: string, sub: string)
    ensures Contains(s, sub) <==> exists j :: OccursAt(s, sub, j)
  {
    ContainsFromIffOccurs(s, sub, 0);
  }

  /** A witness position establishes containment. */
  lemma {:induction false} ContainsWitness(s: string, sub: string, i: nat, j: nat)
    requires i <= j && j + |sub| <= |s| && MatchesAt(s, sub, j, 0)
    ensures ContainsFrom(s, sub, i)
    decreases j - i
  {
    if i < j {
      ContainsWitness(s, sub, i + 1, j);
    }
  }
}
