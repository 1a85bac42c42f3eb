/** Literal, case-sensitive substring search on blog names. */
module Substrings {

  /** sub occurs in s starting at position k. */
  ghost predicate OccursAt(sub: string, s: string, k: int) {
    0 <= k && k + |sub| <= |s| && s[k..k + |sub|] == sub
  }

  /** Occurrences in the tail of s are the occurrences in s shifted by one. */
  lemma OccursInTail(sub: string, s: string)
    requires s != []
    ensures forall k :: 0 <= k ==> (OccursAt(sub, s[1..], k) <==> OccursAt(sub, s, k + 1))
  {
    forall k | 0 <= k ensures OccursAt(sub, s[1..], k) <==> OccursAt(sub, s, k + 1) {
      if 0 <= k && k + |sub| <= |s| - 1 {
        assert s[1..][k..k + |sub|] == s[k + 1..k + 1 + |sub|];
      }
    }
  }

  /** String.contains: whether sub occurs somewhere in s (the empty string occurs everywhere). */
  function Contains(s: string, sub: string): (b: bool)
    decreases |s|
  {
    if |sub| <= |s| && s[..|sub|] == sub then true
    else if s == [] then false
    else Contains(s[1..], sub)
  }

  /** Contains answers exactly whether sub occurs at some position of s. */
  lemma {:induction false} ContainsOccurs(s: string, sub: string)
    ensures Contains(s, sub) <==> exists k :: OccursAt(sub, s, k)
    decreases |s|
  {
    if |sub| <= |s| && s[..|sub|] == sub {
      assert OccursAt(sub, s, 0);
    } else if s != [] {
      ContainsOccurs(s[1..], sub);
      OccursInTail(sub, s);
      assert forall k :: OccursAt(sub, s, k) ==> k > 0 && OccursAt(sub, s[1..], k - 1);
    }
  }

  /** A string whose first character does not occur in s is not contained in s. */
  lemma FirstCharAbsent(s: string, sub: string)
    requires sub != [] && sub[0] !in s
    ensures !Contains(s, sub)
  {
    ContainsOccurs(s, sub);
  }
}
