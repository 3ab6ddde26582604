/** Facts about the multiset of a sequence, used by the permutation proofs. */
module Multisets {

  /**
   * For two sequences with the same elements, the first element of one
   * occurs in the other, and the two have the same length.
   */
  lemma FindHead<T>(s: seq<T>, t: seq<T>) returns (k: nat)
    requires s != [] && multiset(s) == multiset(t)
    ensures |s| == |t|
    ensures k < |t| && t[k] == s[0]
  {
    assert |s| == |multiset(s)| == |multiset(t)| == |t|;
    assert s[0] in s;
    assert s[0] in multiset(t);
    assert s[0] in t;
    k :| 0 <= k < |t| && t[k] == s[0];
  }

  /** Dropping the first element takes one copy of it out of the multiset. */
  lemma MultisetTail<T>(s: seq<T>)
    requires s != []
    ensures multiset(s[1..]) == multiset(s) - multiset{s[0]}
  {
    assert s == [s[0]] + s[1..];
  }

  /** Taking out the element at position k takes one copy of it out of the multiset. */
  lemma MultisetRemove<T>(t: seq<T>, k: nat)
    requires k < |t|
    ensures multiset(t[..k] + t[k + 1..]) == multiset(t) - multiset{t[k]}
  {
    assert t == t[..k] + [t[k]] + t[k + 1..];
  }

  /**
   * For two sequences with the same elements, finds the first element of
   * `s` in `t`; what remains of each holds the same elements.
   */
  lemma RemoveMatching<T>(s: seq<T>, t: seq<T>) returns (k: nat)
    requires s != [] && multiset(s) == multiset(t)
    ensures k < |t| && t[k] == s[0]
    ensures multiset(s[1..]) == multiset(t[..k] + t[k + 1..])
  {
    k := FindHead(s, t);
    MultisetRemove(t, k);
    MultisetTail(s);
  }

  /** Two sequences with the same elements and the same first element have tails with the same elements. */
  lemma SameHeadTails<T>(s: seq<T>, t: seq<T>)
    requires s != [] && t != [] && multiset(s) == multiset(t) && s[0] == t[0]
    ensures multiset(s[1..]) == multiset(t[1..])
  {
    MultisetTail(s);
    MultisetTail(t);
  }
}
