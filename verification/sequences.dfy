/** Order-preserving selection from a list, shared by the list filters. */
module Sequences {
  /** `r` is `s` with some elements left out, the rest in their order. */
  predicate IsSubsequence<T(==)>(r: seq<T>, s: seq<T>)
  {
    if r == [] then true
    else if s == [] then false
    else (r[0] == s[0] && IsSubsequence(r[1..], s[1..])) || IsSubsequence(r, s[1..])
  }

  /** Selections from two lists concatenate to a selection from their
      concatenation. */
  lemma {:induction false} SubsequenceConcat<T>(a: seq<T>, s: seq<T>, b: seq<T>, t: seq<T>)
    requires IsSubsequence(a, s) && IsSubsequence(b, t)
    ensures IsSubsequence(a + b, s + t)
    decreases |s|
  {
    if s == [] {
      assert a == [] && a + b == b && s + t == t;
    } else if a != [] && a[0] == s[0] && IsSubsequence(a[1..], s[1..]) {
      SubsequenceConcat(a[1..], s[1..], b, t);
      assert (a + b)[1..] == a[1..] + b && (s + t)[1..] == s[1..] + t;
    } else {
      SubsequenceConcat(a, s[1..], b, t);
      assert (s + t)[1..] == s[1..] + t;
    }
  }

  /** A list is a selection from itself. */
  lemma {:induction false} SubsequenceRefl<T>(s: seq<T>)
    ensures IsSubsequence(s, s)
  {
    if s != [] {
      SubsequenceRefl(s[1..]);
    }
  }
}
