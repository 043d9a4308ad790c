/** Small facts about sequences that the other modules share. */
module Seqs {

  function Init<T>(s: seq<T>): seq<T>
    requires |s| > 0
  {
    s[..|s| - 1]
  }

  function Last<T>(s: seq<T>): T
    requires |s| > 0
  {
    s[|s| - 1]
  }

  /** `a` is obtained from `b` by deleting elements, keeping the order of the rest. */
  predicate IsSubsequence<T(==)>(a: seq<T>, b: seq<T>)
    decreases |b|
  {
    if a == [] then true
    else if b == [] then false
    else (Last(a) == Last(b) && IsSubsequence(Init(a), Init(b))) || IsSubsequence(a, Init(b))
  }

  /** Appending one element and taking `Init`/`Last` undo each other. */
  lemma InitLastOfAppend<T>(s: seq<T>, x: T)
    ensures Init(s + [x]) == s && Last(s + [x]) == x
  {
    assert (s + [x])[..|s|] == s;
  }

  /** Past its first part, a concatenation holds the second part. */
  lemma ConcatTail<T>(a: seq<T>, b: seq<T>)
    ensures forall k :: |a| <= k < |a + b| ==> (a + b)[k] == b[k - |a|]
  {
  }

  /** A prefix one longer than `s[..i]` ends in `s[i]`. */
  lemma InitLastOfPrefix<T>(s: seq<T>, i: nat)
    requires i < |s|
    ensures Init(s[..i + 1]) == s[..i] && Last(s[..i + 1]) == s[i]
  {
    assert s[..i + 1][..i] == s[..i];
  }
}
