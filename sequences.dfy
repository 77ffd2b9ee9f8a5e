/** Small facts about sequences that the loops of the model step through. */
module Sequences {

  /** Extending a prefix by one element and dropping it again gives the prefix back. */
  lemma PrefixStep<T>(s: seq<T>, i: nat)
    requires i < |s|
    ensures s[..i + 1][..i] == s[..i] && s[..i + 1][i] == s[i]
  {
  }

  /** Appending to a queue in two steps appends the concatenation. */
  lemma AppendTwice<T>(q: seq<T>, a: seq<T>, b: seq<T>)
    ensures q + a + b == q + (a + b)
  {
  }
}
