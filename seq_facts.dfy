/** Facts about sequences that the proofs of logs and event streams use. */
module SeqFacts {
  /** Appending in two steps is appending once. */
  lemma AppendAssociative<T>(a: seq<T>, b: seq<T>, c: seq<T>)
    ensures (a + b) + c == a + (b + c)
  {
  }

  /** An element of the middle part of a concatenation, found by its offset. */
  lemma MiddleIndex<T>(a: seq<T>, b: seq<T>, c: seq<T>, j: nat)
    requires j < |b|
    ensures (a + b + c)[|a| + j] == b[j]
  {
  }

  /** The first element after the middle part of a concatenation. */
  lemma FollowingIndex<T>(a: seq<T>, b: seq<T>, c: seq<T>)
    requires |c| > 0
    ensures (a + b + c)[|a| + |b|] == c[0]
  {
  }

  /** Each part of a three-part concatenation is recovered by slicing. */
  lemma ConcatParts<T>(a: seq<T>, b: seq<T>, c: seq<T>)
    ensures (a + b + c)[..|a|] == a
    ensures (a + b + c)[|a|..|a| + |b|] == b
    ensures (a + b + c)[|a| + |b|..] == c
  {
  }
}
