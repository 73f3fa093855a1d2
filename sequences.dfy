/** Small facts about sequence concatenation and slicing that the loop and dialogue proofs share. */
module Sequences {

  lemma ConcatAssoc<T>(a: seq<T>, b: seq<T>, c: seq<T>)
    ensures a + b + c == a + (b + c)
  {
  }

  /** A slice is its first element followed by the rest of the slice. */
  lemma ConsSlice<T>(q: seq<T>, i: nat, j: nat)
    requires i < j <= |q|
    ensures [q[i]] + q[i + 1..j] == q[i..j]
  {
  }

  /** A prefix is its first element followed by the rest of the prefix. */
  lemma HeadAndSlice<T>(q: seq<T>, n: nat, tail: seq<T>)
    requires 0 < n <= |q|
    ensures [q[0]] + q[1..n] == q[..n]
    ensures [q[0]] + (q[1..n] + tail) == q[..n] + tail
  {
  }

  /** Writing one position twice keeps only the second write. */
  lemma UpdateTwice<T>(s: seq<T>, i: nat, a: T, b: T)
    requires i < |s|
    ensures s[i := a][i := b] == s[i := b]
  {
  }
}
