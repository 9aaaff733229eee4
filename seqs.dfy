/** Facts about sequences shared by the value-level modules. */
module Seqs {
  /** Concatenation regroups freely. */
  lemma ConcatAssoc<T>(x: seq<T>, y: seq<T>, z: seq<T>)
    ensures (x + y) + z == x + (y + z)
  {
  }

  /** A prefix one longer is the prefix plus the next element. */
  lemma TakeSnoc<T>(s: seq<T>, i: int)
    requires 0 <= i < |s|
    ensures s[..i + 1] == s[..i] + [s[i]]
  {
  }
}
