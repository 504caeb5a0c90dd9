/** Two facts about sequences, kept apart so that they are proved in a small context. */
module Seqs {
  lemma AppendAssoc<T>(a: seq<T>, b: seq<T>, c: seq<T>)
    ensures (a + b) + c == a + (b + c)
  {
  }

  lemma SliceCons<T>(s: seq<T>, m: nat, j: nat)
    requires m < j <= |s|
    ensures s[m..j] == [s[m]] + s[m + 1..j]
  {
  }
}
