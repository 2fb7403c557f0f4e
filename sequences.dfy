/** Proof aids about sequence concatenation. They model nothing of the
    guard: Dafny knows both facts, and the proofs elsewhere name them only
    so that the solver regroups a long event log in the one way a step
    needs instead of searching for it. */
module Sequences {

  /** Concatenation regroups freely. */
  lemma AppendAssoc<T>(a: seq<T>, b: seq<T>, c: seq<T>)
    ensures a + b + c == a + (b + c)
  {
  }

  /** Three appends, one after another, append the three in order. */
  lemma AppendThree<T>(start: seq<T>, a: T, b: T, c: T)
    ensures start + [a] + [b] + [c] == start + [a, b, c]
  {
  }
}
