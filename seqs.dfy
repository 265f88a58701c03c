/** Small facts about sequence slices, stated once for any element type. */
module Seqs {

  /** Widening a slice by one element appends that element. */
  lemma SliceSnoc<T>(s: seq<T>, i: nat, j: nat)
    requires i <= j < |s|
    ensures s[i..j + 1] == s[i..j] + [s[j]]
  {
  }

  /**
   * One step of a loop that emits `x` and moves on: if the output so far
   * followed by what is still to come is everything, and what is to come
   * is `x` followed by `rest`, the longer output followed by `rest` is
   * still everything.
   */
  lemma EmitStep<T>(done: seq<T>, x: T, rest: seq<T>, todo: seq<T>, all: seq<T>)
    requires done + todo == all && todo == [x] + rest
    ensures (done + [x]) + rest == all
  {
  }
}
