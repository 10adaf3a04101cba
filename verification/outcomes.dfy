/**
 * Small sum types shared by the whole model: an optional value, a value-or-error
 * result, and the outcome of one call to an external agent (an LLM service),
 * which the model never looks inside.
 */
module Outcomes {

  /** A value that may be absent (Python's `X | None`). */
  datatype Option<+T> = None | Some(value: T)

  /** A computation that either returns a value or raises an error. */
  datatype Result<+T, +E> = Ok(value: T) | Err(error: E)

  /**
   * The outcome of one agent call: the structured output it returned, or the
   * text of the exception it raised (Python's `str(e)`).
   */
  datatype Outcome<+T> = Succeeded(output: T) | Failed(reason: string)

  /** The integers 0, 1, ..., n-1 in ascending order. */
  function Iota(n: nat): (r: seq<nat>)
    ensures |r| == n
    ensures forall i :: 0 <= i < n ==> r[i] == i
  {
    if n == 0 then [] else Iota(n - 1) + [n - 1]
  }

  /**
   * `order` lists every index below `n` exactly once: the order in which n
   * concurrently started tasks completed.
   */
  ghost predicate IsPermutation(order: seq<nat>, n: nat) {
    multiset(order) == multiset(Iota(n))
  }

  lemma PermutationLength(order: seq<nat>, n: nat)
    requires IsPermutation(order, n)
    ensures |order| == n
  {
    assert |multiset(order)| == |order|;
    assert |multiset(Iota(n))| == |Iota(n)|;
  }
}
