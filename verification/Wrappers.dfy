/** The conventional value-or-nothing datatype, standing for a nullable result of the modelled code, and ids. */
module Wrappers {
  /** An opaque id as the database generates it. */
  type Uuid = string

  datatype Option<+T> = None | Some(value: T) {
    predicate IsFailure() {
      None?
    }

    function PropagateFailure<U>(): Option<U>
      requires None?
    {
      None
    }

    function Extract(): T
      requires Some?
    {
      value
    }
  }

  function Require(condition: bool): Option<()> {
    if condition then Some(()) else None
  }

  /** Concatenation is associative, for proofs in which the solver should not look for it. */
  lemma ConcatAssociates<T>(a: seq<T>, b: seq<T>, c: seq<T>)
    ensures a + (b + c) == (a + b) + c
  {
  }
}
