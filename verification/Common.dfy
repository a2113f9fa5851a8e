/** Result and option carriers shared by every component. */
module Common {
  datatype Option<+T> = None | Some(value: T)

  datatype Result<+T, +E> = Ok(value: T) | Err(error: E)
  {
    predicate IsFailure() { Err? }

    function PropagateFailure<U>(): Result<U, E>
      requires Err?
    {
      Err(error)
    }

    function Extract(): T
      requires Ok?
    {
      value
    }
  }

  /** A precondition that either passes or refuses with an error. */
  datatype Check<+E> = Pass | Fail(error: E)
  {
    predicate IsFailure() { Fail? }

    function PropagateFailure<U>(): Result<U, E>
      requires Fail?
    {
      Err(error)
    }
  }

  function Need<E>(condition: bool, error: E): Check<E> {
    if condition then Pass else Fail(error)
  }

  /** A reflexive, transitive relation between neighbours holds between any two points of a run. */
  lemma {:induction false} Chains<T(!new)>(states: seq<T>, rel: (T, T) -> bool, i: nat, j: nat)
    requires i <= j < |states|
    requires forall n | 0 < n < |states| :: rel(states[n - 1], states[n])
    requires forall a :: rel(a, a)
    requires forall a, b, c :: rel(a, b) && rel(b, c) ==> rel(a, c)
    ensures rel(states[i], states[j])
    decreases j
  {
    if i < j {
      Chains(states, rel, i, j - 1);
    }
  }
}
