/** The contract host: account addresses, call results, and the rule that a failed call changes nothing. */
module Host {

  datatype Address = Address(id: nat)

  datatype Result<+T, +E> = Ok(value: T) | Err(error: E) {
    predicate IsFailure() { Err? }
    function PropagateFailure<U>(): Result<U, E> requires Err? { Err(error) }
    function Extract(): T requires Ok? { value }
  }

  /** `ok_or` and the early returns: fail with e unless the condition holds. */
  function Need<E>(condition: bool, e: E): Result<(), E> {
    if condition then Ok(()) else Err(e)
  }

  /** The state after a call: a call that returns an error, or panics, is rolled back. */
  function After<S, E>(before: S, r: Result<S, E>): S {
    if r.Ok? then r.value else before
  }

  /** What the caller of an entry point without a return value sees. */
  function Status<S, E>(r: Result<S, E>): Result<(), E> {
    if r.Ok? then Ok(()) else Err(r.error)
  }

  /** What a payment of an amount does to one account. */
  function Flow(account: Address, from: Address, to: Address, amount: int): int {
    (if account == to then amount else 0) - (if account == from then amount else 0)
  }
}
