/** Small value types shared by the reducer and the provider. */
module Results {

  /** A value that may be absent. `None` stands for JavaScript's `null`, `undefined`
      and every other falsy payload; `Some` for a present (truthy) one. */
  datatype Option<+T> = None | Some(value: T)

  /** How one call into the identity provider (or into browser storage) settles:
      it resolves with a value or it rejects. The rejection reason is never
      inspected by the provider, so it is not carried. */
  datatype Outcome<+T> = Ok(value: T) | Fail

  /** How one of the provider's own asynchronous operations settles for its caller:
      the returned promise is fulfilled, or it rejects with an `Error` whose
      message is given. */
  datatype Completion = Fulfilled | Rejected(message: string)
}
