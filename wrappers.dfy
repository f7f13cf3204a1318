/** Small value types shared by the components: an optional value (a
    TypeScript `T | null`), what a rejected promise carries, and the outcome
    of one call to the generation service. */
module Wrappers {

  /** `T | null` in the components' state. */
  datatype Option<+T> = None | Some(value: T)

  /** The value a `catch (e)` clause receives: either an `Error` instance,
      which carries a message, or anything else that was thrown. */
  datatype Thrown = ErrorInstance(message: string) | NonErrorValue

  /** How one awaited call to the generation service ends: it resolves with a
      value, or it rejects with a thrown value. */
  datatype Outcome<+T> = Ok(value: T) | Err(thrown: Thrown)

  /** JavaScript truthiness of a `string | null` value: null and the empty
      string are falsy. */
  predicate Truthy(s: Option<string>) {
    s.Some? && s.value != ""
  }
}
