/** Values shared by the modules: optional values, thrown values and the
    two ways an awaited call can settle. */
module Outcomes {

  datatype Option<+T> = None | Some(value: T)

  /** What a JavaScript `catch` clause receives: an `Error` instance,
      of which only its `message` matters here, or any other thrown value. */
  datatype Thrown = ErrorValue(message: string) | OtherValue

  /** How a call settled: it returned a value or it threw. */
  datatype Completion<+T> = Returned(value: T) | Threw(thrown: Thrown)
}
