/** The JSON envelope every handler and middleware answers with. */
module Http {

  /**
   * `{ success: true, message?, data }` with its status, or
   * `{ success: false, error, message, details? }` with its status.
   */
  datatype Reply<T> =
    | Success(status: nat, message: string, data: T)
    | Failure(status: nat, error: string, message: string, details: seq<string>)

  /** A failure without a `details` array. */
  function Fail<T>(status: nat, error: string, message: string): Reply<T> {
    Failure(status, error, message, [])
  }
}
