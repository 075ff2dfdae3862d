/** Shapes shared by every part of the model: optional values, the settled
    outcome of a call to the remote payments API, and a thrown error. */
module Common {

  /** `T | null` (or `T | undefined`) in the source. */
  datatype Option<+T> = None | Some(value: T)

  /** What a rejected axios call carries: the HTTP status when a response
      arrived (none for a transport failure) and the `message` field of the
      response body when the server sent one. */
  datatype ApiError = ApiError(status: Option<int>, message: Option<string>)

  /** The settled value of one awaited API call: resolved or rejected. */
  datatype Result<+T> = Ok(value: T) | Err(error: ApiError)

  /** A call that either returns a value or throws an `Error` with a message. */
  datatype Checked<+T> = Returns(value: T) | Throws(message: string)

  /** JavaScript truthiness of a `string | null`: present and non-empty. */
  predicate Truthy(s: Option<string>) {
    s.Some? && s.value != ""
  }

  /** `useContext` behind a guard: outside its provider the hook throws an
      `Error` with the given message, inside it returns the context value. */
  function UseContext<T>(context: Option<T>, message: string): (r: Checked<T>)
    ensures r.Throws? <==> context.None?
    ensures r.Throws? ==> r.message == message
    ensures context.Some? ==> r == Returns(context.value)
  {
    match context
    case None => Throws(message)
    case Some(value) => Returns(value)
  }
}
