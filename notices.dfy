/** The transient notifications (`toast`) the pages raise, and the result of a
    call to the hosted backend as the client receives it. */
module Notices {

  datatype Toast =
    | Success(title: string, description: string)
    | Error(title: string, description: string)
    | Warning(title: string, description: string)

  /** `{ data, error }` of a backend call: either data or an error message. */
  datatype Reply<T> = Data(data: T) | Failed(message: string)

  /** `error.message || "An unexpected error occurred."`. */
  function ErrorText(message: string): (d: string)
    ensures d != []
    ensures message != [] ==> d == message
  {
    if message == "" then "An unexpected error occurred." else message
  }
}
