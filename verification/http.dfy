/**
 * The outcome of one HTTP request, as the stores see it, and the errors
 * the stores throw. The transport itself is not modelled: every request's
 * outcome is a parameter of the operation that issues it.
 */
module Http {
  import opened Wrappers

  /** `Ok` carries `response.data`; `Err` carries `err.response?.data?.message`
      when the server supplied one. */
  datatype Response<T> = Ok(payload: T) | Err(message: Option<string>)

  /** Which operation failed; each has its own fixed, localised message. */
  datatype Operation =
    | Register | Login
    | LoadCategories | LoadCategory | CreateCategory | UpdateCategory | DeleteCategory
    | LoadEvents | LoadEvent | CreateEvent | UpdateEvent | DeleteEvent | JoinEvent | LeaveEvent
    | LoadProjects | LoadProject | CreateProject | UpdateProject | DeleteProject | VerifyProject
    | LoadUsers | LoadUser | UpdateUser | VerifyUser

  /** The `Error` a store throws: the server's message, or the operation's
      fixed default. */
  datatype StoreError = ServerMessage(text: string) | DefaultMessage(op: Operation)

  datatype Result<T> = Success(value: T) | Failure(error: StoreError)

  /** `new Error(err.response?.data?.message || default)`, thrown by the
      operations that surface the server's message; the others throw
      `DefaultMessage(op)` directly. */
  function ErrorFor(message: Option<string>, op: Operation): (e: StoreError)
    ensures e.ServerMessage? <==> message.Some? && message.value != ""
    ensures e.ServerMessage? ==> e.text == message.value
    ensures e.DefaultMessage? ==> e.op == op
  {
    if message.Some? && message.value != "" then ServerMessage(message.value)
    else DefaultMessage(op)
  }
}
