/**
 * The backend as the client sees it: a request settles either with the
 * response body's `data` or with an error whose body may carry a `message`.
 */
module Api {
  import opened Wrappers
  import opened Storage
  import opened Router

  datatype Response<T> = Ok(data: T) | Err(message: Option<string>)

  /** The text of an error notification: `error.response?.data?.message || fallback`. */
  function ErrorText(message: Option<string>, fallback: string): (t: string)
    ensures Truthy(message) ==> t == message.value
    ensures !Truthy(message) ==> t == fallback
  {
    Or(message, Some(fallback)).value
  }

  /** What submitting a login form leads to. */
  datatype LoginEffect =
    | FormRejected                              // the schema refused the input: no request is sent
    | LoggedIn(toast: string, navigateTo: Path) // the slot is written, then the panel is opened
    | LoginFailed(toast: string)                // the server refused: an error notification only
}
