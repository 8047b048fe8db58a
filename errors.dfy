/**
 * The frontend's `AuthError`: either a server error (status plus the parsed
 * error body), an error built from a client-side kind, or the default error.
 */
module Errors {
  import opened Wrappers
  import opened Types
  import opened Http

  datatype AuthError =
    | ServerError(status: StatusCode, body: AuthErrorBody)
    | KindError(kind: AuthErrorType)
    | DefaultError
  {
    /** The server's error body, which only a parsed server error carries here. */
    function Body(): (b: Option<AuthErrorBody>)
      ensures b.Some? <==> ServerError?
      ensures ServerError? ==> b == Some(body)
    {
      if ServerError? then Some(body) else None
    }
  }

  /** `AuthError::default()`: the fallback error, with no server body. */
  function Default(): (e: AuthError)
    ensures e.Body().None?
  {
    DefaultError
  }

  /** `AuthError::from_error_type`: an error that carries `kind` and no server body. */
  function FromErrorType(kind: AuthErrorType): (e: AuthError)
    ensures e.Body().None?
    ensures e.KindError? && e.kind == kind
  {
    KindError(kind)
  }

  /**
   * `AuthError::from_response`: the response's status with its body when the
   * body parses as an error body, and the default error otherwise.
   */
  function FromResponse(response: Response): (e: AuthError)
    ensures e.Body() == response.errorBody
    ensures e.ServerError? ==> e.status == response.status
    ensures response.errorBody.None? ==> e == Default()
  {
    match response.errorBody
    case None => Default()
    case Some(body) => ServerError(response.status, body)
  }
}
