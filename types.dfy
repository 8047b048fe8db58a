/**
 * The shared `types` crate as far as the frontend's token code depends on it:
 * the token newtype, the closed set of client-side error kinds, the server's
 * JSON error body and the user information returned by register and login.
 */
module Types {

  /** An opaque credential; a newtype over its text. */
  datatype AuthToken = AuthToken(text: string) {

    /** The text that is stored and sent as a bearer credential. */
    function ToString(): (r: string) {
      text
    }

    /** Builds a token from its text; `ToString` gives the same text back. */
    static function FromString(s: string): (t: AuthToken)
      ensures t.ToString() == s
    {
      AuthToken(s)
    }

    /** `AuthToken::default()`: the token of the empty text. */
    static function Default(): (t: AuthToken)
      ensures t.ToString() == ""
    {
      AuthToken("")
    }
  }

  /** `to_string` then `from_string` gives the token back (the other direction is `FromString`'s contract). */
  lemma ToStringRoundTrip(t: AuthToken)
    ensures AuthToken.FromString(t.ToString()) == t
  {
  }

  /** Client-side error kinds the core raises without a server body. */
  datatype AuthErrorType = InvalidToken | TokenCreation | BadRequest

  /** The structured error body a server sends with a non-success status. */
  datatype AuthErrorBody = AuthErrorBody(status: int, message: string)

  /** The user information a successful register or login returns. */
  datatype UserInfo = UserInfo(uuid: string, isAdmin: bool)
}
