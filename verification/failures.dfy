/** The exceptions the OAuth2 core throws or lets through, as values. */
module Failures {

  /** Which exception occurs. `Argument` carries the setting it complains about;
      `OAuth2AuthError` is `OAuth2AuthenticationException` wrapping its inner exception. */
  datatype Error =
    | ArgumentNull
    | Argument(field: string)
    | InvalidOperation
    | NullReference
    | MsalUiRequired
    | Msal(code: string)
    | OAuth2AuthError(inner: Error)

  /** A call that returns a value or throws. */
  datatype Result<+T> = Ok(value: T) | Err(error: Error)

  /** A call that returns nothing or throws. */
  datatype Outcome = Pass | Fail(error: Error)

  /** How many `OAuth2AuthenticationException` layers surround the root cause. */
  function WrapDepth(e: Error): nat
  {
    match e
    case OAuth2AuthError(inner) => 1 + WrapDepth(inner)
    case _ => 0
  }
}
