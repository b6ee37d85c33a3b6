/**
 * The response envelope `{success, message, data?, errors?}` shared by every handler,
 * the outcome of a middleware step (pass on to `next`, or answer the request), and the
 * registration body.
 */
module Http {
  import opened Wrappers
  import opened Types
  import opened Users

  /** What a response carries besides status and message. */
  datatype Data =
    | NoData
    | Session(user: PublicUser, tokens: AuthTokens)
    | Refreshed(tokens: AuthTokens)
    | Errors(errors: map<string, string>)

  datatype Response = Response(status: nat, success: bool, message: string, data: Data)

  /** A failure answer: `success: false` and no data. */
  function Failure(status: nat, message: string): Response {
    Response(status, false, message, NoData)
  }

  /** A middleware either calls `next()` once or answers the request itself. */
  datatype Outcome = Next | Halt(response: Response)

  /**
   * The body of `POST /auth/register`; `role` is the raw string the client sent,
   * and `None` is a field the body does not hold.
   */
  datatype RegisterBody = RegisterBody(
    email: Option<string>,
    password: Option<string>,
    firstName: Option<string>,
    lastName: Option<string>,
    role: Option<string>,
    phone: Option<string>,
    dateOfBirth: Option<string>,
    gender: Option<string>,
    address: Option<string>)
}
