/** The vocabulary shared by every route handler: the user record the handlers
    read, the exceptions that can escape a handler's `try` block, and the
    `except` chain that turns them into what the client finally receives. */
module Access {

  datatype Option<+T> = None | Some(value: T)

  /** The fields of the authenticated user record that the handlers read. */
  datatype User = User(id: int, username: string, userRole: string, disabled: bool)

  const AdminRole: string := "admin"

  predicate IsAdmin(u: User) {
    u.userRole == AdminRole
  }

  /** The exception classes a handler distinguishes. `OtherError` stands for
      every exception that is neither an `UnauthorizedError` nor a
      `PermissionError` of the application's own error module. */
  datatype Error =
    | UnauthorizedError(message: string)
    | PermissionError(message: string)
    | OtherError(message: string)

  /** A call into code outside the model either returns a value or raises. */
  datatype Call<+T> = Returned(value: T) | Raised(error: Error)

  /** The verdict of the checks a handler runs before it delegates. */
  datatype Gate = Pass | Stop(error: Error)

  /** What leaves a handler: a response, or one of the three errors the
      handler re-raises (the text of `InternalServerError` is not modelled). */
  datatype Outcome<+T> =
    | Allowed(content: T)
    | Denied(message: string)
    | Unauthorized(message: string)
    | Internal

  const PermissionDenied: string := "Permission denied"
  const AuthenticationRequired: string := "Authentication required"

  /** The work a handler does once its checks are done: if they stopped, the
      delegated call is not made and the check's error propagates. */
  function Proceed<T>(gate: Gate, work: Call<T>): Call<T> {
    match gate
    case Pass => work
    case Stop(err) => Raised(err)
  }

  /** The `except` chain every handler ends with: an `UnauthorizedError` is
      re-raised as "Authentication required", any `PermissionError` as
      "Permission denied" whatever its own message, and anything else as an
      internal server error. A returned value passes through unchanged. */
  function Surface<T>(body: Call<T>): (r: Outcome<T>)
    ensures r.Allowed? <==> body.Returned?
    ensures body.Returned? ==> r.content == body.value
    ensures r.Denied? <==> body.Raised? && body.error.PermissionError?
    ensures r.Unauthorized? <==> body.Raised? && body.error.UnauthorizedError?
    ensures r.Internal? <==> body.Raised? && body.error.OtherError?
    ensures r.Denied? ==> r.message == PermissionDenied
    ensures r.Unauthorized? ==> r.message == AuthenticationRequired
  {
    match body
    case Returned(v) => Allowed(v)
    case Raised(UnauthorizedError(_)) => Unauthorized(AuthenticationRequired)
    case Raised(PermissionError(_)) => Denied(PermissionDenied)
    case Raised(OtherError(_)) => Internal
  }

  /** Two failures of the same class are indistinguishable to the client:
      the message raised inside the handler never reaches it. */
  lemma SurfaceHidesMessages<T>(e1: Error, e2: Error)
    requires e1.UnauthorizedError? == e2.UnauthorizedError?
    requires e1.PermissionError? == e2.PermissionError?
    ensures Surface<T>(Raised(e1)) == Surface<T>(Raised(e2))
  {
  }
}
