/** What every API handler shares: the request method, the session that
    next-auth hands the handler, and JavaScript truthiness of body fields. */
module Http {
  import opened Wrappers

  datatype Method = GET | POST | PUT | DELETE | PATCH

  function MethodName(m: Method): string {
    match m
    case GET => "GET"
    case POST => "POST"
    case PUT => "PUT"
    case DELETE => "DELETE"
    case PATCH => "PATCH"
  }

  /** The 405 message of the handlers that list their allowed methods. */
  function NotAllowed(m: Method): string {
    "Method " + MethodName(m) + " Not Allowed"
  }

  /** The signed-in user as the session exposes it; the session itself is
      `None` for an anonymous request. */
  datatype SessionUser = SessionUser(email: Option<string>, role: Option<string>)
  type Session = Option<SessionUser>

  /** `!session || session.user.role !== 'admin'` negated. */
  predicate IsAdmin(session: Session) {
    session.Some? && session.value.role == Some("admin")
  }

  /** `session?.user?.email`, as an optional value. */
  function SessionEmail(session: Session): Option<string> {
    if session.Some? then session.value.email else None
  }

  /** A string body field is truthy when it is present and not empty. */
  predicate Truthy(s: Option<string>) {
    s.Some? && s.value != ""
  }

  /** `a || b` for two optional strings: the first when it is truthy. */
  function OrElse(a: Option<string>, b: Option<string>): (r: Option<string>)
    ensures Truthy(r) <==> Truthy(a) || Truthy(b)
    ensures Truthy(a) ==> r == a
  {
    if Truthy(a) then a else b
  }

  /** `s || fallback` for an optional string with a string default. */
  function StrOr(s: Option<string>, fallback: string): (r: string)
    ensures Truthy(s) ==> r == s.value
    ensures !Truthy(s) ==> r == fallback
  {
    if Truthy(s) then s.value else fallback
  }
}
