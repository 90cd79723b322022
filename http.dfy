/** What a controller sends back: a status, a JSON message, an optional
    payload, and what it does to the `jwt` session cookie. */
module Http {
  import opened Wrappers
  import opened Credentials

  datatype Reply<T> = Reply(status: int, message: string, body: Option<T>)

  /** res.cookie("jwt", ...): issue a signed token for a subject, or
      overwrite the cookie with "" and maxAge 0. */
  datatype CookieEffect = KeepCookie | IssueJwt(subject: ObjectId) | ClearJwt

  /** The `jwt` cookie the browser sends next, given the signer that
      generateToken uses. A cookie with maxAge 0 is discarded at once. */
  function NextCookie(effect: CookieEffect, current: Option<string>, sign: ObjectId -> string): (c: Option<string>)
    ensures effect == ClearJwt ==> c == None
    ensures effect == KeepCookie ==> c == current
    ensures effect.IssueJwt? ==> c == Some(sign(effect.subject))
  {
    match effect
    case KeepCookie => current
    case IssueJwt(subject) => Some(sign(subject))
    case ClearJwt => None
  }

  /** logout (admin, user and driver controllers alike). */
  function Logout(): (r: (Reply<()>, CookieEffect))
    ensures r.0.status == 200 && r.1 == ClearJwt
  {
    (Reply(200, "Logged out successfully", None), ClearJwt)
  }
}
