/**
 * The `protect(role)` middleware: it reads the `jwt` cookie, verifies it,
 * looks the token's subject up in the collection the route's role names,
 * and either answers the request itself or attaches the record (without
 * its password) and passes control on. jwt.verify is a parameter.
 */
module Guard {
  import opened Wrappers
  import opened Collections
  import opened Credentials
  import opened Models
  import opened Http
  import opened Routes

  datatype Role = AdminRole | DriverRole | UserRole

  function RoleName(r: Role): string {
    match r
    case AdminRole => "admin"
    case DriverRole => "driver"
    case UserRole => "user"
  }

  /** The cases of the role switch. */
  function ParseRole(s: string): (r: Option<Role>)
    ensures r.Some? <==> s == "admin" || s == "driver" || s == "user"
    ensures r.Some? ==> RoleName(r.value) == s
  {
    if s == "admin" then Some(AdminRole)
    else if s == "driver" then Some(DriverRole)
    else if s == "user" then Some(UserRole)
    else None
  }

  /** What jwt.verify makes of a token: it throws (bad signature, expired,
      malformed), or returns a payload, which may be falsy or carry a
      `userId` claim (absent when the token was signed without one). */
  datatype Payload = Falsy | Claims(userId: Option<string>)
  datatype Verification = Throws | Verified(payload: Payload)

  /** The record attached to req.user. */
  datatype Principal = AdminPrincipal(admin: Admin) | DriverPrincipal(driver: Driver) | UserPrincipal(user: User)

  function PrincipalId(p: Principal): ObjectId {
    match p
    case AdminPrincipal(a) => a.id
    case DriverPrincipal(d) => d.id
    case UserPrincipal(u) => u.id
  }

  function PrincipalRole(p: Principal): Role {
    match p
    case AdminPrincipal(_) => AdminRole
    case DriverPrincipal(_) => DriverRole
    case UserPrincipal(_) => UserRole
  }

  /** `.select("-password")`: the attached record carries no password. */
  predicate Unprivileged(p: Principal) {
    match p
    case AdminPrincipal(a) => a.password.None?
    case DriverPrincipal(d) => d.password.None?
    case UserPrincipal(u) => u.password.None?
  }

  /** What `Model.findById(claim)` yields: nothing for an absent claim, a
      CastError for a claim that is not an ObjectId, or the document. */
  datatype FindResult<T> = CastFailed | Missing | Found(doc: T)

  function FindById<T>(s: seq<T>, key: T -> ObjectId, claim: Option<string>): (r: FindResult<T>)
    ensures r.CastFailed? <==> claim.Some? && CastObjectId(claim.value).None?
    ensures r.Found? <==> claim.Some? && CastObjectId(claim.value).Some?
                          && exists i :: 0 <= i < |s| && key(s[i]) == CastObjectId(claim.value).value
    ensures r.Found? ==> r.doc in s && CastObjectId(claim.value) == Some(key(r.doc))
  {
    if claim.None? then Missing
    else match CastObjectId(claim.value)
      case None => CastFailed
      case Some(id) =>
        match FirstIndex(s, (d: T) => key(d) == id)
        case None => Missing
        case Some(i) => Found(s[i])
  }

  /** Whether the collection the role names holds a document with this id. */
  predicate Holds(role: Role, id: ObjectId, admins: seq<Admin>, drivers: seq<Driver>, users: seq<User>) {
    match role
    case AdminRole => exists i :: 0 <= i < |admins| && admins[i].id == id
    case DriverRole => exists i :: 0 <= i < |drivers| && drivers[i].id == id
    case UserRole => exists i :: 0 <= i < |users| && users[i].id == id
  }

  /** The record is a stored document of its role's collection, as
      `.select("-password")` returns it. */
  predicate StoredWithoutPassword(p: Principal, admins: seq<Admin>, drivers: seq<Driver>, users: seq<User>) {
    match p
    case AdminPrincipal(a) => exists i :: 0 <= i < |admins| && a == admins[i].(password := None)
    case DriverPrincipal(d) => exists i :: 0 <= i < |drivers| && d == drivers[i].(password := None)
    case UserPrincipal(u) => exists i :: 0 <= i < |users| && u == users[i].(password := None)
  }

  const NoToken := "Access Denied. No token provided."
  const BadToken := "Invalid token."
  const FalsyToken := "Access Denied. Invalid Token"
  const BadRole := "Invalid role specified."
  const NoSubject := "Invalid token or user not found."

  datatype Decision = Deny(status: int, message: string) | Proceed(principal: Principal, role: Role)

  /** The token the guard acts on: the cookie, unless it is absent or "". */
  predicate HasToken(cookie: Option<string>) {
    cookie.Some? && cookie.value != ""
  }

  /** The claim a verified, truthy token carries. */
  predicate ClaimsOf(cookie: Option<string>, verify: string -> Verification, claim: Option<string>) {
    HasToken(cookie) && verify(cookie.value) == Verified(Claims(claim))
  }

  /** The middleware's decision for one request. Each denial is characterized
      in both directions. A request proceeds exactly when a verified token
      claims the `_id` of a document of the role's own collection, and then
      carries that document without its password. */
  function Decide(cookie: Option<string>, role: string, verify: string -> Verification,
                  admins: seq<Admin>, drivers: seq<Driver>, users: seq<User>): (d: Decision)
    ensures d == Deny(401, NoToken) <==> !HasToken(cookie)
    ensures d == Deny(400, BadToken) <==>
      HasToken(cookie) && (verify(cookie.value) == Throws
        || exists s :: ClaimsOf(cookie, verify, Some(s)) && ParseRole(role).Some? && CastObjectId(s).None?)
    ensures d == Deny(401, FalsyToken) <==> HasToken(cookie) && verify(cookie.value) == Verified(Falsy)
    ensures d == Deny(400, BadRole) <==>
      HasToken(cookie) && verify(cookie.value).Verified? && verify(cookie.value).payload.Claims? && ParseRole(role).None?
    ensures d == Deny(401, NoSubject) <==>
      exists claim :: ClaimsOf(cookie, verify, claim) && ParseRole(role).Some?
        && (claim.None? || (CastObjectId(claim.value).Some?
                            && !Holds(ParseRole(role).value, CastObjectId(claim.value).value, admins, drivers, users)))
    ensures d.Proceed? <==>
      exists s :: ClaimsOf(cookie, verify, Some(s)) && ParseRole(role).Some? && CastObjectId(s).Some?
        && Holds(ParseRole(role).value, CastObjectId(s).value, admins, drivers, users)
    ensures d.Proceed? ==>
      && ParseRole(role) == Some(d.role) && PrincipalRole(d.principal) == d.role
      && Unprivileged(d.principal) && StoredWithoutPassword(d.principal, admins, drivers, users)
      && Holds(d.role, PrincipalId(d.principal), admins, drivers, users)
      && exists s :: ClaimsOf(cookie, verify, Some(s)) && CastObjectId(s) == Some(PrincipalId(d.principal))
  {
    if !HasToken(cookie) then Deny(401, NoToken)
    else match verify(cookie.value)
      case Throws => Deny(400, BadToken)
      case Verified(Falsy) => Deny(401, FalsyToken)
      case Verified(Claims(claim)) =>
        match ParseRole(role)
        case None => Deny(400, BadRole)
        case Some(AdminRole) =>
          (match FindById(admins, AdminId, claim)
           case CastFailed => Deny(400, BadToken)
           case Missing => Deny(401, NoSubject)
           case Found(a) => Proceed(AdminPrincipal(a.(password := None)), AdminRole))
        case Some(DriverRole) =>
          (match FindById(drivers, DriverId, claim)
           case CastFailed => Deny(400, BadToken)
           case Missing => Deny(401, NoSubject)
           case Found(dr) => Proceed(DriverPrincipal(dr.(password := None)), DriverRole))
        case Some(UserRole) =>
          (match FindById(users, UserId, claim)
           case CastFailed => Deny(400, BadToken)
           case Missing => Deny(401, NoSubject)
           case Found(u) => Proceed(UserPrincipal(u.(password := None)), UserRole))
  }

  /** The collection searched is fixed by the route's role argument: the
      decision for a role does not depend on the other two collections. */
  lemma RoleSelectsCollection(cookie: Option<string>, verify: string -> Verification,
                              admins: seq<Admin>, drivers: seq<Driver>, users: seq<User>,
                              admins': seq<Admin>, drivers': seq<Driver>, users': seq<User>)
    ensures Decide(cookie, "admin", verify, admins, drivers, users) == Decide(cookie, "admin", verify, admins, drivers', users')
    ensures Decide(cookie, "driver", verify, admins, drivers, users) == Decide(cookie, "driver", verify, admins', drivers, users')
    ensures Decide(cookie, "user", verify, admins, drivers, users) == Decide(cookie, "user", verify, admins', drivers', users)
  {
  }

  /** A well-formed token whose subject is not in the role's collection is
      refused, in particular one issued to an account of another role. */
  lemma ForeignTokenRefused(cookie: Option<string>, role: string, verify: string -> Verification, s: string,
                            admins: seq<Admin>, drivers: seq<Driver>, users: seq<User>)
    requires ClaimsOf(cookie, verify, Some(s)) && ParseRole(role).Some? && CastObjectId(s).Some?
    requires !Holds(ParseRole(role).value, CastObjectId(s).value, admins, drivers, users)
    ensures Decide(cookie, role, verify, admins, drivers, users) == Deny(401, NoSubject)
  {
  }

  /** After logout the browser sends no token, so every protected route answers 401. */
  lemma LogoutEndsSession(current: Option<string>, sign: ObjectId -> string, role: string,
                          verify: string -> Verification, admins: seq<Admin>, drivers: seq<Driver>, users: seq<User>)
    ensures Decide(NextCookie(Logout().1, current, sign), role, verify, admins, drivers, users) == Deny(401, NoToken)
  {
  }

  /** Filing a complaint is guarded by the User collection: an admin's or a
      driver's token, whose subject is no user, is refused. */
  lemma ComplaintNeedsUserAccount(cookie: Option<string>, verify: string -> Verification, s: string,
                                  admins: seq<Admin>, drivers: seq<Driver>, users: seq<User>)
    requires ClaimsOf(cookie, verify, Some(s)) && CastObjectId(s).Some?
    requires !Holds(UserRole, CastObjectId(s).value, admins, drivers, users)
    ensures Resolve(ComplaintRoutes, Post, ["complaints"]) == Protected("user", CreateComplaint)
    ensures Decide(cookie, "user", verify, admins, drivers, users) == Deny(401, NoSubject)
  {
    ComplaintRouteTable("complaint");
  }

  /** No work route is open, and a token whose subject is neither an admin
      nor a driver (a user's, say) is refused on every work route. */
  lemma WorkRoutesRefuseOthers(verb: Verb, path: seq<string>, cookie: Option<string>, verify: string -> Verification,
                               s: string, admins: seq<Admin>, drivers: seq<Driver>, users: seq<User>)
    requires ClaimsOf(cookie, verify, Some(s)) && CastObjectId(s).Some?
    requires !Holds(AdminRole, CastObjectId(s).value, admins, drivers, users)
    requires !Holds(DriverRole, CastObjectId(s).value, admins, drivers, users)
    ensures !Resolve(WorkRoutes, verb, path).Open?
    ensures Resolve(WorkRoutes, verb, path).Protected? ==>
      Decide(cookie, Resolve(WorkRoutes, verb, path).role, verify, admins, drivers, users) == Deny(401, NoSubject)
  {
    ResolveFromTable(WorkRoutes, verb, path);
    var a := Resolve(WorkRoutes, verb, path);
    if a.Protected? {
      var i :| 0 <= i < |WorkRoutes| && a == AccessOf(WorkRoutes[i]);
      assert a.role == "driver" || a.role == "admin" by {
        assert i == 0 || i == 1;
      }
    }
  }

  /** The parts of `req` and `res` the middleware touches. */
  datatype Response = Response(status: int, message: string)

  class Request {
    const cookie: Option<string>
    var user: Option<Principal>
    var userRole: Option<string>
    var nextCalls: nat
    var response: Option<Response>

    constructor(cookie: Option<string>)
      ensures this.cookie == cookie && user.None? && userRole.None? && nextCalls == 0 && response.None?
    {
      this.cookie := cookie;
      user := None;
      userRole := None;
      nextCalls := 0;
      response := None;
    }
  }

  /** protect(role) applied to one request: it answers with the status and
      message of the denial and calls nothing, or it attaches the record and
      the role and calls next exactly once. */
  method Protect(role: string, req: Request, verify: string -> Verification,
                 admins: seq<Admin>, drivers: seq<Driver>, users: seq<User>)
    modifies req
    ensures match Decide(req.cookie, role, verify, admins, drivers, users)
      case Deny(status, message) =>
        && req.response == Some(Response(status, message))
        && req.user == old(req.user) && req.userRole == old(req.userRole) && req.nextCalls == old(req.nextCalls)
      case Proceed(p, _) =>
        && req.user == Some(p) && req.userRole == Some(role) && req.nextCalls == old(req.nextCalls) + 1
        && req.response == old(req.response)
  {
    var token := req.cookie;
    if !HasToken(token) {
      req.response := Some(Response(401, NoToken));
      return;
    }
    var decoded := verify(token.value);
    if decoded == Throws {
      req.response := Some(Response(400, BadToken));
      return;
    }
    if decoded.payload == Falsy {
      req.response := Some(Response(401, FalsyToken));
      return;
    }
    var claim := decoded.payload.userId;
    var user: FindResult<Principal>;
    match ParseRole(role) {
      case None =>
        req.response := Some(Response(400, BadRole));
        return;
      case Some(AdminRole) =>
        match FindById(admins, AdminId, claim) {
          case CastFailed => user := CastFailed;
          case Missing => user := Missing;
          case Found(a) => user := Found(AdminPrincipal(a.(password := None)));
        }
      case Some(DriverRole) =>
        match FindById(drivers, DriverId, claim) {
          case CastFailed => user := CastFailed;
          case Missing => user := Missing;
          case Found(d) => user := Found(DriverPrincipal(d.(password := None)));
        }
      case Some(UserRole) =>
        match FindById(users, UserId, claim) {
          case CastFailed => user := CastFailed;
          case Missing => user := Missing;
          case Found(u) => user := Found(UserPrincipal(u.(password := None)));
        }
    }
    if user.CastFailed? {
      // the CastError is caught by the handler around the lookup
      req.response := Some(Response(400, BadToken));
      return;
    }
    if user.Missing? {
      req.response := Some(Response(401, NoSubject));
      return;
    }
    req.user := Some(user.doc);
    req.userRole := Some(role);
    req.nextCalls := req.nextCalls + 1;
  }
}
