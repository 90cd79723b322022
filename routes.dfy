/**
 * The six express routers: each an ordered list of registrations
 * (method, path pattern, the role passed to `protect`, if any, and the
 * controller). A request is served by the first registration whose method
 * and pattern match; literal segments match without regard to ASCII case
 * and a `:param` segment matches any non-empty segment. Paths are relative
 * to the router's mount point (/api/bins, /api/users, /api/admins, and
 * /api for complaints, drivers and work).
 */
module Routes {
  import opened Wrappers
  import opened Text
  import opened Collections

  datatype Verb = Get | Post | Put | Delete

  datatype Segment = Lit(text: string) | Param(name: string)

  datatype Handler =
    | GetBin | GetBinsByArea | CreateBin | UpdateBin | DeleteBin
    | UserSignup | UserLogin | UserLogout | GetUser | GetUserByEmail | UpdateUserProfile
    | ForgotPassword | ResetPassword
    | CreateDriver | GetAllDrivers | DriverLogin | DriverLogout | GetDriverByEmail | UpdateDriver | DeleteDriver
    | CreateComplaint | GetAllComplaints | UpdateComplaintStatus
    | AdminSignup | AdminLogin | AdminLogout | GetAdmin
    | CreateWork | GetAllWorks

  /** `role` is the argument given to protect(...), or None for an open route. */
  datatype Registration = Registration(verb: Verb, pattern: seq<Segment>, role: Option<string>, handler: Handler)

  predicate SegmentMatches(p: Segment, s: string) {
    match p
    case Lit(t) => EqualsIgnoreCase(t, s)
    case Param(_) => s != ""
  }

  predicate PatternMatches(pattern: seq<Segment>, path: seq<string>) {
    |pattern| == |path| && forall i :: 0 <= i < |path| ==> SegmentMatches(pattern[i], path[i])
  }

  /** What a request meets: no route (express answers 404), an open
      controller, or a controller behind protect(role). */
  datatype Access = NoRoute | Open(handler: Handler) | Protected(role: string, handler: Handler)

  predicate Serves(r: Registration, verb: Verb, path: seq<string>) {
    r.verb == verb && PatternMatches(r.pattern, path)
  }

  function AccessOf(r: Registration): Access {
    if r.role.Some? then Protected(r.role.value, r.handler) else Open(r.handler)
  }

  /** The first registration that serves the request decides. */
  function Resolve(table: seq<Registration>, verb: Verb, path: seq<string>): Access {
    if table == [] then NoRoute
    else if Serves(table[0], verb, path) then AccessOf(table[0])
    else Resolve(table[1..], verb, path)
  }

  /** Resolve is express's first-match rule: NoRoute when nothing serves the
      request, otherwise the access of the earliest registration that does. */
  lemma {:induction false} ResolveFirstMatch(table: seq<Registration>, verb: Verb, path: seq<string>)
    ensures Resolve(table, verb, path).NoRoute? <==> forall i :: 0 <= i < |table| ==> !Serves(table[i], verb, path)
    ensures match FirstIndex(table, (r: Registration) => Serves(r, verb, path))
            case None => Resolve(table, verb, path) == NoRoute
            case Some(i) => Resolve(table, verb, path) == AccessOf(table[i])
  {
    if table != [] {
      ResolveFirstMatch(table[1..], verb, path);
      assert forall i :: 1 <= i < |table| ==> table[1..][i - 1] == table[i];
    }
  }

  /** Resolve picks registration k when it serves the request and no earlier one does. */
  lemma {:induction false} ResolveAt(table: seq<Registration>, verb: Verb, path: seq<string>, k: nat)
    requires k < |table| && Serves(table[k], verb, path)
    requires forall j :: 0 <= j < k ==> !Serves(table[j], verb, path)
    ensures Resolve(table, verb, path) == AccessOf(table[k])
  {
    if k > 0 {
      assert !Serves(table[0], verb, path);
      ResolveAt(table[1..], verb, path, k - 1);
    }
  }

  /** Whatever Resolve answers is NoRoute or the access of one of the table's registrations. */
  lemma {:induction false} ResolveFromTable(table: seq<Registration>, verb: Verb, path: seq<string>)
    ensures Resolve(table, verb, path).NoRoute? || exists i :: 0 <= i < |table| && Resolve(table, verb, path) == AccessOf(table[i])
  {
    if table != [] && !Serves(table[0], verb, path) {
      ResolveFromTable(table[1..], verb, path);
      if !Resolve(table, verb, path).NoRoute? {
        var i :| 0 <= i < |table| - 1 && Resolve(table[1..], verb, path) == AccessOf(table[1..][i]);
        assert table[1..][i] == table[i + 1];
      }
    }
  }

  /** A registration whose pattern disagrees with the path at one segment does not serve it. */
  lemma SegmentMismatch(r: Registration, verb: Verb, path: seq<string>, i: nat)
    requires i < |path| && i < |r.pattern| && !SegmentMatches(r.pattern[i], path[i])
    ensures !Serves(r, verb, path)
  {
  }

  /** A literal segment does not match a path segment that differs from it,
      ignoring case, at character k. */
  lemma LiteralMismatch(r: Registration, verb: Verb, path: seq<string>, i: nat, k: nat)
    requires i < |path| && i < |r.pattern| && r.pattern[i].Lit?
    requires k < |r.pattern[i].text| && k < |path[i]|
    requires LowerChar(r.pattern[i].text[k]) != LowerChar(path[i][k])
    ensures !Serves(r, verb, path)
  {
    SegmentMismatch(r, verb, path, i);
  }

  /** bin.route.js */
  const BinRoutes: seq<Registration> := [
    Registration(Get, [], None, GetBin),                                    // GET /
    Registration(Get, [Param("area")], Some("driver"), GetBinsByArea),      // GET /:area
    Registration(Post, [Lit("create")], Some("admin"), CreateBin),          // POST /create
    Registration(Put, [Param("id")], Some("admin"), UpdateBin),             // PUT /:id
    Registration(Delete, [Param("id")], Some("admin"), DeleteBin)           // DELETE /:id
  ]

  /** user.route.js */
  const UserRoutes: seq<Registration> := [
    Registration(Post, [Lit("signup")], None, UserSignup),
    Registration(Post, [Lit("login")], None, UserLogin),
    Registration(Post, [Lit("logout")], None, UserLogout),
    Registration(Get, [], Some("admin"), GetUser),
    Registration(Get, [Param("email")], Some("user"), GetUserByEmail),
    Registration(Put, [Param("userId")], Some("user"), UpdateUserProfile),
    Registration(Post, [Lit("forgot-password")], None, ForgotPassword),
    Registration(Post, [Lit("reset-password"), Param("token")], None, ResetPassword)
  ]

  /** driver.route.js */
  const DriverRoutes: seq<Registration> := [
    Registration(Post, [Lit("drivers")], Some("admin"), CreateDriver),
    Registration(Get, [Lit("drivers")], Some("admin"), GetAllDrivers),
    Registration(Post, [Lit("drivers"), Lit("login")], None, DriverLogin),
    Registration(Post, [Lit("drivers"), Lit("logout")], None, DriverLogout),
    Registration(Get, [Lit("drivers"), Lit("email"), Param("email")], Some("driver"), GetDriverByEmail),
    Registration(Put, [Lit("drivers"), Param("id")], Some("admin"), UpdateDriver),
    Registration(Delete, [Lit("drivers"), Param("id")], Some("admin"), DeleteDriver)
  ]

  /** complaint.route.js */
  const ComplaintRoutes: seq<Registration> := [
    Registration(Post, [Lit("complaints")], Some("user"), CreateComplaint),
    Registration(Get, [Lit("complaints")], None, GetAllComplaints),
    Registration(Put, [Lit("complaints"), Param("complaintId")], Some("admin"), UpdateComplaintStatus)
  ]

  /** admin.route.js */
  const AdminRoutes: seq<Registration> := [
    Registration(Post, [Lit("signup")], None, AdminSignup),
    Registration(Post, [Lit("login")], None, AdminLogin),
    Registration(Post, [Lit("logout")], None, AdminLogout),
    Registration(Get, [], Some("admin"), GetAdmin)
  ]

  /** work.route.js */
  const WorkRoutes: seq<Registration> := [
    Registration(Post, [Lit("work")], Some("driver"), CreateWork),
    Registration(Get, [Lit("find")], Some("admin"), GetAllWorks)
  ]

  lemma BinRouteTable(area: string, id: string)
    requires area != "" && id != ""
    ensures Resolve(BinRoutes, Get, []) == Open(GetBin)
    ensures Resolve(BinRoutes, Get, [area]) == Protected("driver", GetBinsByArea)
    ensures Resolve(BinRoutes, Post, ["create"]) == Protected("admin", CreateBin)
    ensures Resolve(BinRoutes, Put, [id]) == Protected("admin", UpdateBin)
    ensures Resolve(BinRoutes, Delete, [id]) == Protected("admin", DeleteBin)
  {
    ResolveAt(BinRoutes, Get, [], 0);
    ResolveAt(BinRoutes, Get, [area], 1);
    ResolveAt(BinRoutes, Post, ["create"], 2);
    ResolveAt(BinRoutes, Put, [id], 3);
    ResolveAt(BinRoutes, Delete, [id], 4);
  }

  /** Account creation and sessions are open user routes. */
  lemma UserSessionRoutes()
    ensures Resolve(UserRoutes, Post, ["signup"]) == Open(UserSignup)
    ensures Resolve(UserRoutes, Post, ["login"]) == Open(UserLogin)
    ensures Resolve(UserRoutes, Post, ["logout"]) == Open(UserLogout)
  {
    ResolveAt(UserRoutes, Post, ["signup"], 0);
    SegmentMismatch(UserRoutes[0], Post, ["login"], 0);
    ResolveAt(UserRoutes, Post, ["login"], 1);
    LiteralMismatch(UserRoutes[0], Post, ["logout"], 0, 0);
    SegmentMismatch(UserRoutes[1], Post, ["logout"], 0);
    ResolveAt(UserRoutes, Post, ["logout"], 2);
  }

  /** So is the password reset, whose token is the last path segment. */
  lemma UserPasswordRoutes(token: string)
    requires token != ""
    ensures Resolve(UserRoutes, Post, ["forgot-password"]) == Open(ForgotPassword)
    ensures Resolve(UserRoutes, Post, ["reset-password", token]) == Open(ResetPassword)
  {
    SegmentMismatch(UserRoutes[0], Post, ["forgot-password"], 0);
    SegmentMismatch(UserRoutes[1], Post, ["forgot-password"], 0);
    SegmentMismatch(UserRoutes[2], Post, ["forgot-password"], 0);
    ResolveAt(UserRoutes, Post, ["forgot-password"], 6);
    ResolveAt(UserRoutes, Post, ["reset-password", token], 7);
  }

  /** The protected user routes: the admin lists users, a user reads and edits profiles. */
  lemma UserProtectedRoutes(email: string, userId: string)
    requires email != "" && userId != ""
    ensures Resolve(UserRoutes, Get, []) == Protected("admin", GetUser)
    ensures Resolve(UserRoutes, Get, [email]) == Protected("user", GetUserByEmail)
    ensures Resolve(UserRoutes, Put, [userId]) == Protected("user", UpdateUserProfile)
  {
    ResolveAt(UserRoutes, Get, [], 3);
    ResolveAt(UserRoutes, Get, [email], 4);
    ResolveAt(UserRoutes, Put, [userId], 5);
  }

  /** Driver sessions are open; the rest of the driver router is protected. */
  lemma DriverSessionRoutes()
    ensures Resolve(DriverRoutes, Post, ["drivers", "login"]) == Open(DriverLogin)
    ensures Resolve(DriverRoutes, Post, ["drivers", "logout"]) == Open(DriverLogout)
  {
    ResolveAt(DriverRoutes, Post, ["drivers", "login"], 2);
    SegmentMismatch(DriverRoutes[2], Post, ["drivers", "logout"], 1);
    ResolveAt(DriverRoutes, Post, ["drivers", "logout"], 3);
  }

  /** Only the admin manages drivers; a driver may look drivers up by email. */
  lemma DriverProtectedRoutes(email: string, id: string)
    requires email != "" && id != ""
    ensures Resolve(DriverRoutes, Post, ["drivers"]) == Protected("admin", CreateDriver)
    ensures Resolve(DriverRoutes, Get, ["drivers"]) == Protected("admin", GetAllDrivers)
    ensures Resolve(DriverRoutes, Get, ["drivers", "email", email]) == Protected("driver", GetDriverByEmail)
    ensures Resolve(DriverRoutes, Put, ["drivers", id]) == Protected("admin", UpdateDriver)
    ensures Resolve(DriverRoutes, Delete, ["drivers", id]) == Protected("admin", DeleteDriver)
  {
    ResolveAt(DriverRoutes, Post, ["drivers"], 0);
    ResolveAt(DriverRoutes, Get, ["drivers"], 1);
    ResolveAt(DriverRoutes, Get, ["drivers", "email", email], 4);
    ResolveAt(DriverRoutes, Put, ["drivers", id], 5);
    ResolveAt(DriverRoutes, Delete, ["drivers", id], 6);
  }

  lemma ComplaintRouteTable(complaintId: string)
    requires complaintId != ""
    ensures Resolve(ComplaintRoutes, Post, ["complaints"]) == Protected("user", CreateComplaint)
    ensures Resolve(ComplaintRoutes, Get, ["complaints"]) == Open(GetAllComplaints)
    ensures Resolve(ComplaintRoutes, Put, ["complaints", complaintId]) == Protected("admin", UpdateComplaintStatus)
  {
    ResolveAt(ComplaintRoutes, Post, ["complaints"], 0);
    ResolveAt(ComplaintRoutes, Get, ["complaints"], 1);
    ResolveAt(ComplaintRoutes, Put, ["complaints", complaintId], 2);
  }

  lemma AdminRouteTable()
    ensures Resolve(AdminRoutes, Post, ["signup"]) == Open(AdminSignup)
    ensures Resolve(AdminRoutes, Post, ["login"]) == Open(AdminLogin)
    ensures Resolve(AdminRoutes, Post, ["logout"]) == Open(AdminLogout)
    ensures Resolve(AdminRoutes, Get, []) == Protected("admin", GetAdmin)
  {
    ResolveAt(AdminRoutes, Post, ["signup"], 0);
    SegmentMismatch(AdminRoutes[0], Post, ["login"], 0);
    ResolveAt(AdminRoutes, Post, ["login"], 1);
    LiteralMismatch(AdminRoutes[0], Post, ["logout"], 0, 0);
    SegmentMismatch(AdminRoutes[1], Post, ["logout"], 0);
    ResolveAt(AdminRoutes, Post, ["logout"], 2);
    ResolveAt(AdminRoutes, Get, [], 3);
  }

  /** Every request the work router serves goes through protect: "driver"
      for submitting work, "admin" for listing it. */
  lemma WorkRouteTable(verb: Verb, path: seq<string>)
    ensures Resolve(WorkRoutes, Post, ["work"]) == Protected("driver", CreateWork)
    ensures Resolve(WorkRoutes, Get, ["find"]) == Protected("admin", GetAllWorks)
    ensures !Resolve(WorkRoutes, verb, path).Open?
  {
    ResolveAt(WorkRoutes, Post, ["work"], 0);
    ResolveAt(WorkRoutes, Get, ["find"], 1);
    ResolveFromTable(WorkRoutes, verb, path);
  }
}
