/**
 * The database and the controllers that act on it. The six collections are
 * sequences in natural order; each controller is a method that answers a
 * request and updates the collections as the source's mongoose calls do.
 * `Valid` is what the unique indexes and the schemas guarantee of the
 * stored documents, and every controller preserves it.
 */
module Store {
  import opened Wrappers
  import opened Text
  import opened Collections
  import opened Credentials
  import opened Http
  import opened Models
  import opened Geocoding
  import opened Calendar
  import opened Documents
  import Guard

  // ---------------------------------------------------------------- messages

  const ShortPassword := "Password must be at least 6 characters long"
  const AccountInUse := "This email or mobile number is already in use."
  const NoAccount := "No account found with this email."
  const WrongPassword := "Incorrect password. Please try again."
  const LoginOk := "Login successful! You are now logged in."
  const TryLater := "Internal server error. Please try again later."

  // ---------------------------------------------------------------- invariants

  /** The whole database, as one value. */
  datatype State = State(admins: seq<Admin>, drivers: seq<Driver>, users: seq<User>,
                         bins: seq<Bin>, complaints: seq<Complaint>, works: seq<Work>)

  /** No document of the collection has this `_id` yet. */
  predicate Unused<T>(s: seq<T>, key: T -> ObjectId, id: ObjectId) {
    forall i :: 0 <= i < |s| ==> key(s[i]) != id
  }

  /** Unique `_id`, email and mobile, and documents that passed validation. */
  ghost predicate AdminsConsistent(admins: seq<Admin>) {
    && Distinct(admins, AdminId) && Distinct(admins, AdminEmail) && Distinct(admins, AdminMobile)
    && forall i :: 0 <= i < |admins| ==> AdminValid(admins[i])
  }

  ghost predicate UsersConsistent(users: seq<User>) {
    && Distinct(users, UserId) && Distinct(users, UserEmail) && Distinct(users, UserMobile)
    && forall i :: 0 <= i < |users| ==> UserValid(users[i])
  }

  /** Drivers are updated without validators, so only the unique indexes hold. */
  ghost predicate DriversConsistent(drivers: seq<Driver>) {
    Distinct(drivers, DriverId) && Distinct(drivers, DriverEmail) && Distinct(drivers, DriverMobile)
    && Distinct(drivers, DriverBusinessId)
  }

  /** Bins are updated without validators too, but an update always sends a
      locality and a city, so those stay non-empty. */
  ghost predicate BinsConsistent(bins: seq<Bin>) {
    && Distinct(bins, BinId)
    && forall i :: 0 <= i < |bins| ==> bins[i].locality != "" && bins[i].city != ""
  }

  ghost predicate ComplaintsConsistent(complaints: seq<Complaint>) {
    && Distinct(complaints, ComplaintId)
    && forall i :: 0 <= i < |complaints| ==> ComplaintValid(complaints[i]) && IsLower(complaints[i].userEmail)
  }

  /** One entry per driver email (the unique index) and one per area (what createWork checks). */
  ghost predicate WorksConsistent(works: seq<Work>) {
    && Distinct(works, WorkId) && Distinct(works, WorkEmail) && Distinct(works, WorkArea)
    && forall i :: 0 <= i < |works| ==> WorkValid(works[i])
  }

  ghost predicate Consistent(s: State) {
    && AdminsConsistent(s.admins) && UsersConsistent(s.users) && DriversConsistent(s.drivers)
    && BinsConsistent(s.bins) && ComplaintsConsistent(s.complaints) && WorksConsistent(s.works)
  }

  /** Whether a document holding this email or this mobile exists (the
      `$or: [{ email }, { mobile }]` filter). */
  predicate AdminTaken(admins: seq<Admin>, email: string, mobile: string) {
    exists i :: 0 <= i < |admins| && (admins[i].email == email || admins[i].mobile == mobile)
  }

  predicate UserTaken(users: seq<User>, email: string, mobile: string) {
    exists i :: 0 <= i < |users| && (users[i].email == email || users[i].mobile == mobile)
  }

  predicate DriverTaken(drivers: seq<Driver>, email: string, mobile: string) {
    exists i :: 0 <= i < |drivers| && (drivers[i].email == email || drivers[i].mobile == mobile)
  }

  // ---------------------------------------------------------------- how each write keeps the invariant

  /** signup's checks are exactly what the admin collection needs to stay consistent. */
  lemma AdminsAppend(admins: seq<Admin>, a: Admin)
    requires AdminsConsistent(admins) && Unused(admins, AdminId, a.id)
    ensures AdminsConsistent(admins + [a]) <==> AdminValid(a) && !AdminTaken(admins, a.email, a.mobile)
  {
    var t := admins + [a];
    assert forall i :: 0 <= i < |admins| ==> t[i] == admins[i];
    if AdminValid(a) && !AdminTaken(admins, a.email, a.mobile) {
      DistinctAppendFresh(admins, a, AdminId);
      DistinctAppendFresh(admins, a, AdminEmail);
      DistinctAppendFresh(admins, a, AdminMobile);
    }
    assert t[|admins|] == a;
    if AdminTaken(admins, a.email, a.mobile) {
      var i :| 0 <= i < |admins| && (admins[i].email == a.email || admins[i].mobile == a.mobile);
      assert AdminEmail(t[i]) == AdminEmail(t[|admins|]) || AdminMobile(t[i]) == AdminMobile(t[|admins|]);
    }
  }

  lemma UsersAppend(users: seq<User>, u: User)
    requires UsersConsistent(users) && Unused(users, UserId, u.id)
    ensures UsersConsistent(users + [u]) <==> UserValid(u) && !UserTaken(users, u.email, u.mobile)
  {
    var t := users + [u];
    assert forall i :: 0 <= i < |users| ==> t[i] == users[i];
    if UserValid(u) && !UserTaken(users, u.email, u.mobile) {
      DistinctAppendFresh(users, u, UserId);
      DistinctAppendFresh(users, u, UserEmail);
      DistinctAppendFresh(users, u, UserMobile);
    }
    assert t[|users|] == u;
    if UserTaken(users, u.email, u.mobile) {
      var i :| 0 <= i < |users| && (users[i].email == u.email || users[i].mobile == u.mobile);
      assert UserEmail(t[i]) == UserEmail(t[|users|]) || UserMobile(t[i]) == UserMobile(t[|users|]);
    }
  }

  /** updateUserProfile's conflict filter: `{ $or: [{ email }, { mobile }], _id: { $ne: userId } }`. */
  predicate UserTakenByOther(users: seq<User>, id: ObjectId, email: string, mobile: string) {
    exists j :: 0 <= j < |users| && users[j].id != id && (users[j].email == email || users[j].mobile == mobile)
  }

  /** At most one user holds an `_id`. */
  lemma UserIdUnique(users: seq<User>, k: nat)
    requires UsersConsistent(users) && k < |users|
    ensures forall i :: 0 <= i < |users| && users[i].id == users[k].id ==> i == k
  {
    forall i | 0 <= i < |users| && users[i].id == users[k].id ensures i == k {
      assert i < k ==> UserId(users[i]) != UserId(users[k]);
      assert k < i ==> UserId(users[k]) != UserId(users[i]);
    }
  }

  /** Replacing a user by a valid document with the same `_id` and keys that
      no other user holds keeps the collection consistent. */
  lemma UsersUpdate(users: seq<User>, k: nat, u: User)
    requires UsersConsistent(users) && k < |users| && u.id == users[k].id && UserValid(u)
    requires forall j :: 0 <= j < |users| && j != k ==> users[j].email != u.email && users[j].mobile != u.mobile
    ensures UsersConsistent(users[k := u])
  {
    forall j | 0 <= j < |users| && j != k ensures users[j].id != u.id {
      if j < k { assert UserId(users[j]) != UserId(users[k]); } else { assert UserId(users[k]) != UserId(users[j]); }
    }
    DistinctUpdate(users, k, u, UserId);
    DistinctUpdate(users, k, u, UserEmail);
    DistinctUpdate(users, k, u, UserMobile);
  }

  /** A write that leaves `_id`, email and mobile alone (the reset-token
      fields, the password) keeps the collection consistent. */
  lemma UsersRefresh(users: seq<User>, k: nat, u: User)
    requires UsersConsistent(users) && k < |users| && UserValid(u)
    requires u.id == users[k].id && u.email == users[k].email && u.mobile == users[k].mobile
    ensures UsersConsistent(users[k := u])
  {
    forall j | 0 <= j < |users| && j != k ensures users[j].email != u.email && users[j].mobile != u.mobile {
      if j < k {
        assert UserEmail(users[j]) != UserEmail(users[k]) && UserMobile(users[j]) != UserMobile(users[k]);
      } else {
        assert UserEmail(users[k]) != UserEmail(users[j]) && UserMobile(users[k]) != UserMobile(users[j]);
      }
    }
    UsersUpdate(users, k, u);
  }

  /** updateUserProfile's conflict check is what keeps emails and mobiles
      unique: once no other user holds the sent email or mobile, the
      updated collection is consistent exactly when the document validates. */
  lemma UsersProfileUpdate(users: seq<User>, k: nat, f: ProfileForm)
    requires UsersConsistent(users) && k < |users|
    requires !UserTakenByOther(users, users[k].id, f.email, f.mobile)
    ensures UsersConsistent(users[k := ApplyProfile(users[k], f)]) <==> UserValid(ApplyProfile(users[k], f))
  {
    var u := ApplyProfile(users[k], f);
    if UserValid(u) {
      forall j | 0 <= j < |users| && j != k ensures users[j].email != u.email && users[j].mobile != u.mobile {
        if j < k {
          assert UserId(users[j]) != UserId(users[k]);
          assert UserEmail(users[j]) != UserEmail(users[k]) && UserMobile(users[j]) != UserMobile(users[k]);
        } else {
          assert UserId(users[k]) != UserId(users[j]);
          assert UserEmail(users[k]) != UserEmail(users[j]) && UserMobile(users[k]) != UserMobile(users[j]);
        }
      }
      UsersUpdate(users, k, u);
    }
    assert users[k := u][k] == u;
  }

  /** A driver document holding this business id (the unique index on `id`). */
  predicate BusinessIdTaken(drivers: seq<Driver>, businessId: string) {
    exists i :: 0 <= i < |drivers| && drivers[i].businessId == businessId
  }

  /** createDriver's check covers email and mobile; the business id is left
      to the unique index. Together they are what the collection needs. */
  lemma DriversAppend(drivers: seq<Driver>, d: Driver)
    requires DriversConsistent(drivers) && Unused(drivers, DriverId, d.id)
    ensures DriversConsistent(drivers + [d])
        <==> !DriverTaken(drivers, d.email, d.mobile) && !BusinessIdTaken(drivers, d.businessId)
  {
    var t := drivers + [d];
    assert forall i :: 0 <= i < |drivers| ==> t[i] == drivers[i];
    if !DriverTaken(drivers, d.email, d.mobile) && !BusinessIdTaken(drivers, d.businessId) {
      DistinctAppendFresh(drivers, d, DriverId);
      DistinctAppendFresh(drivers, d, DriverEmail);
      DistinctAppendFresh(drivers, d, DriverMobile);
      DistinctAppendFresh(drivers, d, DriverBusinessId);
    }
    assert t[|drivers|] == d;
    if DriverTaken(drivers, d.email, d.mobile) {
      var i :| 0 <= i < |drivers| && (drivers[i].email == d.email || drivers[i].mobile == d.mobile);
      assert DriverEmail(t[i]) == DriverEmail(t[|drivers|]) || DriverMobile(t[i]) == DriverMobile(t[|drivers|]);
    }
    if BusinessIdTaken(drivers, d.businessId) {
      var i :| 0 <= i < |drivers| && drivers[i].businessId == d.businessId;
      assert DriverBusinessId(t[i]) == DriverBusinessId(t[|drivers|]);
    }
  }

  /** Another driver already holds one of this document's unique keys. */
  predicate DriverClash(drivers: seq<Driver>, k: nat, d: Driver) {
    exists j :: 0 <= j < |drivers| && j != k
      && (drivers[j].email == d.email || drivers[j].mobile == d.mobile || drivers[j].businessId == d.businessId)
  }

  /** findOneAndUpdate keeps the unique indexes exactly when the updated
      document clashes with no other driver; otherwise the index refuses it. */
  lemma DriversUpdate(drivers: seq<Driver>, k: nat, d: Driver)
    requires DriversConsistent(drivers) && k < |drivers| && d.id == drivers[k].id
    ensures DriversConsistent(drivers[k := d]) <==> !DriverClash(drivers, k, d)
  {
    var t := drivers[k := d];
    if !DriverClash(drivers, k, d) {
      forall j | 0 <= j < |drivers| && j != k ensures drivers[j].id != d.id {
        if j < k { assert DriverId(drivers[j]) != DriverId(drivers[k]); }
        else { assert DriverId(drivers[k]) != DriverId(drivers[j]); }
      }
      DistinctUpdate(drivers, k, d, DriverId);
      DistinctUpdate(drivers, k, d, DriverEmail);
      DistinctUpdate(drivers, k, d, DriverMobile);
      DistinctUpdate(drivers, k, d, DriverBusinessId);
    } else {
      var j :| 0 <= j < |drivers| && j != k
        && (drivers[j].email == d.email || drivers[j].mobile == d.mobile || drivers[j].businessId == d.businessId);
      assert t[j] == drivers[j] && t[k] == d;
      if j < k {
        assert DriverEmail(t[j]) == DriverEmail(t[k]) || DriverMobile(t[j]) == DriverMobile(t[k])
            || DriverBusinessId(t[j]) == DriverBusinessId(t[k]);
      } else {
        assert DriverEmail(t[k]) == DriverEmail(t[j]) || DriverMobile(t[k]) == DriverMobile(t[j])
            || DriverBusinessId(t[k]) == DriverBusinessId(t[j]);
      }
    }
  }

  lemma DriversRemove(drivers: seq<Driver>, k: nat)
    requires DriversConsistent(drivers) && k < |drivers|
    ensures DriversConsistent(RemoveAt(drivers, k))
  {
    DistinctRemoveAt(drivers, k, DriverId);
    DistinctRemoveAt(drivers, k, DriverEmail);
    DistinctRemoveAt(drivers, k, DriverMobile);
    DistinctRemoveAt(drivers, k, DriverBusinessId);
  }

  /** A selector reaches at most one driver: `_id` and the business id are both unique. */
  lemma SelectsUnique(drivers: seq<Driver>, sel: Selector, k: nat)
    requires DriversConsistent(drivers) && k < |drivers| && Selects(sel, drivers[k])
    ensures forall i :: 0 <= i < |drivers| && Selects(sel, drivers[i]) ==> i == k
  {
    forall i | 0 <= i < |drivers| && Selects(sel, drivers[i]) ensures i == k {
      if sel.ByObjectId? {
        assert i < k ==> DriverId(drivers[i]) != DriverId(drivers[k]);
        assert k < i ==> DriverId(drivers[k]) != DriverId(drivers[i]);
      } else {
        assert i < k ==> DriverBusinessId(drivers[i]) != DriverBusinessId(drivers[k]);
        assert k < i ==> DriverBusinessId(drivers[k]) != DriverBusinessId(drivers[i]);
      }
    }
  }

  /** updateBin's `!locality || !city` test, negated. */
  predicate AddressGiven(p: BinPatch) {
    p.locality.Some? && p.locality.value != "" && p.city.Some? && p.city.value != ""
  }

  /** A new bin keeps the collection consistent exactly when it has a locality and a city. */
  lemma BinsAppend(bins: seq<Bin>, b: Bin)
    requires BinsConsistent(bins) && Unused(bins, BinId, b.id)
    ensures BinsConsistent(bins + [b]) <==> b.locality != "" && b.city != ""
  {
    var t := bins + [b];
    assert forall i :: 0 <= i < |bins| ==> t[i] == bins[i];
    assert t[|bins|] == b;
    if b.locality != "" && b.city != "" {
      DistinctAppendFresh(bins, b, BinId);
    }
  }

  /** Rewriting a bin under its own `_id` keeps the collection consistent
      exactly when the new document has a locality and a city. */
  lemma BinsUpdate(bins: seq<Bin>, k: nat, b: Bin)
    requires BinsConsistent(bins) && k < |bins| && b.id == bins[k].id
    ensures BinsConsistent(bins[k := b]) <==> b.locality != "" && b.city != ""
  {
    assert bins[k := b][k] == b;
    if b.locality != "" && b.city != "" {
      forall j | 0 <= j < |bins| && j != k ensures bins[j].id != b.id {
        assert j < k ==> BinId(bins[j]) != BinId(bins[k]);
        assert k < j ==> BinId(bins[k]) != BinId(bins[j]);
      }
      DistinctUpdate(bins, k, b, BinId);
    }
  }

  lemma BinsRemove(bins: seq<Bin>, k: nat)
    requires BinsConsistent(bins) && k < |bins|
    ensures BinsConsistent(RemoveAt(bins, k))
  {
    DistinctRemoveAt(bins, k, BinId);
  }

  /** At most one bin holds an `_id`. */
  lemma BinIdUnique(bins: seq<Bin>, k: nat)
    requires BinsConsistent(bins) && k < |bins|
    ensures forall i :: 0 <= i < |bins| && bins[i].id == bins[k].id ==> i == k
  {
    forall i | 0 <= i < |bins| && bins[i].id == bins[k].id ensures i == k {
      assert i < k ==> BinId(bins[i]) != BinId(bins[k]);
      assert k < i ==> BinId(bins[k]) != BinId(bins[i]);
    }
  }

  /** A new complaint keeps the collection consistent exactly when it
      validates and its email is lower-case (which the setter ensures). */
  lemma ComplaintsAppend(complaints: seq<Complaint>, c: Complaint)
    requires ComplaintsConsistent(complaints) && Unused(complaints, ComplaintId, c.id)
    ensures ComplaintsConsistent(complaints + [c]) <==> ComplaintValid(c) && IsLower(c.userEmail)
  {
    var t := complaints + [c];
    assert forall i :: 0 <= i < |complaints| ==> t[i] == complaints[i];
    assert t[|complaints|] == c;
    if ComplaintValid(c) && IsLower(c.userEmail) {
      DistinctAppendFresh(complaints, c, ComplaintId);
    }
  }

  /** Changing a complaint's status keeps the collection consistent. */
  lemma ComplaintsSetStatus(complaints: seq<Complaint>, k: nat, status: ComplaintStatus)
    requires ComplaintsConsistent(complaints) && k < |complaints|
    ensures ComplaintsConsistent(complaints[k := complaints[k].(status := status)])
  {
    var c := complaints[k].(status := status);
    forall j | 0 <= j < |complaints| && j != k ensures complaints[j].id != c.id {
      assert j < k ==> ComplaintId(complaints[j]) != ComplaintId(complaints[k]);
      assert k < j ==> ComplaintId(complaints[k]) != ComplaintId(complaints[j]);
    }
    DistinctUpdate(complaints, k, c, ComplaintId);
  }

  /** At most one complaint holds an `_id`. */
  lemma ComplaintIdUnique(complaints: seq<Complaint>, k: nat)
    requires ComplaintsConsistent(complaints) && k < |complaints|
    ensures forall i :: 0 <= i < |complaints| && complaints[i].id == complaints[k].id ==> i == k
  {
    forall i | 0 <= i < |complaints| && complaints[i].id == complaints[k].id ensures i == k {
      assert i < k ==> ComplaintId(complaints[i]) != ComplaintId(complaints[k]);
      assert k < i ==> ComplaintId(complaints[k]) != ComplaintId(complaints[i]);
    }
  }

  /** createWork's `findOne({ area })`. */
  predicate WorkAreaTaken(works: seq<Work>, area: string) {
    exists i :: 0 <= i < |works| && works[i].area == area
  }

  /** The unique index on the work email. */
  predicate WorkEmailTaken(works: seq<Work>, email: string) {
    exists i :: 0 <= i < |works| && works[i].email == email
  }

  /** createWork's area check and the email index are what the work
      collection needs to stay consistent. */
  lemma WorksAppend(works: seq<Work>, w: Work)
    requires WorksConsistent(works) && Unused(works, WorkId, w.id)
    ensures WorksConsistent(works + [w])
        <==> WorkValid(w) && !WorkAreaTaken(works, w.area) && !WorkEmailTaken(works, w.email)
  {
    var t := works + [w];
    assert forall i :: 0 <= i < |works| ==> t[i] == works[i];
    assert t[|works|] == w;
    if WorkValid(w) && !WorkAreaTaken(works, w.area) && !WorkEmailTaken(works, w.email) {
      DistinctAppendFresh(works, w, WorkId);
      DistinctAppendFresh(works, w, WorkEmail);
      DistinctAppendFresh(works, w, WorkArea);
    }
    if WorkAreaTaken(works, w.area) {
      var i :| 0 <= i < |works| && works[i].area == w.area;
      assert WorkArea(t[i]) == WorkArea(t[|works|]);
    }
    if WorkEmailTaken(works, w.email) {
      var i :| 0 <= i < |works| && works[i].email == w.email;
      assert WorkEmail(t[i]) == WorkEmail(t[|works|]);
    }
  }

  /** The daily purge only removes documents, so the collection stays consistent. */
  lemma WorksPurge(works: seq<Work>, today: Date)
    requires WorksConsistent(works) && ValidDate(today)
    ensures WorksConsistent(Purge(works, today))
  {
    var p := DatedOtherThan(PurgeDate(today));
    DistinctFilter(works, p, WorkId);
    DistinctFilter(works, p, WorkEmail);
    DistinctFilter(works, p, WorkArea);
    var r := Purge(works, today);
    forall i | 0 <= i < |r| ensures WorkValid(r[i]) {
      assert r[i] in works;
    }
  }

  class Database {
    var admins: seq<Admin>
    var drivers: seq<Driver>
    var users: seq<User>
    var bins: seq<Bin>
    var complaints: seq<Complaint>
    var works: seq<Work>

    ghost function Snapshot(): State
      reads this
    {
      State(admins, drivers, users, bins, complaints, works)
    }

    ghost predicate Valid()
      reads this
    {
      Consistent(Snapshot())
    }

    constructor()
      ensures Valid()
      ensures Snapshot() == State([], [], [], [], [], [])
    {
      admins, drivers, users := [], [], [];
      bins, complaints, works := [], [], [];
    }

    // -------------------------------------------------------------- admins

    /** admin signup: a short password or a taken email or mobile is refused
        with 400 and nothing stored; a document that fails validation gives
        500; otherwise the admin is stored with the hash of the password, a
        token is issued for it, and the reply carries no password. */
    method AdminSignup(form: SignupForm, id: ObjectId) returns (r: Reply<Profile>, cookie: CookieEffect)
      requires Valid() && Unused(admins, AdminId, id)
      modifies this
      ensures Valid()
      ensures Snapshot() == old(Snapshot()).(admins := admins)
      ensures |form.password| < 6 ==> r == Reply(400, ShortPassword, None)
      ensures |form.password| >= 6 && AdminTaken(old(admins), form.email, form.mobile) ==> r == Reply(400, AccountInUse, None)
      ensures r.status == 201 <==> |form.password| >= 6 && !AdminTaken(old(admins), form.email, form.mobile)
                                   && AdminValid(NewAdmin(id, form.name, form.email, Hash(form.password), form.mobile, form.city))
      ensures r.status == 201 ==>
        var a := NewAdmin(id, form.name, form.email, Hash(form.password), form.mobile, form.city);
        && admins == old(admins) + [a] && cookie == IssueJwt(id)
        && r == Reply(201, "Admin account created successfully.", Some(AdminProfile(a)))
      ensures r.status == 400 <==> |form.password| < 6 || AdminTaken(old(admins), form.email, form.mobile)
      ensures r.status != 201 ==> admins == old(admins) && cookie == KeepCookie && (r.status == 400 || r == Reply(500, TryLater, None))
    {
      cookie := KeepCookie;
      if |form.password| < 6 {
        return Reply(400, ShortPassword, None), cookie;
      }
      if AdminTaken(admins, form.email, form.mobile) {
        return Reply(400, AccountInUse, None), cookie;
      }
      var a := NewAdmin(id, form.name, form.email, Hash(form.password), form.mobile, form.city);
      if !AdminValid(a) {
        return Reply(500, TryLater, None), cookie;
      }
      AdminsAppend(admins, a);
      admins := admins + [a];
      cookie := IssueJwt(id);
      r := Reply(201, "Admin account created successfully.", Some(AdminProfile(a)));
    }

    /** admin login: 400 for an unknown email, 400 for a wrong password, and
        only a matching password issues a token, for that admin's `_id`. */
    method AdminLogin(form: LoginForm) returns (r: Reply<Session>, cookie: CookieEffect)
      requires Valid()
      ensures r == Reply(400, NoAccount, None) <==> forall i :: 0 <= i < |admins| ==> admins[i].email != form.email
      ensures r.status == 200 <==> exists i :: 0 <= i < |admins| && admins[i].email == form.email && Compare(form.password, admins[i].password)
      ensures r.status == 200 ==> exists i :: 0 <= i < |admins| && admins[i].email == form.email
                                    && r == Reply(200, LoginOk, Some(AdminSession(admins[i]))) && cookie == IssueJwt(admins[i].id)
      ensures r.status != 200 ==> r.status == 400 && r.body.None? && cookie == KeepCookie
      ensures r == Reply(400, WrongPassword, None) <==> exists i :: 0 <= i < |admins| && admins[i].email == form.email && !Compare(form.password, admins[i].password)
    {
      match FirstIndex(admins, (a: Admin) => a.email == form.email) {
        case None =>
          r, cookie := Reply(400, NoAccount, None), KeepCookie;
        case Some(k) =>
          assert forall i :: 0 <= i < |admins| && admins[i].email == form.email ==> i == k;
          if !Compare(form.password, admins[k].password) {
            r, cookie := Reply(400, WrongPassword, None), KeepCookie;
          } else {
            r, cookie := Reply(200, LoginOk, Some(AdminSession(admins[k]))), IssueJwt(admins[k].id);
          }
      }
    }

    /** getAdmin: every admin document, as stored. */
    method GetAdmins() returns (r: Reply<seq<Admin>>)
      ensures r == Reply(200, "", Some(admins))
    {
      r := Reply(200, "", Some(admins));
    }
    // -------------------------------------------------------------- users

    /** user signup: the admin rules, for the user collection. */
    method UserSignup(form: SignupForm, id: ObjectId) returns (r: Reply<Profile>, cookie: CookieEffect)
      requires Valid() && Unused(users, UserId, id)
      modifies this
      ensures Valid()
      ensures Snapshot() == old(Snapshot()).(users := users)
      ensures |form.password| < 6 ==> r == Reply(400, ShortPassword, None)
      ensures |form.password| >= 6 && UserTaken(old(users), form.email, form.mobile) ==> r == Reply(400, AccountInUse, None)
      ensures r.status == 201 <==> |form.password| >= 6 && !UserTaken(old(users), form.email, form.mobile)
                                   && UserValid(NewUser(id, form.name, form.email, Hash(form.password), form.mobile, form.city))
      ensures r.status == 201 ==>
        var u := NewUser(id, form.name, form.email, Hash(form.password), form.mobile, form.city);
        && users == old(users) + [u] && cookie == IssueJwt(id)
        && r == Reply(201, "User account created successfully.", Some(UserProfile(u)))
      ensures r.status == 400 <==> |form.password| < 6 || UserTaken(old(users), form.email, form.mobile)
      ensures r.status != 201 ==> users == old(users) && cookie == KeepCookie && (r.status == 400 || r == Reply(500, TryLater, None))
    {
      cookie := KeepCookie;
      if |form.password| < 6 {
        return Reply(400, ShortPassword, None), cookie;
      }
      if UserTaken(users, form.email, form.mobile) {
        return Reply(400, AccountInUse, None), cookie;
      }
      var u := NewUser(id, form.name, form.email, Hash(form.password), form.mobile, form.city);
      if !UserValid(u) {
        return Reply(500, TryLater, None), cookie;
      }
      UsersAppend(users, u);
      users := users + [u];
      cookie := IssueJwt(id);
      r := Reply(201, "User account created successfully.", Some(UserProfile(u)));
    }

    /** user login: the admin rules, for the user collection. */
    method UserLogin(form: LoginForm) returns (r: Reply<Session>, cookie: CookieEffect)
      requires Valid()
      ensures r == Reply(400, NoAccount, None) <==> forall i :: 0 <= i < |users| ==> users[i].email != form.email
      ensures r.status == 200 <==> exists i :: 0 <= i < |users| && users[i].email == form.email && Compare(form.password, users[i].password)
      ensures r.status == 200 ==> exists i :: 0 <= i < |users| && users[i].email == form.email
                                    && r == Reply(200, LoginOk, Some(UserSession(users[i]))) && cookie == IssueJwt(users[i].id)
      ensures r.status != 200 ==> r.status == 400 && r.body.None? && cookie == KeepCookie
      ensures r == Reply(400, WrongPassword, None) <==> exists i :: 0 <= i < |users| && users[i].email == form.email && !Compare(form.password, users[i].password)
    {
      match FirstIndex(users, (u: User) => u.email == form.email) {
        case None =>
          r, cookie := Reply(400, NoAccount, None), KeepCookie;
        case Some(k) =>
          assert forall i :: 0 <= i < |users| && users[i].email == form.email ==> i == k;
          if !Compare(form.password, users[k].password) {
            r, cookie := Reply(400, WrongPassword, None), KeepCookie;
          } else {
            r, cookie := Reply(200, LoginOk, Some(UserSession(users[k]))), IssueJwt(users[k].id);
          }
      }
    }

    /** getUser: every user document, as stored. */
    method GetUsers() returns (r: Reply<seq<User>>)
      ensures r == Reply(200, "", Some(users))
    {
      r := Reply(200, "", Some(users));
    }

    /** getUserByEmail: the profile of the user with exactly this email, or 404. */
    method GetUserByEmail(email: string) returns (r: Reply<Profile>)
      requires Valid()
      ensures r.status == 404 <==> forall i :: 0 <= i < |users| ==> users[i].email != email
      ensures r.status == 404 ==> r == Reply(404, "User not found", None)
      ensures r.status != 404 ==> r.status == 200 && exists i :: 0 <= i < |users| && users[i].email == email
                                                        && r == Reply(200, "", Some(UserProfile(users[i])))
    {
      match FirstIndex(users, (u: User) => u.email == email) {
        case None => r := Reply(404, "User not found", None);
        case Some(k) => r := Reply(200, "", Some(UserProfile(users[k])));
      }
    }

    /** updateUserProfile: the user is the one protect('user') attached to
        the request (the `:userId` path parameter is not read). An email or
        mobile held by another user is refused with 400; non-empty fields
        replace the stored ones; a document that fails validation gives 500;
        the reply is the whole saved document. */
    method UpdateUserProfile(req: Guard.Request, form: ProfileForm) returns (r: Reply<User>)
      requires Valid() && req.user.Some?
      modifies this
      ensures Valid()
      ensures Snapshot() == old(Snapshot()).(users := users)
      ensures var uid := Guard.PrincipalId(req.user.value);
        && (r.status == 404 <==> forall i :: 0 <= i < |old(users)| ==> old(users)[i].id != uid)
        && (r.status == 400 <==> (exists i :: 0 <= i < |old(users)| && old(users)[i].id == uid)
                                 && UserTakenByOther(old(users), uid, form.email, form.mobile))
        && (r.status == 200 <==> (exists k :: 0 <= k < |old(users)| && old(users)[k].id == uid
                                              && !UserTakenByOther(old(users), uid, form.email, form.mobile)
                                              && UserValid(ApplyProfile(old(users)[k], form))))
        && (r.status == 200 ==> (exists k :: 0 <= k < |old(users)| && old(users)[k].id == uid
                                             && users == old(users)[k := ApplyProfile(old(users)[k], form)]
                                             && r == Reply(200, "", Some(users[k]))))
      ensures r.status == 404 ==> r.message == "User not found"
      ensures r.status == 400 ==> r.message == "Email or mobile number is already registered"
      ensures r.status != 200 ==> users == old(users) && r.body.None?
                                  && (r.status == 404 || r.status == 400 || r == Reply(500, "Error updating user profile", None))
    {
      var uid := Guard.PrincipalId(req.user.value);
      match FirstIndex(users, (u: User) => u.id == uid) {
        case None =>
          r := Reply(404, "User not found", None);
        case Some(k) =>
          UserIdUnique(users, k);
          if UserTakenByOther(users, uid, form.email, form.mobile) {
            return Reply(400, "Email or mobile number is already registered", None);
          }
          var u := ApplyProfile(users[k], form);
          if !UserValid(u) {
            return Reply(500, "Error updating user profile", None);
          }
          UsersProfileUpdate(users, k, form);
          users := users[k := u];
          r := Reply(200, "", Some(u));
      }
    }

    /** forgotPassword: an unknown email is refused with 400; otherwise the
        user gets a fresh token (the random bytes are a parameter) that
        expires an hour after `now` (Date.now()). The mail is not modelled. */
    method ForgotPassword(email: string, token: string, now: int) returns (r: Reply<()>)
      requires Valid()
      modifies this
      ensures Valid()
      ensures Snapshot() == old(Snapshot()).(users := users)
      ensures r.status == 400 <==> forall i :: 0 <= i < |old(users)| ==> old(users)[i].email != email
      ensures r.status == 400 ==> r == Reply(400, "User not found", None) && users == old(users)
      ensures r.status != 400 ==> exists k :: 0 <= k < |old(users)| && old(users)[k].email == email
                                    && users == old(users)[k := IssueResetToken(old(users)[k], token, now)]
                                    && r == Reply(200, "Password reset link sent to your email", None)
    {
      match FirstIndex(users, (u: User) => u.email == email) {
        case None =>
          r := Reply(400, "User not found", None);
        case Some(k) =>
          var u := IssueResetToken(users[k], token, now);
          UsersRefresh(users, k, u);
          users := users[k := u];
          r := Reply(200, "Password reset link sent to your email", None);
      }
    }

    /** resetPassword: the first user holding this token unexpired at `now`
        gets the new password's hash and loses the token; without one, 400.
        The new password's length is not checked here. */
    method ResetPassword(token: string, password: string, now: int) returns (r: Reply<()>)
      requires Valid()
      modifies this
      ensures Valid()
      ensures Snapshot() == old(Snapshot()).(users := users)
      ensures r.status == 400 <==> forall i :: 0 <= i < |old(users)| ==> !AcceptsReset(old(users)[i], token, now)
      ensures r.status == 400 ==> r == Reply(400, "Invalid or expired reset token", None) && users == old(users)
      ensures r.status != 400 ==> exists k :: 0 <= k < |old(users)| && AcceptsReset(old(users)[k], token, now)
                                    && (forall j :: 0 <= j < k ==> !AcceptsReset(old(users)[j], token, now))
                                    && users == old(users)[k := CompleteReset(old(users)[k], password)]
                                    && r == Reply(200, "Password reset successful", None)
    {
      match FirstIndex(users, (u: User) => AcceptsReset(u, token, now)) {
        case None =>
          r := Reply(400, "Invalid or expired reset token", None);
        case Some(k) =>
          var u := CompleteReset(users[k], password);
          UsersRefresh(users, k, u);
          users := users[k := u];
          r := Reply(200, "Password reset successful", None);
      }
    }
    // -------------------------------------------------------------- drivers

    /** createDriver: the signup checks, then a document that fails
        validation or repeats a business id gives 500. The reply carries the
        stored document; no session is started. */
    method CreateDriver(form: DriverForm, id: ObjectId) returns (r: Reply<Driver>)
      requires Valid() && Unused(drivers, DriverId, id)
      modifies this
      ensures Valid()
      ensures Snapshot() == old(Snapshot()).(drivers := drivers)
      ensures |form.password| < 6 ==> r == Reply(400, ShortPassword, None)
      ensures |form.password| >= 6 && DriverTaken(old(drivers), form.email, form.mobile) ==> r == Reply(400, AccountInUse, None)
      ensures var d := NewDriver(id, form.name, form.email, Hash(form.password), form.mobile, form.address, form.area, form.businessId);
        && (r.status == 201 <==> |form.password| >= 6 && !DriverTaken(old(drivers), form.email, form.mobile)
                                 && DriverValid(d) && !BusinessIdTaken(old(drivers), form.businessId))
        && (r.status == 201 ==> drivers == old(drivers) + [d] && r == Reply(201, "Driver created successfully.", Some(d)))
      ensures r.status == 400 <==> |form.password| < 6 || DriverTaken(old(drivers), form.email, form.mobile)
      ensures r.status != 201 ==> drivers == old(drivers) && (r.status == 400 || r == Reply(500, TryLater, None))
    {
      if |form.password| < 6 {
        return Reply(400, ShortPassword, None);
      }
      if DriverTaken(drivers, form.email, form.mobile) {
        return Reply(400, AccountInUse, None);
      }
      var d := NewDriver(id, form.name, form.email, Hash(form.password), form.mobile, form.address, form.area, form.businessId);
      if !DriverValid(d) || BusinessIdTaken(drivers, form.businessId) {
        return Reply(500, TryLater, None);
      }
      DriversAppend(drivers, d);
      drivers := drivers + [d];
      r := Reply(201, "Driver created successfully.", Some(d));
    }

    /** getAllDrivers: every driver document, as stored. */
    method GetAllDrivers() returns (r: Reply<seq<Driver>>)
      ensures r == Reply(200, "", Some(drivers))
    {
      r := Reply(200, "", Some(drivers));
    }

    /** getDriverByEmail: the first driver whose email contains the
        parameter, ignoring case, or 404 when none does. */
    method GetDriverByEmail(fragment: string) returns (r: Reply<Driver>)
      ensures r.status == 404 <==> forall i :: 0 <= i < |drivers| ==> !ContainsIgnoreCase(fragment, drivers[i].email)
      ensures r.status == 404 ==> r == Reply(404, "No drivers found matching this email", None)
      ensures r.status != 404 ==> exists k :: 0 <= k < |drivers| && ContainsIgnoreCase(fragment, drivers[k].email)
                                    && (forall j :: 0 <= j < k ==> !ContainsIgnoreCase(fragment, drivers[j].email))
                                    && r == Reply(200, "", Some(drivers[k]))
    {
      var found := Filter(drivers, EmailContains(fragment));
      FilterHead(drivers, EmailContains(fragment));
      if |found| == 0 {
        r := Reply(404, "No drivers found matching this email", None);
      } else {
        r := Reply(200, "", Some(found[0]));
      }
    }

    /** driver login: the admin rules, for the driver collection. */
    method DriverLogin(form: LoginForm) returns (r: Reply<Session>, cookie: CookieEffect)
      requires Valid()
      ensures r == Reply(400, NoAccount, None) <==> forall i :: 0 <= i < |drivers| ==> drivers[i].email != form.email
      ensures r.status == 200 <==> exists i :: 0 <= i < |drivers| && drivers[i].email == form.email && Compare(form.password, drivers[i].password)
      ensures r.status == 200 ==> exists i :: 0 <= i < |drivers| && drivers[i].email == form.email
                                    && r == Reply(200, LoginOk, Some(DriverSession(drivers[i]))) && cookie == IssueJwt(drivers[i].id)
      ensures r.status != 200 ==> r.status == 400 && r.body.None? && cookie == KeepCookie
      ensures r == Reply(400, WrongPassword, None) <==> exists i :: 0 <= i < |drivers| && drivers[i].email == form.email && !Compare(form.password, drivers[i].password)
    {
      match FirstIndex(drivers, (d: Driver) => d.email == form.email) {
        case None =>
          r, cookie := Reply(400, NoAccount, None), KeepCookie;
        case Some(k) =>
          assert forall i :: 0 <= i < |drivers| && drivers[i].email == form.email ==> i == k;
          if !Compare(form.password, drivers[k].password) {
            r, cookie := Reply(400, WrongPassword, None), KeepCookie;
          } else {
            r, cookie := Reply(200, LoginOk, Some(DriverSession(drivers[k]))), IssueJwt(drivers[k].id);
          }
      }
    }

    /** updateDriver: the path parameter selects by `_id` or by business id;
        an uncastable `_id` gives 500, no match gives 404, and an update that
        would repeat another driver's email, mobile or business id is
        refused by the unique indexes with 500. The reply is the updated
        document. */
    method UpdateDriver(param: string, patch: DriverPatch) returns (r: Reply<Driver>)
      requires Valid()
      modifies this
      ensures Valid()
      ensures Snapshot() == old(Snapshot()).(drivers := drivers)
      ensures var sel := DriverSelector(param);
        && (sel.Uncastable? ==> r == Reply(500, "Error updating driver", None))
        && (r.status == 404 <==> !sel.Uncastable? && forall i :: 0 <= i < |old(drivers)| ==> !Selects(sel, old(drivers)[i]))
        && (r.status == 200 <==> (exists k :: 0 <= k < |old(drivers)| && Selects(sel, old(drivers)[k])
                                              && !DriverClash(old(drivers), k, ApplyDriverPatch(old(drivers)[k], patch))))
        && (r.status == 200 ==> (exists k :: 0 <= k < |old(drivers)| && Selects(sel, old(drivers)[k])
                                             && drivers == old(drivers)[k := ApplyDriverPatch(old(drivers)[k], patch)]
                                             && r == Reply(200, "Driver updated successfully", Some(drivers[k]))))
      ensures r.status == 404 ==> r == Reply(404, "Driver not found", None)
      ensures r.status != 200 ==> drivers == old(drivers) && r.body.None? && (r.status == 404 || r.status == 500)
      ensures r.status == 500 ==> r.message == "Error updating driver"
    {
      var sel := DriverSelector(param);
      if sel.Uncastable? {
        return Reply(500, "Error updating driver", None);
      }
      match FirstIndex(drivers, (d: Driver) => Selects(sel, d)) {
        case None =>
          r := Reply(404, "Driver not found", None);
        case Some(k) =>
          SelectsUnique(drivers, sel, k);
          var d := ApplyDriverPatch(drivers[k], patch);
          DriversUpdate(drivers, k, d);
          if DriverClash(drivers, k, d) {
            return Reply(500, "Error updating driver", None);
          }
          drivers := drivers[k := d];
          r := Reply(200, "Driver updated successfully", Some(d));
      }
    }

    /** deleteDriver: selection as in updateDriver; the deleted document is
        returned and no driver the parameter selects is left. */
    method DeleteDriver(param: string) returns (r: Reply<Driver>)
      requires Valid()
      modifies this
      ensures Valid()
      ensures Snapshot() == old(Snapshot()).(drivers := drivers)
      ensures var sel := DriverSelector(param);
        && (sel.Uncastable? ==> r == Reply(500, "Error deleting driver", None))
        && (r.status == 500 <==> sel.Uncastable?)
        && (r.status == 404 <==> !sel.Uncastable? && forall i :: 0 <= i < |old(drivers)| ==> !Selects(sel, old(drivers)[i]))
        && (r.status == 200 ==> (exists k :: 0 <= k < |old(drivers)| && Selects(sel, old(drivers)[k])
                                             && drivers == RemoveAt(old(drivers), k)
                                             && r == Reply(200, "Driver deleted successfully", Some(old(drivers)[k]))))
        && (r.status == 200 ==> forall i :: 0 <= i < |drivers| ==> !Selects(sel, drivers[i]))
      ensures r.status == 404 ==> r == Reply(404, "Driver not found", None)
      ensures r.status != 200 ==> drivers == old(drivers) && r.body.None? && (r.status == 404 || r.status == 500)
    {
      var sel := DriverSelector(param);
      if sel.Uncastable? {
        return Reply(500, "Error deleting driver", None);
      }
      match FirstIndex(drivers, (d: Driver) => Selects(sel, d)) {
        case None =>
          r := Reply(404, "Driver not found", None);
        case Some(k) =>
          SelectsUnique(drivers, sel, k);
          DriversRemove(drivers, k);
          r := Reply(200, "Driver deleted successfully", Some(drivers[k]));
          drivers := RemoveAt(drivers, k);
      }
    }
    // -------------------------------------------------------------- bins

    /** getBin: every bin document, as stored. */
    method GetBins() returns (r: Reply<seq<Bin>>)
      ensures r == Reply(200, "", Some(bins))
    {
      r := Reply(200, "", Some(bins));
    }

    /** getBinsByArea: the bins whose locality or landmark contains the
        area, ignoring case, in stored order; 404 when there are none. */
    method GetBinsByArea(area: string) returns (r: Reply<seq<Bin>>)
      ensures r.status == 404 <==> forall i :: 0 <= i < |bins| ==>
                !ContainsIgnoreCase(area, bins[i].locality) && !ContainsIgnoreCase(area, bins[i].landmark)
      ensures r.status == 404 ==> r == Reply(404, "No bins found in area: " + area, None)
      ensures r.status != 404 ==> r.status == 200 && r.body.Some? && r.body.value == Filter(bins, InArea(area))
      ensures r.status != 404 ==> forall b :: b in r.body.value <==>
                b in bins && (ContainsIgnoreCase(area, b.locality) || ContainsIgnoreCase(area, b.landmark))
    {
      var found := Filter(bins, InArea(area));
      FilterHead(bins, InArea(area));
      if |found| == 0 {
        r := Reply(404, "No bins found in area: " + area, None);
      } else {
        r := Reply(200, "", Some(found));
      }
    }

    /** createBin: the bin is stored without coordinates when every field
        is given, and refused with 500 otherwise. */
    method CreateBin(form: BinForm, id: ObjectId) returns (r: Reply<Bin>)
      requires Valid() && Unused(bins, BinId, id)
      modifies this
      ensures Valid()
      ensures Snapshot() == old(Snapshot()).(bins := bins)
      ensures var b := NewBin(id, form.bin, form.locality, form.landmark, form.city,
                              form.loadType, form.driverEmail, form.cyclePeriod, form.bestRoute);
        && (r.status == 201 <==> BinValid(b))
        && (r.status == 201 ==> bins == old(bins) + [b] && r == Reply(201, "Bin created successfully", Some(b)))
      ensures r.status != 201 ==> r == Reply(500, "Error creating bin", None) && bins == old(bins)
    {
      var b := NewBin(id, form.bin, form.locality, form.landmark, form.city,
                      form.loadType, form.driverEmail, form.cyclePeriod, form.bestRoute);
      if !BinValid(b) {
        return Reply(500, "Error creating bin", None);
      }
      BinsAppend(bins, b);
      bins := bins + [b];
      r := Reply(201, "Bin created successfully", Some(b));
    }

    /** updateBin: locality and city must be sent; the address is located
        (the geocoder is a parameter, and the queries it was asked are
        returned); the located coordinates and the sent fields are written
        to the bin with that `_id`. An unknown `_id` still answers 200, with
        a null bin. */
    method UpdateBin(binId: string, patch: BinPatch, geocode: string -> GeoReply)
      returns (r: Reply<Bin>, queries: seq<string>)
      requires Valid()
      modifies this
      ensures Valid()
      ensures Snapshot() == old(Snapshot()).(bins := bins)
      ensures !AddressGiven(patch) ==> r == Reply(400, "Locality and city are required.", None) && queries == []
      ensures AddressGiven(patch) ==>
        var p := Locate(patch.locality.value, patch.landmark.GetOr(""), patch.city.value, geocode);
        && queries == p.queries
        && (p.outcome.LookupFailed? ==> r == Reply(500, "Internal server error", None))
        && (p.outcome.NotLocated? ==> r == Reply(404, "No geolocation found for address: "
                                                    + Address(patch.locality.value, patch.landmark.GetOr(""), patch.city.value), None))
        && (p.outcome.Located? && CastObjectId(binId).None? ==> r == Reply(500, "Internal server error", None))
        && (p.outcome.Located? && CastObjectId(binId).Some? ==>
              && r.status == 200
              && r.message == (if p.outcome.fallback then "Bin updated (fallback)" else "Bin updated")
              && ((forall i :: 0 <= i < |old(bins)| ==> old(bins)[i].id != CastObjectId(binId).value) ==> r.body.None?)
              && forall k :: 0 <= k < |old(bins)| && old(bins)[k].id == CastObjectId(binId).value ==>
                   bins == old(bins)[k := ApplyBinPatch(old(bins)[k], patch, p.outcome.place)] && r.body == Some(bins[k]))
      ensures r.body.None? ==> bins == old(bins)
    {
      queries := [];
      if !AddressGiven(patch) {
        return Reply(400, "Locality and city are required.", None), queries;
      }
      var landmark := patch.landmark.GetOr("");
      var p := Locate(patch.locality.value, landmark, patch.city.value, geocode);
      queries := p.queries;
      match p.outcome {
        case LookupFailed =>
          r := Reply(500, "Internal server error", None);
        case NotLocated =>
          r := Reply(404, "No geolocation found for address: " + Address(patch.locality.value, landmark, patch.city.value), None);
        case Located(place, fallback) =>
          var message := if fallback then "Bin updated (fallback)" else "Bin updated";
          match CastObjectId(binId) {
            case None =>
              r := Reply(500, "Internal server error", None);
            case Some(oid) =>
              match FirstIndex(bins, (b: Bin) => b.id == oid) {
                case None =>
                  r := Reply(200, message, None);
                case Some(k) =>
                  BinIdUnique(bins, k);
                  var b := ApplyBinPatch(bins[k], patch, place);
                  BinsUpdate(bins, k, b);
                  bins := bins[k := b];
                  r := Reply(200, message, Some(b));
              }
          }
      }
    }

    /** deleteBin: an uncastable `_id` gives 500, an unknown one 404;
        otherwise that bin, and only it, is removed. */
    method DeleteBin(binId: string) returns (r: Reply<()>)
      requires Valid()
      modifies this
      ensures Valid()
      ensures Snapshot() == old(Snapshot()).(bins := bins)
      ensures CastObjectId(binId).None? ==> r == Reply(500, "Error deleting bin", None)
      ensures r.status == 500 <==> CastObjectId(binId).None?
      ensures r.status == 404 <==> CastObjectId(binId).Some?
                                   && forall i :: 0 <= i < |old(bins)| ==> old(bins)[i].id != CastObjectId(binId).value
      ensures r.status == 404 ==> r == Reply(404, "Bin not found", None)
      ensures r.status == 200 ==> r == Reply(200, "Bin deleted successfully", None)
                                  && (exists k :: 0 <= k < |old(bins)| && old(bins)[k].id == CastObjectId(binId).value
                                                  && bins == RemoveAt(old(bins), k))
                                  && forall i :: 0 <= i < |bins| ==> bins[i].id != CastObjectId(binId).value
      ensures r.status != 200 ==> bins == old(bins) && (r.status == 404 || r.status == 500)
    {
      match CastObjectId(binId) {
        case None =>
          r := Reply(500, "Error deleting bin", None);
        case Some(oid) =>
          match FirstIndex(bins, (b: Bin) => b.id == oid) {
            case None =>
              r := Reply(404, "Bin not found", None);
            case Some(k) =>
              BinIdUnique(bins, k);
              BinsRemove(bins, k);
              bins := RemoveAt(bins, k);
              r := Reply(200, "Bin deleted successfully", None);
          }
      }
    }

    // -------------------------------------------------------------- complaints

    /** getAllComplaints: every complaint document, as stored. */
    method GetAllComplaints() returns (r: Reply<seq<Complaint>>)
      ensures r == Reply(200, "", Some(complaints))
    {
      r := Reply(200, "", Some(complaints));
    }

    /** createComplaint: area, email and text are checked by the handler
        (400); a missing date or time fails validation (500). The stored
        complaint is Pending, with its email lower-cased. */
    method CreateComplaint(form: ComplaintForm, id: ObjectId) returns (r: Reply<Complaint>)
      requires Valid() && Unused(complaints, ComplaintId, id)
      modifies this
      ensures Valid()
      ensures Snapshot() == old(Snapshot()).(complaints := complaints)
      ensures form.binArea == "" || form.userEmail == "" || form.complaint == "" ==> r == Reply(400, "All fields are required", None)
      ensures r.status == 201 <==> form.binArea != "" && form.userEmail != "" && form.complaint != "" && form.date != "" && form.time != ""
      ensures r.status == 201 ==>
        var c := NewComplaint(id, form.binArea, form.userEmail, form.complaint, form.date, form.time);
        && complaints == old(complaints) + [c] && r == Reply(201, "Complaint created successfully", Some(c))
        && c.status == Pending && c.userEmail == ToLower(form.userEmail)
      ensures r.status == 400 <==> form.binArea == "" || form.userEmail == "" || form.complaint == ""
      ensures r.status != 201 ==> complaints == old(complaints) && (r.status == 400 || r == Reply(500, "Server error", None))
    {
      if form.binArea == "" || form.userEmail == "" || form.complaint == "" {
        return Reply(400, "All fields are required", None);
      }
      var c := NewComplaint(id, form.binArea, form.userEmail, form.complaint, form.date, form.time);
      if !ComplaintValid(c) {
        return Reply(500, "Server error", None);
      }
      ComplaintsAppend(complaints, c);
      complaints := complaints + [c];
      r := Reply(201, "Complaint created successfully", Some(c));
    }

    /** updateComplaintStatus: a status outside the enum gives 400, an
        uncastable `_id` 500, an unknown one 404; otherwise only that
        complaint's status changes. */
    method UpdateComplaintStatus(complaintId: string, status: string) returns (r: Reply<Complaint>)
      requires Valid()
      modifies this
      ensures Valid()
      ensures Snapshot() == old(Snapshot()).(complaints := complaints)
      ensures ParseComplaintStatus(status).None? ==> r == Reply(400, "Invalid status", None)
      ensures ParseComplaintStatus(status).Some? && CastObjectId(complaintId).None? ==> r == Reply(500, "Server error", None)
      ensures r.status == 400 <==> ParseComplaintStatus(status).None?
      ensures r.status == 500 <==> ParseComplaintStatus(status).Some? && CastObjectId(complaintId).None?
      ensures r.status == 404 <==> ParseComplaintStatus(status).Some? && CastObjectId(complaintId).Some?
                                   && forall i :: 0 <= i < |old(complaints)| ==> old(complaints)[i].id != CastObjectId(complaintId).value
      ensures r.status == 404 ==> r == Reply(404, "Complaint not found", None)
      ensures r.status == 200 ==>
        && ParseComplaintStatus(status).Some? && CastObjectId(complaintId).Some?
        && (exists k :: 0 <= k < |old(complaints)| && old(complaints)[k].id == CastObjectId(complaintId).value
             && complaints == old(complaints)[k := old(complaints)[k].(status := ParseComplaintStatus(status).value)]
             && r == Reply(200, "Complaint status updated", Some(complaints[k])))
      ensures r.status != 200 ==> complaints == old(complaints) && r.body.None?
                                  && (r.status == 400 || r.status == 404 || r.status == 500)
    {
      match ParseComplaintStatus(status) {
        case None =>
          r := Reply(400, "Invalid status", None);
        case Some(st) =>
          match CastObjectId(complaintId) {
            case None =>
              r := Reply(500, "Server error", None);
            case Some(oid) =>
              match FirstIndex(complaints, (c: Complaint) => c.id == oid) {
                case None =>
                  r := Reply(404, "Complaint not found", None);
                case Some(k) =>
                  ComplaintsSetStatus(complaints, k, st);
                  var c := complaints[k].(status := st);
                  complaints := complaints[k := c];
                  r := Reply(200, "Complaint status updated", Some(c));
              }
          }
      }
    }

    // -------------------------------------------------------------- works

    /** getAllWorks: every work entry, as stored. */
    method GetAllWorks() returns (r: Reply<seq<Work>>)
      ensures r == Reply(200, "", Some(works))
    {
      r := Reply(200, "", Some(works));
    }

    /** createWork: an area that already has an entry gives 400; a document
        that fails validation or repeats a driver email gives 500. */
    method CreateWork(form: WorkForm, id: ObjectId) returns (r: Reply<Work>)
      requires Valid() && Unused(works, WorkId, id)
      modifies this
      ensures Valid()
      ensures Snapshot() == old(Snapshot()).(works := works)
      ensures WorkAreaTaken(old(works), form.area) ==> r == Reply(400, "Work with this area already exists", None)
      ensures var w := NewWork(id, form.email, form.area, form.status, form.time, form.date);
        && (r.status == 201 <==> !WorkAreaTaken(old(works), form.area) && w.Some? && !WorkEmailTaken(old(works), form.email))
        && (r.status == 201 ==> works == old(works) + [w.value]
                                && r == Reply(201, "Work submitted to the database successfully", Some(w.value)))
      ensures r.status == 400 <==> WorkAreaTaken(old(works), form.area)
      ensures r.status != 201 ==> works == old(works) && (r.status == 400 || r == Reply(500, "Error creating work", None))
    {
      if WorkAreaTaken(works, form.area) {
        return Reply(400, "Work with this area already exists", None);
      }
      match NewWork(id, form.email, form.area, form.status, form.time, form.date) {
        case None =>
          r := Reply(500, "Error creating work", None);
        case Some(w) =>
          if WorkEmailTaken(works, form.email) {
            return Reply(500, "Error creating work", None);
          }
          WorksAppend(works, w);
          works := works + [w];
          r := Reply(201, "Work submitted to the database successfully", Some(w));
      }
    }

    /** The midnight job in cron.js: every entry dated the day before
        `today` is deleted, and the number deleted is reported. */
    method PurgeWorks(today: Date) returns (deleted: nat)
      requires Valid() && ValidDate(today)
      modifies this
      ensures Valid()
      ensures Snapshot() == old(Snapshot()).(works := works)
      ensures works == Purge(old(works), today)
      ensures forall w :: w in works <==> w in old(works) && w.date != PurgeDate(today)
      ensures deleted == |old(works)| - |works|
    {
      WorksPurge(works, today);
      var kept := Purge(works, today);
      deleted := |works| - |kept|;
      works := kept;
    }
  }
}
