/**
 * The mongoose schemas: one datatype per collection and one predicate per
 * schema saying which documents `save()` accepts. Field setters (`trim`,
 * `lowercase`) and defaults are applied by the New... constructors, as
 * mongoose applies them when a document is built. The email `match`
 * patterns are not modelled: an email is only required to be non-empty.
 */
module Models {
  import opened Wrappers
  import opened Text
  import opened Credentials

  /** `required: true` on a String path: absent and "" both fail. */
  predicate Required(s: string) {
    s != ""
  }

  /** A password path: required, `minlength: 6`, checked on the stored hash. */
  predicate PasswordPathValid(p: Option<Digest>) {
    p.Some? && DigestLength >= 6
  }

  // ---------------------------------------------------------------- Admin

  datatype Admin = Admin(id: ObjectId, name: string, email: string, password: Option<Digest>,
                         mobile: string, city: string)

  function AdminId(a: Admin): ObjectId { a.id }
  function AdminEmail(a: Admin): string { a.email }
  function AdminMobile(a: Admin): string { a.mobile }

  /** admin.model.js: name required and trimmed, email required, password
      required (min length 6), mobile ten digits, city required. */
  predicate AdminValid(a: Admin) {
    && Required(a.name) && IsTrimmed(a.name)
    && Required(a.email)
    && PasswordPathValid(a.password)
    && IsTenDigits(a.mobile)
    && Required(a.city)
  }

  /** `new Admin({...})`: the `trim` setter runs on the name. */
  function NewAdmin(id: ObjectId, name: string, email: string, hash: Digest, mobile: string, city: string): Admin {
    Admin(id, Trim(name), email, Some(hash), mobile, city)
  }

  /** A new admin document validates exactly when its trimmed name, email
      and city are non-empty and its mobile is ten digits. */
  lemma NewAdminValid(id: ObjectId, name: string, email: string, hash: Digest, mobile: string, city: string)
    ensures AdminValid(NewAdmin(id, name, email, hash, mobile, city))
        <==> Trim(name) != "" && email != "" && IsTenDigits(mobile) && city != ""
  {
    var a := NewAdmin(id, name, email, hash, mobile, city);
    TrimIsTrimmed(name);
    assert AdminValid(a) == (Required(a.name) && PasswordPathValid(a.password) && Required(a.email)
                             && IsTenDigits(a.mobile) && Required(a.city));
  }

  // ---------------------------------------------------------------- Driver

  /** `businessId` is the schema's own `id` path, distinct from `_id`. */
  datatype Driver = Driver(id: ObjectId, name: string, email: string, password: Option<Digest>,
                           mobile: string, address: string, area: string, businessId: string)

  function DriverId(d: Driver): ObjectId { d.id }
  function DriverEmail(d: Driver): string { d.email }
  function DriverMobile(d: Driver): string { d.mobile }
  function DriverBusinessId(d: Driver): string { d.businessId }

  /** driver.model.js: as for admins, with address, area and id required. */
  predicate DriverValid(d: Driver) {
    && Required(d.name) && IsTrimmed(d.name)
    && Required(d.email)
    && PasswordPathValid(d.password)
    && IsTenDigits(d.mobile)
    && Required(d.address)
    && Required(d.area)
    && Required(d.businessId)
  }

  function NewDriver(id: ObjectId, name: string, email: string, hash: Digest, mobile: string,
                     address: string, area: string, businessId: string): Driver {
    Driver(id, Trim(name), email, Some(hash), mobile, address, area, businessId)
  }

  lemma NewDriverValid(id: ObjectId, name: string, email: string, hash: Digest, mobile: string,
                       address: string, area: string, businessId: string)
    ensures DriverValid(NewDriver(id, name, email, hash, mobile, address, area, businessId))
        <==> Trim(name) != "" && email != "" && IsTenDigits(mobile)
             && address != "" && area != "" && businessId != ""
  {
    var d := NewDriver(id, name, email, hash, mobile, address, area, businessId);
    TrimIsTrimmed(name);
    assert DriverValid(d) == (Required(d.name) && PasswordPathValid(d.password) && Required(d.email) && IsTenDigits(d.mobile)
                              && Required(d.address) && Required(d.area) && Required(d.businessId));
  }

  // ---------------------------------------------------------------- User

  /** user.model.js is not part of this model: the User document has the
      fields user.controller.js reads and writes, and the Admin rules. */
  datatype User = User(id: ObjectId, name: string, email: string, password: Option<Digest>,
                       mobile: string, city: string,
                       resetToken: Option<string>, resetTokenExpiry: Option<int>)

  function UserId(u: User): ObjectId { u.id }
  function UserEmail(u: User): string { u.email }
  function UserMobile(u: User): string { u.mobile }

  predicate UserValid(u: User) {
    && Required(u.name) && IsTrimmed(u.name)
    && Required(u.email)
    && PasswordPathValid(u.password)
    && IsTenDigits(u.mobile)
    && Required(u.city)
  }

  function NewUser(id: ObjectId, name: string, email: string, hash: Digest, mobile: string, city: string): User {
    User(id, Trim(name), email, Some(hash), mobile, city, None, None)
  }

  lemma NewUserValid(id: ObjectId, name: string, email: string, hash: Digest, mobile: string, city: string)
    ensures UserValid(NewUser(id, name, email, hash, mobile, city))
        <==> Trim(name) != "" && email != "" && IsTenDigits(mobile) && city != ""
  {
    var u := NewUser(id, name, email, hash, mobile, city);
    TrimIsTrimmed(name);
    assert UserValid(u) == (Required(u.name) && PasswordPathValid(u.password) && Required(u.email)
                            && IsTenDigits(u.mobile) && Required(u.city));
  }

  // ---------------------------------------------------------------- Bin

  /** A coordinate as the geocoder reports it; treated as an opaque value. */
  type Coord = string

  /** bin.model.js: eight required strings (loadType and cyclePeriod carry
      no enum) and optional coordinates. The schema has no locationName path. */
  datatype Bin = Bin(id: ObjectId, bin: string, locality: string, landmark: string, city: string,
                     loadType: string, driverEmail: string, cyclePeriod: string, bestRoute: string,
                     latitude: Option<Coord>, longitude: Option<Coord>)

  function BinId(b: Bin): ObjectId { b.id }

  predicate BinValid(b: Bin) {
    && Required(b.bin) && Required(b.locality) && Required(b.landmark) && Required(b.city)
    && Required(b.loadType) && Required(b.driverEmail) && Required(b.cyclePeriod) && Required(b.bestRoute)
  }

  /** `new Bin({...})` from createBin: no coordinates yet. */
  function NewBin(id: ObjectId, bin: string, locality: string, landmark: string, city: string,
                  loadType: string, driverEmail: string, cyclePeriod: string, bestRoute: string): (b: Bin)
    ensures b.latitude.None? && b.longitude.None?
  {
    Bin(id, bin, locality, landmark, city, loadType, driverEmail, cyclePeriod, bestRoute, None, None)
  }

  /** Any non-empty load type and cycle period are accepted, and a bin is
      valid without coordinates. */
  lemma NewBinValid(id: ObjectId, bin: string, locality: string, landmark: string, city: string,
                    loadType: string, driverEmail: string, cyclePeriod: string, bestRoute: string)
    ensures BinValid(NewBin(id, bin, locality, landmark, city, loadType, driverEmail, cyclePeriod, bestRoute))
        <==> bin != "" && locality != "" && landmark != "" && city != ""
             && loadType != "" && driverEmail != "" && cyclePeriod != "" && bestRoute != ""
  {
  }

  // ---------------------------------------------------------------- Complaint

  datatype ComplaintStatus = Pending | Resolved | Rejected

  function ComplaintStatusName(s: ComplaintStatus): string {
    match s
    case Pending => "Pending"
    case Resolved => "Resolved"
    case Rejected => "Rejected"
  }

  /** Membership in ['Pending', 'Resolved', 'Rejected']. */
  function ParseComplaintStatus(s: string): (r: Option<ComplaintStatus>)
    ensures r.Some? <==> s == "Pending" || s == "Resolved" || s == "Rejected"
  {
    if s == "Pending" then Some(Pending)
    else if s == "Resolved" then Some(Resolved)
    else if s == "Rejected" then Some(Rejected)
    else None
  }

  /** The enum's names and its values are in one-to-one correspondence. */
  lemma ComplaintStatusRoundTrip(st: ComplaintStatus, s: string)
    ensures ParseComplaintStatus(ComplaintStatusName(st)) == Some(st)
    ensures ParseComplaintStatus(s) == Some(st) ==> ComplaintStatusName(st) == s
  {
  }

  datatype Complaint = Complaint(id: ObjectId, binArea: string, userEmail: string, complaint: string,
                                 date: string, time: string, status: ComplaintStatus)

  function ComplaintId(c: Complaint): ObjectId { c.id }

  /** complaint.model.js: binArea, userEmail, complaint, date and time required. */
  predicate ComplaintValid(c: Complaint) {
    Required(c.binArea) && Required(c.userEmail) && Required(c.complaint) && Required(c.date) && Required(c.time)
  }

  /** `new Complaint({...})`: the email is lower-cased and the status defaults to Pending. */
  function NewComplaint(id: ObjectId, binArea: string, userEmail: string, complaint: string,
                        date: string, time: string): (c: Complaint)
    ensures c.status == Pending && IsLower(c.userEmail)
    ensures ComplaintValid(c) <==> binArea != "" && userEmail != "" && complaint != "" && date != "" && time != ""
  {
    ToLowerIsLower(userEmail);
    Complaint(id, binArea, ToLower(userEmail), complaint, date, time, Pending)
  }

  // ---------------------------------------------------------------- Work

  datatype WorkStatus = InProgress | Completed | Incomplete

  function WorkStatusName(s: WorkStatus): string {
    match s
    case InProgress => "In Progress"
    case Completed => "Completed"
    case Incomplete => "Incomplete"
  }

  /** The enum ['In Progress', 'Completed', 'Incomplete']. */
  function ParseWorkStatus(s: string): (r: Option<WorkStatus>)
    ensures r.Some? <==> s == "In Progress" || s == "Completed" || s == "Incomplete"
  {
    if s == "In Progress" then Some(InProgress)
    else if s == "Completed" then Some(Completed)
    else if s == "Incomplete" then Some(Incomplete)
    else None
  }

  lemma WorkStatusRoundTrip(st: WorkStatus, s: string)
    ensures ParseWorkStatus(WorkStatusName(st)) == Some(st)
    ensures ParseWorkStatus(s) == Some(st) ==> WorkStatusName(st) == s
  {
  }

  datatype Work = Work(id: ObjectId, email: string, area: string, status: WorkStatus, time: string, date: string)

  function WorkId(w: Work): ObjectId { w.id }
  function WorkEmail(w: Work): string { w.email }
  function WorkArea(w: Work): string { w.area }

  /** work.model.js: email, area, time and date required; the status is
      required and an enum value, which the datatype itself ensures. */
  predicate WorkValid(w: Work) {
    Required(w.email) && Required(w.area) && Required(w.time) && Required(w.date)
  }

  /** `new Work({...})` followed by validation: the document `save()` would
      accept, or None when a path fails (including a status outside the enum). */
  function NewWork(id: ObjectId, email: string, area: string, status: string, time: string, date: string): (r: Option<Work>)
    ensures r.Some? <==> email != "" && area != "" && ParseWorkStatus(status).Some? && time != "" && date != ""
    ensures r.Some? ==> WorkValid(r.value) && r.value.id == id && r.value.email == email && r.value.area == area
                        && WorkStatusName(r.value.status) == status && r.value.time == time && r.value.date == date
  {
    match ParseWorkStatus(status)
    case None => None
    case Some(st) =>
      var w := Work(id, email, area, st, time, date);
      if WorkValid(w) then Some(w) else None
  }
}
