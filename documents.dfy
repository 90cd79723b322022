/**
 * The controllers' request bodies and response payloads, and the pure
 * pieces of their logic: what a profile update, a driver or bin update and
 * the password-reset fields do to one document, which driver a path
 * parameter selects, and which work entries the daily purge keeps.
 */
module Documents {
  import opened Wrappers
  import opened Text
  import opened Collections
  import opened Credentials
  import opened Models
  import opened Geocoding
  import opened Calendar

  // ---------------------------------------------------------------- request bodies

  /** A body field is a string; "" stands for an empty or missing field. */
  datatype SignupForm = SignupForm(name: string, email: string, password: string, mobile: string, city: string)

  datatype DriverForm = DriverForm(name: string, email: string, password: string, mobile: string,
                                   address: string, area: string, businessId: string)

  datatype BinForm = BinForm(bin: string, locality: string, landmark: string, city: string,
                             loadType: string, driverEmail: string, cyclePeriod: string, bestRoute: string)

  datatype ComplaintForm = ComplaintForm(binArea: string, userEmail: string, complaint: string, date: string, time: string)

  datatype WorkForm = WorkForm(email: string, area: string, status: string, time: string, date: string)

  datatype ProfileForm = ProfileForm(email: string, mobile: string, city: string)

  datatype LoginForm = LoginForm(email: string, password: string)

  /** The body of an update query: a field the client did not send is None
      and leaves the stored value as it is. */
  datatype DriverPatch = DriverPatch(name: Option<string>, email: Option<string>, mobile: Option<string>,
                                     address: Option<string>, area: Option<string>, businessId: Option<string>)

  datatype BinPatch = BinPatch(bin: Option<string>, locality: Option<string>, landmark: Option<string>,
                               city: Option<string>, loadType: Option<string>, driverEmail: Option<string>,
                               cyclePeriod: Option<string>, bestRoute: Option<string>)

  // ---------------------------------------------------------------- response payloads

  /** `{ _id, name, email, mobile, city }` as signup and getUserByEmail return it. */
  datatype Profile = Profile(id: ObjectId, name: string, email: string, mobile: string, city: string)

  /** `{ _id, name, email }` as a login returns it. */
  datatype Session = Session(id: ObjectId, name: string, email: string)

  function AdminProfile(a: Admin): Profile { Profile(a.id, a.name, a.email, a.mobile, a.city) }
  function UserProfile(u: User): Profile { Profile(u.id, u.name, u.email, u.mobile, u.city) }
  function AdminSession(a: Admin): Session { Session(a.id, a.name, a.email) }
  function UserSession(u: User): Session { Session(u.id, u.name, u.email) }
  function DriverSession(d: Driver): Session { Session(d.id, d.name, d.email) }

  // ---------------------------------------------------------------- profile update

  /** `user.email = email || user.email`, and likewise for mobile and city. */
  function ApplyProfile(u: User, f: ProfileForm): (r: User)
    ensures f.email == "" ==> r.email == u.email
    ensures f.email != "" ==> r.email == f.email
    ensures f.mobile == "" ==> r.mobile == u.mobile
    ensures f.mobile != "" ==> r.mobile == f.mobile
    ensures f.city == "" ==> r.city == u.city
    ensures f.city != "" ==> r.city == f.city
    ensures r.(email := u.email, mobile := u.mobile, city := u.city) == u
  {
    u.(email := if f.email != "" then f.email else u.email,
       mobile := if f.mobile != "" then f.mobile else u.mobile,
       city := if f.city != "" then f.city else u.city)
  }

  /** Submitting the same profile again changes nothing more. */
  lemma ApplyProfileIdempotent(u: User, f: ProfileForm)
    ensures ApplyProfile(ApplyProfile(u, f), f) == ApplyProfile(u, f)
  {
  }

  // ---------------------------------------------------------------- password reset

  /** One hour, in milliseconds. */
  const ResetWindow: int := 3600000

  /** forgotPassword's update: a new token, valid for an hour, replaces any earlier one. */
  function IssueResetToken(u: User, token: string, now: int): (r: User)
    ensures r.resetToken == Some(token) && r.resetTokenExpiry == Some(now + ResetWindow)
    ensures r.(resetToken := u.resetToken, resetTokenExpiry := u.resetTokenExpiry) == u
    ensures UserValid(r) <==> UserValid(u)
  {
    u.(resetToken := Some(token), resetTokenExpiry := Some(now + ResetWindow))
  }

  /** resetPassword's filter: `{ resetToken: token, resetTokenExpiry: { $gt: now } }`. */
  predicate AcceptsReset(u: User, token: string, now: int) {
    u.resetToken == Some(token) && u.resetTokenExpiry.Some? && u.resetTokenExpiry.value > now
  }

  /** resetPassword's update: the new hash, and both token fields unset. */
  function CompleteReset(u: User, password: string): (r: User)
    ensures r.resetToken.None? && r.resetTokenExpiry.None?
    ensures forall candidate :: Compare(candidate, r.password) <==> candidate == password
    ensures r.(password := u.password, resetToken := u.resetToken, resetTokenExpiry := u.resetTokenExpiry) == u
    ensures UserValid(u) ==> UserValid(r)
  {
    u.(password := Some(Hash(password)), resetToken := None, resetTokenExpiry := None)
  }

  /** A token issued at `issued` opens a reset exactly for that token and
      exactly before `issued` plus one hour. */
  lemma ResetTokenLifetime(u: User, token: string, issued: int, now: int, candidate: string)
    ensures AcceptsReset(IssueResetToken(u, token, issued), candidate, now)
        <==> candidate == token && now < issued + ResetWindow
  {
  }

  /** A second request replaces the first token: only the newest one opens a reset. */
  lemma ReissueRevokes(u: User, first: string, second: string, t1: int, t2: int, now: int)
    requires first != second
    ensures !AcceptsReset(IssueResetToken(IssueResetToken(u, first, t1), second, t2), first, now)
  {
  }

  /** The token is single-use: once the reset is done no token opens another. */
  lemma ResetTokenSingleUse(u: User, password: string, token: string, now: int)
    ensures !AcceptsReset(CompleteReset(u, password), token, now)
  {
  }

  // ---------------------------------------------------------------- driver selection

  /** `id.length === 24 ? { _id: id } : { id }`; a 24-character parameter
      that is not hex fails to cast. */
  datatype Selector = ByObjectId(oid: ObjectId) | ByBusinessId(businessId: string) | Uncastable

  function DriverSelector(param: string): (s: Selector)
    ensures s.ByBusinessId? <==> |param| != 24
    ensures s.ByBusinessId? ==> s.businessId == param
    ensures s.ByObjectId? <==> CastObjectId(param).Some?
    ensures s.ByObjectId? ==> CastObjectId(param) == Some(s.oid)
  {
    if |param| == 24 then
      match CastObjectId(param)
      case None => Uncastable
      case Some(oid) => ByObjectId(oid)
    else ByBusinessId(param)
  }

  predicate Selects(s: Selector, d: Driver) {
    match s
    case ByObjectId(oid) => d.id == oid
    case ByBusinessId(b) => d.businessId == b
    case Uncastable => false
  }

  /** A driver can always be reached through its `_id`. */
  lemma ObjectIdSelects(d: Driver)
    ensures Selects(DriverSelector(d.id), d)
  {
    CastCanonical(d.id, d.id);
  }

  /** A business id of exactly 24 characters can never select its driver:
      such a parameter is always read as an `_id`. */
  lemma LongBusinessIdUnreachable(d: Driver, param: string)
    requires |d.businessId| == 24 && Selects(DriverSelector(param), d)
    ensures CastObjectId(param) == Some(d.id)
  {
  }

  /** updateDriver's `{ name, email, mobile, address, area, id }` with the
      absent fields dropped; the `trim` setter still applies to the name.
      The `_id` and the password hash are never touched. */
  function ApplyDriverPatch(d: Driver, p: DriverPatch): (r: Driver)
    ensures r.id == d.id && r.password == d.password
    ensures r.name == (if p.name.Some? then Trim(p.name.value) else d.name)
    ensures p.email.None? ==> r.email == d.email
    ensures p.email.Some? ==> r.email == p.email.value
    ensures p.mobile.None? ==> r.mobile == d.mobile
    ensures p.mobile.Some? ==> r.mobile == p.mobile.value
    ensures p.address.None? ==> r.address == d.address
    ensures p.address.Some? ==> r.address == p.address.value
    ensures p.area.None? ==> r.area == d.area
    ensures p.area.Some? ==> r.area == p.area.value
    ensures p.businessId.None? ==> r.businessId == d.businessId
    ensures p.businessId.Some? ==> r.businessId == p.businessId.value
  {
    Driver(d.id,
           if p.name.Some? then Trim(p.name.value) else d.name,
           p.email.GetOr(d.email), d.password, p.mobile.GetOr(d.mobile),
           p.address.GetOr(d.address), p.area.GetOr(d.area), p.businessId.GetOr(d.businessId))
  }

  /** An update that sends nothing leaves the driver as it was. */
  lemma EmptyDriverPatch(d: Driver)
    ensures ApplyDriverPatch(d, DriverPatch(None, None, None, None, None, None)) == d
  {
  }

  // ---------------------------------------------------------------- bin update

  /** updateBin's update document: the fields sent, and the located
      coordinates. `locationName` is not a path of the Bin schema, so the
      place's display name is not stored. */
  function ApplyBinPatch(b: Bin, p: BinPatch, place: Place): (r: Bin)
    ensures r.id == b.id
    ensures r.latitude == Some(place.lat) && r.longitude == Some(place.lon)
    ensures p.bin.None? ==> r.bin == b.bin
    ensures p.bin.Some? ==> r.bin == p.bin.value
    ensures p.locality.None? ==> r.locality == b.locality
    ensures p.locality.Some? ==> r.locality == p.locality.value
    ensures p.landmark.None? ==> r.landmark == b.landmark
    ensures p.landmark.Some? ==> r.landmark == p.landmark.value
    ensures p.city.None? ==> r.city == b.city
    ensures p.city.Some? ==> r.city == p.city.value
    ensures p.loadType.None? ==> r.loadType == b.loadType
    ensures p.loadType.Some? ==> r.loadType == p.loadType.value
    ensures p.driverEmail.None? ==> r.driverEmail == b.driverEmail
    ensures p.driverEmail.Some? ==> r.driverEmail == p.driverEmail.value
    ensures p.cyclePeriod.None? ==> r.cyclePeriod == b.cyclePeriod
    ensures p.cyclePeriod.Some? ==> r.cyclePeriod == p.cyclePeriod.value
    ensures p.bestRoute.None? ==> r.bestRoute == b.bestRoute
    ensures p.bestRoute.Some? ==> r.bestRoute == p.bestRoute.value
  {
    Bin(b.id, p.bin.GetOr(b.bin), p.locality.GetOr(b.locality), p.landmark.GetOr(b.landmark),
        p.city.GetOr(b.city), p.loadType.GetOr(b.loadType), p.driverEmail.GetOr(b.driverEmail),
        p.cyclePeriod.GetOr(b.cyclePeriod), p.bestRoute.GetOr(b.bestRoute),
        Some(place.lat), Some(place.lon))
  }

  /** Re-locating a bin from its address alone (the update page sends only
      locality, landmark and city) keeps the other five fields. */
  lemma RelocateKeepsDetails(b: Bin, locality: string, landmark: string, city: string, place: Place)
    ensures var r := ApplyBinPatch(b, BinPatch(None, Some(locality), Some(landmark), Some(city), None, None, None, None), place);
      r == b.(locality := locality, landmark := landmark, city := city,
              latitude := Some(place.lat), longitude := Some(place.lon))
  {
  }

  // ---------------------------------------------------------------- area search

  /** getBinsByArea's filter: the area occurs in the locality or the landmark, ignoring case. */
  function InArea(area: string): Bin -> bool {
    (b: Bin) => ContainsIgnoreCase(area, b.locality) || ContainsIgnoreCase(area, b.landmark)
  }

  /** getDriverByEmail's filter: the parameter occurs in the email, ignoring case. */
  function EmailContains(fragment: string): Driver -> bool {
    (d: Driver) => ContainsIgnoreCase(fragment, d.email)
  }

  // ---------------------------------------------------------------- daily purge

  function DatedOtherThan(day: string): Work -> bool {
    (w: Work) => w.date != day
  }

  /** `Work.deleteMany({ date: formattedYesterday })`: what remains. */
  function Purge(works: seq<Work>, today: Date): (r: seq<Work>)
    requires ValidDate(today)
    ensures forall w :: w in r <==> w in works && w.date != PurgeDate(today)
    ensures forall w: Work :: w.date != PurgeDate(today) ==> multiset(r)[w] == multiset(works)[w]
    ensures forall w: Work :: w.date == PurgeDate(today) ==> multiset(r)[w] == 0
  {
    Filter(works, DatedOtherThan(PurgeDate(today)))
  }

  /** Running the purge twice on the same day deletes nothing more. */
  lemma PurgeIdempotent(works: seq<Work>, today: Date)
    requires ValidDate(today)
    ensures Purge(Purge(works, today), today) == Purge(works, today)
  {
    var r := Purge(works, today);
    forall i | 0 <= i < |r| ensures DatedOtherThan(PurgeDate(today))(r[i]) {
      assert r[i] in r;
    }
    FilterAll(r, DatedOtherThan(PurgeDate(today)));
  }
}
