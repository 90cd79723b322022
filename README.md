# Waste-management backend, modelled in Dafny

This project models the server of a smart-city waste-management system and two pieces of its web client.

The server is an express application over a MongoDB database. It holds six collections: admins, users, drivers, bins, complaints and work entries. The parts modelled are:

- the mongoose schemas;
- the controllers that create, read, update and delete those documents;
- the `protect(role)` middleware that guards routes with a JWT cookie;
- the six routers;
- the daily job that purges yesterday's work entries.

The client parts are the clock display `formatTime` and the reset-password form.

How the model is built:

- **Database.** The database is a class, `Store.Database`, with one sequence field per collection.
- **Controllers.** Each controller is a method on that class. Its `ensures` give the status, the message and the payload of every reply, in both directions where the source branches. They also give the new contents of the collection it writes and state that the other collections are left unchanged.
- **Invariant.** Every write preserves `Valid()`. `Valid()` is what the unique indexes and the schema validators guarantee:
  - unique `_id`, email and mobile;
  - unique business id for drivers;
  - one work entry per area and per driver email;
  - documents that passed validation.
- **Invariant lemmas.** A separate lemma per write shows that the controller's own checks are exactly what the invariant needs (for example `Store.DriversUpdate`, `Store.WorksAppend`).
- **Pure logic.** The logic that does not touch the database has its own partners: round trips, idempotence and one-to-one properties. This covers the profile merge, driver selection, the patch documents, the reset-token lifetime, the geocoding pipeline, the ISO date of "yesterday", the route tables and the middleware's decision.
- **Client.** The reset-password page is a class with the page's state fields. Its handlers are methods.

Calls into code the model cannot see are parameters of the operations that use them:

- `jwt.verify`;
- the geocoder (an HTTP GET to Nominatim);
- the random reset token;
- `Date.now()`;
- the new document's ObjectId.

Three behaviours of the code a reader may not expect:

- updateBin writes a `locationName` that the Bin schema does not declare. Mongoose's strict mode drops it, so the model does not store it.
- updateUserProfile edits the user attached by `protect('user')`, not the `:userId` path parameter.
- resetPassword does not check the new password's length. The schema checks `minlength` on the 60-character bcrypt hash, not on the password.

## Model

| member | source | states |
|---|---|---|
| Store.Database.AdminSignup | Backend/src/controllers/admin.controller.js:15-57 | a password under 6 characters gives 400; a taken email or mobile gives 400; 201 exactly when the password is long enough, the email or mobile is unused and the trimmed document validates; on 201 the admin with the password's hash is appended, a token for its `_id` is issued and the reply profile has no password; 400 exactly in those two cases; every other reply stores nothing, sets no cookie and is the 500 "Internal server error. Please try again later." |
| Store.Database.AdminLogin | Backend/src/controllers/admin.controller.js:59-86 | 400 "No account" exactly when no admin has the email; 200 exactly when the admin with that email has a matching password; only then is a token issued, for that admin's `_id`; 400 "Incorrect password. Please try again." exactly when the admin with that email exists and the password does not match; any other reply is 400 with no cookie |
| Store.Database.GetAdmins | Backend/src/controllers/admin.controller.js:5-13 | 200 with every admin, in stored order |
| Http.Logout | Backend/src/controllers/admin.controller.js:88-96 | every logout answers 200 and clears the `jwt` cookie |
| Http.NextCookie | Backend/src/controllers/user.controller.js:155-163 | a cleared cookie is not sent again, a kept one is, and an issued one is sent as the signer's token for its subject |
| Store.Database.UserSignup | Backend/src/controllers/user.controller.js:83-124 | the admin signup rules on the user collection, with "User account created successfully." on 201: 400 exactly for a short password or a taken email or mobile, otherwise 201 or the 500 "try again later" reply |
| Store.Database.UserLogin | Backend/src/controllers/user.controller.js:126-153 | the admin login rules on the user collection: 400 "No account" exactly for an unknown email, 400 "Incorrect password. Please try again." exactly for a known email with a non-matching password, otherwise 200 with a token for that user's `_id` |
| Store.Database.GetUsers | Backend/src/controllers/user.controller.js:11-19 | 200 with every user, in stored order |
| Store.Database.GetUserByEmail | Backend/src/controllers/user.controller.js:22-44 | 404 "User not found" exactly when no user has the email; otherwise 200 with that user's profile, without the password |
| Store.Database.UpdateUserProfile | Backend/src/controllers/user.controller.js:47-81 | for the user attached by the middleware: 404 exactly when no user has its `_id`; 400 exactly when another user holds the sent email or mobile; 200 exactly when there is no conflict and the merged document validates; on 200 only that user changes, to the merge; every non-200 reply changes nothing |
| Store.Database.ForgotPassword | Backend/src/controllers/user.controller.js:166-185 | 400 "User not found" exactly when the email is unknown; otherwise that user alone gets the new token, expiring one hour after `now` |
| Store.Database.ResetPassword | Backend/src/controllers/user.controller.js:187-212 | 400 exactly when no user holds the token unexpired; otherwise the first user that does gets the new password's hash and loses its token, and no one else changes |
| Documents.ApplyProfile | Backend/src/controllers/user.controller.js:68-70 | each of email, mobile and city is replaced when sent non-empty and kept otherwise; no other field changes |
| Documents.ApplyProfileIdempotent | Backend/src/controllers/user.controller.js:68-70 | submitting the same profile twice changes nothing more than submitting it once |
| Documents.IssueResetToken | Backend/src/controllers/user.controller.js:174-177 | the token and an expiry one hour ahead are set, nothing else changes, and validity is unaffected |
| Documents.CompleteReset | Backend/src/controllers/user.controller.js:200-203 | both token fields are unset, the stored hash accepts the new password and nothing else, no other field changes, and a valid user stays valid |
| Documents.ResetTokenLifetime | Backend/src/controllers/user.controller.js:174-193 | an issued token opens a reset for exactly that token, and exactly before one hour has passed |
| Documents.ReissueRevokes | Backend/src/controllers/user.controller.js:174-177 | a second request makes the first token useless |
| Documents.ResetTokenSingleUse | Backend/src/controllers/user.controller.js:191-203 | after a reset no token opens another one |
| Store.UsersAppend | Backend/src/controllers/user.controller.js:92-107 | appending a fresh `_id` keeps the user collection consistent exactly when the document validates and its email and mobile are unused |
| Store.UsersProfileUpdate | Backend/src/controllers/user.controller.js:57-72 | once no other user holds the sent email or mobile, the merged collection is consistent exactly when the merged document validates |
| Store.UsersRefresh | Backend/src/controllers/user.controller.js:174-204 | a write that keeps `_id`, email and mobile (token fields, password) keeps the collection consistent |
| Store.UserIdUnique | Backend/src/controllers/user.controller.js:52 | in a consistent collection at most one user holds an `_id` |
| Store.AdminsAppend | Backend/src/controllers/admin.controller.js:19-39 | appending a fresh `_id` keeps the admin collection consistent exactly when the document validates and its email and mobile are unused |
| Store.Database.CreateDriver | Backend/src/controllers/driver.controller.js:6-35 | the signup checks (400); 201 exactly when they pass, the document validates and its business id is unused; on 201 the document is appended and returned; 400 exactly when the signup checks fail; every other reply stores nothing and is the 500 "try again later" reply, as for a failed validation or a repeated business id |
| Store.Database.GetAllDrivers | Backend/src/controllers/driver.controller.js:37-45 | 200 with every driver, in stored order |
| Store.Database.GetDriverByEmail | Backend/src/controllers/driver.controller.js:48-64 | 404 exactly when no driver's email contains the parameter, ignoring case; otherwise 200 with the first driver whose email does |
| Store.Database.DriverLogin | Backend/src/controllers/driver.controller.js:67-94 | the admin login rules on the driver collection: 400 "No account" exactly for an unknown email, 400 "Incorrect password. Please try again." exactly for a known email with a non-matching password, otherwise 200 with a token for that driver's `_id` |
| Store.Database.UpdateDriver | Backend/src/controllers/driver.controller.js:107-130 | an uncastable 24-character parameter gives 500; 404 exactly when nothing is selected; 200 exactly when a driver is selected and the patched document clashes with no other driver's email, mobile or business id; on 200 only that driver changes, to the patch; every non-200 reply changes nothing |
| Store.Database.DeleteDriver | Backend/src/controllers/driver.controller.js:133-151 | 500 exactly for an uncastable parameter; 404 exactly when nothing is selected, so a selected driver is always deleted with 200; on 200 the selected driver, and only it, is removed and returned, and afterwards no driver is selected |
| Documents.DriverSelector | Backend/src/controllers/driver.controller.js:113 | a parameter of any length other than 24 selects by business id; one of 24 selects by `_id` exactly when it casts |
| Documents.ObjectIdSelects | Backend/src/controllers/driver.controller.js:113 | every driver can be reached through its `_id` |
| Documents.LongBusinessIdUnreachable | Backend/src/controllers/driver.controller.js:113 | a driver whose business id has 24 characters is selected only through its `_id` |
| Documents.ApplyDriverPatch | Backend/src/controllers/driver.controller.js:108-117 | each sent field replaces the stored one (the name trimmed), absent fields are kept, and `_id` and password are never touched |
| Documents.EmptyDriverPatch | Backend/src/controllers/driver.controller.js:108-117 | an update that sends nothing leaves the driver unchanged |
| Store.DriversAppend | Backend/src/controllers/driver.controller.js:13-29 | appending a fresh `_id` keeps the driver indexes exactly when email, mobile and business id are all unused |
| Store.DriversUpdate | Backend/src/controllers/driver.controller.js:113-117 | a rewrite under the same `_id` keeps the unique indexes exactly when it clashes with no other driver |
| Store.DriversRemove | Backend/src/controllers/driver.controller.js:138-140 | removing a driver keeps the indexes |
| Store.SelectsUnique | Backend/src/controllers/driver.controller.js:113 | in a consistent collection a selector reaches at most one driver |
| Store.Database.GetBins | Backend/src/controllers/bin.controller.js:5-13 | 200 with every bin, in stored order |
| Store.Database.GetBinsByArea | Backend/src/controllers/bin.controller.js:16-37 | 404 with the area in the message exactly when no bin's locality or landmark contains the area, ignoring case; otherwise 200 with exactly those bins, in stored order |
| Store.Database.CreateBin | Backend/src/controllers/bin.controller.js:40-61 | 201 exactly when all eight fields are non-empty; the new bin has no coordinates and is appended; otherwise 500 and nothing stored |
| Store.Database.UpdateBin | Backend/src/controllers/bin.controller.js:64-128 | no locality or no city gives 400 with no query sent; the queries asked are those of the lookup; a transport failure gives 500; no location gives 404 with the full address; once located, an uncastable id gives 500; otherwise 200 ("(fallback)" when the reduced address was used), with the patched bin, or a null bin and no change for an unknown id |
| Store.Database.DeleteBin | Backend/src/controllers/bin.controller.js:131-144 | 500 exactly for an uncastable id, 404 exactly for an unknown one, so an existing bin is always deleted with 200; on 200 that bin alone is removed and none with the id remains |
| Geocoding.Locate | Backend/src/controllers/bin.controller.js:71-122 | the full address is asked first; the reduced address is asked exactly when the first reply lists nothing; the location is the first result of the last reply; a transport failure ends the lookup |
| Geocoding.LocateUsesOnlyItsQueries | Backend/src/controllers/bin.controller.js:76-122 | two geocoders that agree on the queries issued give the same lookup |
| Geocoding.FallbackDiffers | Backend/src/controllers/bin.controller.js:71-98 | the reduced address is a different query from the full one, shorter by the landmark and one separator |
| Documents.ApplyBinPatch | Backend/src/controllers/bin.controller.js:88-93 | the located coordinates are set, each sent field replaces the stored one, absent fields are kept, and `_id` is unchanged |
| Documents.RelocateKeepsDetails | Backend/src/controllers/bin.controller.js:88-93 | re-locating a bin from its address alone keeps its other five fields |
| Store.BinsAppend | Backend/src/controllers/bin.controller.js:44-55 | a new bin keeps the collection consistent exactly when it has a locality and a city |
| Store.BinsUpdate | Backend/src/controllers/bin.controller.js:67-93 | a rewrite under the same `_id` keeps the collection consistent exactly when locality and city are non-empty |
| Store.BinsRemove | Backend/src/controllers/bin.controller.js:135 | removing a bin keeps the collection consistent |
| Store.BinIdUnique | Backend/src/controllers/bin.controller.js:135 | at most one bin holds an `_id` |
| Store.Database.GetAllComplaints | Backend/src/controllers/complaint.controller.js:5-13 | 200 with every complaint, in stored order |
| Store.Database.CreateComplaint | Backend/src/controllers/complaint.controller.js:16-42 | 400 exactly when area, email or text is empty; 201 exactly when all five fields are non-empty; the stored complaint is Pending with its email lower-cased (ASCII letters); otherwise nothing is stored and the reply is 400, or the 500 "Server error" for a missing date or time |
| Store.Database.UpdateComplaintStatus | Backend/src/controllers/complaint.controller.js:45-68 | 400 exactly for a status outside the enum; 500 exactly for an enum status with an uncastable id; 404 exactly for an unknown id; so a valid status for an existing complaint is always applied with 200, and only that complaint's status changes |
| Store.ComplaintsAppend | Backend/src/controllers/complaint.controller.js:24-32 | a new complaint keeps the collection consistent exactly when it validates and its email is lower-case |
| Store.ComplaintsSetStatus | Backend/src/controllers/complaint.controller.js:60-61 | changing a status keeps the collection consistent |
| Store.ComplaintIdUnique | Backend/src/controllers/complaint.controller.js:55 | at most one complaint holds an `_id` |
| Store.Database.CreateWork | Backend/src/controllers/work.controller.js:4-31 | 400 exactly when the area already has an entry; 201 exactly when the area is free, the document validates and its email is unused; on 201 it is appended; every other reply stores nothing and is the 500 "Error creating work", as for a failed validation or a repeated email |
| Store.Database.GetAllWorks | Backend/src/controllers/work.controller.js:35-42 | 200 with every work entry, in stored order |
| Store.WorksAppend | Backend/src/controllers/work.controller.js:8-24 | a new entry keeps the collection consistent exactly when it validates and neither its area nor its email is taken |
| Store.Database.PurgeWorks | Backend/src/lib/cron.js:5-23 | the entries left are the old ones in order minus those dated yesterday; the count reported is the number removed |
| Store.WorksPurge | Backend/src/lib/cron.js:17 | the purge keeps the work collection consistent |
| Documents.Purge | Backend/src/lib/cron.js:17 | an entry survives exactly when its date is not yesterday's text, as often as before; entries of that date are all gone |
| Documents.PurgeIdempotent | Backend/src/lib/cron.js:17 | a second purge on the same day deletes nothing |
| Calendar.PrevDay | Backend/src/lib/cron.js:8-9 | the day before is a valid date and earlier |
| Calendar.PrevNextInverse | Backend/src/lib/cron.js:8-9 | the day before and the day after undo each other |
| Calendar.PrevDayIsImmediate | Backend/src/lib/cron.js:8-9 | no date lies strictly between the day before and the day |
| Calendar.FormatIso | Backend/src/lib/cron.js:11 | a date of a four-digit year is written as ten characters `YYYY-MM-DD` |
| Calendar.IsoRoundTrip | Backend/src/lib/cron.js:11 | the date can be read back from its text |
| Calendar.FormatIsoInjective | Backend/src/lib/cron.js:11 | different dates have different texts |
| Calendar.PurgeDate | Backend/src/lib/cron.js:7-11 | the text deleted is the `YYYY-MM-DD` of the day before today: it reads back as the date whose next day is today |
| Calendar.PurgeDateIsYesterday | Backend/src/lib/cron.js:6-17 | the purge's date text is a date's text exactly when that date is the day before today |
| Guard.Decide | Backend/src/middleware/auth.middleware.js:6-49 | no token gives 401 exactly; a token that fails to verify, or whose claim is not an ObjectId, gives 400 exactly; a falsy payload gives 401; an unknown role gives 400; a claim absent or naming no document of the role's collection gives 401; the request proceeds exactly when a verified token's claim casts to the `_id` of a document of the role's collection, and it then carries a stored document of that collection, with that `_id` and without its password |
| Guard.Protect | Backend/src/middleware/auth.middleware.js:6-49 | a denial sets the response and leaves `req.user`, `req.userRole` and the `next` count alone; a pass attaches the decided record and the role and calls `next` exactly once |
| Guard.FindById | Backend/src/middleware/auth.middleware.js:23-32 | a cast error exactly for a claim that is not an ObjectId; a document exactly when one with that `_id` exists, and then it is one of the collection |
| Guard.RoleSelectsCollection | Backend/src/middleware/auth.middleware.js:23-35 | the decision for a role does not depend on the other two collections |
| Guard.ForeignTokenRefused | Backend/src/middleware/auth.middleware.js:37-39 | a well-formed token whose subject is not in the role's collection is refused with 401 |
| Guard.LogoutEndsSession | Backend/src/middleware/auth.middleware.js:11-13 | after a logout every protected route answers 401 "No token" |
| Guard.ComplaintNeedsUserAccount | Backend/src/routes/complaint.route.js:8 | filing a complaint is guarded by the user collection, so a token whose subject is no user is refused |
| Guard.WorkRoutesRefuseOthers | Backend/src/routes/work.route.js:7-8 | no work route is open, and a token whose subject is neither admin nor driver is refused on every work route |
| Guard.ParseRole | Backend/src/middleware/auth.middleware.js:23-34 | exactly "admin", "driver" and "user" are roles, and each parses back to its name |
| Routes.ResolveFirstMatch | Backend/src/routes/bin.route.js:7-15 | no route exactly when no registration serves the request; otherwise the earliest serving registration decides |
| Routes.ResolveFromTable | Backend/src/routes/work.route.js:7-8 | every answer is no route or a registration of the table |
| Routes.BinRouteTable | Backend/src/routes/bin.route.js:7-15 | GET / is open; GET /:area needs a driver; create, update and delete need an admin |
| Routes.UserSessionRoutes | Backend/src/routes/user.route.js:7-9 | signup, login and logout are open |
| Routes.UserPasswordRoutes | Backend/src/routes/user.route.js:13-14 | forgot-password and reset-password/:token are open |
| Routes.UserProtectedRoutes | Backend/src/routes/user.route.js:10-12 | listing users needs an admin; reading and updating a profile need a user |
| Routes.DriverSessionRoutes | Backend/src/routes/driver.route.js:9-10 | driver login and logout are open |
| Routes.DriverProtectedRoutes | Backend/src/routes/driver.route.js:7-13 | creating, listing, updating and deleting drivers need an admin; looking a driver up by email needs a driver |
| Routes.ComplaintRouteTable | Backend/src/routes/complaint.route.js:8-14 | filing needs a user, listing is open, a status change needs an admin |
| Routes.AdminRouteTable | Backend/src/routes/admin.route.js:6-9 | signup, login and logout are open; listing admins needs an admin |
| Routes.WorkRouteTable | Backend/src/routes/work.route.js:7-8 | submitting work needs a driver, listing it an admin, and no work request is served openly |
| Models.NewAdminValid | Backend/src/models/admin.model.js:3-36 | a new admin validates exactly when its trimmed name, email and city are non-empty and its mobile is ten digits |
| Models.NewDriverValid | Backend/src/models/driver.model.js:4-46 | a new driver validates exactly when its trimmed name, email, address, area and business id are non-empty and its mobile is ten digits |
| Models.NewUserValid | Backend/src/controllers/user.controller.js:100-107 | the admin rules for a new user |
| Models.NewBinValid | Backend/src/models/bin.model.js:4-15 | a new bin validates exactly when its eight strings are non-empty, without coordinates |
| Models.NewComplaint | Backend/src/models/complaint.model.js:4-31 | a new complaint is Pending with an email lower-cased in its ASCII letters, and validates exactly when its five fields are non-empty |
| Models.ParseComplaintStatus | Backend/src/models/complaint.model.js:26-30 | exactly the three enum names are statuses |
| Models.ComplaintStatusRoundTrip | Backend/src/models/complaint.model.js:26-30 | enum names and statuses correspond one to one |
| Models.NewWork | Backend/src/models/work.model.js:4-22 | a work document is accepted exactly when email, area, time and date are non-empty and the status is an enum name, and then holds those values |
| Models.WorkStatusRoundTrip | Backend/src/models/work.model.js:15-19 | enum names and statuses correspond one to one |
| Text.TrimIdempotent | Backend/src/models/admin.model.js:4-8 | the `trim` setter applied twice is applied once |
| Text.ToLowerIsLower | Backend/src/models/complaint.model.js:12 | the `lowercase` setter leaves no ASCII upper-case letter |
| Text.ContainsIgnoreCaseBasics | Backend/src/controllers/bin.controller.js:21-26 | the case-insensitive search finds the empty needle and the text itself, in any case |
| Credentials.CastObjectId | Backend/src/controllers/bin.controller.js:135 | a string casts exactly when it is 24 hex digits, to the same digits in lower case |
| Credentials.CastCanonical | Backend/src/middleware/auth.middleware.js:25 | every ObjectId casts to itself, and only case variants of it cast to it |
| Credentials.CompareHash | Backend/src/controllers/admin.controller.js:68-71 | the hash of a password accepts that password and nothing else |
| TimeFormat.Hour12 | Frontend/src/lib/utils.js:9-10 | the hour shown is between 1 and 12 and agrees with the 24-hour value modulo 12 |
| TimeFormat.TwoDigits | Frontend/src/lib/utils.js:11-12 | minutes and seconds are written with two digits that read back as the value |
| TimeFormat.FormatTime | Frontend/src/lib/utils.js:2-15 | the text has 10 or 11 characters with the dots and the space in fixed positions from the end |
| TimeFormat.FormatTimeFields | Frontend/src/lib/utils.js:14 | the text is the hour, two-digit minutes, two-digit seconds and AM or PM, in that order |
| TimeFormat.MeridiemFollowsHour | Frontend/src/lib/utils.js:6 | the text ends in PM exactly from noon on |
| TimeFormat.MidnightAndNoon | Frontend/src/lib/utils.js:9-10 | midnight shows as 12 AM and noon as 12 PM |
| TimeFormat.SmallFieldsPadded | Frontend/src/lib/utils.js:11-12 | minutes and seconds below ten get a leading zero |
| TimeFormat.TimeRoundTrip | Frontend/src/lib/utils.js:2-15 | the time of day can be read back from the text |
| TimeFormat.FormatTimeInjective | Frontend/src/lib/utils.js:2-15 | different times of day are displayed differently |
| ResetPassword.EvaluateStrength | Frontend/src/pages/ResetPasswordPage.jsx:28-42 | only a password of at least eight characters is rated above Weak |
| ResetPassword.StrengthIgnoresOrder | Frontend/src/pages/ResetPasswordPage.jsx:28-42 | the meter tests only the length and which kinds of character occur, so two passwords made of the same characters in any order get the same strength |
| ResetPassword.StrengthMonotone | Frontend/src/pages/ResetPasswordPage.jsx:28-42 | typing more characters never lowers the strength |
| ResetPassword.ResetPasswordForm.constructor | Frontend/src/pages/ResetPasswordPage.jsx:8-11 | both fields and the strength start empty |
| ResetPassword.ResetPasswordForm.HandlePasswordChange | Frontend/src/pages/ResetPasswordPage.jsx:16-20 | the password is stored and its strength recomputed; the confirmation is kept |
| ResetPassword.ResetPasswordForm.HandleConfirmPasswordChange | Frontend/src/pages/ResetPasswordPage.jsx:23-25 | only the confirmation changes |
| ResetPassword.ResetPasswordForm.HandleSubmit | Frontend/src/pages/ResetPasswordPage.jsx:45-84 | blocked by "both required" exactly when a field is empty, by "do not match" exactly when they differ, by "stronger" exactly when the password is Weak; otherwise posted to the token's reset endpoint, so every password sent has at least eight characters |

## Left out

- I/O and environment: mail sending (the reset link and its template), console logging, the HTTP server, `index.js` mounting of the routers at their prefixes, CORS and cookie parsing.
- Database and network failures. The catch-all 500 replies of every controller for these are not modelled; the 500 replies that follow from a failed cast or a failed validation are. forgotPassword and resetPassword answer 400 with the error's message when a save fails; these save failures are left out too.
- Concurrency: requests are taken one at a time, so races between the existence check and the insert (which the unique index would then refuse) are not modelled.
- Request bodies: a field is a string, with "" standing for an absent or empty field; non-string JSON values are not modelled.
- JWT: signing, the secret and the expiry are the `verify` and `sign` parameters.
- bcrypt: an abstract one-way hash; the salt and the cost factor are not modelled.
- ObjectId generation: the new document's `_id` is a parameter, assumed unused.
- Store.Database.GetBinsByArea: the `$regex` search is modelled as a case-insensitive substring match, so regular-expression metacharacters in the area are not interpreted.
- Store.Database.GetDriverByEmail: the same substring simplification of `$regex`.
- Models.NewAdminValid: the email `match` patterns of the schemas are not modelled; an email is only required to be non-empty.
- Models.NewDriverValid: the email `match` pattern of driver.model.js is not modelled either, so Store.Database.CreateDriver does not answer 500 for a malformed email.
- Models.NewUserValid: no email pattern is checked for users.
- Models.NewWork: the email `match` pattern of work.model.js is not modelled, so Store.Database.CreateWork does not answer 500 for a malformed email.
- Models.NewUserValid: user.model.js is not part of this model; the User document has the fields user.controller.js uses and the Admin schema's rules.
- Documents.ApplyBinPatch: latitude and longitude are kept as the geocoder's opaque values; mongoose's cast to Number is not modelled. `locationName` is not stored (see above).
- Store.Database.UpdateBin: the query string encoding of the address for Nominatim and the request headers are not modelled.
- Calendar.PurgeDate: the job's clock is a parameter and the server is taken to run in UTC, so local and UTC dates agree; the node-cron schedule (midnight) itself is not modelled.
- Models.NewComplaint: the `lowercase` setter is modelled as lower-casing the ASCII letters A to Z only, whereas `toLowerCase` folds every Unicode letter; an email such as "ÉLISE@X.FR" is stored as "Élise@x.fr" by the model and as "élise@x.fr" by the server.
- Text.ToLowerIsLower: "lower-case" means no ASCII letter A to Z; non-ASCII upper-case letters are not considered.
- Store.Database.CreateComplaint: the stored email is lower-cased in ASCII only, for the same reason.
- Store.Database.GetBinsByArea: the search ignores case for ASCII letters only, whereas the `i` flag of a JavaScript regular expression also folds non-ASCII letters.
- Store.Database.GetDriverByEmail: the same ASCII-only case folding in the email search.
- Store.Database.AdminSignup: a body without a `password` field makes `password.length` throw, which the server answers with 500; the model reads the missing field as "" and answers 400 "at least 6 characters".
- Store.Database.UserSignup: the same missing-password case, answered with 500 by the server and 400 by the model.
- Store.Database.CreateDriver: the same missing-password case, answered with 500 by the server and 400 by the model.
- Store.Database.AdminLogin: a body without a `password` field makes `bcrypt.compare` throw, answered with 500; the model answers 400 "Incorrect password".
- Store.Database.UserLogin: the same missing-password case, answered with 500 by the server and 400 by the model.
- Store.Database.DriverLogin: the same missing-password case, answered with 500 by the server and 400 by the model.
- Store.Database.ResetPassword: a body without a `password` field makes `bcrypt.hash` throw, answered with 400 and bcrypt's message; the model stores the hash of "" and answers 200.
- Lengths are counted in Unicode scalar values, not in JavaScript's UTF-16 code units.
- Client: the toasts shown after the server answers, the loading state, navigation and rendering of the reset-password page; TimeFormat reads the three clock fields of a Date and not the Date itself.
