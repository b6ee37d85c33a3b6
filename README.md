# Authentication and role authorisation of the healthcare portal, in Dafny

This project models the part of the portal that decides who a caller is and what
that caller may see:

- **The authentication endpoints** (`server/src/controllers/authController.ts`):
  register, login, token refresh, logout, password-reset request and e-mail
  verification. They are methods of a class `AuthController.Controller` whose one
  mutable field is the `users` table, a map from the primary key to a row. The
  table's constraints come from `server/src/config/database.ts`: unique e-mail,
  the CHECK on role (the `Role` type) and the CHECK on gender. Every stored e-mail
  is in lower case. These form `Users.WellFormed`, an invariant every method keeps.
- **The request middleware** (`server/src/middleware/auth.ts`):
  - `authenticate` and `optionalAuth` are methods that may set the request's
    `user` field;
  - `authorize` is a pure decision over the allow-list.
- **The request validator** (`server/src/middleware/validation.ts`):
  - `validateRequest` builds its error record in a loop over the validator's
    details;
  - the schema constraints that are plain predicates (the `startTime` pattern,
    the duration and pagination bounds, the register body) are modelled beside it.
- **The client's role gating**:
  - the route guard and route table of `client/src/App.tsx`;
  - the dashboard link of the navigation bar;
  - the role filter over the sidebar's link table.

  These are proved consistent with each other: every link a role is shown is one
  its guard admits.

Foreign primitives are abstracted:

- **bcrypt**: a hash function `hash: string -> Digest` fixed when the store is
  created. `Compare(hash, pw, stored)` holds exactly when `stored == hash(pw)`.
- **jsonwebtoken**: a token is `Token(payload, secret, expiry)`, written as text by
  a `Codec`. The model assumes only that decoding undoes encoding and that the
  empty text decodes to nothing (`Jwt.Faithful`).
  `Verify` succeeds exactly when the text decodes, the secret matches and the token
  has not expired.
- **uuid and the clock**: the fresh id, the fresh reset token and the current
  instant (milliseconds) are parameters of the operations.

### Login tells a deactivated account apart

`login` checks the active flag before the password, so a deactivated account
gets its own message, "Account is deactivated"
(`server/src/controllers/authController.ts:143-148`), whatever password is
given. An unknown e-mail and a wrong password share "Invalid email or password".
`Controller.Login` states all three outcomes.

### The index route sends every user to the patient dashboard

`client/src/App.tsx:49-57` redirects every signed-in user to `/patient/dashboard`,
whatever the role. The guard there then sends any non-patient on to
`/unauthorized`. `ClientRoutes.IndexRedirects` states both steps.

## Model

| member | source | states |
|---|---|---|
| Types.ParseRole | server/src/types/index.ts:22-27 | a string is read as a role exactly when it is the wire value of that role; every other string names no role |
| Types.ParseRoleName | server/src/types/index.ts:22-27 | reading back the wire value of a role gives that role |
| Jwt.DefaultSecretsDiffer | server/src/config/env.ts:8-13 | the default access and refresh secrets differ, and the access lifetime (7 days) is shorter than the refresh lifetime (30 days) |
| Jwt.Verify | server/src/middleware/auth.ts:33 | a successful verification returns the claims of a decoded token signed with the given secret and not yet expired |
| Jwt.EmptyTokenRejected | server/src/middleware/auth.ts:33 | the empty text never verifies, under any secret |
| Jwt.SignThenVerify | server/src/controllers/authController.ts:10-16 | a signed token verifies, giving back its claims, under its own secret before its expiry; it fails under any other secret and once expired |
| Users.Lower | server/src/controllers/authController.ts:38 | lower-casing keeps the length and lower-cases every character on its own |
| Users.LowerIsLower | server/src/controllers/authController.ts:38 | the lower case of any string has no upper-case letter |
| Users.LowerOfLower | server/src/controllers/authController.ts:131 | a string already in lower case is its own lower case, so a stored e-mail is found by the lower case of any spelling of it |
| Users.LowerIdempotent | server/src/controllers/authController.ts:60 | lower-casing twice is lower-casing once |
| Users.LowerPointwise | server/src/controllers/authController.ts:38 | a string that agrees character by character with the lower case of another is its lower case |
| Users.InsertKeepsWellFormed | server/src/config/database.ts:24-46 | inserting a row under a new key, with a new lower-case e-mail and an admitted gender, keeps every table constraint |
| Users.UpdateKeepsWellFormed | server/src/config/database.ts:24-46 | changing a row's columns other than its e-mail and profile keeps every table constraint |
| Users.ViewHidesSecrets | server/src/controllers/authController.ts:96-108 | the user object returned to clients is the same for rows that differ only in password hash and tokens, so it reveals none of them |
| AuthController.GenerateTokens | server/src/controllers/authController.ts:9-19 | the access token decodes to the claims signed with the access secret, expiring the access lifetime after now; the refresh token likewise with the refresh secret and lifetime |
| AuthController.GeneratedTokensVerify | server/src/controllers/authController.ts:9-19 | both tokens carry the same claims; each verifies under its own secret until its lifetime ends; with distinct secrets neither verifies under the other's secret |
| AuthController.Controller.constructor | server/src/config/database.ts:24-46 | the store starts from a well-formed table |
| AuthController.Controller.Register | server/src/controllers/authController.ts:21-120 | a body without an e-mail gives 500 "Registration failed" and no change. A taken lower-cased e-mail gives 400 "User already exists with this email" and no change. A missing password, name or role, an id collision, an unknown role or a gender failing its CHECK gives 500 "Registration failed" and no change. Otherwise exactly one row is added under the fresh id: lower-cased e-mail, the password's hash, active and verified. The answer is 201 with the password-free view and tokens for the row's claims |
| AuthController.Controller.Login | server/src/controllers/authController.ts:124-201 | a body without an e-mail gives 500 "Login failed". An unknown e-mail gives 400 "Invalid email or password". An inactive account gives 400 "Account is deactivated" whatever the password. For an active account, a missing password gives 500 "Login failed" and a wrong one 400 "Invalid email or password". None of these changes anything. On success only that user's `lastLogin` changes, and the tokens carry the stored id, e-mail and role |
| AuthController.Controller.RefreshToken | server/src/controllers/authController.ts:205-254 | a missing or empty token gives 400. A token failing verification under the refresh secret, or whose user is missing or inactive, gives 401 "Invalid refresh token". Otherwise a new pair is built from the current row. The table is not touched |
| AuthController.Controller.Logout | server/src/controllers/authController.ts:264-271 | always 200 "Logged out successfully", with no state change |
| AuthController.Controller.ResetPassword | server/src/controllers/authController.ts:273-313 | a body without an e-mail string gives 500 "Password reset failed" and no change. Otherwise the answer is the same whether or not the e-mail belongs to an active user. Only for such a user are the reset token and an expiry one hour ahead stored; otherwise the table is unchanged |
| AuthController.Controller.VerifyEmail | server/src/controllers/authController.ts:316-340 | no row holding the token gives 400 "Invalid verification token" and no change. Otherwise exactly one holder is marked verified with its token cleared, and nothing else changes |
| AuthScenarios.CaseInsensitiveAccount | server/src/controllers/authController.ts:36-39 | after registering "a@x.com", logging in as "A@X.com" succeeds with the patient claims, and registering "A@x.COM" is refused as a duplicate |
| AuthMiddleware.BearerToken | server/src/middleware/auth.ts:23-30 | a credential is found exactly when the header starts with "Bearer ", and it is the header from index 7 on |
| AuthMiddleware.BearerRoundTrip | server/src/middleware/auth.ts:30 | prefixing a token with "Bearer " and extracting it gives the token back |
| AuthMiddleware.Resolve | server/src/middleware/auth.ts:23-61 | each outcome exactly: no `Bearer ` header; a token that does not verify; a verified token whose user is missing; one whose user is inactive; and otherwise the identity taken from the row, not from the token's claims |
| AuthMiddleware.EmptyBearerRefused | server/src/middleware/auth.ts:30-33 | the header "Bearer " with nothing after it is refused as a token that does not verify |
| AuthMiddleware.DeactivatedUserRefused | server/src/middleware/auth.ts:50-55 | a deactivated user is refused even with an unexpired, correctly signed access token |
| AuthMiddleware.ActiveUserResolved | server/src/middleware/auth.ts:57-63 | an active user's unexpired access token resolves to the identity stored in the row |
| AuthMiddleware.Authenticate | server/src/middleware/auth.ts:15-69 | each failed check gives 401 with its own message and leaves `req.user` alone. On success `req.user` is the row's identity and `next` is called |
| AuthMiddleware.Authorize | server/src/middleware/auth.ts:79-96 | `next` exactly when there is a user whose role is listed. No user gives 401; an unlisted role gives 403 |
| AuthMiddleware.EmptyAllowListRefusesAll | server/src/middleware/auth.ts:88-93 | with an empty allow-list every authenticated user gets 403 |
| AuthMiddleware.OptionalAuth | server/src/middleware/auth.ts:99-131 | always `next` and never an error. `req.user` is set exactly when the credential resolves to an active user |
| Validation.Keyed | server/src/middleware/validation.ts:17-19 | one write per detail, in order, keyed by the prefix and the path joined with "." |
| Validation.RecordLastWins | server/src/middleware/validation.ts:18 | a key is in the record exactly when it was there before or some write names it and it is not `__proto__` (whose write a plain object ignores); its value is that of the last write naming it |
| Validation.RecordEmptyIffNothingStored | server/src/middleware/validation.ts:43 | the record is empty exactly when every reported detail was keyed `__proto__`, in particular when none was reported |
| Validation.ProtoDetailIgnored | server/src/middleware/validation.ts:18 | a lone body detail at path `__proto__` leaves the record empty |
| Validation.RecordAppend | server/src/middleware/validation.ts:11-41 | writing two runs of details one after the other equals writing their concatenation |
| Validation.AddDetails | server/src/middleware/validation.ts:14-21 | one `forEach` loop leaves the record of its part's writes made in order on the incoming record (a `__proto__` key is not stored); a part not supplied or passing adds nothing |
| Validation.ValidateRequest | server/src/middleware/validation.ts:10-52 | body, then `query.`, then `params.` details are collected. The answer is 400 "Validation failed" with the record exactly when it is non-empty, that is when some detail was written under a key other than `__proto__`; otherwise `next` |
| Validation.PrefixedKeysDiffer | server/src/middleware/validation.ts:28 | a query key never equals a body key whose path does not itself start with "query." |
| Validation.StartTimePatternIsClockTime | server/src/middleware/validation.ts:91 | the `startTime` pattern accepts exactly H:MM and HH:MM with hour 0-23 and minute 00-59 |
| Validation.AppointmentTiming | server/src/middleware/validation.ts:91-92 | an appointment's timing is accepted exactly when it starts at a clock time and lasts 15 to 480 minutes, fractions included |
| Validation.Paginate | server/src/middleware/validation.ts:155-161 | for a query holding only the five declared keys, each at most once: accepted exactly when page is 1 to 2^53-1, limit is 1-100, sort (when given) is non-empty, order is asc/desc and search is 1 to 100 UTF-16 code units. The schema's output fills in page 1, limit 10 and order "desc"; `validateRequest` keeps only Joi's `error` (validation.ts:15, 25, 35), so these defaults never reach `req.query` |
| Validation.PaginateRefuses | server/src/middleware/validation.ts:158-160 | an empty `sort` or `search`, or a page beyond the safe integers, is refused |
| Validation.RegisterBodyAccepted | server/src/middleware/validation.ts:63-73 | an accepted register body holds e-mail, password, both names and a role; the role is one of the four and the gender one the table admits |
| Validation.Utf16Len | server/src/middleware/validation.ts:65-72 | a string's JavaScript length, which the schemas' `min` and `max` bound, lies between its character count and twice it; it equals the count exactly when no character lies beyond U+FFFF, and twice the count exactly when every character does |
| Validation.Utf16LenAppend | server/src/middleware/validation.ts:65-72 | the length of a concatenation is the sum of the lengths |
| Validation.AstralPasswordLength | server/src/middleware/validation.ts:65 | three characters beyond U+FFFF make a six-unit password, which meets the minimum of 6 |
| Validation.NoBreakSpacePhone | server/src/middleware/validation.ts:69 | the phone pattern's `\s` is JavaScript's, so a no-break space may separate digits |
| Validation.AstralSearchTooLong | server/src/middleware/validation.ts:160 | sixty characters beyond U+FFFF are 120 code units, too long a search |
| Validation.AcceptedRegisterBodyFitsTable | server/src/middleware/validation.ts:63-73 | the row inserted for an accepted body meets every per-row constraint of the table (lower-case e-mail, admitted gender, no reset token) and stores the password's hash, so only a taken e-mail or an id collision can stop the insert |
| ClientRoutes.ProtectedRoute | client/src/App.tsx:22-37 | no session or no user goes to `/login`, before any role check. An authenticated user with an unlisted role goes to `/unauthorized`. Otherwise the children render |
| ClientRoutes.AreaOf | client/src/App.tsx:47-145 | the route table is unambiguous: each route group is matched by exactly its own paths (`/`, `/login`, `/register`, a section with everything below it, `/unauthorized`), and every other path falls to the not-found page |
| ClientRoutes.Visit | client/src/App.tsx:47-145 | the public pages always render; a redirect goes only to `/login`, `/unauthorized` or the patient dashboard; `/unauthorized` is reached only by a signed-in user whose role the matched group does not allow |
| ClientRoutes.AreaOfSection | client/src/App.tsx:63-123 | every `/patient/…`, `/provider/…` and `/admin/…` path falls in its own guarded route group |
| ClientRoutes.SectionAllowLists | client/src/App.tsx:63-123 | `patient/*` admits only patients, `provider/*` doctors and nurses, `admin/*` only admins |
| ClientRoutes.GuardedNeedsSession | client/src/App.tsx:28-30 | without a session every guarded path redirects to `/login` |
| ClientRoutes.IndexRedirects | client/src/App.tsx:49-70 | for every user value, with or without a role, the index sends a session to `/patient/dashboard` and no session to `/login`; a signed-in non-patient is then sent on to `/unauthorized` |
| Navbar.GetDashboardLink | client/src/components/Layout/Navbar.tsx:26-39 | `/login` exactly without a user. Admin maps to the admin dashboard, doctor and nurse to the provider dashboard, and patient or any other role value to the patient dashboard |
| Navbar.DashboardLinkAdmitted | client/src/components/Layout/Navbar.tsx:26-39 | every role's dashboard link is admitted by that role's route guard |
| Navbar.UnknownRoleLinkRefused | client/src/components/Layout/Navbar.tsx:35-37 | a role value outside the enumeration is linked to the patient dashboard and refused there |
| Sidebar.FilterByRole | client/src/components/Layout/Sidebar.tsx:147-149 | an item is kept exactly when its roles include the role |
| Sidebar.SidebarFor | client/src/components/Layout/Sidebar.tsx:147-149 | with no user the sidebar is empty; otherwise it shows exactly the declared links whose roles include the user's role |
| Sidebar.FilterAppend | client/src/components/Layout/Sidebar.tsx:147-149 | filtering distributes over concatenation, so the declared order is kept |
| Sidebar.FilterKeepsAll | client/src/components/Layout/Sidebar.tsx:147-149 | a list every item of which admits the role is kept whole |
| Sidebar.FilterDropsAll | client/src/components/Layout/Sidebar.tsx:147-149 | a list no item of which admits the role is dropped whole |
| Sidebar.PatientItemsWellFormed | client/src/components/Layout/Sidebar.tsx:26-62 | the patient links have distinct names and hrefs, all under `/patient/` |
| Sidebar.ProviderItemsWellFormed | client/src/components/Layout/Sidebar.tsx:63-93 | the provider links have distinct names and hrefs, all under `/provider/` |
| Sidebar.AdminItemsWellFormed | client/src/components/Layout/Sidebar.tsx:94-137 | the admin links have distinct names and hrefs, all under `/admin/` |
| Sidebar.FilterPatientItems | client/src/components/Layout/Sidebar.tsx:26-62 | the patient links are kept whole for "patient" and dropped for every other role value |
| Sidebar.FilterProviderItems | client/src/components/Layout/Sidebar.tsx:63-93 | the provider links are kept whole for "doctor", all but Consultations for "nurse", and dropped otherwise |
| Sidebar.FilterAdminItems | client/src/components/Layout/Sidebar.tsx:94-137 | the admin links are kept whole for "admin" and dropped for every other role value |
| Sidebar.SidebarForSplits | client/src/components/Layout/Sidebar.tsx:147-149 | the filtered sidebar is the filtered patient, provider and admin links, in that order |
| Sidebar.FilterPerRole | client/src/components/Layout/Sidebar.tsx:147-149 | for any role value, which links the sidebar shows and in what order |
| Sidebar.SidebarIsRoleMenu | client/src/components/Layout/Sidebar.tsx:26-149 | each role's sidebar is exactly its own links in declared order |
| Sidebar.RoleMenuWellFormed | client/src/components/Layout/Sidebar.tsx:26-137 | each role's links have distinct names and hrefs and lie under its section |
| Sidebar.SidebarPerRole | client/src/components/Layout/Sidebar.tsx:26-165 | a patient sees 6 links, a doctor 5 (with Consultations), a nurse 4, an admin 7. Names, the list keys, are distinct, hrefs are distinct, and all lie under the role's section |
| Sidebar.UnknownRoleSeesNothing | client/src/components/Layout/Sidebar.tsx:147-149 | a role value outside the enumeration sees no link |
| Sidebar.SidebarLinksAdmitted | client/src/components/Layout/Sidebar.tsx:147-149 | every link a role's sidebar shows is admitted by that role's route guard |
| Sidebar.AtMostOneActive | client/src/components/Layout/Sidebar.tsx:161 | within a role's sidebar at most one link equals the current pathname, so at most one is marked active |

## Left out

- bcrypt, jsonwebtoken and uuid internals are not modelled: hashing is an uninterpreted function, token text a codec assumed only to round-trip, and fresh ids and tokens are parameters. Cryptographic strength and collision freedom are not modelled.
- Token lifetimes are in milliseconds. jsonwebtoken stores `iat` and `exp` in whole seconds, so the source's expiry can fall up to 999 ms earlier than the model's `now` plus lifetime. The parsing of strings such as `'7d'` and the reading of environment variables (`server/src/config/env.ts`) are not modelled; only the default values are.
- Database failures other than the insert's key and CHECK constraints (a lost connection, a failing UPDATE) are not modelled. In login, reset and verification such a failure answers 500 ("Login failed" and so on). In `authenticate` and `refreshToken` the query runs inside the inner `try` (`server/src/middleware/auth.ts:32-69`, `server/src/controllers/authController.ts:216-254`), so a database failure there answers 401 "Invalid or expired token" or "Invalid refresh token" instead.
- Register's duplicate check and insert are separated by `await`s in the source. The model makes register atomic, so the race in which two registrations of one e-mail both pass the check is not modelled. The UNIQUE constraint would turn the second into a 500.
- The row `register` reads back after inserting is taken to be the inserted row. `createdAt` and `lastLogin` are the instant passed in, not SQLite's `CURRENT_TIMESTAMP`/`datetime("now")` text.
- `Users.Lower` lower-cases ASCII letters only; JavaScript's full Unicode `toLowerCase` is not modelled.
- Validation.Paginate, Validation.RegisterBodyAccepted: only queries and bodies holding the declared keys, each given once, are modelled. Joi refuses an undeclared key (`object.unknown`) and a query parameter given twice, which arrives as an array; the source answers both with 400.
- Controller.Register, Controller.Login: a missing field is modelled, but a field of another JSON type (a number for `email`, say) is not; in the source `toLowerCase` or bcrypt then throws as well, which answers 500.
- Validation.Utf16Len: strings are sequences of Unicode scalar values, so a JavaScript string holding a lone surrogate cannot be expressed.
- Controller.VerifyEmail: the source updates `rows[0]`, the first match in SQLite's order. The model promises only that one matching row is updated, because the row order is not modelled.
- Controller.RefreshToken: the 500 "Token refresh failed" path is not modelled. It comes only from errors outside the inner `try`, such as a request without a body (`server/src/controllers/authController.ts:207`).
- Password-reset completion (replacing the hash with a reset token) does not exist in the source and is not modelled.
- Validation.AppointmentTiming, Validation.Paginate: Joi's conversion of strings to numbers and its rejection of infinities and NaN are not modelled; durations are exact reals and pages exact integers.
- The schema validator (Joi) is abstracted to the list of details it reports. `abortEarly`, the e-mail format, `date().max('now')`/`min('now')`, uuid formats, string-to-number conversion and the floating-point ranges of vitals and coordinates are not modelled. Of the schemas, only `startTime`, `duration`, `pagination` and `register` (without e-mail and date of birth) are modelled.
- The 500 answer of `authenticate` ("Authentication failed") is not modelled. It comes only from errors outside the inner `try`, and reading the header there does not fail.
- Console logging of e-mails and tokens, Express wiring, security headers, CORS, the global error handler and server start-up are not modelled.
- Client route matching is modelled for exact, case-sensitive paths. React Router's case-insensitive matching and trailing-slash handling are not modelled. The login, register, unauthorized and not-found pages render without a guard and are modelled only as `Render`.
- Sidebar icons, styling and the open/closed state, the navigation bar's menus, the chatbot, the dashboard and the client's HTTP service wrappers are user-interface code and are not modelled.
- Demo-user seeding (`server/src/config/database.ts:48-70`) is not modelled; the store starts from any well-formed table.
