# AuthPlug handshake broker, modelled in Dafny

AuthPlug is a multi-tenant authentication broker. Third-party applications
(customers, or tenants) send their end-users to it to register or log in,
with TOTP two-factor verification. The user is then sent back to the
tenant's allow-listed origin carrying a single-use `authId`. The tenant's
backend trades that `authId` for a signed access token. A 30-day refresh
token in an httpOnly cookie keeps the session going by rotation. Tenant
administrators use a dashboard guarded by an 8-hour admin cookie.

This project models the broker's handshake state machine. It covers every
route handler that reads or writes the two stores:

- the durable store (customers, users, memberships, allowed origins,
  refresh tokens);
- the ephemeral, TTL-bound store (pending registrations, pending user and
  admin logins, pending company registrations, `authId` exchange entries).

It also models the redirect-origin gate, the admin-cookie reader and the
dashboard middleware.

## Layout

- `durable.dfy` (`Durable`) holds the tables as sequences in creation
  order, with `Valid()` standing for the database's unique and foreign-key
  constraints. Its lookups are `findUnique`/`findFirst`. Its inserts fail
  (`None`) exactly when a constraint would be violated. `Grows` is the
  history relation every route keeps. Customers and memberships are only
  appended. Users and refresh-token rows are never removed: a user keeps its
  id, email and TOTP secret, and a revoked token stays revoked. Allowed
  origins are not covered, since the redirect-URL route deletes them.
- `ephemeral.dfy` (`Ephemeral`) holds the Redis key space as tagged keys
  (`pending_reg:`, `pending_login:`, `pending_admin_login:`,
  `pending_company_reg:`, `auth_id:`), payloads and TTLs.
- `stores.dfy` (`Stores`) holds the pair of stores and the staging,
  consuming and committing steps.
- `capabilities.dfy` (`Capabilities`) gathers the code the routes call but
  that is not modelled, as function-valued fields of `Env`: bcrypt, otplib,
  JWT signing and verifying, and `new URL(..).origin`. The randomness the
  routes draw is gathered as values in `Draws`: tokens, TOTP secrets and
  generated row ids.
- `http.dfy` (`Http`) holds request cookies, response bodies, `Set-Cookie`
  attributes and the shared error strings.
- There is one module per route group, with one specification function per
  handler: `user_registration.dfy`, `user_login.dfy`, `admin_login.dfy`,
  `code_exchange.dfy`, `refresh_tokens.dfy`, `redirect_urls.dfy`,
  `company_registration.dfy` and `admin_account.dfy`. `handoff.dfy` holds
  the tail shared by the two routes that complete an end-user handshake.
- `broker.dfy` (`Broker.AuthBroker`) is a class whose fields are the two
  stores, with one method per state-changing route. Each method runs the
  route's guards and writes in the route's order. It is proved to produce
  the response and new stores that the route's specification function
  gives.
- `traces.dfy` (`Traces`) covers runs of any sequence of route calls. It
  proves what holds across requests:
  - history only grows;
  - memberships and identities never change;
  - a dead refresh value stays dead;
  - keys that no route writes stay absent.

## Where the code and the program's own API documentation differ (the model follows the code)

The dashboard's API documentation
(`src/app/admin/dashboard/_components/ApiDocsSection.tsx`) describes the
handshake to tenant developers. The code departs from it, and from the
flow it implies, in these places:

- User login never consults the tenant's allow-list: `redirectUrl` is
  stored unchecked (`UserLogin.LoginIgnoresAllowList`).
- Access tokens from the code exchange and from refresh rotation are signed
  with `expiresIn: "1h"`. The documentation says 15 minutes
  (`ApiDocsSection.tsx:104` and `:123`).
- The code exchange checks only that `customerId` is present. It never
  compares it with the tenant stored under the `authId`
  (`CodeExchange.TenantNotChecked`).
- Admin login stores its pending session under the key built from an
  un-awaited `generateToken()`. That key is always
  `pending_admin_login:[object Promise]`, and the client receives `{}` as
  `tempToken`.
- Admin login checks the `admin` membership before the password, so a
  non-admin is refused without a password check
  (`AdminLogin.NonAdminSkipsPasswordCheck`).
- In `2fa/setup` and `2fa/verify`, the refresh-token insert runs after the
  user transaction (or after the pending-login delete), outside any
  transaction. If it fails, the route answers 500 with the earlier writes
  already made.
- Any failure to create an allowed origin is answered 409.

## Model

| member | source | states |
|---|---|---|
| RedirectGate.ValidateRedirectUrl | src/lib/validateRedirectUrl.ts:3-16 | accepted exactly when the URL parses and some allow-list row has this tenant and the URL's origin; an unparsable URL is refused |
| RedirectGate.SameOriginSameAnswer | src/lib/validateRedirectUrl.ts:8-12 | two URLs with the same origin get the same answer, whatever their path or query |
| RedirectGate.OtherTenantsOriginRejected | src/lib/validateRedirectUrl.ts:9-12 | an origin allow-listed only for other tenants is refused |
| AdminAuth.GetAdminFromCookie | src/lib/adminAuth.ts:5-15 | claims come back exactly when the `adminToken` cookie is present, verifies, and carries role `admin`; they are the verified claims |
| Middleware.Route | src/middleware.ts:3-27 | redirect to login exactly for dashboard paths without an admin cookie, to the dashboard exactly for login/register with one, otherwise pass through |
| Middleware.OnlyPresenceMatters | src/middleware.ts:8-23 | the decision depends on the cookie's presence only, not its value |
| Middleware.BranchesExclusive | src/middleware.ts:7-24 | no path is both protected and an auth page |
| Ephemeral.KeyStringInjective | src/app/api/auth/register-user/route.ts:63-67 | distinct namespaced keys are distinct Redis strings, so flows cannot collide |
| Durable.LiveToken | src/app/api/auth/refresh-token/route.ts:21-24 | finds a non-revoked row with the digest, and finds none exactly when no such row exists |
| Durable.MembershipOf | src/app/api/auth/login/route.ts:63-70 | finds the (user, customer) membership, and none exactly when none exists |
| Durable.CustomerById | src/app/api/auth/login/route.ts:21-23 | finds the customer with that id, and none exactly when no row has it |
| Durable.UserByEmail | src/app/api/auth/login/route.ts:33-35 | finds a user with that email, and none exactly when no user has it |
| Durable.UserById | src/app/api/admin/change-password/route.ts:29 | finds the user with that id, and none exactly when no row has it |
| Durable.OriginRow | src/app/api/admin/redirect-urls/route.ts:43-46 | finds the row for that (tenant, origin) pair, the pair the unique constraint covers, and none exactly when none exists |
| Durable.OwnedOrigin | src/app/api/admin/redirect-urls/route.ts:73-75 | finds the row with that id owned by that tenant, and none exactly when no such row exists |
| Durable.InsertCustomer | src/app/api/auth/2fa/company-setup/route.ts:41-43 | the insert succeeds exactly when the id is new; it appends one row and keeps the history |
| Durable.InsertUser | src/app/api/auth/2fa/setup/route.ts:42-48 | the insert succeeds exactly when the id is new and the email unused; it appends one row and keeps the history |
| Durable.InsertOrigin | src/app/api/admin/redirect-urls/route.ts:42-55 | the create succeeds exactly when the id is new, the (tenant, origin) pair is new and the tenant exists; it appends one row (a refusal is the 409) |
| Durable.InsertMembership | src/app/api/auth/login/route.ts:73-79 | the insert succeeds exactly when the pair is new and both ends exist; it appends and keeps the history |
| Durable.InsertRefreshToken | src/app/api/auth/2fa/verify/route.ts:47-54 | the insert succeeds exactly when the id is new and the user exists; it appends one row |
| Durable.RevokeLive | src/app/api/auth/logout/route.ts:12-15 | marks revoked exactly the live rows with the digest; other rows and all other tables stay as they were |
| Durable.RevokeRow | src/app/api/auth/refresh-token/route.ts:71-74 | revokes the one row with that id and records its successor; nothing else changes |
| Durable.SetPassword | src/app/api/admin/change-password/route.ts:44-47 | replaces the hash of the user with that id only; emails and secrets are untouched |
| Durable.SetPasswordFindsNewHash | src/app/api/admin/change-password/route.ts:44-47 | after the update, the user is found with the new hash and everything else as before |
| Durable.DeleteOrigin | src/app/api/admin/redirect-urls/route.ts:81 | removes exactly one row when the id exists and none otherwise; other tables are untouched |
| UserRegistration.RegisterUser | src/app/api/auth/register-user/route.ts:8-83 | ordered refusals 400/404/403/409 change nothing; success writes no database row and stages the hashed password, the secret and the URL under `pending_reg:` for 600 s |
| UserRegistration.EnrollTx | src/app/api/auth/2fa/setup/route.ts:41-59 | appends the user and its `user` membership together, or nothing; it commits exactly when the user id is new, the email is free and the tenant exists |
| UserRegistration.Enroll | src/app/api/auth/2fa/setup/route.ts:41-102 | a failed transaction answers 500 with nothing written; otherwise the pending entry is consumed and a refresh row plus `auth_id:` entry follow; 201 exactly when the transaction and the later refresh insert both succeed (that insert can still fail with 500) |
| UserRegistration.SetupTotp | src/app/api/auth/2fa/setup/route.ts:7-108 | missing fields 400; unknown token 401 (expired); a wrong code 401 leaves the pending entry; a valid code for a pending entry always goes on to enrolment, and 201 happens only that way |
| Handoff.IssueSession | src/app/api/auth/2fa/verify/route.ts:43-81 | only the refresh table changes; on success one row with the digest of the cookie's value and a 30-day expiry is appended, and the `auth_id:` entry holds the user for 300 s; a failed insert answers 500 with no change |
| Handoff.CookieMatchesStoredDigest | src/app/api/auth/2fa/verify/route.ts:44-79 | the value set as the cookie hashes to the digest of the new live row |
| UserLogin.Link | src/app/api/auth/login/route.ts:62-80 | reuses an existing membership and its role, otherwise appends a `user` membership; the membership is found afterwards with the returned role |
| UserLogin.Login | src/app/api/auth/login/route.ts:6-111 | ordered refusals 400/404/401/403 change nothing, with unknown email and wrong password both answered 401; success links the membership and stages a `pending_login:` entry (300 s) holding the user, role, secret and URL |
| UserLogin.LoginIgnoresAllowList | src/app/api/auth/login/route.ts:6-104 | the outcome of login is the same whatever the allowed-origin table holds |
| UserLogin.VerifyLogin | src/app/api/auth/2fa/verify/route.ts:7-88 | missing fields 400; unknown token 401; a wrong code 401 keeps the pending entry; a right code consumes it and hands off the stored user, role and URL with 200 |
| UserLogin.VerifyLoginSingleUse | src/app/api/auth/2fa/verify/route.ts:40-41 | after a completed login, replaying the same token is answered as an expired session |
| AdminLogin.Login | src/app/api/admin/auth/login/route.ts:6-88 | ordered refusals 400/401/403 change nothing; success writes nothing durable and stores the admin's claims under the constant key `pending_admin_login:[object Promise]` |
| AdminLogin.NonAdminSkipsPasswordCheck | src/app/api/admin/auth/login/route.ts:30-41 | for a user who is not an admin of the tenant, the password checker cannot change the outcome |
| AdminLogin.Verify | src/app/api/admin/auth/2fa/route.ts:6-65 | missing fields 400; unknown token 401; a wrong code 401; a right code consumes the entry and sets the 8-hour `adminToken` cookie (SameSite Lax) signed over the stored claims |
| AdminLogin.EchoedTokenNeverCompletes | src/app/api/admin/auth/login/route.ts:61-73 | the `{}` a client echoes back (`[object Object]`) never names the stored session |
| AdminLogin.SecondLoginOverwritesFirst | src/app/api/admin/auth/login/route.ts:61-73 | two successful admin logins share one pending slot, and the later one wins |
| AdminLogin.AdminSessionRoundTrip | src/app/api/admin/auth/2fa/route.ts:39-56 | login then verify with a valid code yields a cookie the admin reader accepts with the admin's own id, email, tenant and role |
| CodeExchange.Redeem | src/app/api/auth/token/route.ts:6-65 | missing fields 400; an unknown `authId` 401; otherwise the entry is deleted and a 1-hour token over exactly the staged user's claims is returned |
| CodeExchange.RedeemSingleUse | src/app/api/auth/token/route.ts:43 | a redeemed `authId` is refused on any later exchange |
| CodeExchange.TenantNotChecked | src/app/api/auth/token/route.ts:11-41 | the `customerId` sent does not affect the outcome once present |
| CodeExchange.ClaimsOf | src/app/api/auth/token/route.ts:32-38 | the signed claims carry the staged user's id as `sub`, its email and tenant, and role `admin` exactly for an admin |
| CodeExchange.HandoffRedeems | src/app/api/auth/token/route.ts:21-50 | the `authId` a completed handshake hands off redeems for a token over exactly the claims of the user it staged |
| RefreshTokens.RotateTx | src/app/api/auth/refresh-token/route.ts:62-75 | appends the successor and revokes exactly the presented row (recording the successor's digest), or does nothing |
| RefreshTokens.Claims | src/app/api/auth/refresh-token/route.ts:78-87 | the claims carry the row's user and tenant, the membership's role and that user's email |
| RefreshTokens.Rotate | src/app/api/auth/refresh-token/route.ts:7-121 | no cookie 401; no live row 401; expired 401; no membership 403, all with no change; success rotates and returns a 1-hour token with the new cookie; a failed transaction answers 500 with no change |
| RefreshTokens.Reissue | src/app/api/auth/refresh-token/route.ts:58-112 | for a live, linked row: 200 exactly when the transaction succeeds, with the transaction's store, an access token over the row's claims and the new cookie; otherwise 500 with no change |
| RefreshTokens.RevokesOnlyPresented | src/app/api/auth/refresh-token/route.ts:71-74 | revoking by id after the insert touches the presented row and no other, the new row included |
| RefreshTokens.RotationRevokes | src/app/api/auth/refresh-token/route.ts:71-74 | after rotation, no live row carries the old digest |
| RefreshTokens.RotatedValueIsDead | src/app/api/auth/refresh-token/route.ts:21-31 | presenting a rotated value again is refused as revoked |
| RefreshTokens.SuccessorIsLive | src/app/api/auth/refresh-token/route.ts:62-70 | the new cookie's value finds a live row for the same user and tenant |
| RefreshTokens.Logout | src/app/api/auth/logout/route.ts:5-38 | always 200 and the cookie is cleared; with a cookie, every live row with its digest is revoked and the value is dead afterwards; without one, nothing changes |
| RefreshTokens.LogoutOfDeadValueChangesNothing | src/app/api/auth/logout/route.ts:9-16 | logging out a dead or unknown value leaves the stores unchanged |
| RefreshTokens.LogoutIdempotent | src/app/api/auth/logout/route.ts:5-31 | logging out twice is the same as once |
| RedirectUrls.TenantViews | src/app/api/admin/redirect-urls/route.ts:12-16 | the listing holds exactly the rows of the admin's tenant, projected to id, origin and creation time |
| RedirectUrls.TenantViewsAppend | src/app/api/admin/redirect-urls/route.ts:12-16 | order and multiplicity: a new row is added at the end of its own tenant's listing and nowhere else |
| RedirectUrls.List | src/app/api/admin/redirect-urls/route.ts:6-19 | 401 without an admin, otherwise the tenant's origins |
| RedirectUrls.ListShowsOnlyOwnTenant | src/app/api/admin/redirect-urls/route.ts:12-14 | another tenant's origin never appears in the listing |
| RedirectUrls.Add | src/app/api/admin/redirect-urls/route.ts:22-58 | 401 / 400 missing / 400 unparsable; a duplicate (tenant, origin) or any create failure 409; 201 exactly when an admin sends a parseable URL and the insert is accepted, appending the parsed origin for the admin's tenant |
| RedirectUrls.Remove | src/app/api/admin/redirect-urls/route.ts:60-84 | 401 / 400 / 404 for an id of another tenant or none; 200 removes exactly that row |
| RedirectUrls.RemovedOriginNoLongerListed | src/app/api/admin/redirect-urls/route.ts:73-83 | after removal the id is absent from the listing |
| CompanyRegistration.FoundTx | src/app/api/auth/register-customer/route.ts:34-60 | appends customer, admin user and `admin` membership together, or nothing; it fails when the email is taken |
| CompanyRegistration.FoundAdminIsFound | src/app/api/auth/register-customer/route.ts:43-57 | after the transaction the admin is found by email with the `admin` membership of the new tenant |
| CompanyRegistration.CompanySetup | src/app/api/auth/2fa/company-setup/route.ts:6-80 | 400 / 401 expired / 401 wrong code change nothing; a valid code whose transaction is refused answers 500 and changes nothing; 201 exactly when the transaction commits, founding the tenant with the verified secret and consuming the pending entry |
| CompanyRegistration.RegisterCustomer | src/app/api/auth/register-customer/route.ts:5-72 | 400 missing fields / 409 email taken change nothing; 201 founds the tenant with an admin who has no TOTP secret; the ephemeral store is untouched |
| CompanyRegistration.AdminWithoutTotpRefused | src/app/api/admin/auth/login/route.ts:52-58 | an admin with the right password but no secret is refused with 403 |
| CompanyRegistration.DirectAdminCannotLogIn | src/app/api/auth/register-customer/route.ts:43-48 | the admin created by direct customer registration is refused at admin login with 403 (2FA not set up) |
| AdminAccount.ChangePassword | src/app/api/admin/change-password/route.ts:6-53 | 401 / 400 missing / 400 shorter than 8 / 404 / 401 wrong current password change nothing; 200 stores the hash of the new password for the admin |
| AdminAccount.NewPasswordStored | src/app/api/admin/change-password/route.ts:44-51 | after a 200, the admin is found with the hash of the new password |
| AdminAccount.TenantMembers | src/app/api/admin/users/route.ts:11-21 | exactly the memberships of the tenant, and no more of them than there are rows |
| AdminAccount.TenantMembersAppend | src/app/api/admin/users/route.ts:11-21 | order and multiplicity: a new membership is added at the end of its own tenant's listing and nowhere else |
| AdminAccount.Rows | src/app/api/admin/users/route.ts:23-28 | one row per membership, with the member's id and email, the role, and the join time |
| AdminAccount.ListUsers | src/app/api/admin/users/route.ts:5-31 | 401 without an admin, otherwise one row per membership of the tenant |
| AdminAccount.StatsOf | src/app/api/admin/stats/route.ts:5-24 | 401 without an admin, otherwise the member and origin counts of the tenant |
| AdminAccount.CountsMatchListings | src/app/api/admin/stats/route.ts:11-18 | the counts equal the lengths of the user and origin listings |
| AdminAccount.MemberCount | src/app/api/admin/stats/route.ts:12-14 | the member count is the number of the tenant's memberships |
| AdminAccount.OriginCount | src/app/api/admin/stats/route.ts:15-17 | the origin count is the number of the tenant's origins |
| AdminAccount.CountMembers | src/app/api/admin/stats/route.ts:12-14 | at most the number of memberships, and zero exactly when none belongs to the tenant |
| AdminAccount.CountOrigins | src/app/api/admin/stats/route.ts:15-17 | at most the number of origins, and zero exactly when none belongs to the tenant |
| AdminAccount.OtherTenantsNotCounted | src/app/api/admin/stats/route.ts:12-14 | another tenant's membership does not change the count |
| AdminAccount.MeOf | src/app/api/admin/me/route.ts:5-28 | 401 without an admin, otherwise the claims of the cookie and the tenant's name |
| AdminAccount.MeIgnoresUserTable | src/app/api/admin/me/route.ts:11-26 | the answer comes from the cookie's claims, not from the user table |
| Broker.AuthBroker.constructor | src/app/api/auth/login/route.ts:6 | a broker over a valid database starts with an empty ephemeral store |
| Broker.AuthBroker.Expire | src/app/api/auth/register-user/route.ts:66 | a TTL running out removes just that entry |
| Broker.AuthBroker.RegisterUser | src/app/api/auth/register-user/route.ts:8-83 | the response and new stores are those of `UserRegistration.RegisterUser` |
| Broker.AuthBroker.IssueSession | src/app/api/auth/2fa/verify/route.ts:43-81 | the response and new stores are those of `Handoff.IssueSession` |
| Broker.AuthBroker.SetupTotp | src/app/api/auth/2fa/setup/route.ts:7-108 | the response and new stores are those of `UserRegistration.SetupTotp` |
| Broker.AuthBroker.Login | src/app/api/auth/login/route.ts:6-111 | the response and new stores are those of `UserLogin.Login` |
| Broker.AuthBroker.VerifyLogin | src/app/api/auth/2fa/verify/route.ts:7-88 | the response and new stores are those of `UserLogin.VerifyLogin` |
| Broker.AuthBroker.AdminLogin | src/app/api/admin/auth/login/route.ts:6-88 | the response and new stores are those of `AdminLogin.Login` |
| Broker.AuthBroker.AdminVerify | src/app/api/admin/auth/2fa/route.ts:6-65 | the response and new stores are those of `AdminLogin.Verify` |
| Broker.AuthBroker.RedeemAuthId | src/app/api/auth/token/route.ts:6-65 | the response and new stores are those of `CodeExchange.Redeem` |
| Broker.AuthBroker.Rotate | src/app/api/auth/refresh-token/route.ts:7-121 | the response and new stores are those of `RefreshTokens.Rotate` |
| Broker.AuthBroker.CommitRotation | src/app/api/auth/refresh-token/route.ts:58-112 | the response and new stores are those of `RefreshTokens.Reissue` |
| Broker.AuthBroker.Logout | src/app/api/auth/logout/route.ts:5-38 | the response and new stores are those of `RefreshTokens.Logout` |
| Broker.AuthBroker.AddOrigin | src/app/api/admin/redirect-urls/route.ts:22-58 | the response and new stores are those of `RedirectUrls.Add` |
| Broker.AuthBroker.RemoveOrigin | src/app/api/admin/redirect-urls/route.ts:60-84 | the response and new stores are those of `RedirectUrls.Remove` |
| Broker.AuthBroker.ChangePassword | src/app/api/admin/change-password/route.ts:6-53 | the response and new stores are those of `AdminAccount.ChangePassword` |
| Broker.AuthBroker.CompanySetup | src/app/api/auth/2fa/company-setup/route.ts:6-80 | the response and new stores are those of `CompanyRegistration.CompanySetup` |
| Broker.AuthBroker.RegisterCustomer | src/app/api/auth/register-customer/route.ts:5-72 | the response and new stores are those of `CompanyRegistration.RegisterCustomer` |
| Traces.KeyNeverStaged | src/app/api/auth/2fa/company-setup/route.ts:19 | a key no step of a run writes is still absent after the run |
| Traces.EchoedAdminTokenNeverWorks | src/app/api/admin/auth/login/route.ts:61-64 | after any run, verifying with the echoed `[object Object]` token is answered as an expired session |
| Traces.CompanySetupNeedsOutsideWriter | src/app/api/auth/2fa/company-setup/route.ts:19-26 | no modelled route writes `pending_company_reg:`, so company setup can only answer that the session expired |
| Traces.StepKeepsDead | src/app/api/auth/refresh-token/route.ts:21-24 | a route call that does not mint the value keeps a dead refresh value dead |
| Traces.DeadValueStaysDead | src/app/api/auth/refresh-token/route.ts:21-31 | a dead refresh value stays dead through any run that does not draw it again, and rotating it is refused as revoked |
| Traces.RoleNeverChanges | src/app/api/auth/login/route.ts:63-80 | once created, a membership is found with the same role after any run |
| Traces.IdentityNeverChanges | src/app/api/admin/change-password/route.ts:44-47 | a user keeps its id, email and TOTP secret through any run; only the password hash can change |

## Left out

- The UI (pages, forms, components) and the generated `src/app/api/auth/register-user/routes.ts`, which the route table never reaches, are not modelled.
- `src/lib/auth.ts` (signing, verifying, hashing) and `src/lib/prisma`/`src/lib/redis` are not part of this model. Their behaviour is the capability functions in `Env`. Lemmas that need a round trip (verify after sign, check after hash) state it as a requirement.
- bcrypt, otplib (including its time window), JWT expiry arithmetic and WHATWG URL parsing are not modelled: they are opaque functions, and the token lifetimes are kept as the strings the code passes.
- Network and database I/O errors are left out. Only constraint violations are modelled as failures, and they give the route's 500 (or 409 for adding an origin).
- Redis expiry has no clock. It is the separate `Expire` step, which may drop any entry at any time.
- Concurrency is left out (racing double submits, the non-atomic get-then-delete, the un-awaited `redisClient.del` in the token route). Each route is one atomic step, and the delete in the token route is taken to have happened.
- The writer of `pending_company_reg:` entries is not part of this model. Company setup therefore only consumes entries that are already present.
- Success message strings and the exact JSON error texts are not modelled. Error texts are kept as named constants.
- Refresh-token rows are not linked to a customer row: `customerId` is carried but not checked as a foreign key, as the rotation route never relies on it.
- The `createdAt` ordering of listings is the order of the sequences.
- `AdminAccount.ChangePassword`: the 8-character minimum is on Dafny characters, not JavaScript UTF-16 code units.
- TOTP checks (`2fa/setup` line 31, `2fa/verify` line 31, admin `2fa` line 30, `2fa/company-setup` line 30) call otplib's `verify` without `await`. The model takes it to return a boolean at once (`Env.verifyTotp`). If the installed otplib returns a promise there, every code would pass, and that is not modelled.
- The middleware's `config.matcher` (`src/middleware.ts:29-31`) is not modelled. `Middleware.Route` is the function body alone, so it would also redirect a path such as `/admin/dashboardX`, which the matcher never hands to the middleware.
- Read-only `GET` routes (users, stats, me, redirect-url listing) are functions on the stores, not methods of the broker class, since they change nothing.
