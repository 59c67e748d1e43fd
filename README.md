# Authentication core of easy-search-server, modelled in Dafny

This project models the authentication core of the server. It covers three
things:

- the auth service: registration, credential login, Google login, refresh-token
  rotation and logout;
- the user service: admin creation and `getMe`;
- the request guard of protected routes, and the global exception filter that
  turns a thrown value into an error reply.

The credential store is a class, `Store.Store`. It holds the user table, the
customer, host and admin profile tables, and the refresh-token table. The
refresh-token table is keyed by user id, so a user has at most one refresh
record. The store's invariant `Valid()` says four things:

- user ids are distinct;
- `email` and `contactNumber` are unique wherever they are set;
- every user owns exactly one profile, in the table of its role;
- refresh records belong only to existing users.

Every service call is a method that keeps this invariant. Each method states
its whole new state. A failed call leaves the store unchanged.

Crypto and the clock are abstracted:

- bcrypt is `Bcrypt.Hash`/`Bcrypt.Compare`. The salt is a parameter, so hashing
  need not be deterministic. A digest accepts exactly the text it was made from.
- JSON Web Tokens are `Jwt.Token`: the signed claims (`{userId, role}`, `iat`,
  `exp`) together with the secret that signed them. Any other string a client
  sends is `Opaque`. As in the token library, `iat` and `exp` are whole
  seconds. `Verify` fails on a foreign secret and once `exp` is reached.
- `Date.now()` is a parameter `now`, in milliseconds.

Points where the code behaves differently from what one might expect:

- The guard verifies tokens with `JWT_SECRET`. Access tokens are signed with
  `JWT_ACCESS_SECRET`. So an issued access token passes the guard only when
  the two are configured equal (`AuthGuard.IssuedAccessTokenAdmitted`).
- Rotation replaces the stored record. But token stamps have a resolution of
  one second. Refreshing in the same second the token was issued re-signs the
  identical token, and the old token stays valid
  (`Sessions.RotationInSameSecond`). The old token is refused only when the
  rotation happens in a later second (`Scenarios.RefreshTwice`). That holds
  for the abstract digest only. bcrypt reads just the first 72 bytes of its
  input, and every refresh token signed for one user begins with the same
  72 bytes (header, dot and the start of the payload). So in the program an old
  refresh token still passes the compare after rotation, until its own `exp`.
- Neither login path looks at the user's status. A blocked user still obtains
  tokens, and the guard then refuses them. Google login for an existing user
  checks no credential at all.

## Model

| member | source | states |
|---|---|---|
| `Store.FindFirst` | src/auth/auth.service.ts:31-41 | Nothing is found exactly when no row meets any alternative of the `OR` filter. Otherwise the result is the earliest matching row in table order. |
| `Store.FindById` | src/user/user.service.ts:49-53 | Finds a row carrying the id, or nothing exactly when no row has that id. |
| `Store.FindByIdUnique` | src/auth/auth.guard.ts:29 | In a valid store, the lookup by a user's id returns that very user. |
| `Store.AppendUserValid` | src/auth/auth.service.ts:161-168 | Adding a user with the next id and no taken email or contact number keeps ids distinct and the unique keys unshared. |
| `Store.AddProfileValid` | src/auth/auth.service.ts:170-181 | Adding a new user plus one profile in the table of its role keeps "one profile per user, in the table of its role" true. |
| `Store.AddAccountValid` | src/auth/auth.service.ts:160-184 | Adding one account with the next id and no taken key keeps the store invariant: distinct ids, unshared keys, one profile per user, refresh records only for existing users. |
| `Store.Store.CreateUserWithProfile` | src/auth/auth.service.ts:160-184 | The transaction that creates a user and its profile. It fails with the unique-index error, changing nothing, iff a key is taken. Otherwise it adds exactly one ACTIVE user with the next id and one profile row with `userId` = the new id, in the table of its role. Other tables are untouched. |
| `Store.Store.UpsertRefreshToken` | src/auth/auth.service.ts:50-65 | The user's one refresh record becomes the given record. Every other record and table is unchanged. |
| `Store.Store.DeleteRefreshToken` | src/auth/auth.service.ts:256-258 | Succeeds iff the user has a record; then it removes exactly that record. Otherwise it fails with the record-not-found error and changes nothing. |
| `AuthService.Conditions` | src/auth/auth.service.ts:26-29 | At most two alternatives, none exactly when both keys are falsy. A row meets one iff it shares a truthy email or contact number. |
| `AuthService.FindUserByCredentials` | src/auth/auth.service.ts:23-42 | Nothing iff no user shares a truthy key, so always nothing when both keys are falsy. Otherwise the first user that shares one. |
| `AuthService.FindUserAfterSignup` | src/auth/auth.service.ts:23-42 | Once a user sharing a key is added to a table where no user shared one, the lookup finds exactly that user. |
| `AuthService.ValidatePassword` | src/auth/auth.service.ts:89-93 | No error iff the password has at least 8 characters. Otherwise BadRequest("Password must be at least 8 characters"). |
| `AuthService.RoleFor` | src/auth/auth.service.ts:157 | HOST iff the requested role is "HOST", otherwise CUSTOMER, never ADMIN. |
| `AuthService.AuthService.SaveRefreshToken` | src/auth/auth.service.ts:45-66 | Overwrites or creates the user's one record. Its hash accepts the token and `expiresAt` = now + 604800000. Other users' records and all other tables are unchanged. |
| `AuthService.AuthService.GenerateTokens` | src/auth/auth.service.ts:69-86 | Returns the access and refresh tokens signed for `{userId, role}` at `now`. The refresh table changes only at `userId`, which now holds the record of the returned refresh token. |
| `AuthService.AuthService.Registration` | src/auth/auth.service.ts:134-187 | Checks in order: email, contact number, password present, then length >= 8; each failure is its BadRequest. A user sharing a key gives Conflict. Every failure leaves the store unchanged. Success iff all checks pass and no user shares a key. It then adds one user (HOST iff role "HOST", else CUSTOMER) whose digest accepts the password, one profile in the table of that role, and a token pair whose record replaces the user's. |
| `AuthService.AuthService.HandleGoogleSignup` | src/auth/auth.service.ts:97-131 | Succeeds iff email and contact number are both truthy, else BadRequest with the store unchanged. On success it adds one CUSTOMER without a password and one customer profile, carrying name and photo only when truthy, then issues tokens. |
| `AuthService.AuthService.Login` | src/auth/auth.service.ts:190-223 | Google with a known user: tokens for that user's id and role, no password check, no user created. Google with no known user: the sign-up above. Credential login fails with Unauthorized (no user), BadRequest (password missing on either side) or Unauthorized (compare fails), leaving the store unchanged. It succeeds iff the stored digest accepts the password. |
| `AuthService.AuthService.RefreshToken` | src/auth/auth.service.ts:228-252 | Succeeds iff four things hold: the token verifies under the refresh secret, its user has a record, the record's hash accepts it, and `expiresAt >= now`. On success the record is replaced by that of the new pair. Every failure is the same Unauthorized("Invalid refresh token"), with the store unchanged. |
| `AuthService.AuthService.Logout` | src/auth/auth.service.ts:255-260 | Succeeds iff the user has a refresh record, which it removes. Otherwise it fails with the record-not-found error. User and profile tables never change. |
| `Sessions.IssuedRefreshTokenAccepted` | src/auth/auth.service.ts:242-244 | A just-issued refresh token is accepted until the earlier of its own `exp` (seconds) and the record's seven-day `expiresAt` (milliseconds). |
| `Sessions.IssuingSupersedes` | src/auth/auth.service.ts:50-65 | After issuing, no other token of the same user is accepted: the upsert overwrites, never duplicates. |
| `Sessions.IssuingKeepsOtherSessions` | src/auth/auth.service.ts:50-65 | Issuing for one user does not change whether another user's token is accepted. |
| `Sessions.LogoutRevokes` | src/auth/auth.service.ts:255-260 | After the user's record is deleted, no token of that user is accepted; other users' tokens are judged as before. |
| `Sessions.RotationInSameSecond` | src/auth/auth.service.ts:72-81 | Signing in the same second as an earlier issue gives the identical refresh token. |
| `Sessions.RotationInLaterSecond` | src/auth/auth.service.ts:72-81 | Signing in a different second gives a different refresh token. |
| `AuthGuard.ExtractTokenFromHeader` | src/auth/auth.guard.ts:47-56 | A token iff the header is set and not empty, and then the whole header value, with no prefix stripped. |
| `AuthGuard.AuthGuard.CanActivate` | src/auth/auth.guard.ts:15-45 | A missing or empty header gives Unauthorized("No token provided"). Otherwise it accepts iff three things hold: the token verifies under `JWT_SECRET`, its user exists, and that user is neither BLOCKED nor INACTIVE. On acceptance the result is the verified claims; any other failure is Unauthorized("Unauthorized"). The store is never written. |
| `AuthGuard.IssuedAccessTokenAdmitted` | src/auth/auth.guard.ts:24-37 | An issued access token passes iff `JWT_SECRET` equals the access secret, its lifetime has not run out, and its user exists and is ACTIVE. |
| `UserService.UserService.CreateAdmin` | src/user/user.service.ts:14-46 | A missing password fails in bcrypt first. A falsy email then fails with "Email is required for Admin creation". A taken key fails at the unique index. Each failure changes nothing. Success adds one ADMIN user whose digest accepts the password, plus one admin profile with its `userId`, and returns that profile row. |
| `UserService.UserService.GetMe` | src/user/user.service.ts:48-55 | Returns a user with that id, or nothing exactly when there is none. Nothing changes. |
| `ExceptionFilter.ResponseMessage` | src/common/filters/all-exception.filter.ts:21-24 | The response's own message when truthy, otherwise "Internal Server Error"; never empty. |
| `ExceptionFilter.Catch` | src/common/filters/all-exception.filter.ts:14-43 | An HttpException keeps its status and response message. Any other value gets status 500. A plain Error shows its message outside production and "Internal Server Error" in production. A non-Error gets "Internal Server Error". The body always has `success` false, `data` null and `statusCode` = the reply status. |
| `ExceptionFilter.ProductionHidesInternalMessages` | src/common/filters/all-exception.filter.ts:25-30 | In production, a non-HTTP exception always yields (500, "Internal Server Error"). |
| `ExceptionFilter.ServiceExceptionsPassThrough` | src/common/filters/all-exception.filter.ts:21-24 | The service's BadRequest, Unauthorized and Conflict reach the client as 400, 401 and 409 with their own message. |
| `Jwt.Sign` | src/auth/auth.service.ts:73-80 | The token carries the payload and secret, and its lifetime `exp - iat` equals the configured ttl. |
| `Jwt.SignThenVerify` | src/auth/auth.service.ts:230-232 | A signed token verifies iff the secret is the signing one and its lifetime, counted in seconds from the second of issue, has not run out; the payload is what was signed. |
| `Jwt.ExpiryIsFinal` | src/auth/auth.guard.ts:24-26 | Once a token fails verification by expiry, it fails at every later time. |
| `Bcrypt.Hash` | src/auth/auth.service.ts:156 | The digest records its cost and accepts the hashed text. |
| `Bcrypt.CompareHash` | src/auth/auth.service.ts:213-216 | A digest accepts exactly the text it was made from, whatever the salt. |
| `Bcrypt.HashIsSalted` | src/auth/auth.service.ts:46 | Two hashes of one text with different salts differ, and both accept it. |
| `Scenarios.RegisterTwice` | src/auth/auth.service.ts:147-154 | After a successful registration, the same payload again is a Conflict, and the store holds exactly the first call's account and token record. |
| `Scenarios.RegisterThenLogin` | src/auth/auth.service.ts:204-222 | After a successful registration, credential login with that email and password succeeds and issues tokens for the new user, whose record replaces the registration's. |
| `Scenarios.RefreshTwice` | src/auth/auth.service.ts:228-252 | A refresh token exchanged once, in a later second than its issue, is refused the second time (under the exact digest; see the bcrypt line under Left out). |
| `Scenarios.LogoutThenRefresh` | src/auth/auth.service.ts:255-260 | After logout, any refresh token of that user is refused with Unauthorized("Invalid refresh token"). |
| `Scenarios.GoogleLoginTwice` | src/auth/auth.service.ts:196-202 | A second Google login with the same payload succeeds and creates no second account. Exactly one account is added over both calls iff none shared a key before. The second pair is signed for the account that existed or was just created, and its record replaces the first's. |
| `Scenarios.RegisterThenGuard` | src/auth/auth.guard.ts:24-37 | The access token from a registration opens the guard iff `JWT_SECRET` is the access secret and the token has not expired. |

## Left out

- bcrypt internals: the real hash, its cost and its 72-byte input limit. `Compare` here is exact equality of the hashed text. Real bcrypt looks only at the first 72 bytes, and all refresh tokens of one user share their first 72 bytes. So the rotation lemmas (`Sessions.IssuingSupersedes`, `Scenarios.RefreshTwice`) hold for the abstract digest, not for bcrypt applied to tokens. Logout deletes the record, so revocation does not depend on the compare.
- JSON Web Token internals: encoding, signature algorithms and claims other than `iat`/`exp`. A string that is not a token signed by the service is `Opaque`. The model therefore cannot relate a "Bearer "-prefixed header to the token it wraps; it only shows that the header is used verbatim.
- An unset secret or an unset `*_EXPIRES_IN`: the library throws on the first and omits `exp` on the second. The model assumes both are configured. Lifetimes are given as seconds, and the parsing of strings such as "15m" is left out.
- `Promise.all`: the two tokens are signed one after the other. Both signings and the refresh record read the same `now`, where the source reads the clock separately.
- Concurrency: the race between the duplicate check and the create, and concurrent refreshes of one user. Each call is one atomic step.
- The database schema is not part of this model. Three points follow from that:
  - the unique indexes on `email` and `contactNumber`, and ACTIVE as the default status of a new user, are assumptions about that schema;
  - ids are strings in the source; the model uses natural numbers from a counter;
  - database errors carry abbreviated messages.
- `findFirst` without an ordering: the model uses insertion order, so "the first match" is a modelling choice.
- Password length: JavaScript counts UTF-16 code units, the model counts characters. The two differ only for characters outside the Basic Multilingual Plane.
- HTTP plumbing:
  - the controller, cookies and `sendResponse`;
  - the request-validation schemas;
  - the filter's `timestamp` and `path` fields and the `reply` call;
  - the `request.user` assignment is the method's result rather than a write to a request object.
- The `userAgent` and `ip` of refresh records are kept as the constant "unknown".
