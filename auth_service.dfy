/**
 * The authentication service: registration, credential and Google login,
 * refresh-token rotation and logout, over the credential store. Every call
 * is one atomic step: when it fails, no table has changed.
 */
module AuthService {
  import opened Common
  import opened Accounts
  import opened Errors
  import opened Bcrypt
  import opened Jwt
  import opened Store

  /** The registration body (its `type` field plays no part here). */
  datatype RegistrationPayload = RegistrationPayload(
    name: Option<string>,
    email: Option<string>,
    contactNumber: Option<string>,
    profilePhoto: Option<string>,
    provider: Option<string>,
    password: Option<string>,
    role: Option<string>)

  datatype LoginPayload = LoginPayload(
    name: Option<string>,
    email: Option<string>,
    contactNumber: Option<string>,
    profilePhoto: Option<string>,
    provider: Option<string>,
    password: Option<string>)

  datatype TokenPair = TokenPair(accessToken: Token, refreshToken: Token)

  /** `JWT_ACCESS_SECRET`, `JWT_ACCESS_EXPIRES_IN`, `JWT_REFRESH_SECRET` and
      `JWT_REFRESH_EXPIRES_IN`, the lifetimes already read as seconds. */
  datatype JwtConfig = JwtConfig(accessSecret: string, accessExpiresIn: nat, refreshSecret: string, refreshExpiresIn: nat)

  const PASSWORD_ROUNDS := 12
  const REFRESH_TOKEN_ROUNDS := 12
  const MIN_PASSWORD_LENGTH := 8
  /** Seven days in milliseconds: the lifetime of a stored refresh record. */
  const REFRESH_RECORD_TTL := 7 * 24 * 60 * 60 * 1000
  /** `userAgent` and `ip` of every refresh record. */
  const PROVENANCE := "unknown"
  const GOOGLE := "google"

  const EMAIL_REQUIRED := "Email is required"
  const CONTACT_NUMBER_REQUIRED := "Contact number is required"
  const PASSWORD_REQUIRED := "Password is required"
  const PASSWORD_TOO_SHORT := "Password must be at least 8 characters"
  const USER_EXISTS := "User with this email or phone already exists"
  const GOOGLE_SIGNUP_FIELDS := "Email and contact number are required for Google sign-up"
  const INVALID_CREDENTIALS := "Invalid credentials"
  const INVALID_REFRESH_TOKEN := "Invalid refresh token"
  const INVALID_OR_EXPIRED_REFRESH_TOKEN := "Invalid or expired refresh token"
  const JWT_VERIFY_FAILED := "jwt verification failed"
  const LOGGED_OUT := "Logged out successfully"

  /** Does `u` carry one of the truthy keys given? */
  predicate SharesKey(u: User, email: Option<string>, contactNumber: Option<string>) {
    (Present(email) && u.email == email) || (Present(contactNumber) && u.contactNumber == contactNumber)
  }

  /** The `OR` filter of `findUserByCredentials`: one alternative per truthy key. */
  function Conditions(email: Option<string>, contactNumber: Option<string>): (conds: seq<Condition>)
    ensures |conds| <= 2
    ensures conds == [] <==> !Present(email) && !Present(contactNumber)
    ensures forall u :: MatchesAny(u, conds) <==> SharesKey(u, email, contactNumber)
  {
    var byEmail := if Present(email) then [EmailIs(email.value)] else [];
    var byContact := if Present(contactNumber) then [ContactNumberIs(contactNumber.value)] else [];
    var conds := byEmail + byContact;
    assert forall c :: c in conds <==> (Present(email) && c == EmailIs(email.value)) || (Present(contactNumber) && c == ContactNumberIs(contactNumber.value));
    assert forall u: User :: Present(email) && u.email == email ==> Satisfies(u, EmailIs(email.value));
    assert forall u: User :: Present(contactNumber) && u.contactNumber == contactNumber ==> Satisfies(u, ContactNumberIs(contactNumber.value));
    conds
  }

  /** `findUserByCredentials(email, contactNumber)`: nothing when both keys are
      falsy, otherwise the earliest user that shares a truthy key. */
  function FindUserByCredentials(users: seq<User>, email: Option<string>, contactNumber: Option<string>): (r: Option<User>)
    ensures r.None? <==> forall u :: u in users ==> !SharesKey(u, email, contactNumber)
    ensures r.Some? ==> exists i :: 0 <= i < |users| && users[i] == r.value && SharesKey(users[i], email, contactNumber)
                                    && forall j :: 0 <= j < i ==> !SharesKey(users[j], email, contactNumber)
  {
    if !Present(email) && !Present(contactNumber) then None
    else FindFirst(users, Conditions(email, contactNumber))
  }

  /** After a user who shares a key is added to a table where nobody did,
      the lookup finds exactly that user. */
  lemma FindUserAfterSignup(users: seq<User>, u: User, email: Option<string>, contactNumber: Option<string>)
    requires FindUserByCredentials(users, email, contactNumber).None?
    requires SharesKey(u, email, contactNumber)
    ensures FindUserByCredentials(users + [u], email, contactNumber) == Some(u)
  {
  }

  /** `validatePassword`: the error it throws, if any. */
  function ValidatePassword(password: string): (r: Option<Exception>)
    ensures r.None? <==> |password| >= MIN_PASSWORD_LENGTH
    ensures r.Some? ==> r.value == BadRequest(PASSWORD_TOO_SHORT)
  {
    if |password| < MIN_PASSWORD_LENGTH then Some(BadRequest(PASSWORD_TOO_SHORT)) else None
  }

  /** The role registration gives: HOST exactly when asked for, otherwise CUSTOMER. */
  function RoleFor(requested: Option<string>): (r: Role)
    ensures r == HOST <==> requested == Some("HOST")
    ensures r != ADMIN
  {
    if requested == Some("HOST") then HOST else CUSTOMER
  }

  /** The two tokens `generateTokens` signs for one payload at one instant. */
  function TokenPairFor(config: JwtConfig, p: Payload, now: int): TokenPair {
    TokenPair(Sign(p, config.accessSecret, config.accessExpiresIn, now), Sign(p, config.refreshSecret, config.refreshExpiresIn, now))
  }

  /** The record `saveRefreshToken` stores for a refresh token issued at `now`. */
  function RecordFor(refreshToken: Token, now: int, salt: nat): RefreshRecord {
    RefreshRecord(Hash(refreshToken, REFRESH_TOKEN_ROUNDS, salt), now + REFRESH_RECORD_TTL, PROVENANCE, PROVENANCE)
  }

  /** `pair` was issued for `p` at `now`, and the refresh table went from
      `before` to `after` by overwriting (or creating) the record of `p.userId`. */
  ghost predicate Issued(config: JwtConfig, p: Payload, now: int, salt: nat,
                         before: map<UserId, RefreshRecord>, after: map<UserId, RefreshRecord>, pair: TokenPair) {
    && pair == TokenPairFor(config, p, now)
    && after == before[p.userId := RecordFor(pair.refreshToken, now, salt)]
  }

  /** The test `refreshToken` applies: the token verifies under the refresh
      secret, its user has a record, the record's hash accepts the token, and
      the record is not past `expiresAt` (a strict `expiresAt < now` rejects). */
  predicate RefreshAccepts(table: map<UserId, RefreshRecord>, secret: string, t: Token, now: int) {
    match Verify(t, secret, now)
    case None => false
    case Some(c) =>
      && c.payload.userId in table
      && Compare(t, table[c.payload.userId].tokenHash)
      && !(table[c.payload.userId].expiresAt < now)
  }

  /** All checks of a registration payload that come before the store is read. */
  predicate RegistrationWellFormed(payload: RegistrationPayload) {
    && Present(payload.email) && Present(payload.contactNumber) && Present(payload.password)
    && ValidatePassword(payload.password.value).None?
  }

  class AuthService {
    const store: Store
    const config: JwtConfig

    constructor (store: Store, config: JwtConfig)
      ensures this.store == store && this.config == config
    {
      this.store := store;
      this.config := config;
    }

    /** `saveRefreshToken`: upsert the user's one record with a fresh hash of
        the token and an expiry seven days on. */
    method SaveRefreshToken(userId: UserId, refreshToken: Token, now: int, salt: nat)
      requires store.Valid() && userId in IdsOf(store.users)
      modifies store
      ensures store.Valid()
      ensures store.refreshTokens == old(store.refreshTokens)[userId := RecordFor(refreshToken, now, salt)]
      ensures Compare(refreshToken, store.refreshTokens[userId].tokenHash)
      ensures store.refreshTokens[userId].expiresAt == now + 604800000
      ensures store.Snapshot() == old(store.Snapshot())
    {
      var hashedToken := Hash(refreshToken, REFRESH_TOKEN_ROUNDS, salt);
      var expiresAt := now + REFRESH_RECORD_TTL;
      store.UpsertRefreshToken(userId, RefreshRecord(hashedToken, expiresAt, PROVENANCE, PROVENANCE));
    }

    /** `generateTokens`: sign the access and the refresh token for
        `{ userId, role }`, then store the refresh token's record. */
    method GenerateTokens(userId: UserId, role: Role, now: int, salt: nat) returns (pair: TokenPair)
      requires store.Valid() && userId in IdsOf(store.users)
      modifies store
      ensures store.Valid()
      ensures Issued(config, Payload(userId, role), now, salt, old(store.refreshTokens), store.refreshTokens, pair)
      ensures store.Snapshot() == old(store.Snapshot())
    {
      var payload := Payload(userId, role);
      var accessToken := Sign(payload, config.accessSecret, config.accessExpiresIn, now);
      var refreshToken := Sign(payload, config.refreshSecret, config.refreshExpiresIn, now);
      SaveRefreshToken(userId, refreshToken, now, salt);
      pair := TokenPair(accessToken, refreshToken);
    }

    /** `registration`: four payload checks in order, then the duplicate check,
        then one user with its profile, then a token pair. */
    method Registration(payload: RegistrationPayload, now: int, passwordSalt: nat, tokenSalt: nat)
      returns (r: Result<TokenPair, Exception>)
      requires store.Valid()
      modifies store
      ensures store.Valid()
      ensures r.Err? ==> unchanged(store)
      ensures !Present(payload.email) ==> r == Err(BadRequest(EMAIL_REQUIRED))
      ensures Present(payload.email) && !Present(payload.contactNumber) ==> r == Err(BadRequest(CONTACT_NUMBER_REQUIRED))
      ensures Present(payload.email) && Present(payload.contactNumber) && !Present(payload.password)
              ==> r == Err(BadRequest(PASSWORD_REQUIRED))
      ensures Present(payload.email) && Present(payload.contactNumber) && Present(payload.password) && |payload.password.value| < 8
              ==> r == Err(BadRequest(PASSWORD_TOO_SHORT))
      ensures RegistrationWellFormed(payload) && FindUserByCredentials(old(store.users), payload.email, payload.contactNumber).Some?
              ==> r == Err(Conflict(USER_EXISTS))
      ensures r.Ok? <==> RegistrationWellFormed(payload)
                         && forall u :: u in old(store.users) ==> !SharesKey(u, payload.email, payload.contactNumber)
      ensures r.Ok? ==>
        && |store.users| == |old(store.users)| + 1
        && var u := store.users[|old(store.users)|];
        && u == User(u.id, payload.email, payload.contactNumber, Some(Hash(payload.password.value, PASSWORD_ROUNDS, passwordSalt)),
                     RoleFor(payload.role), ACTIVE)
        && Compare(payload.password.value, u.password.value)
        && AccountAdded(old(store.Snapshot()), store.Snapshot(), u,
                        Profile(u.id, payload.name, payload.email, payload.contactNumber, None))
        && Issued(config, Payload(u.id, u.role), now, tokenSalt, old(store.refreshTokens), store.refreshTokens, r.value)
    {
      if !Present(payload.email) {
        return Err(BadRequest(EMAIL_REQUIRED));
      }
      if !Present(payload.contactNumber) {
        return Err(BadRequest(CONTACT_NUMBER_REQUIRED));
      }
      if !Present(payload.password) {
        return Err(BadRequest(PASSWORD_REQUIRED));
      }
      var weak := ValidatePassword(payload.password.value);
      if weak.Some? {
        return Err(weak.value);
      }
      var existing := FindUserByCredentials(store.users, payload.email, payload.contactNumber);
      if existing.Some? {
        return Err(Conflict(USER_EXISTS));
      }
      var hashedPassword := Hash(payload.password.value, PASSWORD_ROUNDS, passwordSalt);
      var userRole := RoleFor(payload.role);
      ghost var before := store.Snapshot();
      var created := store.CreateUserWithProfile(payload.email, payload.contactNumber, Some(hashedPassword), userRole, payload.name, None);
      assert created.Ok?;
      var user := created.value.0;
      assert user in store.users;
      var pair := GenerateTokens(user.id, user.role, now, tokenSalt);
      assert store.users[|before.users|] == user;
      return Ok(pair);
    }

    /** `handleGoogleSignup`: both keys must be truthy; then one CUSTOMER
        without a password, with a customer profile that takes the name and
        the photo only when they are truthy; then a token pair. Only called
        when no user shares a key with the payload. */
    method HandleGoogleSignup(payload: LoginPayload, now: int, tokenSalt: nat) returns (r: Result<TokenPair, Exception>)
      requires store.Valid()
      requires FindUserByCredentials(store.users, payload.email, payload.contactNumber).None?
      modifies store
      ensures store.Valid()
      ensures r.Ok? <==> Present(payload.email) && Present(payload.contactNumber)
      ensures r.Err? ==> r.error == BadRequest(GOOGLE_SIGNUP_FIELDS) && unchanged(store)
      ensures r.Ok? ==>
        && |store.users| == |old(store.users)| + 1
        && var u := store.users[|old(store.users)|];
        && u == User(u.id, payload.email, payload.contactNumber, None, CUSTOMER, ACTIVE)
        && AccountAdded(old(store.Snapshot()), store.Snapshot(), u,
                        Profile(u.id, IfPresent(payload.name), payload.email, payload.contactNumber, IfPresent(payload.profilePhoto)))
        && Issued(config, Payload(u.id, CUSTOMER), now, tokenSalt, old(store.refreshTokens), store.refreshTokens, r.value)
    {
      if !Present(payload.email) || !Present(payload.contactNumber) {
        return Err(BadRequest(GOOGLE_SIGNUP_FIELDS));
      }
      ghost var before := store.Snapshot();
      var created := store.CreateUserWithProfile(payload.email, payload.contactNumber, None, CUSTOMER,
                                                 IfPresent(payload.name), IfPresent(payload.profilePhoto));
      assert created.Ok?;
      var user := created.value.0;
      assert user in store.users;
      var pair := GenerateTokens(user.id, user.role, now, tokenSalt);
      assert store.users[|before.users|] == user;
      return Ok(pair);
    }

    /** `login`: with provider "google", tokens for the user found (no password
        check) or a Google sign-up; otherwise a credential check. */
    method Login(payload: LoginPayload, now: int, tokenSalt: nat) returns (r: Result<TokenPair, Exception>)
      requires store.Valid()
      modifies store
      ensures store.Valid()
      ensures r.Err? ==> unchanged(store)
      // Google, known user: tokens for that user, no account created
      ensures payload.provider == Some(GOOGLE) && FindUserByCredentials(old(store.users), payload.email, payload.contactNumber).Some? ==>
        var u := FindUserByCredentials(old(store.users), payload.email, payload.contactNumber).value;
        && r.Ok? && store.Snapshot() == old(store.Snapshot())
        && Issued(config, Payload(u.id, u.role), now, tokenSalt, old(store.refreshTokens), store.refreshTokens, r.value)
      // Google, unknown user: sign-up
      ensures payload.provider == Some(GOOGLE) && FindUserByCredentials(old(store.users), payload.email, payload.contactNumber).None? ==>
        && (r.Ok? <==> Present(payload.email) && Present(payload.contactNumber))
        && (r.Err? ==> r.error == BadRequest(GOOGLE_SIGNUP_FIELDS))
        && (r.Ok? ==>
              && |store.users| == |old(store.users)| + 1
              && var u := store.users[|old(store.users)|];
              && u == User(u.id, payload.email, payload.contactNumber, None, CUSTOMER, ACTIVE)
              && AccountAdded(old(store.Snapshot()), store.Snapshot(), u,
                              Profile(u.id, IfPresent(payload.name), payload.email, payload.contactNumber, IfPresent(payload.profilePhoto)))
              && Issued(config, Payload(u.id, CUSTOMER), now, tokenSalt, old(store.refreshTokens), store.refreshTokens, r.value))
      // credentials
      ensures payload.provider != Some(GOOGLE) && FindUserByCredentials(old(store.users), payload.email, payload.contactNumber).None? ==>
        r == Err(Unauthorized(INVALID_CREDENTIALS))
      ensures payload.provider != Some(GOOGLE) && FindUserByCredentials(old(store.users), payload.email, payload.contactNumber).Some? ==>
        var u := FindUserByCredentials(old(store.users), payload.email, payload.contactNumber).value;
        && (!Present(payload.password) || u.password.None? ==> r == Err(BadRequest(PASSWORD_REQUIRED)))
        && (Present(payload.password) && u.password.Some? && !Compare(payload.password.value, u.password.value) ==>
              r == Err(Unauthorized(INVALID_CREDENTIALS)))
        && (r.Ok? <==> Present(payload.password) && u.password.Some? && Compare(payload.password.value, u.password.value))
        && (r.Ok? ==> store.Snapshot() == old(store.Snapshot())
                      && Issued(config, Payload(u.id, u.role), now, tokenSalt, old(store.refreshTokens), store.refreshTokens, r.value))
    {
      var existingUser := FindUserByCredentials(store.users, payload.email, payload.contactNumber);
      if payload.provider == Some(GOOGLE) {
        if existingUser.None? {
          r := HandleGoogleSignup(payload, now, tokenSalt);
          return;
        }
        assert existingUser.value in store.users;
        var pair := GenerateTokens(existingUser.value.id, existingUser.value.role, now, tokenSalt);
        return Ok(pair);
      }
      if existingUser.None? {
        return Err(Unauthorized(INVALID_CREDENTIALS));
      }
      if !Present(payload.password) || existingUser.value.password.None? {
        return Err(BadRequest(PASSWORD_REQUIRED));
      }
      var isPasswordValid := Compare(payload.password.value, existingUser.value.password.value);
      if !isPasswordValid {
        return Err(Unauthorized(INVALID_CREDENTIALS));
      }
      assert existingUser.value in store.users;
      var pair := GenerateTokens(existingUser.value.id, existingUser.value.role, now, tokenSalt);
      return Ok(pair);
    }

    /** `refreshToken`: verify, look up the record, compare and check its
        expiry, then rotate. Whatever fails inside, the caller sees the one
        error Unauthorized("Invalid refresh token"). */
    method RefreshToken(oldRefreshToken: Token, now: int, tokenSalt: nat) returns (r: Result<TokenPair, Exception>)
      requires store.Valid()
      modifies store
      ensures store.Valid()
      ensures r.Ok? <==> RefreshAccepts(old(store.refreshTokens), config.refreshSecret, oldRefreshToken, now)
      ensures r.Err? ==> r.error == Unauthorized(INVALID_REFRESH_TOKEN) && unchanged(store)
      ensures r.Ok? ==>
        && Verify(oldRefreshToken, config.refreshSecret, now).Some?
        && store.Snapshot() == old(store.Snapshot())
        && Issued(config, Verify(oldRefreshToken, config.refreshSecret, now).value.payload, now, tokenSalt,
                  old(store.refreshTokens), store.refreshTokens, r.value)
    {
      // the body of the `try`
      var attempt: Result<TokenPair, Exception>;
      var verified := Verify(oldRefreshToken, config.refreshSecret, now);
      if verified.None? {
        attempt := Err(Error(JWT_VERIFY_FAILED));
      } else {
        var payload := verified.value.payload;
        if payload.userId !in store.refreshTokens {
          attempt := Err(Unauthorized(INVALID_REFRESH_TOKEN));
        } else {
          var storedToken := store.refreshTokens[payload.userId];
          var isValid := Compare(oldRefreshToken, storedToken.tokenHash);
          if !isValid || storedToken.expiresAt < now {
            attempt := Err(Unauthorized(INVALID_OR_EXPIRED_REFRESH_TOKEN));
          } else {
            var pair := GenerateTokens(payload.userId, payload.role, now, tokenSalt);
            attempt := Ok(pair);
          }
        }
      }
      // the `catch`
      if attempt.Err? {
        return Err(Unauthorized(INVALID_REFRESH_TOKEN));
      }
      return attempt;
    }

    /** `logout`: delete the user's refresh record; fails when there is none. */
    method Logout(userId: UserId) returns (r: Result<string, Exception>)
      requires store.Valid()
      modifies store
      ensures store.Valid()
      ensures r.Ok? <==> userId in old(store.refreshTokens)
      ensures r.Ok? ==> r.value == LOGGED_OUT && store.refreshTokens == old(store.refreshTokens) - {userId}
      ensures r.Err? ==> r.error == RECORD_NOT_FOUND && unchanged(store)
      ensures store.Snapshot() == old(store.Snapshot())
    {
      var deleted := store.DeleteRefreshToken(userId);
      if deleted.Err? {
        return Err(deleted.error);
      }
      return Ok(LOGGED_OUT);
    }
  }
}
