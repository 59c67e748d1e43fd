/**
 * Clients of the services: sequences of calls whose outcome follows from the
 * methods' contracts alone. Each states, for all inputs, one of the
 * behaviours the service promises across calls.
 */
module Scenarios {
  import opened Common
  import opened Accounts
  import opened Errors
  import opened Bcrypt
  import opened Jwt
  import opened Store
  import opened AuthService
  import opened Sessions
  import opened AuthGuard

  /** Two issues for one user leave only the second record. */
  lemma Overwrite(before: map<UserId, RefreshRecord>, mid: map<UserId, RefreshRecord>, after: map<UserId, RefreshRecord>,
                  userId: UserId, first: RefreshRecord, second: RefreshRecord)
    requires mid == before[userId := first] && after == mid[userId := second]
    ensures after == before[userId := second]
  {
  }

  /** Registering the same payload twice: the second call is a Conflict and
      writes nothing, so the store holds exactly what the first call wrote. */
  method RegisterTwice(svc: AuthService, payload: RegistrationPayload, now: int, salts: seq<nat>)
    returns (first: Result<TokenPair, Exception>, second: Result<TokenPair, Exception>)
    requires svc.store.Valid() && |salts| == 4
    modifies svc.store
    ensures first.Ok? ==> second == Err(Conflict(USER_EXISTS))
    ensures first.Ok? ==>
      && |svc.store.users| == |old(svc.store.users)| + 1
      && var u := svc.store.users[|old(svc.store.users)|];
      && AccountAdded(old(svc.store.Snapshot()), svc.store.Snapshot(), u,
                      Profile(u.id, payload.name, payload.email, payload.contactNumber, None))
      && Issued(svc.config, Payload(u.id, u.role), now, salts[1], old(svc.store.refreshTokens), svc.store.refreshTokens, first.value)
  {
    first := svc.Registration(payload, now, salts[0], salts[1]);
    ghost var users := svc.store.users;
    second := svc.Registration(payload, now, salts[2], salts[3]);
    if first.Ok? {
      var u := users[|users| - 1];
      assert u in users && SharesKey(u, payload.email, payload.contactNumber);
    }
  }

  /** After a successful registration, a credential login with the same email
      and password succeeds and issues tokens for the new user. */
  method RegisterThenLogin(svc: AuthService, payload: RegistrationPayload, now: int, later: int, salts: seq<nat>)
    returns (registered: Result<TokenPair, Exception>, login: Result<TokenPair, Exception>)
    requires svc.store.Valid() && |salts| == 3
    modifies svc.store
    ensures registered.Ok? ==> login.Ok?
    ensures registered.Ok? ==>
      && |svc.store.users| == |old(svc.store.users)| + 1
      && var u := svc.store.users[|old(svc.store.users)|];
      && login.value == TokenPairFor(svc.config, Payload(u.id, u.role), later)
      && svc.store.refreshTokens == old(svc.store.refreshTokens)[u.id := RecordFor(login.value.refreshToken, later, salts[2])]
  {
    ghost var before := svc.store.users;
    registered := svc.Registration(payload, now, salts[0], salts[1]);
    var credentials := LoginPayload(None, payload.email, None, None, None, payload.password);
    ghost var tokens := svc.store.refreshTokens;
    if registered.Ok? {
      FindUserAfterSignup(before, svc.store.users[|before|], credentials.email, credentials.contactNumber);
      assert svc.store.users == before + [svc.store.users[|before|]];
    }
    login := svc.Login(credentials, later, salts[2]);
    if registered.Ok? {
      var u := svc.store.users[|before|];
      Overwrite(old(svc.store.refreshTokens), tokens, svc.store.refreshTokens, u.id,
                RecordFor(registered.value.refreshToken, now, salts[1]), RecordFor(login.value.refreshToken, later, salts[2]));
    }
  }

  /** Rotation: a refresh token that has been exchanged once, in a later
      second than the one it was issued in, is refused the second time. */
  method RefreshTwice(svc: AuthService, oldToken: Token, now: int, later: int, salts: seq<nat>)
    returns (first: Result<TokenPair, Exception>, second: Result<TokenPair, Exception>)
    requires svc.store.Valid() && |salts| == 2
    modifies svc.store
    ensures first.Ok? && oldToken.Signed? && oldToken.claims.iat != Seconds(now)
            ==> second == Err(Unauthorized(INVALID_REFRESH_TOKEN))
  {
    first := svc.RefreshToken(oldToken, now, salts[0]);
    if first.Ok? && oldToken.Signed? && oldToken.claims.iat != Seconds(now) {
      var p := Verify(oldToken, svc.config.refreshSecret, now).value.payload;
      IssuingSupersedes(svc.config, p, now, salts[0], old(svc.store.refreshTokens), svc.store.refreshTokens,
                        first.value, oldToken, later);
    }
    second := svc.RefreshToken(oldToken, later, salts[1]);
  }

  /** After logout, no refresh token of that user is accepted. */
  method LogoutThenRefresh(svc: AuthService, userId: UserId, t: Token, now: int, salt: nat)
    returns (loggedOut: Result<string, Exception>, refreshed: Result<TokenPair, Exception>)
    requires svc.store.Valid()
    modifies svc.store
    ensures Verify(t, svc.config.refreshSecret, now).Some? && Verify(t, svc.config.refreshSecret, now).value.payload.userId == userId
            ==> refreshed == Err(Unauthorized(INVALID_REFRESH_TOKEN))
  {
    loggedOut := svc.Logout(userId);
    LogoutRevokes(old(svc.store.refreshTokens), userId, svc.config.refreshSecret, t, now);
    refreshed := svc.RefreshToken(t, now, salt);
  }

  /** A second Google login with the same payload finds the account that
      existed or that the first one created, creates nothing more, and issues
      its tokens for that account; its record replaces the first call's. */
  method GoogleLoginTwice(svc: AuthService, payload: LoginPayload, now: int, salts: seq<nat>)
    returns (first: Result<TokenPair, Exception>, second: Result<TokenPair, Exception>)
    requires svc.store.Valid() && |salts| == 2 && payload.provider == Some(GOOGLE)
    modifies svc.store
    ensures first.Ok? ==> second.Ok?
    ensures first.Ok? ==>
      var signup := FindUserByCredentials(old(svc.store.users), payload.email, payload.contactNumber).None?;
      && |svc.store.users| == |old(svc.store.users)| + (if signup then 1 else 0)
      && svc.store.nextId == old(svc.store.nextId) + (if signup then 1 else 0)
      && (!signup ==> svc.store.Snapshot() == old(svc.store.Snapshot()))
      && FindUserByCredentials(svc.store.users, payload.email, payload.contactNumber).Some?
      && var u := FindUserByCredentials(svc.store.users, payload.email, payload.contactNumber).value;
      && (signup ==> u == svc.store.users[|old(svc.store.users)|]
                     && AccountAdded(old(svc.store.Snapshot()), svc.store.Snapshot(), u,
                                     Profile(u.id, IfPresent(payload.name), payload.email, payload.contactNumber, IfPresent(payload.profilePhoto))))
      && (!signup ==> u == FindUserByCredentials(old(svc.store.users), payload.email, payload.contactNumber).value)
      && second.value == TokenPairFor(svc.config, Payload(u.id, u.role), now)
      && svc.store.refreshTokens == old(svc.store.refreshTokens)[u.id := RecordFor(second.value.refreshToken, now, salts[1])]
  {
    ghost var before := svc.store.users;
    first := svc.Login(payload, now, salts[0]);
    if first.Ok? && FindUserByCredentials(before, payload.email, payload.contactNumber).None? {
      FindUserAfterSignup(before, svc.store.users[|before|], payload.email, payload.contactNumber);
      assert svc.store.users == before + [svc.store.users[|before|]];
    }
    ghost var tokens := svc.store.refreshTokens;
    second := svc.Login(payload, now, salts[1]);
    if first.Ok? {
      var u := FindUserByCredentials(svc.store.users, payload.email, payload.contactNumber).value;
      Overwrite(old(svc.store.refreshTokens), tokens, svc.store.refreshTokens, u.id,
                RecordFor(first.value.refreshToken, now, salts[0]), RecordFor(second.value.refreshToken, now, salts[1]));
    }
  }

  /** The access token from a registration opens the guard exactly when the
      guard's `JWT_SECRET` is the access-token secret and the token's
      lifetime has not run out. */
  method RegisterThenGuard(svc: AuthService, guard: AuthGuard, payload: RegistrationPayload, now: int, later: int, salts: seq<nat>)
    returns (registered: Result<TokenPair, Exception>, admitted: Result<Claims, Exception>)
    requires svc.store.Valid() && guard.store == svc.store && |salts| == 2
    modifies svc.store
    ensures registered.Ok? ==>
      (admitted.Ok? <==> guard.jwtSecret == svc.config.accessSecret && Seconds(later) < Seconds(now) + svc.config.accessExpiresIn)
  {
    ghost var before := svc.store.users;
    registered := svc.Registration(payload, now, salts[0], salts[1]);
    if registered.Ok? {
      var u := svc.store.users[|before|];
      IssuedAccessTokenAdmitted(svc.store.users, svc.config, guard.jwtSecret, Payload(u.id, u.role), now, later);
      FindByIdUnique(svc.store.users, svc.store.nextId, |before|);
      admitted := guard.CanActivate(Some(registered.value.accessToken), later);
    } else {
      admitted := guard.CanActivate(None, later);
    }
  }
}
