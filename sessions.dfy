/**
 * The refresh-token table as a small state machine: issuing overwrites the
 * user's one record, `refreshToken` checks it, `logout` deletes it. These
 * lemmas relate the three, on the predicates the service methods promise.
 */
module Sessions {
  import opened Common
  import opened Accounts
  import opened Bcrypt
  import opened Jwt
  import opened Store
  import opened AuthService

  /** A refresh token just issued is accepted until the earlier of two
      deadlines: its own `exp`, counted in whole seconds, and the stored
      record's `expiresAt`, seven days on in milliseconds. */
  lemma IssuedRefreshTokenAccepted(config: JwtConfig, p: Payload, now: int, salt: nat,
                                   before: map<UserId, RefreshRecord>, after: map<UserId, RefreshRecord>,
                                   pair: TokenPair, later: int)
    requires Issued(config, p, now, salt, before, after, pair)
    ensures RefreshAccepts(after, config.refreshSecret, pair.refreshToken, later)
        <==> Seconds(later) < Seconds(now) + config.refreshExpiresIn && later <= now + REFRESH_RECORD_TTL
  {
    SignThenVerify(p, config.refreshSecret, config.refreshExpiresIn, now, config.refreshSecret, later);
  }

  /** Issuing overwrites: afterwards no other token of the same user is accepted. */
  lemma IssuingSupersedes(config: JwtConfig, p: Payload, now: int, salt: nat,
                          before: map<UserId, RefreshRecord>, after: map<UserId, RefreshRecord>,
                          pair: TokenPair, t: Token, later: int)
    requires Issued(config, p, now, salt, before, after, pair)
    requires t != pair.refreshToken
    requires Verify(t, config.refreshSecret, later).Some? ==> Verify(t, config.refreshSecret, later).value.payload.userId == p.userId
    ensures !RefreshAccepts(after, config.refreshSecret, t, later)
  {
  }

  /** Issuing for one user leaves every other user's session as it was. */
  lemma IssuingKeepsOtherSessions(config: JwtConfig, p: Payload, now: int, salt: nat,
                                  before: map<UserId, RefreshRecord>, after: map<UserId, RefreshRecord>,
                                  pair: TokenPair, t: Token, later: int)
    requires Issued(config, p, now, salt, before, after, pair)
    requires Verify(t, config.refreshSecret, later).Some? ==> Verify(t, config.refreshSecret, later).value.payload.userId != p.userId
    ensures RefreshAccepts(after, config.refreshSecret, t, later) == RefreshAccepts(before, config.refreshSecret, t, later)
  {
  }

  /** After `logout(userId)` no token of that user is accepted, and every
      other user's tokens are judged as before. */
  lemma LogoutRevokes(table: map<UserId, RefreshRecord>, userId: UserId, secret: string, t: Token, now: int)
    ensures Verify(t, secret, now).Some? && Verify(t, secret, now).value.payload.userId == userId
            ==> !RefreshAccepts(table - {userId}, secret, t, now)
    ensures Verify(t, secret, now).Some? && Verify(t, secret, now).value.payload.userId != userId
            ==> RefreshAccepts(table - {userId}, secret, t, now) == RefreshAccepts(table, secret, t, now)
  {
  }

  /** Token stamps have a resolution of one second: rotating a token in the
      second it was issued signs the very same token again, so the record
      still accepts the old one. */
  lemma RotationInSameSecond(config: JwtConfig, p: Payload, issued: int, now: int)
    requires Seconds(issued) == Seconds(now)
    ensures TokenPairFor(config, p, now).refreshToken == TokenPairFor(config, p, issued).refreshToken
  {
  }

  /** Rotating in any other second yields a different token, which the
      overwrite then makes the only one accepted. */
  lemma RotationInLaterSecond(config: JwtConfig, p: Payload, issued: int, now: int)
    requires Seconds(issued) != Seconds(now)
    ensures TokenPairFor(config, p, now).refreshToken != TokenPairFor(config, p, issued).refreshToken
  {
  }
}
