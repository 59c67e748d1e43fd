/**
 * The request guard of protected routes: the authorization header must hold
 * a token that verifies under the guard's own secret (`JWT_SECRET`), naming
 * a user who exists and is neither blocked nor inactive.
 */
module AuthGuard {
  import opened Common
  import opened Accounts
  import opened Errors
  import opened Jwt
  import opened Store
  import opened AuthService

  const NO_TOKEN := "No token provided"
  const UNAUTHORIZED_MESSAGE := "Unauthorized"

  /** The empty header value, which is falsy. */
  const EMPTY_HEADER := Opaque("")

  /** `extractTokenFromHeader`: the whole header value when it is truthy;
      nothing is stripped from it, a "Bearer " prefix included. */
  function ExtractTokenFromHeader(authorization: Option<Token>): (r: Option<Token>)
    ensures r.Some? <==> authorization.Some? && authorization.value != EMPTY_HEADER
    ensures r.Some? ==> r.value == authorization.value
  {
    if authorization.None? || authorization.value == EMPTY_HEADER then None else authorization
  }

  /** May a holder of token `t` pass: it verifies under `secret`, and its
      user exists with a status other than BLOCKED and INACTIVE? */
  predicate Admits(users: seq<User>, secret: string, t: Token, now: int) {
    match Verify(t, secret, now)
    case None => false
    case Some(c) =>
      match FindById(users, c.payload.userId)
      case None => false
      case Some(u) => u.status != BLOCKED && u.status != INACTIVE
  }

  class AuthGuard {
    const store: Store
    /** `process.env.JWT_SECRET`, which need not equal the secret that signs access tokens. */
    const jwtSecret: string

    constructor (store: Store, jwtSecret: string)
      ensures this.store == store && this.jwtSecret == jwtSecret
    {
      this.store := store;
      this.jwtSecret := jwtSecret;
    }

    /** `canActivate`: Ok(claims) means the request passes with `request.user`
        set to the verified claims; it reads the user table and writes nothing. */
    method CanActivate(authorization: Option<Token>, now: int) returns (r: Result<Claims, Exception>)
      ensures ExtractTokenFromHeader(authorization).None? ==> r == Err(Unauthorized(NO_TOKEN))
      ensures ExtractTokenFromHeader(authorization).Some? && r.Err? ==> r.error == Unauthorized(UNAUTHORIZED_MESSAGE)
      ensures r.Ok? <==> authorization.Some? && authorization.value != EMPTY_HEADER
                         && Admits(store.users, jwtSecret, authorization.value, now)
      ensures r.Ok? ==> Verify(authorization.value, jwtSecret, now) == Some(r.value)
    {
      var token := ExtractTokenFromHeader(authorization);
      if token.None? {
        return Err(Unauthorized(NO_TOKEN));
      }
      var payload := Verify(token.value, jwtSecret, now);
      if payload.None? {
        return Err(Unauthorized(UNAUTHORIZED_MESSAGE));
      }
      var user := FindById(store.users, payload.value.payload.userId);
      if user.None? {
        return Err(Unauthorized(UNAUTHORIZED_MESSAGE));
      }
      if user.value.status == BLOCKED || user.value.status == INACTIVE {
        return Err(Unauthorized(UNAUTHORIZED_MESSAGE));
      }
      return Ok(payload.value);
    }
  }

  /** An access token issued at `issued` passes the guard exactly when the
      guard's secret is the access-token secret, the token's lifetime has not
      run out, and its user exists and is active. */
  lemma IssuedAccessTokenAdmitted(users: seq<User>, config: JwtConfig, guardSecret: string, p: Payload, issued: int, now: int)
    ensures Admits(users, guardSecret, TokenPairFor(config, p, issued).accessToken, now)
        <==> && guardSecret == config.accessSecret
             && Seconds(now) < Seconds(issued) + config.accessExpiresIn
             && FindById(users, p.userId).Some?
             && FindById(users, p.userId).value.status == ACTIVE
  {
    SignThenVerify(p, config.accessSecret, config.accessExpiresIn, issued, guardSecret, now);
  }
}
