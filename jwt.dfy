/**
 * The token signer, abstracted. A signed token carries its claims and the
 * secret it was signed with; any other string a client sends is `Opaque`.
 * As in the JSON Web Token library the service uses, `iat` and `exp` are
 * whole seconds, while clocks elsewhere are read in milliseconds.
 */
module Jwt {
  import opened Common
  import opened Accounts

  /** The payload the service signs: `{ userId, role }`. */
  datatype Payload = Payload(userId: UserId, role: Role)

  /** What verification yields: the payload plus the issued-at and expiry stamps. */
  datatype Claims = Claims(payload: Payload, iat: int, exp: int)

  datatype Token = Signed(claims: Claims, secret: string) | Opaque(text: string)

  /** `Math.floor(ms / 1000)`; Dafny's division by a positive divisor already rounds down. */
  function Seconds(ms: int): int {
    ms / 1000
  }

  /** `sign(payload, { secret, expiresIn: ttl })` at time `now` (milliseconds). */
  function Sign(p: Payload, secret: string, ttl: nat, now: int): (t: Token)
    ensures t.Signed? && t.claims.payload == p && t.secret == secret
    ensures t.claims.exp - t.claims.iat == ttl
  {
    Signed(Claims(p, Seconds(now), Seconds(now) + ttl), secret)
  }

  /** `verify(token, { secret })` at time `now`: fails on a foreign secret,
      on anything that is not a signed token, and once `exp` has been reached. */
  function Verify(t: Token, secret: string, now: int): Option<Claims> {
    match t
    case Signed(c, s) => if s == secret && Seconds(now) < c.exp then Some(c) else None
    case Opaque(_) => None
  }

  /** A token verifies exactly under the secret that signed it and before its
      lifetime, counted in whole seconds from the second of issue, runs out. */
  lemma SignThenVerify(p: Payload, secret: string, ttl: nat, issued: int, secret': string, now: int)
    ensures Verify(Sign(p, secret, ttl, issued), secret', now).Some?
        <==> secret' == secret && Seconds(now) < Seconds(issued) + ttl
    ensures Verify(Sign(p, secret, ttl, issued), secret', now).Some?
        ==> Verify(Sign(p, secret, ttl, issued), secret', now).value.payload == p
  {
  }

  /** Once a token has expired it stays expired. */
  lemma ExpiryIsFinal(t: Token, secret: string, now: int, later: int)
    requires t.Signed? && t.secret == secret
    requires now <= later
    requires Verify(t, secret, now).None?
    ensures Verify(t, secret, later).None?
  {
  }
}
