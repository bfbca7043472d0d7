/** Signing, verifying and decoding of access and refresh tokens (jwt-utils.ts).
    A token is abstract: the claims it carries, the secret it was signed with,
    and its issue and expiry times in seconds. Signatures themselves are not
    modelled: a token verifies under a secret exactly when it was signed with
    that secret. */
module Jwt {
  import opened Common

  /** `expiresIn: 30*60` of the access token, in seconds. */
  const AccessTtl: int := 30 * 60
  /** `expiresIn: '7d'` of the refresh token, in seconds. */
  const RefreshTtl: int := 7 * 24 * 60 * 60
  /** The one message of every verification failure, for both kinds of token. */
  const VerifyFailed := "Invalid or expired access token"

  /** ACCESS_TOKEN_SECRET and REFRESH_TOKEN_SECRET, read once from the environment. */
  datatype Keys = Keys(access: string, refresh: string)

  /** The `password` claim: Login puts the submitted password into the token,
      the GitHub flow the stored hash, Refresh none at all. */
  datatype ClaimPassword = NoPassword | PlainPassword(text: string) | HashedPassword(hash: PasswordHash)

  /** The UserDTO fields the services sign. */
  datatype UserInfo = UserInfo(
    id: int, username: string, email: string, password: ClaimPassword,
    avatar: Option<string>, role: int, status: int)

  /** UserPayload: the signed claims with `iat` and `exp` added. */
  datatype Payload = Payload(user: UserInfo, iat: int, exp: int)

  /** What a token string denotes: a token signed with some secret, or text
      that is not a token at all. */
  datatype Token =
    | Signed(claims: UserInfo, secret: string, iat: int, exp: int)
    | Malformed(raw: string)

  /** `jwtService.sign(user, {secret, expiresIn})` at time `now` (seconds). */
  function Sign(user: UserInfo, secret: string, ttl: int, now: int): Token {
    Signed(user, secret, now, now + ttl)
  }

  /** `jwtService.verifyAsync(token, {secret})`: the signature must match the
      secret and the token must not have expired (jsonwebtoken rejects once
      `now >= exp`); any failure becomes the same plain Error. */
  function VerifyWith(t: Token, secret: string, now: int): (r: Result<Payload>)
    ensures r.Ok? <==> t.Signed? && t.secret == secret && now < t.exp
    ensures r.Ok? ==> r.value == Payload(t.claims, t.iat, t.exp)
    ensures r.Err? ==> r.error == PlainError(VerifyFailed)
  {
    match t
    case Signed(claims, s, iat, exp) =>
      if s == secret && now < exp then Ok(Payload(claims, iat, exp)) else Err(PlainError(VerifyFailed))
    case Malformed(_) => Err(PlainError(VerifyFailed))
  }

  function GenerateAccessToken(user: UserInfo, keys: Keys, now: int): Token {
    Sign(user, keys.access, AccessTtl, now)
  }

  function VerifyAccessToken(t: Token, keys: Keys, now: int): Result<Payload> {
    VerifyWith(t, keys.access, now)
  }

  function GenerateRefreshToken(user: UserInfo, keys: Keys, now: int): Token {
    Sign(user, keys.refresh, RefreshTtl, now)
  }

  function VerifyRefreshToken(t: Token, keys: Keys, now: int): Result<Payload> {
    VerifyWith(t, keys.refresh, now)
  }

  /** `jwtService.decode(token)`: the payload without any check of signature or
      expiry; null for text that is not a token. */
  function DecodeAccessToken(t: Token): (r: Option<Payload>)
    ensures t.Signed? <==> r.Some?
    ensures r.Some? ==> r.value == Payload(t.claims, t.iat, t.exp)
  {
    match t
    case Signed(claims, _, iat, exp) => Some(Payload(claims, iat, exp))
    case Malformed(_) => None
  }

  /** An access token issued at `issued` verifies, giving back the signed user
      with `iat` and `exp`, exactly until 1800 seconds have passed. */
  lemma AccessTokenLifetime(user: UserInfo, keys: Keys, issued: int, now: int)
    ensures VerifyAccessToken(GenerateAccessToken(user, keys, issued), keys, now)
         == if now < issued + AccessTtl then Ok(Payload(user, issued, issued + AccessTtl))
            else Err(PlainError(VerifyFailed))
  {
  }

  /** A refresh token verifies, giving back the signed user, for seven days. */
  lemma RefreshTokenLifetime(user: UserInfo, keys: Keys, issued: int, now: int)
    ensures VerifyRefreshToken(GenerateRefreshToken(user, keys, issued), keys, now)
         == if now < issued + RefreshTtl then Ok(Payload(user, issued, issued + RefreshTtl))
            else Err(PlainError(VerifyFailed))
  {
  }

  /** With two different secrets configured, neither kind of token passes the
      other kind's verifier, at any time. */
  lemma KindsDoNotCross(user: UserInfo, keys: Keys, issued: int, now: int)
    requires keys.access != keys.refresh
    ensures VerifyAccessToken(GenerateRefreshToken(user, keys, issued), keys, now) == Err(PlainError(VerifyFailed))
    ensures VerifyRefreshToken(GenerateAccessToken(user, keys, issued), keys, now) == Err(PlainError(VerifyFailed))
  {
  }

  /** Decoding reads the claims of any signed token, whichever secret signed it
      and however long ago it expired. */
  lemma DecodeIgnoresSecretAndExpiry(user: UserInfo, secret: string, ttl: int, issued: int)
    ensures DecodeAccessToken(Sign(user, secret, ttl, issued)) == Some(Payload(user, issued, issued + ttl))
  {
  }
}
