/**
 * Token issue and verification. Signing and checking signatures and expiry belong
 * to the `jsonwebtoken` library: an issued token is represented by the claims it
 * carries, and what the library concludes about a presented token is an input.
 */
module JwtUtils {
  import opened Common
  import opened Schema

  /** The payload `{ userId, email, role }`. */
  datatype Claims = Claims(userId: Id, email: string, role: Role)

  /** Which secret and expiry a token was signed with. */
  datatype TokenKind = AccessToken | RefreshToken

  /** A token issued by `generateAccessToken` or `generateRefreshToken`. */
  datatype SignedToken = SignedToken(kind: TokenKind, claims: Claims)

  /** `{ accessToken, refreshToken }` */
  datatype TokenPair = TokenPair(accessToken: SignedToken, refreshToken: SignedToken)

  /** What `jwt.verify` does with a presented token: decode it or throw one of its errors. */
  datatype JwtVerdict =
    | Decoded(claims: Claims)
    | TokenExpiredError
    | JsonWebTokenError
    | OtherError(message: string)

  const AccessExpiredMessage := "Access token expired"
  const AccessInvalidMessage := "Invalid access token"
  const RefreshExpiredMessage := "Refresh token expired"
  const RefreshInvalidMessage := "Invalid refresh token"

  /** `generateTokenPair`: both tokens carry exactly the given claims. */
  function GenerateTokenPair(claims: Claims): (pair: TokenPair)
    ensures pair.accessToken.kind == AccessToken && pair.refreshToken.kind == RefreshToken
    ensures pair.accessToken.claims == claims && pair.refreshToken.claims == claims
  {
    TokenPair(SignedToken(AccessToken, claims), SignedToken(RefreshToken, claims))
  }

  /**
   * `verifyAccessToken`: the decoded claims, or the library's expiry and
   * signature errors rethrown with this module's own messages.
   */
  function VerifyAccessToken(verdict: JwtVerdict): (r: Result<Claims>)
    ensures r.Ok? <==> verdict.Decoded?
    ensures r.Ok? ==> r.value == verdict.claims
    ensures verdict.TokenExpiredError? ==> r == Err(AccessExpiredMessage)
    ensures verdict.JsonWebTokenError? ==> r == Err(AccessInvalidMessage)
    ensures verdict.OtherError? ==> r == Err(verdict.message)
  {
    match verdict
    case Decoded(claims) => Ok(claims)
    case TokenExpiredError => Err(AccessExpiredMessage)
    case JsonWebTokenError => Err(AccessInvalidMessage)
    case OtherError(message) => Err(message)
  }

  /** `verifyRefreshToken`: as `VerifyAccessToken`, with the refresh messages. */
  function VerifyRefreshToken(verdict: JwtVerdict): (r: Result<Claims>)
    ensures r.Ok? <==> verdict.Decoded?
    ensures r.Ok? ==> r.value == verdict.claims
    ensures verdict.TokenExpiredError? ==> r == Err(RefreshExpiredMessage)
    ensures verdict.JsonWebTokenError? ==> r == Err(RefreshInvalidMessage)
    ensures verdict.OtherError? ==> r == Err(verdict.message)
  {
    match verdict
    case Decoded(claims) => Ok(claims)
    case TokenExpiredError => Err(RefreshExpiredMessage)
    case JsonWebTokenError => Err(RefreshInvalidMessage)
    case OtherError(message) => Err(message)
  }
}
