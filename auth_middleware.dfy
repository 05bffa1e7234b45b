/**
 * The authentication and role-authorisation middleware. A request/response pair
 * is an `Exchange` whose `user`, `response` and count of `next()` calls the
 * middleware updates; token verification is the `verify` oracle.
 */
module AuthMiddleware {
  import opened Common
  import opened Http
  import opened Schema
  import opened JwtUtils

  const BearerPrefix := "Bearer "
  const PleaseProvideToken := "Please provide a valid access token"

  /** The token carried by an `Authorization` header: what follows `Bearer `, or the whole header. */
  function ExtractToken(header: string): (token: string)
    ensures StartsWith(header, BearerPrefix) ==> BearerPrefix + token == header
    ensures !StartsWith(header, BearerPrefix) ==> token == header
  {
    if StartsWith(header, BearerPrefix) then header[|BearerPrefix|..] else header
  }

  /** A header in the form of section 2.1 of RFC 6750 yields exactly its token. */
  lemma BearerHeaderYieldsToken(token: string)
    ensures ExtractToken(BearerPrefix + token) == token
  {
    assert (BearerPrefix + token)[..|BearerPrefix|] == BearerPrefix;
    assert (BearerPrefix + token)[|BearerPrefix|..] == token;
  }

  /** The token is always the header minus either nothing or the `Bearer ` prefix. */
  lemma HeaderIsPrefixPlusToken(header: string)
    ensures header == ExtractToken(header)
         || header == BearerPrefix + ExtractToken(header)
    ensures ExtractToken(header) == "" ==> header == "" || header == BearerPrefix
  {
    if StartsWith(header, BearerPrefix) {
      assert header == header[..|BearerPrefix|] + header[|BearerPrefix|..];
    }
  }

  /** What `authenticate` decides for a request: attach these claims, or answer. */
  datatype AuthDecision =
    | Authenticated(claims: Claims)
    | Rejected(status: nat, error: string, message: string)

  /** The decision of `authenticate` for the given header, by its early returns and catch block. */
  function AuthenticateDecision(header: Option<string>, verify: string -> JwtVerdict): (d: AuthDecision)
    ensures d.Authenticated? ==> header.Some? && verify(ExtractToken(header.value)) == Decoded(d.claims)
    ensures d.Rejected? ==> d.status == 401 || d.status == 500
    ensures d.Rejected? && d.status == 500 ==> header.Some? && verify(ExtractToken(header.value)).OtherError?
  {
    if header.None? || header.value == "" then
      Rejected(401, "No authorization header provided", PleaseProvideToken)
    else if ExtractToken(header.value) == "" then
      Rejected(401, "No token provided", PleaseProvideToken)
    else
      match VerifyAccessToken(verify(ExtractToken(header.value)))
      case Ok(claims) => Authenticated(claims)
      case Err(m) =>
        if m == AccessExpiredMessage then
          Rejected(401, "Token expired", "Your session has expired. Please login again.")
        else if m == AccessInvalidMessage then
          Rejected(401, "Invalid token", "The provided token is invalid.")
        else
          Rejected(500, "Authentication error", "An error occurred during authentication")
  }

  /** A missing or empty header, or a bare `Bearer `, is refused with 401 before verification. */
  lemma NoTokenRefused(header: Option<string>, verify: string -> JwtVerdict)
    requires header.None? || header.value == "" || header.value == BearerPrefix
    ensures AuthenticateDecision(header, verify).Rejected?
    ensures AuthenticateDecision(header, verify).status == 401
    ensures AuthenticateDecision(header, verify).error ==
      if header == Some(BearerPrefix) then "No token provided" else "No authorization header provided"
  {
    if header == Some(BearerPrefix) {
      BearerHeaderYieldsToken("");
      assert BearerPrefix + "" == BearerPrefix;
    }
  }

  /** The request is let through exactly when a non-empty token verifies, with that token's claims. */
  lemma AuthenticatedIffVerified(header: Option<string>, verify: string -> JwtVerdict)
    ensures AuthenticateDecision(header, verify).Authenticated? <==>
      header.Some? && ExtractToken(header.value) != "" && verify(ExtractToken(header.value)).Decoded?
    ensures AuthenticateDecision(header, verify).Authenticated? ==>
      AuthenticateDecision(header, verify).claims == verify(ExtractToken(header.value)).claims
  {
  }

  /** An expired token answers 401, a malformed one 401, any other verification failure 500. */
  lemma VerificationFailuresMapped(header: string, verify: string -> JwtVerdict)
    requires header != "" && ExtractToken(header) != ""
    ensures verify(ExtractToken(header)).TokenExpiredError? ==>
      AuthenticateDecision(Some(header), verify) ==
        Rejected(401, "Token expired", "Your session has expired. Please login again.")
    ensures verify(ExtractToken(header)).JsonWebTokenError? ==>
      AuthenticateDecision(Some(header), verify) ==
        Rejected(401, "Invalid token", "The provided token is invalid.")
    ensures verify(ExtractToken(header)).OtherError? ==>
      AuthenticateDecision(Some(header), verify).status ==
        (if verify(ExtractToken(header)).message in {AccessExpiredMessage, AccessInvalidMessage} then 401 else 500)
  {
  }

  /** A request and its response as the middleware sees them. */
  class Exchange {
    /** `req.headers.authorization` */
    var authorization: Option<string>
    /** `req.user` */
    var user: Option<Claims>
    /** What was sent with `res.status(..).json(..)`, if anything. */
    var response: Option<Reply<()>>
    /** How many times `next()` was called. */
    var nextCalls: nat

    constructor (authorization: Option<string>)
      ensures this.authorization == authorization
      ensures user.None? && response.None? && nextCalls == 0
    {
      this.authorization := authorization;
      user := None;
      response := None;
      nextCalls := 0;
    }
  }

  /**
   * `authenticate`: either attaches the verified claims and calls `next` once,
   * or sends the rejection and does not call `next`.
   */
  method Authenticate(ex: Exchange, verify: string -> JwtVerdict)
    modifies ex
    ensures ex.authorization == old(ex.authorization)
    ensures match AuthenticateDecision(old(ex.authorization), verify)
      case Authenticated(claims) =>
        ex.user == Some(claims) && ex.nextCalls == old(ex.nextCalls) + 1 && ex.response == old(ex.response)
      case Rejected(status, error, message) =>
        ex.user == old(ex.user) && ex.nextCalls == old(ex.nextCalls)
        && ex.response == Some(Fail(status, error, message))
  {
    var authHeader := ex.authorization;
    if authHeader.None? || authHeader.value == "" {
      ex.response := Some(Fail(401, "No authorization header provided", PleaseProvideToken));
      return;
    }
    var token := if StartsWith(authHeader.value, BearerPrefix) then authHeader.value[7..] else authHeader.value;
    if token == "" {
      ex.response := Some(Fail(401, "No token provided", PleaseProvideToken));
      return;
    }
    var decoded := VerifyAccessToken(verify(token));
    if decoded.Ok? {
      ex.user := Some(decoded.value);
      ex.nextCalls := ex.nextCalls + 1;
    } else if decoded.message == AccessExpiredMessage {
      ex.response := Some(Fail(401, "Token expired", "Your session has expired. Please login again."));
    } else if decoded.message == AccessInvalidMessage {
      ex.response := Some(Fail(401, "Invalid token", "The provided token is invalid."));
    } else {
      ex.response := Some(Fail(500, "Authentication error", "An error occurred during authentication"));
    }
  }

  /** What `authorize` does with a request: let it through, or answer. */
  datatype Gate = Continue | Halt(status: nat, error: string, message: string)

  /** `authorize(...allowedRoles)`: 401 without a user, 403 for a role outside the list. */
  function Authorize(allowedRoles: seq<Role>, user: Option<Claims>): (gate: Gate)
    ensures gate.Continue? <==> user.Some? && user.value.role in allowedRoles
    ensures user.None? ==> gate == Halt(401, "Unauthorized", "Authentication required")
    ensures user.Some? && user.value.role !in allowedRoles ==> gate.Halt? && gate.status == 403
  {
    if user.None? then
      Halt(401, "Unauthorized", "Authentication required")
    else if user.value.role !in allowedRoles then
      Halt(403, "Forbidden", "You do not have permission to access this resource")
    else
      Continue
  }

  /**
   * `optionalAuthenticate`: always calls `next` exactly once, never answers, and
   * attaches claims exactly when `authenticate` would have accepted the request.
   */
  method OptionalAuthenticate(ex: Exchange, verify: string -> JwtVerdict)
    modifies ex
    ensures ex.authorization == old(ex.authorization) && ex.response == old(ex.response)
    ensures ex.nextCalls == old(ex.nextCalls) + 1
    ensures ex.user == match AuthenticateDecision(old(ex.authorization), verify)
      case Authenticated(claims) => Some(claims)
      case Rejected(_, _, _) => old(ex.user)
  {
    var authHeader := ex.authorization;
    if authHeader.Some? && authHeader.value != "" {
      var token := if StartsWith(authHeader.value, BearerPrefix) then authHeader.value[7..] else authHeader.value;
      if token != "" {
        var decoded := VerifyAccessToken(verify(token));
        if decoded.Ok? {
          ex.user := Some(decoded.value);
        }
      }
    }
    ex.nextCalls := ex.nextCalls + 1;
  }
}
