/**
 * `AuthController`: the decision chains of `register`, `login`,
 * `refreshToken` and `getProfile`. Hashing, password comparison and token
 * verification are the `hash`, `compare` and `verify` oracles.
 */
module AuthController {
  import opened Common
  import opened Http
  import opened Schema
  import opened JwtUtils
  import PasswordUtils
  import UserModel

  /** The `data` of a successful reply. */
  datatype AuthPayload =
    | Session(user: Option<UserModel.Profile>, tokens: TokenPair)
    | Refreshed(tokens: TokenPair)
    | ProfileData(profile: UserModel.Profile)

  function InvalidCredentials(): Reply<AuthPayload> {
    Fail(401, "Invalid credentials", "Email or password is incorrect")
  }

  function EmailTaken(): Reply<AuthPayload> {
    Fail(409, "Email already registered", "An account with this email address already exists")
  }

  function RegistrationFailed(): Reply<AuthPayload> {
    Fail(500, "Registration failed", "An error occurred during registration")
  }

  function WeakPassword(errors: seq<string>): Reply<AuthPayload> {
    Failure(400, "Weak password", "Password does not meet security requirements", errors)
  }

  /** The claims of the tokens issued for a stored user. */
  function ClaimsOf(u: User): Claims {
    Claims(u.id, u.email, u.role)
  }

  /** `role || 'user'` */
  function RoleOrDefault(role: Option<Role>): Role {
    if role.Some? then role.value else RegularUser
  }

  // ---------------------------------------------------------------- register

  /**
   * `register`: 409 for a taken email (checked first), 400 with the validator's
   * errors for a weak password, and in both cases no user is created; otherwise
   * the user is stored with the hashed password and role 'user' unless given,
   * their last login is stamped, and 201 carries their profile and tokens for
   * their id, email and role.
   */
  method Register(db: Database, email: string, password: string, fullName: string, role: Option<Role>,
                  hash: string -> string, now: Timestamp)
    returns (reply: Reply<AuthPayload>)
    requires db.Valid()
    modifies db
    ensures db.Valid() && OnlyUsersChanged(db)
    ensures UserModel.EmailExists(old(db.users), email) ==> reply == EmailTaken() && db.users == old(db.users)
    ensures !UserModel.EmailExists(old(db.users), email) && !PasswordUtils.Strong(password) ==>
      reply == WeakPassword(PasswordUtils.StrengthErrors(password)) && db.users == old(db.users)
    ensures reply.status == 201 <==> !UserModel.EmailExists(old(db.users), email) && PasswordUtils.Strong(password)
    ensures reply.status == 201 ==>
      var u := UserModel.NewUser(old(db.nextId), email, hash(password), fullName, Some(RoleOrDefault(role)), now);
      && db.users == UserModel.UpdateUsers(old(db.users) + [u], u.id, UserModel.StampLogin(now))
      && u.role == RoleOrDefault(role)
      && reply == Success(201, "User registered successfully",
                          Session(UserModel.GetProfile(db.users, u.id), GenerateTokenPair(ClaimsOf(u))))
      && reply.data.user.Some?
  {
    var emailExists := UserModel.EmailExists(db.users, email);
    if emailExists {
      return EmailTaken();
    }
    var passwordValidation := PasswordUtils.ValidatePasswordStrength(password);
    if !passwordValidation.valid {
      PasswordUtils.ValidIffStrong(password);
      return WeakPassword(passwordValidation.errors);
    }
    PasswordUtils.ValidIffStrong(password);
    var passwordHash := hash(password);
    ghost var before := db.users;
    var created := UserModel.Create(db, email, passwordHash, fullName, Some(RoleOrDefault(role)), now);
    if created.Err? {
      return RegistrationFailed();
    }
    var user := created.value;
    var tokens := GenerateTokenPair(ClaimsOf(user));
    UserModel.CreatedUserIsFound(before, user.id, user);
    UserModel.UpdateLastLogin(db, user.id, now);
    StampedUserIsFound(before + [user], user, now);
    var userProfile := UserModel.GetProfile(db.users, user.id);
    reply := Success(201, "User registered successfully", Session(userProfile, tokens));
  }

  /** After stamping the login of a stored user, that user is still found by id. */
  lemma StampedUserIsFound(users: seq<User>, u: User, now: Timestamp)
    requires UserModel.FindById(users, u.id) == Some(u)
    ensures UserModel.FindById(UserModel.UpdateUsers(users, u.id, UserModel.StampLogin(now)), u.id).Some?
  {
    var k :| 0 <= k < |users| && users[k] == u;
    var r := UserModel.UpdateUsers(users, u.id, UserModel.StampLogin(now));
    assert r[k].id == u.id;
  }

  // ---------------------------------------------------------------- login

  /** The 403 message for a banned account: its reason, or 'Violation of terms' when none (or empty). */
  function BannedMessage(banReason: Option<string>): string {
    "Your account has been banned. Reason: "
      + (if banReason.Some? && banReason.value != "" then banReason.value else "Violation of terms")
  }

  /**
   * `login`: an unknown email and a wrong password give the same 401; a banned
   * account is refused (403) before an inactive one (403), and both before the
   * password is compared; on success the last login is stamped and 200 carries
   * the profile and tokens for the stored id, email and role.
   */
  method Login(db: Database, email: string, password: string, compare: (string, string) -> bool, now: Timestamp)
    returns (reply: Reply<AuthPayload>)
    requires db.Valid()
    modifies db
    ensures db.Valid() && OnlyUsersChanged(db) && db.nextId == old(db.nextId)
    ensures UserModel.FindByEmail(old(db.users), email).None? ==> reply == InvalidCredentials()
    ensures UserModel.FindByEmail(old(db.users), email).Some? ==>
      var u := UserModel.FindByEmail(old(db.users), email).value;
      && (u.isBanned ==> reply == Fail(403, "Account banned", BannedMessage(u.banReason)))
      && (!u.isBanned && !u.isActive ==> reply == Fail(403, "Account inactive", "Your account has been deactivated"))
      && (!u.isBanned && u.isActive && !compare(password, u.passwordHash) ==> reply == InvalidCredentials())
      && (reply.status == 200 <==> !u.isBanned && u.isActive && compare(password, u.passwordHash))
      && (reply.status == 200 ==>
            && db.users == UserModel.UpdateUsers(old(db.users), u.id, UserModel.StampLogin(now))
            && reply == Success(200, "Login successful",
                                Session(UserModel.GetProfile(db.users, u.id), GenerateTokenPair(ClaimsOf(u)))))
    ensures reply.status != 200 ==> db.users == old(db.users)
  {
    var user := UserModel.FindByEmail(db.users, email);
    if user.None? {
      return InvalidCredentials();
    }
    if user.value.isBanned {
      return Fail(403, "Account banned", BannedMessage(user.value.banReason));
    }
    if !user.value.isActive {
      return Fail(403, "Account inactive", "Your account has been deactivated");
    }
    var isPasswordValid := compare(password, user.value.passwordHash);
    if !isPasswordValid {
      return InvalidCredentials();
    }
    var tokens := GenerateTokenPair(ClaimsOf(user.value));
    UserModel.UpdateLastLogin(db, user.value.id, now);
    var userProfile := UserModel.GetProfile(db.users, user.value.id);
    reply := Success(200, "Login successful", Session(userProfile, tokens));
  }

  // ---------------------------------------------------------------- refreshToken

  /** ASCII lower case of one character. */
  function LowerChar(c: char): char {
    if 'A' <= c <= 'Z' then (c as int + 32) as char else c
  }

  function Lower(s: string): (r: string)
    ensures |r| == |s| && forall i :: 0 <= i < |s| ==> r[i] == LowerChar(s[i])
  {
    seq(|s|, i requires 0 <= i < |s| => LowerChar(s[i]))
  }

  /** A substring found at some position is included. */
  lemma {:induction false} IncludesAt(s: string, sub: string, k: nat)
    requires k + |sub| <= |s| && s[k..k + |sub|] == sub
    ensures Includes(s, sub)
    decreases k
  {
    if k > 0 {
      assert s[1..][k - 1..k - 1 + |sub|] == s[k..k + |sub|];
      IncludesAt(s[1..], sub, k - 1);
    }
  }

  /** An included substring is found at some position. */
  lemma {:induction false} IncludedSomewhere(s: string, sub: string) returns (k: nat)
    requires Includes(s, sub)
    ensures k + |sub| <= |s| && s[k..k + |sub|] == sub
    decreases |s|
  {
    if StartsWith(s, sub) {
      k := 0;
    } else {
      var j := IncludedSomewhere(s[1..], sub);
      assert s[1..][j..j + |sub|] == s[j + 1..j + 1 + |sub|];
      k := j + 1;
    }
  }

  /** The catch block of `refreshToken` as written: case-sensitive `includes('expired')` or `includes('invalid')`. */
  function RefreshErrorAsWritten(message: string): (reply: Reply<AuthPayload>)
    ensures reply.status == 401 <==> Includes(message, "expired") || Includes(message, "invalid")
    ensures reply.status != 401 ==> reply.status == 500
  {
    if Includes(message, "expired") || Includes(message, "invalid") then
      Fail(401, "Invalid refresh token", "Please login again")
    else
      Fail(500, "Token refresh failed", "An error occurred while refreshing token")
  }

  /**
   * As written, an invalid refresh token is answered 500: `verifyRefreshToken`
   * throws 'Invalid refresh token', whose capital I does not match 'invalid'.
   */
  lemma InvalidRefreshTokenAnswers500AsWritten()
    ensures RefreshErrorAsWritten(RefreshInvalidMessage).status == 500
  {
    var m := RefreshInvalidMessage;
    assert 'x' !in m;
    assert 'i' !in m[..5] && m[5..7] == "id" && 'i' !in m[7..];
    LowerCaseWordsMissing(m);
  }

  /** As written, an expired refresh token is answered 401: 'Refresh token expired' includes 'expired'. */
  lemma ExpiredRefreshTokenAnswers401AsWritten()
    ensures RefreshErrorAsWritten(RefreshExpiredMessage).status == 401
  {
    assert RefreshExpiredMessage[14..21] == "expired";
    IncludesAt(RefreshExpiredMessage, "expired", 14);
  }

  /**
   * A text without an 'x', whose only lower-case 'i' is followed by 'd',
   * includes neither 'invalid' nor 'expired'.
   */
  lemma LowerCaseWordsMissing(m: string)
    requires 'x' !in m
    requires |m| >= 7 && 'i' !in m[..5] && m[5..7] == "id" && 'i' !in m[7..]
    ensures !Includes(m, "invalid") && !Includes(m, "expired")
  {
    forall k | 0 <= k < |m| - 1 ensures !(m[k] == 'i' && m[k + 1] == 'n') && !(m[k] == 'e' && m[k + 1] == 'x') {
      assert m[k + 1] in m;
      if k < 5 {
        assert m[k] == m[..5][k] && m[..5][k] in m[..5];
      } else if k > 6 {
        assert m[k] == m[7..][k - 7] && m[7..][k - 7] in m[7..];
      } else {
        assert m[5] == m[5..7][0] && m[6] == m[5..7][1];
      }
    }
    NotIncluded(m, "invalid");
    NotIncluded(m, "expired");
  }

  /** A text in which the first two characters of `sub` never occur in a row does not include `sub`. */
  lemma NotIncluded(s: string, sub: string)
    requires |sub| >= 2
    requires forall k :: 0 <= k < |s| - 1 ==> !(s[k] == sub[0] && s[k + 1] == sub[1])
    ensures !Includes(s, sub)
  {
    if Includes(s, sub) {
      var k := IncludedSomewhere(s, sub);
    }
  }

  /** The catch block as intended: the words matched without regard to case. */
  function RefreshError(message: string): (reply: Reply<AuthPayload>)
    ensures reply.status == 401 <==> Includes(Lower(message), "expired") || Includes(Lower(message), "invalid")
    ensures reply.status != 401 ==> reply.status == 500
  {
    if Includes(Lower(message), "expired") || Includes(Lower(message), "invalid") then
      Fail(401, "Invalid refresh token", "Please login again")
    else
      Fail(500, "Token refresh failed", "An error occurred while refreshing token")
  }

  lemma LowerExpiredIncludesExpired()
    ensures Includes(Lower(RefreshExpiredMessage), "expired")
  {
    assert Lower(RefreshExpiredMessage)[14..21] == "expired";
    IncludesAt(Lower(RefreshExpiredMessage), "expired", 14);
  }

  lemma LowerInvalidIncludesInvalid()
    ensures Includes(Lower(RefreshInvalidMessage), "invalid")
  {
    assert Lower(RefreshInvalidMessage)[0..7] == "invalid";
    IncludesAt(Lower(RefreshInvalidMessage), "invalid", 0);
  }

  /**
   * Corrected, both failures `verifyRefreshToken` reports (expired and invalid)
   * answer 401, and every message the code as written answers 401 still does.
   */
  lemma RefreshFailuresAnswer401(message: string)
    ensures RefreshError(RefreshExpiredMessage).status == 401
    ensures RefreshError(RefreshInvalidMessage).status == 401
    ensures RefreshErrorAsWritten(message).status == 401 ==> RefreshError(message).status == 401
  {
    LowerExpiredIncludesExpired();
    LowerInvalidIncludesInvalid();
    if RefreshErrorAsWritten(message).status == 401 {
      if Includes(message, "expired") {
        LoweringKeepsLowerCaseWord(message, "expired");
      } else {
        LoweringKeepsLowerCaseWord(message, "invalid");
      }
    }
  }

  /** Lowering a message keeps every lower-case word it already contains. */
  lemma LoweringKeepsLowerCaseWord(message: string, word: string)
    requires forall i :: 0 <= i < |word| ==> 'a' <= word[i] <= 'z'
    requires Includes(message, word)
    ensures Includes(Lower(message), word)
  {
    var k := IncludedSomewhere(message, word);
    forall i | 0 <= i < |word|
      ensures Lower(message)[k + i] == word[i]
    {
      assert message[k + i] == message[k..k + |word|][i];
    }
    assert Lower(message)[k..k + |word|] == word;
    IncludesAt(Lower(message), word, k);
  }

  /**
   * The part of `refreshToken` after a successful verification: 401 when the
   * token's user no longer exists; 403 for a banned or inactive user;
   * otherwise 200 with new tokens for the user's stored id, email and role.
   */
  method RefreshFor(db: Database, claims: Claims) returns (reply: Reply<AuthPayload>)
    ensures var found := UserModel.FindById(db.users, claims.userId);
      && (found.None? ==> reply == Fail(401, "Invalid token", "User not found"))
      && (found.Some? && (found.value.isBanned || !found.value.isActive) ==>
            reply == Fail(403, "Account unavailable", "Your account is no longer active"))
      && (found.Some? && !found.value.isBanned && found.value.isActive ==>
            reply == Success(200, "Token refreshed successfully", Refreshed(GenerateTokenPair(ClaimsOf(found.value)))))
  {
    var user := UserModel.FindById(db.users, claims.userId);
    if user.None? {
      return Fail(401, "Invalid token", "User not found");
    }
    if user.value.isBanned || !user.value.isActive {
      return Fail(403, "Account unavailable", "Your account is no longer active");
    }
    var tokens := GenerateTokenPair(ClaimsOf(user.value));
    reply := Success(200, "Token refreshed successfully", Refreshed(tokens));
  }

  /**
   * `refreshToken` as written: a token that fails verification is answered by
   * the case-sensitive catch block, so an expired token gets 401 and an invalid
   * one 500 (see `RefreshVerificationFailuresAsWritten`); a verified token is
   * answered by `RefreshFor`. Nothing is written.
   */
  method RefreshToken(db: Database, refreshToken: string, verify: string -> JwtVerdict)
    returns (reply: Reply<AuthPayload>)
    ensures verify(refreshToken).TokenExpiredError? ==> reply.status == 401
    ensures verify(refreshToken).JsonWebTokenError? ==> reply.status == 500
    ensures VerifyRefreshToken(verify(refreshToken)).Err? ==>
      reply == RefreshErrorAsWritten(VerifyRefreshToken(verify(refreshToken)).message)
    ensures VerifyRefreshToken(verify(refreshToken)).Ok? ==>
      var found := UserModel.FindById(db.users, VerifyRefreshToken(verify(refreshToken)).value.userId);
      && (found.None? ==> reply == Fail(401, "Invalid token", "User not found"))
      && (found.Some? && (found.value.isBanned || !found.value.isActive) ==>
            reply == Fail(403, "Account unavailable", "Your account is no longer active"))
      && (found.Some? && !found.value.isBanned && found.value.isActive ==>
            reply == Success(200, "Token refreshed successfully", Refreshed(GenerateTokenPair(ClaimsOf(found.value)))))
  {
    var decoded := VerifyRefreshToken(verify(refreshToken));
    if decoded.Err? {
      RefreshVerificationFailuresAsWritten(verify(refreshToken));
      return RefreshErrorAsWritten(decoded.message);
    }
    reply := RefreshFor(db, decoded.value);
  }

  /**
   * `refreshToken` as intended: the catch block matches the words without
   * regard to case, so both an expired and an invalid token get 401.
   */
  method RefreshTokenCorrected(db: Database, refreshToken: string, verify: string -> JwtVerdict)
    returns (reply: Reply<AuthPayload>)
    ensures verify(refreshToken).TokenExpiredError? || verify(refreshToken).JsonWebTokenError? ==>
      reply.status == 401
    ensures VerifyRefreshToken(verify(refreshToken)).Err? ==>
      reply == RefreshError(VerifyRefreshToken(verify(refreshToken)).message)
    ensures VerifyRefreshToken(verify(refreshToken)).Ok? ==>
      var found := UserModel.FindById(db.users, VerifyRefreshToken(verify(refreshToken)).value.userId);
      && (found.None? ==> reply == Fail(401, "Invalid token", "User not found"))
      && (found.Some? && (found.value.isBanned || !found.value.isActive) ==>
            reply == Fail(403, "Account unavailable", "Your account is no longer active"))
      && (found.Some? && !found.value.isBanned && found.value.isActive ==>
            reply == Success(200, "Token refreshed successfully", Refreshed(GenerateTokenPair(ClaimsOf(found.value)))))
  {
    var decoded := VerifyRefreshToken(verify(refreshToken));
    if decoded.Err? {
      if verify(refreshToken).TokenExpiredError? || verify(refreshToken).JsonWebTokenError? {
        RefreshVerificationFailuresAnswer401(verify(refreshToken));
      }
      return RefreshError(decoded.message);
    }
    reply := RefreshFor(db, decoded.value);
  }

  /**
   * As written, the two failures `verifyRefreshToken` reports are answered
   * differently: an expired token 401, an invalid one 500.
   */
  lemma RefreshVerificationFailuresAsWritten(verdict: JwtVerdict)
    ensures verdict.TokenExpiredError? ==> RefreshErrorAsWritten(VerifyRefreshToken(verdict).message).status == 401
    ensures verdict.JsonWebTokenError? ==> RefreshErrorAsWritten(VerifyRefreshToken(verdict).message).status == 500
  {
    if verdict.TokenExpiredError? {
      ExpiredRefreshTokenAnswers401AsWritten();
    } else if verdict.JsonWebTokenError? {
      InvalidRefreshTokenAnswers500AsWritten();
    }
  }

  /** Corrected, an expired or invalid refresh token is answered 401. */
  lemma RefreshVerificationFailuresAnswer401(verdict: JwtVerdict)
    requires verdict.TokenExpiredError? || verdict.JsonWebTokenError?
    ensures RefreshError(VerifyRefreshToken(verdict).message).status == 401
  {
    RefreshFailuresAnswer401("");
  }

  // ---------------------------------------------------------------- getProfile

  /** `getProfile`: 401 without a caller, 404 for a caller whose row is gone, otherwise 200 with the profile. */
  method GetProfile(db: Database, user: Option<Claims>) returns (reply: Reply<AuthPayload>)
    ensures user.None? ==> reply == Fail(401, "Unauthorized", "Authentication required")
    ensures user.Some? ==>
      (reply.status == 404 <==> UserModel.GetProfile(db.users, user.value.userId).None?)
    ensures user.Some? && UserModel.GetProfile(db.users, user.value.userId).Some? ==>
      reply == Success(200, "", ProfileData(UserModel.GetProfile(db.users, user.value.userId).value))
  {
    if user.None? {
      return Fail(401, "Unauthorized", "Authentication required");
    }
    var userProfile := UserModel.GetProfile(db.users, user.value.userId);
    if userProfile.None? {
      return Fail(404, "User not found", "User profile not found");
    }
    reply := Success(200, "", ProfileData(userProfile.value));
  }
}
