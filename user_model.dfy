/**
 * `UserModel`: creation, lookups, the public profile projection and the
 * single-row updates of the `users` table.
 */
module UserModel {
  import opened Common
  import opened Schema
  import opened Sql

  /** What PostgreSQL throws when an INSERT repeats an existing email. */
  const DuplicateEmailMessage := "duplicate key value violates unique constraint \"users_email_key\""

  // ---------------------------------------------------------------- lookups

  /** `findById`: the row with that id, or null. */
  function FindById(users: seq<User>, id: Id): (r: Option<User>)
    ensures r.None? <==> forall i :: 0 <= i < |users| ==> users[i].id != id
    ensures r.Some? ==> r.value in users && r.value.id == id
    decreases |users|
  {
    if users == [] then None
    else if users[0].id == id then Some(users[0])
    else FindById(users[1..], id)
  }

  /** `findByEmail`: the row with that email, or null. */
  function FindByEmail(users: seq<User>, email: string): (r: Option<User>)
    ensures r.None? <==> forall i :: 0 <= i < |users| ==> users[i].email != email
    ensures r.Some? ==> r.value in users && r.value.email == email
    decreases |users|
  {
    if users == [] then None
    else if users[0].email == email then Some(users[0])
    else FindByEmail(users[1..], email)
  }

  /** `emailExists`: `SELECT EXISTS(… WHERE email = $1)`, true exactly when `findByEmail` finds a row. */
  predicate EmailExists(users: seq<User>, email: string): (b: bool)
    ensures b <==> FindByEmail(users, email).Some?
  {
    exists i :: 0 <= i < |users| && users[i].email == email
  }

  /** With unique ids, `findById` returns the row holding the id, wherever it sits. */
  lemma {:induction false} FindByIdAt(users: seq<User>, k: nat, nextId: nat)
    requires UsersOk(users, nextId) && k < |users|
    ensures FindById(users, users[k].id) == Some(users[k])
    decreases k
  {
    if k > 0 && users[0].id != users[k].id {
      assert UsersOk(users[1..], nextId) by {
        forall i, j | 0 <= i < j < |users[1..]|
          ensures users[1..][i].id != users[1..][j].id && users[1..][i].email != users[1..][j].email
        {
          assert users[1..][i] == users[i + 1] && users[1..][j] == users[j + 1];
        }
      }
      FindByIdAt(users[1..], k - 1, nextId);
      assert users[1..][k - 1] == users[k];
    }
  }

  // ---------------------------------------------------------------- profile

  /** The columns `getProfile` selects: no password hash, no ban or activity state, no last login. */
  datatype Profile = Profile(
    id: Id,
    email: string,
    fullName: string,
    profileImageUrl: Option<string>,
    role: Role,
    bio: Option<string>,
    location: Option<string>,
    website: Option<string>,
    emailVerified: bool,
    isVerifiedReviewer: bool,
    verificationBadge: Option<string>,
    totalReviews: nat,
    helpfulVotesReceived: nat,
    trustScore: real,
    linkedinUrl: Option<string>,
    twitterHandle: Option<string>,
    createdAt: Timestamp,
    updatedAt: Timestamp)

  function ProfileOf(u: User): Profile {
    Profile(u.id, u.email, u.fullName, u.profileImageUrl, u.role, u.bio, u.location, u.website,
            u.emailVerified, u.isVerifiedReviewer, u.verificationBadge, u.totalReviews,
            u.helpfulVotesReceived, u.trustScore, u.linkedinUrl, u.twitterHandle, u.createdAt, u.updatedAt)
  }

  /**
   * `getProfile`: null exactly for an unknown id, and otherwise the public
   * columns of a user with that id.
   */
  function GetProfile(users: seq<User>, id: Id): (p: Option<Profile>)
    ensures p.None? <==> forall i :: 0 <= i < |users| ==> users[i].id != id
    ensures p.Some? ==> p.value.id == id && exists i :: 0 <= i < |users| && users[i].id == id && p.value == ProfileOf(users[i])
  {
    match FindById(users, id)
    case None => None
    case Some(u) => Some(ProfileOf(u))
  }

  /**
   * The profile never reveals the password hash, the ban state, the active flag
   * or the last login: users differing only there have the same profile.
   */
  lemma ProfileHidesSensitiveColumns(u: User, passwordHash: string, isActive: bool, isBanned: bool,
                                     banReason: Option<string>, bannedAt: Option<Timestamp>,
                                     lastLoginAt: Option<Timestamp>)
    ensures ProfileOf(u.(passwordHash := passwordHash, isActive := isActive, isBanned := isBanned,
                         banReason := banReason, bannedAt := bannedAt, lastLoginAt := lastLoginAt))
         == ProfileOf(u)
  {
  }

  // ---------------------------------------------------------------- create

  /**
   * The row `create` inserts; columns it does not name take their defaults:
   * role 'user' unless another role was given, zeroed counters, active, not
   * banned and not verified.
   */
  function NewUser(id: Id, email: string, passwordHash: string, fullName: string, role: Option<Role>,
                   now: Timestamp): (u: User)
    ensures u.id == id && u.email == email && u.passwordHash == passwordHash && u.fullName == fullName
    ensures role.None? ==> u.role == RegularUser
    ensures role.Some? ==> u.role == role.value
    ensures u.totalReviews == 0 && u.helpfulVotesReceived == 0 && u.trustScore == 0.0
    ensures u.isActive && !u.isBanned && !u.emailVerified && !u.isVerifiedReviewer
    ensures u.createdAt == now && u.updatedAt == now && u.lastLoginAt.None?
  {
    User(id, email, passwordHash, fullName, None,
         if role.Some? then role.value else RegularUser,
         None, None, None, false, false, None, 0, 0, 0.0, None, None,
         true, false, None, None, now, now, None)
  }

  /**
   * `create`: inserts one user (role 'user' when none is given) and returns the
   * stored row; a second account with the same email violates the unique key.
   */
  method Create(db: Database, email: string, passwordHash: string, fullName: string, role: Option<Role>,
                now: Timestamp) returns (r: Result<User>)
    requires db.Valid()
    modifies db
    ensures db.Valid() && OnlyUsersChanged(db)
    ensures EmailExists(old(db.users), email) ==>
      r == Err(DuplicateEmailMessage) && db.users == old(db.users)
    ensures !EmailExists(old(db.users), email) ==>
      && r == Ok(NewUser(old(db.nextId), email, passwordHash, fullName, role, now))
      && db.users == old(db.users) + [r.value]
  {
    if EmailExists(db.users, email) {
      return Err(DuplicateEmailMessage);
    }
    var user := NewUser(db.nextId, email, passwordHash, fullName, if role.Some? then role else Some(RegularUser), now);
    db.users := db.users + [user];
    db.nextId := db.nextId + 1;
    r := Ok(user);
  }

  /** Create, then look up by id or by email: both find the new row. */
  lemma {:induction false} CreatedUserIsFound(users: seq<User>, nextId: nat, u: User)
    requires UsersOk(users, nextId) && u.id == nextId
    requires forall i :: 0 <= i < |users| ==> users[i].email != u.email
    ensures UsersOk(users + [u], nextId + 1)
    ensures FindById(users + [u], u.id) == Some(u)
    ensures FindByEmail(users + [u], u.email) == Some(u)
  {
    var all := users + [u];
    assert all[|users|] == u;
    FindByIdAt(all, |users|, nextId + 1);
    FindByEmailAt(all, |users|, nextId + 1);
  }

  lemma {:induction false} FindByEmailAt(users: seq<User>, k: nat, nextId: nat)
    requires UsersOk(users, nextId) && k < |users|
    ensures FindByEmail(users, users[k].email) == Some(users[k])
    decreases k
  {
    if k > 0 {
      assert users[0].email != users[k].email;
      assert UsersOk(users[1..], nextId) by {
        forall i, j | 0 <= i < j < |users[1..]|
          ensures users[1..][i].id != users[1..][j].id && users[1..][i].email != users[1..][j].email
        {
          assert users[1..][i] == users[i + 1] && users[1..][j] == users[j + 1];
        }
      }
      FindByEmailAt(users[1..], k - 1, nextId);
      assert users[1..][k - 1] == users[k];
    }
  }

  // ---------------------------------------------------------------- single-row updates

  /** The partial profile update: each supplied field among the allow-listed five. */
  datatype ProfilePatch = ProfilePatch(
    fullName: Option<string>,
    bio: Option<string>,
    location: Option<string>,
    website: Option<string>,
    profileImageUrl: Option<string>)

  /** The `SET` of one `UPDATE users … WHERE id = $1` statement. */
  datatype UserChange =
    | StampLogin(at: Timestamp)
    | PatchProfile(patch: ProfilePatch, at: Timestamp)
    | Ban(reason: string, at: Timestamp)
    | Unban
    | VerifyEmail
    | IncrementReviews
    | SetTrustScore(score: real)

  function WithFullName(u: User, o: Option<string>): (r: User)
    ensures OutsideAllowList(r) == OutsideAllowList(u)
    ensures r.fullName == (if o.Some? then o.value else u.fullName)
    ensures r.bio == u.bio && r.location == u.location && r.website == u.website && r.profileImageUrl == u.profileImageUrl
  {
    if o.Some? then u.(fullName := o.value) else u
  }

  function WithBio(u: User, o: Option<string>): (r: User)
    ensures OutsideAllowList(r) == OutsideAllowList(u)
    ensures r.bio == (if o.Some? then o else u.bio)
    ensures r.fullName == u.fullName && r.location == u.location && r.website == u.website && r.profileImageUrl == u.profileImageUrl
  {
    if o.Some? then u.(bio := o) else u
  }

  function WithLocation(u: User, o: Option<string>): (r: User)
    ensures OutsideAllowList(r) == OutsideAllowList(u)
    ensures r.location == (if o.Some? then o else u.location)
    ensures r.fullName == u.fullName && r.bio == u.bio && r.website == u.website && r.profileImageUrl == u.profileImageUrl
  {
    if o.Some? then u.(location := o) else u
  }

  function WithWebsite(u: User, o: Option<string>): (r: User)
    ensures OutsideAllowList(r) == OutsideAllowList(u)
    ensures r.website == (if o.Some? then o else u.website)
    ensures r.fullName == u.fullName && r.bio == u.bio && r.location == u.location && r.profileImageUrl == u.profileImageUrl
  {
    if o.Some? then u.(website := o) else u
  }

  function WithProfileImage(u: User, o: Option<string>): (r: User)
    ensures OutsideAllowList(r) == OutsideAllowList(u)
    ensures r.profileImageUrl == (if o.Some? then o else u.profileImageUrl)
    ensures r.fullName == u.fullName && r.bio == u.bio && r.location == u.location && r.website == u.website
  {
    if o.Some? then u.(profileImageUrl := o) else u
  }

  /** The allow-listed columns, each replaced when supplied, in allow-list order; `updated_at` stamped. */
  function ProfilePatched(u: User, p: ProfilePatch, now: Timestamp): User {
    WithProfileImage(WithWebsite(WithLocation(WithBio(WithFullName(u, p.fullName), p.bio), p.location),
                                 p.website), p.profileImageUrl).(updatedAt := now)
  }

  /** A user row with the columns `updateProfile` may write blanked out: what it must leave alone. */
  function OutsideAllowList(u: User): User {
    u.(fullName := "", bio := None, location := None, website := None, profileImageUrl := None, updatedAt := 0)
  }

  /** One user row after a change. */
  function Apply(u: User, change: UserChange): User {
    match change
    case StampLogin(at) => u.(lastLoginAt := Some(at))
    case PatchProfile(p, at) => ProfilePatched(u, p, at)
    case Ban(reason, at) => u.(isBanned := true, banReason := Some(reason), bannedAt := Some(at))
    case Unban => u.(isBanned := false, banReason := None, bannedAt := None)
    case VerifyEmail => u.(emailVerified := true)
    case IncrementReviews => u.(totalReviews := u.totalReviews + 1)
    case SetTrustScore(score) => u.(trustScore := score)
  }

  /** `UPDATE users SET … WHERE id = $id`: the change on the row with that id, no other row touched. */
  function UpdateUsers(users: seq<User>, id: Id, change: UserChange): (r: seq<User>)
    ensures |r| == |users|
    ensures forall i :: 0 <= i < |users| ==>
      r[i] == if users[i].id == id then Apply(users[i], change) else users[i]
    decreases |users|
  {
    if users == [] then []
    else [if users[0].id == id then Apply(users[0], change) else users[0]] + UpdateUsers(users[1..], id, change)
  }

  /** `updateProfile` leaves every column outside the allow-list and `updated_at` as it was. */
  lemma ProfilePatchStaysInAllowList(u: User, p: ProfilePatch, now: Timestamp)
    ensures OutsideAllowList(ProfilePatched(u, p, now)) == OutsideAllowList(u)
  {
    var u5 := WithProfileImage(WithWebsite(WithLocation(WithBio(WithFullName(u, p.fullName), p.bio), p.location),
                               p.website), p.profileImageUrl);
    assert OutsideAllowList(u5.(updatedAt := now)) == OutsideAllowList(u5);
  }

  /** Each allow-listed column takes the supplied value, or keeps its own when the field is absent. */
  lemma ProfilePatchWritesSuppliedFields(u: User, p: ProfilePatch, now: Timestamp)
    ensures ProfilePatched(u, p, now).fullName == if p.fullName.Some? then p.fullName.value else u.fullName
    ensures ProfilePatched(u, p, now).bio == if p.bio.Some? then p.bio else u.bio
    ensures ProfilePatched(u, p, now).location == if p.location.Some? then p.location else u.location
    ensures ProfilePatched(u, p, now).website == if p.website.Some? then p.website else u.website
    ensures ProfilePatched(u, p, now).profileImageUrl == if p.profileImageUrl.Some? then p.profileImageUrl else u.profileImageUrl
    ensures ProfilePatched(u, p, now).updatedAt == now
  {
  }

  /** No change touches a user's id or email. */
  lemma ApplyKeepsKeys(u: User, change: UserChange)
    ensures Apply(u, change).id == u.id && Apply(u, change).email == u.email
  {
    if change.PatchProfile? {
      ProfilePatchStaysInAllowList(u, change.patch, change.at);
      assert OutsideAllowList(Apply(u, change)).id == OutsideAllowList(u).id;
    }
  }

  /** No change touches a user's id or email, so the table's keys stay valid. */
  lemma UpdateUsersKeepsKeys(users: seq<User>, nextId: nat, id: Id, change: UserChange)
    requires UsersOk(users, nextId)
    ensures UsersOk(UpdateUsers(users, id, change), nextId)
  {
    var r := UpdateUsers(users, id, change);
    forall i | 0 <= i < |users| ensures r[i].id == users[i].id && r[i].email == users[i].email {
      ApplyKeepsKeys(users[i], change);
    }
  }

  /** Unbanning clears everything banning set: ban then unban equals unban alone. */
  lemma UnbanUndoesBan(u: User, reason: string, at: Timestamp)
    ensures Apply(Apply(u, Ban(reason, at)), Unban) == Apply(u, Unban)
    ensures var v := Apply(u, Unban); !v.isBanned && v.banReason.None? && v.bannedAt.None?
    ensures var b := Apply(u, Ban(reason, at)); b.isBanned && b.banReason == Some(reason) && b.bannedAt == Some(at)
  {
  }

  /** `verifyEmail` is idempotent on the table. */
  lemma VerifyEmailIdempotent(users: seq<User>, id: Id)
    ensures UpdateUsers(UpdateUsers(users, id, VerifyEmail), id, VerifyEmail) == UpdateUsers(users, id, VerifyEmail)
  {
    var once := UpdateUsers(users, id, VerifyEmail);
    var twice := UpdateUsers(once, id, VerifyEmail);
    assert forall i :: 0 <= i < |users| ==> twice[i] == once[i];
  }

  /** `incrementReviewCount` raises the counter of that user by exactly one and changes nothing else. */
  lemma IncrementAddsOne(users: seq<User>, id: Id, k: nat)
    requires k < |users| && users[k].id == id
    ensures UpdateUsers(users, id, IncrementReviews)[k] == users[k].(totalReviews := users[k].totalReviews + 1)
  {
  }

  // ---------------------------------------------------------------- the updating methods

  /** `updateLastLogin` */
  method UpdateLastLogin(db: Database, userId: Id, now: Timestamp)
    requires db.Valid()
    modifies db
    ensures db.Valid() && OnlyUsersChanged(db) && db.nextId == old(db.nextId)
    ensures db.users == UpdateUsers(old(db.users), userId, StampLogin(now))
  {
    UpdateUsersKeepsKeys(db.users, db.nextId, userId, StampLogin(now));
    db.users := UpdateUsers(db.users, userId, StampLogin(now));
  }

  /** `banUser`: sets `is_banned`, `ban_reason` and `banned_at`. */
  method BanUser(db: Database, userId: Id, reason: string, now: Timestamp)
    requires db.Valid()
    modifies db
    ensures db.Valid() && OnlyUsersChanged(db) && db.nextId == old(db.nextId)
    ensures db.users == UpdateUsers(old(db.users), userId, Ban(reason, now))
  {
    UpdateUsersKeepsKeys(db.users, db.nextId, userId, Ban(reason, now));
    db.users := UpdateUsers(db.users, userId, Ban(reason, now));
  }

  /** `unbanUser`: resets the three ban columns to false, NULL, NULL. */
  method UnbanUser(db: Database, userId: Id)
    requires db.Valid()
    modifies db
    ensures db.Valid() && OnlyUsersChanged(db) && db.nextId == old(db.nextId)
    ensures db.users == UpdateUsers(old(db.users), userId, Unban)
  {
    UpdateUsersKeepsKeys(db.users, db.nextId, userId, Unban);
    db.users := UpdateUsers(db.users, userId, Unban);
  }

  /** `verifyEmail` */
  method VerifyEmailOf(db: Database, userId: Id)
    requires db.Valid()
    modifies db
    ensures db.Valid() && OnlyUsersChanged(db) && db.nextId == old(db.nextId)
    ensures db.users == UpdateUsers(old(db.users), userId, VerifyEmail)
  {
    UpdateUsersKeepsKeys(db.users, db.nextId, userId, VerifyEmail);
    db.users := UpdateUsers(db.users, userId, VerifyEmail);
  }

  /** `incrementReviewCount`: `total_reviews = total_reviews + 1` in one statement. */
  method IncrementReviewCount(db: Database, userId: Id)
    requires db.Valid()
    modifies db
    ensures db.Valid() && OnlyUsersChanged(db) && db.nextId == old(db.nextId)
    ensures db.users == UpdateUsers(old(db.users), userId, IncrementReviews)
  {
    UpdateUsersKeepsKeys(db.users, db.nextId, userId, IncrementReviews);
    db.users := UpdateUsers(db.users, userId, IncrementReviews);
  }

  /** `updateTrustScore` */
  method UpdateTrustScore(db: Database, userId: Id, score: real)
    requires db.Valid()
    modifies db
    ensures db.Valid() && OnlyUsersChanged(db) && db.nextId == old(db.nextId)
    ensures db.users == UpdateUsers(old(db.users), userId, SetTrustScore(score))
  {
    UpdateUsersKeepsKeys(db.users, db.nextId, userId, SetTrustScore(score));
    db.users := UpdateUsers(db.users, userId, SetTrustScore(score));
  }

  // ---------------------------------------------------------------- updateProfile's statement

  /** The columns `updateProfile` may name in its SET list. */
  datatype ProfileColumn = FullNameColumn | BioColumn | LocationColumn | WebsiteColumn | ProfileImageColumn | UpdatedAtColumn

  /** The supplied fields as (column, value) pairs, in the order the statement lists them. */
  function ProfilePairs(p: ProfilePatch): seq<(ProfileColumn, Value)> {
    Supplied(FullNameColumn, Text(p.fullName)) + Supplied(BioColumn, Text(p.bio))
    + Supplied(LocationColumn, Text(p.location)) + Supplied(WebsiteColumn, Text(p.website))
    + Supplied(ProfileImageColumn, Text(p.profileImageUrl))
  }

  /** How a value lands in a `users` column. */
  function WriteUserColumn(u: User, column: ProfileColumn, v: Value): User {
    match column
    case FullNameColumn => if v.TextValue? then u.(fullName := v.s) else u
    case BioColumn => if v.TextValue? then u.(bio := Some(v.s)) else u
    case LocationColumn => if v.TextValue? then u.(location := Some(v.s)) else u
    case WebsiteColumn => if v.TextValue? then u.(website := Some(v.s)) else u
    case ProfileImageColumn => if v.TextValue? then u.(profileImageUrl := Some(v.s)) else u
    case UpdatedAtColumn => if v.TimeValue? then u.(updatedAt := v.t) else u
  }

  /**
   * The statement `updateProfile` builds with its `paramCount` counter: one
   * `column = $n` per supplied field, numbered from 1 in allow-list order, then
   * `updated_at = CURRENT_TIMESTAMP`; the id is the last value and its placeholder
   * is `$(k+1)` for k supplied fields.
   */
  method BuildProfileUpdate(userId: Id, updates: ProfilePatch)
    returns (fields: seq<SetClause<ProfileColumn>>, values: seq<Value>, whereId: nat)
    ensures BindsFrom(fields, values, ProfilePairs(updates), 0)
    ensures |fields| == |ProfilePairs(updates)| + 1 && fields[|ProfilePairs(updates)|] == SetNow(UpdatedAtColumn)
    ensures whereId == |ProfilePairs(updates)| + 1 == |values|
    ensures values[whereId - 1] == IdValue(userId)
  {
    fields, values := [], [];
    var paramCount := 1;
    ghost var pairs: seq<(ProfileColumn, Value)> := [];
    fields, values, paramCount := AddAssignment(fields, values, pairs, paramCount, FullNameColumn, Text(updates.fullName));
    pairs := pairs + Supplied(FullNameColumn, Text(updates.fullName));
    fields, values, paramCount := AddAssignment(fields, values, pairs, paramCount, BioColumn, Text(updates.bio));
    pairs := pairs + Supplied(BioColumn, Text(updates.bio));
    fields, values, paramCount := AddAssignment(fields, values, pairs, paramCount, LocationColumn, Text(updates.location));
    pairs := pairs + Supplied(LocationColumn, Text(updates.location));
    fields, values, paramCount := AddAssignment(fields, values, pairs, paramCount, WebsiteColumn, Text(updates.website));
    pairs := pairs + Supplied(WebsiteColumn, Text(updates.website));
    fields, values, paramCount := AddAssignment(fields, values, pairs, paramCount, ProfileImageColumn, Text(updates.profileImageUrl));
    pairs := pairs + Supplied(ProfileImageColumn, Text(updates.profileImageUrl));
    assert pairs == ProfilePairs(updates) by {
      assert [] + Supplied(FullNameColumn, Text(updates.fullName)) == Supplied(FullNameColumn, Text(updates.fullName));
    }
    BindsFromAppend(fields, values, pairs, 0, [SetNow(UpdatedAtColumn)], [IdValue(userId)]);
    fields := fields + [SetNow(UpdatedAtColumn)];
    values := values + [IdValue(userId)];
    whereId := paramCount;
  }

  /** The supplied fields written one after another, in allow-list order. */
  lemma ProfilePairsInOrder(u: User, updates: ProfilePatch)
    ensures WritePairs(u, ProfilePairs(updates), WriteUserColumn)
         == var w1 := WritePairs(u, Supplied(FullNameColumn, Text(updates.fullName)), WriteUserColumn);
            var w2 := WritePairs(w1, Supplied(BioColumn, Text(updates.bio)), WriteUserColumn);
            var w3 := WritePairs(w2, Supplied(LocationColumn, Text(updates.location)), WriteUserColumn);
            var w4 := WritePairs(w3, Supplied(WebsiteColumn, Text(updates.website)), WriteUserColumn);
            WritePairs(w4, Supplied(ProfileImageColumn, Text(updates.profileImageUrl)), WriteUserColumn)
  {
    var p1 := Supplied(FullNameColumn, Text(updates.fullName));
    var p2 := Supplied(BioColumn, Text(updates.bio));
    var p3 := Supplied(LocationColumn, Text(updates.location));
    var p4 := Supplied(WebsiteColumn, Text(updates.website));
    var p5 := Supplied(ProfileImageColumn, Text(updates.profileImageUrl));
    WritePairsAppend(u, p1 + p2 + p3 + p4, p5, WriteUserColumn);
    WritePairsAppend(u, p1 + p2 + p3, p4, WriteUserColumn);
    WritePairsAppend(u, p1 + p2, p3, WriteUserColumn);
    WritePairsAppend(u, p1, p2, WriteUserColumn);
  }

  /** Writing the supplied pairs in order sets exactly the supplied columns. */
  lemma ProfilePairsWritePatch(u: User, updates: ProfilePatch, now: Timestamp)
    ensures WritePairs(u, ProfilePairs(updates), WriteUserColumn).(updatedAt := now)
         == ProfilePatched(u, updates, now)
  {
    ProfilePairsInOrder(u, updates);
    var w1 := WritePairs(u, Supplied(FullNameColumn, Text(updates.fullName)), WriteUserColumn);
    var w2 := WritePairs(w1, Supplied(BioColumn, Text(updates.bio)), WriteUserColumn);
    var w3 := WritePairs(w2, Supplied(LocationColumn, Text(updates.location)), WriteUserColumn);
    var w4 := WritePairs(w3, Supplied(WebsiteColumn, Text(updates.website)), WriteUserColumn);
    var w5 := WritePairs(w4, Supplied(ProfileImageColumn, Text(updates.profileImageUrl)), WriteUserColumn);
    assert w1 == WithFullName(u, updates.fullName) by {
      WriteSupplied(u, FullNameColumn, Text(updates.fullName), WriteUserColumn);
    }
    assert w2 == WithBio(w1, updates.bio) by {
      WriteSupplied(w1, BioColumn, Text(updates.bio), WriteUserColumn);
    }
    assert w3 == WithLocation(w2, updates.location) by {
      WriteSupplied(w2, LocationColumn, Text(updates.location), WriteUserColumn);
    }
    assert w4 == WithWebsite(w3, updates.website) by {
      WriteSupplied(w3, WebsiteColumn, Text(updates.website), WriteUserColumn);
    }
    assert w5 == WithProfileImage(w4, updates.profileImageUrl) by {
      WriteSupplied(w4, ProfileImageColumn, Text(updates.profileImageUrl), WriteUserColumn);
    }
  }

  /** Running the built statement on a row is exactly the profile patch with `updated_at` stamped. */
  lemma ProfileStatementMeansPatch(u: User, updates: ProfilePatch, fields: seq<SetClause<ProfileColumn>>,
                                   values: seq<Value>, now: Timestamp)
    requires BindsFrom(fields, values, ProfilePairs(updates), 0)
    requires |fields| == |ProfilePairs(updates)| + 1 && fields[|ProfilePairs(updates)|] == SetNow(UpdatedAtColumn)
    ensures Execute(u, fields, values, now, WriteUserColumn) == ProfilePatched(u, updates, now)
  {
    var pairs := ProfilePairs(updates);
    ExecuteBoundPrefix(u, fields, values, pairs, 0, now, WriteUserColumn);
    assert fields[|pairs|..] == [SetNow(UpdatedAtColumn)];
    var w := WritePairs(u, pairs, WriteUserColumn);
    assert Execute(w, [SetNow(UpdatedAtColumn)], values, now, WriteUserColumn) == w.(updatedAt := now);
    ProfilePairsWritePatch(u, updates, now);
  }

  /**
   * `updateProfile`: runs the built statement on the row with that id and
   * returns it (`rows[0]`, undefined when no row has the id).
   */
  method UpdateProfile(db: Database, userId: Id, updates: ProfilePatch, now: Timestamp) returns (r: Option<User>)
    requires db.Valid()
    modifies db
    ensures db.Valid() && OnlyUsersChanged(db) && db.nextId == old(db.nextId)
    ensures db.users == UpdateUsers(old(db.users), userId, PatchProfile(updates, now))
    ensures r == FindById(db.users, userId)
  {
    var fields, values, whereId := BuildProfileUpdate(userId, updates);
    var rows := db.users;
    var updated := seq(|rows|, i requires 0 <= i < |rows| =>
      if values[whereId - 1] == IdValue(rows[i].id) then Execute(rows[i], fields, values, now, WriteUserColumn) else rows[i]);
    forall i | 0 <= i < |rows|
      ensures updated[i] == UpdateUsers(rows, userId, PatchProfile(updates, now))[i]
    {
      if rows[i].id == userId {
        ProfileStatementMeansPatch(rows[i], updates, fields, values, now);
      }
    }
    assert updated == UpdateUsers(rows, userId, PatchProfile(updates, now));
    UpdateUsersKeepsKeys(rows, db.nextId, userId, PatchProfile(updates, now));
    db.users := updated;
    r := FindById(db.users, userId);
  }
}
