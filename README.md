# ALOVAZE review backend — a Dafny model

ALOVAZE is a company-review platform. Its backend keeps users, reviews and
helpful-votes in PostgreSQL and serves them through Express handlers. This
project models the core of that backend:

- the review store (`ReviewModel`);
- the review handlers (`ReviewController`);
- the user store (`UserModel`);
- the password strength validator (`PasswordUtils`);
- the authentication and role middleware (`AuthMiddleware`) and the token helpers it uses (`JwtUtils`);
- the decision chains of the auth handlers: register, login, refresh token and profile (`AuthController`).

Each handler or store member has a Dafny counterpart, and the model proves what that code guarantees.

How the model is built:

- **The database** is one `Schema.Database` object. Its tables `users`, `reviews`, `votes` and `companies` are sequences of rows. A counter stands in for the UUIDs Postgres generates.
- **Store operations that write** are methods that modify the database and state its new contents. Each one keeps `Database.Valid`: ids are unique and below the counter, e-mails are unique, ratings are within their CHECK ranges, and there is one vote per (review, voter) pair.
- **Queries** are functions over the tables.
- **The dynamic `UPDATE … SET` builders** of `updateProfile` and `update` are modelled twice:
  - as the builder loop that pushes `column = $n` clauses and values (`BuildProfileUpdate`, `BuildUpdate`);
  - as the meaning of the statement they produce (`Sql.Execute`).
  Lemmas prove that the statement writes exactly the supplied fields, the timestamp and (for reviews) the `edited` flag.
- **Handlers** return the reply they send: status, `error`/`message`, and `data` or `details`. A thrown error becomes `Result.Err` carrying its message, and the handler's catch block maps it the way the source does.
- **Oracles:**
  - bcrypt's hash and compare, and the verdict of `jwt.verify` on a presented token, are function parameters;
  - the clock is a `now` parameter.
  - An issued token is represented by the kind and claims it carries.
- **Postgres behaviour the code relies on is modelled explicitly:**
  - the unique e-mail constraint;
  - the 1..5 CHECK on the optional sub-ratings;
  - the error on a negative `LIMIT` or `OFFSET`, which reaches the listing handlers as a 500;
  - `ORDER BY`: the rows come out sorted by the key and as a permutation of the input. SQL leaves the order of tied rows open; the model fixes one tie order (`ReviewOrder.Sort`, an insertion sort), and the listings are stated as pages of that one order.

## Model

| member | source | states |
|---|---|---|
| PasswordUtils.ValidatePasswordStrength | backend/dist/utils/password.utils.js:38-59 | the errors are exactly the messages of the broken rules, in checking order; valid iff no error |
| PasswordUtils.ValidIffStrong | backend/dist/utils/password.utils.js:55-58 | a password is reported valid iff it is 8+ UTF-16 code units long and has an upper-case letter, a lower-case letter, a digit and a special character |
| PasswordUtils.MessageIffRuleBroken | backend/dist/utils/password.utils.js:40-54 | each message appears iff its own rule is broken |
| PasswordUtils.ErrorsInFixedOrder | backend/dist/utils/password.utils.js:40-54 | at most five errors, each rule's message at most once, in the order length, upper, lower, number, special |
| PasswordUtils.OnlyDigitMissing | backend/dist/utils/password.utils.js:49-51 | a password breaking only the digit rule gets exactly the number message |
| PasswordUtils.Utf16Length | backend/dist/utils/password.utils.js:40 | `password.length` counts UTF-16 code units: a character above U+FFFF counts two, so the length lies between the number of characters and twice it |
| PasswordUtils.BasicPlaneLength | backend/dist/utils/password.utils.js:40 | without characters above U+FFFF, `length` is the number of characters |
| PasswordUtils.EmojiPasswordIsLongEnough | backend/dist/utils/password.utils.js:40-58 | a password of two emoji and four other characters is six characters but eight code units long, and breaks no rule |
| AuthMiddleware.BearerHeaderYieldsToken | backend/src/middleware/auth.middleware.ts:36-39 | `Bearer <token>` yields exactly `<token>` |
| AuthMiddleware.HeaderIsPrefixPlusToken | backend/src/middleware/auth.middleware.ts:36-48 | the token is the header itself or the header minus `Bearer `; it is empty only for an empty header or a bare `Bearer ` |
| AuthMiddleware.NoTokenRefused | backend/src/middleware/auth.middleware.ts:25-48 | a missing or empty header, or a bare `Bearer `, is refused with 401 and the matching error before any verification |
| AuthMiddleware.AuthenticatedIffVerified | backend/src/middleware/auth.middleware.ts:50-56 | a request is let through iff a non-empty token verifies, and it carries that token's claims |
| AuthMiddleware.VerificationFailuresMapped | backend/src/middleware/auth.middleware.ts:57-83 | an expired token gives 401 "Token expired"; a malformed one gives 401 "Invalid token"; any other failure gives 500 |
| AuthMiddleware.Authenticate | backend/src/middleware/auth.middleware.ts:18-84 | on acceptance it attaches the claims and calls `next` once; on rejection it sends the rejection and neither calls `next` nor attaches a user |
| AuthMiddleware.Authorize | backend/src/middleware/auth.middleware.ts:90-112 | continues iff there is a user whose role is in the allowed list; 401 without a user, 403 for another role |
| AuthMiddleware.OptionalAuthenticate | backend/src/middleware/auth.middleware.ts:118-146 | always calls `next` exactly once and never answers; it attaches claims exactly when `authenticate` would accept |
| AuthMiddleware.ExtractToken | backend/src/middleware/auth.middleware.ts:37-39 | a header starting with `Bearer ` yields the rest after the prefix; any other header is the token itself |
| AuthMiddleware.AuthenticateDecision | backend/src/middleware/auth.middleware.ts:25-83 | a request is accepted only with a header whose token verifies, and carries those claims; a rejection is 401 or 500, and 500 only when verification failed with an error other than expiry or malformation |
| JwtUtils.GenerateTokenPair | backend/src/utils/jwt.utils.ts:80-85 | an access token and a refresh token, both carrying the given user id, e-mail and role |
| JwtUtils.VerifyAccessToken | backend/src/utils/jwt.utils.ts:44-57 | the claims iff the token verifies; otherwise 'Access token expired' for an expired token, 'Invalid access token' for a malformed one, and the library's own error otherwise |
| JwtUtils.VerifyRefreshToken | backend/src/utils/jwt.utils.ts:62-75 | the claims iff the token verifies; otherwise 'Refresh token expired' for an expired token, 'Invalid refresh token' for a malformed one, and the library's own error otherwise |
| UserModel.FindById | backend/src/models/user.model.ts:51-60 | null iff no row has the id; otherwise a stored row with that id |
| UserModel.FindByEmail | backend/src/models/user.model.ts:37-46 | null iff no row has the e-mail; otherwise a stored row with that e-mail |
| UserModel.EmailExists | backend/src/models/user.model.ts:78-82 | true iff `findByEmail` finds a row with that e-mail |
| UserModel.FindByIdAt | backend/src/models/user.model.ts:51-60 | with unique ids, `findById` returns exactly the stored row |
| UserModel.FindByEmailAt | backend/src/models/user.model.ts:37-46 | with unique e-mails, `findByEmail` returns exactly the stored row |
| UserModel.GetProfile | backend/src/models/user.model.ts:87-119 | null iff no row has the id; otherwise the profile projection of a stored row with that id |
| UserModel.ProfileHidesSensitiveColumns | backend/src/models/user.model.ts:88-110 | the profile does not depend on the password hash, the ban columns, `is_active` or the last login |
| UserModel.Create | backend/src/models/user.model.ts:11-32 | a taken e-mail fails with the unique-constraint error and nothing changes; otherwise exactly one new row is appended and returned |
| UserModel.NewUser | backend/src/models/user.model.ts:11-28 | the inserted row has the given e-mail, hash and name and the role given or 'user'; it is active, not banned, with an unverified e-mail, not a verified reviewer, zero counters, created and updated now, and no login yet |
| UserModel.CreatedUserIsFound | backend/src/models/user.model.ts:11-32 | the created row keeps the table valid and is then found by its id and by its e-mail |
| UserModel.WithFullName | backend/src/models/user.model.ts:133-136 | `full_name` is written iff supplied, and no other column changes |
| UserModel.WithBio | backend/src/models/user.model.ts:138-141 | `bio` is written iff supplied, and no other column changes |
| UserModel.WithLocation | backend/src/models/user.model.ts:143-146 | `location` is written iff supplied, and no other column changes |
| UserModel.WithWebsite | backend/src/models/user.model.ts:148-151 | `website` is written iff supplied, and no other column changes |
| UserModel.WithProfileImage | backend/src/models/user.model.ts:153-156 | `profile_image_url` is written iff supplied, and no other column changes |
| UserModel.UpdateUsers | backend/src/models/user.model.ts:66-70 | `UPDATE users … WHERE id = $1` changes the row with that id and no other row |
| UserModel.ProfilePatchStaysInAllowList | backend/src/models/user.model.ts:124-170 | a profile update changes nothing outside the five allowed columns and `updated_at` |
| UserModel.ProfilePatchWritesSuppliedFields | backend/src/models/user.model.ts:133-158 | each allowed column takes the supplied value or keeps its old one; `updated_at` becomes now |
| UserModel.ApplyKeepsKeys | backend/src/models/user.model.ts:175-238 | no update changes a user's id or e-mail |
| UserModel.UpdateUsersKeepsKeys | backend/src/models/user.model.ts:175-238 | every update of the users table keeps ids and e-mails unique |
| UserModel.UnbanUndoesBan | backend/src/models/user.model.ts:175-199 | ban sets the flag, reason and time; unban clears all three and erases any earlier ban |
| UserModel.VerifyEmailIdempotent | backend/src/models/user.model.ts:204-212 | verifying an e-mail twice is the same as verifying it once |
| UserModel.IncrementAddsOne | backend/src/models/user.model.ts:217-225 | `total_reviews` of the user grows by exactly one, and nothing else changes |
| UserModel.UpdateLastLogin | backend/src/models/user.model.ts:65-73 | only that user's `last_login_at` becomes now; other tables unchanged |
| UserModel.BanUser | backend/src/models/user.model.ts:175-186 | only that user's ban columns change; other tables unchanged |
| UserModel.UnbanUser | backend/src/models/user.model.ts:188-199 | only that user's ban columns are cleared; other tables unchanged |
| UserModel.VerifyEmailOf | backend/src/models/user.model.ts:204-212 | only that user's `email_verified` becomes true |
| UserModel.IncrementReviewCount | backend/src/models/user.model.ts:217-225 | only that user's `total_reviews` grows by one |
| UserModel.UpdateTrustScore | backend/src/models/user.model.ts:230-238 | only that user's `trust_score` becomes the given score |
| UserModel.BuildProfileUpdate | backend/src/models/user.model.ts:128-164 | the clauses bind `$1..$k` to the supplied fields in order; then comes `updated_at = CURRENT_TIMESTAMP`; the id is `$(k+1)`, the last value |
| UserModel.ProfilePairsInOrder | backend/src/models/user.model.ts:133-156 | the supplied assignments are applied in the order of the five `if` blocks |
| UserModel.ProfilePairsWritePatch | backend/src/models/user.model.ts:133-158 | writing the supplied pairs and the timestamp is the profile update |
| UserModel.ProfileStatementMeansPatch | backend/src/models/user.model.ts:158-166 | executing any statement bound this way on a row yields exactly the profile update |
| UserModel.UpdateProfile | backend/src/models/user.model.ts:124-170 | the users table becomes the profile update of that user's row; the returned row is the updated one, or none for an unknown id |
| ReviewModel.TextOrNull | backend/src/models/review.model.ts:41-46 | the falsy-to-null fallback on text: null iff absent or empty, else the value |
| ReviewModel.NumberOrNull | backend/src/models/review.model.ts:47-51 | the falsy-to-null fallback on numbers: null iff absent or 0, else the value |
| ReviewModel.NewReviewDefaults | backend/src/models/review.model.ts:35-52 | the inserted row carries the author, company and rating; review type 'customer' by default; empty text and 0 sub-ratings stored as null; published; no votes; not edited |
| ReviewModel.Create | backend/src/models/review.model.ts:11-56 | a sub-rating outside 1..5 fails the CHECK and nothing changes; otherwise exactly the new row is appended and returned |
| ReviewModel.FindReview | backend/src/models/review.model.ts:69-72 | none iff no review has the id; otherwise a stored review with that id |
| ReviewModel.FindCompany | backend/src/models/review.model.ts:71 | the LEFT JOIN on companies finds a company with the id, or none iff there is none |
| ReviewModel.FindById | backend/src/models/review.model.ts:61-82 | null iff no review has the id; otherwise a stored review with that id and its author's columns; the company name and logo are those of a stored company with the review's company id; the name is null iff no company has that id, and then the logo is null too |
| ReviewModel.FindReviewAt | backend/src/models/review.model.ts:61-82 | with unique ids, the stored review is the one found |
| ReviewModel.CreatedReviewIsFound | backend/src/models/review.model.ts:11-82 | a review just created is found by its id |
| ReviewModel.WithRating | backend/src/models/review.model.ts:93-96 | `rating` is written iff supplied, and no other column changes |
| ReviewModel.WithTitle | backend/src/models/review.model.ts:98-101 | `title` is written iff supplied, and no other column changes |
| ReviewModel.WithContent | backend/src/models/review.model.ts:103-106 | `content` is written iff supplied, and no other column changes |
| ReviewModel.WithPros | backend/src/models/review.model.ts:108-111 | `pros` is written iff supplied, and no other column changes |
| ReviewModel.WithCons | backend/src/models/review.model.ts:113-116 | `cons` is written iff supplied, and no other column changes |
| ReviewModel.ReviewPatchTouchesOnlyEditable | backend/src/models/review.model.ts:87-127 | an update writes the supplied editable fields, `updated_at` = now and `edited` = true, and nothing else |
| ReviewModel.UpdateOwned | backend/src/models/review.model.ts:122-127 | `WHERE id = … AND user_id = …` updates exactly the caller's own review with that id |
| ReviewModel.UpdateOfOthersIsNoOp | backend/src/models/review.model.ts:125-133 | when the caller owns no review with that id, the table is unchanged |
| ReviewModel.UpdateOwnedKeepsTable | backend/src/models/review.model.ts:122-127 | an update with a rating in 1..5 keeps the reviews table valid |
| ReviewModel.BuildUpdate | backend/src/models/review.model.ts:88-125 | the clauses bind `$1..$k` to the supplied fields in order, then the timestamp and `edited = true`; the id is `$(k+1)` and the owner `$(k+2)` |
| ReviewModel.ReviewPairsInOrder | backend/src/models/review.model.ts:93-116 | the supplied assignments are applied in the order of the five `if` blocks |
| ReviewModel.ReviewPairsMeanPatch | backend/src/models/review.model.ts:93-116 | writing the supplied assignments applies exactly the supplied editable fields |
| ReviewModel.UpdateStatementMeansPatch | backend/src/models/review.model.ts:118-127 | executing a statement bound this way on a row yields exactly the review update |
| ReviewModel.ReturnedRow | backend/src/models/review.model.ts:122-135 | the 'Review not found or unauthorized' error iff the caller owns no review with the id; otherwise a row of the updated table that is the caller's review with that id |
| ReviewModel.PatchKeepsKey | backend/src/models/review.model.ts:122-127 | an update keeps the row's id and author |
| ReviewModel.PatchedRowIsStored | backend/src/models/review.model.ts:122-127 | the updated version of any of the caller's rows with the id is in the updated table |
| ReviewModel.OwnedExistsTail | backend/src/models/review.model.ts:125 | past a row that is not the caller's review with the id, such a review exists iff one exists further on |
| ReviewModel.Update | backend/src/models/review.model.ts:87-136 | it fails with 'Review not found or unauthorized' iff the caller owns no review with that id, and then nothing changes; otherwise it returns the updated row, which is the caller's |
| ReviewModel.DeleteOwned | backend/src/models/review.model.ts:142-146 | a row is kept iff it is not the caller's review with that id |
| ReviewModel.DeleteOwnedSize | backend/src/models/review.model.ts:142-149 | nothing is removed when the caller owns no such review; otherwise the table shrinks |
| ReviewModel.DeleteNothingOwned | backend/src/models/review.model.ts:142-146 | with no review of the caller's with that id, the table is unchanged |
| ReviewModel.DeleteOwnedShrinks | backend/src/models/review.model.ts:142-146 | with such a review, at least one row is removed |
| ReviewModel.DeleteOwnedKeepsTable | backend/src/models/review.model.ts:142-146 | deletion keeps the reviews table valid |
| ReviewModel.Delete | backend/src/models/review.model.ts:141-150 | returns true iff the caller owned a review with that id; the table loses exactly that review |
| ReviewModel.NumberOr | backend/src/models/review.model.ts:159-160 | the limit and offset fallbacks: the default (10, 0) replaces an absent value or 0 |
| ReviewModel.ByUser | backend/src/models/review.model.ts:163-174 | exactly the user's reviews |
| ReviewModel.FindByUser | backend/src/models/review.model.ts:155-185 | fails iff the limit or offset left by the `|| 10` and `|| 0` fallbacks is negative |
| ReviewModel.FindByUserRows | backend/src/models/review.model.ts:162-176 | the total counts all of the user's reviews; the page holds at most `limit` rows, all the user's own, newest first |
| ReviewModel.FindByUserWindow | backend/src/models/review.model.ts:168-176 | the page is the user's reviews sorted newest first from position `offset`, and holds `min(limit, count - offset)` of them, none past the end |
| ReviewModel.FindByUserPage | backend/src/models/review.model.ts:155-185 | fails iff limit or offset is negative; the total counts all of the user's reviews; the page is exactly the user's reviews newest first from position `offset`, `min(limit, total - offset)` of them (none past the end), at most 10 by default |
| ReviewModel.PublishedOf | backend/src/models/review.model.ts:199-203 | exactly the company's published reviews |
| ReviewModel.OrderFor | backend/src/models/review.model.ts:208-214 | 'helpful' sorts by helpful count, 'rating' by rating, anything else by date |
| ReviewModel.WithAuthors | backend/src/models/review.model.ts:217-224 | each listed review carries its author columns from the LEFT JOIN on users |
| ReviewModel.ListedFromPage | backend/src/models/review.model.ts:217-225 | joining the author columns onto a sorted page of published reviews keeps their order and that they are the company's published reviews |
| ReviewModel.FindByCompanyPage | backend/src/models/review.model.ts:190-236 | fails iff limit or offset is negative; the total counts published reviews only; the page holds `min(limit, total - offset)` rows (none past the end), and its i-th row is the published review at position `offset + i` in the chosen order, with its author's columns |
| ReviewModel.FindByCompany | backend/src/models/review.model.ts:190-236 | fails iff the limit or offset left by the fallbacks is negative |
| ReviewModel.CanUserReviewCompany | backend/src/models/review.model.ts:290-302 | true iff the user has no review of that company, whatever its status |
| ReviewModel.NoPairIffCountZero | backend/src/models/review.model.ts:291-301 | the count of the user's reviews of the company is zero iff no row has that pair |
| ReviewModel.BucketsPartition | backend/src/models/review.model.ts:312-323 | with ratings in 1..5, the star buckets add up to the count, and their weighted sum is the rating sum |
| ReviewModel.StatisticsConsistent | backend/src/models/review.model.ts:307-339 | the distribution sums to the total; the statistics agree with the company listing's total and rating sum |
| ReviewModel.GetStatistics | backend/src/models/review.model.ts:307-339 | the total is the number of the company's published reviews; the five star buckets together never exceed it |
| ReviewModel.BucketsWithinRows | backend/src/models/review.model.ts:316-320 | no row falls in two star buckets |
| ReviewModel.OverwriteVotes | backend/src/models/review.model.ts:251-256 | only the caller's vote on that review gets the new value and time |
| ReviewModel.UpsertVote | backend/src/models/review.model.ts:241-264 | the table grows by one iff the caller had no vote on the review; afterwards the caller has one, every vote of theirs on it holds the new value, and other votes are unchanged |
| ReviewModel.UpsertVoteKeepsOnePerVoter | backend/src/models/review.model.ts:241-264 | after voting there is exactly one vote per voter and review, the caller's vote holds the new value, and other votes survive |
| ReviewModel.RecountHelpful | backend/src/models/review.model.ts:273-285 | only the review with that id gets the new helpful count |
| ReviewModel.RecountKeepsTable | backend/src/models/review.model.ts:273-285 | recounting keeps the reviews table valid |
| ReviewModel.CountHelpful | backend/src/models/review.model.ts:276-280 | the helpful count of a review never exceeds the number of votes |
| ReviewModel.UpdateHelpfulCount | backend/src/models/review.model.ts:273-285 | the review's `helpful_count` becomes the number of helpful votes on it; votes unchanged |
| ReviewModel.VoteHelpful | backend/src/models/review.model.ts:241-268 | updates the caller's existing vote or inserts one, then recounts helpful votes |
| ReviewModel.VoteRecountsHelpful | backend/src/models/review.model.ts:274-282 | after recounting, the review's helpful count equals the helpful votes; `not_helpful_count` and other reviews are unchanged |
| ReviewModel.UpsertChangesCountByOwnVote | backend/src/models/review.model.ts:241-267 | a vote changes the helpful count only by the caller's own vote: minus one for an old helpful vote, plus one for a new one |
| ReviewModel.NoVoteNoHelpfulVote | backend/src/models/review.model.ts:243-249 | a user with no vote has no helpful vote |
| ReviewModel.CountHelpfulAppend | backend/src/models/review.model.ts:259-263 | an inserted vote adds one to the count iff it is a helpful vote on that review |
| ReviewModel.OverwriteCount | backend/src/models/review.model.ts:251-256 | overwriting the caller's vote changes the count by the old and new values only |
| ReviewOrder.BeforeTotal | backend/src/models/review.model.ts:209-214 | any two rows are comparable under each ORDER BY list |
| ReviewOrder.BeforeTransitive | backend/src/models/review.model.ts:209-214 | each ORDER BY list is transitive |
| ReviewOrder.Insert | backend/src/models/review.model.ts:175 | inserting into sorted rows keeps them sorted and adds exactly that row |
| ReviewOrder.Sort | backend/src/models/review.model.ts:225 | the rows come out sorted by the ORDER BY list, as a permutation of the input |
| ReviewOrder.SortKeepsRows | backend/src/models/review.model.ts:225 | sorting neither adds nor drops rows |
| ReviewOrder.Page | backend/src/models/review.model.ts:176 | fails iff limit or offset is negative; otherwise it holds at most `limit` rows, exactly the rows from position `offset` on |
| ReviewOrder.ConsecutivePages | backend/src/models/review.model.ts:226 | over one fixed row order, consecutive pages cover the rows without gap or overlap |
| ReviewOrder.SortedPage | backend/src/models/review.model.ts:225-226 | a page of sorted rows is sorted and holds only input rows |
| ReviewOrder.SortedWindow | backend/src/models/review.model.ts:175-176 | a page of sorted rows holds `min(limit, n - offset)` rows (none past the end), and its i-th row is the sorted row at position `offset + i` |
| Sql.ExecuteBoundPrefix | backend/src/models/user.model.ts:161-166 | executing bound assignments then the rest equals writing the pairs, then executing the rest |
| Sql.WritePairsAppend | backend/src/models/review.model.ts:122-127 | writing `a + b` is writing `a` then `b` |
| Sql.AddAssignment | backend/src/models/user.model.ts:133-136 | a supplied field adds one `column = $n` clause bound to its value and advances the parameter count; an absent one adds nothing |
| Sql.WriteSupplied | backend/src/models/review.model.ts:93-96 | a supplied value is written; an absent one leaves the row unchanged |
| Sql.BindsFromAppend | backend/src/models/review.model.ts:118-120 | appending more clauses and values keeps the bindings already made |
| ReviewController.UpdateError | backend/src/controllers/review.controller.ts:124-139 | 404 iff the message is 'Review not found or unauthorized'; otherwise 500 |
| ReviewController.Create | backend/src/controllers/review.controller.ts:14-61 | 401 without a user; 409 when the user already reviewed the company; 201 iff a user with no review yet passes the sub-rating CHECK, and then the review is stored, the author's count grows by one and the stored details are returned; 500 when the CHECK fails; nothing changes otherwise; one review per user and company is preserved |
| ReviewController.CreateFor | backend/src/controllers/review.controller.ts:39-60 | past the duplicate check: 201 iff the sub-ratings pass the CHECK, and then the review is appended, the author's count grows by one and its stored details are returned; otherwise 500 and nothing changes |
| ReviewController.OnePerPairKept | backend/src/controllers/review.controller.ts:28-40 | appending a review for a user and company with no review yet keeps one review per pair |
| ReviewController.GetById | backend/src/controllers/review.controller.ts:66-93 | 404 iff no review has the id; otherwise 200 with its details |
| ReviewController.Update | backend/src/controllers/review.controller.ts:98-141 | 401 without a user; 404 iff the caller owns no review with the id, and then nothing changes; otherwise 200 with the updated details |
| ReviewController.Delete | backend/src/controllers/review.controller.ts:146-183 | 401 without a user; 404 iff the caller owns no review with the id; otherwise 200 and that review is gone |
| ReviewController.HasMoreIffRowsRemain | backend/src/controllers/review.controller.ts:204 | `hasMore` is true iff rows remain after the page |
| ReviewController.GetByUser | backend/src/controllers/review.controller.ts:188-216 | 500 iff limit or offset is negative; otherwise 200 with the user's page, total and `hasMore` |
| ReviewController.GetByCompany | backend/src/controllers/review.controller.ts:221-251 | 500 iff limit or offset is negative; otherwise 200 with the company's page, rating sum, total and `hasMore` |
| ReviewController.VoteHelpful | backend/src/controllers/review.controller.ts:256-285 | 401 without a user, with no change; otherwise the vote is recorded, the count is recomputed and 200 is sent |
| ReviewController.GetStatistics | backend/src/controllers/review.controller.ts:290-308 | 200 with the company's statistics, whose distribution sums to the total |
| AuthController.Register | backend/src/controllers/auth.controller.ts:15-83 | 409 for a taken e-mail, checked before strength; 400 with the validator's errors for a weak password; both create nothing; 201 iff the e-mail is free and the password strong, and then exactly one user with the hashed password and role 'user' unless given is stored, its login is stamped, and its profile and tokens are returned |
| AuthController.StampedUserIsFound | backend/src/controllers/auth.controller.ts:61-64 | after stamping the login, the new user's profile is still found |
| AuthController.Login | backend/src/controllers/auth.controller.ts:88-164 | 401 for an unknown e-mail; 403 for a banned user (with the reason or 'Violation of terms'); 403 for an inactive user; 401 for a wrong password; otherwise the login is stamped and 200 carries the profile and tokens for the stored id, e-mail and role; only success writes |
| AuthController.IncludesAt | backend/src/controllers/auth.controller.ts:214 | `includes` is true when the word occurs at some position |
| AuthController.IncludedSomewhere | backend/src/controllers/auth.controller.ts:214 | when `includes` is true the word occurs at some position |
| AuthController.NotIncluded | backend/src/controllers/auth.controller.ts:214 | a word whose first two letters never occur in a row is not included |
| AuthController.LowerCaseWordsMissing | backend/src/controllers/auth.controller.ts:214 | a text with no 'x', whose only lower-case 'i' is followed by 'd', includes neither 'invalid' nor 'expired' |
| AuthController.RefreshErrorAsWritten | backend/src/controllers/auth.controller.ts:212-230 | the catch block as written: 401 iff the message includes 'expired' or 'invalid', case-sensitively; else 500 |
| AuthController.InvalidRefreshTokenAnswers500AsWritten | backend/src/controllers/auth.controller.ts:214 | as written, 'Invalid refresh token' is answered 500 |
| AuthController.ExpiredRefreshTokenAnswers401AsWritten | backend/src/controllers/auth.controller.ts:214 | as written, 'Refresh token expired' is answered 401 |
| AuthController.RefreshError | backend/src/controllers/auth.controller.ts:212-230 | the catch block corrected: the same words matched regardless of case; 401 iff found, else 500 |
| AuthController.RefreshFailuresAnswer401 | backend/src/controllers/auth.controller.ts:212-221 | corrected, both refresh failure messages get 401, and every message answered 401 as written still is |
| AuthController.LoweringKeepsLowerCaseWord | backend/src/controllers/auth.controller.ts:214 | lowering a message keeps every lower-case word it contains |
| AuthController.LowerExpiredIncludesExpired | backend/src/utils/jwt.utils.ts:68 | 'Refresh token expired', lowered, includes 'expired' |
| AuthController.LowerInvalidIncludesInvalid | backend/src/utils/jwt.utils.ts:71 | 'Invalid refresh token', lowered, includes 'invalid' |
| AuthController.RefreshToken | backend/src/controllers/auth.controller.ts:169-231 | as written: an expired refresh token gets 401 but a malformed one 500, any failed verification going through the case-sensitive catch block; 401 when the user is gone; 403 for a banned or inactive user; otherwise 200 with new tokens for the stored id, e-mail and role; nothing is written |
| AuthController.RefreshFor | backend/src/controllers/auth.controller.ts:176-211 | after verification: 401 when the user is gone; 403 for a banned or inactive user; otherwise 200 with new tokens for the stored id, e-mail and role |
| AuthController.RefreshTokenCorrected | backend/src/controllers/auth.controller.ts:169-231 | with the corrected catch block, an expired or malformed refresh token gets 401; the rest as `refreshToken` |
| AuthController.RefreshVerificationFailuresAsWritten | backend/src/controllers/auth.controller.ts:212-230 | as written, an expired refresh token is answered 401 and a malformed one 500 |
| AuthController.RefreshVerificationFailuresAnswer401 | backend/src/controllers/auth.controller.ts:212-221 | corrected, an expired or malformed refresh token is answered 401 |
| AuthController.GetProfile | backend/src/controllers/auth.controller.ts:236-270 | 401 without a user; 404 iff the caller's row is gone; otherwise 200 with the profile |

## Left out

- Logging, the Express plumbing, routes, the Redis cache and the search index are not part of this model.
- The connection pool and connection failures are not modelled. `AuthController.RegistrationFailed`, the catch-all 500 of `register`, sits on a branch the model proves unreachable. `ReviewController.CreateFailed` is reached when a sub-rating fails the CHECK, and the source answers that case 500 too.
- bcrypt hashing and comparison, JWT signing and signature/expiry checking, and the clock are oracles.
- The cost factor, the secrets and the token lifetimes are not modelled.
- Logout only replies 200 and has no state; it is not modelled.
- UUIDs are modelled as natural numbers drawn from a counter.
- A malformed id, which Postgres would reject with an error and the handlers would answer 500, is not modelled.
- `averageRating` (a float from `AVG` and `parseFloat`) is not modelled. The listing and the statistics carry the rating sum and the count it is computed from.
- ReviewModel.FindByUser: `findByUser` selects `c.company_name` (backend/src/models/review.model.ts:170), but the company record (backend/src/models/company.model.ts:3-10) has a `name` column and no `company_name`. The companies schema is not part of this model, so the model assumes the selected column resolves. Its rows are the bare reviews, without company columns. If the column is missing, every call fails.
- ReviewController.GetByUser: for the same reason, the model assumes `getByUser` reaches its success path. If `c.company_name` does not resolve, the source answers 500 on every call.
- Foreign keys and cascades are not modelled; the companies schema is not part of this model. A vote or review may therefore name a missing row.
- Column defaults that the migrations shown do not fix are taken as: `status` 'published', `is_active` true, `is_banned` false, `is_verified_reviewer` false, counters 0, `email_verified` false, `last_login_at` null, and a vote's `updated_at` at insert time.
- Request-schema validation runs before the handlers and is not modelled. Its bounds appear only as requirements:
  - ReviewModel.Create: requires a rating in 1..5, which the create-review request schema guarantees before the store is reached.
  - ReviewModel.Update: requires a supplied rating to be in 1..5, which the update-review request schema guarantees.
  - ReviewController.Create: requires a rating in 1..5, for the same reason.
  - ReviewController.Update: requires a supplied rating to be in 1..5, for the same reason.
- The request schema strips the employee-review fields on the HTTP route. The store still accepts them, and the model keeps them as the store does.
- ReviewController.VoteHelpful: `isHelpful` is read from the body without validation; the model takes it as a boolean, so a missing or non-boolean value is not modelled.
- An explicit JSON `null` for an optional text field (pros, cons, or a profile field) is modelled as absent. The store would write NULL.
- Pagination stability is not modelled. Each page is a separate `ORDER BY … LIMIT … OFFSET` query, and Postgres may order rows tied on `created_at`, `helpful_count` or `rating` differently on each one, so real consecutive pages can repeat or skip tied rows. The model pages one fixed order.
- UserModel.UpdateTrustScore: the score, a JS `number`, is modelled as a real number; NaN, the infinities and the rounding of floating point are not modelled.
- Concurrency is not modelled. `canUserReviewCompany` followed by `create`, and the vote check followed by insert, are atomic in the model. Two concurrent requests could interleave in the source.
- Replies without a `message` field (reading a review, a listing, statistics, a profile) carry the empty string as their message in the model.

## Findings

| source | as written | input that shows it | evidently intended | confidence | as-written member | corrected member |
|---|---|---|---|---|---|---|
| backend/src/controllers/auth.controller.ts:214 | the catch block of `refreshToken` tests `message.includes('invalid')` case-sensitively, but `verifyRefreshToken` (backend/src/utils/jwt.utils.ts:70-71) throws 'Invalid refresh token' with a capital I | a refresh token with a bad signature or malformed body: `jwt.verify` throws `JsonWebTokenError`, the message is 'Invalid refresh token', and the reply is 500 "Token refresh failed" | 401 "Invalid refresh token" / "Please login again", as for an expired token | high; not executed | AuthController.RefreshVerificationFailuresAsWritten | AuthController.RefreshVerificationFailuresAnswer401 |
