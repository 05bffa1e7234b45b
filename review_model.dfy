/**
 * `ReviewModel`: the review store. Writes (`create`, `update`, `delete`,
 * `voteHelpful`, `updateHelpfulCount`) change the `reviews` and `review_votes`
 * tables of the database; the queries are functions of the table contents.
 */
module ReviewModel {
  import opened Common
  import opened Schema
  import opened Sql
  import opened ReviewOrder
  import UserModel

  const NotFoundOrUnauthorized := "Review not found or unauthorized"
  /** What PostgreSQL throws when a sub-rating breaks its CHECK constraint. */
  const SubRatingCheckMessage := "new row for relation \"reviews\" violates check constraint"

  // ---------------------------------------------------------------- create

  /** The request body `create` reads; `None` is an absent (undefined) field. */
  datatype ReviewInput = ReviewInput(
    companyId: Id,
    rating: int,
    title: string,
    content: string,
    pros: Option<string>,
    cons: Option<string>,
    experienceDate: Option<string>,
    reviewType: Option<ReviewType>,
    employmentStatus: Option<EmploymentStatus>,
    jobTitle: Option<string>,
    subRatings: SubRatings)

  /** JavaScript's `s || null` on an optional string: absent and `''` both become NULL. */
  function TextOrNull(o: Option<string>): (r: Option<string>)
    ensures r.None? <==> o.None? || o.value == ""
    ensures r.Some? ==> r == o
  {
    if o.Some? && o.value != "" then o else None
  }

  /** JavaScript's `n || null` on an optional number: absent and `0` both become NULL. */
  function NumberOrNull(o: Option<int>): (r: Option<int>)
    ensures r.None? <==> o.None? || o.value == 0
    ensures r.Some? ==> r == o
  {
    if o.Some? && o.value != 0 then o else None
  }

  function StoredSubRatings(s: SubRatings): SubRatings {
    SubRatings(NumberOrNull(s.workLifeBalance), NumberOrNull(s.compensation), NumberOrNull(s.culture),
               NumberOrNull(s.management), NumberOrNull(s.careerOpportunities))
  }

  /** The row `create` inserts; the columns it does not name take their defaults. */
  function NewReview(id: Id, userId: Id, input: ReviewInput, now: Timestamp): Review {
    Review(id, userId, input.companyId, input.rating, input.title, input.content,
           TextOrNull(input.pros), TextOrNull(input.cons), TextOrNull(input.experienceDate),
           if input.reviewType.Some? then input.reviewType.value else Customer,
           input.employmentStatus, TextOrNull(input.jobTitle), StoredSubRatings(input.subRatings),
           DefaultReviewStatus, 0, 0, false, now, now)
  }

  /**
   * A new review is a customer review unless a type is given, stores empty
   * strings and zero sub-ratings as NULL, and starts published, unvoted and unedited.
   */
  lemma NewReviewDefaults(id: Id, userId: Id, input: ReviewInput, now: Timestamp)
    ensures var r := NewReview(id, userId, input, now);
      && r.userId == userId && r.companyId == input.companyId && r.rating == input.rating
      && (input.reviewType.None? ==> r.reviewType == Customer)
      && (input.pros == Some("") ==> r.pros.None?)
      && (input.cons == Some("") ==> r.cons.None?)
      && (input.jobTitle == Some("") ==> r.jobTitle.None?)
      && (input.subRatings.culture == Some(0) ==> r.subRatings.culture.None?)
      && r.status == Published && r.helpfulCount == 0 && r.notHelpfulCount == 0 && !r.edited
  {
  }

  /**
   * `create`: inserts the review and returns the stored row. A sub-rating other
   * than 0 outside 1..5 breaks the table's CHECK constraints and nothing is inserted.
   */
  method Create(db: Database, userId: Id, input: ReviewInput, now: Timestamp) returns (r: Result<Review>)
    requires db.Valid() && 1 <= input.rating <= 5
    modifies db
    ensures db.Valid() && OnlyReviewTablesChanged(db) && db.votes == old(db.votes)
    ensures !SubRatingsOk(StoredSubRatings(input.subRatings)) ==>
      r == Err(SubRatingCheckMessage) && db.reviews == old(db.reviews) && db.nextId == old(db.nextId)
    ensures SubRatingsOk(StoredSubRatings(input.subRatings)) ==>
      && r == Ok(NewReview(old(db.nextId), userId, input, now))
      && db.reviews == old(db.reviews) + [r.value]
      && db.nextId == old(db.nextId) + 1
  {
    var row := NewReview(db.nextId, userId, input, now);
    if !SubRatingsOk(row.subRatings) {
      return Err(SubRatingCheckMessage);
    }
    db.reviews := db.reviews + [row];
    db.nextId := db.nextId + 1;
    r := Ok(row);
  }

  // ---------------------------------------------------------------- findById

  /** The row of `reviews` with that id. */
  function FindReview(reviews: seq<Review>, id: Id): (r: Option<Review>)
    ensures r.None? <==> forall i :: 0 <= i < |reviews| ==> reviews[i].id != id
    ensures r.Some? ==> r.value in reviews && r.value.id == id
    decreases |reviews|
  {
    if reviews == [] then None
    else if reviews[0].id == id then Some(reviews[0])
    else FindReview(reviews[1..], id)
  }

  /** The row of `companies` with that id. */
  function FindCompany(companies: seq<Company>, id: Id): (r: Option<Company>)
    ensures r.None? <==> forall i :: 0 <= i < |companies| ==> companies[i].id != id
    ensures r.Some? ==> r.value in companies && r.value.id == id
    decreases |companies|
  {
    if companies == [] then None
    else if companies[0].id == id then Some(companies[0])
    else FindCompany(companies[1..], id)
  }

  /** The author columns `LEFT JOIN users u ON r.user_id = u.id` adds: all NULL without a matching user. */
  datatype Author = Author(userName: Option<string>, userImage: Option<string>, isVerifiedReviewer: Option<bool>)

  function AuthorOf(users: seq<User>, userId: Id): Author {
    match UserModel.FindById(users, userId)
    case None => Author(None, None, None)
    case Some(u) => Author(Some(u.fullName), u.profileImageUrl, Some(u.isVerifiedReviewer))
  }

  /** A review with the author and company columns `findById` selects. */
  datatype ReviewDetails = ReviewDetails(review: Review, author: Author, companyName: Option<string>,
                                         companyLogo: Option<string>)

  /**
   * `findById`: null exactly when no review has the id; otherwise that review,
   * its author's columns and the name and logo of its company (null without one).
   */
  function FindById(db: Database, id: Id): (r: Option<ReviewDetails>)
    reads db
    ensures r.None? <==> forall i :: 0 <= i < |db.reviews| ==> db.reviews[i].id != id
    ensures r.Some? ==> r.value.review in db.reviews && r.value.review.id == id
    ensures r.Some? ==> r.value.author == AuthorOf(db.users, r.value.review.userId)
    ensures r.Some? ==> (r.value.companyName.Some? <==> FindCompany(db.companies, r.value.review.companyId).Some?)
    ensures r.Some? && r.value.companyName.None? ==>
      r.value.companyLogo.None? &&
      forall i :: 0 <= i < |db.companies| ==> db.companies[i].id != r.value.review.companyId
    ensures r.Some? && r.value.companyName.Some? ==>
      exists c :: c in db.companies && c.id == r.value.review.companyId &&
        c.name == r.value.companyName.value && c.logoUrl == r.value.companyLogo
  {
    match FindReview(db.reviews, id)
    case None => None
    case Some(r) =>
      var c := FindCompany(db.companies, r.companyId);
      Some(ReviewDetails(r, AuthorOf(db.users, r.userId),
                         if c.Some? then Some(c.value.name) else None,
                         if c.Some? then c.value.logoUrl else None))
  }

  /** With unique ids, `findById` returns the row holding the id, wherever it sits. */
  lemma {:induction false} FindReviewAt(reviews: seq<Review>, k: nat, nextId: nat)
    requires ReviewsOk(reviews, nextId) && k < |reviews|
    ensures FindReview(reviews, reviews[k].id) == Some(reviews[k])
    decreases k
  {
    if k > 0 {
      assert reviews[0].id != reviews[k].id;
      assert ReviewsOk(reviews[1..], nextId) by {
        forall i, j | 0 <= i < j < |reviews[1..]| ensures reviews[1..][i].id != reviews[1..][j].id {
          assert reviews[1..][i] == reviews[i + 1] && reviews[1..][j] == reviews[j + 1];
        }
      }
      FindReviewAt(reviews[1..], k - 1, nextId);
      assert reviews[1..][k - 1] == reviews[k];
    }
  }

  /** A created review is found by its id afterwards. */
  lemma CreatedReviewIsFound(reviews: seq<Review>, nextId: nat, r: Review)
    requires ReviewsOk(reviews + [r], nextId + 1)
    ensures FindReview(reviews + [r], r.id) == Some(r)
  {
    FindReviewAt(reviews + [r], |reviews|, nextId + 1);
  }

  // ---------------------------------------------------------------- update

  /** The fields `update` may change; `None` is an absent field. */
  datatype ReviewPatch = ReviewPatch(
    rating: Option<int>,
    title: Option<string>,
    content: Option<string>,
    pros: Option<string>,
    cons: Option<string>)

  /** A review row with the columns `update` may write blanked out: what it must leave alone. */
  function OutsideEditable(r: Review): Review {
    r.(rating := 0, title := "", content := "", pros := None, cons := None, updatedAt := 0, edited := false)
  }

  function WithRating(r: Review, o: Option<int>): (s: Review)
    ensures OutsideEditable(s) == OutsideEditable(r)
    ensures s.rating == (if o.Some? then o.value else r.rating)
    ensures s.title == r.title && s.content == r.content && s.pros == r.pros && s.cons == r.cons
  {
    if o.Some? then r.(rating := o.value) else r
  }

  function WithTitle(r: Review, o: Option<string>): (s: Review)
    ensures OutsideEditable(s) == OutsideEditable(r)
    ensures s.title == (if o.Some? then o.value else r.title)
    ensures s.rating == r.rating && s.content == r.content && s.pros == r.pros && s.cons == r.cons
  {
    if o.Some? then r.(title := o.value) else r
  }

  function WithContent(r: Review, o: Option<string>): (s: Review)
    ensures OutsideEditable(s) == OutsideEditable(r)
    ensures s.content == (if o.Some? then o.value else r.content)
    ensures s.rating == r.rating && s.title == r.title && s.pros == r.pros && s.cons == r.cons
  {
    if o.Some? then r.(content := o.value) else r
  }

  function WithPros(r: Review, o: Option<string>): (s: Review)
    ensures OutsideEditable(s) == OutsideEditable(r)
    ensures s.pros == (if o.Some? then o else r.pros)
    ensures s.rating == r.rating && s.title == r.title && s.content == r.content && s.cons == r.cons
  {
    if o.Some? then r.(pros := o) else r
  }

  function WithCons(r: Review, o: Option<string>): (s: Review)
    ensures OutsideEditable(s) == OutsideEditable(r)
    ensures s.cons == (if o.Some? then o else r.cons)
    ensures s.rating == r.rating && s.title == r.title && s.content == r.content && s.pros == r.pros
  {
    if o.Some? then r.(cons := o) else r
  }

  /** The supplied fields replaced in column order, `updated_at` stamped and `edited` set. */
  function ReviewPatched(r: Review, p: ReviewPatch, now: Timestamp): Review {
    WithCons(WithPros(WithContent(WithTitle(WithRating(r, p.rating), p.title), p.content), p.pros), p.cons)
      .(updatedAt := now, edited := true)
  }

  /** `update` changes only the supplied fields, `updated_at` and `edited`; every other column stays. */
  lemma ReviewPatchTouchesOnlyEditable(r: Review, p: ReviewPatch, now: Timestamp)
    ensures OutsideEditable(ReviewPatched(r, p, now)) == OutsideEditable(r)
    ensures ReviewPatched(r, p, now).rating == if p.rating.Some? then p.rating.value else r.rating
    ensures ReviewPatched(r, p, now).title == if p.title.Some? then p.title.value else r.title
    ensures ReviewPatched(r, p, now).content == if p.content.Some? then p.content.value else r.content
    ensures ReviewPatched(r, p, now).pros == if p.pros.Some? then p.pros else r.pros
    ensures ReviewPatched(r, p, now).cons == if p.cons.Some? then p.cons else r.cons
    ensures ReviewPatched(r, p, now).updatedAt == now && ReviewPatched(r, p, now).edited
  {
    var r5 := WithCons(WithPros(WithContent(WithTitle(WithRating(r, p.rating), p.title), p.content), p.pros), p.cons);
    assert OutsideEditable(r5.(updatedAt := now, edited := true)) == OutsideEditable(r5);
  }

  /** A patch keeps the row's id and author. */
  lemma PatchKeepsKey(r: Review, p: ReviewPatch, now: Timestamp)
    ensures ReviewPatched(r, p, now).id == r.id && ReviewPatched(r, p, now).userId == r.userId
  {
    ReviewPatchTouchesOnlyEditable(r, p, now);
    assert OutsideEditable(ReviewPatched(r, p, now)).id == OutsideEditable(r).id;
    assert OutsideEditable(ReviewPatched(r, p, now)).userId == OutsideEditable(r).userId;
  }

  /** The row is the caller's: its id and its owner both match. */
  predicate Owned(r: Review, id: Id, userId: Id) {
    r.id == id && r.userId == userId
  }

  predicate OwnedExists(reviews: seq<Review>, id: Id, userId: Id) {
    exists i :: 0 <= i < |reviews| && Owned(reviews[i], id, userId)
  }

  /** `UPDATE reviews SET … WHERE id = $k+1 AND user_id = $k+2`. */
  function UpdateOwned(reviews: seq<Review>, id: Id, userId: Id, p: ReviewPatch, now: Timestamp): (r: seq<Review>)
    ensures |r| == |reviews|
    ensures forall i :: 0 <= i < |reviews| ==>
      r[i] == if Owned(reviews[i], id, userId) then ReviewPatched(reviews[i], p, now) else reviews[i]
    decreases |reviews|
  {
    if reviews == [] then []
    else [if Owned(reviews[0], id, userId) then ReviewPatched(reviews[0], p, now) else reviews[0]]
         + UpdateOwned(reviews[1..], id, userId, p, now)
  }

  /** With a wrong id, or the right id but another owner, `update` leaves the table as it was. */
  lemma UpdateOfOthersIsNoOp(reviews: seq<Review>, id: Id, userId: Id, p: ReviewPatch, now: Timestamp)
    requires !OwnedExists(reviews, id, userId)
    ensures UpdateOwned(reviews, id, userId, p, now) == reviews
  {
  }

  /** Patching keeps ids, and keeps ratings valid when a supplied rating is valid. */
  lemma UpdateOwnedKeepsTable(reviews: seq<Review>, nextId: nat, id: Id, userId: Id, p: ReviewPatch, now: Timestamp)
    requires ReviewsOk(reviews, nextId)
    requires p.rating.Some? ==> 1 <= p.rating.value <= 5
    ensures ReviewsOk(UpdateOwned(reviews, id, userId, p, now), nextId)
  {
    var r := UpdateOwned(reviews, id, userId, p, now);
    forall i | 0 <= i < |reviews|
      ensures r[i].id == reviews[i].id && 1 <= r[i].rating <= 5 && r[i].subRatings == reviews[i].subRatings
    {
      ReviewPatchTouchesOnlyEditable(reviews[i], p, now);
      assert OutsideEditable(r[i]).id == OutsideEditable(reviews[i]).id;
      assert OutsideEditable(r[i]).subRatings == OutsideEditable(reviews[i]).subRatings;
    }
  }

  /** The columns `update` may name in its SET list. */
  datatype ReviewColumn = RatingColumn | TitleColumn | ContentColumn | ProsColumn | ConsColumn
                        | StampColumn | EditedColumn

  /** How a value lands in a `reviews` column. */
  function WriteReviewColumn(r: Review, column: ReviewColumn, v: Value): Review {
    match column
    case RatingColumn => if v.IntValue? then r.(rating := v.i) else r
    case TitleColumn => if v.TextValue? then r.(title := v.s) else r
    case ContentColumn => if v.TextValue? then r.(content := v.s) else r
    case ProsColumn => if v.TextValue? then r.(pros := Some(v.s)) else r
    case ConsColumn => if v.TextValue? then r.(cons := Some(v.s)) else r
    case StampColumn => if v.TimeValue? then r.(updatedAt := v.t) else r
    case EditedColumn => if v.BoolValue? then r.(edited := v.b) else r
  }

  function Int(o: Option<int>): Option<Value> {
    if o.Some? then Some(IntValue(o.value)) else None
  }

  /** The supplied fields as (column, value) pairs, in the order the statement lists them. */
  function ReviewPairs(p: ReviewPatch): seq<(ReviewColumn, Value)> {
    Supplied(RatingColumn, Int(p.rating)) + Supplied(TitleColumn, Text(p.title))
    + Supplied(ContentColumn, Text(p.content)) + Supplied(ProsColumn, Text(p.pros))
    + Supplied(ConsColumn, Text(p.cons))
  }

  /**
   * The statement `update` builds with its `paramCount` counter: one
   * `column = $n` per supplied field numbered from 1, then `updated_at` and
   * `edited = true`; with k supplied fields the id is `$(k+1)` and the owner
   * `$(k+2)`, the last two of the k+2 values.
   */
  method BuildUpdate(reviewId: Id, userId: Id, updates: ReviewPatch)
    returns (fields: seq<SetClause<ReviewColumn>>, values: seq<Value>, idParam: nat, ownerParam: nat)
    ensures BindsFrom(fields, values, ReviewPairs(updates), 0)
    ensures |fields| == |ReviewPairs(updates)| + 2
    ensures fields[|ReviewPairs(updates)|..] == [SetNow(StampColumn), SetTrue(EditedColumn)]
    ensures idParam == |ReviewPairs(updates)| + 1 && ownerParam == idParam + 1 == |values|
    ensures Param(values, idParam) == IdValue(reviewId) && Param(values, ownerParam) == IdValue(userId)
  {
    fields, values := [], [];
    var paramCount := 1;
    ghost var pairs: seq<(ReviewColumn, Value)> := [];
    fields, values, paramCount := AddAssignment(fields, values, pairs, paramCount, RatingColumn, Int(updates.rating));
    pairs := pairs + Supplied(RatingColumn, Int(updates.rating));
    fields, values, paramCount := AddAssignment(fields, values, pairs, paramCount, TitleColumn, Text(updates.title));
    pairs := pairs + Supplied(TitleColumn, Text(updates.title));
    fields, values, paramCount := AddAssignment(fields, values, pairs, paramCount, ContentColumn, Text(updates.content));
    pairs := pairs + Supplied(ContentColumn, Text(updates.content));
    fields, values, paramCount := AddAssignment(fields, values, pairs, paramCount, ProsColumn, Text(updates.pros));
    pairs := pairs + Supplied(ProsColumn, Text(updates.pros));
    fields, values, paramCount := AddAssignment(fields, values, pairs, paramCount, ConsColumn, Text(updates.cons));
    pairs := pairs + Supplied(ConsColumn, Text(updates.cons));
    assert pairs == ReviewPairs(updates) by {
      assert [] + Supplied(RatingColumn, Int(updates.rating)) == Supplied(RatingColumn, Int(updates.rating));
    }
    BindsFromAppend(fields, values, pairs, 0, [SetNow(StampColumn), SetTrue(EditedColumn)], [IdValue(reviewId), IdValue(userId)]);
    fields := fields + [SetNow(StampColumn), SetTrue(EditedColumn)];
    values := values + [IdValue(reviewId), IdValue(userId)];
    idParam, ownerParam := paramCount, paramCount + 1;
  }

  /** The supplied fields written one after another, in column order. */
  lemma ReviewPairsInOrder(r: Review, updates: ReviewPatch)
    ensures WritePairs(r, ReviewPairs(updates), WriteReviewColumn)
         == var w1 := WritePairs(r, Supplied(RatingColumn, Int(updates.rating)), WriteReviewColumn);
            var w2 := WritePairs(w1, Supplied(TitleColumn, Text(updates.title)), WriteReviewColumn);
            var w3 := WritePairs(w2, Supplied(ContentColumn, Text(updates.content)), WriteReviewColumn);
            var w4 := WritePairs(w3, Supplied(ProsColumn, Text(updates.pros)), WriteReviewColumn);
            WritePairs(w4, Supplied(ConsColumn, Text(updates.cons)), WriteReviewColumn)
  {
    var p1 := Supplied(RatingColumn, Int(updates.rating));
    var p2 := Supplied(TitleColumn, Text(updates.title));
    var p3 := Supplied(ContentColumn, Text(updates.content));
    var p4 := Supplied(ProsColumn, Text(updates.pros));
    var p5 := Supplied(ConsColumn, Text(updates.cons));
    WritePairsAppend(r, p1 + p2 + p3 + p4, p5, WriteReviewColumn);
    WritePairsAppend(r, p1 + p2 + p3, p4, WriteReviewColumn);
    WritePairsAppend(r, p1 + p2, p3, WriteReviewColumn);
    WritePairsAppend(r, p1, p2, WriteReviewColumn);
  }

  /** Running the built statement on a row is exactly the patch, with `updated_at` and `edited` set. */
  lemma UpdateStatementMeansPatch(r: Review, updates: ReviewPatch, fields: seq<SetClause<ReviewColumn>>,
                                  values: seq<Value>, now: Timestamp)
    requires BindsFrom(fields, values, ReviewPairs(updates), 0)
    requires |fields| == |ReviewPairs(updates)| + 2
    requires fields[|ReviewPairs(updates)|..] == [SetNow(StampColumn), SetTrue(EditedColumn)]
    ensures Execute(r, fields, values, now, WriteReviewColumn) == ReviewPatched(r, updates, now)
  {
    var pairs := ReviewPairs(updates);
    ExecuteBoundPrefix(r, fields, values, pairs, 0, now, WriteReviewColumn);
    ReviewPairsMeanPatch(r, updates);
    var w5 := WritePairs(r, pairs, WriteReviewColumn);
    assert Execute(w5, [SetNow(StampColumn), SetTrue(EditedColumn)], values, now, WriteReviewColumn)
        == w5.(updatedAt := now, edited := true);
  }

  /** Writing the supplied pairs applies the five editable fields of the patch. */
  lemma ReviewPairsMeanPatch(r: Review, updates: ReviewPatch)
    ensures WritePairs(r, ReviewPairs(updates), WriteReviewColumn)
         == WithCons(WithPros(WithContent(WithTitle(WithRating(r, updates.rating), updates.title), updates.content),
                              updates.pros), updates.cons)
  {
    ReviewPairsInOrder(r, updates);
    var w1 := WritePairs(r, Supplied(RatingColumn, Int(updates.rating)), WriteReviewColumn);
    var w2 := WritePairs(w1, Supplied(TitleColumn, Text(updates.title)), WriteReviewColumn);
    var w3 := WritePairs(w2, Supplied(ContentColumn, Text(updates.content)), WriteReviewColumn);
    var w4 := WritePairs(w3, Supplied(ProsColumn, Text(updates.pros)), WriteReviewColumn);
    WriteSupplied(r, RatingColumn, Int(updates.rating), WriteReviewColumn);
    WriteSupplied(w1, TitleColumn, Text(updates.title), WriteReviewColumn);
    WriteSupplied(w2, ContentColumn, Text(updates.content), WriteReviewColumn);
    WriteSupplied(w3, ProsColumn, Text(updates.pros), WriteReviewColumn);
    WriteSupplied(w4, ConsColumn, Text(updates.cons), WriteReviewColumn);
  }

  /**
   * `update`: runs the built statement; when it matched no row (unknown id, or
   * another user's review) it throws and the table is unchanged, otherwise it
   * returns the updated row.
   */
  method Update(db: Database, reviewId: Id, userId: Id, updates: ReviewPatch, now: Timestamp) returns (r: Result<Review>)
    requires db.Valid()
    requires updates.rating.Some? ==> 1 <= updates.rating.value <= 5
    modifies db
    ensures db.Valid() && OnlyReviewTablesChanged(db) && db.votes == old(db.votes) && db.nextId == old(db.nextId)
    ensures db.reviews == UpdateOwned(old(db.reviews), reviewId, userId, updates, now)
    ensures r.Err? <==> !OwnedExists(old(db.reviews), reviewId, userId)
    ensures r.Err? ==> r.message == NotFoundOrUnauthorized && db.reviews == old(db.reviews)
    ensures r.Ok? ==> r.value in db.reviews && Owned(r.value, reviewId, userId)
  {
    var fields, values, idParam, ownerParam := BuildUpdate(reviewId, userId, updates);
    var rows := db.reviews;
    var updated := seq(|rows|, i requires 0 <= i < |rows| =>
      if Param(values, idParam) == IdValue(rows[i].id) && Param(values, ownerParam) == IdValue(rows[i].userId)
      then Execute(rows[i], fields, values, now, WriteReviewColumn) else rows[i]);
    forall i | 0 <= i < |rows|
      ensures updated[i] == UpdateOwned(rows, reviewId, userId, updates, now)[i]
    {
      if Owned(rows[i], reviewId, userId) {
        UpdateStatementMeansPatch(rows[i], updates, fields, values, now);
      }
    }
    assert updated == UpdateOwned(rows, reviewId, userId, updates, now);
    UpdateOwnedKeepsTable(rows, db.nextId, reviewId, userId, updates, now);
    db.reviews := updated;
    r := ReturnedRow(rows, reviewId, userId, updates, now);
    if r.Err? {
      UpdateOfOthersIsNoOp(rows, reviewId, userId, updates, now);
    }
  }

  /**
   * The row `RETURNING *` hands back after the update: the first updated row,
   * or the "not found or unauthorized" error when the statement matched none.
   */
  method ReturnedRow(rows: seq<Review>, reviewId: Id, userId: Id, updates: ReviewPatch, now: Timestamp)
    returns (r: Result<Review>)
    ensures r.Err? <==> !OwnedExists(rows, reviewId, userId)
    ensures r.Err? ==> r.message == NotFoundOrUnauthorized
    ensures r.Ok? ==> r.value in UpdateOwned(rows, reviewId, userId, updates, now) && Owned(r.value, reviewId, userId)
  {
    var k := 0;
    while k < |rows| && !Owned(rows[k], reviewId, userId)
      invariant 0 <= k <= |rows|
      invariant forall i :: 0 <= i < k ==> !Owned(rows[i], reviewId, userId)
    {
      k := k + 1;
    }
    if k == |rows| {
      return Err(NotFoundOrUnauthorized);
    }
    PatchKeepsKey(rows[k], updates, now);
    PatchedRowIsStored(rows, reviewId, userId, updates, now, k);
    r := Ok(ReviewPatched(rows[k], updates, now));
  }

  /** The patched version of an owned row is in the updated table. */
  lemma PatchedRowIsStored(rows: seq<Review>, reviewId: Id, userId: Id, updates: ReviewPatch, now: Timestamp, k: nat)
    requires k < |rows| && Owned(rows[k], reviewId, userId)
    ensures ReviewPatched(rows[k], updates, now) in UpdateOwned(rows, reviewId, userId, updates, now)
  {
    assert UpdateOwned(rows, reviewId, userId, updates, now)[k] == ReviewPatched(rows[k], updates, now);
  }

  // ---------------------------------------------------------------- delete

  /** `DELETE FROM reviews WHERE id = $1 AND user_id = $2`. */
  function DeleteOwned(reviews: seq<Review>, id: Id, userId: Id): (r: seq<Review>)
    ensures forall x :: x in r <==> x in reviews && !Owned(x, id, userId)
    ensures |r| <= |reviews|
    decreases |reviews|
  {
    if reviews == [] then []
    else if Owned(reviews[0], id, userId) then DeleteOwned(reviews[1..], id, userId)
    else [reviews[0]] + DeleteOwned(reviews[1..], id, userId)
  }

  /** Deleting nothing owned leaves the table as it was; deleting an owned row shrinks it. */
  lemma DeleteOwnedSize(reviews: seq<Review>, id: Id, userId: Id)
    ensures !OwnedExists(reviews, id, userId) ==> DeleteOwned(reviews, id, userId) == reviews
    ensures OwnedExists(reviews, id, userId) ==> |DeleteOwned(reviews, id, userId)| < |reviews|
  {
    if OwnedExists(reviews, id, userId) {
      DeleteOwnedShrinks(reviews, id, userId);
    } else {
      DeleteNothingOwned(reviews, id, userId);
    }
  }

  lemma {:induction false} DeleteNothingOwned(reviews: seq<Review>, id: Id, userId: Id)
    requires !OwnedExists(reviews, id, userId)
    ensures DeleteOwned(reviews, id, userId) == reviews
    decreases |reviews|
  {
    if reviews != [] {
      assert !Owned(reviews[0], id, userId);
      OwnedExistsTail(reviews, id, userId);
      DeleteNothingOwned(reviews[1..], id, userId);
      assert reviews == [reviews[0]] + reviews[1..];
    }
  }

  lemma {:induction false} DeleteOwnedShrinks(reviews: seq<Review>, id: Id, userId: Id)
    requires OwnedExists(reviews, id, userId)
    ensures |DeleteOwned(reviews, id, userId)| < |reviews|
    decreases |reviews|
  {
    var rest := reviews[1..];
    if !Owned(reviews[0], id, userId) {
      OwnedExistsTail(reviews, id, userId);
      DeleteOwnedShrinks(rest, id, userId);
      assert DeleteOwned(reviews, id, userId) == [reviews[0]] + DeleteOwned(rest, id, userId);
    }
  }

  /** Past a row that is not the caller's, an owned row exists iff one exists in the rest. */
  lemma OwnedExistsTail(reviews: seq<Review>, id: Id, userId: Id)
    requires reviews != [] && !Owned(reviews[0], id, userId)
    ensures OwnedExists(reviews, id, userId) <==> OwnedExists(reviews[1..], id, userId)
  {
    if OwnedExists(reviews, id, userId) {
      var i :| 0 <= i < |reviews| && Owned(reviews[i], id, userId);
      assert reviews[1..][i - 1] == reviews[i];
    }
    if OwnedExists(reviews[1..], id, userId) {
      var i :| 0 <= i < |reviews[1..]| && Owned(reviews[1..][i], id, userId);
      assert reviews[i + 1] == reviews[1..][i];
    }
  }

  /** Deleting keeps the remaining rows and their integrity. */
  lemma {:induction false} DeleteOwnedKeepsTable(reviews: seq<Review>, nextId: nat, id: Id, userId: Id)
    requires ReviewsOk(reviews, nextId)
    ensures ReviewsOk(DeleteOwned(reviews, id, userId), nextId)
    decreases |reviews|
  {
    if reviews != [] {
      var tail := reviews[1..];
      ReviewsOkTail(reviews, nextId);
      DeleteOwnedKeepsTable(tail, nextId, id, userId);
      var rest := DeleteOwned(tail, id, userId);
      if !Owned(reviews[0], id, userId) {
        forall j | 0 <= j < |rest| ensures reviews[0].id != rest[j].id {
          assert rest[j] in tail;
          var k :| 0 <= k < |tail| && tail[k] == rest[j];
          assert reviews[k + 1] == rest[j];
        }
        ReviewsOkCons(reviews[0], rest, nextId);
        assert DeleteOwned(reviews, id, userId) == [reviews[0]] + rest;
      }
    }
  }

  /** Dropping the first row of a valid table leaves a valid table. */
  lemma ReviewsOkTail(reviews: seq<Review>, nextId: nat)
    requires ReviewsOk(reviews, nextId) && reviews != []
    ensures ReviewsOk(reviews[1..], nextId)
  {
    var tail := reviews[1..];
    forall i, j | 0 <= i < j < |tail| ensures tail[i].id != tail[j].id {
      assert tail[i] == reviews[i + 1] && tail[j] == reviews[j + 1];
    }
  }

  /** A valid row whose id no row of a valid table has can be put in front of it. */
  lemma ReviewsOkCons(x: Review, rest: seq<Review>, nextId: nat)
    requires ReviewsOk(rest, nextId) && ReviewsOk([x], nextId)
    requires forall j :: 0 <= j < |rest| ==> rest[j].id != x.id
    ensures ReviewsOk([x] + rest, nextId)
  {
    var r := [x] + rest;
    forall i | 0 <= i < |r| ensures r[i].id < nextId && 1 <= r[i].rating <= 5 && SubRatingsOk(r[i].subRatings) {
      if i > 0 { assert r[i] == rest[i - 1]; } else { assert r[0] == [x][0]; }
    }
    forall i, j | 0 <= i < j < |r| ensures r[i].id != r[j].id {
      if i > 0 { assert r[i] == rest[i - 1] && r[j] == rest[j - 1]; }
      else { assert r[j] == rest[j - 1]; }
    }
  }

  /**
   * `delete`: removes the row matching both the id and the owner and answers
   * whether one existed; otherwise nothing changes.
   */
  method Delete(db: Database, reviewId: Id, userId: Id) returns (deleted: bool)
    requires db.Valid()
    modifies db
    ensures db.Valid() && OnlyReviewTablesChanged(db) && db.votes == old(db.votes) && db.nextId == old(db.nextId)
    ensures db.reviews == DeleteOwned(old(db.reviews), reviewId, userId)
    ensures deleted <==> OwnedExists(old(db.reviews), reviewId, userId)
    ensures !deleted ==> db.reviews == old(db.reviews)
  {
    var rowCount := 0;
    var k := 0;
    while k < |db.reviews|
      invariant 0 <= k <= |db.reviews|
      invariant rowCount == 0 <==> forall i :: 0 <= i < k ==> !Owned(db.reviews[i], reviewId, userId)
    {
      if Owned(db.reviews[k], reviewId, userId) {
        rowCount := rowCount + 1;
      }
      k := k + 1;
    }
    DeleteOwnedSize(db.reviews, reviewId, userId);
    DeleteOwnedKeepsTable(db.reviews, db.nextId, reviewId, userId);
    db.reviews := DeleteOwned(db.reviews, reviewId, userId);
    deleted := rowCount > 0;
  }

  // ---------------------------------------------------------------- listings

  /** JavaScript's `n || d` on an optional number: absent (or NaN) and 0 fall back to `d`. */
  function NumberOr(o: Option<int>, d: int): (r: int)
    ensures o.None? || o.value == 0 ==> r == d
    ensures o.Some? && o.value != 0 ==> r == o.value
  {
    if o.Some? && o.value != 0 then o.value else d
  }

  const DefaultLimit := 10
  const DefaultOffset := 0

  /** The reviews of a user, of any status. */
  function ByUser(reviews: seq<Review>, userId: Id): (r: seq<Review>)
    ensures forall x :: x in r <==> x in reviews && x.userId == userId
    decreases |reviews|
  {
    if reviews == [] then []
    else (if reviews[0].userId == userId then [reviews[0]] else []) + ByUser(reviews[1..], userId)
  }

  datatype UserListing = UserListing(reviews: seq<Review>, total: nat)

  /**
   * `findByUser`: the user's reviews of every status newest first, `limit`
   * (default 10) of them from `offset` (default 0), and their total count.
   */
  function FindByUser(reviews: seq<Review>, userId: Id, limit: Option<int>, offset: Option<int>): (r: Result<UserListing>)
    ensures r.Err? <==> NumberOr(limit, DefaultLimit) < 0 || NumberOr(offset, DefaultOffset) < 0
  {
    var mine := ByUser(reviews, userId);
    match Page(Sort(NewestFirst, mine), NumberOr(limit, DefaultLimit), NumberOr(offset, DefaultOffset))
    case Err(m) => Err(m)
    case Ok(page) => Ok(UserListing(page, |mine|))
  }

  /**
   * The page of `findByUser` holds only that user's reviews, newest first, at
   * most `limit` (10 when 0 or absent) of them, and `total` counts all of them;
   * it is exactly the page from `offset` of all their reviews sorted newest first
   * (`ReviewOrder.SortedWindow` spells that page out row by row).
   */
  lemma FindByUserPage(reviews: seq<Review>, userId: Id, limit: Option<int>, offset: Option<int>)
    ensures FindByUser(reviews, userId, limit, offset).Err? <==>
      NumberOr(limit, DefaultLimit) < 0 || NumberOr(offset, DefaultOffset) < 0
    ensures var r := FindByUser(reviews, userId, limit, offset);
      r.Ok? ==>
        && r.value.total == |ByUser(reviews, userId)|
        && |r.value.reviews| <= NumberOr(limit, DefaultLimit)
        && (limit.None? ==> |r.value.reviews| <= 10)
        && Sorted(NewestFirst, r.value.reviews)
        && (forall x :: x in r.value.reviews ==> x in reviews && x.userId == userId)
        && var mine, lim, off := ByUser(reviews, userId), NumberOr(limit, DefaultLimit), NumberOr(offset, DefaultOffset);
           && r.value.reviews == Page(Sort(NewestFirst, mine), lim, off).value
           && |r.value.reviews| == (if off >= |mine| then 0 else Min(lim, |mine| - off))
  {
    FindByUserRows(reviews, userId, limit, offset);
    FindByUserWindow(reviews, userId, limit, offset);
  }

  /** The rows of a `findByUser` page: the user's own, newest first, at most `limit`. */
  lemma FindByUserRows(reviews: seq<Review>, userId: Id, limit: Option<int>, offset: Option<int>)
    ensures var r := FindByUser(reviews, userId, limit, offset);
      r.Ok? ==>
        && r.value.total == |ByUser(reviews, userId)|
        && |r.value.reviews| <= NumberOr(limit, DefaultLimit)
        && Sorted(NewestFirst, r.value.reviews)
        && (forall x :: x in r.value.reviews ==> x in reviews && x.userId == userId)
  {
    var mine := ByUser(reviews, userId);
    var lim, off := NumberOr(limit, DefaultLimit), NumberOr(offset, DefaultOffset);
    var paged := Page(Sort(NewestFirst, mine), lim, off);
    if paged.Ok? {
      assert FindByUser(reviews, userId, limit, offset) == Ok(UserListing(paged.value, |mine|));
      SortedPage(NewestFirst, mine, lim, off);
    }
  }

  /** Which rows a `findByUser` page holds: the page from `offset` of the user's reviews sorted newest first. */
  lemma FindByUserWindow(reviews: seq<Review>, userId: Id, limit: Option<int>, offset: Option<int>)
    ensures var r := FindByUser(reviews, userId, limit, offset);
      r.Ok? ==>
        var mine, lim, off := ByUser(reviews, userId), NumberOr(limit, DefaultLimit), NumberOr(offset, DefaultOffset);
        && r.value.reviews == Page(Sort(NewestFirst, mine), lim, off).value
        && |r.value.reviews| == (if off >= |mine| then 0 else Min(lim, |mine| - off))
  {
    var mine, lim, off := ByUser(reviews, userId), NumberOr(limit, DefaultLimit), NumberOr(offset, DefaultOffset);
    var r := FindByUser(reviews, userId, limit, offset);
    var paged := Page(Sort(NewestFirst, mine), lim, off);
    if r.Ok? {
      assert r.value.reviews == paged.value;
      SortedWindow(NewestFirst, mine, lim, off);
      assert |paged.value| == (if off >= |mine| then 0 else Min(lim, |mine| - off));
    }
  }

  /** The published reviews of a company: the rows `findByCompany` and `getStatistics` see. */
  function PublishedOf(reviews: seq<Review>, companyId: Id): (r: seq<Review>)
    ensures forall x :: x in r <==> x in reviews && x.companyId == companyId && x.status == Published
    ensures |r| <= |reviews|
    decreases |reviews|
  {
    if reviews == [] then []
    else (if reviews[0].companyId == companyId && reviews[0].status == Published then [reviews[0]] else [])
         + PublishedOf(reviews[1..], companyId)
  }

  /** The `ORDER BY` of `findByCompany` for the `sortBy` option: anything but 'helpful' or 'rating' is newest first. */
  function OrderFor(sortBy: Option<string>): (o: Ordering)
    ensures o == MostHelpfulFirst <==> sortBy == Some("helpful")
    ensures o == HighestRatedFirst <==> sortBy == Some("rating")
  {
    if sortBy == Some("helpful") then MostHelpfulFirst
    else if sortBy == Some("rating") then HighestRatedFirst
    else NewestFirst
  }

  /** A review with the author columns `findByCompany` selects. */
  datatype ListedReview = ListedReview(review: Review, author: Author)

  function WithAuthors(users: seq<User>, rows: seq<Review>): (r: seq<ListedReview>)
    ensures |r| == |rows|
    ensures forall i :: 0 <= i < |rows| ==> r[i] == ListedReview(rows[i], AuthorOf(users, rows[i].userId))
  {
    seq(|rows|, i requires 0 <= i < |rows| => ListedReview(rows[i], AuthorOf(users, rows[i].userId)))
  }

  /** Sum of the ratings: with `total`, what `AVG(rating)` is computed from. */
  function RatingSum(rows: seq<Review>): int
    decreases |rows|
  {
    if rows == [] then 0 else rows[0].rating + RatingSum(rows[1..])
  }

  datatype CompanyListing = CompanyListing(reviews: seq<ListedReview>, total: nat, ratingSum: int)

  /**
   * `findByCompany`: the company's published reviews in the chosen order,
   * `limit` of them from `offset`, with their count and rating sum.
   */
  function FindByCompany(db: Database, companyId: Id, limit: Option<int>, offset: Option<int>,
                         sortBy: Option<string>): (r: Result<CompanyListing>)
    reads db
    ensures r.Err? <==> NumberOr(limit, DefaultLimit) < 0 || NumberOr(offset, DefaultOffset) < 0
  {
    var published := PublishedOf(db.reviews, companyId);
    match Page(Sort(OrderFor(sortBy), published), NumberOr(limit, DefaultLimit), NumberOr(offset, DefaultOffset))
    case Err(m) => Err(m)
    case Ok(page) => Ok(CompanyListing(WithAuthors(db.users, page), |published|, RatingSum(published)))
  }

  /**
   * The page of `findByCompany` holds only the company's published reviews, in
   * the chosen order, at most `limit` of them; `total` counts all of them. It is
   * exactly the window from `offset` of all of them in that order, each with its
   * author's columns.
   */
  lemma FindByCompanyPage(db: Database, companyId: Id, limit: Option<int>, offset: Option<int>, sortBy: Option<string>)
    ensures FindByCompany(db, companyId, limit, offset, sortBy).Err? <==>
      NumberOr(limit, DefaultLimit) < 0 || NumberOr(offset, DefaultOffset) < 0
    ensures var r := FindByCompany(db, companyId, limit, offset, sortBy);
      r.Ok? ==>
        && r.value.total == |PublishedOf(db.reviews, companyId)|
        && |r.value.reviews| <= NumberOr(limit, DefaultLimit)
        && (forall i, j :: 0 <= i < j < |r.value.reviews| ==>
              Before(OrderFor(sortBy), r.value.reviews[i].review, r.value.reviews[j].review))
        && forall i :: 0 <= i < |r.value.reviews| ==>
              var x := r.value.reviews[i].review;
              x in db.reviews && x.companyId == companyId && x.status == Published
    ensures var r := FindByCompany(db, companyId, limit, offset, sortBy);
      r.Ok? ==>
        var sorted, lim, off := Sort(OrderFor(sortBy), PublishedOf(db.reviews, companyId)),
                                NumberOr(limit, DefaultLimit), NumberOr(offset, DefaultOffset);
        && |r.value.reviews| == (if off >= r.value.total then 0 else Min(lim, r.value.total - off))
        && forall i :: 0 <= i < |r.value.reviews| ==>
             off + i < |sorted| && r.value.reviews[i] == ListedReview(sorted[off + i], AuthorOf(db.users, sorted[off + i].userId))
  {
    var published := PublishedOf(db.reviews, companyId);
    var order, lim, off := OrderFor(sortBy), NumberOr(limit, DefaultLimit), NumberOr(offset, DefaultOffset);
    var paged := Page(Sort(order, published), lim, off);
    var r := FindByCompany(db, companyId, limit, offset, sortBy);
    assert r.Err? <==> paged.Err?;
    if paged.Ok? {
      SortedPage(order, published, lim, off);
      ListedFromPage(db.users, paged.value, order, db.reviews, companyId);
      assert r.value == CompanyListing(WithAuthors(db.users, paged.value), |published|, RatingSum(published));
    }
  }

  /** Listing a sorted page of published reviews with their authors keeps their order and origin. */
  lemma ListedFromPage(users: seq<User>, rows: seq<Review>, order: Ordering, reviews: seq<Review>, companyId: Id)
    requires Sorted(order, rows)
    requires forall x :: x in rows ==> x in PublishedOf(reviews, companyId)
    ensures var listed := WithAuthors(users, rows);
      && (forall i, j :: 0 <= i < j < |listed| ==> Before(order, listed[i].review, listed[j].review))
      && forall i :: 0 <= i < |listed| ==>
           var x := listed[i].review;
           x in reviews && x.companyId == companyId && x.status == Published
  {
    var listed := WithAuthors(users, rows);
    forall i | 0 <= i < |listed|
      ensures listed[i].review in reviews && listed[i].review.companyId == companyId
      ensures listed[i].review.status == Published
    {
      assert listed[i].review == rows[i] && rows[i] in rows;
    }
  }

  // ---------------------------------------------------------------- canUserReviewCompany

  /** `SELECT COUNT(*) FROM reviews WHERE user_id = $1 AND company_id = $2`. */
  function CountPair(reviews: seq<Review>, userId: Id, companyId: Id): nat
    decreases |reviews|
  {
    if reviews == [] then 0
    else (if reviews[0].userId == userId && reviews[0].companyId == companyId then 1 else 0)
         + CountPair(reviews[1..], userId, companyId)
  }

  /**
   * `canUserReviewCompany`: the count is zero, so a user may review a company
   * exactly when no review of theirs for it exists, whatever its status.
   */
  function CanUserReviewCompany(reviews: seq<Review>, userId: Id, companyId: Id): (can: bool)
    ensures can <==>
      forall i :: 0 <= i < |reviews| ==> reviews[i].userId != userId || reviews[i].companyId != companyId
  {
    NoPairIffCountZero(reviews, userId, companyId);
    CountPair(reviews, userId, companyId) == 0
  }

  /** The count of a (user, company) pair is zero exactly when no row has that pair. */
  lemma {:induction false} NoPairIffCountZero(reviews: seq<Review>, userId: Id, companyId: Id)
    ensures CountPair(reviews, userId, companyId) == 0 <==>
      forall i :: 0 <= i < |reviews| ==> reviews[i].userId != userId || reviews[i].companyId != companyId
    decreases |reviews|
  {
    if reviews != [] {
      NoPairIffCountZero(reviews[1..], userId, companyId);
      assert forall i :: 1 <= i < |reviews| ==> reviews[i] == reviews[1..][i - 1];
    }
  }

  // ---------------------------------------------------------------- getStatistics

  /** `COUNT(CASE WHEN rating = stars THEN 1 END)`. */
  function CountStars(rows: seq<Review>, stars: int): nat
    decreases |rows|
  {
    if rows == [] then 0 else (if rows[0].rating == stars then 1 else 0) + CountStars(rows[1..], stars)
  }

  /** The statistics row; `ratingSum` with `total` gives the average. */
  datatype Statistics = Statistics(total: nat, ratingSum: int, fiveStar: nat, fourStar: nat, threeStar: nat,
                                   twoStar: nat, oneStar: nat)

  /**
   * `getStatistics`: counts over the company's published reviews; no review
   * falls in two star buckets, so together they never exceed the total.
   */
  function GetStatistics(reviews: seq<Review>, companyId: Id): (s: Statistics)
    ensures s.total == |PublishedOf(reviews, companyId)| && s.total <= |reviews|
    ensures s.fiveStar + s.fourStar + s.threeStar + s.twoStar + s.oneStar <= s.total
  {
    var rows := PublishedOf(reviews, companyId);
    BucketsWithinRows(rows);
    Statistics(|rows|, RatingSum(rows), CountStars(rows, 5), CountStars(rows, 4), CountStars(rows, 3),
               CountStars(rows, 2), CountStars(rows, 1))
  }

  /** Each row is counted in at most one of the five buckets. */
  lemma {:induction false} BucketsWithinRows(rows: seq<Review>)
    ensures CountStars(rows, 5) + CountStars(rows, 4) + CountStars(rows, 3) + CountStars(rows, 2)
            + CountStars(rows, 1) <= |rows|
    decreases |rows|
  {
    if rows != [] {
      BucketsWithinRows(rows[1..]);
    }
  }

  /** Over rows rated 1..5 the five buckets partition the rows, and weight to the rating sum. */
  lemma {:induction false} BucketsPartition(rows: seq<Review>)
    requires forall i :: 0 <= i < |rows| ==> 1 <= rows[i].rating <= 5
    ensures CountStars(rows, 5) + CountStars(rows, 4) + CountStars(rows, 3) + CountStars(rows, 2)
            + CountStars(rows, 1) == |rows|
    ensures 5 * CountStars(rows, 5) + 4 * CountStars(rows, 4) + 3 * CountStars(rows, 3)
            + 2 * CountStars(rows, 2) + CountStars(rows, 1) == RatingSum(rows)
    decreases |rows|
  {
    if rows != [] {
      assert forall i :: 0 <= i < |rows[1..]| ==> rows[1..][i] == rows[i + 1];
      BucketsPartition(rows[1..]);
    }
  }

  /**
   * On a valid table the five star buckets of `getStatistics` sum to its total
   * and weight to its rating sum, and the total is the one `findByCompany` reports.
   */
  lemma StatisticsConsistent(db: Database, companyId: Id, limit: Option<int>, offset: Option<int>,
                             sortBy: Option<string>)
    requires db.Valid()
    ensures var s := GetStatistics(db.reviews, companyId);
      && s.fiveStar + s.fourStar + s.threeStar + s.twoStar + s.oneStar == s.total
      && 5 * s.fiveStar + 4 * s.fourStar + 3 * s.threeStar + 2 * s.twoStar + s.oneStar == s.ratingSum
      && (FindByCompany(db, companyId, limit, offset, sortBy).Ok? ==>
            FindByCompany(db, companyId, limit, offset, sortBy).value.total == s.total
            && FindByCompany(db, companyId, limit, offset, sortBy).value.ratingSum == s.ratingSum)
  {
    var rows := PublishedOf(db.reviews, companyId);
    forall i | 0 <= i < |rows| ensures 1 <= rows[i].rating <= 5 {
      assert rows[i] in db.reviews;
    }
    BucketsPartition(rows);
  }

  // ---------------------------------------------------------------- votes

  predicate VoteBy(v: Vote, reviewId: Id, userId: Id) {
    v.reviewId == reviewId && v.userId == userId
  }

  predicate HasVote(votes: seq<Vote>, reviewId: Id, userId: Id) {
    exists i :: 0 <= i < |votes| && VoteBy(votes[i], reviewId, userId)
  }

  /** `UPDATE review_votes SET is_helpful = $3, updated_at = CURRENT_TIMESTAMP WHERE review_id = $1 AND user_id = $2`. */
  function OverwriteVotes(votes: seq<Vote>, reviewId: Id, userId: Id, isHelpful: bool, now: Timestamp): (r: seq<Vote>)
    ensures |r| == |votes|
    ensures forall i :: 0 <= i < |votes| ==>
      r[i] == if VoteBy(votes[i], reviewId, userId) then votes[i].(isHelpful := isHelpful, updatedAt := now) else votes[i]
  {
    seq(|votes|, i requires 0 <= i < |votes| =>
      if VoteBy(votes[i], reviewId, userId) then votes[i].(isHelpful := isHelpful, updatedAt := now) else votes[i])
  }

  /** The vote table after `voteHelpful`: the existing vote overwritten, or a new one appended. */
  function UpsertVote(votes: seq<Vote>, reviewId: Id, userId: Id, isHelpful: bool, now: Timestamp): (r: seq<Vote>)
    ensures |r| == |votes| + (if HasVote(votes, reviewId, userId) then 0 else 1)
    ensures HasVote(r, reviewId, userId)
    ensures forall i :: 0 <= i < |r| && VoteBy(r[i], reviewId, userId) ==> r[i].isHelpful == isHelpful
    ensures forall i :: 0 <= i < |votes| && !VoteBy(votes[i], reviewId, userId) ==> r[i] == votes[i]
  {
    if HasVote(votes, reviewId, userId) then
      var k :| 0 <= k < |votes| && VoteBy(votes[k], reviewId, userId);
      var r := OverwriteVotes(votes, reviewId, userId, isHelpful, now);
      assert VoteBy(r[k], reviewId, userId);
      r
    else
      var r := votes + [Vote(reviewId, userId, isHelpful, now)];
      assert VoteBy(r[|votes|], reviewId, userId);
      r
  }

  /**
   * After a vote there is still at most one vote per (review, user), and the
   * voter's vote is the new one: a repeat vote overwrites rather than adds a row.
   */
  lemma UpsertVoteKeepsOnePerVoter(votes: seq<Vote>, reviewId: Id, userId: Id, isHelpful: bool, now: Timestamp)
    requires VoteKeysUnique(votes)
    ensures var r := UpsertVote(votes, reviewId, userId, isHelpful, now);
      && VoteKeysUnique(r)
      && |r| == |votes| + (if HasVote(votes, reviewId, userId) then 0 else 1)
      && (exists i :: 0 <= i < |r| && r[i] == Vote(reviewId, userId, isHelpful, now))
      && (forall i :: 0 <= i < |r| && VoteBy(r[i], reviewId, userId) ==> r[i].isHelpful == isHelpful)
      && (forall v :: v in votes && !VoteBy(v, reviewId, userId) ==> v in r)
  {
    var r := UpsertVote(votes, reviewId, userId, isHelpful, now);
    if HasVote(votes, reviewId, userId) {
      var k :| 0 <= k < |votes| && VoteBy(votes[k], reviewId, userId);
      assert votes[k] == Vote(reviewId, userId, votes[k].isHelpful, votes[k].updatedAt);
      assert r[k] == Vote(reviewId, userId, isHelpful, now);
      forall v | v in votes && !VoteBy(v, reviewId, userId) ensures v in r {
        var j :| 0 <= j < |votes| && votes[j] == v;
        assert r[j] == v;
      }
    } else {
      assert r[|votes|] == Vote(reviewId, userId, isHelpful, now);
    }
  }

  /** `COUNT(*) FROM review_votes WHERE review_id = $1 AND is_helpful = true`. */
  function CountHelpful(votes: seq<Vote>, reviewId: Id): (n: nat)
    ensures n <= |votes|
    decreases |votes|
  {
    if votes == [] then 0
    else (if votes[0].reviewId == reviewId && votes[0].isHelpful then 1 else 0) + CountHelpful(votes[1..], reviewId)
  }

  /** `UPDATE reviews SET helpful_count = count WHERE id = $1`: no other column or row changes. */
  function RecountHelpful(reviews: seq<Review>, reviewId: Id, count: nat): (r: seq<Review>)
    ensures |r| == |reviews|
    ensures forall i :: 0 <= i < |reviews| ==>
      r[i] == if reviews[i].id == reviewId then reviews[i].(helpfulCount := count) else reviews[i]
  {
    seq(|reviews|, i requires 0 <= i < |reviews| =>
      if reviews[i].id == reviewId then reviews[i].(helpfulCount := count) else reviews[i])
  }

  lemma RecountKeepsTable(reviews: seq<Review>, nextId: nat, reviewId: Id, count: nat)
    requires ReviewsOk(reviews, nextId)
    ensures ReviewsOk(RecountHelpful(reviews, reviewId, count), nextId)
  {
  }

  /** `updateHelpfulCount`: recounts `helpful_count` of the review from the vote table. */
  method UpdateHelpfulCount(db: Database, reviewId: Id)
    requires db.Valid()
    modifies db
    ensures db.Valid() && OnlyReviewTablesChanged(db) && db.votes == old(db.votes) && db.nextId == old(db.nextId)
    ensures db.reviews == RecountHelpful(old(db.reviews), reviewId, CountHelpful(db.votes, reviewId))
  {
    var count := 0;
    var k := 0;
    while k < |db.votes|
      invariant 0 <= k <= |db.votes|
      invariant count + CountHelpful(db.votes[k..], reviewId) == CountHelpful(db.votes, reviewId)
    {
      assert db.votes[k..][1..] == db.votes[k + 1..];
      if db.votes[k].reviewId == reviewId && db.votes[k].isHelpful {
        count := count + 1;
      }
      k := k + 1;
    }
    RecountKeepsTable(db.reviews, db.nextId, reviewId, count);
    db.reviews := RecountHelpful(db.reviews, reviewId, count);
  }

  /**
   * `voteHelpful`: overwrites the caller's vote on the review, or inserts it,
   * then recounts the review's `helpful_count` from the votes.
   */
  method VoteHelpful(db: Database, reviewId: Id, userId: Id, isHelpful: bool, now: Timestamp)
    requires db.Valid()
    modifies db
    ensures db.Valid() && OnlyReviewTablesChanged(db) && db.nextId == old(db.nextId)
    ensures db.votes == UpsertVote(old(db.votes), reviewId, userId, isHelpful, now)
    ensures db.reviews == RecountHelpful(old(db.reviews), reviewId, CountHelpful(db.votes, reviewId))
  {
    UpsertVoteKeepsOnePerVoter(db.votes, reviewId, userId, isHelpful, now);
    var found := false;
    var k := 0;
    while k < |db.votes|
      invariant 0 <= k <= |db.votes|
      invariant found <==> exists i :: 0 <= i < k && VoteBy(db.votes[i], reviewId, userId)
    {
      if VoteBy(db.votes[k], reviewId, userId) {
        found := true;
      }
      k := k + 1;
    }
    if found {
      db.votes := OverwriteVotes(db.votes, reviewId, userId, isHelpful, now);
    } else {
      db.votes := db.votes + [Vote(reviewId, userId, isHelpful, now)];
    }
    UpdateHelpfulCount(db, reviewId);
  }

  /**
   * After a vote the review's `helpful_count` is the number of helpful votes on
   * it, and its `not_helpful_count` and every other review are unchanged.
   */
  lemma VoteRecountsHelpful(reviews: seq<Review>, votes: seq<Vote>, reviewId: Id, k: nat)
    requires k < |reviews|
    ensures var r := RecountHelpful(reviews, reviewId, CountHelpful(votes, reviewId));
      && (reviews[k].id == reviewId ==> r[k].helpfulCount == CountHelpful(votes, reviewId))
      && r[k].notHelpfulCount == reviews[k].notHelpfulCount
      && (reviews[k].id != reviewId ==> r[k] == reviews[k])
  {
  }

  /**
   * A vote moves the helpful count of its review by the change in the voter's
   * own vote: +1 for a new helpful vote, -1 for a helpful vote turned unhelpful.
   */
  lemma {:induction false} UpsertChangesCountByOwnVote(votes: seq<Vote>, reviewId: Id, userId: Id, isHelpful: bool,
                                                       now: Timestamp)
    requires VoteKeysUnique(votes)
    ensures var before := CountHelpful(votes, reviewId);
      var after := CountHelpful(UpsertVote(votes, reviewId, userId, isHelpful, now), reviewId);
      after == before - (if HelpfulVoteOf(votes, reviewId, userId) then 1 else 0) + (if isHelpful then 1 else 0)
  {
    if HasVote(votes, reviewId, userId) {
      OverwriteCount(votes, reviewId, userId, isHelpful, now);
    } else {
      CountHelpfulAppend(votes, Vote(reviewId, userId, isHelpful, now), reviewId);
      NoVoteNoHelpfulVote(votes, reviewId, userId);
    }
  }

  /** The voter currently has a helpful vote on the review. */
  predicate HelpfulVoteOf(votes: seq<Vote>, reviewId: Id, userId: Id) {
    exists i :: 0 <= i < |votes| && VoteBy(votes[i], reviewId, userId) && votes[i].isHelpful
  }

  lemma NoVoteNoHelpfulVote(votes: seq<Vote>, reviewId: Id, userId: Id)
    requires !HasVote(votes, reviewId, userId)
    ensures !HelpfulVoteOf(votes, reviewId, userId)
  {
  }

  lemma {:induction false} CountHelpfulAppend(votes: seq<Vote>, v: Vote, reviewId: Id)
    ensures CountHelpful(votes + [v], reviewId) == CountHelpful(votes, reviewId) + (if v.reviewId == reviewId && v.isHelpful then 1 else 0)
    decreases |votes|
  {
    if votes == [] {
      assert [] + [v] == [v];
    } else {
      assert (votes + [v])[1..] == votes[1..] + [v];
      CountHelpfulAppend(votes[1..], v, reviewId);
    }
  }

  lemma {:induction false} OverwriteCount(votes: seq<Vote>, reviewId: Id, userId: Id, isHelpful: bool, now: Timestamp)
    requires VoteKeysUnique(votes) && HasVote(votes, reviewId, userId)
    ensures CountHelpful(OverwriteVotes(votes, reviewId, userId, isHelpful, now), reviewId)
         == CountHelpful(votes, reviewId) - (if HelpfulVoteOf(votes, reviewId, userId) then 1 else 0) + (if isHelpful then 1 else 0)
    decreases |votes|
  {
    var r := OverwriteVotes(votes, reviewId, userId, isHelpful, now);
    var tail := votes[1..];
    VoteKeysUniqueTail(votes);
    assert r[1..] == OverwriteVotes(tail, reviewId, userId, isHelpful, now);
    if VoteBy(votes[0], reviewId, userId) {
      FirstVoteIsTheOnlyOne(votes, reviewId, userId);
      assert OverwriteVotes(tail, reviewId, userId, isHelpful, now) == tail;
    } else {
      VotesPastFirst(votes, reviewId, userId);
      OverwriteCount(tail, reviewId, userId, isHelpful, now);
    }
  }

  lemma VoteKeysUniqueTail(votes: seq<Vote>)
    requires VoteKeysUnique(votes) && votes != []
    ensures VoteKeysUnique(votes[1..])
  {
    var tail := votes[1..];
    forall i, j | 0 <= i < j < |tail|
      ensures tail[i].reviewId != tail[j].reviewId || tail[i].userId != tail[j].userId
    {
      assert tail[i] == votes[i + 1] && tail[j] == votes[j + 1];
    }
  }

  /** With one vote per voter, a voter whose vote comes first has no other vote. */
  lemma FirstVoteIsTheOnlyOne(votes: seq<Vote>, reviewId: Id, userId: Id)
    requires VoteKeysUnique(votes) && votes != [] && VoteBy(votes[0], reviewId, userId)
    ensures !HasVote(votes[1..], reviewId, userId)
    ensures HelpfulVoteOf(votes, reviewId, userId) <==> votes[0].isHelpful
  {
    var tail := votes[1..];
    forall i | 0 <= i < |tail| ensures !VoteBy(tail[i], reviewId, userId) {
      assert tail[i] == votes[i + 1];
    }
    if HelpfulVoteOf(votes, reviewId, userId) {
      var i :| 0 <= i < |votes| && VoteBy(votes[i], reviewId, userId) && votes[i].isHelpful;
      assert i == 0;
    }
  }

  /** Past a vote of someone else, the voter's vote is in the rest. */
  lemma VotesPastFirst(votes: seq<Vote>, reviewId: Id, userId: Id)
    requires votes != [] && !VoteBy(votes[0], reviewId, userId)
    ensures HasVote(votes, reviewId, userId) <==> HasVote(votes[1..], reviewId, userId)
    ensures HelpfulVoteOf(votes, reviewId, userId) <==> HelpfulVoteOf(votes[1..], reviewId, userId)
  {
    var tail := votes[1..];
    if HasVote(votes, reviewId, userId) {
      var i :| 0 <= i < |votes| && VoteBy(votes[i], reviewId, userId);
      assert tail[i - 1] == votes[i];
    }
    if HasVote(tail, reviewId, userId) {
      var i :| 0 <= i < |tail| && VoteBy(tail[i], reviewId, userId);
      assert votes[i + 1] == tail[i];
    }
    if HelpfulVoteOf(votes, reviewId, userId) {
      var j :| 0 <= j < |votes| && VoteBy(votes[j], reviewId, userId) && votes[j].isHelpful;
      assert tail[j - 1] == votes[j];
    }
    if HelpfulVoteOf(tail, reviewId, userId) {
      var j :| 0 <= j < |tail| && VoteBy(tail[j], reviewId, userId) && tail[j].isHelpful;
      assert votes[j + 1] == tail[j];
    }
  }
}
