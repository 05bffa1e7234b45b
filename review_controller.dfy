/**
 * `ReviewController`: the review handlers. Each one takes the authenticated
 * caller (`req.user`, absent without a valid token) and the request's
 * parameters, calls the stores in order and returns the reply it sends.
 */
module ReviewController {
  import opened Common
  import opened Http
  import opened Schema
  import opened JwtUtils
  import ReviewOrder
  import ReviewModel
  import UserModel

  /** The pagination block of a listing. */
  datatype Pagination = Pagination(total: nat, limit: int, offset: int, hasMore: bool)

  /** The `data` of a successful reply. */
  datatype Payload =
    | NoData
    | Details(review: Option<ReviewModel.ReviewDetails>)
    | UserReviews(reviews: seq<Review>, pagination: Pagination)
    | CompanyReviews(listed: seq<ReviewModel.ListedReview>, ratingSum: int, pagination: Pagination)
    | Stats(statistics: ReviewModel.Statistics)

  function Unauthorized(): Reply<Payload> {
    Fail(401, "Unauthorized", "Authentication required")
  }

  function DuplicateReview(): Reply<Payload> {
    Fail(409, "Duplicate review", "You have already reviewed this company")
  }

  function CreateFailed(): Reply<Payload> {
    Fail(500, "Failed to create review", "An error occurred while creating the review")
  }

  function UpdateNotFound(): Reply<Payload> {
    Fail(404, "Review not found", "Review not found or you do not have permission to update it")
  }

  /** The catch block of `update`: the store's not-found error is a 404, any other error a 500. */
  function UpdateError(message: string): (reply: Reply<Payload>)
    ensures reply.status == 404 <==> message == ReviewModel.NotFoundOrUnauthorized
    ensures reply.status != 404 ==> reply.status == 500 && reply.Failure?
  {
    if message == ReviewModel.NotFoundOrUnauthorized then UpdateNotFound()
    else Fail(500, "Failed to update review", "An error occurred while updating the review")
  }

  function DeleteNotFound(): Reply<Payload> {
    Fail(404, "Review not found", "Review not found or you do not have permission to delete it")
  }

  function ListingFailed(): Reply<Payload> {
    Fail(500, "Failed to get reviews", "An error occurred while fetching reviews")
  }

  /**
   * `create`: 401 without a caller; 409 when the caller already reviewed the
   * company; otherwise inserts the review, raises the caller's `total_reviews`
   * and answers 201 with the stored review. The counter moves exactly when a
   * review is inserted, and one review per (user, company) is kept.
   */
  method Create(db: Database, user: Option<Claims>, input: ReviewModel.ReviewInput, now: Timestamp)
    returns (reply: Reply<Payload>)
    requires db.Valid() && 1 <= input.rating <= 5
    modifies db
    ensures db.Valid() && db.votes == old(db.votes) && db.companies == old(db.companies)
    ensures user.None? ==> reply == Unauthorized()
    ensures user.Some? && !ReviewModel.CanUserReviewCompany(old(db.reviews), user.value.userId, input.companyId) ==>
      reply == DuplicateReview()
    ensures reply.status == 201 <==>
      && user.Some?
      && ReviewModel.CanUserReviewCompany(old(db.reviews), user.value.userId, input.companyId)
      && SubRatingsOk(ReviewModel.StoredSubRatings(input.subRatings))
    ensures reply.status == 201 ==>
      && db.reviews == old(db.reviews) + [ReviewModel.NewReview(old(db.nextId), user.value.userId, input, now)]
      && db.users == UserModel.UpdateUsers(old(db.users), user.value.userId, UserModel.IncrementReviews)
      && reply == Success(201, "Review created successfully", Details(ReviewModel.FindById(db, old(db.nextId))))
      && reply.data.review.Some?
    ensures reply.status != 201 ==> db.reviews == old(db.reviews) && db.users == old(db.users)
    ensures reply.status !in {201, 401, 409} ==> reply == CreateFailed()
    ensures OneReviewPerPair(old(db.reviews)) ==> OneReviewPerPair(db.reviews)
  {
    if user.None? {
      return Unauthorized();
    }
    var userId := user.value.userId;
    var canReview := ReviewModel.CanUserReviewCompany(db.reviews, userId, input.companyId);
    if !canReview {
      return DuplicateReview();
    }
    reply := CreateFor(db, userId, input, now);
  }

  /**
   * The part of `create` after the duplicate check: a stored review raises the
   * caller's `total_reviews` and is answered 201; a row refused by the table's
   * CHECK constraints changes nothing and is answered 500.
   */
  method CreateFor(db: Database, userId: Id, input: ReviewModel.ReviewInput, now: Timestamp)
    returns (reply: Reply<Payload>)
    requires db.Valid() && 1 <= input.rating <= 5
    requires forall i :: 0 <= i < |db.reviews| ==>
      db.reviews[i].userId != userId || db.reviews[i].companyId != input.companyId
    modifies db
    ensures db.Valid() && db.votes == old(db.votes) && db.companies == old(db.companies)
    ensures reply.status == 201 <==> SubRatingsOk(ReviewModel.StoredSubRatings(input.subRatings))
    ensures reply.status == 201 ==>
      && db.reviews == old(db.reviews) + [ReviewModel.NewReview(old(db.nextId), userId, input, now)]
      && db.users == UserModel.UpdateUsers(old(db.users), userId, UserModel.IncrementReviews)
      && reply == Success(201, "Review created successfully", Details(ReviewModel.FindById(db, old(db.nextId))))
      && reply.data.review.Some?
    ensures reply.status != 201 ==>
      reply == CreateFailed() && db.reviews == old(db.reviews) && db.users == old(db.users)
    ensures OneReviewPerPair(old(db.reviews)) ==> OneReviewPerPair(db.reviews)
  {
    ghost var before, firstId := db.reviews, db.nextId;
    var review := ReviewModel.Create(db, userId, input, now);
    if review.Err? {
      return CreateFailed();
    }
    assert db.reviews == before + [review.value];
    OnePerPairKept(before, review.value);
    UserModel.IncrementReviewCount(db, userId);
    ReviewModel.CreatedReviewIsFound(before, firstId, review.value);
    var fullReview := ReviewModel.FindById(db, review.value.id);
    assert fullReview.Some? by {
      assert ReviewModel.FindReview(db.reviews, review.value.id).Some?;
    }
    reply := Success(201, "Review created successfully", Details(fullReview));
  }

  /** Appending a review of a (user, company) pair with no review yet keeps one review per pair. */
  lemma OnePerPairKept(reviews: seq<Review>, r: Review)
    requires forall i :: 0 <= i < |reviews| ==> reviews[i].userId != r.userId || reviews[i].companyId != r.companyId
    ensures OneReviewPerPair(reviews) ==> OneReviewPerPair(reviews + [r])
  {
  }

  /** `getById`: 404 exactly when no review has the id, otherwise 200 with it. */
  method GetById(db: Database, reviewId: Id) returns (reply: Reply<Payload>)
    ensures reply.status == 404 <==> ReviewModel.FindById(db, reviewId).None?
    ensures reply.status == 404 ==> reply == Fail(404, "Review not found", "The requested review does not exist")
    ensures reply.status != 404 ==> reply == Success(200, "", Details(ReviewModel.FindById(db, reviewId)))
  {
    var review := ReviewModel.FindById(db, reviewId);
    if review.None? {
      return Fail(404, "Review not found", "The requested review does not exist");
    }
    reply := Success(200, "", Details(review));
  }

  /**
   * `update`: 401 without a caller; 404 when the caller owns no review with the
   * id (nothing changes); otherwise 200 with the updated review.
   */
  method Update(db: Database, user: Option<Claims>, reviewId: Id, updates: ReviewModel.ReviewPatch, now: Timestamp)
    returns (reply: Reply<Payload>)
    requires db.Valid()
    requires updates.rating.Some? ==> 1 <= updates.rating.value <= 5
    modifies db
    ensures db.Valid() && OnlyReviewTablesChanged(db) && db.votes == old(db.votes)
    ensures user.None? ==> reply == Unauthorized() && db.reviews == old(db.reviews)
    ensures user.Some? ==>
      && db.reviews == ReviewModel.UpdateOwned(old(db.reviews), reviewId, user.value.userId, updates, now)
      && (reply.status == 404 <==> !ReviewModel.OwnedExists(old(db.reviews), reviewId, user.value.userId))
      && (reply.status == 404 ==> reply == UpdateNotFound() && db.reviews == old(db.reviews))
      && (reply.status != 404 ==>
            reply == Success(200, "Review updated successfully", Details(ReviewModel.FindById(db, reviewId))))
  {
    if user.None? {
      return Unauthorized();
    }
    var updated := ReviewModel.Update(db, reviewId, user.value.userId, updates, now);
    if updated.Err? {
      return UpdateError(updated.message);
    }
    var fullReview := ReviewModel.FindById(db, updated.value.id);
    reply := Success(200, "Review updated successfully", Details(fullReview));
  }

  /**
   * `delete`: 401 without a caller; 404 when the caller owns no review with the
   * id (nothing changes); otherwise the review is removed and the answer is 200.
   */
  method Delete(db: Database, user: Option<Claims>, reviewId: Id) returns (reply: Reply<Payload>)
    requires db.Valid()
    modifies db
    ensures db.Valid() && OnlyReviewTablesChanged(db) && db.votes == old(db.votes)
    ensures user.None? ==> reply == Unauthorized() && db.reviews == old(db.reviews)
    ensures user.Some? ==>
      && db.reviews == ReviewModel.DeleteOwned(old(db.reviews), reviewId, user.value.userId)
      && (reply.status == 404 <==> !ReviewModel.OwnedExists(old(db.reviews), reviewId, user.value.userId))
      && (reply.status == 404 ==> reply == DeleteNotFound() && db.reviews == old(db.reviews))
      && (reply.status != 404 ==> reply == Success(200, "Review deleted successfully", NoData))
  {
    if user.None? {
      return Unauthorized();
    }
    var deleted := ReviewModel.Delete(db, reviewId, user.value.userId);
    if !deleted {
      return DeleteNotFound();
    }
    reply := Success(200, "Review deleted successfully", NoData);
  }

  /** `parseInt(param) || d`: an absent or unparsable parameter (NaN) and 0 give `d`. */
  function ParamOr(param: Option<int>, d: int): int {
    ReviewModel.NumberOr(param, d)
  }

  /** `hasMore` says whether rows remain after the page: exactly when the page ends before `total`. */
  lemma HasMoreIffRowsRemain<T>(rows: seq<T>, limit: int, offset: int)
    requires ReviewOrder.Page(rows, limit, offset).Ok?
    ensures (offset + limit < |rows|) <==> offset + |ReviewOrder.Page(rows, limit, offset).value| < |rows|
  {
  }

  /**
   * `getByUser`: limit 10 and offset 0 unless given; 200 with the user's page
   * and `hasMore = offset + limit < total`, or 500 when the database refuses a
   * negative limit or offset.
   */
  method GetByUser(db: Database, userId: Id, limitParam: Option<int>, offsetParam: Option<int>)
    returns (reply: Reply<Payload>)
    ensures var limit := ParamOr(limitParam, 10);
      var offset := ParamOr(offsetParam, 0);
      var result := ReviewModel.FindByUser(db.reviews, userId, Some(limit), Some(offset));
      && (reply.status == 500 <==> limit < 0 || offset < 0)
      && (reply.status == 500 ==> reply == ListingFailed())
      && (reply.status != 500 ==>
            && result.Ok?
            && reply == Success(200, "", UserReviews(result.value.reviews,
                 Pagination(result.value.total, limit, offset, offset + limit < result.value.total))))
  {
    var limit := ParamOr(limitParam, 10);
    var offset := ParamOr(offsetParam, 0);
    var result := ReviewModel.FindByUser(db.reviews, userId, Some(limit), Some(offset));
    ReviewModel.FindByUserPage(db.reviews, userId, Some(limit), Some(offset));
    if result.Err? {
      return ListingFailed();
    }
    reply := Success(200, "", UserReviews(result.value.reviews,
      Pagination(result.value.total, limit, offset, offset + limit < result.value.total)));
  }

  /**
   * `getByCompany`: as `getByUser` over the company's published reviews in the
   * order `sortBy` names ('recent' unless given), with their rating sum.
   */
  method GetByCompany(db: Database, companyId: Id, limitParam: Option<int>, offsetParam: Option<int>,
                      sortBy: Option<string>)
    returns (reply: Reply<Payload>)
    ensures var limit := ParamOr(limitParam, 10);
      var offset := ParamOr(offsetParam, 0);
      var result := ReviewModel.FindByCompany(db, companyId, Some(limit), Some(offset), sortBy);
      && (reply.status == 500 <==> limit < 0 || offset < 0)
      && (reply.status == 500 ==> reply == ListingFailed())
      && (reply.status != 500 ==>
            && result.Ok?
            && reply == Success(200, "", CompanyReviews(result.value.reviews, result.value.ratingSum,
                 Pagination(result.value.total, limit, offset, offset + limit < result.value.total))))
  {
    var limit := ParamOr(limitParam, 10);
    var offset := ParamOr(offsetParam, 0);
    var result := ReviewModel.FindByCompany(db, companyId, Some(limit), Some(offset), sortBy);
    ReviewModel.FindByCompanyPage(db, companyId, Some(limit), Some(offset), sortBy);
    if result.Err? {
      return ListingFailed();
    }
    reply := Success(200, "", CompanyReviews(result.value.reviews, result.value.ratingSum,
      Pagination(result.value.total, limit, offset, offset + limit < result.value.total)));
  }

  /** `voteHelpful`: 401 without a caller, otherwise records the vote and answers 200. */
  method VoteHelpful(db: Database, user: Option<Claims>, reviewId: Id, isHelpful: bool, now: Timestamp)
    returns (reply: Reply<Payload>)
    requires db.Valid()
    modifies db
    ensures db.Valid() && OnlyReviewTablesChanged(db)
    ensures user.None? ==> reply == Unauthorized() && db.reviews == old(db.reviews) && db.votes == old(db.votes)
    ensures user.Some? ==>
      && db.votes == ReviewModel.UpsertVote(old(db.votes), reviewId, user.value.userId, isHelpful, now)
      && db.reviews == ReviewModel.RecountHelpful(old(db.reviews), reviewId, ReviewModel.CountHelpful(db.votes, reviewId))
      && reply == Success(200, "Vote recorded successfully", NoData)
  {
    if user.None? {
      return Unauthorized();
    }
    ReviewModel.VoteHelpful(db, reviewId, user.value.userId, isHelpful, now);
    reply := Success(200, "Vote recorded successfully", NoData);
  }

  /**
   * `getStatistics`: 200 with the company's statistics; on a valid table their
   * five buckets add up to the total.
   */
  method GetStatistics(db: Database, companyId: Id) returns (reply: Reply<Payload>)
    requires db.Valid()
    ensures reply.Success? && reply.status == 200 && reply.data.Stats?
    ensures reply.data.statistics == ReviewModel.GetStatistics(db.reviews, companyId)
    ensures var s := reply.data.statistics;
      s.fiveStar + s.fourStar + s.threeStar + s.twoStar + s.oneStar == s.total
  {
    var stats := ReviewModel.GetStatistics(db.reviews, companyId);
    ReviewModel.StatisticsConsistent(db, companyId, None, None, None);
    reply := Success(200, "", Stats(stats));
  }
}
