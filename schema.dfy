/**
 * The rows of the `users`, `reviews`, `review_votes` and `companies` tables, the
 * enumerated column types, and the database itself: one object holding the four
 * tables, which the store operations update in place.
 */
module Schema {
  import opened Common

  /** `users.role`: 'user' | 'business_owner' | 'admin' | 'moderator'. */
  datatype Role = RegularUser | BusinessOwner | Admin | Moderator

  /** `reviews.review_type`, restricted by the migration's CHECK constraint. */
  datatype ReviewType = Customer | Employee | Business

  /** `reviews.employment_status`, restricted by the migration's CHECK constraint. */
  datatype EmploymentStatus = Current | Former | Contract | Intern

  /** `reviews.status`. */
  datatype ReviewStatus = Draft | Pending | Published | Flagged | Removed

  /** A row of `users`. */
  datatype User = User(
    id: Id,
    email: string,
    passwordHash: string,
    fullName: string,
    profileImageUrl: Option<string>,
    role: Role,
    bio: Option<string>,
    location: Option<string>,
    website: Option<string>,
    emailVerified: bool,
    isVerifiedReviewer: bool,
    verificationBadge: Option<string>,
    totalReviews: nat,
    helpfulVotesReceived: nat,
    trustScore: real,
    linkedinUrl: Option<string>,
    twitterHandle: Option<string>,
    isActive: bool,
    isBanned: bool,
    banReason: Option<string>,
    bannedAt: Option<Timestamp>,
    createdAt: Timestamp,
    updatedAt: Timestamp,
    lastLoginAt: Option<Timestamp>)

  /** The five optional 1..5 sub-ratings of an employee review. */
  datatype SubRatings = SubRatings(
    workLifeBalance: Option<int>,
    compensation: Option<int>,
    culture: Option<int>,
    management: Option<int>,
    careerOpportunities: Option<int>)

  /** A row of `reviews`. */
  datatype Review = Review(
    id: Id,
    userId: Id,
    companyId: Id,
    rating: int,
    title: string,
    content: string,
    pros: Option<string>,
    cons: Option<string>,
    experienceDate: Option<string>,
    reviewType: ReviewType,
    employmentStatus: Option<EmploymentStatus>,
    jobTitle: Option<string>,
    subRatings: SubRatings,
    status: ReviewStatus,
    helpfulCount: nat,
    notHelpfulCount: nat,
    edited: bool,
    createdAt: Timestamp,
    updatedAt: Timestamp)

  /** A row of `review_votes`. */
  datatype Vote = Vote(reviewId: Id, userId: Id, isHelpful: bool, updatedAt: Timestamp)

  /** A row of `companies` (read-only here). */
  datatype Company = Company(id: Id, name: string, logoUrl: Option<string>)

  /** The status a new review row receives from the column default. */
  const DefaultReviewStatus: ReviewStatus := Published

  /** A sub-rating satisfies its CHECK constraint: NULL or 1..5. */
  predicate SubRatingOk(r: Option<int>) {
    r.None? || 1 <= r.value <= 5
  }

  predicate SubRatingsOk(s: SubRatings) {
    SubRatingOk(s.workLifeBalance) && SubRatingOk(s.compensation) && SubRatingOk(s.culture)
    && SubRatingOk(s.management) && SubRatingOk(s.careerOpportunities)
  }

  /** The integrity constraints of the `users` table: primary key and unique email. */
  ghost predicate UsersOk(users: seq<User>, nextId: nat) {
    && (forall i :: 0 <= i < |users| ==> users[i].id < nextId)
    && (forall i, j :: 0 <= i < j < |users| ==> users[i].id != users[j].id)
    && (forall i, j :: 0 <= i < j < |users| ==> users[i].email != users[j].email)
  }

  /** The integrity constraints of the `reviews` table: primary key and the rating CHECKs. */
  ghost predicate ReviewsOk(reviews: seq<Review>, nextId: nat) {
    && (forall i :: 0 <= i < |reviews| ==> reviews[i].id < nextId)
    && (forall i, j :: 0 <= i < j < |reviews| ==> reviews[i].id != reviews[j].id)
    && (forall i :: 0 <= i < |reviews| ==> 1 <= reviews[i].rating <= 5 && SubRatingsOk(reviews[i].subRatings))
  }

  /** At most one vote row per (review_id, user_id). */
  ghost predicate VoteKeysUnique(votes: seq<Vote>) {
    forall i, j :: 0 <= i < j < |votes| ==>
      votes[i].reviewId != votes[j].reviewId || votes[i].userId != votes[j].userId
  }

  /** At most one review per (user_id, company_id): the rule the review controller keeps. */
  ghost predicate OneReviewPerPair(reviews: seq<Review>) {
    forall i, j :: 0 <= i < j < |reviews| ==>
      reviews[i].userId != reviews[j].userId || reviews[i].companyId != reviews[j].companyId
  }

  /** Between two states, only the `users` table (and the id counter) changed. */
  twostate predicate OnlyUsersChanged(db: Database)
    reads db
  {
    db.reviews == old(db.reviews) && db.votes == old(db.votes) && db.companies == old(db.companies)
  }

  /** Between two states, only `reviews`, `review_votes` (and the id counter) changed. */
  twostate predicate OnlyReviewTablesChanged(db: Database)
    reads db
  {
    db.users == old(db.users) && db.companies == old(db.companies)
  }

  /** The PostgreSQL database behind the connection pool. */
  class Database {
    var users: seq<User>
    var reviews: seq<Review>
    var votes: seq<Vote>
    var companies: seq<Company>
    /** The next identifier the database hands out. */
    var nextId: nat

    ghost predicate Valid()
      reads this
    {
      UsersOk(users, nextId) && ReviewsOk(reviews, nextId) && VoteKeysUnique(votes)
    }

    /** An empty database whose company catalogue is `companies`. */
    constructor (companies: seq<Company>)
      ensures Valid()
      ensures users == [] && reviews == [] && votes == [] && this.companies == companies
    {
      users, reviews, votes := [], [], [];
      this.companies := companies;
      nextId := 0;
    }
  }
}
