/**
 * A facility review: its ratings and the `averageRating` virtual, the helpful
 * votes that `markHelpful` and `unmarkHelpful` maintain, and the reports that
 * `report` collects and that send a review to moderation.
 *
 * Each document method is a method of `Review` proved against a function on
 * the fields it changes; the lemmas are stated on those functions.
 */
module Reviews {
  import opened Common

  /** `rating`: `overall` is required, the other four may be absent. */
  datatype Ratings = Ratings(
    overall: real,
    cleanliness: Option<real>,
    facilities: Option<real>,
    staff: Option<real>,
    valueForMoney: Option<real>)

  datatype ReviewStatus = ReviewActive | Hidden | PendingModeration | Removed

  /** `helpfulVotes`: a counter and the users who voted. */
  datatype HelpfulVotes = HelpfulVotes(count: int, users: seq<Id>)

  datatype Report = Report(user: Id, reason: string, description: string, reportedAt: int)

  datatype ReviewError = AlreadyMarkedHelpful | NotMarkedHelpful | AlreadyReported | SaveRejected

  /** The reasons the schema's enum admits. */
  predicate ValidReason(reason: string) {
    reason == "spam" || reason == "inappropriate" || reason == "fake" || reason == "offensive" || reason == "other"
  }

  /** A report count at which a review goes to moderation. */
  const ModerationThreshold: nat := 3

  // ---------------------------------------------------------------------------
  // averageRating
  // ---------------------------------------------------------------------------

  /** The ratings that are present, in the order the virtual lists them. */
  function PresentRatings(r: Ratings): (xs: seq<real>)
    ensures 1 <= |xs| <= 5 && xs[0] == r.overall
  {
    [r.overall] +
    (if r.cleanliness.Some? then [r.cleanliness.value] else []) +
    (if r.facilities.Some? then [r.facilities.value] else []) +
    (if r.staff.Some? then [r.staff.value] else []) +
    (if r.valueForMoney.Some? then [r.valueForMoney.value] else [])
  }

  function Sum(xs: seq<real>): real
    decreases |xs|
  {
    if |xs| == 0 then 0.0 else Sum(xs[..|xs| - 1]) + xs[|xs| - 1]
  }

  /**
   * The `averageRating` virtual: the mean of the present ratings. Since
   * `overall` is required the list is never empty, so the virtual's
   * empty-list fallback is never taken.
   */
  function AverageRating(r: Ratings): real {
    var xs := PresentRatings(r);
    Sum(xs) / (|xs| as real)
  }

  predicate InRatingRange(x: real) {
    1.0 <= x <= 5.0
  }

  predicate RatingsInRange(r: Ratings) {
    InRatingRange(r.overall) &&
    (r.cleanliness.Some? ==> InRatingRange(r.cleanliness.value)) &&
    (r.facilities.Some? ==> InRatingRange(r.facilities.value)) &&
    (r.staff.Some? ==> InRatingRange(r.staff.value)) &&
    (r.valueForMoney.Some? ==> InRatingRange(r.valueForMoney.value))
  }

  /** A sum of values between `lo` and `hi` lies between `n * lo` and `n * hi`. */
  lemma {:induction false} SumBounds(xs: seq<real>, lo: real, hi: real)
    requires forall k :: 0 <= k < |xs| ==> lo <= xs[k] <= hi
    ensures (|xs| as real) * lo <= Sum(xs) <= (|xs| as real) * hi
    decreases |xs|
  {
    if |xs| > 0 {
      SumBounds(xs[..|xs| - 1], lo, hi);
      assert (|xs| as real) * lo == ((|xs| - 1) as real) * lo + lo;
      assert (|xs| as real) * hi == ((|xs| - 1) as real) * hi + hi;
    }
  }

  /** Ratings the schema admits (each between 1 and 5) average to a value between 1 and 5. */
  lemma AverageWithinScale(r: Ratings)
    requires RatingsInRange(r)
    ensures InRatingRange(AverageRating(r))
  {
    var xs := PresentRatings(r);
    forall k | 0 <= k < |xs|
      ensures 1.0 <= xs[k] <= 5.0
    {
    }
    SumBounds(xs, 1.0, 5.0);
    var n := |xs| as real;
    assert n * 1.0 <= Sum(xs) <= n * 5.0;
    assert Sum(xs) / n >= 1.0 && Sum(xs) / n <= 5.0;
  }

  /** With only the overall rating present, the average is the overall rating. */
  lemma AverageOfOverallOnly(overall: real)
    ensures AverageRating(Ratings(overall, None, None, None, None)) == overall
  {
    var xs := PresentRatings(Ratings(overall, None, None, None, None));
    assert xs == [overall];
    assert xs[..0] == [];
    assert Sum(xs) == Sum(xs[..0]) + overall == overall;
    assert |xs| as real == 1.0;
  }

  // ---------------------------------------------------------------------------
  // helpful votes
  // ---------------------------------------------------------------------------

  /** `users.indexOf(user)`: the first position holding the user, or -1. */
  function IndexOf(users: seq<Id>, user: Id): (i: int)
    ensures -1 <= i < |users|
    ensures i == -1 <==> user !in users
    ensures i >= 0 ==> users[i] == user && user !in users[..i]
    decreases |users|
  {
    if |users| == 0 then -1
    else if users[0] == user then 0
    else
      var j := IndexOf(users[1..], user);
      assert users[1..] == users[1..];
      if j == -1 then -1
      else
        assert users[..j + 1] == [users[0]] + users[1..][..j];
        j + 1
  }

  predicate NoDuplicates(users: seq<Id>) {
    forall i, j :: 0 <= i < j < |users| ==> users[i] != users[j]
  }

  /** The counter matches the voters and nobody votes twice. */
  predicate VotesConsistent(v: HelpfulVotes) {
    v.count == |v.users| && NoDuplicates(v.users)
  }

  /** `markHelpful(user)` on the votes. */
  function MarkHelpful(v: HelpfulVotes, user: Id): (r: Result<HelpfulVotes, ReviewError>)
    ensures r.Err? <==> user in v.users
    ensures r.Ok? ==> user in r.value.users && multiset(r.value.users) == multiset(v.users) + multiset{user}
    ensures r.Ok? ==> r.value.users == v.users + [user] && r.value.count == v.count + 1
  {
    if user !in v.users then Ok(HelpfulVotes(v.count + 1, v.users + [user]))
    else Err(AlreadyMarkedHelpful)
  }

  /** `unmarkHelpful(user)` on the votes: the first occurrence goes, the counter drops but not below zero. */
  function UnmarkHelpful(v: HelpfulVotes, user: Id): (r: Result<HelpfulVotes, ReviewError>)
    ensures r.Err? <==> user !in v.users
    ensures r.Ok? ==> multiset(r.value.users) == multiset(v.users) - multiset{user}
    ensures r.Ok? ==> r.value.count >= 0
    ensures r.Ok? ==> (v.count >= 1 ==> r.value.count == v.count - 1) && (v.count <= 1 ==> r.value.count == 0)
    ensures r.Ok? ==> var i := IndexOf(v.users, user);
                      user !in v.users[..i] && r.value.users == v.users[..i] + v.users[i + 1..]
  {
    var i := IndexOf(v.users, user);
    if i > -1 then
      assert v.users == v.users[..i] + [user] + v.users[i + 1..];
      Ok(HelpfulVotes(if v.count - 1 > 0 then v.count - 1 else 0, v.users[..i] + v.users[i + 1..]))
    else Err(NotMarkedHelpful)
  }

  /** Marking keeps the counter equal to the number of distinct voters. */
  lemma MarkKeepsVotesConsistent(v: HelpfulVotes, user: Id)
    requires VotesConsistent(v) && MarkHelpful(v, user).Ok?
    ensures VotesConsistent(MarkHelpful(v, user).value)
  {
  }

  /** Unmarking keeps the counter equal to the number of distinct voters. */
  lemma UnmarkKeepsVotesConsistent(v: HelpfulVotes, user: Id)
    requires VotesConsistent(v) && UnmarkHelpful(v, user).Ok?
    ensures VotesConsistent(UnmarkHelpful(v, user).value)
  {
    var i := IndexOf(v.users, user);
    var users' := v.users[..i] + v.users[i + 1..];
    forall p, q | 0 <= p < q < |users'|
      ensures users'[p] != users'[q]
    {
      var p' := if p < i then p else p + 1;
      var q' := if q < i then q else q + 1;
      assert users'[p] == v.users[p'] && users'[q] == v.users[q'];
    }
  }

  /** Unmarking right after a first mark restores the votes exactly. */
  lemma MarkThenUnmarkRestores(v: HelpfulVotes, user: Id)
    requires v.count >= 0 && user !in v.users
    ensures MarkHelpful(v, user).Ok?
    ensures UnmarkHelpful(MarkHelpful(v, user).value, user) == Ok(v)
  {
    var m := MarkHelpful(v, user).value;
    assert IndexOf(m.users, user) == |v.users| by {
      assert m.users[..|v.users|] == v.users;
    }
    assert m.users[..|v.users|] + m.users[|v.users| + 1..] == v.users;
  }

  // ---------------------------------------------------------------------------
  // reports
  // ---------------------------------------------------------------------------

  predicate ReportedBy(reports: seq<Report>, user: Id) {
    exists k :: 0 <= k < |reports| && reports[k].user == user
  }

  /** Nobody has reported twice. */
  predicate OneReportPerUser(reports: seq<Report>) {
    forall i, j :: 0 <= i < j < |reports| ==> reports[i].user != reports[j].user
  }

  /** Every report's reason is in the schema's enum, so a save of the review is accepted. */
  predicate Saveable(reports: seq<Report>) {
    forall k :: 0 <= k < |reports| ==> ValidReason(reports[k].reason)
  }

  /** The reports and status after `report(user, reason, description)` at `now`, before the save. */
  function Reported(reports: seq<Report>, status: ReviewStatus, user: Id, reason: string, description: string, now: int)
    : (r: Result<(seq<Report>, ReviewStatus), ReviewError>)
    ensures r.Err? <==> ReportedBy(reports, user)
    ensures r.Ok? ==> r.value.0 == reports + [Report(user, reason, description, now)]
    ensures r.Ok? ==> (r.value.1 == PendingModeration <==> |reports| + 1 >= ModerationThreshold || status == PendingModeration)
  {
    if ReportedBy(reports, user) then Err(AlreadyReported)
    else
      var reports' := reports + [Report(user, reason, description, now)];
      Ok((reports', if |reports'| >= ModerationThreshold then PendingModeration else status))
  }

  /** Reporting keeps one report per user. */
  lemma ReportKeepsOneReportPerUser(reports: seq<Report>, status: ReviewStatus, user: Id, reason: string,
                                    description: string, now: int)
    requires OneReportPerUser(reports)
    requires Reported(reports, status, user, reason, description, now).Ok?
    ensures OneReportPerUser(Reported(reports, status, user, reason, description, now).value.0)
  {
    var reports' := Reported(reports, status, user, reason, description, now).value.0;
    forall i, j | 0 <= i < j < |reports'|
      ensures reports'[i].user != reports'[j].user
    {
      if j == |reports| {
        assert reports'[i] == reports[i];
      }
    }
  }

  /**
   * The third report sends the review to moderation whatever its status was,
   * so a hidden or removed review becomes pending moderation again.
   */
  lemma ThirdReportOverridesStatus(reports: seq<Report>, status: ReviewStatus, user: Id, reason: string,
                                   description: string, now: int)
    requires |reports| == 2 && !ReportedBy(reports, user)
    ensures Reported(reports, status, user, reason, description, now) ==
            Ok((reports + [Report(user, reason, description, now)], PendingModeration))
  {
  }

  /** Fewer than three reports leave the status as it was. */
  lemma EarlyReportsKeepStatus(reports: seq<Report>, status: ReviewStatus, user: Id, reason: string,
                               description: string, now: int)
    requires |reports| < 2 && !ReportedBy(reports, user)
    ensures Reported(reports, status, user, reason, description, now).value.1 == status
  {
  }

  // ---------------------------------------------------------------------------
  // the document
  // ---------------------------------------------------------------------------

  /** The parts of a review document that its methods read and change. */
  class Review {
    var rating: Ratings
    var helpfulVotes: HelpfulVotes
    var reportedBy: seq<Report>
    var status: ReviewStatus

    constructor (rating: Ratings)
      ensures this.rating == rating
      ensures helpfulVotes == HelpfulVotes(0, []) && reportedBy == [] && status == ReviewActive
    {
      this.rating := rating;
      helpfulVotes := HelpfulVotes(0, []);
      reportedBy := [];
      status := ReviewActive;
    }

    /** `review.markHelpful(user)`: record the vote and save, or throw when the user already voted. */
    method MarkHelpfulBy(user: Id) returns (r: Result<(), ReviewError>)
      modifies this
      ensures match MarkHelpful(old(helpfulVotes), user)
              case Err(e) => r == Err(e) && helpfulVotes == old(helpfulVotes)
              case Ok(v) => helpfulVotes == v && (r.Ok? <==> Saveable(reportedBy)) && (r.Err? ==> r.error == SaveRejected)
      ensures rating == old(rating) && reportedBy == old(reportedBy) && status == old(status)
    {
      if user !in helpfulVotes.users {
        helpfulVotes := helpfulVotes.(users := helpfulVotes.users + [user]);
        helpfulVotes := helpfulVotes.(count := helpfulVotes.count + 1);
        r := if Saveable(reportedBy) then Ok(()) else Err(SaveRejected);
        return;
      }
      r := Err(AlreadyMarkedHelpful);
    }

    /** `review.unmarkHelpful(user)`: remove the vote and save, or throw when the user has not voted. */
    method UnmarkHelpfulBy(user: Id) returns (r: Result<(), ReviewError>)
      modifies this
      ensures match UnmarkHelpful(old(helpfulVotes), user)
              case Err(e) => r == Err(e) && helpfulVotes == old(helpfulVotes)
              case Ok(v) => helpfulVotes == v && (r.Ok? <==> Saveable(reportedBy)) && (r.Err? ==> r.error == SaveRejected)
      ensures rating == old(rating) && reportedBy == old(reportedBy) && status == old(status)
    {
      var index := IndexOf(helpfulVotes.users, user);
      if index > -1 {
        helpfulVotes := helpfulVotes.(users := helpfulVotes.users[..index] + helpfulVotes.users[index + 1..]);
        helpfulVotes := helpfulVotes.(count := if helpfulVotes.count - 1 > 0 then helpfulVotes.count - 1 else 0);
        r := if Saveable(reportedBy) then Ok(()) else Err(SaveRejected);
        return;
      }
      r := Err(NotMarkedHelpful);
    }

    /**
     * `review.report(user, reason, description)`: refuse a second report by the
     * same user, otherwise append the report, move to moderation from the third
     * report on, and save; a reason outside the enum makes the save fail after
     * the document has been changed.
     */
    method ReportBy(user: Id, reason: string, description: string, now: int) returns (r: Result<(), ReviewError>)
      modifies this
      ensures match Reported(old(reportedBy), old(status), user, reason, description, now)
              case Err(e) => r == Err(e) && reportedBy == old(reportedBy) && status == old(status)
              case Ok((reports, s)) => reportedBy == reports && status == s &&
                                       (r.Ok? <==> Saveable(reportedBy)) && (r.Err? ==> r.error == SaveRejected)
      ensures rating == old(rating) && helpfulVotes == old(helpfulVotes)
    {
      var k := 0;
      while k < |reportedBy|
        invariant 0 <= k <= |reportedBy|
        invariant forall j :: 0 <= j < k ==> reportedBy[j].user != user
      {
        if reportedBy[k].user == user {
          return Err(AlreadyReported);
        }
        k := k + 1;
      }
      reportedBy := reportedBy + [Report(user, reason, description, now)];
      if |reportedBy| >= ModerationThreshold {
        status := PendingModeration;
      }
      r := if Saveable(reportedBy) then Ok(()) else Err(SaveRejected);
    }
  }
}
