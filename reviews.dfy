/** Rating and review of a finished project (components/rating-review.tsx): a star
    rating and a text, inserted as one review row, after which the project is marked
    completed once it has at least two reviews (the comment beside that test speaks of
    both parties having reviewed). */
module Reviews {
  import opened Common
  import opened Schema
  import opened Backend

  /** The star buttons run from 1 to 5; 0 means "no rating chosen yet". */
  const MaxStars: int := 5

  /** The re-read of the project's reviews after an insert (order plays no part). */
  function ReviewsOf(reviews: seq<Review>, projectId: Id): (r: seq<Review>)
    ensures forall i :: 0 <= i < |r| ==> r[i] in reviews && r[i].projectId == projectId
    ensures forall i :: 0 <= i < |reviews| && reviews[i].projectId == projectId ==> reviews[i] in r
    ensures IsSubsequence(r, reviews)
    ensures |r| == Count(reviews, (x: Review) => x.projectId == projectId)
  {
    Filter(reviews, (x: Review) => x.projectId == projectId)
  }

  /** Some review in the list was written in this role. */
  predicate HasReviewBy(rs: seq<Review>, role: string)
  {
    exists i :: 0 <= i < |rs| && rs[i].reviewerRole == role
  }

  /** The completion test as the component writes it: at least two reviews of the project. */
  predicate CompletesAsWritten(rs: seq<Review>)
  {
    |rs| >= 2
  }

  /** The completion test the component states as its intent: the employer and the
      freelancer have each reviewed the project. */
  predicate BothPartiesReviewed(rs: seq<Review>)
  {
    HasReviewBy(rs, Employer) && HasReviewBy(rs, Freelancer)
  }

  /** Two reviews written by the freelancer (for instance the same form submitted twice)
      pass the written test although the employer has not reviewed. */
  lemma OneSidedPairCompletesAsWritten(projectId: Id, freelancerId: Id, employerId: Id)
    ensures var r := Review("r1", projectId, freelancerId, employerId, 5, "", Freelancer);
      var rs := [r, r.(id := "r2")];
      CompletesAsWritten(rs) && !BothPartiesReviewed(rs)
  {
  }

  /** The intended test is stricter than the written one: every list it accepts holds
      at least two reviews. */
  lemma BothPartiesImpliesTwo(rs: seq<Review>)
    requires BothPartiesReviewed(rs)
    ensures CompletesAsWritten(rs)
  {
    var i :| 0 <= i < |rs| && rs[i].reviewerRole == Employer;
    var j :| 0 <= j < |rs| && rs[j].reviewerRole == Freelancer;
    assert i != j;
  }

  /** A review on some other project never changes whether this project is complete;
      a review on this project completes it exactly when the other role has already
      reviewed it (or both already had). */
  lemma {:induction false} NewReviewCompletes(reviews: seq<Review>, row: Review, projectId: Id)
    ensures row.projectId != projectId ==>
      (BothPartiesReviewed(ReviewsOf(reviews + [row], projectId)) <==> BothPartiesReviewed(ReviewsOf(reviews, projectId)))
    ensures row.projectId == projectId ==>
      ReviewsOf(reviews + [row], projectId) == ReviewsOf(reviews, projectId) + [row]
    ensures row.projectId == projectId && row.reviewerRole == Freelancer ==>
      (BothPartiesReviewed(ReviewsOf(reviews + [row], projectId)) <==> HasReviewBy(ReviewsOf(reviews, projectId), Employer))
    ensures row.projectId == projectId && row.reviewerRole == Employer ==>
      (BothPartiesReviewed(ReviewsOf(reviews + [row], projectId)) <==> HasReviewBy(ReviewsOf(reviews, projectId), Freelancer))
  {
    var p := (x: Review) => x.projectId == projectId;
    FilterAppend(reviews, [row], p);
    var before := ReviewsOf(reviews, projectId);
    var after := ReviewsOf(reviews + [row], projectId);
    if row.projectId == projectId {
      assert after == before + [row];
      HasReviewByAppend(before, row, Employer);
      HasReviewByAppend(before, row, Freelancer);
    } else {
      assert after == before;
    }
  }

  /** Appending a review adds its role and no other. */
  lemma HasReviewByAppend(rs: seq<Review>, row: Review, role: string)
    ensures HasReviewBy(rs + [row], role) <==> HasReviewBy(rs, role) || row.reviewerRole == role
  {
    if HasReviewBy(rs, role) {
      var i :| 0 <= i < |rs| && rs[i].reviewerRole == role;
      assert (rs + [row])[i] == rs[i];
    }
    if row.reviewerRole == role {
      assert (rs + [row])[|rs|] == row;
    }
  }

  /** The backend's answer to each step of handleSubmit: `true` = that call fails. */
  datatype ReviewFaults = ReviewFaults(insert: bool, read: bool, update: bool)

  /** The two tables handleSubmit writes, after it, and whether it reported success. */
  datatype ReviewResult = ReviewResult(reviews: seq<Review>, projects: seq<Project>, ok: bool)

  /** handleSubmit on the tables as values, past the rating guard: insert the review,
      re-read the project's reviews, and mark the project completed once it has at
      least two; each step runs only if the previous one succeeded. */
  function SubmitReview(reviews: seq<Review>, projects: seq<Project>, row: Review, faults: ReviewFaults): (r: ReviewResult)
    ensures r.reviews == if faults.insert then reviews else reviews + [row]
    ensures |r.projects| == |projects|
    ensures r.ok ==> !faults.insert && !faults.read
  {
    if faults.insert then ReviewResult(reviews, projects, false)
    else
      var reviews' := reviews + [row];
      if faults.read then ReviewResult(reviews', projects, false)
      else if !CompletesAsWritten(ReviewsOf(reviews', row.projectId)) then ReviewResult(reviews', projects, true)
      else if faults.update then ReviewResult(reviews', projects, false)
      else ReviewResult(reviews', SetProjectStatus(projects, row.projectId, Completed), true)
  }

  /** Submitting writes at most one review and at most the status of the reviewed project,
      and that status only to `completed`; a failed insert writes nothing. */
  lemma SubmitReviewWrites(reviews: seq<Review>, projects: seq<Project>, row: Review, faults: ReviewFaults)
    ensures var r := SubmitReview(reviews, projects, row, faults);
      && r.reviews == (if faults.insert then reviews else reviews + [row])
      && |r.projects| == |projects|
      && (forall i :: 0 <= i < |projects| ==>
            r.projects[i] == projects[i]
            || (projects[i].id == row.projectId && r.projects[i] == projects[i].(status := Completed)))
      && (faults.insert ==> r.projects == projects && !r.ok)
  {
  }

  /** With every call succeeding, the review is stored and the reviewed project ends up
      completed exactly when it now has at least two reviews, that is, exactly when it
      already had one before this submission, whoever wrote it. Every completion the
      both-parties rule would make is among them (BothPartiesImpliesTwo). */
  lemma {:induction false} SubmitReviewCompletion(reviews: seq<Review>, projects: seq<Project>, row: Review,
                                                  faults: ReviewFaults, i: int)
    requires faults == ReviewFaults(false, false, false)
    requires 0 <= i < |projects| && projects[i].id == row.projectId && projects[i].status != Completed
    ensures var r := SubmitReview(reviews, projects, row, faults);
      && r.ok
      && (r.projects[i].status == Completed <==> |ReviewsOf(reviews + [row], row.projectId)| >= 2)
      && (r.projects[i].status == Completed <==> |ReviewsOf(reviews, row.projectId)| >= 1)
      && (BothPartiesReviewed(ReviewsOf(reviews + [row], row.projectId)) ==> r.projects[i].status == Completed)
  {
    NewReviewCompletes(reviews, row, row.projectId);
    var after := ReviewsOf(reviews + [row], row.projectId);
    if BothPartiesReviewed(after) {
      BothPartiesImpliesTwo(after);
    }
  }

  /** The review form of one project, written by user `me` in role `userRole` about
      `recipientId`. */
  class RatingReview {
    const store: Store
    const me: Id
    const projectId: Id
    const recipientId: Id
    const userRole: string
    var rating: int
    var review: string

    /** The rating is 0 (none chosen) or a number of stars. */
    ghost predicate Valid()
      reads this
    {
      0 <= rating <= MaxStars
    }

    constructor (store: Store, me: Id, projectId: Id, recipientId: Id, userRole: string)
      ensures this.store == store && this.me == me && this.projectId == projectId
      ensures this.recipientId == recipientId && this.userRole == userRole
      ensures rating == 0 && review == "" && Valid()
    {
      this.store := store;
      this.me := me;
      this.projectId := projectId;
      this.recipientId := recipientId;
      this.userRole := userRole;
      rating, review := 0, "";
    }

    /** A click on star number `star`. */
    method ClickStar(star: int)
      requires 1 <= star <= MaxStars
      modifies this`rating
      ensures rating == star && Valid()
    {
      rating := star;
    }

    /** The review row this form submits. */
    function Row(reviewId: Id): (r: Review)
      reads this
      ensures r.projectId == projectId && r.reviewerId == me && r.recipientId == recipientId
      ensures r.rating == rating && r.review == review && r.reviewerRole == userRole
    {
      Review(reviewId, projectId, me, recipientId, rating, review, userRole)
    }

    /** handleSubmit: refused while no star is chosen; otherwise the insert, re-read and
        two-review completion of SubmitReview, and the form is reset only when all of it
        succeeded. */
    method HandleSubmit(reviewId: Id, faults: ReviewFaults) returns (ok: bool)
      requires Valid()
      modifies store`reviews, store`projects, this`rating, this`review
      ensures Valid()
      ensures old(rating) == 0 ==> !ok && store.reviews == old(store.reviews) && store.projects == old(store.projects)
      ensures old(rating) != 0 ==>
        var r := SubmitReview(old(store.reviews), old(store.projects), old(Row(reviewId)), faults);
        store.reviews == r.reviews && store.projects == r.projects && ok == r.ok
      ensures ok ==> rating == 0 && review == ""
      ensures !ok ==> rating == old(rating) && review == old(review)
    {
      if rating == 0 {
        return false;
      }
      var row := Row(reviewId);
      ok := store.InsertReview(row, faults.insert);
      if !ok { return; }
      if faults.read { return false; }
      if CompletesAsWritten(ReviewsOf(store.reviews, projectId)) {
        ok := store.UpdateProjectStatus(projectId, Completed, faults.update);
        if !ok { return; }
      }
      rating, review := 0, "";
    }
  }
}
