/**
 * The review modal's session: the globals `currentProductId`,
 * `currentProductName`, `currentRatings` and `isSubmitting`, and the
 * handlers that update them. `handleSubmit` is asynchronous; it is modelled
 * as the synchronous part up to its first `await` (`HandleSubmit`) and one
 * continuation per awaited request (`CompleteUpload`, `CompleteSend`). The
 * continuations waiting for an answer are kept in `inFlight`; the outcome
 * of each network call is a parameter of the continuation.
 */
module Session {
  import opened Wrappers
  import opened Text
  import opened Criteria
  import opened Scoring
  import opened Validation
  import opened Upload
  import opened ReviewApi

  /** The review object `handleSubmit` builds and posts. */
  datatype Review = Review(
    productId: Option<string>,
    productName: Option<string>,
    reviewerName: string,
    comment: string,
    ratings: Ratings,
    avatarUrl: Option<string>,
    totalScore: int)

  /** A suspended `handleSubmit`, waiting for the upload or for the POST. */
  datatype Pending =
    | AwaitingUpload(review: Review, file: AvatarFile)
    | AwaitingApi(review: Review)

  /** How one step of `handleSubmit` ends. */
  datatype Outcome =
    | Ignored                    // a submission was already running
    | Failed(message: string)    // the message of the error notification
    | InProgress                 // a request was sent; a continuation waits for it
    | Submitted(review: Review)  // the review service accepted the review

  /** `currentRatings` always has the five keys, each 0..5. */
  ghost predicate RatingsWellFormed(r: Ratings)
  {
    (forall c: Criterion :: c in r) && AllInRange(r, 0, 5)
  }

  /** The all-zero ratings the modal starts from are well formed. */
  lemma ZeroRatingsWellFormed()
    ensures RatingsWellFormed(ZeroRatings)
  {
    forall c: Criterion ensures c in ZeroRatings && RatingOf(ZeroRatings, c) == 0 {
      match c
      case B1 => case B2 => case B3 => case B4 => case B5 =>
    }
  }

  /** Setting one criterion to a value in 1..5 keeps the ratings well formed. */
  lemma SetRatingWellFormed(r: Ratings, c: Criterion, v: int)
    requires RatingsWellFormed(r)
    requires 1 <= v <= 5
    ensures RatingsWellFormed(r[c := v])
  {
    var updated := r[c := v];
    forall d: Criterion ensures 0 <= RatingOf(updated, d) <= 5 {
      assert RatingOf(r, d) == r[d];
    }
  }

  /** The form `validateForm` sees: the trimmed fields and the ratings copy. */
  function SubmittedForm(nameField: string, commentField: string, ratings: Ratings): ReviewForm
  {
    ReviewForm(Trim(nameField), Trim(commentField), ratings)
  }

  /** The review object after validation and scoring, before any upload. */
  function Draft(productId: Option<string>, productName: Option<string>,
                 nameField: string, commentField: string, ratings: Ratings): Review
  {
    Review(productId, productName, Trim(nameField), Trim(commentField), ratings, None, Score(ratings))
  }

  /** The avatar counts as chosen when there is a file of non-zero size. */
  predicate HasAvatar(avatar: Option<AvatarFile>)
  {
    avatar.Some? && avatar.value.size > 0
  }

  /**
   * What every review that leaves `handleSubmit`'s validation satisfies:
   * trimmed fields, a valid form, ratings within 0..5 and the SAW score of
   * exactly those ratings.
   */
  ghost predicate ReviewOk(rv: Review)
  {
    Trim(rv.reviewerName) == rv.reviewerName
    && Trim(rv.comment) == rv.comment
    && FormOk(ReviewForm(rv.reviewerName, rv.comment, rv.ratings))
    && RatingsWellFormed(rv.ratings)
    && rv.totalScore == Score(rv.ratings)
  }

  /** A file the upload is sent for passed the checks and is not empty. */
  ghost predicate UploadOk(f: AvatarFile)
  {
    f.size > 0 && Precheck(Some(f)).None?
  }

  /**
   * A suspended submission carries a valid review; one waiting for its
   * upload has no URL yet and a file that passed the checks; one waiting
   * for the review service has had its review POSTed.
   */
  ghost predicate PendingOk(p: Pending, posted: seq<Review>)
  {
    ReviewOk(p.review)
    && (p.AwaitingUpload? ==> p.review.avatarUrl.None? && UploadOk(p.file))
    && (p.AwaitingApi? ==> p.review in posted)
  }

  ghost predicate AllPendingOk(q: seq<Pending>, posted: seq<Review>)
  {
    forall i :: 0 <= i < |q| ==> PendingOk(q[i], posted)
  }

  /**
   * Removing one suspended submission and recording more POSTs keeps the
   * rest valid.
   */
  lemma RemovePending(q: seq<Pending>, k: nat, posted: seq<Review>, more: seq<Review>)
    requires AllPendingOk(q, posted)
    requires k < |q|
    ensures AllPendingOk(q[..k] + q[k + 1..], posted + more)
  {
    var rest := q[..k] + q[k + 1..];
    forall i | 0 <= i < |rest| ensures PendingOk(rest[i], posted + more) {
      var j := if i < k then i else i + 1;
      assert rest[i] == q[j];
      assert PendingOk(q[j], posted);
    }
  }

  /** Adding a valid suspended submission and recording more POSTs keeps all valid. */
  lemma AddPending(q: seq<Pending>, p: Pending, posted: seq<Review>, more: seq<Review>)
    requires AllPendingOk(q, posted)
    requires PendingOk(p, posted + more)
    ensures AllPendingOk(q + [p], posted + more)
  {
    forall i | 0 <= i < |q| + 1 ensures PendingOk((q + [p])[i], posted + more) {
      if i < |q| {
        assert PendingOk(q[i], posted);
      }
    }
  }

  /** Each review that passes the checks scores between 20 and 100. */
  lemma ReviewScoreBounds(rv: Review)
    requires ReviewOk(rv)
    ensures 20 <= rv.totalScore <= 100
  {
    assert AllInRange(rv.ratings, 1, 5) by {
      forall c: Criterion ensures 1 <= RatingOf(rv.ratings, c) <= 5 {
        assert RatingOk(rv.ratings, c);
      }
    }
  }

  /** A validated draft satisfies `ReviewOk`. */
  lemma DraftOk(productId: Option<string>, productName: Option<string>,
                nameField: string, commentField: string, ratings: Ratings)
    requires RatingsWellFormed(ratings)
    requires FormOk(SubmittedForm(nameField, commentField, ratings))
    ensures ReviewOk(Draft(productId, productName, nameField, commentField, ratings))
  {
    TrimIdempotent(nameField);
    TrimIdempotent(commentField);
  }

  class ReviewSession {
    var productId: Option<string>
    var productName: Option<string>
    var ratings: Ratings
    var isSubmitting: bool
    /** The suspended submissions, oldest first. */
    var inFlight: seq<Pending>
    /** Every review POSTed to the review service, in order. */
    ghost var posted: seq<Review>
    /** Every file sent to the media host, in order. */
    ghost var uploads: seq<AvatarFile>

    ghost predicate Valid()
      reads this
    {
      RatingsWellFormed(ratings)
      && AllPendingOk(inFlight, posted)
      && (forall i :: 0 <= i < |posted| ==> ReviewOk(posted[i]))
      && (forall i :: 0 <= i < |uploads| ==> UploadOk(uploads[i]))
    }

    /** The state at page load. */
    constructor()
      ensures Valid()
      ensures productId.None? && productName.None?
      ensures ratings == ZeroRatings && !isSubmitting
      ensures inFlight == [] && posted == [] && uploads == []
    {
      productId := None;
      productName := None;
      ratings := ZeroRatings;
      isSubmitting := false;
      inFlight := [];
      ZeroRatingsWellFormed();
      posted := [];
      uploads := [];
    }

    /**
     * `openReviewModal`: remembers the product and clears the ratings. It
     * leaves `isSubmitting` and any pending submission alone.
     */
    method OpenReviewModal(id: string, name: string)
      requires Valid()
      modifies this
      ensures Valid()
      ensures productId == Some(id) && productName == Some(name)
      ensures ratings == ZeroRatings
      ensures isSubmitting == old(isSubmitting)
      ensures inFlight == old(inFlight) && posted == old(posted) && uploads == old(uploads)
    {
      productId := Some(id);
      productName := Some(name);
      ratings := ZeroRatings;
      ZeroRatingsWellFormed();
    }

    /**
     * `closeModal`: when the modal element exists, clears the product, the
     * ratings and the in-flight flag; otherwise changes nothing. Pending
     * requests are not cancelled.
     */
    method CloseModal(modalPresent: bool)
      requires Valid()
      modifies this
      ensures Valid()
      ensures modalPresent ==>
        productId.None? && productName.None? && ratings == ZeroRatings && !isSubmitting
      ensures !modalPresent ==>
        productId == old(productId) && productName == old(productName)
        && ratings == old(ratings) && isSubmitting == old(isSubmitting)
      ensures inFlight == old(inFlight) && posted == old(posted) && uploads == old(uploads)
    {
      if modalPresent {
        productId := None;
        productName := None;
        ratings := ZeroRatings;
        isSubmitting := false;
        ZeroRatingsWellFormed();
      }
    }

    /**
     * A click on star `index` (0-based; the form has five) of criterion `c`
     * sets that criterion's rating to `index + 1` and no other.
     */
    method ClickStar(c: Criterion, index: nat)
      requires Valid()
      requires index < 5
      modifies this
      ensures Valid()
      ensures ratings == old(ratings)[c := index + 1]
      ensures RatingOf(ratings, c) == index + 1
      ensures forall d :: d != c ==> RatingOf(ratings, d) == RatingOf(old(ratings), d)
      ensures productId == old(productId) && productName == old(productName)
      ensures isSubmitting == old(isSubmitting)
      ensures inFlight == old(inFlight) && posted == old(posted) && uploads == old(uploads)
    {
      SetRatingWellFormed(ratings, c, index + 1);
      ratings := ratings[c := index + 1];
    }

    /**
     * `handleSubmit` up to its first `await`: the guard, then validation of
     * the trimmed fields, then the score, then either the avatar upload
     * (after its checks) or the POST. Each failure clears the flag and sends
     * nothing.
     */
    method HandleSubmit(nameField: string, commentField: string, avatar: Option<AvatarFile>)
      returns (outcome: Outcome)
      requires Valid()
      modifies this
      ensures Valid()
      ensures old(isSubmitting) <==> outcome.Ignored?
      ensures old(isSubmitting) ==>
        isSubmitting && inFlight == old(inFlight) && posted == old(posted) && uploads == old(uploads)
      ensures productId == old(productId) && productName == old(productName) && ratings == old(ratings)
      ensures isSubmitting <==> !outcome.Failed?
      ensures outcome.Failed? ==>
        inFlight == old(inFlight) && posted == old(posted) && uploads == old(uploads)
      ensures !old(isSubmitting) && !FormOk(SubmittedForm(nameField, commentField, old(ratings))) ==>
        outcome == Failed(Join(Messages(Violations(SubmittedForm(nameField, commentField, old(ratings)))), "\n"))
      ensures !old(isSubmitting) && FormOk(SubmittedForm(nameField, commentField, old(ratings)))
              && HasAvatar(avatar) && Precheck(avatar).Some? ==>
        outcome == Failed(UploadFailedPrefix + RejectionMessage(Precheck(avatar).value))
      ensures !old(isSubmitting) && FormOk(SubmittedForm(nameField, commentField, old(ratings)))
              && HasAvatar(avatar) && Precheck(avatar).None? ==>
        var draft := Draft(old(productId), old(productName), nameField, commentField, old(ratings));
        outcome == InProgress && uploads == old(uploads) + [avatar.value]
        && inFlight == old(inFlight) + [AwaitingUpload(draft, avatar.value)] && posted == old(posted)
      ensures !old(isSubmitting) && FormOk(SubmittedForm(nameField, commentField, old(ratings)))
              && !HasAvatar(avatar) ==>
        var draft := Draft(old(productId), old(productName), nameField, commentField, old(ratings));
        outcome == InProgress && posted == old(posted) + [draft]
        && inFlight == old(inFlight) + [AwaitingApi(draft)] && uploads == old(uploads)
    {
      if isSubmitting {
        return Ignored;
      }
      isSubmitting := true;
      var form := SubmittedForm(nameField, commentField, ratings);
      var validation := ValidateForm(form);
      if !validation.isValid {
        isSubmitting := false;
        return Failed(Join(validation.errors, "\n"));
      }
      var total := CalculateTotalScore(form.ratings);
      var review := Review(productId, productName, form.reviewerName, form.comment, form.ratings, None, total);
      DraftOk(productId, productName, nameField, commentField, ratings);
      outcome := SendFirstRequest(review, avatar);
    }

    /**
     * The part of `handleSubmit` after scoring: with an avatar, its checks
     * and then the upload; without one, the POST.
     */
    method SendFirstRequest(review: Review, avatar: Option<AvatarFile>) returns (outcome: Outcome)
      requires Valid()
      requires isSubmitting
      requires ReviewOk(review) && review.avatarUrl.None?
      modifies this
      ensures Valid()
      ensures productId == old(productId) && productName == old(productName) && ratings == old(ratings)
      ensures HasAvatar(avatar) && Precheck(avatar).Some? ==>
        outcome == Failed(UploadFailedPrefix + RejectionMessage(Precheck(avatar).value))
        && !isSubmitting && inFlight == old(inFlight) && posted == old(posted) && uploads == old(uploads)
      ensures HasAvatar(avatar) && Precheck(avatar).None? ==>
        outcome == InProgress && isSubmitting && uploads == old(uploads) + [avatar.value]
        && inFlight == old(inFlight) + [AwaitingUpload(review, avatar.value)] && posted == old(posted)
      ensures !HasAvatar(avatar) ==>
        outcome == InProgress && isSubmitting && posted == old(posted) + [review]
        && inFlight == old(inFlight) + [AwaitingApi(review)] && uploads == old(uploads)
    {
      if avatar.Some? && avatar.value.size > 0 {
        var rejection := Precheck(avatar);
        if rejection.Some? {
          isSubmitting := false;
          return Failed(UploadFailedPrefix + RejectionMessage(rejection.value));
        }
        assert posted + [] == posted;
        AddPending(inFlight, AwaitingUpload(review, avatar.value), posted, []);
        uploads := uploads + [avatar.value];
        inFlight := inFlight + [AwaitingUpload(review, avatar.value)];
      } else {
        AddPending(inFlight, AwaitingApi(review), posted, [review]);
        posted := posted + [review];
        inFlight := inFlight + [AwaitingApi(review)];
      }
      outcome := InProgress;
    }

    /**
     * The upload of pending submission `k` answered. On success the URL is
     * put into the review and the POST is sent; on failure the error is
     * reported, the flag is cleared and nothing is posted.
     */
    method CompleteUpload(k: nat, response: UploadResponse) returns (outcome: Outcome)
      requires Valid()
      requires k < |inFlight| && inFlight[k].AwaitingUpload?
      modifies this
      ensures Valid()
      ensures productId == old(productId) && productName == old(productName) && ratings == old(ratings)
      ensures uploads == old(uploads)
      ensures UploadOutcome(response).Failure? ==>
        outcome == Failed(UploadOutcome(response).error) && !isSubmitting
        && inFlight == old(inFlight[..k] + inFlight[k + 1..]) && posted == old(posted)
      ensures UploadOutcome(response).Success? ==>
        var review := old(inFlight[k].review).(avatarUrl := Some(response.secureUrl));
        outcome == InProgress && isSubmitting == old(isSubmitting)
        && posted == old(posted) + [review]
        && inFlight == old(inFlight[..k] + inFlight[k + 1..]) + [AwaitingApi(review)]
    {
      var pending := inFlight[k];
      assert PendingOk(pending, posted);
      var rest := inFlight[..k] + inFlight[k + 1..];
      var result := UploadOutcome(response);
      if result.Failure? {
        RemovePending(inFlight, k, posted, []);
        assert posted + [] == posted;
        inFlight := rest;
        isSubmitting := false;
        return Failed(result.error);
      }
      var review := pending.review.(avatarUrl := Some(result.value));
      RemovePending(inFlight, k, posted, [review]);
      assert (posted + [review]) + [] == posted + [review];
      AddPending(rest, AwaitingApi(review), posted + [review], []);
      posted := posted + [review];
      inFlight := rest + [AwaitingApi(review)];
      outcome := InProgress;
    }

    /**
     * The POST of pending submission `k` answered: success or the error
     * notification, and in both cases the `finally` clears the flag.
     */
    method CompleteSend(k: nat, response: ApiResponse) returns (outcome: Outcome)
      requires Valid()
      requires k < |inFlight| && inFlight[k].AwaitingApi?
      modifies this
      ensures Valid()
      ensures productId == old(productId) && productName == old(productName) && ratings == old(ratings)
      ensures !isSubmitting
      ensures inFlight == old(inFlight[..k] + inFlight[k + 1..])
      ensures posted == old(posted) && uploads == old(uploads)
      ensures SendOutcome(response).Success? ==> outcome == Submitted(old(inFlight[k].review))
      ensures SendOutcome(response).Failure? ==> outcome == Failed(SendOutcome(response).error)
      ensures outcome.Submitted? ==> outcome.review in posted
      ensures outcome.Submitted? ==> ReviewOk(outcome.review) && 20 <= outcome.review.totalScore <= 100
    {
      var pending := inFlight[k];
      assert PendingOk(pending, posted);
      RemovePending(inFlight, k, posted, []);
      assert posted + [] == posted;
      inFlight := inFlight[..k] + inFlight[k + 1..];
      isSubmitting := false;
      var result := SendOutcome(response);
      if result.Failure? {
        return Failed(result.error);
      }
      ReviewScoreBounds(pending.review);
      outcome := Submitted(pending.review);
    }
  }

  /** Rates every criterion `stars` stars through the star-click handler. */
  method RateAll(s: ReviewSession, stars: nat)
    requires s.Valid()
    requires 1 <= stars <= 5
    modifies s
    ensures s.Valid()
    ensures forall c: Criterion :: RatingOk(s.ratings, c)
    ensures s.isSubmitting == old(s.isSubmitting)
    ensures s.inFlight == old(s.inFlight)
  {
    s.ClickStar(B1, stars - 1);
    s.ClickStar(B2, stars - 1);
    s.ClickStar(B3, stars - 1);
    s.ClickStar(B4, stars - 1);
    s.ClickStar(B5, stars - 1);
    forall c: Criterion ensures RatingOk(s.ratings, c) {
      assert RatingOf(s.ratings, c) == stars;
    }
  }

  /**
   * Closing the modal while a submission waits for the review service
   * clears the guard, so a second submission is accepted while the first is
   * still pending: the flag does not serialise submissions.
   */
  method SecondSubmissionAfterClose() returns (first: Outcome, second: Outcome, pending: nat)
    ensures first == InProgress && second == InProgress
    ensures pending == 2
  {
    var name := "Ayu Lestari";
    var comment := "Tasnya rapi dan cepat sampai";
    TrimUntrimmable(name);
    TrimUntrimmable(comment);
    var session := new ReviewSession();
    session.OpenReviewModal("tas-01", "Tas Anyaman");
    RateAll(session, 5);
    first := session.HandleSubmit(name, comment, None);
    session.CloseModal(true);
    session.OpenReviewModal("tas-02", "Dompet Rajut");
    RateAll(session, 4);
    second := session.HandleSubmit(name, comment, None);
    pending := |session.inFlight|;
  }
}