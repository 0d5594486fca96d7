/**
 * The review list of a caterer page and the form under it: the client
 * schema, the star buttons, the "prepend the new review" update and the
 * submit handler with its success and failure branches.
 */
module ReviewSection {
  import opened Strings
  import opened CatalogData
  import opened ReviewIntake
  import StarRating

  /** The form's fields; the rating is the number held by the star buttons. */
  datatype ReviewFormValues = ReviewFormValues(rating: real, comment: string, author: string)

  const DefaultValues := ReviewFormValues(0.0, "", "")

  /** The buttons offer exactly these ratings. */
  const StarButtons: seq<int> := [1, 2, 3, 4, 5]

  /** The client `reviewSchema`: a lower bound on the rating but no upper bound. */
  predicate ClientSchemaAccepts(v: ReviewFormValues)
  {
    v.rating >= 1.0 && Utf16Length(v.comment) >= 10 && Utf16Length(v.author) >= 2
  }

  /** What the form sends to the server action for caterer `catererId`. */
  function ToSubmission(catererId: string, v: ReviewFormValues): (f: ReviewSubmission)
    ensures f.catererId == catererId && f.rating == v.rating
    ensures f.comment == v.comment && f.author == v.author
  {
    ReviewSubmission(catererId, v.rating, v.comment, v.author)
  }

  /** Button `star` is drawn in the highlight colour. */
  predicate Highlighted(star: int, value: real)
  {
    star as real <= value
  }

  /** `[newReview, ...reviews]`. */
  function Prepend(newReview: Review, reviews: seq<Review>): (r: seq<Review>)
    ensures |r| == |reviews| + 1
    ensures r[0] == newReview && r[1..] == reviews
    ensures multiset(r) == multiset(reviews) + multiset{newReview}
  {
    [newReview] + reviews
  }

  /** The review list after the server's reply: only an accepted review is added. */
  function ApplyReply(reviews: seq<Review>, reply: SubmitReply): (r: seq<Review>)
    ensures reply.Accepted? ==> r == Prepend(AsReview(reply.review), reviews)
    ensures reply.Rejected? ==> r == reviews
  {
    match reply
    case Accepted(review) => Prepend(AsReview(review), reviews)
    case Rejected(_) => reviews
  }

  /** The list changes exactly when the reply carries a review. */
  lemma ApplyReplyChangesIffAccepted(reviews: seq<Review>, reply: SubmitReply)
    ensures ApplyReply(reviews, reply) != reviews <==> reply.Accepted?
  {
  }

  lemma DefaultValuesRejected()
    ensures !ClientSchemaAccepts(DefaultValues)
    ensures !ClientSchemaAccepts(DefaultValues.(rating := 5.0))
  {
  }

  /** The client accepts ratings above five, which the server then rejects. */
  lemma ClientHasNoUpperBound(catererId: string, v: ReviewFormValues, nowIso: string, nowMillis: int)
    requires Utf16Length(v.comment) >= 10 && Utf16Length(v.author) >= 2
    ensures ClientSchemaAccepts(v.(rating := 6.0))
    ensures SubmitReview(ToSubmission(catererId, v.(rating := 6.0)), nowIso, nowMillis) == Rejected(InvalidDataMessage)
  {
  }

  /** A rating the buttons can set, on a form the client accepts, is accepted by the server. */
  lemma ButtonRatingsPassServer(catererId: string, v: ReviewFormValues, star: int, nowIso: string, nowMillis: int)
    requires star in StarButtons
    requires ClientSchemaAccepts(v.(rating := star as real))
    ensures SubmitReview(ToSubmission(catererId, v.(rating := star as real)), nowIso, nowMillis).Accepted?
  {
  }

  /**
   * For a whole-number rating the highlighted buttons are those whose icon a
   * five-star `StarRating` would fill; for 2.5 they differ at button 3.
   */
  lemma HighlightMatchesStarRow(value: real)
    requires value == value.Floor as real
    ensures forall star :: star in StarButtons ==>
      (Highlighted(star, value) <==> StarRating.Stars(value, 5)[star - 1])
    ensures !Highlighted(3, 2.5) && StarRating.Stars(2.5, 5)[2]
  {
    forall star | star in StarButtons
      ensures Highlighted(star, value) <==> StarRating.Stars(value, 5)[star - 1]
    {
      assert (star - 1) as real < value <==> star <= value.Floor;
    }
  }

  /** Each button also draws a one-icon `StarRating`, filled whenever any rating is set. */
  lemma ButtonIconFilledOnceRated(value: real)
    ensures StarRating.Stars(value, 1) == [0.0 < value]
  {
  }

  /** The review list of one caterer page. */
  class ReviewSection {
    var reviews: seq<Review>

    constructor(initialReviews: seq<Review>)
      ensures reviews == initialReviews
    {
      reviews := initialReviews;
    }

    /** `handleReviewSubmit`. */
    method HandleReviewSubmit(newReview: Review)
      modifies this
      ensures reviews == Prepend(newReview, old(reviews))
    {
      reviews := [newReview] + reviews;
    }
  }

  /** How a submit of the review form ended. */
  datatype SubmitAttempt = NotSent | CallFailed | Answered(reply: SubmitReply)

  /** The form that posts a review for `catererId` and reports back to `section`. */
  class ReviewForm {
    const catererId: string
    const section: ReviewSection
    var values: ReviewFormValues
    var pending: bool

    constructor(catererId: string, section: ReviewSection)
      ensures this.catererId == catererId && this.section == section
      ensures values == DefaultValues && !pending
      ensures RatingFromButtons()
    {
      this.catererId := catererId;
      this.section := section;
      values := DefaultValues;
      pending := false;
    }

    /** The rating is the default 0 or one a button set. */
    predicate RatingFromButtons()
      reads this
    {
      values.rating == 0.0 || exists star :: star in StarButtons && values.rating == star as real
    }

    /** A click on button `star`. */
    method SelectStar(star: int)
      requires star in StarButtons
      modifies this
      ensures values == old(values).(rating := star as real) && pending == old(pending)
      ensures RatingFromButtons()
    {
      values := values.(rating := star as real);
    }

    method EditComment(comment: string)
      modifies this
      ensures values == old(values).(comment := comment) && pending == old(pending)
    {
      values := values.(comment := comment);
    }

    method EditAuthor(author: string)
      modifies this
      ensures values == old(values).(author := author) && pending == old(pending)
    {
      values := values.(author := author);
    }

    /**
     * `form.handleSubmit(handleSubmit)`. Values the client schema refuses are
     * not sent. Otherwise `handleSubmit` sets the pending flag and awaits the
     * server action: `callThrows` says whether that await rejects, and a
     * reply is the one computed for the clock readings `nowIso` and
     * `nowMillis`. A reply either prepends the review and resets the form or
     * leaves list and form as they were. A rejection escapes `handleSubmit`
     * before `setPending(false)`, so the form stays pending. The submit button
     * is disabled while pending, so no submit starts then.
     */
    method Submit(nowIso: string, nowMillis: int, callThrows: bool) returns (attempt: SubmitAttempt)
      requires !pending
      modifies this, section
      ensures !ClientSchemaAccepts(old(values)) ==>
        && attempt == NotSent && values == old(values) && !pending
        && section.reviews == old(section.reviews)
      ensures ClientSchemaAccepts(old(values)) && callThrows ==>
        && attempt == CallFailed && values == old(values) && pending
        && section.reviews == old(section.reviews)
      ensures ClientSchemaAccepts(old(values)) && !callThrows ==>
        && attempt == Answered(SubmitReview(ToSubmission(catererId, old(values)), nowIso, nowMillis))
        && !pending
        && section.reviews == ApplyReply(old(section.reviews), attempt.reply)
        && values == (if attempt.reply.Accepted? then DefaultValues else old(values))
      ensures old(RatingFromButtons()) && ClientSchemaAccepts(old(values)) && !callThrows ==>
        attempt.Answered? && attempt.reply.Accepted? &&
        section.reviews == Prepend(AsReview(attempt.reply.review), old(section.reviews))
      ensures old(RatingFromButtons()) ==> RatingFromButtons()
    {
      if !ClientSchemaAccepts(values) {
        attempt := NotSent;
        return;
      }
      pending := true;
      if callThrows {
        attempt := CallFailed;
        return;
      }
      var result := SubmitReview(ToSubmission(catererId, values), nowIso, nowMillis);
      pending := false;
      attempt := Answered(result);
      if result.Accepted? {
        section.HandleReviewSubmit(AsReview(result.review));
        values := DefaultValues;
      }
    }
  }
}
