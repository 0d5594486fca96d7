/**
 * The server-side review intake (`submitReview`) and the guard in front of the
 * recommendation call (`getAIRecommendation`). The clock and the remote model
 * are not modelled: the ISO timestamp, the millisecond id and the model's
 * answer are parameters.
 */
module ReviewIntake {
  import opened Wrappers
  import opened Strings
  import CatalogData

  /** The four form fields, after the rating has been coerced to a number. */
  datatype ReviewSubmission = ReviewSubmission(catererId: string, rating: real, comment: string, author: string)

  /** The review returned on success: the validated fields plus an id and a date. */
  datatype SubmittedReview = SubmittedReview(
    catererId: string, rating: real, comment: string, author: string, id: int, date: string)

  /** The two shapes of the action's reply. */
  datatype SubmitReply = Rejected(error: string) | Accepted(review: SubmittedReview)

  const InvalidDataMessage := "Invalid data. Please check your submission."
  const MinRating := 1.0
  const MaxRating := 5.0
  const MinCommentLength := 10
  const MinAuthorLength := 2

  /** The server `reviewSchema`; the caterer id may be any string. */
  predicate ReviewSchemaAccepts(f: ReviewSubmission)
  {
    MinRating <= f.rating <= MaxRating &&
    Utf16Length(f.comment) >= MinCommentLength &&
    Utf16Length(f.author) >= MinAuthorLength
  }

  /** `iso.split('T')[0]`: the part of the timestamp before its first 'T'. */
  function DatePart(iso: string): (d: string)
    ensures d <= iso
    ensures 'T' !in d
    ensures |d| < |iso| ==> iso[|d|] == 'T'
  {
    if iso == [] || iso[0] == 'T' then [] else [iso[0]] + DatePart(iso[1..])
  }

  /** The three properties of `DatePart` determine it. */
  lemma {:induction false} DatePartUnique(iso: string, d: string)
    requires d <= iso && 'T' !in d && (|d| < |iso| ==> iso[|d|] == 'T')
    ensures DatePart(iso) == d
  {
    var r := DatePart(iso);
    assert r == iso[..|r|] && d == iso[..|d|];
  }

  lemma DatePartOfTimestamp()
    ensures DatePart("2023-10-15T08:30:00.000Z") == "2023-10-15"
  {
    DatePartUnique("2023-10-15T08:30:00.000Z", "2023-10-15");
  }

  /** `submitReview`, with `nowIso` for `new Date().toISOString()` and `nowMillis` for `Date.now()`. */
  function SubmitReview(f: ReviewSubmission, nowIso: string, nowMillis: int): (r: SubmitReply)
    ensures r.Accepted? <==>
      (1.0 <= f.rating <= 5.0 && Utf16Length(f.comment) >= 10 && Utf16Length(f.author) >= 2)
    ensures r.Rejected? ==> r.error == "Invalid data. Please check your submission."
    ensures r.Accepted? ==>
      && r.review.catererId == f.catererId && r.review.rating == f.rating
      && r.review.comment == f.comment && r.review.author == f.author
      && r.review.id == nowMillis
      && r.review.date <= nowIso && 'T' !in r.review.date
      && (|r.review.date| < |nowIso| ==> nowIso[|r.review.date|] == 'T')
  {
    if !ReviewSchemaAccepts(f) then
      Rejected(InvalidDataMessage)
    else
      Accepted(SubmittedReview(f.catererId, f.rating, f.comment, f.author, nowMillis, DatePart(nowIso)))
  }

  /** The reply's review as the client stores it (`result.review as Review`). */
  function AsReview(s: SubmittedReview): (r: CatalogData.Review)
    ensures r.id == s.id && r.author == s.author && r.rating == s.rating
    ensures r.comment == s.comment && r.date == s.date
  {
    CatalogData.Review(s.id, s.author, s.rating, s.comment, s.date)
  }

  lemma RatingBounds(f: ReviewSubmission, nowIso: string, nowMillis: int)
    requires Utf16Length(f.comment) >= 10 && Utf16Length(f.author) >= 2
    ensures SubmitReview(f.(rating := 0.0), nowIso, nowMillis) == Rejected(InvalidDataMessage)
    ensures SubmitReview(f.(rating := 0.99), nowIso, nowMillis).Rejected?
    ensures SubmitReview(f.(rating := 5.01), nowIso, nowMillis).Rejected?
    ensures SubmitReview(f.(rating := 6.0), nowIso, nowMillis) == Rejected(InvalidDataMessage)
    ensures SubmitReview(f.(rating := 1.0), nowIso, nowMillis).Accepted?
    ensures SubmitReview(f.(rating := 5.0), nowIso, nowMillis).Accepted?
  {
  }

  /** There is no integer check: a half star inside the range is accepted. */
  lemma FractionalRatingAccepted(f: ReviewSubmission, nowIso: string, nowMillis: int)
    requires Utf16Length(f.comment) >= 10 && Utf16Length(f.author) >= 2
    ensures SubmitReview(f.(rating := 2.5), nowIso, nowMillis).Accepted?
    ensures SubmitReview(f.(rating := 2.5), nowIso, nowMillis).review.rating == 2.5
  {
  }

  lemma CommentBoundary(f: ReviewSubmission, nowIso: string, nowMillis: int)
    requires 1.0 <= f.rating <= 5.0 && Utf16Length(f.author) >= 2
    ensures SubmitReview(f.(comment := "123456789"), nowIso, nowMillis).Rejected?
    ensures SubmitReview(f.(comment := "1234567890"), nowIso, nowMillis).Accepted?
  {
  }

  lemma AuthorBoundary(f: ReviewSubmission, nowIso: string, nowMillis: int)
    requires 1.0 <= f.rating <= 5.0 && Utf16Length(f.comment) >= 10
    ensures SubmitReview(f.(author := "A"), nowIso, nowMillis).Rejected?
    ensures SubmitReview(f.(author := "Al"), nowIso, nowMillis).Accepted?
  {
  }

  /** Lengths are UTF-16 code units: a single emoji is a long enough author name. */
  lemma AstralAuthorAccepted(f: ReviewSubmission, nowIso: string, nowMillis: int)
    requires 1.0 <= f.rating <= 5.0 && Utf16Length(f.comment) >= 10
    ensures SubmitReview(f.(author := "\U{1F600}"), nowIso, nowMillis).Accepted?
  {
    AstralCharacterCountsTwice();
  }

  /** The caterer id is never checked, not even for being empty or in the catalog. */
  lemma CatererIdUnchecked(f: ReviewSubmission, otherId: string, nowIso: string, nowMillis: int)
    ensures SubmitReview(f.(catererId := otherId), nowIso, nowMillis).Accepted?
        == SubmitReview(f, nowIso, nowMillis).Accepted?
    ensures SubmitReview(f.(catererId := ""), nowIso, nowMillis).Accepted?
        == SubmitReview(f, nowIso, nowMillis).Accepted?
  {
  }

  /**
   * Reading back the review the client stores gives the submitted author,
   * rating and comment, and the calendar date of the submission.
   */
  lemma StoredReviewRoundTrip(f: ReviewSubmission, nowIso: string, nowMillis: int, day: string)
    requires ReviewSchemaAccepts(f)
    requires day <= nowIso && 'T' !in day && |day| < |nowIso| && nowIso[|day|] == 'T'
    ensures SubmitReview(f, nowIso, nowMillis).Accepted?
    ensures var r := AsReview(SubmitReview(f, nowIso, nowMillis).review);
      && r.author == f.author && r.rating == f.rating && r.comment == f.comment
      && r.id == nowMillis && r.date == day
  {
    DatePartUnique(nowIso, day);
  }

  /** The preference fields as received; `None` stands for a value that is not a string. */
  datatype RawPreferences = RawPreferences(cuisine: Option<string>, budget: Option<string>, eventType: Option<string>)

  /** The server `aiPrefsSchema`: three strings, with no length or value limits. */
  predicate PrefsSchemaAccepts(p: RawPreferences)
  {
    p.cuisine.Some? && p.budget.Some? && p.eventType.Some?
  }

  /**
   * `getAIRecommendation`: `answer` is what the remote recommender returns for
   * these preferences (the id string it produces, or null).
   */
  function GetAIRecommendation(p: RawPreferences, answer: Option<string>): (r: Option<string>)
    ensures (p.cuisine.None? || p.budget.None? || p.eventType.None?) ==> r == None
    ensures (p.cuisine.Some? && p.budget.Some? && p.eventType.Some?) ==> r == answer
  {
    if !PrefsSchemaAccepts(p) then None else answer
  }
}
