/**
 * `StarRating`: a row of `maxRating` star icons, icon `i` (from 0) filled
 * exactly when `i < rating`. Ratings are exact rationals.
 */
module StarRating {

  const DefaultMaxRating: nat := 5

  /** The filled/unfilled state of each icon, left to right. */
  function Stars(rating: real, maxRating: nat): (r: seq<bool>)
    ensures |r| == maxRating
    ensures forall i :: 0 <= i < maxRating ==> (r[i] <==> (i as real) < rating)
  {
    if maxRating == 0 then [] else Stars(rating, maxRating - 1) + [((maxRating - 1) as real) < rating]
  }

  /** How many icons are filled. */
  function FilledCount(stars: seq<bool>): (n: nat)
    ensures n <= |stars|
  {
    if stars == [] then 0 else FilledCount(stars[..|stars| - 1]) + (if stars[|stars| - 1] then 1 else 0)
  }

  /** The least integer not below `x`. */
  function Ceiling(x: real): (c: int)
    ensures x <= c as real < x + 1.0
  {
    if x == x.Floor as real then x.Floor else x.Floor + 1
  }

  /** `k` limited to the range `[0, hi]`. */
  function Clamp(k: int, hi: nat): (c: nat)
    ensures c <= hi
  {
    if k < 0 then 0 else if k > hi then hi else k
  }

  /** The number of filled icons is the rating rounded up, limited to `[0, maxRating]`. */
  lemma {:induction false} FilledCountIsClampedCeiling(rating: real, maxRating: nat)
    ensures FilledCount(Stars(rating, maxRating)) == Clamp(Ceiling(rating), maxRating)
  {
    if maxRating > 0 {
      var s := Stars(rating, maxRating);
      assert s[..maxRating - 1] == Stars(rating, maxRating - 1);
      FilledCountIsClampedCeiling(rating, maxRating - 1);
    }
  }

  lemma FilledCountAtMostMax(rating: real, maxRating: nat)
    ensures FilledCount(Stars(rating, maxRating)) <= maxRating
  {
  }

  lemma FullAndEmptyRows(rating: real, maxRating: nat)
    ensures rating >= maxRating as real ==> FilledCount(Stars(rating, maxRating)) == maxRating
    ensures rating <= 0.0 ==> FilledCount(Stars(rating, maxRating)) == 0
    ensures rating >= maxRating as real ==> forall i :: 0 <= i < maxRating ==> Stars(rating, maxRating)[i]
    ensures rating <= 0.0 ==> forall i :: 0 <= i < maxRating ==> !Stars(rating, maxRating)[i]
  {
    FilledCountIsClampedCeiling(rating, maxRating);
  }

  lemma FilledCountMonotone(r1: real, r2: real, maxRating: nat)
    requires r1 <= r2
    ensures FilledCount(Stars(r1, maxRating)) <= FilledCount(Stars(r2, maxRating))
  {
    FilledCountIsClampedCeiling(r1, maxRating);
    FilledCountIsClampedCeiling(r2, maxRating);
  }

  /** A fractional rating rounds up: 4.8 and 4.5 fill all five default stars, 4.0 fills four. */
  lemma FractionalRatingsRoundUp()
    ensures FilledCount(Stars(4.8, DefaultMaxRating)) == 5
    ensures FilledCount(Stars(4.5, DefaultMaxRating)) == 5
    ensures FilledCount(Stars(4.0, DefaultMaxRating)) == 4
  {
    FilledCountIsClampedCeiling(4.8, DefaultMaxRating);
    FilledCountIsClampedCeiling(4.5, DefaultMaxRating);
    FilledCountIsClampedCeiling(4.0, DefaultMaxRating);
  }
}
