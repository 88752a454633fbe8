/**
 * The SAW (simple additive weighting) total score, `calculateTotalScore`.
 * Each star rating is multiplied by its weight times 20 and the products are
 * summed, which maps five ratings in 0..5 onto 0..100. With the weights
 * 0.10/0.30/0.15/0.40/0.05 the products are exact integers, so the
 * script's final rounding to two decimals leaves the sum unchanged.
 */
module Scoring {
  import opened Criteria

  /** What one criterion adds to the total: `rating * weight * 20`. */
  function Contribution(r: Ratings, c: Criterion): int
  {
    Multiplier(c) * RatingOf(r, c)
  }

  /** The running total after visiting the criteria `cs` in order. */
  function SumOver(r: Ratings, cs: seq<Criterion>): int
  {
    if cs == [] then 0 else SumOver(r, cs[..|cs| - 1]) + Contribution(r, cs[|cs| - 1])
  }

  /**
   * The total score in closed form, 2·B1 + 6·B2 + 3·B3 + 8·B4 + 1·B5,
   * the reference against which the accumulating loop is proved.
   */
  function Score(r: Ratings): (s: int)
    ensures AllInRange(r, 0, 5) ==> 0 <= s <= 100
    ensures AllInRange(r, 1, 5) ==> 20 <= s <= 100
  {
    2 * RatingOf(r, B1) + 6 * RatingOf(r, B2) + 3 * RatingOf(r, B3)
      + 8 * RatingOf(r, B4) + RatingOf(r, B5)
  }

  /** The weighted sum over the declared criteria is the closed form. */
  lemma {:induction false} SumOverAll(r: Ratings)
    ensures SumOver(r, AllCriteria) == Score(r)
  {
    var b1, b2, b3, b4 := RatingOf(r, B1), RatingOf(r, B2), RatingOf(r, B3), RatingOf(r, B4);
    assert SumOver(r, [B1]) == 2 * b1 by { assert [B1][..0] == []; }
    assert SumOver(r, [B1, B2]) == 2 * b1 + 6 * b2 by { assert [B1, B2][..1] == [B1]; }
    assert SumOver(r, [B1, B2, B3]) == 2 * b1 + 6 * b2 + 3 * b3 by {
      assert [B1, B2, B3][..2] == [B1, B2];
    }
    assert SumOver(r, [B1, B2, B3, B4]) == 2 * b1 + 6 * b2 + 3 * b3 + 8 * b4 by {
      assert [B1, B2, B3, B4][..3] == [B1, B2, B3];
    }
    assert AllCriteria[..4] == [B1, B2, B3, B4];
  }

  /**
   * `calculateTotalScore`: accumulates each criterion's contribution in
   * declaration order. The result is the closed-form score and stays in
   * 0..100 whenever every rating is a star count 0..5.
   */
  method CalculateTotalScore(ratings: Ratings) returns (total: int)
    ensures total == Score(ratings)
    ensures AllInRange(ratings, 0, 5) ==> 0 <= total <= 100
  {
    total := 0;
    for i := 0 to |AllCriteria|
      invariant total == SumOver(ratings, AllCriteria[..i])
    {
      var key := AllCriteria[i];
      var rating := RatingOf(ratings, key);
      total := total + rating * Multiplier(key);
      assert AllCriteria[..i + 1][..i] == AllCriteria[..i];
    }
    assert AllCriteria[..|AllCriteria|] == AllCriteria;
    SumOverAll(ratings);
  }

  /** All five ratings at 5 stars give 100; all at 0, or none given, give 0. */
  lemma ScoreExtremes()
    ensures Score(map[B1 := 5, B2 := 5, B3 := 5, B4 := 5, B5 := 5]) == 100
    ensures Score(ZeroRatings) == 0
    ensures Score(map[]) == 0
  {
  }

  /** A missing criterion key counts exactly as a rating of 0. */
  lemma ScoreMissingKeyIsZero(r: Ratings, c: Criterion)
    requires c !in r
    ensures Score(r) == Score(r[c := 0])
  {
  }

  /** One more star on criterion `c` raises the score by that criterion's weight times 20. */
  lemma ScoreStep(r: Ratings, c: Criterion)
    ensures Score(r[c := RatingOf(r, c) + 1]) == Score(r) + Multiplier(c)
  {
    var r' := r[c := RatingOf(r, c) + 1];
    assert forall d: Criterion :: d != c ==> RatingOf(r', d) == RatingOf(r, d);
    match c
    case B1 => assert Multiplier(B1) == 2;
    case B2 => assert Multiplier(B2) == 6;
    case B3 => assert Multiplier(B3) == 3;
    case B4 => assert Multiplier(B4) == 8;
    case B5 => assert Multiplier(B5) == 1;
  }

  /** Equal ratings k on every criterion give 20·k: the weights sum to one. */
  lemma UniformScore(r: Ratings, k: int)
    requires AllInRange(r, k, k)
    ensures Score(r) == 20 * k
  {
    assert RatingOf(r, B1) == k && RatingOf(r, B2) == k && RatingOf(r, B3) == k;
    assert RatingOf(r, B4) == k && RatingOf(r, B5) == k;
  }
}
