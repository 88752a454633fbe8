/**
 * The five fixed rating criteria of the review form (CONFIG.rating.criteria
 * in script.js) and the rating map the form collects for them.
 */
module Criteria {

  /** The criterion keys, in declaration order. */
  datatype Criterion = B1 | B2 | B3 | B4 | B5

  /** `Object.keys(CONFIG.rating.criteria)`: the iteration order of every loop over criteria. */
  const AllCriteria: seq<Criterion> := [B1, B2, B3, B4, B5]

  /** Position of a criterion in declaration order. */
  function Index(c: Criterion): (i: nat)
    ensures i < |AllCriteria| && AllCriteria[i] == c
  {
    match c
    case B1 => 0
    case B2 => 1
    case B3 => 2
    case B4 => 3
    case B5 => 4
  }

  /** The SAW weight of a criterion, in hundredths (0.10 is 10). */
  function Weight(c: Criterion): nat
  {
    match c
    case B1 => 10
    case B2 => 30
    case B3 => 15
    case B4 => 40
    case B5 => 5
  }

  /** The label shown to the user, which the validation message quotes. */
  function DisplayName(c: Criterion): string
  {
    match c
    case B1 => "Kualitas Bahan"
    case B2 => "Desain & Kreativitas"
    case B3 => "Ketepatan Waktu"
    case B4 => "Kepuasan Keseluruhan"
    case B5 => "Pelayanan Customer Service"
  }

  /** No two criteria share a display name. */
  lemma DisplayNameInjective(a: Criterion, b: Criterion)
    ensures DisplayName(a) == DisplayName(b) ==> a == b
  {
  }

  /** Sum of the weights over a list of criteria. */
  function WeightSum(cs: seq<Criterion>): nat
  {
    if cs == [] then 0 else WeightSum(cs[..|cs| - 1]) + Weight(cs[|cs| - 1])
  }

  /** The weights of the five criteria add up to exactly 1.0. */
  lemma WeightsSumToOne()
    ensures WeightSum(AllCriteria) == 100
  {
    assert WeightSum([B1]) == 10 by { assert [B1][..0] == []; }
    assert WeightSum([B1, B2]) == 40 by { assert [B1, B2][..1] == [B1]; }
    assert WeightSum([B1, B2, B3]) == 55 by { assert [B1, B2, B3][..2] == [B1, B2]; }
    assert WeightSum([B1, B2, B3, B4]) == 95 by { assert [B1, B2, B3, B4][..3] == [B1, B2, B3]; }
    assert AllCriteria[..4] == [B1, B2, B3, B4];
  }

  /**
   * `rating * weight * 20` with the weight in hundredths: the per-star
   * contribution of a criterion on the 0-100 scale. Every weight is a
   * multiple of 0.05, so the division is exact.
   */
  function Multiplier(c: Criterion): (m: nat)
    ensures m * 100 == Weight(c) * 20
  {
    Weight(c) * 20 / 100
  }

  /** A rating map as the script keeps it: criterion key to star count. */
  type Ratings = map<Criterion, int>

  /** `ratings[key] || 0`: an absent key reads as 0. */
  function RatingOf(r: Ratings, c: Criterion): (v: int)
    ensures c !in r ==> v == 0
    ensures c in r ==> v == r[c]
  {
    if c in r then r[c] else 0
  }

  /** `{ B1: 0, B2: 0, B3: 0, B4: 0, B5: 0 }`, the fresh rating map of a session. */
  const ZeroRatings: Ratings := map[B1 := 0, B2 := 0, B3 := 0, B4 := 0, B5 := 0]

  /** Every criterion's rating lies in [lo, hi] (absent keys read as 0). */
  predicate AllInRange(r: Ratings, lo: int, hi: int)
  {
    forall c: Criterion :: lo <= RatingOf(r, c) <= hi
  }
}
