/** The overall score: the six dimension scores summed, divided by six and
    rounded with Python 3's round, which sends halves to the even neighbour. */
module Averaging {

  function Sum(s: seq<int>): int
  {
    if s == [] then 0 else Sum(s[..|s| - 1]) + s[|s| - 1]
  }

  /** round(total / 6) computed exactly on integers. The result is a nearest
      integer to total / 6, and on a tie (a remainder of exactly 3) the even
      one. */
  function AverageScore(total: int): (avg: int)
    ensures -3 <= 6 * avg - total <= 3
    ensures (6 * avg - total == 3 || 6 * avg - total == -3) ==> avg % 2 == 0
  {
    var q, r := total / 6, total % 6;
    if r < 3 then q
    else if r > 3 then q + 1
    else if q % 2 == 0 then q
    else q + 1
  }

  /** The two properties of AverageScore's contract pin the result down:
      any nearest integer that is even on a tie is AverageScore's. */
  lemma AverageScoreUnique(total: int, a: int)
    requires -3 <= 6 * a - total <= 3
    requires (6 * a - total == 3 || 6 * a - total == -3) ==> a % 2 == 0
    ensures a == AverageScore(total)
  {
  }

  /** Halves go to the even neighbour: 68.5 becomes 68 (not 69 as with
      rounding half up), 69.5 becomes 70, 0.5 becomes 0 and 1.5 becomes 2. */
  lemma HalfToEven()
    ensures AverageScore(411) == 68 && AverageScore(417) == 70
    ensures AverageScore(3) == 0 && AverageScore(9) == 2
  {
  }

  lemma {:induction false} SumOfConstant(s: seq<int>, k: int)
    requires forall i :: 0 <= i < |s| ==> s[i] == k
    ensures Sum(s) == k * |s|
  {
    if s != [] {
      SumOfConstant(s[..|s| - 1], k);
    }
  }

  lemma {:induction false} SumBounds(s: seq<int>)
    requires forall i :: 0 <= i < |s| ==> 0 <= s[i] <= 100
    ensures 0 <= Sum(s) <= 100 * |s|
  {
    if s != [] {
      SumBounds(s[..|s| - 1]);
    }
  }

  /** Six equal scores average to that score. */
  lemma AverageOfEqualScores(s: seq<int>, k: int)
    requires |s| == 6
    requires forall i :: 0 <= i < |s| ==> s[i] == k
    ensures AverageScore(Sum(s)) == k
  {
    SumOfConstant(s, k);
  }

  /** Six scores within the slider range 0..100 average within it too. */
  lemma AverageInRange(s: seq<int>)
    requires |s| == 6
    requires forall i :: 0 <= i < |s| ==> 0 <= s[i] <= 100
    ensures 0 <= AverageScore(Sum(s)) <= 100
  {
    SumBounds(s);
  }
}
