/** The result screen's arithmetic: the rounded percentage and the pass mark. */
module Scoring {

  /**
   * Math.round(score / total * 100), or 0 for an empty quiz: the integer
   * nearest to 100 * score / total, halves rounded up. Computed exactly; the
   * floating-point evaluation of the quotient is not modelled.
   */
  function Percentage(score: nat, total: nat): (p: nat)
    ensures total == 0 ==> p == 0
    ensures score <= total ==> p <= 100
    ensures 0 < total && score == total ==> p == 100
  {
    if total == 0 then 0
    else
      var p := (200 * score + total) / (2 * total);
      assert score <= total ==> p <= 100 by {
        if score <= total && p > 100 {
          DivisionBounds(200 * score + total, 2 * total);
          MultiplyAtLeast(p, 101, 2 * total);
        }
      }
      assert score == total ==> p >= 100 by {
        if score == total && p < 100 {
          DivisionBounds(200 * score + total, 2 * total);
          MultiplyAtLeast(99, p, 2 * total);
        }
      }
      p
  }

  /** The percentage is the integer nearest to 100 * score / total, a half rounding up. */
  lemma PercentageIsNearest(score: nat, total: nat)
    requires total > 0
    ensures var p := Percentage(score, total);
      (2 * p - 1) * total <= 200 * score < (2 * p + 1) * total
  {
    var p := Percentage(score, total);
    DivisionBounds(200 * score + total, 2 * total);
    assert (2 * p - 1) * total == p * (2 * total) - total;
    assert (2 * p + 1) * total == p * (2 * total) + total;
  }

  /** The percentage that marks a level as completed. */
  const PassMark := 75

  /** showResult records the level as completed at this percentage or above. */
  predicate Passed(score: nat, total: nat)
    ensures Passed(score, total) ==> total > 0
    ensures 0 < total && score == total ==> Passed(score, total)
  {
    Percentage(score, total) >= PassMark
  }

  /**
   * The pass mark, in exact terms: a quiz is passed exactly when at least
   * 149/200 of it was answered correctly (74.5 % rounds up to 75).
   */
  lemma PassedIff(score: nat, total: nat)
    requires total > 0
    ensures Passed(score, total) <==> 200 * score >= 149 * total
  {
    var p := Percentage(score, total);
    PercentageIsNearest(score, total);
    if p >= 75 {
      MultiplyAtLeast(p, 75, 2 * total);
    } else {
      MultiplyAtLeast(74, p, 2 * total);
    }
  }

  lemma DivisionBounds(a: nat, b: nat)
    requires b > 0
    ensures (a / b) * b <= a < (a / b) * b + b
  {
  }

  lemma MultiplyAtLeast(x: int, y: int, c: nat)
    requires x >= y
    ensures x * c >= y * c
  {
  }
}
