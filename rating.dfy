/**
 * The rating model of a calibration attempt (src/domain/problem.ts, calculateRatingDelta): an Elo-style
 * update with step K = 32 and curve width 400, rounded with Math.round, where a rounded change of zero
 * is forced to one point in the direction of the outcome.
 */
module Rating {

  const K: int := 32
  const Width: int := 400

  /** 10^k for an integer exponent. */
  function Pow10(k: int): (r: real)
    ensures r > 0.0
    ensures k >= 0 ==> r >= 1.0
    decreases if k < 0 then -k else k
  {
    if k == 0 then 1.0
    else if k > 0 then 10.0 * Pow10(k - 1)
    else Pow10(k + 1) / 10.0
  }

  /**
   * The curve 10^(d / 400) through which the model reads Math.pow(10, d / 400): exact whenever d is a
   * multiple of 400, and linear between two consecutive multiples. Only its positivity, its value 1 at
   * d = 0, its exactness at multiples of 400 and its monotonicity are used below.
   */
  function Growth(d: int): (r: real)
    ensures r > 0.0
    ensures d % Width == 0 ==> r == Pow10(d / Width)
  {
    Pow10(d / Width) * (1.0 + 9.0 * (d % Width) as real / Width as real)
  }

  /** Expected probability that a learner rated u solves a problem rated p: 1 / (1 + 10^((p - u) / 400)). */
  function Expected(u: int, p: int): (e: real)
    ensures 0.0 < e < 1.0
    ensures u == p ==> e == 0.5
    ensures (p - u) % Width == 0 ==> e == 1.0 / (1.0 + Pow10((p - u) / Width))
  {
    var g := Growth(p - u);
    assert (p - u) == 0 ==> g == 1.0;
    1.0 / (1.0 + g)
  }

  /** Math.round: the nearest integer, halves rounded up. */
  function Round(x: real): (r: int)
    ensures r as real - 0.5 <= x < r as real + 0.5
  {
    (x + 0.5).Floor
  }

  /** calculateRatingDelta(userRating, problemRating, isCorrect). */
  function CalculateRatingDelta(userRating: int, problemRating: int, isCorrect: bool): (delta: int)
    ensures isCorrect ==> 1 <= delta <= K
    ensures !isCorrect ==> -K <= delta <= -1
  {
    var expected := Expected(userRating, problemRating);
    var result := if isCorrect then 1.0 else 0.0;
    var rounded := Round(K as real * (result - expected));
    if rounded == 0 then (if isCorrect then 1 else -1) else rounded
  }

  /** A rating change is never zero: a rounded zero becomes +1 or -1 by outcome. */
  lemma DeltaNeverZero(userRating: int, problemRating: int, isCorrect: bool)
    ensures CalculateRatingDelta(userRating, problemRating, isCorrect) != 0
    ensures (CalculateRatingDelta(userRating, problemRating, isCorrect) > 0) == isCorrect
  {
  }

  /** Equal ratings give expected = 1/2 and so a change of +16 on success and -16 on failure. */
  lemma EqualRatings(r: int)
    ensures CalculateRatingDelta(r, r, true) == 16
    ensures CalculateRatingDelta(r, r, false) == -16
  {
    assert Expected(r, r) == 0.5;
  }

  /** A learner rated 200 solving a problem rated 600: expected = 1/11, change round(32 * 10/11) = 29. */
  lemma UnderdogSuccess()
    ensures CalculateRatingDelta(200, 600, true) == 29
  {
    assert Pow10(1) == 10.0;
    assert Expected(200, 600) == 1.0 / 11.0;
    assert K as real * (1.0 - 1.0 / 11.0) == 320.0 / 11.0;
  }

  /** Between two consecutive integers the curve never decreases. */
  lemma GrowthStep(d: int)
    ensures Growth(d) <= Growth(d + 1)
  {
    var k := d / Width;
    var m := d % Width;
    if m < Width - 1 {
      assert (d + 1) / Width == k && (d + 1) % Width == m + 1;
    } else {
      assert (d + 1) / Width == k + 1 && (d + 1) % Width == 0;
      assert Pow10(k + 1) == 10.0 * Pow10(k) by {
        if k + 1 <= 0 {
          assert Pow10(k) == Pow10(k + 1) / 10.0;
        }
      }
      assert Growth(d) == Pow10(k) * (1.0 + 9.0 * 399.0 / 400.0);
    }
  }

  lemma {:induction false} GrowthMonotone(d1: int, d2: int)
    requires d1 <= d2
    ensures Growth(d1) <= Growth(d2)
    decreases d2 - d1
  {
    if d1 < d2 {
      GrowthStep(d1);
      GrowthMonotone(d1 + 1, d2);
    }
  }

  /** A harder problem is never more likely to be solved. */
  lemma ExpectedDecreasing(u: int, p1: int, p2: int)
    requires p1 <= p2
    ensures Expected(u, p2) <= Expected(u, p1)
  {
    GrowthMonotone(p1 - u, p2 - u);
    ReciprocalAntitone(1.0 + Growth(p1 - u), 1.0 + Growth(p2 - u));
  }

  lemma ReciprocalAntitone(a: real, b: real)
    requires 0.0 < a <= b
    ensures 1.0 / b <= 1.0 / a
  {
    var x, y := 1.0 / a, 1.0 / b;
    assert x > 0.0 && y > 0.0;
    assert x * a == 1.0 && y * b == 1.0;
    assert x * a <= x * b;
    assert y * b <= x * b;
  }

  /**
   * Monotonicity in the problem's rating: for the same learner and outcome, a harder problem never
   * gives a smaller change (a bigger reward for success, a smaller penalty for failure).
   */
  lemma DeltaMonotoneInProblem(u: int, p1: int, p2: int, isCorrect: bool)
    requires p1 <= p2
    ensures CalculateRatingDelta(u, p1, isCorrect) <= CalculateRatingDelta(u, p2, isCorrect)
  {
    ExpectedDecreasing(u, p1, p2);
    var result := if isCorrect then 1.0 else 0.0;
    var x1 := K as real * (result - Expected(u, p1));
    var x2 := K as real * (result - Expected(u, p2));
    assert x1 <= x2;
    assert Round(x1) <= Round(x2);
  }
}
