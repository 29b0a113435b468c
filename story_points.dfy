/**
 * The story-points calculation: the product of the time estimate and the two
 * multipliers, and that product snapped to the nearest half point.
 *
 * Numbers are modelled as exact reals; IEEE-754 doubles are not modelled.
 */
module StoryPoints {

  /** JavaScript's `Math.round`: the nearest integer, an exact half going toward +infinity. */
  function MathRound(x: real): (n: int)
    ensures x - 0.5 < n as real <= x + 0.5
  {
    (x + 0.5).Floor
  }

  /** `x` is a whole multiple of one half. */
  predicate IsHalfStep(x: real)
  {
    (2.0 * x).Floor as real == 2.0 * x
  }

  function Abs(x: real): real
  {
    if x < 0.0 then -x else x
  }

  /** `Math.round(x * 2) / 2`: `x` snapped to a multiple of one half. */
  function RoundToHalf(x: real): (h: real)
    ensures IsHalfStep(h)
    ensures x - 0.25 < h <= x + 0.25
  {
    MathRound(2.0 * x) as real / 2.0
  }

  /** The record the calculation returns: its three inputs, their product and the rounded product. */
  datatype StoryPointsCalculation = StoryPointsCalculation(
    time: real,
    complexity: real,
    definition: real,
    result: real,
    rounded: real
  )

  /** `calculateStoryPoints`: no range checks; any three numbers are accepted. */
  function CalculateStoryPoints(timeValue: real, complexityMultiplier: real, definitionMultiplier: real)
    : (c: StoryPointsCalculation)
    ensures c.time == timeValue && c.complexity == complexityMultiplier && c.definition == definitionMultiplier
    ensures c.result == timeValue * complexityMultiplier * definitionMultiplier
    ensures IsHalfStep(c.rounded)
    ensures c.result - 0.25 < c.rounded <= c.result + 0.25
  {
    var result := timeValue * complexityMultiplier * definitionMultiplier;
    StoryPointsCalculation(timeValue, complexityMultiplier, definitionMultiplier, result, RoundToHalf(result))
  }

  /** An integer `k` is the floor of `y` exactly when `k <= y < k + 1`. */
  lemma FloorUnique(y: real, k: int)
    requires k as real <= y < k as real + 1.0
    ensures y.Floor == k
  {
  }

  /** The rounded value is the only multiple of one half in the window `(x - 1/4, x + 1/4]`. */
  lemma RoundToHalfUnique(x: real, h: real)
    requires IsHalfStep(h)
    requires x - 0.25 < h <= x + 0.25
    ensures h == RoundToHalf(x)
  {
    var k := (2.0 * h).Floor;
    FloorUnique(2.0 * x + 0.5, k);
  }

  /**
   * The rounded value is a nearest multiple of one half; of two equally near
   * ones it is the larger (ties go up).
   */
  lemma RoundToHalfNearest(x: real, m: real)
    requires IsHalfStep(m)
    ensures Abs(RoundToHalf(x) - x) <= Abs(m - x)
    ensures m != RoundToHalf(x) && Abs(m - x) == Abs(RoundToHalf(x) - x) ==> m < RoundToHalf(x)
  {
    var h := RoundToHalf(x);
    if m != h {
      var a, b := (2.0 * m).Floor, (2.0 * h).Floor;
      assert a != b;
      if a < b {
        assert m <= h - 0.5;
      } else {
        assert m >= h + 0.5;
      }
    }
  }

  /** A value already on a half step is left unchanged, and only such values are. */
  lemma RoundToHalfFixesHalfSteps(x: real)
    ensures RoundToHalf(x) == x <==> IsHalfStep(x)
  {
    if IsHalfStep(x) {
      RoundToHalfUnique(x, x);
    }
  }

  /** Rounding twice is rounding once. */
  lemma RoundToHalfIdempotent(x: real)
    ensures RoundToHalf(RoundToHalf(x)) == RoundToHalf(x)
  {
    RoundToHalfFixesHalfSteps(RoundToHalf(x));
  }

  /** A value a quarter above a half step (an exact tie) is rounded up, by a quarter. */
  lemma RoundToHalfTiesUp(x: real)
    requires IsHalfStep(x - 0.25)
    ensures RoundToHalf(x) == x + 0.25
  {
    var k := (2.0 * (x - 0.25)).Floor;
    assert 2.0 * (x + 0.25) == (k + 1) as real;
    RoundToHalfUnique(x, x + 0.25);
  }

  /** Rounding never reverses the order of two values. */
  lemma RoundToHalfMonotone(x: real, y: real)
    requires x <= y
    ensures RoundToHalf(x) <= RoundToHalf(y)
  {
    var a, b := MathRound(2.0 * x), MathRound(2.0 * y);
    assert a <= b;
  }

  /** The calculations the source's tests check. */
  lemma CalculateStoryPointsExamples()
    ensures CalculateStoryPoints(2.0, 1.5, 1.25).result == 3.75
    ensures CalculateStoryPoints(2.0, 1.5, 1.25).rounded == 4.0
    ensures CalculateStoryPoints(2.0, 2.0, 1.25).result == 5.0
    ensures CalculateStoryPoints(2.0, 2.0, 1.25).rounded == 5.0
    ensures CalculateStoryPoints(1.0, 1.0, 1.1).rounded == 1.0
    ensures CalculateStoryPoints(1.0, 1.0, 1.3).rounded == 1.5
    ensures CalculateStoryPoints(1.0, 1.0, 1.7).rounded == 1.5
    ensures CalculateStoryPoints(1.0, 1.0, 1.8).rounded == 2.0
    ensures CalculateStoryPoints(0.5, 1.0, 1.0).result == 0.5
    ensures CalculateStoryPoints(0.5, 1.0, 1.0).rounded == 0.5
    ensures CalculateStoryPoints(5.0, 2.0, 1.5).result == 15.0
    ensures CalculateStoryPoints(5.0, 2.0, 1.5).rounded == 15.0
  {
    RoundToHalfUnique(3.75, 4.0);
    RoundToHalfUnique(5.0, 5.0);
    RoundToHalfUnique(1.1, 1.0);
    RoundToHalfUnique(1.3, 1.5);
    RoundToHalfUnique(1.7, 1.5);
    RoundToHalfUnique(1.8, 2.0);
    RoundToHalfUnique(0.5, 0.5);
    RoundToHalfUnique(15.0, 15.0);
  }
}
