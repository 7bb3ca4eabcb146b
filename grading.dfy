/**
 * The grading pipeline of a report card, on values: the rounded average of a
 * course's quarterly scores, the letter grade for that average, the grade
 * points a letter is worth, the grade-point average as the float the
 * report card computes, and the promotion decision taken from it.
 */
module Grading {

  /** The letter grades of the academic scale. */
  datatype Letter = A | B | C | D | F

  /** The outcome of the promotion decision. */
  datatype Decision = Promoted | Retained

  /**
   * A single-precision float as far as the grade-point average needs one:
   * a number, the NaN that 0 / 0.0f produces, or the infinity that a
   * non-zero sum over 0.0f produces.
   */
  datatype Float = Num(value: real) | NaN | PositiveInfinity | NegativeInfinity

  /** The sum of a sequence of scores. */
  function Sum(scores: seq<real>): real
  {
    if scores == [] then 0.0 else scores[0] + Sum(scores[1..])
  }

  /** The sum of four quarterly scores. */
  lemma QuarterSum(q1: real, q2: real, q3: real, q4: real)
    ensures Sum([q1, q2, q3, q4]) == q1 + q2 + q3 + q4
  {
    assert [q4][1..] == [];
    assert Sum([q4]) == q4;
    assert [q3, q4][1..] == [q4];
    assert Sum([q3, q4]) == q3 + q4;
    assert [q2, q3, q4][1..] == [q3, q4];
    assert Sum([q2, q3, q4]) == q2 + q3 + q4;
    assert [q1, q2, q3, q4][1..] == [q2, q3, q4];
  }

  /**
   * The course average: the mean of the scores rounded to the nearest
   * integer, halves rounded up (Math.round). An empty array divides 0 by 0,
   * and Math.round of NaN is 0.
   */
  function CourseAverage(scores: seq<real>): (avg: int)
    ensures |scores| == 0 ==> avg == 0
    ensures |scores| > 0 ==>
      avg as real - 0.5 <= Sum(scores) / |scores| as real < avg as real + 0.5
  {
    if |scores| == 0 then 0 else (Sum(scores) / |scores| as real + 0.5).Floor
  }

  /**
   * The letter grade for a course average, by the strict `>` chain of
   * letterGrade; the contract states it as the inclusive bands of the academic
   * scale (A = 90 - 100, B = 80 - 89, C = 70 - 79, D = 65 - 69, F = below 65).
   */
  function LetterGrade(average: int): (l: Letter)
    ensures l == A <==> 90 <= average
    ensures l == B <==> 80 <= average <= 89
    ensures l == C <==> 70 <= average <= 79
    ensures l == D <==> 65 <= average <= 69
    ensures l == F <==> average <= 64
  {
    if average > 89 then A
    else if average > 79 then B
    else if average > 69 then C
    else if average > 64 then D
    else F
  }

  /** The grade points a letter is worth: A = 4, B = 3, C = 2, D = 1, F = 0. */
  function GradePoints(l: Letter): (w: nat)
    ensures w <= 4
    ensures w == 4 <==> l == A
    ensures w == 0 <==> l == F
  {
    match l
    case A => 4
    case B => 3
    case C => 2
    case D => 1
    case F => 0
  }

  /** A higher course average never earns fewer grade points. */
  lemma LetterGradeMonotone(lo: int, hi: int)
    requires lo <= hi
    ensures GradePoints(LetterGrade(lo)) <= GradePoints(LetterGrade(hi))
  {
  }

  /**
   * The float division `sum / (float) count` of the grade-point average:
   * with no courses, 0 / 0.0f is NaN and any other sum over 0.0f is an
   * infinity of the sum's sign.
   */
  function Quotient(sum: int, count: nat): (q: Float)
    ensures q.Num? <==> count > 0
    ensures q.Num? ==> q.value * count as real == sum as real
    ensures q == NaN <==> count == 0 && sum == 0
    ensures q == PositiveInfinity <==> count == 0 && sum > 0
    ensures q == NegativeInfinity <==> count == 0 && sum < 0
  {
    if count > 0 then Num(sum as real / count as real)
    else if sum == 0 then NaN
    else if sum > 0 then PositiveInfinity
    else NegativeInfinity
  }

  /** A grade-point sum between 0 and 4 per course gives a quotient between 0 and 4. */
  lemma QuotientBounds(sum: int, count: nat)
    requires count > 0 && 0 <= sum <= 4 * count
    ensures Quotient(sum, count).Num? && 0.0 <= Quotient(sum, count).value <= 4.0
  {
  }

  /** A sum of k points for each of count courses gives the quotient k. */
  lemma QuotientOfMultiple(k: int, count: nat)
    requires count > 0
    ensures Quotient(k * count, count) == Num(k as real)
  {
  }

  /**
   * promotionDecision: "Promoted" when the GPA is greater than 1, "Retained"
   * otherwise; as a float comparison, NaN is never greater and positive
   * infinity always is.
   */
  function PromotionDecision(gpa: Float): (d: Decision)
    ensures gpa.Num? ==> (d == Promoted <==> gpa.value > 1.0)
    ensures gpa == NaN || gpa == NegativeInfinity ==> d == Retained
    ensures gpa == PositiveInfinity ==> d == Promoted
  {
    match gpa
    case Num(v) => if v > 1.0 then Promoted else Retained
    case PositiveInfinity => Promoted
    case _ => Retained
  }

  /**
   * Through the integer grade-point sum and the course count: a student is
   * promoted exactly when the sum exceeds the count. With no courses the sum
   * of grade points is 0, the GPA is NaN and the student is retained.
   */
  lemma PromotedIffSumExceedsCount(sum: int, count: nat)
    ensures PromotionDecision(Quotient(sum, count)) == Promoted <==> sum > count
    ensures count == 0 && sum == 0 ==> PromotionDecision(Quotient(sum, count)) == Retained
  {
  }

  /** The boundary cases of the promotion threshold: exactly 1 and 0 are retained. */
  lemma PromotionBoundary(slightlyAbove: real)
    requires slightlyAbove > 1.0
    ensures PromotionDecision(Num(1.0)) == Retained
    ensures PromotionDecision(Num(0.0)) == Retained
    ensures PromotionDecision(NaN) == Retained
    ensures PromotionDecision(Num(slightlyAbove)) == Promoted
  {
  }
}
