/** The values `useQuiz` derives from the state on every render
    (hooks/useQuiz.ts): the current question, the statistics and the two labels. */
module QuizStats {
  import opened Wrappers
  import opened QuizTypes

  /** The placeholder shown while there is no question at the current index. */
  const PlaceholderQuestion := Question(0, "", [], 0, "", "easy")

  /** `state.questions[state.currentQuestionIndex] || placeholder`. */
  function CurrentQuestion(s: QuizState): (q: Question)
    ensures 0 <= s.currentQuestionIndex < |s.questions| ==> q == s.questions[s.currentQuestionIndex]
    ensures !(0 <= s.currentQuestionIndex < |s.questions|) ==> q == PlaceholderQuestion
  {
    if 0 <= s.currentQuestionIndex < |s.questions| then s.questions[s.currentQuestionIndex]
    else PlaceholderQuestion
  }

  function Max(a: int, b: int): int {
    if a >= b then a else b
  }

  /** `total ? Math.round((part / total) * 100) : 0`, rounding half up exactly. */
  function RoundedPercent(part: int, total: nat): (r: int)
    ensures total == 0 ==> r == 0
    ensures total > 0 ==> 2 * total * r <= 200 * part + total < 2 * total * (r + 1)
    ensures total > 0 && 0 <= part <= total ==> 0 <= r <= 100
  {
    if total == 0 then 0
    else
      var r := (200 * part + total) / (2 * total);
      QuotientBracket(200 * part + total, 2 * total);
      if 0 <= part <= total then PercentInRange(part, total, r); r else r
  }

  lemma MulCancel(m: int, x: int, y: int)
    requires m > 0 && m * x < m * y
    ensures x < y
  {
  }

  /** A quotient lies between the multiples of its divisor around the dividend. */
  lemma QuotientBracket(a: int, m: int)
    requires m > 0
    ensures m * (a / m) <= a < m * (a / m + 1)
  {
    assert a == m * (a / m) + a % m;
    assert m * (a / m + 1) == m * (a / m) + m;
  }

  /** A rounded share of a part no larger than its total is a percentage. */
  lemma PercentInRange(part: int, total: nat, r: int)
    requires 0 <= part <= total && total > 0
    requires 2 * total * r <= 200 * part + total < 2 * total * (r + 1)
    ensures 0 <= r <= 100
  {
    MulCancel(2 * total, 0, r + 1);
    assert 2 * total * r < 2 * total * 101;
    MulCancel(2 * total, r, 101);
  }

  /** Rounding keeps the order of the counts it is given. */
  lemma RoundedPercentMonotonic(a: int, b: int, total: nat)
    requires a <= b
    ensures RoundedPercent(a, total) <= RoundedPercent(b, total)
  {
    if total > 0 {
      var ra, rb := RoundedPercent(a, total), RoundedPercent(b, total);
      assert 2 * total * ra < 2 * total * (rb + 1);
      MulCancel(2 * total, ra, rb + 1);
    }
  }

  /** Two rounded shares of one total add up to at most one more than the
      rounded share of their sum. */
  lemma RoundedPercentSum(a: int, b: int, total: nat)
    requires total > 0
    ensures RoundedPercent(a, total) + RoundedPercent(b, total) <= RoundedPercent(a + b, total) + 1
  {
    var ra, rb, rs := RoundedPercent(a, total), RoundedPercent(b, total), RoundedPercent(a + b, total);
    var m := 2 * total;
    assert m * (ra + rb) == m * ra + m * rb;
    assert m * (rs + 2) == m * (rs + 1) + m;
    assert m * ra + m * rb <= 200 * (a + b) + m;
    assert m * (ra + rb) < m * (rs + 2);
    MulCancel(m, ra + rb, rs + 2);
  }

  /** All of a total is 100%. */
  lemma RoundedPercentWhole(total: nat)
    requires total > 0
    ensures RoundedPercent(total, total) == 100
  {
    var r, m := RoundedPercent(total, total), 2 * total;
    assert m * r <= 200 * total + total < m * 101;
    MulCancel(m, r, 101);
    assert m * 100 < m * (r + 1);
    MulCancel(m, 100, r + 1);
  }

  function TotalQuestions(s: QuizState): nat {
    |s.questions|
  }

  /** The questions answered so far: the current one counts once revealed. */
  function AnsweredCount(s: QuizState): (answered: int)
    ensures answered == s.currentQuestionIndex + 1 <==> s.isAnswerRevealed
    ensures answered == s.currentQuestionIndex <==> !s.isAnswerRevealed
  {
    if s.isAnswerRevealed then s.currentQuestionIndex + 1 else s.currentQuestionIndex
  }

  function WrongAnswersCount(s: QuizState): (r: int)
    ensures r >= 0
    ensures r >= AnsweredCount(s) - s.correctAnswersCount
    ensures r == 0 || r == AnsweredCount(s) - s.correctAnswersCount
  {
    Max(0, AnsweredCount(s) - s.correctAnswersCount)
  }

  function ScorePercentage(s: QuizState): (r: int)
    ensures s.questions == [] ==> r == 0
    ensures s.questions != [] ==> var n := |s.questions|;
      2 * n * r <= 200 * (s.correctAnswersCount) + n < 2 * n * (r + 1)
  {
    RoundedPercent(s.correctAnswersCount, TotalQuestions(s))
  }

  function WrongAnswersPercentage(s: QuizState): (r: int)
    ensures s.questions == [] ==> r == 0
    ensures s.questions != [] ==> var n := |s.questions|;
      2 * n * r <= 200 * (WrongAnswersCount(s)) + n < 2 * n * (r + 1)
  {
    RoundedPercent(WrongAnswersCount(s), TotalQuestions(s))
  }

  /** The score reachable if every question after the current one is right;
      the current one counts as lost whether or not it was answered. */
  function MaxPossibleScorePercentage(s: QuizState): (r: int)
    ensures s.questions == [] ==> r == 0
    ensures s.questions != [] ==> var n := |s.questions|;
      2 * n * r <= 200 * (s.correctAnswersCount + |s.questions| - (s.currentQuestionIndex + 1)) + n < 2 * n * (r + 1)
  {
    RoundedPercent(s.correctAnswersCount + (TotalQuestions(s) - (s.currentQuestionIndex + 1)), TotalQuestions(s))
  }

  function RemainingFromMaxPercentage(s: QuizState): (r: int)
    ensures r >= 0
    ensures r >= MaxPossibleScorePercentage(s) - ScorePercentage(s)
    ensures r == 0 || r == MaxPossibleScorePercentage(s) - ScorePercentage(s)
  {
    Max(0, MaxPossibleScorePercentage(s) - ScorePercentage(s))
  }

  function TopProgressPercentage(s: QuizState): (r: int)
    ensures s.questions == [] ==> r == 0
    ensures s.questions != [] ==> var n := |s.questions|;
      2 * n * r <= 200 * (s.currentQuestionIndex + 1) + n < 2 * n * (r + 1)
  {
    RoundedPercent(s.currentQuestionIndex + 1, TotalQuestions(s))
  }

  /** `getFeedbackTitle`. */
  function FeedbackTitle(s: QuizState): (title: string)
    ensures title == "Correct!" <==> s.selectedOptionIndex == Some(CurrentQuestion(s).correctIndex)
    ensures title == "Correct!" || title == "Sorry!"
  {
    if s.selectedOptionIndex == Some(CurrentQuestion(s).correctIndex) then "Correct!" else "Sorry!"
  }

  /** `getNextButtonLabel`. */
  function NextButtonLabel(s: QuizState): (caption: string)
    ensures caption == "See Results" <==> s.currentQuestionIndex + 1 >= TotalQuestions(s)
    ensures caption == "See Results" || caption == "Next Question"
  {
    if s.currentQuestionIndex + 1 >= TotalQuestions(s) then "See Results" else "Next Question"
  }

  /** With no questions every percentage is 0 and the placeholder is shown. */
  lemma NoQuestionsNoPercentages(s: QuizState)
    requires s.questions == []
    ensures ScorePercentage(s) == 0 && WrongAnswersPercentage(s) == 0 && MaxPossibleScorePercentage(s) == 0
    ensures RemainingFromMaxPercentage(s) == 0 && TopProgressPercentage(s) == 0
    ensures CurrentQuestion(s) == PlaceholderQuestion
  {
  }

  /** Each percentage is, for a non-empty list, its own count as a rounded
      share of the total. */
  lemma PercentagesAreRoundedShares(s: QuizState)
    requires s.questions != []
    ensures var n := TotalQuestions(s);
      2 * n * ScorePercentage(s) <= 200 * s.correctAnswersCount + n < 2 * n * (ScorePercentage(s) + 1) &&
      2 * n * WrongAnswersPercentage(s) <= 200 * WrongAnswersCount(s) + n < 2 * n * (WrongAnswersPercentage(s) + 1) &&
      2 * n * TopProgressPercentage(s) <= 200 * (s.currentQuestionIndex + 1) + n < 2 * n * (TopProgressPercentage(s) + 1)
  {
  }
}
