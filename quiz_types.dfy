/** The entities of the quiz (types/quiz.types.ts, types/quiz.ts). */
module QuizTypes {
  import opened Wrappers

  /** A question as the session uses it. `difficulty` is whatever non-empty
      text the raw record carried, or "easy": the mapping does not check it. */
  datatype Question = Question(
    id: int,
    question: string,
    options: seq<string>,
    correctIndex: int,
    category: string,
    difficulty: string)

  /** A record as the question source delivers it; every field may be missing. */
  datatype RawQuestion = RawQuestion(
    category: Option<string>,
    questionType: Option<string>,
    difficulty: Option<string>,
    question: Option<string>,
    correctAnswer: Option<string>,
    incorrectAnswers: Option<seq<string>>)

  /** The six fields the reducer works on. `selectedOptionIndex` is `None` for `null`. */
  datatype QuizState = QuizState(
    questions: seq<Question>,
    currentQuestionIndex: int,
    selectedOptionIndex: Option<int>,
    correctAnswersCount: int,
    isAnswerRevealed: bool,
    isQuizComplete: bool)
}
