/** The session state machine (reducers/quizReducer.ts). */
module QuizReducer {
  import opened Wrappers
  import opened QuizTypes

  /** `Partial<QuizState>`: a field that is absent or `null` is `None`. */
  datatype SavedPayload = SavedPayload(
    questions: Option<seq<Question>>,
    currentQuestionIndex: Option<int>,
    selectedOptionIndex: Option<int>,
    correctAnswersCount: Option<int>,
    isAnswerRevealed: Option<bool>,
    isQuizComplete: Option<bool>)

  /** The eight action kinds, plus any other action object a caller may dispatch. */
  datatype QuizAction =
    | SetQuestions(questions: seq<Question>)
    | SetQuestionIndex(index: int)
    | SetSelectedOption(option: Option<int>)
    | IncrementCorrectCount
    | SetAnswerRevealed(revealed: bool)
    | SetQuizComplete(complete: bool)
    | ResetQuiz
    | LoadSavedState(payload: SavedPayload)
    | Unrecognised(actionType: string)

  /** `initialQuizState`. */
  const InitialQuizState := QuizState([], 0, None, 0, false, false)

  /** The field-wise `??` merge of LOAD_SAVED_STATE. */
  function Restored(state: QuizState, payload: SavedPayload): (r: QuizState)
    ensures r.questions == state.questions && r.isQuizComplete == state.isQuizComplete
    ensures payload.currentQuestionIndex.Some? ==> r.currentQuestionIndex == payload.currentQuestionIndex.value
    ensures payload.correctAnswersCount.Some? ==> r.correctAnswersCount == payload.correctAnswersCount.value
    ensures payload.selectedOptionIndex.Some? ==> r.selectedOptionIndex == payload.selectedOptionIndex
    ensures payload.isAnswerRevealed.Some? ==> r.isAnswerRevealed == payload.isAnswerRevealed.value
    ensures payload == SavedPayload(None, None, None, None, None, None) ==> r == state
  {
    state.(
      currentQuestionIndex := payload.currentQuestionIndex.GetOr(state.currentQuestionIndex),
      correctAnswersCount := payload.correctAnswersCount.GetOr(state.correctAnswersCount),
      selectedOptionIndex := if payload.selectedOptionIndex.Some? then payload.selectedOptionIndex else state.selectedOptionIndex,
      isAnswerRevealed := payload.isAnswerRevealed.GetOr(state.isAnswerRevealed))
  }

  /** `quizReducer`. */
  function Reduce(state: QuizState, action: QuizAction): (r: QuizState)
    ensures action.ResetQuiz? || action.SetQuestions? || r.questions == state.questions
    ensures action.ResetQuiz? || action.SetQuizComplete? || r.isQuizComplete == state.isQuizComplete
  {
    match action
    case SetQuestions(questions) => state.(questions := questions)
    case SetQuestionIndex(index) =>
      state.(currentQuestionIndex := index, selectedOptionIndex := None, isAnswerRevealed := false)
    case SetSelectedOption(option) => state.(selectedOptionIndex := option)
    case IncrementCorrectCount => state.(correctAnswersCount := state.correctAnswersCount + 1)
    case SetAnswerRevealed(revealed) => state.(isAnswerRevealed := revealed)
    case SetQuizComplete(complete) => state.(isQuizComplete := complete)
    case ResetQuiz => InitialQuizState
    case LoadSavedState(payload) => Restored(state, payload)
    case Unrecognised(_) => state
  }

  /** RESET_QUIZ forgets everything, loaded questions included. */
  lemma ResetDiscardsEverything(state: QuizState)
    ensures var r := Reduce(state, ResetQuiz);
      r.questions == [] && r.currentQuestionIndex == 0 && r.selectedOptionIndex == None &&
      r.correctAnswersCount == 0 && !r.isAnswerRevealed && !r.isQuizComplete
  {
  }

  /** SET_QUESTION_INDEX moves to `index` with a fresh, unanswered question. */
  lemma SetQuestionIndexClearsAnswer(state: QuizState, index: int)
    ensures var r := Reduce(state, SetQuestionIndex(index));
      r.currentQuestionIndex == index && r.selectedOptionIndex == None && !r.isAnswerRevealed &&
      r.questions == state.questions && r.correctAnswersCount == state.correctAnswersCount &&
      r.isQuizComplete == state.isQuizComplete
  {
  }

  /** INCREMENT_CORRECT_COUNT adds exactly one to the count and nothing else. */
  lemma IncrementAddsOne(state: QuizState)
    ensures Reduce(state, IncrementCorrectCount)
      == state.(correctAnswersCount := state.correctAnswersCount + 1)
  {
  }

  /** The four setters each replace their own field only. */
  lemma SettersTouchOneField(state: QuizState, questions: seq<Question>, option: Option<int>, flag: bool)
    ensures Reduce(state, SetQuestions(questions)) == state.(questions := questions)
    ensures Reduce(state, SetSelectedOption(option)) == state.(selectedOptionIndex := option)
    ensures Reduce(state, SetAnswerRevealed(flag)) == state.(isAnswerRevealed := flag)
    ensures Reduce(state, SetQuizComplete(flag)) == state.(isQuizComplete := flag)
  {
  }

  /** An action the reducer does not know leaves the state as it is. */
  lemma UnrecognisedIsIdentity(state: QuizState, actionType: string)
    ensures Reduce(state, Unrecognised(actionType)) == state
  {
  }

  /** LOAD_SAVED_STATE never touches `questions` or `isQuizComplete`, even when
      the payload carries them, and an absent or null field keeps the current
      value: a null selection does not clear a selection that is there. */
  lemma LoadSavedStateOverlay(state: QuizState, payload: SavedPayload)
    ensures var r := Reduce(state, LoadSavedState(payload));
      r.questions == state.questions && r.isQuizComplete == state.isQuizComplete &&
      (payload.currentQuestionIndex.None? ==> r.currentQuestionIndex == state.currentQuestionIndex) &&
      (payload.currentQuestionIndex.Some? ==> r.currentQuestionIndex == payload.currentQuestionIndex.value) &&
      (payload.correctAnswersCount.None? ==> r.correctAnswersCount == state.correctAnswersCount) &&
      (payload.correctAnswersCount.Some? ==> r.correctAnswersCount == payload.correctAnswersCount.value) &&
      (payload.selectedOptionIndex.None? ==> r.selectedOptionIndex == state.selectedOptionIndex) &&
      (payload.selectedOptionIndex.Some? ==> r.selectedOptionIndex == payload.selectedOptionIndex) &&
      (payload.isAnswerRevealed.None? ==> r.isAnswerRevealed == state.isAnswerRevealed) &&
      (payload.isAnswerRevealed.Some? ==> r.isAnswerRevealed == payload.isAnswerRevealed.value)
  {
  }

  /** Loading the same payload twice is loading it once. */
  lemma LoadSavedStateIdempotent(state: QuizState, payload: SavedPayload)
    ensures Reduce(Reduce(state, LoadSavedState(payload)), LoadSavedState(payload))
      == Reduce(state, LoadSavedState(payload))
  {
  }

  /** SET_QUESTIONS and LOAD_SAVED_STATE touch disjoint fields, so the order in
      which the startup effects' dispatches arrive does not matter. */
  lemma SetQuestionsCommutesWithLoad(state: QuizState, questions: seq<Question>, payload: SavedPayload)
    ensures Reduce(Reduce(state, SetQuestions(questions)), LoadSavedState(payload))
      == Reduce(Reduce(state, LoadSavedState(payload)), SetQuestions(questions))
  {
  }

  /** The four persisted fields of a state, as a payload. */
  function SnapshotPayload(s: QuizState): SavedPayload {
    SavedPayload(None, Some(s.currentQuestionIndex), s.selectedOptionIndex,
                 Some(s.correctAnswersCount), Some(s.isAnswerRevealed), None)
  }

  /** Snapshot round trip: the initial state with `s`'s questions, overlaid
      with `s`'s four persisted fields, is `s` except for completion. */
  lemma SnapshotRoundTrip(s: QuizState)
    ensures Reduce(Reduce(InitialQuizState, SetQuestions(s.questions)), LoadSavedState(SnapshotPayload(s)))
      == s.(isQuizComplete := false)
  {
  }
}
