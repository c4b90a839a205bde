/** The session hook (hooks/useQuiz.ts): the answer handlers, reset, the
    inline question mapping and the startup effects, over the reducer's state
    and the browser's `localStorage`, which the hook uses directly. */
module UseQuiz {
  import opened Wrappers
  import opened QuizTypes
  import opened QuizUtils
  import opened QuizReducer
  import opened QuizStats
  import QuestionService
  import opened Storage

  // ---------------------------------------------------------------------
  // The inline mapping of a fetched list
  // ---------------------------------------------------------------------

  /** `Math.min(20, …)` as the hook writes it. */
  const InlineQuestionsLimit: nat := 20

  /** `raw.category ? decode(raw.category) : 'General'`: unlike
      `formatCategory`, keeps an "Entertainment:" prefix and, when decoding
      throws, the raw text. */
  function HookCategory(category: Option<string>): (r: string)
    ensures category.None? || category.value == "" ==> r == "General"
    ensures category.Some? && category.value != "" ==> r == Decode(category.value)
  {
    if category.None? || category.value == "" then "General" else Decode(category.value)
  }

  /** Where decoding succeeds and the text has no "Entertainment:" prefix,
      the hook's category and `formatCategory` agree. */
  lemma HookCategoryAgreesWithFormat(category: Option<string>)
    requires category.Some? && category.value != "" ==>
      DecodeUriComponent(category.value).Some? && !HasEntertainmentPrefix(DecodeUriComponent(category.value).value)
    ensures HookCategory(category) == FormatCategory(category)
  {
  }

  /** The `rawQuestions.map` callback of the first effect: the service's
      mapping with the hook's category. */
  function MapQuestionsInline(rawQuestions: seq<RawQuestion>, optionRolls: nat -> nat -> Random): (r: seq<Question>)
    ensures |r| == |rawQuestions|
    ensures forall i :: 0 <= i < |r| ==>
      r[i] == QuestionService.MapQuestions(rawQuestions, optionRolls)[i].(category := HookCategory(rawQuestions[i].category))
  {
    var mapped := seq(|rawQuestions|, i requires 0 <= i < |rawQuestions| =>
      QuestionService.BuildQuestion(rawQuestions[i], i, optionRolls(i), HookCategory(rawQuestions[i].category)));
    assert forall i :: 0 <= i < |mapped| ==>
      mapped[i] == QuestionService.BuildQuestion(rawQuestions[i], i, optionRolls(i), HookCategory(rawQuestions[i].category));
    mapped
  }

  /** The list the first effect dispatches after a fetch: mapped, shuffled
      and cut to at most 20. */
  function PrepareInline(rawQuestions: seq<RawQuestion>, optionRolls: nat -> nat -> Random, orderRolls: nat -> Random): (r: seq<Question>)
    ensures |r| == QuestionService.Min(InlineQuestionsLimit, |rawQuestions|)
  {
    var shuffled := Shuffled(MapQuestionsInline(rawQuestions, optionRolls), orderRolls);
    shuffled[..QuestionService.Min(InlineQuestionsLimit, |shuffled|)]
  }

  /** The fetched list holds at most 20 questions, each one a mapped record. */
  lemma PrepareInlineBounds(rawQuestions: seq<RawQuestion>, optionRolls: nat -> nat -> Random, orderRolls: nat -> Random)
    ensures var r := PrepareInline(rawQuestions, optionRolls, orderRolls);
      |r| == QuestionService.Min(InlineQuestionsLimit, |rawQuestions|) <= InlineQuestionsLimit &&
      multiset(r) <= multiset(MapQuestionsInline(rawQuestions, optionRolls))
  {
    var mapped := MapQuestionsInline(rawQuestions, optionRolls);
    ShuffledPermutes(mapped, orderRolls);
    QuestionService.ShuffledPrefix(mapped, orderRolls, QuestionService.Min(InlineQuestionsLimit, |mapped|));
  }

  // ---------------------------------------------------------------------
  // The two answer handlers as functions of the state they close over
  // ---------------------------------------------------------------------

  /** `state.questions[state.currentQuestionIndex]?.correctIndex`. */
  function CorrectIndexAt(s: QuizState): (r: Option<int>)
    ensures r.Some? <==> 0 <= s.currentQuestionIndex < |s.questions|
    ensures r.Some? ==> r.value == s.questions[s.currentQuestionIndex].correctIndex
  {
    if 0 <= s.currentQuestionIndex < |s.questions| then Some(s.questions[s.currentQuestionIndex].correctIndex) else None
  }

  /** The dispatches of `handleOptionSelect(optionIndex)`, applied in order. */
  function OptionSelected(s: QuizState, optionIndex: int): (r: QuizState)
    ensures s.isAnswerRevealed ==> r == s
    ensures !s.isAnswerRevealed ==> r == s.(
      selectedOptionIndex := Some(optionIndex),
      correctAnswersCount := s.correctAnswersCount + (if CorrectIndexAt(s) == Some(optionIndex) then 1 else 0),
      isAnswerRevealed := true)
  {
    if s.isAnswerRevealed then s
    else
      var selected := Reduce(s, SetSelectedOption(Some(optionIndex)));
      var scored := if CorrectIndexAt(s) == Some(optionIndex) then Reduce(selected, IncrementCorrectCount) else selected;
      Reduce(scored, SetAnswerRevealed(true))
  }

  /** The dispatches of `handleNextQuestion`: confirm an unrevealed selection,
      otherwise advance or complete. */
  function NextQuestion(s: QuizState): (r: QuizState)
    ensures !s.isAnswerRevealed && s.selectedOptionIndex.None? ==> r == s
    ensures !s.isAnswerRevealed && s.selectedOptionIndex.Some? ==> r == s.(
      correctAnswersCount := s.correctAnswersCount + (if s.selectedOptionIndex == CorrectIndexAt(s) then 1 else 0),
      isAnswerRevealed := true)
    ensures s.isAnswerRevealed && s.currentQuestionIndex + 1 >= |s.questions| ==> r == s.(isQuizComplete := true)
    ensures s.isAnswerRevealed && s.currentQuestionIndex + 1 < |s.questions| ==> r == s.(
      currentQuestionIndex := s.currentQuestionIndex + 1, selectedOptionIndex := None, isAnswerRevealed := false)
  {
    if !s.isAnswerRevealed then
      if s.selectedOptionIndex.None? then s
      else
        var scored := if s.selectedOptionIndex == CorrectIndexAt(s) then Reduce(s, IncrementCorrectCount) else s;
        Reduce(scored, SetAnswerRevealed(true))
    else if s.currentQuestionIndex + 1 >= |s.questions| then Reduce(s, SetQuizComplete(true))
    else Reduce(s, SetQuestionIndex(s.currentQuestionIndex + 1))
  }

  /** The results `handleNextQuestion` writes: only when it completes the quiz,
      and without a timestamp. */
  function ResultsOnNext(s: QuizState): (r: Option<QuizResults>)
    ensures r.Some? <==> s.isAnswerRevealed && s.currentQuestionIndex + 1 >= |s.questions|
    ensures r.Some? ==> r.value == QuizResults(s.correctAnswersCount, |s.questions|, None)
  {
    if s.isAnswerRevealed && s.currentQuestionIndex + 1 >= |s.questions|
    then Some(QuizResults(s.correctAnswersCount, |s.questions|, None))
    else None
  }

  // ---------------------------------------------------------------------
  // Sessions driven by the two handlers
  // ---------------------------------------------------------------------

  datatype UserAction = Select(optionIndex: int) | Next

  function Step(s: QuizState, a: UserAction): QuizState {
    match a
    case Select(i) => OptionSelected(s, i)
    case Next => NextQuestion(s)
  }

  /** The state after the user's actions, one after another. */
  function Run(s: QuizState, actions: seq<UserAction>): QuizState
    decreases |actions|
  {
    if actions == [] then s else Run(Step(s, actions[0]), actions[1..])
  }

  /** What holds in every state of a session over `n` questions. */
  predicate SessionInvariant(s: QuizState, n: nat) {
    n > 0 && |s.questions| == n &&
    0 <= s.currentQuestionIndex < n &&
    0 <= s.correctAnswersCount <= AnsweredCount(s) &&
    (s.isAnswerRevealed ==> s.selectedOptionIndex.Some?) &&
    (s.isQuizComplete ==> s.isAnswerRevealed && s.currentQuestionIndex == n - 1)
  }

  /** A session starts from the initial state with its questions set. */
  lemma StartSatisfiesInvariant(questions: seq<Question>)
    requires |questions| > 0
    ensures SessionInvariant(Reduce(InitialQuizState, SetQuestions(questions)), |questions|)
  {
  }

  lemma StepPreservesInvariant(s: QuizState, n: nat, a: UserAction)
    requires SessionInvariant(s, n)
    ensures SessionInvariant(Step(s, a), n)
    ensures Step(s, a).questions == s.questions
    ensures s.currentQuestionIndex <= Step(s, a).currentQuestionIndex <= s.currentQuestionIndex + 1
    ensures s.correctAnswersCount <= Step(s, a).correctAnswersCount <= s.correctAnswersCount + 1
    ensures s.isQuizComplete ==> Step(s, a) == s
  {
  }

  /** However the user clicks, the index stays in range, the count never
      exceeds the questions answered, neither ever goes back, and a completed
      quiz stays as it is. */
  lemma {:induction false} RunPreservesInvariant(s: QuizState, n: nat, actions: seq<UserAction>)
    requires SessionInvariant(s, n)
    ensures SessionInvariant(Run(s, actions), n)
    ensures Run(s, actions).questions == s.questions
    ensures s.currentQuestionIndex <= Run(s, actions).currentQuestionIndex
    ensures s.correctAnswersCount <= Run(s, actions).correctAnswersCount
    ensures s.isQuizComplete ==> Run(s, actions) == s
    decreases |actions|
  {
    if actions != [] {
      StepPreservesInvariant(s, n, actions[0]);
      RunPreservesInvariant(Step(s, actions[0]), n, actions[1..]);
    }
  }

  /** On every state of a session the current question is a real one and
      the wrong-count clamp never clips. */
  lemma SessionCounts(s: QuizState, n: nat)
    requires SessionInvariant(s, n)
    ensures CurrentQuestion(s) == s.questions[s.currentQuestionIndex]
    ensures 0 <= WrongAnswersCount(s) == AnsweredCount(s) - s.correctAnswersCount
    ensures s.correctAnswersCount + WrongAnswersCount(s) <= n
  {
  }

  /** On every state of a session every percentage lies in 0..100. */
  lemma SessionPercentagesInRange(s: QuizState, n: nat)
    requires SessionInvariant(s, n)
    ensures 0 <= ScorePercentage(s) <= 100 && 0 <= WrongAnswersPercentage(s) <= 100
    ensures 0 <= MaxPossibleScorePercentage(s) <= 100 && 0 <= TopProgressPercentage(s) <= 100
  {
    SessionCounts(s, n);
    var count := s.correctAnswersCount;
    assert 0 <= count <= n;
    assert 0 <= count + (n - (s.currentQuestionIndex + 1)) <= n;
    assert 0 <= s.currentQuestionIndex + 1 <= n;
  }

  /** On every state of a session the maximum possible score is at least the
      score, so the remaining-from-max clamp never clips. */
  lemma SessionMaxAboveScore(s: QuizState, n: nat)
    requires SessionInvariant(s, n)
    ensures ScorePercentage(s) <= MaxPossibleScorePercentage(s)
    ensures RemainingFromMaxPercentage(s) == MaxPossibleScorePercentage(s) - ScorePercentage(s)
  {
    var count := s.correctAnswersCount;
    RoundedPercentMonotonic(count, count + (n - (s.currentQuestionIndex + 1)), n);
  }

  /** On every state of a session the score and wrong percentages add up to
      at most 101; rounding each share up by half a point can exceed 100. */
  lemma SessionScorePlusWrong(s: QuizState, n: nat)
    requires SessionInvariant(s, n)
    ensures ScorePercentage(s) + WrongAnswersPercentage(s) <= 101
  {
    SessionCounts(s, n);
    var count, wrong := s.correctAnswersCount, WrongAnswersCount(s);
    RoundedPercentSum(count, wrong, n);
    RoundedPercentMonotonic(count + wrong, n, n);
    RoundedPercentWhole(n);
  }

  /** The bound of 101 is reached: eight questions, one right and seven wrong,
      give 13% and 88%. */
  lemma ScoreAndWrongReach101()
    ensures var s := QuizState(seq(8, _ => PlaceholderQuestion), 7, Some(1), 1, true, true);
      SessionInvariant(s, 8) && ScorePercentage(s) == 13 && WrongAnswersPercentage(s) == 88 &&
      ScorePercentage(s) + WrongAnswersPercentage(s) == 101
  {
    var s := QuizState(seq(8, _ => PlaceholderQuestion), 7, Some(1), 1, true, true);
    assert RoundedPercent(1, 8) == 13;
    assert RoundedPercent(7, 8) == 88;
  }

  /** Selecting each question's correct option and moving on, from question
      `from` to the last. */
  function PerfectAnswers(questions: seq<Question>, from: nat): seq<UserAction>
    decreases |questions| - from
  {
    if from >= |questions| then []
    else [Select(questions[from].correctIndex), Next] + PerfectAnswers(questions, from + 1)
  }

  lemma {:induction false} PerfectAnswersFrom(s: QuizState)
    requires 0 <= s.currentQuestionIndex < |s.questions|
    requires !s.isAnswerRevealed && !s.isQuizComplete
    ensures Run(s, PerfectAnswers(s.questions, s.currentQuestionIndex)) == s.(
      currentQuestionIndex := |s.questions| - 1,
      selectedOptionIndex := Some(s.questions[|s.questions| - 1].correctIndex),
      correctAnswersCount := s.correctAnswersCount + |s.questions| - s.currentQuestionIndex,
      isAnswerRevealed := true,
      isQuizComplete := true)
    decreases |s.questions| - s.currentQuestionIndex
  {
    var i := s.currentQuestionIndex;
    var rest := PerfectAnswers(s.questions, i + 1);
    var actions := PerfectAnswers(s.questions, i);
    assert actions == [Select(s.questions[i].correctIndex), Next] + rest;
    assert actions[0] == Select(s.questions[i].correctIndex) && actions[1..] == [Next] + rest;
    assert ([Next] + rest)[0] == Next && ([Next] + rest)[1..] == rest;
    var answered := OptionSelected(s, s.questions[i].correctIndex);
    var advanced := NextQuestion(answered);
    assert Run(s, actions) == Run(advanced, rest);
    if i + 1 < |s.questions| {
      PerfectAnswersFrom(advanced);
    } else {
      assert rest == [];
    }
  }

  /** Answering every question correctly completes the quiz with a full
      count and a score of 100%. */
  lemma PerfectRunScoresAll(questions: seq<Question>)
    requires |questions| > 0
    ensures var r := Run(Reduce(InitialQuizState, SetQuestions(questions)), PerfectAnswers(questions, 0));
      r.isQuizComplete && r.correctAnswersCount == |questions| && ScorePercentage(r) == 100
  {
    PerfectAnswersFrom(Reduce(InitialQuizState, SetQuestions(questions)));
    RoundedPercentWhole(|questions|);
  }

  /** With no questions, Next does nothing until an option is picked; after
      that it completes the quiz and writes a score of 0 out of 0. */
  lemma EmptyQuizNeedsASelection(optionIndex: int)
    ensures NextQuestion(InitialQuizState) == InitialQuizState
    ensures var picked := OptionSelected(InitialQuizState, optionIndex);
      picked.correctAnswersCount == 0 && NextQuestion(picked).isQuizComplete &&
      ResultsOnNext(picked) == Some(QuizResults(0, 0, None))
  {
  }

  // ---------------------------------------------------------------------
  // What the hook saves and loads
  // ---------------------------------------------------------------------

  /** The `stateToSave` object of the third effect. */
  function Snapshot(s: QuizState): (saved: StorableQuizState)
    ensures Reduce(s, LoadSavedState(PayloadOf(StateRecord(saved)))) == s
  {
    StorableQuizState(s.currentQuestionIndex, s.correctAnswersCount, s.selectedOptionIndex, s.isAnswerRevealed)
  }

  /** What `JSON.parse` of a stored value gives as a LOAD_SAVED_STATE payload:
      the snapshot's four fields, or nothing for any other value, whose
      properties of those names are all undefined. */
  function PayloadOf(v: Value): (p: SavedPayload)
    ensures p.questions.None? && p.isQuizComplete.None?
    ensures !v.StateRecord? ==> p == SavedPayload(None, None, None, None, None, None)
  {
    match v
    case StateRecord(st) =>
      SavedPayload(None, Some(st.currentQuestionIndex), st.selectedOptionIndex,
                   Some(st.correctAnswersCount), Some(st.isAnswerRevealed), None)
    case _ => SavedPayload(None, None, None, None, None, None)
  }

  /** Saving a snapshot and parsing it back gives the reducer's own snapshot payload. */
  lemma PayloadOfSnapshot(s: QuizState)
    ensures PayloadOf(StateRecord(Snapshot(s))) == SnapshotPayload(s)
  {
  }

  /** The second effect: overlay a saved snapshot, if the key holds one. Text
      that does not parse is caught, and a value that is not a snapshot
      carries none of the four fields, so both leave the state as it is. */
  function AfterSavedState(s: QuizState, local: map<string, Entry>): (r: QuizState)
    ensures r.questions == s.questions && r.isQuizComplete == s.isQuizComplete
    ensures (StateKey !in local || !local[StateKey].Json? || !local[StateKey].value.StateRecord?) ==> r == s
    ensures StateKey in local && local[StateKey].Json? && local[StateKey].value.StateRecord? ==>
      var st := local[StateKey].value.state;
      r.currentQuestionIndex == st.currentQuestionIndex &&
      r.correctAnswersCount == st.correctAnswersCount &&
      r.isAnswerRevealed == st.isAnswerRevealed &&
      r.selectedOptionIndex == (if st.selectedOptionIndex.Some? then st.selectedOptionIndex else s.selectedOptionIndex)
  {
    if StateKey in local && local[StateKey].Json? then Reduce(s, LoadSavedState(PayloadOf(local[StateKey].value))) else s
  }

  /** How the first effect goes. */
  datatype StartupOutcome =
    | RestoredQuestions  // a saved list was dispatched
    | DispatchedOther    // a saved value that parses but is not a list was dispatched
    | Fetching           // nothing saved: the list is fetched
    | ParseThrew         // the saved text does not parse: the effect throws

  /** The first effect's decision, from the `quiz_questions` entry. */
  function QuestionsOutcome(local: map<string, Entry>): (r: StartupOutcome)
    ensures r == Fetching <==> !IsTruthy(local, QuestionsKey)
    ensures r == RestoredQuestions <==> QuestionsKey in local && local[QuestionsKey].Json? && local[QuestionsKey].value.QuestionList?
    ensures r == DispatchedOther <==> QuestionsKey in local && local[QuestionsKey].Json? && !local[QuestionsKey].value.QuestionList?
    ensures r == ParseThrew <==> IsTruthy(local, QuestionsKey) && local[QuestionsKey].Text?
  {
    if !IsTruthy(local, QuestionsKey) then Fetching
    else if local[QuestionsKey].Json? && local[QuestionsKey].value.QuestionList? then RestoredQuestions
    else if local[QuestionsKey].Json? then DispatchedOther
    else ParseThrew
  }

  /** The list SET_QUESTIONS receives at startup: the saved one, or the
      prepared fetch result; `response` is `None` when the fetch or its body
      fails. A saved value that is not a list gives no list. */
  function QuestionsToLoad(local: map<string, Entry>, response: Option<seq<RawQuestion>>,
                           optionRolls: nat -> nat -> Random, orderRolls: nat -> Random): (r: Option<seq<Question>>)
    ensures QuestionsOutcome(local) == RestoredQuestions ==> r == Some(local[QuestionsKey].value.questions)
    ensures QuestionsOutcome(local) == ParseThrew || QuestionsOutcome(local) == DispatchedOther ==> r == None
    ensures QuestionsOutcome(local) == Fetching ==>
      r == if response.Some? then Some(PrepareInline(response.value, optionRolls, orderRolls)) else None
  {
    match QuestionsOutcome(local)
    case RestoredQuestions => Some(local[QuestionsKey].value.questions)
    case DispatchedOther => None
    case ParseThrew => None
    case Fetching => if response.Some? then Some(PrepareInline(response.value, optionRolls, orderRolls)) else None
  }

  /** The state once the startup effects and the fetch have all run. */
  function MountedState(s: QuizState, local: map<string, Entry>, response: Option<seq<RawQuestion>>,
                        optionRolls: nat -> nat -> Random, orderRolls: nat -> Random): QuizState {
    var loaded := AfterSavedState(s, local);
    match QuestionsToLoad(local, response, optionRolls, orderRolls)
    case Some(questions) => Reduce(loaded, SetQuestions(questions))
    case None => loaded
  }

  /** A reload resumes the session: with the session's question list and the
      snapshot the hook saved for it in storage, mounting gives back the same
      state, except that completion is not saved. */
  lemma ReloadResumesSession(s: QuizState, local: map<string, Entry>, response: Option<seq<RawQuestion>>,
                             optionRolls: nat -> nat -> Random, orderRolls: nat -> Random)
    requires QuestionsKey in local && local[QuestionsKey] == Json(QuestionList(s.questions))
    requires StateKey in local && local[StateKey] == Json(StateRecord(Snapshot(s)))
    ensures MountedState(InitialQuizState, local, response, optionRolls, orderRolls) == s.(isQuizComplete := false)
  {
    PayloadOfSnapshot(s);
    SetQuestionsCommutesWithLoad(InitialQuizState, s.questions, SnapshotPayload(s));
    SnapshotRoundTrip(s);
  }

  // ---------------------------------------------------------------------
  // The hook
  // ---------------------------------------------------------------------

  /** One mounted `useQuiz`: the reducer state and the `localStorage` it reads
      and writes. A `fault` argument says that `setItem` throws on that call;
      the hook catches and logs it. */
  class QuizHook {
    var state: QuizState
    var local: map<string, Entry>

    constructor(local: map<string, Entry>)
      ensures state == InitialQuizState && this.local == local
    {
      state := InitialQuizState;
      this.local := local;
    }

    /** `dispatch`, applied at once. */
    method Dispatch(action: QuizAction)
      modifies this
      ensures state == Reduce(old(state), action) && local == old(local)
    {
      state := Reduce(state, action);
    }

    /** `handleOptionSelect`: the answer is revealed as soon as an option is picked. */
    method HandleOptionSelect(optionIndex: int)
      modifies this
      ensures state == OptionSelected(old(state), optionIndex) && local == old(local)
    {
      if state.isAnswerRevealed {
        return;
      }
      var current := state;
      Dispatch(SetSelectedOption(Some(optionIndex)));
      if CorrectIndexAt(current) == Some(optionIndex) {
        Dispatch(IncrementCorrectCount);
      }
      Dispatch(SetAnswerRevealed(true));
    }

    /** `handleNextQuestion`: confirms an unrevealed selection, otherwise moves
        on, or completes the quiz and writes the results. */
    method HandleNextQuestion(fault: bool)
      modifies this
      ensures state == NextQuestion(old(state))
      ensures local == match ResultsOnNext(old(state))
        case Some(results) => if fault then old(local) else old(local)[ResultsKey := Json(ResultsRecord(results))]
        case None => old(local)
    {
      var current := state;
      if !current.isAnswerRevealed {
        if current.selectedOptionIndex.None? {
          return;
        }
        if current.selectedOptionIndex == CorrectIndexAt(current) {
          Dispatch(IncrementCorrectCount);
        }
        Dispatch(SetAnswerRevealed(true));
        return;
      }
      var nextQuestionIndex := current.currentQuestionIndex + 1;
      if nextQuestionIndex >= |current.questions| {
        Dispatch(SetQuizComplete(true));
        if !fault {
          local := local[ResultsKey := Json(ResultsRecord(QuizResults(current.correctAnswersCount, |current.questions|, None)))];
        }
      } else {
        Dispatch(SetQuestionIndex(nextQuestionIndex));
      }
    }

    /** `resetQuiz`: back to the initial state, with the snapshot, the
        question list and the results removed from storage. */
    method ResetQuiz()
      modifies this
      ensures state == InitialQuizState
      ensures local == old(local) - {StateKey, QuestionsKey, ResultsKey}
    {
      Dispatch(QuizAction.ResetQuiz);
      local := local - {StateKey};
      local := local - {QuestionsKey};
      local := local - {ResultsKey};
    }

    /** The third effect: save the four persisted fields. */
    method PersistStateEffect(fault: bool)
      modifies this
      ensures state == old(state)
      ensures local == if fault then old(local) else old(local)[StateKey := Json(StateRecord(Snapshot(old(state))))]
    {
      if !fault {
        local := local[StateKey := Json(StateRecord(Snapshot(state)))];
      }
    }

    /** The synchronous part of the first effect: dispatch a saved list, or
        leave the list to the fetch. A saved value that parses but is not a
        list is dispatched as `questions` too; the state's list cannot hold
        it, so here the list stays as it was. */
    method LoadQuestionsEffect() returns (outcome: StartupOutcome)
      modifies this
      ensures outcome == QuestionsOutcome(old(local)) && local == old(local)
      ensures outcome == RestoredQuestions ==> state == Reduce(old(state), SetQuestions(local[QuestionsKey].value.questions))
      ensures outcome != RestoredQuestions ==> state == old(state)
    {
      if IsTruthy(local, QuestionsKey) {
        match local[QuestionsKey]
        case Json(QuestionList(saved)) =>
          Dispatch(SetQuestions(saved));
          return RestoredQuestions;
        case Json(_) =>
          return DispatchedOther;
        case Text(_) =>
          return ParseThrew;
      }
      return Fetching;
    }

    /** The fetch's continuation in the first effect: map, shuffle, cut to
        20, dispatch, and save the list. */
    method ReceiveFetchedQuestions(response: Option<seq<RawQuestion>>, optionRolls: nat -> nat -> Random,
                                   orderRolls: nat -> Random, saveFault: bool)
      modifies this
      ensures response.None? ==> state == old(state) && local == old(local)
      ensures response.Some? ==>
        var finalQuestions := PrepareInline(response.value, optionRolls, orderRolls);
        state == Reduce(old(state), SetQuestions(finalQuestions)) &&
        local == if saveFault then old(local) else old(local)[QuestionsKey := Json(QuestionList(finalQuestions))]
    {
      if response.None? {
        return;
      }
      var mappedQuestions := MapQuestionsInline(response.value, optionRolls);
      var mappedArray := new Question[|mappedQuestions|](i requires 0 <= i < |mappedQuestions| => mappedQuestions[i]);
      assert mappedArray[..] == mappedQuestions;
      var shuffledQuestions := Shuffle(mappedArray, orderRolls);
      var questionsLimit := QuestionService.Min(InlineQuestionsLimit, shuffledQuestions.Length);
      var finalQuestions := shuffledQuestions[..questionsLimit];
      Dispatch(SetQuestions(finalQuestions));
      if !saveFault {
        local := local[QuestionsKey := Json(QuestionList(finalQuestions))];
      }
    }

    /** The second effect. */
    method LoadSavedStateEffect()
      modifies this
      ensures state == AfterSavedState(old(state), old(local)) && local == old(local)
    {
      if IsTruthy(local, StateKey) {
        match local[StateKey]
        case Json(savedState) =>
          Dispatch(LoadSavedState(PayloadOf(savedState)));
        case Text(_) =>
      }
    }

    /** Mounting: the three effects in order, then the fetch if one was
        started. When the first effect throws, nothing else runs. */
    method Mount(response: Option<seq<RawQuestion>>, optionRolls: nat -> nat -> Random, orderRolls: nat -> Random,
                 saveFault: bool, persistFault: bool) returns (outcome: StartupOutcome)
      modifies this
      ensures outcome == QuestionsOutcome(old(local))
      ensures outcome == ParseThrew ==> state == old(state) && local == old(local)
      ensures outcome != ParseThrew ==> state == MountedState(old(state), old(local), response, optionRolls, orderRolls)
      ensures outcome != ParseThrew ==>
        var saved := if persistFault then old(local)
                     else old(local)[StateKey := Json(StateRecord(Snapshot(AfterSavedState(old(state), old(local)))))];
        local == if outcome == Fetching && response.Some? && !saveFault
                 then saved[QuestionsKey := Json(QuestionList(PrepareInline(response.value, optionRolls, orderRolls)))]
                 else saved
    {
      outcome := LoadQuestionsEffect();
      if outcome == ParseThrew {
        return;
      }
      LoadSavedStateEffect();
      if outcome == RestoredQuestions && StateKey in old(local) && old(local)[StateKey].Json? {
        SetQuestionsCommutesWithLoad(old(state), old(local)[QuestionsKey].value.questions, PayloadOf(old(local)[StateKey].value));
      }
      PersistStateEffect(persistFault);
      if outcome == Fetching {
        ReceiveFetchedQuestions(response, optionRolls, orderRolls, saveFault);
      }
    }
  }
}
