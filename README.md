# quiz-app core in Dafny

This project models the core of quiz-app, a single-player multiple-choice
trivia quiz, and proves properties of that model. The core has five parts:

- **The session state machine.** `quizReducer` changes a six-field session
  record. `useQuiz` drives it through two answer handlers, `handleOptionSelect`
  and `handleNextQuestion`, plus a reset.
- **The statistics and labels.** `useQuiz` computes them on every render:
  score, wrong, max-possible, remaining-from-max and progress percentages, the
  current question with its placeholder, the feedback title and the next
  button's label.
- **Question building.** Each raw trivia record is decoded (`decode`, that is
  `decodeURIComponent` with a fail-soft fallback). Its options are shuffled by
  Fisher–Yates, its correct index is found, and its category is normalised
  (`formatCategory`). The list is shuffled and cut to 20. This pipeline exists
  twice: in `QuizService.fetchQuestions`, with a question cache and bounded
  retries, and inline in the first startup effect of `useQuiz`.
- **The persistence gateway.** `StorageService` reads and writes a durable
  store (`localStorage`) and a session store (`sessionStorage`). In its get,
  set and remove helpers a failure reads as `null` or returns `false`; the
  reset-flag calls are not guarded, and `clearAllQuizData` and
  `updateLastActive` return nothing.
- **The startup of `useQuiz`.** It loads saved questions or fetches them,
  overlays a saved snapshot, and then saves the snapshot again.

## How the model is built

Each source file becomes one module:
- `quiz_types.dfy`: QuizTypes, for the types files.
- `quiz_reducer.dfy`: QuizReducer.
- `quiz_utils.dfy`: QuizUtils.
- `quiz_service.dfy`: QuestionService.
- `storage_service.dfy`: Storage.
- `use_quiz_stats.dfy` and `use_quiz.dfy`: QuizStats and UseQuiz, together
  modelling hooks/useQuiz.ts.
- `wrappers.dfy`: the `Option` and `Result` types used throughout.

What each part of the source becomes:
- **Pure code becomes functions.** This covers the reducer, `decode`,
  `formatCategory`, `mapQuestions` and the statistics.
- **Code that changes things in place becomes methods on classes.**
  - `Shuffle` copies the array and swaps in the copy. It is proved to return
    exactly `Shuffled`, the specification function.
  - `QuizService` holds its `questionCache`. `FetchQuestions` is a recursive
    method whose result is tied to the first successful attempt.
  - `StorageService` holds the two stores as maps from keys to entries.
  - `QuizHook` holds the reducer state and `localStorage`. Its handlers apply
    their dispatches one by one and are proved equal to the functions
    `OptionSelected` and `NextQuestion`.

What stands in for things outside the model:
- **`Math.random()`.** Each draw is an input of type `Random`, a real in
  [0, 1).
- **A fetch.** It is an input: the raw list, or `None` when the request, its
  status or its body fails.
- **`Date.now()`.** It is an input `now`.
- **A storage call that throws.** It is a `fault` flag.
- **JSON.** Stored text is an `Entry`: either the JSON of a modelled `Value`,
  or some other text.

`decode` is modelled exactly as ECMA-262 defines `decodeURIComponent`
(section 19.2.6.2 of ECMA-262):
- It percent-decodes as in section 2.1 of RFC 3986.
- It validates UTF-8 as in section 3 of RFC 3629. Overlong forms, surrogates
  and code points above U+10FFFF are rejected.
- A failure returns the input unchanged.

Its partner is `PercentEncode`. Decoding the percent-encoding of any text gives
that text back.

`Math.round(k / total * 100)` is modelled as exact half-up rounding,
`(200k + total) / (2 total)`.

### Behaviour worth knowing

- The percentages are not clamped to 0..100; only the remaining-from-max
  percentage has a floor of 0. The max-possible numerator is
  `correct + total - (index + 1)`, with no clamp to `total`.
- On reachable states the score and wrong percentages can add up to 101. An
  example is eight questions with one right and seven wrong, which gives 13%
  and 88% (`UseQuiz.ScoreAndWrongReach101`). The bound that does hold is 101
  (`UseQuiz.SessionScorePlusWrong`).
- On an empty question list, `handleNextQuestion` does nothing until an option
  has been picked (`UseQuiz.EmptyQuizNeedsASelection`).
- The hook never reads or writes the reset flag.
- The hook saves its snapshot even when the quiz is complete or has no
  questions.
- The hook's inline mapping labels a category with `decode` alone. It keeps an
  "Entertainment:" prefix, and when decoding fails it keeps the raw text;
  `formatCategory` returns "General" in that case. See
  `UseQuiz.HookCategory` and `UseQuiz.HookCategoryAgreesWithFormat`.

## Model

| member | source | states |
|---|---|---|
| QuizReducer.Reduce | reducers/quizReducer.ts:76-116 | only RESET_QUIZ and SET_QUESTIONS change `questions`; only RESET_QUIZ and SET_QUIZ_COMPLETE change completion |
| QuizReducer.Restored | reducers/quizReducer.ts:104-111 | LOAD_SAVED_STATE keeps `questions` and completion; each field the payload carries wins; an empty payload leaves the state as it is |
| QuizReducer.ResetDiscardsEverything | reducers/quizReducer.ts:101-102 | RESET_QUIZ gives the initial state whatever came before: no questions, index 0, no selection, count 0, not revealed, not complete |
| QuizReducer.SetQuestionIndexClearsAnswer | reducers/quizReducer.ts:81-87 | SET_QUESTION_INDEX sets the index, clears the selection and the reveal, and keeps questions, count and completion |
| QuizReducer.IncrementAddsOne | reducers/quizReducer.ts:92-93 | INCREMENT_CORRECT_COUNT raises the count by exactly one and changes nothing else |
| QuizReducer.SettersTouchOneField | reducers/quizReducer.ts:78-99 | SET_QUESTIONS, SET_SELECTED_OPTION, SET_ANSWER_REVEALED and SET_QUIZ_COMPLETE each replace their own field only |
| QuizReducer.UnrecognisedIsIdentity | reducers/quizReducer.ts:113-114 | an unknown action returns the state unchanged |
| QuizReducer.LoadSavedStateOverlay | reducers/quizReducer.ts:104-111 | LOAD_SAVED_STATE keeps questions and completion; each of the four fields takes the payload's value when present, and an absent or null one (a null selection included) keeps the current value |
| QuizReducer.LoadSavedStateIdempotent | reducers/quizReducer.ts:104-111 | loading the same payload twice equals loading it once |
| QuizReducer.SetQuestionsCommutesWithLoad | reducers/quizReducer.ts:78-111 | SET_QUESTIONS and LOAD_SAVED_STATE give the same state in either order |
| QuizReducer.SnapshotRoundTrip | reducers/quizReducer.ts:66-111 | the initial state with s's questions, overlaid with s's four saved fields, equals s except that completion is false |
| QuizUtils.DecodeUriComponent | utils/quiz.ts:3 | decoding never makes text longer, and fails only on text that contains '%' |
| QuizUtils.DecodeWithoutPercent | utils/quiz.ts:3 | text without '%' decodes to itself |
| QuizUtils.DecodePercentEncoded | utils/quiz.ts:3 | decoding the UTF-8 percent-encoding of any text gives that text back |
| QuizUtils.DecodeKeepsBadEscape | utils/quiz.ts:1-8 | after any prefix that decodes, a '%' not followed by two hex digits makes decoding fail, and `decode` then returns its whole input unchanged |
| QuizUtils.Decode | utils/quiz.ts:1-8 | never fails; returns the decoded text when decoding succeeds and the input otherwise; identity on text without '%'; never longer than its input |
| QuizUtils.TrimStartWhitespace | utils/quiz.ts:28 | removes the longest prefix made only of characters that `\s` matches, and nothing more |
| QuizUtils.StripEntertainmentPrefix | utils/quiz.ts:28 | without a case-insensitive leading "entertainment:" the text is unchanged; with one, the result is what follows that prefix and the whitespace after it |
| QuizUtils.FormatCategory | utils/quiz.ts:23-33 | "General" for a missing or empty category and when decoding fails; otherwise the decoded text with the prefix stripped |
| QuizUtils.RandomIndex | utils/quiz.ts:14 | every drawn index lies between 0 and the current index, so each swap is in bounds |
| QuizUtils.Shuffled | utils/quiz.ts:10-21 | the shuffle for any draws has the length of its input |
| QuizUtils.ShuffledPermutes | utils/quiz.ts:10-21 | the shuffle keeps the length and the multiset of elements for every sequence of draws; inputs of length 0 or 1 come back unchanged |
| QuizUtils.Shuffle | utils/quiz.ts:10-21 | returns a fresh array holding exactly the specified shuffle of the argument, a permutation of it; the argument is not modified |
| QuestionService.FindIndex | services/quizService.ts:54 | -1 exactly when the target is absent; otherwise the first position that holds it |
| QuestionService.DecodeAll | services/quizService.ts:52 | decodes every answer in place and order |
| QuestionService.Difficulty | services/quizService.ts:62 | never empty; "easy" exactly when the level is missing, empty or "easy"; any other non-empty level passes through unchecked |
| QuestionService.BuildQuestion | services/quizService.ts:50-63 | id is position + 1; question decoded with '' for missing; options are a permutation of the decoded incorrect answers plus the decoded correct answer, 1 + their number long; the correct index is in bounds and is the first option equal to the correct answer; difficulty is "easy" only when missing or empty |
| QuestionService.MapQuestions | services/quizService.ts:49-65 | one question per record |
| QuestionService.MapQuestionsFacts | services/quizService.ts:50-63 | question i is built from record i: id i + 1, its decoded text, the category from `formatCategory`, its difficulty, options that permute its decoded answers, and a correct index that is in bounds and is the first option equal to the correct answer |
| QuestionService.PrepareQuestionsBounds | services/quizService.ts:33-35 | the fetched list has min(20, records) questions, each drawn from the mapped list and none more often than it occurs there |
| QuestionService.PrepareQuestions | services/quizService.ts:33-35 | the fetched list has min(20, records) questions |
| QuestionService.BackoffDelay | services/quizService.ts:42 | every wait is at least RETRY_DELAY (1000 ms) |
| QuestionService.BackoffDoubles | services/quizService.ts:42 | the first wait is 1000 ms and each later wait doubles the one before |
| QuestionService.FetchSucceedsNow | services/quizService.ts:26-39 | an attempt whose fetch succeeds ends the fetch with that response prepared, after one fetch and no wait |
| QuestionService.FetchRetries | services/quizService.ts:40-43 | a failed attempt below MAX_RETRIES waits 1000·2^k ms and then yields whatever the next attempt yields, with one fetch more |
| QuestionService.FetchGivesUp | services/quizService.ts:44-45 | a failed attempt at or past MAX_RETRIES ends the fetch with the error message, after one fetch and no wait |
| QuestionService.FirstSuccess | services/quizService.ts:20-46 | the attempt that succeeds is the first one whose fetch does; no attempt after MAX_RETRIES is made; none means every attempt up to MAX_RETRIES failed |
| QuestionService.QuizService.constructor | services/quizService.ts:11 | a new service has no cache |
| QuestionService.PrepareFetched | services/quizService.ts:33-35 | the array shuffle of the mapped records, cut to 20, is the list `PrepareQuestions` specifies |
| QuestionService.FetchWaitsSchedule | services/quizService.ts:41-45 | a fetch from attempt k makes at most MAX_RETRIES + 1 − k fetches (one when k is past MAX_RETRIES), waits once between consecutive fetches, and waits 1000·2^j ms after failed attempt j |
| QuestionService.QuizService.FetchQuestions | services/quizService.ts:20-47 | a set cache is returned without fetching and stays as it is; otherwise the result is the first successful response mapped, shuffled and cut to 20, or the error when every attempt up to MAX_RETRIES fails; the cache is set to the result exactly on success; the fetches made and the waits between them are those `FetchWaitsSchedule` bounds |
| QuestionService.QuizService.ClearCache | services/quizService.ts:67-69 | empties the cache |
| QuestionService.RetrySchedule | services/quizService.ts:41-45 | from a first call, a failing fetch is tried 4 times with waits of 1000, 2000 and 4000 ms |
| Storage.Parse | services/storageService.ts:37 | a value comes back exactly when the key holds the JSON of one; a missing key or text gives `null` |
| Storage.StorageService.constructor | services/storageService.ts:14-17 | the service holds the given stores, or none outside a browser |
| Storage.StorageService.GetItem | services/storageService.ts:34-42 | returns the stored value, or `null` for a missing key, empty text, unparsable text, a failing store or no store; never fails |
| Storage.StorageService.SetItem | services/storageService.ts:44-52 | true and the key written when the store works; false and nothing changed when it throws; the other store is untouched |
| Storage.StorageService.RemoveItem | services/storageService.ts:54-62 | true and the key removed when the store works; false and nothing changed when it throws |
| Storage.StorageService.GetQuestions | services/storageService.ts:64-66 | reads `quiz_questions` from the durable store |
| Storage.StorageService.SetQuestions | services/storageService.ts:68-70 | writes only `quiz_questions`; a read after a successful write returns the value |
| Storage.StorageService.GetState | services/storageService.ts:72-74 | reads `quiz_state` from the durable store |
| Storage.StorageService.SetState | services/storageService.ts:76-78 | writes only `quiz_state`; a read after a successful write returns the snapshot |
| Storage.StorageService.GetResults | services/storageService.ts:80-82 | reads `quiz_results` from the durable store |
| Storage.StorageService.SetResults | services/storageService.ts:84-89 | writes only `quiz_results`, with the given score and total and the timestamp replaced by the current time |
| Storage.StorageService.ShouldReset | services/storageService.ts:91-93 | true exactly when the session store holds the text "true" under `quiz_should_reset` |
| Storage.StorageService.SetResetFlag | services/storageService.ts:95-101 | afterwards `ShouldReset` equals the argument (in a browser); only the session store changes |
| Storage.StorageService.ClearAllQuizData | services/storageService.ts:103-116 | removes `quiz_state`, `quiz_results` and the reset flag, and `quiz_questions` exactly when questions are not kept; a key whose removal throws stays |
| Storage.StorageService.UpdateLastActive | services/storageService.ts:118-122 | writes only `quiz_last_active`, with the current time |
| QuizStats.CurrentQuestion | hooks/useQuiz.ts:131-138 | the question at the current index when there is one; the placeholder otherwise |
| QuizStats.RoundedPercent | hooks/useQuiz.ts:144 | 0 for no questions; otherwise the integer nearest to 100·part/total, halves rounded up; within 0..100 when the part is within 0..total |
| QuizStats.RoundedPercentMonotonic | hooks/useQuiz.ts:144-150 | a larger count never gives a smaller percentage |
| QuizStats.RoundedPercentSum | hooks/useQuiz.ts:144-145 | two rounded shares of one total add up to at most one more than the rounded share of their sum |
| QuizStats.RoundedPercentWhole | hooks/useQuiz.ts:144 | all of a total is 100% |
| QuizStats.WrongAnswersCount | hooks/useQuiz.ts:142 | `max(0, answered - correct)`: never negative, and either 0 or exactly answered minus correct |
| QuizStats.AnsweredCount | hooks/useQuiz.ts:141 | the answered count is index + 1 exactly when the answer is revealed, and the index exactly when it is not |
| QuizStats.ScorePercentage | hooks/useQuiz.ts:144 | 0 with no questions; otherwise correct/total as a percentage rounded half up |
| QuizStats.WrongAnswersPercentage | hooks/useQuiz.ts:145 | 0 with no questions; otherwise wrong/total as a percentage rounded half up |
| QuizStats.MaxPossibleScorePercentage | hooks/useQuiz.ts:146-147 | 0 with no questions; otherwise (correct + total − (index + 1))/total as a percentage rounded half up |
| QuizStats.TopProgressPercentage | hooks/useQuiz.ts:149-150 | 0 with no questions; otherwise (index + 1)/total as a percentage rounded half up |
| QuizStats.RemainingFromMaxPercentage | hooks/useQuiz.ts:148 | `max(0, maxPossible - score)`: never negative, and either 0 or exactly max-possible minus score |
| QuizStats.FeedbackTitle | hooks/useQuiz.ts:152-154 | "Correct!" exactly when the selection equals the current question's correct index, "Sorry!" otherwise |
| QuizStats.NextButtonLabel | hooks/useQuiz.ts:156-158 | "See Results" exactly when index + 1 reaches the total, "Next Question" otherwise |
| QuizStats.NoQuestionsNoPercentages | hooks/useQuiz.ts:140-150 | with no questions every percentage is 0 and the placeholder is current |
| QuizStats.PercentagesAreRoundedShares | hooks/useQuiz.ts:144-150 | score, wrong and progress percentages are each their own count as a half-up rounded share of the total |
| UseQuiz.HookCategory | hooks/useQuiz.ts:37 | "General" for a missing or empty category, the decoded text otherwise |
| UseQuiz.HookCategoryAgreesWithFormat | hooks/useQuiz.ts:37 | where decoding succeeds and there is no "Entertainment:" prefix, the hook's label equals `formatCategory`'s |
| UseQuiz.MapQuestionsInline | hooks/useQuiz.ts:26-40 | each question equals the service's mapping of the same record except for the category |
| UseQuiz.PrepareInlineBounds | hooks/useQuiz.ts:42-44 | the list the hook dispatches has min(20, records) questions, each drawn from the mapped list and none more often than it occurs there |
| UseQuiz.PrepareInline | hooks/useQuiz.ts:42-44 | the list the hook dispatches after a fetch has min(20, records) questions |
| UseQuiz.CorrectIndexAt | hooks/useQuiz.ts:92 | the current question's correct index when the index is in range, nothing otherwise |
| UseQuiz.OptionSelected | hooks/useQuiz.ts:89-96 | no change once revealed; otherwise selection := i, count + 1 exactly when i is the current correct index, revealed := true |
| UseQuiz.NextQuestion | hooks/useQuiz.ts:98-122 | unrevealed with no selection: no change; unrevealed with a selection: score at most once and reveal, index kept; revealed at the last question: complete, index kept; revealed otherwise: next index, selection cleared, not revealed |
| UseQuiz.ResultsOnNext | hooks/useQuiz.ts:108-118 | results are written only when a revealed answer is confirmed at the last question, as score = count and total = number of questions |
| UseQuiz.StartSatisfiesInvariant | hooks/useQuiz.ts:46 | a session over n > 0 questions starts inside the session invariant |
| UseQuiz.StepPreservesInvariant | hooks/useQuiz.ts:89-122 | each handler keeps the invariant (index in range, count ≤ answered, reveal needs a selection, complete only revealed at the last question), keeps the questions, moves the index and the count up by at most one, and leaves a complete state as it is |
| UseQuiz.RunPreservesInvariant | hooks/useQuiz.ts:89-122 | after any sequence of clicks the invariant holds, the index and count never decrease, and a complete session never changes |
| UseQuiz.SessionCounts | hooks/useQuiz.ts:131-142 | on session states the current question is a real one and the wrong-count clamp never clips |
| UseQuiz.SessionPercentagesInRange | hooks/useQuiz.ts:144-150 | on session states every percentage lies in 0..100 |
| UseQuiz.SessionMaxAboveScore | hooks/useQuiz.ts:146-148 | on session states the max-possible percentage is at least the score, so remaining-from-max is their difference |
| UseQuiz.SessionScorePlusWrong | hooks/useQuiz.ts:144-145 | on session states score and wrong percentages add up to at most 101 |
| UseQuiz.ScoreAndWrongReach101 | hooks/useQuiz.ts:144-145 | a session state with 8 questions, 1 right and 7 wrong has 13% + 88% = 101% |
| UseQuiz.PerfectAnswersFrom | hooks/useQuiz.ts:89-122 | picking the correct option and moving on from any question to the end completes the quiz at the last index with one point per question |
| UseQuiz.PerfectRunScoresAll | hooks/useQuiz.ts:89-144 | answering every question correctly completes the quiz with a full count and a score of 100% |
| UseQuiz.EmptyQuizNeedsASelection | hooks/useQuiz.ts:98-118 | with no questions, Next does nothing before an option is picked, and after one it completes and writes 0 out of 0 |
| UseQuiz.PayloadOf | hooks/useQuiz.ts:67-68 | the parsed payload never carries questions or completion, and a value that is not a snapshot carries no field at all |
| UseQuiz.Snapshot | hooks/useQuiz.ts:76-81 | loading a state's own saved snapshot back into it changes nothing |
| UseQuiz.PayloadOfSnapshot | hooks/useQuiz.ts:76-81 | a saved snapshot parses back to the reducer's own snapshot payload |
| UseQuiz.AfterSavedState | hooks/useQuiz.ts:63-73 | the second effect never changes questions or completion; a saved state record sets the index, the count and the reveal to the saved ones, and the selection to the saved one when present; without a saved record the state is left as it is |
| UseQuiz.QuestionsOutcome | hooks/useQuiz.ts:13-21 | the effect fetches exactly when nothing truthy is saved, restores exactly when a question list is saved, dispatches exactly when some other value is saved, and throws exactly on saved text that does not parse |
| UseQuiz.QuestionsToLoad | hooks/useQuiz.ts:11-46 | the list dispatched at startup is the saved one, or the prepared fetch result when nothing is saved and the fetch succeeds; none when the fetch fails, the saved text throws, or the saved value is not a list |
| UseQuiz.ReloadResumesSession | hooks/useQuiz.ts:11-87 | with a session's question list and its saved snapshot in storage, mounting resumes the same state except for completion |
| UseQuiz.QuizHook.constructor | hooks/useQuiz.ts:9 | a hook starts at the initial state over the given storage |
| UseQuiz.QuizHook.Dispatch | hooks/useQuiz.ts:9 | applies the reducer to the state and leaves storage alone |
| UseQuiz.QuizHook.HandleOptionSelect | hooks/useQuiz.ts:89-96 | the new state is `OptionSelected` of the old; storage is untouched |
| UseQuiz.QuizHook.HandleNextQuestion | hooks/useQuiz.ts:98-122 | the new state is `NextQuestion` of the old; `quiz_results` is written exactly when `ResultsOnNext` gives results and the write does not throw |
| UseQuiz.QuizHook.ResetQuiz | hooks/useQuiz.ts:124-129 | back to the initial state, with `quiz_state`, `quiz_questions` and `quiz_results` removed and every other key kept |
| UseQuiz.QuizHook.PersistStateEffect | hooks/useQuiz.ts:75-87 | writes the four saved fields under `quiz_state` unless the write throws; the state is unchanged |
| UseQuiz.QuizHook.LoadQuestionsEffect | hooks/useQuiz.ts:11-19 | dispatches a saved question list, or decides to fetch, or reports a saved non-list value or unparsable text; storage is unchanged |
| UseQuiz.QuizHook.ReceiveFetchedQuestions | hooks/useQuiz.ts:21-56 | a failed fetch changes nothing; otherwise the prepared list is dispatched and saved unless the save throws |
| UseQuiz.QuizHook.LoadSavedStateEffect | hooks/useQuiz.ts:63-73 | the new state is `AfterSavedState` of the old; storage is unchanged |
| UseQuiz.QuizHook.Mount | hooks/useQuiz.ts:11-87 | after the three effects and the fetch, the state is `MountedState` and storage holds the new snapshot and any fetched list; a saved value that is not a list leads on to the other two effects; only unparsable saved text stops the mount with nothing changed |

## Left out

- React scheduling. This covers when the effects run, batching, and the
  re-render between an effect's dispatch and the next effect.
  - At mount the snapshot effect runs first on the initial state. It runs
    again only when LOAD_SAVED_STATE changed one of its four dependencies
    (hooks/useQuiz.ts:87). Either way the last snapshot saved is that of the
    loaded state, and the model saves once, after loading.
  - The `mounted` teardown guard is not modelled: the hook is taken to stay
    mounted.
  - The fetch's `.catch` logging is not modelled.
- UseQuiz.QuestionsOutcome: only saved text that does not parse makes the
  first effect throw; the model stops there and does not model the error
  boundary. Raw text that does parse, such as "true", is an `Entry` of kind
  `Text` and is treated as text that does not parse.
- UseQuiz.QuestionsToLoad: a saved value that parses but is not a question
  list is dispatched as `questions` by the source. The state's list type
  cannot hold such a value, so the model gives no list and the previous list
  stays in the state.
- UseQuiz.QuizHook.Mount: for a saved value that is not a list, the other two
  effects run as in the source, but `questions` keeps its previous list
  instead of holding that value.
- Storage.StorageService.ShouldReset: `sessionStorage.getItem` throwing is
  not modelled. That call is not wrapped in a try.
- `JSON.stringify` and `JSON.parse` are replaced by abstract values. Text that
  is not the JSON of a modelled value reads as `null` through
  `StorageService`, and as "no snapshot" in the second effect. This includes
  raw text such as "true", which really parses to a JSON scalar. A stored
  `null`, which would make LOAD_SAVED_STATE throw, is not modelled.
- UseQuiz.QuizHook.ResetQuiz: its three `removeItem` calls are not wrapped in
  a try, and a throwing store is not modelled there.
- Storage.StorageService.SetResetFlag: the session store's `setItem` and
  `removeItem` throwing are not modelled there.
- The hook's reads of `localStorage` in the startup effects are modelled as
  never throwing.
- Floating point.
  - `Math.round(k / total * 100)` is modelled as exact half-up rounding. The
    floating-point product is not modelled.
  - `Math.random()` is an arbitrary input in [0, 1). Its distribution, and
    the uniformity of Fisher–Yates, are not modelled.
- Strings are sequences of Unicode scalar values. A character outside the
  Basic Multilingual Plane is one character, not a surrogate pair.
  `decodeURIComponent` therefore yields one character per code point, and
  lone surrogates in the input are not modelled.
- The `getInstance` singletons are left out; services are constructed
  explicitly.
- The backoff waits are listed as values. Time passing, `setTimeout` and
  `async`/`await` are not modelled.
- `fetch` itself and app/api/questions/route.ts are not modelled. A fetch is
  an input.
- The pages and components under app/ and components/ are not part of this
  model. This includes app/quiz/page.tsx, which uses a different hook
  interface.
- utils/storage.ts is not part of this model.
- hooks/useQuiz.ts never reads the reset flag; no reset-on-startup sequence
  is modelled. The flag is modelled only through `StorageService`.
