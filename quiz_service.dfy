/** Fetching and mapping questions (services/quizService.ts). */
module QuestionService {
  import opened Wrappers
  import opened QuizTypes
  import opened QuizUtils

  const QuestionsLimit: nat := 20
  const MaxRetries: nat := 3
  const RetryDelay: nat := 1000
  const FailureMessage: string := "Failed to load questions after multiple attempts"

  function Min(a: int, b: int): int {
    if a <= b then a else b
  }

  function Pow2(k: nat): (r: nat)
    ensures r >= 1
  {
    if k == 0 then 1 else 2 * Pow2(k - 1)
  }

  /** The wait before the retry that follows failed attempt `retryCount`:
      `RETRY_DELAY * Math.pow(2, retryCount)` milliseconds. */
  function BackoffDelay(retryCount: nat): (delay: nat)
    ensures delay >= RetryDelay
  {
    RetryDelay * Pow2(retryCount)
  }

  /** The first wait is RETRY_DELAY and each later wait doubles the one before. */
  lemma BackoffDoubles(retryCount: nat)
    ensures BackoffDelay(0) == RetryDelay
    ensures BackoffDelay(retryCount + 1) == 2 * BackoffDelay(retryCount)
  {
    assert Pow2(retryCount + 1) == 2 * Pow2(retryCount);
  }

  /** `Array.prototype.findIndex` with `===`: the first position holding
      `target`, or -1 when there is none. */
  function FindIndex(options: seq<string>, target: string): (r: int)
    ensures -1 <= r < |options|
    ensures r == -1 <==> target !in options
    ensures r >= 0 ==> options[r] == target && forall j :: 0 <= j < r ==> options[j] != target
    decreases |options|
  {
    if options == [] then -1
    else if options[0] == target then 0
    else
      var k := FindIndex(options[1..], target);
      if k == -1 then -1 else k + 1
  }

  function DecodeAll(answers: seq<string>): (r: seq<string>)
    ensures |r| == |answers| && forall i :: 0 <= i < |answers| ==> r[i] == Decode(answers[i])
  {
    seq(|answers|, i requires 0 <= i < |answers| => Decode(answers[i]))
  }

  /** The decoded correct answer; a missing one is the empty string. */
  function CorrectAnswer(raw: RawQuestion): string {
    Decode(raw.correctAnswer.GetOr(""))
  }

  /** The decoded incorrect answers; a missing list is empty. */
  function IncorrectAnswers(raw: RawQuestion): seq<string> {
    DecodeAll(raw.incorrectAnswers.GetOr([]))
  }

  /** `raw.difficulty || 'easy'`: any non-empty text passes through unchecked. */
  function Difficulty(raw: RawQuestion): (level: string)
    ensures level != ""
    ensures level == "easy" <==> raw.difficulty.None? || raw.difficulty.value in {"", "easy"}
    ensures raw.difficulty.Some? && raw.difficulty.value != "" ==> level == raw.difficulty.value
  {
    if raw.difficulty.None? || raw.difficulty.value == "" then "easy" else raw.difficulty.value
  }

  /** The body of the `map` callback, for the record at position `index`,
      with the draws `rolls` for its option shuffle and its category label. */
  function BuildQuestion(raw: RawQuestion, index: nat, rolls: nat -> Random, category: string): (q: Question)
    ensures q.id == index + 1 && q.category == category && q.difficulty == Difficulty(raw)
    ensures q.question == Decode(raw.question.GetOr(""))
    ensures |q.options| == 1 + |IncorrectAnswers(raw)|
    ensures multiset(q.options) == multiset(IncorrectAnswers(raw) + [CorrectAnswer(raw)])
    ensures 0 <= q.correctIndex < |q.options| && q.options[q.correctIndex] == CorrectAnswer(raw)
    ensures forall j :: 0 <= j < q.correctIndex ==> q.options[j] != CorrectAnswer(raw)
  {
    var correctAnswer := CorrectAnswer(raw);
    var combined := IncorrectAnswers(raw) + [correctAnswer];
    var shuffledOptions := Shuffled(combined, rolls);
    ShuffledPermutes(combined, rolls);
    assert correctAnswer in combined;
    Question(
      index + 1,
      Decode(raw.question.GetOr("")),
      shuffledOptions,
      FindIndex(shuffledOptions, correctAnswer),
      category,
      Difficulty(raw))
  }

  /** `mapQuestions`: one question per record, in order; `optionRolls(i)`
      are the draws of the option shuffle for record `i`. */
  function MapQuestions(rawQuestions: seq<RawQuestion>, optionRolls: nat -> nat -> Random): (r: seq<Question>)
    ensures |r| == |rawQuestions|
  {
    seq(|rawQuestions|, i requires 0 <= i < |rawQuestions| =>
      BuildQuestion(rawQuestions[i], i, optionRolls(i), FormatCategory(rawQuestions[i].category)))
  }

  /** Question `i` of the mapped list is built from record `i`: id `i + 1`,
      its decoded text, its formatted category, its difficulty, and options
      that permute its answers with the correct one at `correctIndex`. */
  lemma MapQuestionsFacts(rawQuestions: seq<RawQuestion>, optionRolls: nat -> nat -> Random, i: nat)
    requires i < |rawQuestions|
    ensures var q := MapQuestions(rawQuestions, optionRolls)[i];
      q.id == i + 1 &&
      q.question == Decode(rawQuestions[i].question.GetOr("")) &&
      q.category == FormatCategory(rawQuestions[i].category) &&
      q.difficulty == Difficulty(rawQuestions[i]) &&
      multiset(q.options) == multiset(IncorrectAnswers(rawQuestions[i]) + [CorrectAnswer(rawQuestions[i])]) &&
      0 <= q.correctIndex < |q.options| &&
      q.options[q.correctIndex] == CorrectAnswer(rawQuestions[i]) &&
      forall j :: 0 <= j < q.correctIndex ==> q.options[j] != CorrectAnswer(rawQuestions[i])
  {
    assert MapQuestions(rawQuestions, optionRolls)[i]
      == BuildQuestion(rawQuestions[i], i, optionRolls(i), FormatCategory(rawQuestions[i].category));
  }

  /** map, shuffle, then `slice(0, QUESTIONS_LIMIT)`. */
  function PrepareQuestions(rawQuestions: seq<RawQuestion>, optionRolls: nat -> nat -> Random, orderRolls: nat -> Random): (r: seq<Question>)
    ensures |r| == Min(QuestionsLimit, |rawQuestions|)
  {
    var shuffled := Shuffled(MapQuestions(rawQuestions, optionRolls), orderRolls);
    shuffled[..Min(QuestionsLimit, |shuffled|)]
  }

  /** A prefix of a shuffle holds no element more often than the list it shuffles. */
  lemma ShuffledPrefix<T>(s: seq<T>, rolls: nat -> Random, k: nat)
    requires k <= |s|
    ensures k <= |Shuffled(s, rolls)| && multiset(Shuffled(s, rolls)[..k]) <= multiset(s)
  {
    var t := Shuffled(s, rolls);
    ShuffledPermutes(s, rolls);
    assert t == t[..k] + t[k..];
    assert multiset(t) == multiset(t[..k]) + multiset(t[k..]);
  }

  /** The fetched set has at most 20 questions, as many as there are records
      up to that limit, none repeated beyond how often it was mapped. */
  lemma PrepareQuestionsBounds(rawQuestions: seq<RawQuestion>, optionRolls: nat -> nat -> Random, orderRolls: nat -> Random)
    ensures var r := PrepareQuestions(rawQuestions, optionRolls, orderRolls);
      |r| == Min(QuestionsLimit, |rawQuestions|) <= QuestionsLimit &&
      multiset(r) <= multiset(MapQuestions(rawQuestions, optionRolls)) &&
      forall q :: q in r ==> q in MapQuestions(rawQuestions, optionRolls)
  {
    var mapped := MapQuestions(rawQuestions, optionRolls);
    ShuffledPermutes(mapped, orderRolls);
    var k := Min(QuestionsLimit, |mapped|);
    ShuffledPrefix(mapped, orderRolls, k);
    var r := PrepareQuestions(rawQuestions, optionRolls, orderRolls);
    forall q | q in r ensures q in mapped {
      assert q in multiset(r);
    }
  }

  /** The first attempt from `attempt` on whose fetch succeeds, if any before
      the retries run out. */
  function FirstSuccess(responses: nat -> Option<seq<RawQuestion>>, attempt: nat): (r: Option<nat>)
    ensures r.Some? ==> attempt <= r.value && responses(r.value).Some?
    ensures r.Some? ==> r.value == attempt || r.value <= MaxRetries
    ensures r.Some? ==> forall j :: attempt <= j < r.value ==> responses(j).None?
    ensures r.None? ==> responses(attempt).None? && forall j :: attempt <= j <= MaxRetries ==> responses(j).None?
    decreases MaxRetries - attempt
  {
    if responses(attempt).Some? then Some(attempt)
    else if attempt < MaxRetries then FirstSuccess(responses, attempt + 1)
    else None
  }

  /** The number of fetches a call starting at `retryCount` makes when all fail. */
  function AttemptsWhenFailing(retryCount: nat): nat {
    if retryCount <= MaxRetries then MaxRetries + 1 - retryCount else 1
  }

  /** What a fetch starting at attempt `retryCount` yields with an empty
      cache: the first successful response prepared, or the final error. */
  function FetchOutcome(responses: nat -> Option<seq<RawQuestion>>, retryCount: nat,
                        optionRolls: nat -> nat -> Random, orderRolls: nat -> Random): Result<seq<Question>, string> {
    match FirstSuccess(responses, retryCount)
    case Some(k) => Ok(PrepareQuestions(responses(k).value, optionRolls, orderRolls))
    case None => Err(FailureMessage)
  }

  /** How many fetches that takes. */
  function FetchAttempts(responses: nat -> Option<seq<RawQuestion>>, retryCount: nat): nat {
    match FirstSuccess(responses, retryCount)
    case Some(k) => k - retryCount + 1
    case None => AttemptsWhenFailing(retryCount)
  }

  /** The backoff waits between those fetches, in order. */
  function FetchWaits(responses: nat -> Option<seq<RawQuestion>>, retryCount: nat): seq<nat>
    decreases MaxRetries - retryCount
  {
    if responses(retryCount).Some? || retryCount >= MaxRetries then []
    else [BackoffDelay(retryCount)] + FetchWaits(responses, retryCount + 1)
  }

  /** A fetch makes at most MAX_RETRIES + 1 attempts from a first call, waits
      once between consecutive attempts, and waits 1000·2^k ms after failed
      attempt k. */
  lemma {:induction false} FetchWaitsSchedule(responses: nat -> Option<seq<RawQuestion>>, retryCount: nat)
    ensures FetchAttempts(responses, retryCount) <= AttemptsWhenFailing(retryCount)
    ensures |FetchWaits(responses, retryCount)| + 1 == FetchAttempts(responses, retryCount)
    ensures forall i :: 0 <= i < |FetchWaits(responses, retryCount)| ==>
      FetchWaits(responses, retryCount)[i] == BackoffDelay(retryCount + i)
    decreases MaxRetries - retryCount
  {
    if responses(retryCount).None? && retryCount < MaxRetries {
      FetchWaitsSchedule(responses, retryCount + 1);
      var rest := FetchWaits(responses, retryCount + 1);
      forall i | 0 <= i < |FetchWaits(responses, retryCount)|
        ensures FetchWaits(responses, retryCount)[i] == BackoffDelay(retryCount + i)
      {
        if i > 0 {
          assert FetchWaits(responses, retryCount)[i] == rest[i - 1];
        }
      }
    }
  }

  /** A fetch whose attempt succeeds prepares that response at once. */
  lemma FetchSucceedsNow(responses: nat -> Option<seq<RawQuestion>>, retryCount: nat,
                         optionRolls: nat -> nat -> Random, orderRolls: nat -> Random)
    requires responses(retryCount).Some?
    ensures FetchOutcome(responses, retryCount, optionRolls, orderRolls)
      == Ok(PrepareQuestions(responses(retryCount).value, optionRolls, orderRolls))
    ensures FetchAttempts(responses, retryCount) == 1 && FetchWaits(responses, retryCount) == []
  {
  }

  /** A failed attempt before the last one waits, then fetches again. */
  lemma FetchRetries(responses: nat -> Option<seq<RawQuestion>>, retryCount: nat,
                     optionRolls: nat -> nat -> Random, orderRolls: nat -> Random)
    requires responses(retryCount).None? && retryCount < MaxRetries
    ensures FetchOutcome(responses, retryCount, optionRolls, orderRolls)
      == FetchOutcome(responses, retryCount + 1, optionRolls, orderRolls)
    ensures FetchAttempts(responses, retryCount) == FetchAttempts(responses, retryCount + 1) + 1
    ensures FetchWaits(responses, retryCount) == [BackoffDelay(retryCount)] + FetchWaits(responses, retryCount + 1)
  {
  }

  /** A failed last attempt ends the fetch with the error. */
  lemma FetchGivesUp(responses: nat -> Option<seq<RawQuestion>>, retryCount: nat,
                     optionRolls: nat -> nat -> Random, orderRolls: nat -> Random)
    requires responses(retryCount).None? && retryCount >= MaxRetries
    ensures FetchOutcome(responses, retryCount, optionRolls, orderRolls) == Err(FailureMessage)
    ensures FetchAttempts(responses, retryCount) == 1 && FetchWaits(responses, retryCount) == []
  {
  }

  /** The successful branch of `fetchQuestions`: map, shuffle the array of
      questions, keep the first 20. */
  method PrepareFetched(rawQuestions: seq<RawQuestion>, optionRolls: nat -> nat -> Random, orderRolls: nat -> Random)
    returns (finalQuestions: seq<Question>)
    ensures finalQuestions == PrepareQuestions(rawQuestions, optionRolls, orderRolls)
  {
    var mappedQuestions := MapQuestions(rawQuestions, optionRolls);
    var mappedArray := new Question[|mappedQuestions|](i requires 0 <= i < |mappedQuestions| => mappedQuestions[i]);
    assert mappedArray[..] == mappedQuestions;
    var shuffledQuestions := Shuffle(mappedArray, orderRolls);
    finalQuestions := shuffledQuestions[..Min(QuestionsLimit, shuffledQuestions.Length)];
  }

  /** `QuizService`, constructed explicitly instead of through `getInstance`. */
  class QuizService {
    var questionCache: Option<seq<Question>>

    constructor()
      ensures questionCache == None
    {
      questionCache := None;
    }

    /** `fetchQuestions(retryCount)`. `responses(k)` is what attempt `k`
        receives: `None` when the request fails, answers with an error status
        or its body cannot be read. The ghost results count the fetches made
        and list the backoff waits. */
    method FetchQuestions(retryCount: nat, responses: nat -> Option<seq<RawQuestion>>,
                          optionRolls: nat -> nat -> Random, orderRolls: nat -> Random)
      returns (r: Result<seq<Question>, string>, ghost attempts: nat, ghost waits: seq<nat>)
      modifies this
      ensures old(questionCache).Some? ==>
        r == Ok(old(questionCache).value) && questionCache == old(questionCache) && attempts == 0 && waits == []
      ensures old(questionCache).None? ==>
        r == FetchOutcome(responses, retryCount, optionRolls, orderRolls) &&
        questionCache == (if r.Ok? then Some(r.value) else None)
      ensures old(questionCache).None? ==>
        attempts == FetchAttempts(responses, retryCount) && waits == FetchWaits(responses, retryCount)
      decreases MaxRetries - retryCount
    {
      if questionCache.Some? {
        return Ok(questionCache.value), 0, [];
      }
      var response := responses(retryCount);
      if response.Some? {
        FetchSucceedsNow(responses, retryCount, optionRolls, orderRolls);
        var finalQuestions := PrepareFetched(response.value, optionRolls, orderRolls);
        questionCache := Some(finalQuestions);
        return Ok(finalQuestions), 1, [];
      }
      if retryCount < MaxRetries {
        FetchRetries(responses, retryCount, optionRolls, orderRolls);
        var delay := BackoffDelay(retryCount);
        var retried;
        ghost var moreAttempts, moreWaits;
        retried, moreAttempts, moreWaits := FetchQuestions(retryCount + 1, responses, optionRolls, orderRolls);
        return retried, moreAttempts + 1, [delay] + moreWaits;
      }
      FetchGivesUp(responses, retryCount, optionRolls, orderRolls);
      return Err(FailureMessage), 1, [];
    }

    /** `clearCache`. */
    method ClearCache()
      modifies this
      ensures questionCache == None
    {
      questionCache := None;
    }
  }

  /** From a first call, a failing fetch is tried four times, waiting 1, 2
      and 4 seconds in between. */
  lemma RetrySchedule()
    ensures AttemptsWhenFailing(0) == MaxRetries + 1 == 4
    ensures [BackoffDelay(0), BackoffDelay(1), BackoffDelay(2)] == [1000, 2000, 4000]
  {
    assert Pow2(2) == 4;
  }
}
