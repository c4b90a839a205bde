/** The persistence gateway (services/storageService.ts): a durable store
    (`localStorage`) and a per-tab session store (`sessionStorage`), each a
    table from keys to stored text that the methods update in place. */
module Storage {
  import opened Wrappers
  import opened QuizTypes

  /** `StorableQuizState`: the four fields of a session that survive a reload. */
  datatype StorableQuizState = StorableQuizState(
    currentQuestionIndex: int,
    correctAnswersCount: int,
    selectedOptionIndex: Option<int>,
    isAnswerRevealed: bool)

  /** `QuizResults`. */
  datatype QuizResults = QuizResults(score: int, total: int, timestamp: Option<int>)

  /** The values the quiz writes, standing for their JSON text. */
  datatype Value =
    | QuestionList(questions: seq<Question>)
    | StateRecord(state: StorableQuizState)
    | ResultsRecord(results: QuizResults)
    | Instant(millis: int)

  /** What a key holds: the JSON text of a value, or some other text (the
      empty string, a raw marker such as "true", or text that is not JSON). */
  datatype Entry = Json(value: Value) | Text(text: string)

  const QuestionsKey: string := "quiz_questions"
  const StateKey: string := "quiz_state"
  const ResultsKey: string := "quiz_results"
  const ResetFlagKey: string := "quiz_should_reset"
  const LastActiveKey: string := "quiz_last_active"

  /** `item ? JSON.parse(item) : fallback` with a `null` fallback: the stored
      value, or `None` for a missing key, an empty string or text that does
      not parse. */
  function Parse(store: map<string, Entry>, key: string): (r: Option<Value>)
    ensures r.Some? <==> key in store && store[key].Json?
    ensures r.Some? ==> store[key] == Json(r.value)
  {
    if key in store && store[key].Json? then Some(store[key].value) else None
  }

  /** Whether an item is truthy: everything but a missing key and the empty string. */
  predicate IsTruthy(store: map<string, Entry>, key: string) {
    key in store && store[key] != Text("")
  }

  datatype Scope = Durable | Session

  /** The keys `clearAllQuizData` removes from the durable store. */
  function ClearedKeys(keepQuestions: bool): set<string> {
    if keepQuestions then {StateKey, ResultsKey} else {StateKey, ResultsKey, QuestionsKey}
  }

  /** `StorageService`, constructed explicitly instead of through `getInstance`.
      A `fault` argument says that the browser storage throws on that call
      (quota exceeded, storage disabled); `inBrowser` is false where `window`
      is undefined and both stores are `null`. */
  class StorageService {
    const inBrowser: bool
    var durable: map<string, Entry>
    var session: map<string, Entry>

    constructor(inBrowser: bool, durable: map<string, Entry>, session: map<string, Entry>)
      ensures this.inBrowser == inBrowser && this.durable == durable && this.session == session
    {
      this.inBrowser := inBrowser;
      this.durable := durable;
      this.session := session;
    }

    function Store(scope: Scope): map<string, Entry>
      reads this
    {
      if scope == Durable then durable else session
    }

    /** `getItem(storage, key, null)`: never throws; any failure reads as `null`. */
    function GetItem(scope: Scope, key: string, fault: bool): (r: Option<Value>)
      reads this
      ensures r.Some? <==> inBrowser && !fault && key in Store(scope) && Store(scope)[key].Json?
      ensures r.Some? ==> Store(scope)[key] == Json(r.value)
    {
      if inBrowser && !fault then Parse(Store(scope), key) else None
    }

    /** `setItem(storage, key, value)`: true when written, false (and nothing
        written) when the storage throws. */
    method SetItem(scope: Scope, key: string, value: Value, fault: bool) returns (ok: bool)
      modifies this
      ensures ok == (inBrowser && !fault)
      ensures scope == Durable ==>
        session == old(session) && durable == if ok then old(durable)[key := Json(value)] else old(durable)
      ensures scope == Session ==>
        durable == old(durable) && session == if ok then old(session)[key := Json(value)] else old(session)
    {
      ok := inBrowser && !fault;
      if ok {
        if scope == Durable {
          durable := durable[key := Json(value)];
        } else {
          session := session[key := Json(value)];
        }
      }
    }

    /** `removeItem(storage, key)`: true when removed, false when the storage throws. */
    method RemoveItem(scope: Scope, key: string, fault: bool) returns (ok: bool)
      modifies this
      ensures ok == (inBrowser && !fault)
      ensures scope == Durable ==>
        session == old(session) && durable == if ok then old(durable) - {key} else old(durable)
      ensures scope == Session ==>
        durable == old(durable) && session == if ok then old(session) - {key} else old(session)
    {
      ok := inBrowser && !fault;
      if ok {
        if scope == Durable {
          durable := durable - {key};
        } else {
          session := session - {key};
        }
      }
    }

    function GetQuestions(fault: bool): (r: Option<Value>)
      reads this
      ensures r.Some? <==> inBrowser && !fault && QuestionsKey in durable && durable[QuestionsKey].Json?
      ensures r.Some? ==> durable[QuestionsKey] == Json(r.value)
    {
      GetItem(Durable, QuestionsKey, fault)
    }

    method SetQuestions(questions: Value, fault: bool) returns (ok: bool)
      modifies this
      ensures ok == (inBrowser && !fault) && session == old(session)
      ensures durable == if ok then old(durable)[QuestionsKey := Json(questions)] else old(durable)
      ensures ok ==> GetQuestions(false) == Some(questions)
    {
      ok := SetItem(Durable, QuestionsKey, questions, fault);
    }

    function GetState(fault: bool): (r: Option<Value>)
      reads this
      ensures r.Some? <==> inBrowser && !fault && StateKey in durable && durable[StateKey].Json?
      ensures r.Some? ==> durable[StateKey] == Json(r.value)
    {
      GetItem(Durable, StateKey, fault)
    }

    method SetState(state: StorableQuizState, fault: bool) returns (ok: bool)
      modifies this
      ensures ok == (inBrowser && !fault) && session == old(session)
      ensures durable == if ok then old(durable)[StateKey := Json(StateRecord(state))] else old(durable)
      ensures ok ==> GetState(false) == Some(StateRecord(state))
    {
      ok := SetItem(Durable, StateKey, StateRecord(state), fault);
    }

    function GetResults(fault: bool): (r: Option<Value>)
      reads this
      ensures r.Some? <==> inBrowser && !fault && ResultsKey in durable && durable[ResultsKey].Json?
      ensures r.Some? ==> durable[ResultsKey] == Json(r.value)
    {
      GetItem(Durable, ResultsKey, fault)
    }

    /** `setResults`: stores score and total stamped with the current time
        `now` (`Date.now()`), whatever timestamp the argument carried. */
    method SetResults(results: QuizResults, now: int, fault: bool) returns (ok: bool)
      modifies this
      ensures ok == (inBrowser && !fault) && session == old(session)
      ensures durable == if ok then old(durable)[ResultsKey := Json(ResultsRecord(QuizResults(results.score, results.total, Some(now))))]
                         else old(durable)
      ensures ok ==> GetResults(false) == Some(ResultsRecord(QuizResults(results.score, results.total, Some(now))))
    {
      ok := SetItem(Durable, ResultsKey, ResultsRecord(results.(timestamp := Some(now))), fault);
    }

    /** `shouldReset`: the session store holds the text "true" under the flag. */
    function ShouldReset(): (r: bool)
      reads this
      ensures r <==> inBrowser && ResetFlagKey in session && session[ResetFlagKey] == Text("true")
    {
      inBrowser && ResetFlagKey in session && session[ResetFlagKey] == Text("true")
    }

    /** `setResetFlag`: writes or removes the flag in the session store only. */
    method SetResetFlag(shouldReset: bool)
      modifies this
      ensures durable == old(durable)
      ensures ShouldReset() == (shouldReset && inBrowser)
      ensures !inBrowser ==> session == old(session)
      ensures inBrowser ==> session == if shouldReset then old(session)[ResetFlagKey := Text("true")]
                                       else old(session) - {ResetFlagKey}
    {
      if inBrowser {
        if shouldReset {
          session := session[ResetFlagKey := Text("true")];
        } else {
          session := session - {ResetFlagKey};
        }
      }
    }

    /** `clearAllQuizData`: removes the snapshot and the results, the question
        set unless `keepQuestions`, and the reset flag. Each removal fails on
        its own when the storage throws for that key (`failing`). */
    method ClearAllQuizData(keepQuestions: bool, failing: set<string>)
      modifies this
      ensures !inBrowser ==> durable == old(durable) && session == old(session)
      ensures inBrowser ==> durable == old(durable) - (ClearedKeys(keepQuestions) - failing)
      ensures inBrowser ==> session == old(session) - ({ResetFlagKey} - failing)
      ensures inBrowser && failing == {} ==>
        !ShouldReset() && StateKey !in durable && ResultsKey !in durable &&
        (QuestionsKey in durable <==> keepQuestions && QuestionsKey in old(durable))
    {
      if inBrowser {
        var _ := RemoveItem(Durable, StateKey, StateKey in failing);
        RemovedUnlessFailing(old(durable), durable, StateKey, failing);
        ghost var afterState := durable;
        var _ := RemoveItem(Durable, ResultsKey, ResultsKey in failing);
        RemovedUnlessFailing(afterState, durable, ResultsKey, failing);
        RemoveInTurn(old(durable), {StateKey} - failing, {ResultsKey} - failing);
        if !keepQuestions {
          ghost var afterResults := durable;
          var _ := RemoveItem(Durable, QuestionsKey, QuestionsKey in failing);
          RemovedUnlessFailing(afterResults, durable, QuestionsKey, failing);
          RemoveInTurn(old(durable), ({StateKey} - failing) + ({ResultsKey} - failing), {QuestionsKey} - failing);
        }
        ClearedKeysOneByOne(keepQuestions, failing);
      }
      if inBrowser {
        var _ := RemoveItem(Session, ResetFlagKey, ResetFlagKey in failing);
      }
    }

    /** `updateLastActive`: stamps `quiz_last_active` with `now` and touches nothing else. */
    method UpdateLastActive(now: int, fault: bool)
      modifies this
      ensures session == old(session)
      ensures durable == if inBrowser && !fault then old(durable)[LastActiveKey := Json(Instant(now))] else old(durable)
    {
      if inBrowser {
        var _ := SetItem(Durable, LastActiveKey, Instant(now), fault);
      }
    }
  }

  /** A removal that fails for its key leaves the store as it was. */
  lemma RemovedUnlessFailing(before: map<string, Entry>, after: map<string, Entry>, key: string, failing: set<string>)
    requires after == if key !in failing then before - {key} else before
    ensures after == before - ({key} - failing)
  {
    if key in failing {
      assert {key} - failing == {};
    }
  }

  /** The keys cleared despite failures, gathered one removal at a time. */
  lemma ClearedKeysOneByOne(keepQuestions: bool, failing: set<string>)
    ensures ClearedKeys(keepQuestions) - failing ==
      if keepQuestions then ({StateKey} - failing) + ({ResultsKey} - failing)
      else ({StateKey} - failing) + ({ResultsKey} - failing) + ({QuestionsKey} - failing)
  {
  }

  /** Removing two sets of keys in turn removes their union. */
  lemma RemoveInTurn(m: map<string, Entry>, a: set<string>, b: set<string>)
    ensures (m - a) - b == m - (a + b)
  {
  }
}
