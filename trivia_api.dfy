/** The DuoTrivia question source (duotrivia/js/trivia-api.js): the validation of a raw
    question record and the load-once question cache. The network fetch and the JSON decoding
    are not modelled: their outcome is a parameter. */
module TriviaApi {
  import opened Wrappers
  import opened Shuffle

  /** A raw question as found in the dataset's `questions` array. `None` stands for a missing
      (`undefined`) property. */
  datatype RawQuestion = RawQuestion(
    category: Option<string>,
    difficulty: Option<string>,
    question: Option<string>,
    options: Option<seq<string>>,
    correctAnswer: Option<int>,   // `correct_answer`
    correct: Option<string>,
    explanation: Option<string>)

  /** The record `formatData` hands to the chatbot. */
  datatype Formatted = Formatted(
    category: string,
    difficulty: string,
    question: Option<string>,
    answers: seq<string>,
    correct: string,
    explanation: Option<string>)

  /** JavaScript's `value || fallback` on an optional string: a missing or empty string falls back. */
  function OrDefault(value: Option<string>, fallback: string): (r: string)
    ensures value.Some? && value.value != "" ==> r == value.value
    ensures value.None? || value.value == "" ==> r == fallback
  {
    if value.Some? && value.value != "" then value.value else fallback
  }

  /** The options exist and `correct_answer` is one of their positions. */
  predicate HasValidAnswer(raw: RawQuestion) {
    raw.options.Some? && raw.correctAnswer.Some? &&
    0 <= raw.correctAnswer.value < |raw.options.value|
  }

  /** The fixed record returned for a malformed question; it has no explanation. */
  function ErrorRecord(): (r: Formatted)
    ensures r.answers == ["Error"] && r.correct == "Error" && r.explanation.None?
  {
    Formatted("Error", "Error", Some("Error en el formato de esta pregunta (revisar JSON)"), ["Error"], "Error", None)
  }

  /** `formatData(rawQuestion)`: the error record unless the options exist and the index
      points into them; otherwise the options unchanged, the text at the index as the right
      answer, "General"/"Normal" for a missing category/difficulty, and question and
      explanation passed through. Either way there is at least one answer and the right
      answer is one of them. */
  function FormatData(raw: RawQuestion): (r: Formatted)
    ensures !HasValidAnswer(raw) ==> r == ErrorRecord()
    ensures HasValidAnswer(raw) ==>
              r.answers == raw.options.value && r.correct == raw.options.value[raw.correctAnswer.value] &&
              r.category == OrDefault(raw.category, "General") &&
              r.difficulty == OrDefault(raw.difficulty, "Normal") &&
              r.question == raw.question && r.explanation == raw.explanation
    ensures |r.answers| >= 1 && r.correct in r.answers
  {
    if raw.options.None? || raw.correctAnswer.None? || raw.correctAnswer.value < 0
       || raw.correctAnswer.value >= |raw.options.value| then
      ErrorRecord()
    else
      var options := raw.options.value;
      Formatted(OrDefault(raw.category, "General"), OrDefault(raw.difficulty, "Normal"),
                raw.question, options, options[raw.correctAnswer.value], raw.explanation)
  }

  /** How the one fetch of the dataset ended: it threw (network or JSON error), or it produced
      a document whose `questions` property is present or missing. */
  datatype FetchOutcome = FetchError | Fetched(questions: Option<seq<RawQuestion>>)

  /** The cache after a fetch: the `questions` array when the document had one. */
  function LoadedCache(outcome: FetchOutcome): (cache: Option<seq<RawQuestion>>)
    ensures cache.Some? <==> outcome.Fetched? && outcome.questions.Some?
  {
    if outcome.Fetched? then outcome.questions else None
  }

  /** The question a cache yields for the random number `r`: the formatted question at
      position `floor(r * n)` of a non-empty cache of `n` questions, and nothing otherwise. */
  function Chosen(cache: Option<seq<RawQuestion>>, r: real): (q: Option<Formatted>)
    requires IsRandom(r)
    ensures q.Some? <==> cache.Some? && |cache.value| > 0
    ensures q.Some? ==> |q.value.answers| >= 1 && q.value.correct in q.value.answers
  {
    if cache.Some? && |cache.value| > 0 then Some(FormatData(cache.value[Pick(r, |cache.value|)])) else None
  }

  class TriviaFetcher {
    /** `null` until a fetch has produced a `questions` array. */
    var questionsCache: Option<seq<RawQuestion>>

    constructor ()
      ensures questionsCache.None?
    {
      questionsCache := None;
    }

    /** `getQuestion()`: fetches the dataset only while nothing is cached (`outcome` is what that
        fetch gives) and never replaces a cache, even an empty one; then yields the question
        the cache holds for `r`. */
    method GetQuestion(outcome: FetchOutcome, r: real) returns (q: Option<Formatted>)
      requires IsRandom(r)
      modifies this
      ensures old(questionsCache).Some? ==> questionsCache == old(questionsCache)
      ensures old(questionsCache).None? ==> questionsCache == LoadedCache(outcome)
      ensures q == Chosen(questionsCache, r)
    {
      if questionsCache.None? {
        if outcome.FetchError? {
          return None;
        }
        if outcome.questions.None? {
          return None;
        }
        questionsCache := outcome.questions;
      }
      var cache := questionsCache.value;
      if |cache| == 0 {
        return None;
      }
      var index := Pick(r, |cache|);
      return Some(FormatData(cache[index]));
    }
  }
}
