/** The DuoTrivia chatbot (duotrivia/js/chatbot.js): a one-question-at-a-time conversation that
    deals trivia cards, checks the clicked option, keeps score, streak and counters, and reports
    them to the stats panel. The card's HTML is not modelled beyond the escaping of its texts;
    a reply is a value naming the message the bot would show. */
module DuoChatbot {
  import opened Wrappers
  import opened JsText
  import opened Numeric
  import opened Shuffle
  import opened TriviaApi
  import opened DuoDashboard

  const CORRECT_POINTS := 100

  /** The normalised form of every answer. */
  function Keys(answers: seq<string>): (keys: seq<string>)
    ensures |keys| == |answers|
    ensures forall k :: 0 <= k < |answers| ==> keys[k] == LowerTrim(answers[k])
  {
    seq(|answers|, k requires 0 <= k < |answers| => LowerTrim(answers[k]))
  }

  /** `findIndex` of `target` in `keys`, searching from position `from`. */
  function FirstMatch(keys: seq<string>, target: string, from: nat): (k: int)
    requires from <= |keys|
    ensures k == -1 || from <= k < |keys|
    ensures k >= 0 ==> keys[k] == target
    ensures k >= 0 ==> forall j :: from <= j < k ==> keys[j] != target
    ensures k == -1 <==> forall j :: from <= j < |keys| ==> keys[j] != target
    decreases |keys| - from
  {
    if from == |keys| then -1
    else if keys[from] == target then from
    else FirstMatch(keys, target, from + 1)
  }

  /** The `correctIndex` of a card: a given non-negative number is used as it is; otherwise
      the first answer equal to `correct` after normalising (`answers.findIndex`), or 0 when
      none is. The source looks for the answer only after checking that there is one. */
  function ResolveCorrectIndex(answers: seq<string>, given: Option<int>, correct: string): (i: int)
    requires |answers| > 0
    ensures given.Some? && given.value >= 0 ==> i == given.value
    ensures !(given.Some? && given.value >= 0) ==>
              var keys, target := Keys(answers), LowerTrim(correct);
              0 <= i < |answers| &&
              (target in keys ==> keys[i] == target && forall j :: 0 <= j < i ==> keys[j] != target) &&
              (target !in keys ==> i == 0)
  {
    if given.Some? && given.value >= 0 then given.value
    else
      var k := FirstMatch(Keys(answers), LowerTrim(correct), 0);
      if k < 0 then 0 else k
  }

  /** No two options look the same once normalised. */
  predicate DistinctNormalized(answers: seq<string>) {
    var keys := Keys(answers);
    forall i, j :: 0 <= i < j < |keys| ==> keys[i] != keys[j]
  }

  /** A card built from a well-formed raw question whose options are told apart by the
      normalisation points at exactly the raw question's `correct_answer`: the text search
      undoes the index-to-text conversion of `formatData`. */
  lemma TextSearchRecoversIndex(raw: RawQuestion)
    requires HasValidAnswer(raw) && DistinctNormalized(raw.options.value)
    ensures ResolveCorrectIndex(FormatData(raw).answers, None, FormatData(raw).correct) == raw.correctAnswer.value
  {
    var answers := raw.options.value;
    var idx := raw.correctAnswer.value;
    assert Keys(answers)[idx] == LowerTrim(FormatData(raw).correct);
  }

  /** The entity a character becomes in card HTML. */
  function EscapeChar(c: char): string {
    if c == '&' then "&amp;" else if c == '<' then "&lt;" else if c == '>' then "&gt;" else [c]
  }

  /** `_escape(str)`: `&`, `<` and `>` become entities; every other character, quotes included,
      is copied. */
  function Escape(s: string): (r: string)
    ensures |r| >= |s|
    ensures forall k :: 0 <= k < |r| ==> r[k] != '<' && r[k] != '>'
  {
    if s == [] then [] else EscapeChar(s[0]) + Escape(s[1..])
  }

  /** Decodes the three entities `Escape` produces. */
  function Unescape(s: string): string
    decreases |s|
  {
    if |s| >= 5 && s[..5] == "&amp;" then "&" + Unescape(s[5..])
    else if |s| >= 4 && s[..4] == "&lt;" then "<" + Unescape(s[4..])
    else if |s| >= 4 && s[..4] == "&gt;" then ">" + Unescape(s[4..])
    else if s == [] then []
    else [s[0]] + Unescape(s[1..])
  }

  lemma UnescapeAmp(rest: string)
    ensures Unescape("&amp;" + rest) == "&" + Unescape(rest)
  {
    var e := "&amp;" + rest;
    assert e[..5] == "&amp;" && e[5..] == rest;
  }

  /** The two four-character entities decode to the bracket they stand for. */
  lemma UnescapeBracket(entity: string, bracket: char, rest: string)
    requires (entity == "&lt;" && bracket == '<') || (entity == "&gt;" && bracket == '>')
    ensures Unescape(entity + rest) == [bracket] + Unescape(rest)
  {
    var e := entity + rest;
    assert e[1] == entity[1];
    assert e[..4] == entity && e[4..] == rest;
  }

  lemma UnescapePlain(c: char, rest: string)
    requires c != '&'
    ensures Unescape([c] + rest) == [c] + Unescape(rest)
  {
    var e := [c] + rest;
    assert e[0] == c && e[1..] == rest;
  }

  /** Decoding an escaped character gives the character back. */
  lemma UnescapeStep(c: char, rest: string)
    ensures Unescape(EscapeChar(c) + rest) == [c] + Unescape(rest)
  {
    if c == '&' {
      UnescapeAmp(rest);
    } else if c == '<' {
      UnescapeBracket("&lt;", '<', rest);
    } else if c == '>' {
      UnescapeBracket("&gt;", '>', rest);
    } else {
      UnescapePlain(c, rest);
    }
  }

  /** Escaping loses nothing: the text is recovered from its escaped form. */
  lemma {:induction false} UnescapeEscape(s: string)
    ensures Unescape(Escape(s)) == s
  {
    if s != [] {
      UnescapeStep(s[0], Escape(s[1..]));
      UnescapeEscape(s[1..]);
      assert [s[0]] + s[1..] == s;
    }
  }

  /** A text without `&`, `<` and `>` is copied unchanged. */
  lemma {:induction false} EscapePlainText(s: string)
    requires forall k :: 0 <= k < |s| ==> s[k] != '&' && s[k] != '<' && s[k] != '>'
    ensures Escape(s) == s
  {
    if s != [] {
      EscapePlainText(s[1..]);
      assert [s[0]] + s[1..] == s;
    }
  }

  /** The accuracy of `_statsLine`: 0 without answers, otherwise `round(100 * correct / total)`
      rounding halves up, so between 0 and 100 when `correct <= total`. */
  function Accuracy(correctTotal: int, total: int): (a: int)
    ensures total <= 0 ==> a == 0
    ensures total > 0 ==> 2 * total * a <= 200 * correctTotal + total < 2 * total * a + 2 * total
    ensures 0 <= correctTotal <= total ==> 0 <= a <= 100
  {
    if 0 <= correctTotal <= total then
      PercentInRange(correctTotal, total);
      Percent(correctTotal, total)
    else Percent(correctTotal, total)
  }

  /** The figures `_statsLine` shows: score, streak, answers and accuracy. */
  datatype StatsSummary = StatsSummary(score: int, streak: int, total: int, accuracy: int)

  function Summary(score: int, streak: int, total: int, correctTotal: int): (m: StatsSummary)
    ensures m.score == score && m.streak == streak && m.total == total
    ensures m.accuracy == Accuracy(correctTotal, total)
  {
    StatsSummary(score, streak, total, Accuracy(correctTotal, total))
  }

  /** `_statsLine()`: the summary as the text the bot shows. */
  function StatsLine(m: StatsSummary): (line: string)
    ensures |line| > 9 && line[..9] == "Puntaje: " && line[|line| - 1] == '%'
  {
    "Puntaje: " + IntToString(m.score) + " | Racha: " + IntToString(m.streak) +
    " | Preguntas: " + IntToString(m.total) + " | Acierto: " + IntToString(m.accuracy) + "%"
  }

  /** A dealt card: the formatted question and the position of its right answer. */
  datatype Prepared = Prepared(data: Formatted, correctIndex: int)

  /** The card `generateTriviaCard` builds from a formatted question; `formatData` never sets
      a `correctIndex`, so the text search always decides. */
  function Prepare(data: Formatted): (p: Prepared)
    requires |data.answers| > 0
    ensures p.data == data && 0 <= p.correctIndex < |data.answers|
  {
    Prepared(data, ResolveCorrectIndex(data.answers, None, data.correct))
  }

  /** The card dealt from a question cache with the random number `r`, if any. */
  function Dealt(cache: Option<seq<RawQuestion>>, r: real): (p: Option<Prepared>)
    requires IsRandom(r)
    ensures p.Some? <==> cache.Some? && |cache.value| > 0
    ensures p.Some? ==> p.value.data == Chosen(cache, r).value &&
                        0 <= p.value.correctIndex < |p.value.data.answers|
  {
    var data := Chosen(cache, r);
    if data.Some? then Some(Prepare(data.value)) else None
  }

  /** The text shown for the right answer after a wrong one: the answer at `correctIndex`,
      else `correct`, else "N/A". */
  function AnswerText(q: Prepared): (t: string)
    ensures 0 <= q.correctIndex < |q.data.answers| ==> t == q.data.answers[q.correctIndex]
  {
    if 0 <= q.correctIndex < |q.data.answers| then q.data.answers[q.correctIndex]
    else OrDefault(Some(q.data.correct), "N/A")
  }

  /** The explanation appended to a wrong-answer message, when there is a non-empty one. */
  function ShownExplanation(e: Option<string>): (r: Option<string>)
    ensures r.Some? <==> e.Some? && e.value != ""
    ensures r.Some? ==> r == e
  {
    if e.Some? && e.value != "" then e else None
  }

  /** The messages the bot answers with. */
  datatype Reply =
    | AskForText                  // '¿Podrías escribir algo?'
    | PickAnOption                // the reminder while a question is open
    | Help
    | Stats(summary: StatsSummary)
    | NoQuestionNow               // 'No pude obtener una pregunta ahora...'
    | Card(question: Prepared)
    | NothingToCancel
    | UnknownCommand
    | NoActiveQuestion
    | RightAnswer(summary: StatsSummary)
    | WrongAnswer(correctText: string, explanation: Option<string>, summary: StatsSummary)

  /** What a normalised message asks for. */
  datatype Intent = Empty | HelpRequest | ScoreRequest | PlayRequest | CancelRequest | Other

  function Classify(t: string): (i: Intent)
    ensures i == Empty <==> t == ""
    ensures i == HelpRequest <==> t == "ayuda" || t == "help"
    ensures i == ScoreRequest <==> t == "puntaje" || t == "score"
    ensures i == PlayRequest <==> t == "jugar" || t == "play" || t == "pregunta"
    ensures i == CancelRequest <==> t == "cancel"
  {
    if t == "" then Empty
    else if t == "ayuda" || t == "help" then HelpRequest
    else if t == "puntaje" || t == "score" then ScoreRequest
    else if t == "jugar" || t == "play" || t == "pregunta" then PlayRequest
    else if t == "cancel" then CancelRequest
    else Other
  }

  class Chatbot {
    const fetcher: TriviaFetcher
    /** The stats panel `updateStats` reports to; `null` stands for the default no-op callback. */
    const panel: Dashboard?
    var isWaitingForAnswer: bool
    var currentQuestion: Option<Prepared>
    var score: int
    var streak: int
    var total: int
    var correctTotal: int
    /** The accuracy after each answer so far. */
    ghost var accuracies: seq<int>

    /** What holds between any two calls: 100 points per right answer, a streak no longer than
        the right answers, no more right answers than answers, a question open exactly while
        an answer is awaited and with its right answer among its options, and a panel that
        shows the current figures and one accuracy per answer. */
    ghost predicate Valid()
      reads this, panel
    {
      score == CORRECT_POINTS * correctTotal &&
      0 <= streak <= correctTotal <= total &&
      (isWaitingForAnswer <==> currentQuestion.Some?) &&
      (currentQuestion.Some? ==>
         0 <= currentQuestion.value.correctIndex < |currentQuestion.value.data.answers|) &&
      |accuracies| == total &&
      PanelInSync()
    }

    /** The panel, if any, shows the current figures and one accuracy per answer. */
    ghost predicate PanelInSync()
      reads this`score, this`streak, this`total, this`correctTotal, this`accuracies, panel
    {
      panel != null ==>
        panel.score == score && panel.streak == streak && panel.total == total &&
        panel.correct == correctTotal && panel.lastAcc == Accuracy(correctTotal, total) &&
        panel.accuracySeries == accuracies
    }

    constructor (dashboard: Dashboard?)
      requires dashboard != null ==>
                 dashboard.score == 0 && dashboard.streak == 0 && dashboard.total == 0 &&
                 dashboard.correct == 0 && dashboard.lastAcc == 0 && dashboard.accuracySeries == []
      ensures Valid() && fresh(fetcher) && fetcher.questionsCache.None? && panel == dashboard
      ensures !isWaitingForAnswer && score == 0 && streak == 0 && total == 0 && correctTotal == 0
    {
      fetcher := new TriviaFetcher();
      panel := dashboard;
      isWaitingForAnswer, currentQuestion := false, None;
      score, streak, total, correctTotal := 0, 0, 0, 0;
      accuracies := [];
    }

    /** `processUserMessage(msg)`: an empty message asks for text; while a question is open every
        other message, `cancel` included, gets the same reminder; otherwise help, the stats line,
        a new card or an "unknown" reply. Only dealing a card changes anything. `outcome` and `r`
        are the fetch outcome and the random number a card would use. */
    method ProcessUserMessage(msg: string, outcome: FetchOutcome, r: real) returns (reply: Reply)
      requires Valid() && IsRandom(r)
      modifies this`isWaitingForAnswer, this`currentQuestion, fetcher
      ensures Valid()
      ensures Classify(TrimLower(msg)) == Empty ==>
                reply == AskForText && unchanged(this) && unchanged(fetcher)
      ensures Classify(TrimLower(msg)) != Empty && old(isWaitingForAnswer) ==>
                reply == PickAnOption && unchanged(this) && unchanged(fetcher)
      ensures !old(isWaitingForAnswer) && Classify(TrimLower(msg)) == HelpRequest ==>
                reply == Help && unchanged(this) && unchanged(fetcher)
      ensures !old(isWaitingForAnswer) && Classify(TrimLower(msg)) == ScoreRequest ==>
                reply == Stats(Summary(score, streak, total, correctTotal)) && unchanged(this) && unchanged(fetcher)
      ensures !old(isWaitingForAnswer) && Classify(TrimLower(msg)) == PlayRequest ==>
                CardDealt(outcome, r, reply)
      ensures !old(isWaitingForAnswer) && Classify(TrimLower(msg)) == CancelRequest ==>
                reply == NothingToCancel && unchanged(this) && unchanged(fetcher)
      ensures !old(isWaitingForAnswer) && Classify(TrimLower(msg)) == Other ==>
                reply == UnknownCommand && unchanged(this) && unchanged(fetcher)
    {
      var intent := Classify(TrimLower(msg));
      if intent == Empty {
        return AskForText;
      }
      if isWaitingForAnswer {
        return PickAnOption;
      }
      match intent
      case HelpRequest =>
        reply := Help;
      case ScoreRequest =>
        reply := Stats(Summary(score, streak, total, correctTotal));
      case PlayRequest =>
        reply := GenerateTriviaCard(outcome, r);
      case CancelRequest =>
        // No question is open here: the waiting check above has already replied.
        reply := NothingToCancel;
      case Other =>
        reply := UnknownCommand;
    }

    /** What `generateTriviaCard` does: the fetcher's cache follows its load-once rule; when a
        question comes back, it is dealt as a card with its right answer located, and an answer
        is awaited; otherwise the bot says it could not get one and nothing else changes. */
    twostate predicate CardDealt(outcome: FetchOutcome, r: real, reply: Reply)
      reads this, fetcher
      requires IsRandom(r)
    {
      CacheFollowsRule(outcome) &&
      var dealt := Dealt(fetcher.questionsCache, r);
      if dealt.Some? then
        reply == Card(dealt.value) && currentQuestion == dealt && isWaitingForAnswer
      else
        reply == NoQuestionNow && currentQuestion == old(currentQuestion) &&
        isWaitingForAnswer == old(isWaitingForAnswer)
    }

    /** The fetcher's load-once rule: a cache is kept, and a missing one is what the fetch gave. */
    twostate predicate CacheFollowsRule(outcome: FetchOutcome)
      reads fetcher
    {
      (old(fetcher.questionsCache).Some? ==> fetcher.questionsCache == old(fetcher.questionsCache)) &&
      (old(fetcher.questionsCache).None? ==> fetcher.questionsCache == LoadedCache(outcome))
    }

    /** Asks the fetcher for a question and prepares it as a card. */
    method FetchCard(outcome: FetchOutcome, r: real) returns (dealt: Option<Prepared>)
      requires IsRandom(r)
      modifies fetcher
      ensures CacheFollowsRule(outcome)
      ensures dealt == Dealt(fetcher.questionsCache, r)
    {
      var data := fetcher.GetQuestion(outcome, r);
      if data.None? || |data.value.answers| == 0 {
        return None;
      }
      return Some(Prepare(data.value));
    }

    method GenerateTriviaCard(outcome: FetchOutcome, r: real) returns (reply: Reply)
      requires Valid() && IsRandom(r)
      modifies this`isWaitingForAnswer, this`currentQuestion, fetcher
      ensures Valid()
      ensures CardDealt(outcome, r, reply)
    {
      var dealt := FetchCard(outcome, r);
      if dealt.None? {
        return NoQuestionNow;
      }
      currentQuestion := dealt;
      isWaitingForAnswer := true;
      return Card(dealt.value);
    }

    /** `handleAnswer(index)`: with no open question, a notice and no change. Otherwise one more
        answer; a click on the right position earns 100 points and extends the streak, any other
        resets the streak; the question is closed, the panel gets the new figures, and the reply
        carries the stats line (and, after a wrong answer, the right answer's text and any
        explanation). */
    method HandleAnswer(index: int) returns (reply: Reply)
      requires Valid()
      modifies this, panel
      ensures Valid()
      ensures !old(isWaitingForAnswer) ==>
                reply == NoActiveQuestion && unchanged(this) && (panel != null ==> unchanged(panel))
      ensures old(isWaitingForAnswer) ==>
                var q := old(currentQuestion).value;
                var right := index == q.correctIndex;
                total == old(total) + 1 &&
                correctTotal == old(correctTotal) + (if right then 1 else 0) &&
                score == old(score) + (if right then CORRECT_POINTS else 0) &&
                streak == (if right then old(streak) + 1 else 0) &&
                !isWaitingForAnswer && currentQuestion.None? &&
                accuracies == old(accuracies) + [Accuracy(correctTotal, total)] &&
                reply == (if right then RightAnswer(Summary(score, streak, total, correctTotal))
                          else WrongAnswer(AnswerText(q), ShownExplanation(q.data.explanation),
                                           Summary(score, streak, total, correctTotal)))
    {
      if !isWaitingForAnswer || currentQuestion.None? {
        return NoActiveQuestion;
      }
      isWaitingForAnswer := false;
      var q := currentQuestion.value;
      var right := index == q.correctIndex;
      total := total + 1;
      if right {
        score := score + CORRECT_POINTS;
        streak := streak + 1;
        correctTotal := correctTotal + 1;
      } else {
        streak := 0;
      }
      currentQuestion := None;
      accuracies := accuracies + [Accuracy(correctTotal, total)];
      if panel != null {
        var _, _ := panel.UpdateStats(score, streak, total, correctTotal);
      }
      var summary := Summary(score, streak, total, correctTotal);
      if right {
        reply := RightAnswer(summary);
      } else {
        reply := WrongAnswer(AnswerText(q), ShownExplanation(q.data.explanation), summary);
      }
    }
  }
}
