/** The statistics side of the DuoTrivia page (duotrivia/js/app.js): the stats panel the chatbot
    reports to after every answer (`updateStats`), the incorrect count drawn by `_drawCharts`, and
    the difficulty tally, filter and answer text of the dataset panel. Element updates, chart
    drawing and the dataset fetch are not modelled. */
module DuoDashboard {
  import opened Wrappers
  import opened JsText
  import opened Numeric
  import opened TriviaApi

  /** The trend indicator: '—', '↑ Mejorando', '↓ Empeoró' or '→ Sin cambio'. */
  datatype Trend = NoTrend | Improving | Worse | Unchanged

  /** The trend of an accuracy against the previous one; there is none before the first answer. */
  function TrendOf(total: int, acc: int, lastAcc: int): (t: Trend)
    ensures t == NoTrend <==> total <= 0
    ensures t == Improving <==> total > 0 && acc > lastAcc
    ensures t == Worse <==> total > 0 && acc < lastAcc
    ensures t == Unchanged <==> total > 0 && acc == lastAcc
  {
    if total <= 0 then NoTrend
    else if acc > lastAcc then Improving
    else if acc < lastAcc then Worse
    else Unchanged
  }

  /** The accuracy series after an update: the new accuracy is appended when the answer count
      has outgrown the series, the series is emptied when the count is zero, and it is kept
      otherwise. */
  function SeriesAfter(series: seq<int>, total: int, acc: int): (s: seq<int>)
    ensures total > |series| ==> s == series + [acc]
    ensures total == 0 ==> s == []
    ensures 0 < total <= |series| ==> s == series
    ensures total < 0 ==> s == series
  {
    if total > |series| then series + [acc]
    else if total == 0 then []
    else series
  }

  /** The series after updates with answer counts `total + 1`, `total + 2`, ... and the given
      accuracies, as the chatbot sends them. */
  function FeedAll(series: seq<int>, total: int, accs: seq<int>): seq<int>
    decreases |accs|
  {
    if accs == [] then series
    else FeedAll(SeriesAfter(series, total + 1, accs[0]), total + 1, accs[1..])
  }

  /** Fed one update per answer, a series as long as the answer count records every accuracy
      in order: its length stays equal to the count. */
  lemma {:induction false} FeedAllRecords(series: seq<int>, total: int, accs: seq<int>)
    requires |series| == total
    ensures FeedAll(series, total, accs) == series + accs
    ensures |FeedAll(series, total, accs)| == total + |accs|
    decreases |accs|
  {
    if accs != [] {
      FeedAllRecords(series + [accs[0]], total + 1, accs[1..]);
      assert series + [accs[0]] + accs[1..] == series + accs;
    }
  }

  /** `_drawCharts`: the incorrect count `max(0, total - correct)`. */
  function Incorrect(correct: int, total: int): (n: int)
    ensures n >= 0
    ensures correct <= total ==> correct + n == total
    ensures correct >= total ==> n == 0
  {
    if total - correct > 0 then total - correct else 0
  }

  /** The stats panel of the page (`App` without its elements and charts). */
  class Dashboard {
    var score: int        // _stats.score
    var streak: int       // _stats.streak
    var total: int        // _stats.total
    var correct: int      // _stats.correct
    var lastAcc: int      // _lastAcc
    var accuracySeries: seq<int>

    constructor ()
      ensures score == 0 && streak == 0 && total == 0 && correct == 0
      ensures lastAcc == 0 && accuracySeries == []
    {
      score, streak, total, correct := 0, 0, 0, 0;
      lastAcc, accuracySeries := 0, [];
    }

    /** `updateStats({score, streak, total, correct})`: stores the figures, computes the rounded
        accuracy (0 without answers) and the trend against the previous accuracy, remembers
        the accuracy, and updates the series. */
    method UpdateStats(newScore: int, newStreak: int, newTotal: int, newCorrect: int)
      returns (acc: int, trend: Trend)
      modifies this
      ensures score == newScore && streak == newStreak && total == newTotal && correct == newCorrect
      ensures acc == Percent(newCorrect, newTotal)
      ensures 0 <= newCorrect <= newTotal ==> 0 <= acc <= 100
      ensures trend == TrendOf(newTotal, acc, old(lastAcc))
      ensures lastAcc == acc
      ensures accuracySeries == SeriesAfter(old(accuracySeries), newTotal, acc)
    {
      score, streak, total, correct := newScore, newStreak, newTotal, newCorrect;
      acc := Percent(newCorrect, newTotal);
      if 0 <= newCorrect <= newTotal {
        PercentInRange(newCorrect, newTotal);
      }
      trend := NoTrend;
      if newTotal > 0 {
        if acc > lastAcc {
          trend := Improving;
        } else if acc < lastAcc {
          trend := Worse;
        } else {
          trend := Unchanged;
        }
      }
      lastAcc := acc;
      if newTotal > |accuracySeries| {
        accuracySeries := accuracySeries + [acc];
      } else if newTotal == 0 {
        accuracySeries := [];
      }
    }
  }

  /** The tally key of a question: its difficulty, or "" when missing, lower-cased. */
  function Level(q: RawQuestion): (l: string)
    ensures q.difficulty.None? ==> l == []
    ensures q.difficulty.Some? ==> |l| == |q.difficulty.value|
    ensures forall i :: 0 <= i < |l| ==> !('A' <= l[i] <= 'Z')
  {
    Lower(OrDefault(q.difficulty, ""))
  }

  /** How many questions have the given tally key. */
  function CountLevel(qs: seq<RawQuestion>, level: string): (n: nat)
    ensures n <= |qs|
  {
    if qs == [] then 0
    else CountLevel(qs[..|qs| - 1], level) + (if Level(qs[|qs| - 1]) == level then 1 else 0)
  }

  /** The difficulty tally of `_initDatasetPanel`: one pass that counts each question in the
      bucket its lower-cased difficulty names. */
  method TallyDifficulties(qs: seq<RawQuestion>) returns (easy: nat, medium: nat, hard: nat)
    ensures easy == CountLevel(qs, "easy")
    ensures medium == CountLevel(qs, "medium")
    ensures hard == CountLevel(qs, "hard")
  {
    easy, medium, hard := 0, 0, 0;
    var i := 0;
    while i < |qs|
      invariant 0 <= i <= |qs|
      invariant easy == CountLevel(qs[..i], "easy")
      invariant medium == CountLevel(qs[..i], "medium")
      invariant hard == CountLevel(qs[..i], "hard")
    {
      assert qs[..i + 1][..i] == qs[..i];
      var d := Level(qs[i]);
      if d == "easy" {
        easy := easy + 1;
      } else if d == "medium" {
        medium := medium + 1;
      } else if d == "hard" {
        hard := hard + 1;
      }
      i := i + 1;
    }
    assert qs[..i] == qs;
  }

  /** No question lands in two buckets: the three counts never add up to more than the
      number of questions. */
  lemma {:induction false} TallyBound(qs: seq<RawQuestion>)
    ensures CountLevel(qs, "easy") + CountLevel(qs, "medium") + CountLevel(qs, "hard") <= |qs|
  {
    if qs != [] {
      TallyBound(qs[..|qs| - 1]);
      assert "easy" != "medium" && "easy" != "hard" && "medium" != "hard" by {
        assert "easy"[0] != "medium"[0] && "easy"[0] != "hard"[0] && "medium"[0] != "hard"[0];
      }
    }
  }

  /** `renderList`'s filter: the questions whose difficulty is exactly the selected text
      (case-sensitive; a missing difficulty never matches), in their original order. */
  function FilterByDifficulty(qs: seq<RawQuestion>, diff: string): (r: seq<RawQuestion>)
    ensures |r| <= |qs|
    ensures forall q :: q in r <==> q in qs && q.difficulty == Some(diff)
  {
    if qs == [] then []
    else if qs[0].difficulty == Some(diff) then [qs[0]] + FilterByDifficulty(qs[1..], diff)
    else FilterByDifficulty(qs[1..], diff)
  }

  /** The filter keeps every matching question as often as it occurs, and no other. */
  lemma {:induction false} FilterKeepsMultiplicity(qs: seq<RawQuestion>, diff: string, q: RawQuestion)
    ensures multiset(FilterByDifficulty(qs, diff))[q] ==
            if q.difficulty == Some(diff) then multiset(qs)[q] else 0
  {
    if qs != [] {
      assert qs == [qs[0]] + qs[1..];
      FilterKeepsMultiplicity(qs[1..], diff, q);
    }
  }

  /** The filter keeps the order of the list: filtering two parts one after the other is
      filtering their concatenation. */
  lemma {:induction false} FilterKeepsOrder(a: seq<RawQuestion>, b: seq<RawQuestion>, diff: string)
    ensures FilterByDifficulty(a + b, diff) == FilterByDifficulty(a, diff) + FilterByDifficulty(b, diff)
  {
    if a == [] {
      assert a + b == b;
    } else {
      var ab := a + b;
      assert ab[0] == a[0] && ab[1..] == a[1..] + b;
      FilterKeepsOrder(a[1..], b, diff);
      var rest := FilterByDifficulty(a[1..], diff);
      if a[0].difficulty == Some(diff) {
        assert FilterByDifficulty(ab, diff) == [a[0]] + (rest + FilterByDifficulty(b, diff));
        assert FilterByDifficulty(a, diff) == [a[0]] + rest;
      } else {
        assert FilterByDifficulty(ab, diff) == rest + FilterByDifficulty(b, diff);
        assert FilterByDifficulty(a, diff) == rest;
      }
    }
  }

  /** The answer text of a listed question: the option at `correct_answer` when both exist
      (`None` is the `undefined` an out-of-range index reads), else `correct`, else "N/A". */
  function ListCorrectText(q: RawQuestion): (t: Option<string>)
    ensures q.options.None? || q.correctAnswer.None? ==> t == Some(OrDefault(q.correct, "N/A"))
    ensures q.options.Some? && q.correctAnswer.Some? ==>
              (t.Some? <==> 0 <= q.correctAnswer.value < |q.options.value|)
  {
    if q.options.Some? && q.correctAnswer.Some? then
      var i := q.correctAnswer.value;
      if 0 <= i < |q.options.value| then Some(q.options.value[i]) else None
    else Some(OrDefault(q.correct, "N/A"))
  }

  /** For a question the chatbot accepts, the list shows the same right answer as the card. */
  lemma ListAgreesWithCard(q: RawQuestion)
    requires HasValidAnswer(q)
    ensures ListCorrectText(q) == Some(FormatData(q).correct)
  {
  }
}
