/** The game session controller of js/app.js: the credit/hint/freeze economy (`StateManager`)
    and the wave/question state machine of `App` (configuration, waves, questions, the
    countdown, answers, hints, the freeze, the end-of-game 70% rule and the reset).
    DOM updates, sounds, avatar clips and chat messages are side effects the model leaves out;
    each `setTimeout`/`setInterval` callback is an explicit method (`Tick`, `NextQuestion`);
    every `Math.random()` is supplied as data. */
module Game {
  import opened Wrappers
  import opened Numeric
  import opened Shuffle
  import opened QuestionBank
  import opened Round
  import opened ChatCommands

  const WAVE_SIZE := 3
  const QUESTION_TIME: real := 10.0
  const START_HINTS := 3
  const CORRECT_REWARD := 100
  const HINT_PACK := 3
  const HINT_PRICE := 300
  const FREEZE_PRICE := 500
  const PASS_PERCENT := 70
  const DEFAULT_WAVES := 3
  const WAVES_LIMIT := 50
  const QUESTIONS_LIMIT := 100
  const SLOW_FACTOR: real := 0.6
  const MIN_MULTIPLIER: real := 0.2
  const MAX_MULTIPLIER: real := 2.0
  /** The index `answer` receives when the countdown runs out. */
  const TIMEOUT := -1

  /** `Math.min(Math.max(n, lo), hi)`. */
  function Clamp(n: int, lo: int, hi: int): (r: int)
    requires lo <= hi
    ensures lo <= r <= hi
    ensures lo <= n <= hi ==> r == n
    ensures n < lo ==> r == lo
    ensures n > hi ==> r == hi
  {
    if n < lo then lo else if n > hi then hi else n
  }

  /** One argument of `setGameConfig`: a positive number (`None` is anything else) is floored
      and clamped to `1..limit`; otherwise the setting keeps its value. */
  function ConfigSetting(x: Option<real>, limit: int, current: int): (r: int)
    requires 1 <= limit
    ensures x.Some? && x.value > 0.0 ==> r == Clamp(x.value.Floor, 1, limit)
    ensures !(x.Some? && x.value > 0.0) ==> r == current
    ensures 1 <= current <= limit ==> 1 <= r <= limit
    ensures x.Some? && 1.0 <= x.value < (limit + 1) as real ==> r as real <= x.value < r as real + 1.0
  {
    if x.Some? && x.value > 0.0 then Clamp(x.value.Floor, 1, limit) else current
  }

  /** `Math.max(0.2, Math.min(Number(factor) || 1, 2))`; `None` is a NaN. */
  function ClampMultiplier(factor: Option<real>): (m: real)
    ensures MIN_MULTIPLIER <= m <= MAX_MULTIPLIER
    ensures factor == None || factor == Some(0.0) ==> m == 1.0
    ensures factor.Some? && MIN_MULTIPLIER <= factor.value <= MAX_MULTIPLIER ==> m == factor.value
  {
    var f := if factor.None? || factor.value == 0.0 then 1.0 else factor.value;
    if f > MAX_MULTIPLIER then MAX_MULTIPLIER else if f < MIN_MULTIPLIER then MIN_MULTIPLIER else f
  }

  /** The position in the bank of question `qIndex` of wave `waveCount`:
      `((waveCount - 1) * questionsPerWave + qIndex) % n`. */
  function GlobalIndex(waveCount: int, questionsPerWave: int, qIndex: int, n: int): (g: int)
    requires waveCount >= 1 && questionsPerWave >= 0 && qIndex >= 0 && n > 0
    ensures 0 <= g < n
  {
    ((waveCount - 1) * questionsPerWave + qIndex) % n
  }

  /** The slot of question `k` of wave `w` lies before the end of the `w`-th block of
      `perWave` slots, hence inside a game of `waves >= w` waves. */
  lemma SlotInGame(w: int, k: int, perWave: int, waves: int)
    requires 1 <= w <= waves && 0 <= k < perWave
    ensures 0 <= (w - 1) * perWave + k < waves * perWave
  {
    assert w * perWave == (w - 1) * perWave + perWave;
    MulStrict(perWave, waves, w);
    assert perWave * (w - 1) >= 0 by {
      MulStrict(perWave, w - 1, 0);
    }
  }

  lemma SmallMod(s: int, n: int)
    requires 0 <= s < n
    ensures s % n == s
  {
  }

  /** Two slots are equal only for the same wave and question. */
  lemma SameSlot(w1: int, k1: int, w2: int, k2: int, perWave: int)
    requires w1 >= 1 && w2 >= 1 && 0 <= k1 < perWave && 0 <= k2 < perWave
    requires (w1 - 1) * perWave + k1 == (w2 - 1) * perWave + k2
    ensures w1 == w2 && k1 == k2
  {
    assert w1 * perWave == (w1 - 1) * perWave + perWave;
    assert w2 * perWave == (w2 - 1) * perWave + perWave;
    MulStrict(perWave, w1 - 1, w2);
    MulStrict(perWave, w2 - 1, w1);
  }

  /** Within a game whose length fits the bank, every (wave, question) pair gets its own
      slot: no bank position is served twice. */
  lemma GlobalIndexInjective(w1: int, k1: int, w2: int, k2: int, perWave: int, waves: int, n: int)
    requires 1 <= w1 <= waves && 1 <= w2 <= waves
    requires 0 <= k1 < perWave && 0 <= k2 < perWave
    requires waves * perWave <= n
    requires GlobalIndex(w1, perWave, k1, n) == GlobalIndex(w2, perWave, k2, n)
    ensures w1 == w2 && k1 == k2
  {
    SlotInGame(w1, k1, perWave, waves);
    SlotInGame(w2, k2, perWave, waves);
    SmallMod((w1 - 1) * perWave + k1, n);
    SmallMod((w2 - 1) * perWave + k2, n);
    SameSlot(w1, k1, w2, k2, perWave);
  }

  /** The end-of-game accuracy: `round(100 * correct / (waves * perWave))`, or 0 without questions. */
  function FinalPercent(totalCorrect: int, waves: int, perWave: int): (p: int)
    ensures 0 <= totalCorrect <= waves * perWave ==> 0 <= p <= 100
  {
    if 0 <= totalCorrect <= waves * perWave then
      PercentInRange(totalCorrect, waves * perWave);
      Percent(totalCorrect, waves * perWave)
    else Percent(totalCorrect, waves * perWave)
  }

  /** The 70% rule: credits survive the end of the game exactly when the rounded accuracy
      reaches 70, which is the case exactly when at least 69.5% of the questions were right. */
  lemma KeepCreditsThreshold(totalCorrect: int, waves: int, perWave: int)
    requires waves >= 1 && perWave >= 1
    ensures FinalPercent(totalCorrect, waves, perWave) >= PASS_PERCENT
            <==> 200 * totalCorrect >= 139 * (waves * perWave)
  {
    assert waves * perWave >= 1 by {
      assert waves * perWave >= 1 * perWave;
    }
    PercentAtLeast(totalCorrect, waves * perWave, PASS_PERCENT);
  }

  /** The credits, hints and items of a player (`StateManager`). */
  class StateManager {
    var score: int                  // credits
    var hints: int
    var freeze: int                 // inventory.freeze
    var correctAnswersInWave: int   // stats.correctAnswersInWave
    var totalItems: int             // stats.totalItems

    constructor ()
      ensures score == 0 && hints == START_HINTS && freeze == 0
      ensures correctAnswersInWave == 0 && totalItems == 0
    {
      score, hints, freeze := 0, START_HINTS, 0;
      correctAnswersInWave, totalItems := 0, 0;
    }

    /** `update(key, value)`: adds `value` to the score or to the hints; other keys change nothing. */
    method Update(key: string, value: int)
      modifies this`score, this`hints
      ensures score == old(score) + (if key == "score" then value else 0)
      ensures hints == old(hints) + (if key == "hints" then value else 0)
    {
      if key == "score" {
        score := score + value;
      }
      if key == "hints" {
        hints := hints + value;
      }
    }

    /** `buyItem(item, cost)`: succeeds exactly when the credits cover the cost; then the cost
        is paid, a hint pack adds 3 hints and a freeze adds one charge and one item bought.
        A failed purchase changes nothing. */
    method BuyItem(item: string, cost: int) returns (ok: bool)
      modifies this`score, this`hints, this`freeze, this`totalItems
      ensures ok <==> old(score) >= cost
      ensures score == (if ok then old(score) - cost else old(score))
      ensures hints == old(hints) + (if ok && item == "hints" then HINT_PACK else 0)
      ensures freeze == old(freeze) + (if ok && item == "freeze" then 1 else 0)
      ensures totalItems == old(totalItems) + (if ok && item == "freeze" then 1 else 0)
    {
      if score >= cost {
        score := score - cost;
        if item == "hints" {
          hints := hints + HINT_PACK;
        }
        if item == "freeze" {
          freeze := freeze + 1;
          totalItems := totalItems + 1;
        }
        return true;
      }
      return false;
    }

    method ResetWaveStats()
      modifies this`correctAnswersInWave
      ensures correctAnswersInWave == 0
    {
      correctAnswersInWave := 0;
    }
  }

  /** The game controller (`App`), without its rendering, camera and audio parts. */
  class App {
    const state: StateManager
    var questions: seq<Question>
    var currentQIndex: int
    var waveCount: int
    var maxWaves: int
    var questionsPerWave: int
    var totalCorrectAnswers: int
    var userConfigSet: bool
    var isPlaying: bool
    var gameOver: bool
    /** Whether `this.timer` holds a live countdown interval. */
    var timerRunning: bool
    var timeLeft: real
    var timeMultiplier: real
    var isFrozen: bool
    var isHintActive: bool
    var currentQ: Option<Question>
    var currentOptions: seq<string>
    /** -1 until a round has been built. */
    var correctOptionIndex: int

    /** The round on screen shows a permutation of its question's options, with the right
        answer at `correctOptionIndex`. */
    ghost predicate RoundValid()
      reads this`currentQ, this`currentOptions, this`correctOptionIndex
    {
      currentQ.Some? ==>
        WellFormed(currentQ.value) &&
        multiset(currentOptions) == multiset(currentQ.value.o) &&
        0 <= correctOptionIndex < |currentOptions| &&
        currentOptions[correctOptionIndex] == currentQ.value.o[currentQ.value.a]
    }

    /** The bank holds 120 well-formed questions. */
    ghost predicate BankValid()
      reads this`questions
    {
      |questions| == BANK_SIZE && AllWellFormed(questions)
    }

    /** The configuration stays within its limits. */
    ghost predicate ConfigValid()
      reads this`maxWaves, this`questionsPerWave
    {
      1 <= maxWaves <= WAVES_LIMIT && 1 <= questionsPerWave <= QUESTIONS_LIMIT
    }

    /** Credits, hints and items never go negative, and a pending hint scan has a hint to spend. */
    ghost predicate EconomyValid()
      reads this`isHintActive, state`score, state`hints, state`freeze,
            state`totalItems, state`correctAnswersInWave
    {
      state.score >= 0 && state.hints >= 0 && state.freeze >= 0 &&
      state.totalItems >= 0 && state.correctAnswersInWave >= 0 &&
      (isHintActive ==> state.hints >= 1)
    }

    /** What every operation preserves. */
    ghost predicate Valid()
      reads this, state
    {
      BankValid() && ConfigValid() && EconomyValid() && RoundValid() &&
      waveCount >= 1 && currentQIndex >= 0 && totalCorrectAnswers >= 0 &&
      (gameOver ==> !isPlaying) &&
      MIN_MULTIPLIER <= timeMultiplier <= MAX_MULTIPLIER
    }

    constructor (rnd: seq<real>)
      requires RandomSupply(rnd, BANK_SIZE)
      ensures Valid() && fresh(state)
      ensures ShuffledBank(questions)
      ensures state.score == 0 && state.hints == START_HINTS && state.freeze == 0
      ensures currentQIndex == 0 && waveCount == 1 && maxWaves == DEFAULT_WAVES
      ensures questionsPerWave == WAVE_SIZE && totalCorrectAnswers == 0
      ensures !userConfigSet && !isPlaying && !gameOver && !timerRunning
      ensures timeLeft == QUESTION_TIME && timeMultiplier == 1.0 && !isFrozen && !isHintActive
      ensures currentQ == None
    {
      state := new StateManager();
      currentQIndex, waveCount, maxWaves, questionsPerWave := 0, 1, DEFAULT_WAVES, WAVE_SIZE;
      totalCorrectAnswers, userConfigSet, isPlaying, gameOver := 0, false, false, false;
      timerRunning, timeLeft, timeMultiplier, isFrozen, isHintActive := false, QUESTION_TIME, 1.0, false, false;
      currentQ, currentOptions, correctOptionIndex := None, [], -1;
      new;
      Reshuffle(rnd);
    }

    /** `this.questions = this.shuffleArray(this.generateQuestions())`. */
    method Reshuffle(rnd: seq<real>)
      requires RandomSupply(rnd, BANK_SIZE)
      modifies this`questions
      ensures ShuffledBank(questions)
      ensures |questions| == BANK_SIZE && AllWellFormed(questions)
    {
      GeneratedBankWellFormed();
      questions := ShuffleArray(GenerateQuestions(), rnd);
      PermutedBankWellFormed(questions);
    }

    /** `setGameConfig(numWaves, questionsPerWave)`: a positive number, floored and clamped,
        becomes the new setting; anything else leaves it. The bank is reshuffled and the
        session's correct count zeroed. It does not look at `isPlaying`. */
    method SetGameConfig(numWaves: Option<real>, perWave: Option<real>, rnd: seq<real>)
      requires Valid() && RandomSupply(rnd, BANK_SIZE)
      modifies this`maxWaves, this`questionsPerWave, this`questions, this`totalCorrectAnswers, this`userConfigSet
      ensures Valid()
      ensures maxWaves == ConfigSetting(numWaves, WAVES_LIMIT, old(maxWaves))
      ensures questionsPerWave == ConfigSetting(perWave, QUESTIONS_LIMIT, old(questionsPerWave))
      ensures ShuffledBank(questions)
      ensures totalCorrectAnswers == 0 && userConfigSet
    {
      maxWaves := ConfigSetting(numWaves, WAVES_LIMIT, maxWaves);
      questionsPerWave := ConfigSetting(perWave, QUESTIONS_LIMIT, questionsPerWave);
      Reshuffle(rnd);
      totalCorrectAnswers := 0;
      userConfigSet := true;
    }

    /** `processChatCommand(text)`: `None` for an empty text (the source returns nothing),
        otherwise whether the normalised text was a command, with the effect `CommandDone`
        describes. */
    method ProcessChatCommand(text: string, bankRnd: seq<real>, optionRnd: seq<real>)
      returns (handled: Option<bool>)
      requires Valid() && RandomSupply(bankRnd, BANK_SIZE) && RandomSupply(optionRnd, OPTION_COUNT)
      modifies this`maxWaves, this`questionsPerWave, this`userConfigSet, this`questions,
               this`totalCorrectAnswers, this`currentQIndex, this`isPlaying, this`currentQ,
               this`currentOptions, this`correctOptionIndex, this`timeLeft, this`isFrozen, this`timerRunning,
               this`gameOver, this`timeMultiplier, this`waveCount, state`correctAnswersInWave, state`score
      ensures Valid()
      ensures text == "" ==> handled == None && unchanged(this) && unchanged(state)
      ensures text != "" ==> handled.Some? && CommandDone(ParseCommand(text), handled.value)
    {
      if text == "" {
        return None;
      }
      var done := RunCommand(ParseCommand(text), bankRnd, optionRnd);
      return Some(done);
    }

    /** The effect of a parsed chat command. While a wave is being played, configuration
        commands and `iniciar` are acknowledged without any change. Otherwise a positive wave or
        question count is clamped and stored (a zero is not a command), `iniciar` starts a new
        game, and anything else is refused without any change. */
    /** Nothing but the two settings and the configured flag changes. */
    twostate predicate OnlySettingsChanged()
      reads this, state
    {
      questions == old(questions) && isPlaying == old(isPlaying) && waveCount == old(waveCount) &&
      totalCorrectAnswers == old(totalCorrectAnswers) && gameOver == old(gameOver) &&
      currentQIndex == old(currentQIndex) && currentQ == old(currentQ) &&
      currentOptions == old(currentOptions) && correctOptionIndex == old(correctOptionIndex) &&
      timerRunning == old(timerRunning) && timeLeft == old(timeLeft) && isFrozen == old(isFrozen) &&
      timeMultiplier == old(timeMultiplier) && isHintActive == old(isHintActive) && unchanged(state)
    }

    twostate predicate CommandDone(command: Command, handled: bool)
      reads this, state
    {
      if old(isPlaying) && !command.Unrecognized? then
        handled && unchanged(this) && unchanged(state)
      else match command
        case Waves(n) =>
          if n > 0 then
            handled && maxWaves == Clamp(n, 1, WAVES_LIMIT) && userConfigSet &&
            questionsPerWave == old(questionsPerWave) && OnlySettingsChanged()
          else !handled && unchanged(this) && unchanged(state)
        case Questions(n) =>
          if n > 0 then
            handled && questionsPerWave == Clamp(n, 1, QUESTIONS_LIMIT) && userConfigSet &&
            maxWaves == old(maxWaves) && OnlySettingsChanged()
          else !handled && unchanged(this) && unchanged(state)
        case Start =>
          handled && ShuffledBank(questions) && |questions| > 0 &&
          maxWaves == old(maxWaves) && questionsPerWave == old(questionsPerWave) &&
          userConfigSet == old(userConfigSet) && timeMultiplier == old(timeMultiplier) &&
          isHintActive == old(isHintActive) &&
          totalCorrectAnswers == 0 && waveCount == 1 && !gameOver && isPlaying &&
          currentQIndex == 0 && state.correctAnswersInWave == 0 && state.score == old(state.score) &&
          state.hints == old(state.hints) && state.freeze == old(state.freeze) &&
          state.totalItems == old(state.totalItems) &&
          currentQ == Some(questions[0]) && timerRunning && timeLeft == QUESTION_TIME && !isFrozen
        case Unrecognized =>
          !handled && unchanged(this) && unchanged(state)
    }

    method RunCommand(command: Command, bankRnd: seq<real>, optionRnd: seq<real>) returns (handled: bool)
      requires Valid() && RandomSupply(bankRnd, BANK_SIZE) && RandomSupply(optionRnd, OPTION_COUNT)
      modifies this`maxWaves, this`questionsPerWave, this`userConfigSet, this`questions,
               this`totalCorrectAnswers, this`currentQIndex, this`isPlaying, this`currentQ,
               this`currentOptions, this`correctOptionIndex, this`timeLeft, this`isFrozen, this`timerRunning,
               this`gameOver, this`timeMultiplier, this`waveCount, state`correctAnswersInWave, state`score
      ensures Valid()
      ensures CommandDone(command, handled)
    {
      if isPlaying && !command.Unrecognized? {
        return true;
      }
      match command
      case Waves(n) =>
        if n > 0 {
          maxWaves := Clamp(n, 1, WAVES_LIMIT);
          userConfigSet := true;
          return true;
        }
        return false;
      case Questions(n) =>
        if n > 0 {
          questionsPerWave := Clamp(n, 1, QUESTIONS_LIMIT);
          userConfigSet := true;
          return true;
        }
        return false;
      case Start =>
        StartGame(bankRnd, optionRnd);
        return true;
      case Unrecognized =>
        return false;
    }

    /** The `iniciar` command outside a wave: a reshuffled bank, no correct answers, wave 1,
        and the first wave started with its first question on screen. */
    method StartGame(bankRnd: seq<real>, optionRnd: seq<real>)
      requires Valid() && RandomSupply(bankRnd, BANK_SIZE) && RandomSupply(optionRnd, OPTION_COUNT)
      modifies this`questions, this`totalCorrectAnswers, this`currentQIndex, this`isPlaying, this`currentQ,
               this`currentOptions, this`correctOptionIndex, this`timeLeft, this`isFrozen, this`timerRunning,
               this`gameOver, this`timeMultiplier, this`waveCount, state`correctAnswersInWave, state`score
      ensures Valid()
      ensures ShuffledBank(questions)
      ensures totalCorrectAnswers == 0 && waveCount == 1 && !gameOver && isPlaying
      ensures currentQIndex == 0 && state.correctAnswersInWave == 0 && state.score == old(state.score)
      ensures currentQ == Some(questions[0]) && timerRunning && timeLeft == QUESTION_TIME && !isFrozen
      ensures maxWaves == old(maxWaves) && questionsPerWave == old(questionsPerWave)
      ensures timeMultiplier == old(timeMultiplier)
    {
      Reshuffle(bankRnd);
      totalCorrectAnswers, waveCount, currentQIndex, gameOver := 0, 1, 0, false;
      assert GlobalIndex(waveCount, questionsPerWave, 0, |questions|) == 0;
      StartWave(optionRnd);
    }

    /** `startWave()`: nothing once the game is over; otherwise the wave's counters restart,
        the wave becomes active and its first question is served. It does not look at
        `isPlaying`. */
    method StartWave(rnd: seq<real>)
      requires Valid() && RandomSupply(rnd, OPTION_COUNT)
      modifies this`currentQIndex, this`isPlaying, this`currentQ, this`currentOptions,
               this`correctOptionIndex, this`timeLeft, this`isFrozen, this`timerRunning,
               this`gameOver, this`timeMultiplier, this`waveCount, state`correctAnswersInWave, state`score
      ensures Valid()
      ensures old(gameOver) ==> unchanged(this) && unchanged(state)
      ensures !old(gameOver) ==>
                var q := questions[GlobalIndex(waveCount, questionsPerWave, 0, |questions|)];
                isPlaying && !gameOver && currentQIndex == 0 && state.correctAnswersInWave == 0 &&
                waveCount == old(waveCount) && state.score == old(state.score) &&
                timeMultiplier == old(timeMultiplier) &&
                currentQ == Some(q) &&
                multiset(currentOptions) == multiset(q.o) &&
                0 <= correctOptionIndex < |currentOptions| && currentOptions[correctOptionIndex] == q.o[q.a] &&
                timerRunning && timeLeft == QUESTION_TIME && !isFrozen
    {
      if gameOver {
        return;
      }
      state.ResetWaveStats();
      currentQIndex := 0;
      isPlaying := true;
      NextQuestion(rnd);
    }

    /** `nextQuestion()` (also the callback `answer` schedules): nothing once the game is over;
        the end of the wave once its questions are used up; otherwise the question at the
        wave's global index is served with its options shuffled, the right answer's new
        position recorded, and the countdown restarted. */
    method NextQuestion(rnd: seq<real>)
      requires Valid() && RandomSupply(rnd, OPTION_COUNT)
      modifies this`currentQ, this`currentOptions, this`correctOptionIndex, this`timeLeft,
               this`isFrozen, this`timerRunning, this`gameOver, this`isPlaying, this`timeMultiplier,
               this`currentQIndex, this`waveCount, state`score
      ensures Valid()
      ensures old(gameOver) ==> unchanged(this) && unchanged(state)
      ensures !old(gameOver) && old(currentQIndex) >= questionsPerWave ==>
                WaveEnded() && currentQ == old(currentQ) && currentOptions == old(currentOptions) &&
                correctOptionIndex == old(correctOptionIndex) && timerRunning == old(timerRunning) &&
                timeLeft == old(timeLeft) && isFrozen == old(isFrozen)
      ensures !old(gameOver) && old(currentQIndex) < questionsPerWave ==>
                var q := questions[GlobalIndex(waveCount, questionsPerWave, currentQIndex, |questions|)];
                currentQ == Some(q) &&
                multiset(currentOptions) == multiset(q.o) &&
                0 <= correctOptionIndex < |currentOptions| && currentOptions[correctOptionIndex] == q.o[q.a] &&
                timerRunning && timeLeft == QUESTION_TIME && !isFrozen &&
                gameOver == old(gameOver) && isPlaying == old(isPlaying) &&
                timeMultiplier == old(timeMultiplier) && currentQIndex == old(currentQIndex) &&
                waveCount == old(waveCount) && state.score == old(state.score)
    {
      if gameOver {
        return;
      }
      if currentQIndex >= questionsPerWave {
        EndWave();
        return;
      }
      var q := questions[GlobalIndex(waveCount, questionsPerWave, currentQIndex, |questions|)];
      assert WellFormed(q);
      ShowQuestion(q, rnd);
      StartTimer();
    }

    /** The round-building part of `nextQuestion`: the options are tagged with their
        positions, shuffled, and the right answer is found again by its tag. */
    method ShowQuestion(q: Question, rnd: seq<real>)
      requires WellFormed(q) && RandomSupply(rnd, OPTION_COUNT)
      modifies this`currentQ, this`currentOptions, this`correctOptionIndex
      ensures currentQ == Some(q) && RoundValid()
    {
      currentQ := Some(q);
      var shuffled := ShuffleArray(Tag(q.o), rnd);
      currentOptions := Opts(shuffled);
      correctOptionIndex := FindIdx(shuffled, q.a);
      ShuffledRoundIsCorrect(q.o, shuffled, q.a);
    }

    /** `startTimer()`: a full, unfrozen countdown, replacing any running one. */
    method StartTimer()
      modifies this`timeLeft, this`isFrozen, this`timerRunning
      ensures timeLeft == QUESTION_TIME && !isFrozen && timerRunning
    {
      timeLeft := QUESTION_TIME;
      isFrozen := false;
      timerRunning := true;
    }

    /** One firing of the countdown interval. With no live interval nothing happens; while
        frozen the time stands still; otherwise the time drops by the multiplier (`|| 1`), and
        on reaching zero the interval is cleared and the question is answered as timed out,
        which can therefore happen only once per countdown. */
    method Tick() returns (timedOut: bool)
      requires Valid()
      modifies this`timeLeft, this`timerRunning, this`currentQIndex, this`totalCorrectAnswers,
               state`score, state`hints, state`correctAnswersInWave
      ensures Valid()
      ensures !old(timerRunning) || old(isFrozen) ==> !timedOut && unchanged(this) && unchanged(state)
      ensures old(timerRunning) && !old(isFrozen) ==>
                timeLeft == old(timeLeft) - (if old(timeMultiplier) == 0.0 then 1.0 else old(timeMultiplier)) &&
                (timedOut <==> timeLeft <= 0.0) &&
                timerRunning == !timedOut &&
                currentQIndex == old(currentQIndex) + (if timedOut then 1 else 0)
      ensures totalCorrectAnswers == old(totalCorrectAnswers) && state.score == old(state.score)
      ensures state.correctAnswersInWave == old(state.correctAnswersInWave) && state.hints == old(state.hints)
    {
      if !timerRunning || isFrozen {
        return false;
      }
      timeLeft := timeLeft - (if timeMultiplier == 0.0 then 1.0 else timeMultiplier);
      if timeLeft <= 0.0 {
        timerRunning := false;
        Answer(TIMEOUT);
        return true;
      }
      return false;
    }

    /** `answer(index)`: stops the countdown; a timeout earns nothing; the right position earns
        100 credits and one right answer in the wave and in the session; a wrong one earns
        nothing; either way the wave moves on by one question (`nextQuestion` follows after
        a delay, as a separate call). */
    method Answer(index: int)
      requires Valid()
      modifies this`timerRunning, this`currentQIndex, this`totalCorrectAnswers,
               state`score, state`hints, state`correctAnswersInWave
      ensures Valid()
      ensures !timerRunning && currentQIndex == old(currentQIndex) + 1
      ensures var right := index != TIMEOUT && index == correctOptionIndex;
              state.score == old(state.score) + (if right then CORRECT_REWARD else 0) &&
              state.correctAnswersInWave == old(state.correctAnswersInWave) + (if right then 1 else 0) &&
              totalCorrectAnswers == old(totalCorrectAnswers) + (if right then 1 else 0)
      ensures index == TIMEOUT ==> state.score == old(state.score)
      ensures state.hints == old(state.hints)
    {
      timerRunning := false;
      if index == TIMEOUT {
      } else if index == correctOptionIndex {
        state.Update("score", CORRECT_REWARD);
        state.correctAnswersInWave := state.correctAnswersInWave + 1;
        totalCorrectAnswers := totalCorrectAnswers + 1;
      }
      currentQIndex := currentQIndex + 1;
    }

    /** `activateHintLogic()`: refused without hints; otherwise the hint scan starts and, during
        a wave, the countdown slows to 0.6. No hint is spent yet. */
    method ActivateHintLogic()
      requires Valid()
      modifies this`isHintActive, this`timeMultiplier
      ensures Valid()
      ensures old(state.hints) <= 0 ==> unchanged(this)
      ensures old(state.hints) > 0 ==>
                isHintActive && timeMultiplier == (if isPlaying then ClampMultiplier(Some(SLOW_FACTOR)) else old(timeMultiplier))
    {
      if state.hints <= 0 {
        return;
      }
      isHintActive := true;
      if isPlaying {
        SetTimeMultiplier(Some(SLOW_FACTOR));
      }
    }

    /** `unlockHint()` (the smile callback): only while a scan is pending; ends the scan, spends
        exactly one hint, reveals the current question's hint and restores the time. With no
        question yet, reading its hint throws after the hint is spent, so the time is not
        restored. */
    method UnlockHint() returns (revealed: Option<string>)
      requires Valid()
      modifies this`isHintActive, this`timeMultiplier, state`score, state`hints
      ensures Valid()
      ensures !old(isHintActive) ==> revealed == None && unchanged(this) && unchanged(state)
      ensures old(isHintActive) ==>
                !isHintActive && state.hints == old(state.hints) - 1 && state.score == old(state.score) &&
                revealed == (if currentQ.Some? then Some(currentQ.value.h) else None) &&
                timeMultiplier == (if currentQ.Some? then 1.0 else old(timeMultiplier))
    {
      if !isHintActive {
        return None;
      }
      isHintActive := false;
      state.Update("hints", -1);
      if currentQ.None? {
        return None;
      }
      revealed := Some(currentQ.value.h);
      ResetTimeMultiplier();
    }

    /** The cancel-scan button: only while a scan is pending; ends it without spending a hint
        and restores the time. */
    method CancelHint()
      requires Valid()
      modifies this`isHintActive, this`timeMultiplier
      ensures Valid()
      ensures !old(isHintActive) ==> unchanged(this)
      ensures old(isHintActive) ==> !isHintActive && timeMultiplier == 1.0
    {
      if !isHintActive {
        return;
      }
      isHintActive := false;
      ResetTimeMultiplier();
    }

    /** `freezeTime()`: uses one freeze charge, only when one is left and the countdown is not
        already frozen. It does not look at whether a countdown is running. */
    method FreezeTime()
      requires Valid()
      modifies this`isFrozen, state`freeze
      ensures Valid()
      ensures old(state.freeze) > 0 && !old(isFrozen) ==> isFrozen && state.freeze == old(state.freeze) - 1
      ensures !(old(state.freeze) > 0 && !old(isFrozen)) ==> isFrozen == old(isFrozen) && state.freeze == old(state.freeze)
    {
      if state.freeze > 0 && !isFrozen {
        isFrozen := true;
        state.freeze := state.freeze - 1;
      }
    }

    /** What `endWave()` does. After the last wave: the game is over, no wave is active, the
        time is normal, the question index restarts, and the credits are kept exactly when
        the session's accuracy rounds to at least 70%, otherwise they drop to 0. Before the
        last wave: the wave number goes up, no wave is active and the time is normal. */
    twostate predicate WaveEnded()
      reads this, state
    {
      !isPlaying && timeMultiplier == 1.0 &&
      maxWaves == old(maxWaves) && questionsPerWave == old(questionsPerWave) &&
      totalCorrectAnswers == old(totalCorrectAnswers) && questions == old(questions) &&
      if old(waveCount) >= old(maxWaves) then
        gameOver && currentQIndex == 0 && waveCount == old(waveCount) &&
        state.score == (if FinalPercent(old(totalCorrectAnswers), old(maxWaves), old(questionsPerWave)) >= PASS_PERCENT
                        then old(state.score) else 0)
      else
        !gameOver && gameOver == old(gameOver) && waveCount == old(waveCount) + 1 &&
        currentQIndex == old(currentQIndex) && state.score == old(state.score)
    }

    method EndWave()
      requires Valid() && !gameOver
      modifies this`gameOver, this`isPlaying, this`timeMultiplier, this`currentQIndex, this`waveCount, state`score
      ensures Valid()
      ensures WaveEnded()
    {
      if waveCount >= maxWaves {
        gameOver := true;
        isPlaying := false;
        ResetTimeMultiplier();
        var percent := FinalPercent(totalCorrectAnswers, maxWaves, questionsPerWave);
        if percent < PASS_PERCENT {
          state.score := 0;
        }
        currentQIndex := 0;
        return;
      }
      waveCount := waveCount + 1;
      isPlaying := false;
      ResetTimeMultiplier();
    }

    /** `resetGame()`: a new game with the same credits, hints and items: wave 1, not over,
        no wave active, no correct answers, normal time, a reshuffled bank, and the
        configuration open again. */
    method ResetGame(rnd: seq<real>)
      requires Valid() && RandomSupply(rnd, BANK_SIZE)
      modifies this`gameOver, this`waveCount, this`userConfigSet, this`totalCorrectAnswers,
               this`isPlaying, this`timeMultiplier, this`questions, state`correctAnswersInWave
      ensures Valid()
      ensures !gameOver && waveCount == 1 && !userConfigSet && totalCorrectAnswers == 0
      ensures !isPlaying && timeMultiplier == 1.0 && state.correctAnswersInWave == 0
      ensures ShuffledBank(questions)
    {
      gameOver := false;
      waveCount := 1;
      state.ResetWaveStats();
      userConfigSet := false;
      totalCorrectAnswers := 0;
      isPlaying := false;
      ResetTimeMultiplier();
      Reshuffle(rnd);
    }

    /** `setTimeMultiplier(factor)`. */
    method SetTimeMultiplier(factor: Option<real>)
      modifies this`timeMultiplier
      ensures timeMultiplier == ClampMultiplier(factor)
    {
      timeMultiplier := ClampMultiplier(factor);
    }

    /** `resetTimeMultiplier()`. */
    method ResetTimeMultiplier()
      modifies this`timeMultiplier
      ensures timeMultiplier == 1.0
    {
      timeMultiplier := 1.0;
    }

    /** The hint-pack shop button: `buyItem('hints', 300)`. */
    method BuyHints() returns (ok: bool)
      requires Valid()
      modifies state`score, state`hints, state`freeze, state`totalItems
      ensures Valid()
      ensures ok <==> old(state.score) >= HINT_PRICE
      ensures ok ==> state.score == old(state.score) - HINT_PRICE && state.hints == old(state.hints) + HINT_PACK &&
                     state.totalItems == old(state.totalItems)
      ensures !ok ==> unchanged(state)
      ensures state.freeze == old(state.freeze)
    {
      ok := state.BuyItem("hints", HINT_PRICE);
    }

    /** The freeze shop button: `buyItem('freeze', 500)`. */
    method BuyFreeze() returns (ok: bool)
      requires Valid()
      modifies state`score, state`hints, state`freeze, state`totalItems
      ensures Valid()
      ensures ok <==> old(state.score) >= FREEZE_PRICE
      ensures ok ==> state.score == old(state.score) - FREEZE_PRICE && state.freeze == old(state.freeze) + 1 &&
                     state.totalItems == old(state.totalItems) + 1
      ensures !ok ==> unchanged(state)
      ensures state.hints == old(state.hints)
    {
      ok := state.BuyItem("freeze", FREEZE_PRICE);
    }
  }
}
