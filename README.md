# Trivia-Virtual in Dafny

This project models the bookkeeping of two browser trivia games and proves properties about it.

**The AR trivia game (js/app.js).**
- `StateManager` holds the player's economy: credits, hints, freeze charges and wave statistics.
- `App` runs the waves of questions:
  - configuration, through `setGameConfig` and the chat commands `oleadas: n`, `preguntas: n` and `iniciar`;
  - the built-in bank of 120 questions, shuffled with Fisher–Yates;
  - each question round, with its options shuffled and the right answer tracked to its new position;
  - the countdown, with its freeze and its time multiplier;
  - the face-scan hint;
  - the end-of-game 70% credit rule, and the reset.

**DuoTrivia (duotrivia/js).**
- The chatbot deals one question card at a time. It checks the clicked option and keeps score, streak and counters.
- It reports to a stats panel. The panel keeps the accuracy, its trend and an accuracy series.
- Raw questions from the dataset are validated, and a load-once cache serves them.
- The dataset panel tallies and filters questions by difficulty.
- The chart helpers parse colours and compute the bar, pie and line geometry.

Modules:
- `Wrappers` holds `Option`.
- `JsText` holds `trim`, ASCII `toLowerCase`, decimal and hexadecimal digits, and number-to-text.
- `Numeric` holds `Math.round` of an exact quotient, and the percentage every part of the code computes.
- `Shuffle` covers randomness as data and `shuffleArray`.
- `QuestionBank` holds `generateQuestions`.
- `Round` covers the option shuffle of one question.
- `ChatCommands` covers the command parser.
- `Game` holds the `StateManager` and `App` classes.
- `TriviaApi` holds `formatData` and the `TriviaFetcher` class.
- `DuoDashboard` holds the stats panel class and the dataset panel.
- `DuoChatbot` holds the `Chatbot` class.
- `Charts` holds the chart helpers.

How the model treats the code:
- Objects whose methods update fields are classes with `modifies` frames.
- Each class carries an invariant that every method preserves. Examples:
  - credits, hints and charges are never negative, and a pending hint scan always has a hint to spend;
  - the option on screen at `correctOptionIndex` is always the question's right answer;
  - the chatbot's score is always 100 times its right answers, and its streak never exceeds them;
  - the stats panel always shows the chatbot's current figures and one accuracy per answer.
- Timer and delay callbacks are explicit methods: `Tick` is one firing of the countdown interval, and `NextQuestion` is the callback `answer` schedules.
- Every `Math.random()` value is a parameter: a real in [0, 1).
- The outcome of the one dataset fetch is a parameter too.
- The countdown's `timeLeft` is not clamped at 0, as in the source, where only the bar width is clamped.
- Where the source code throws, the model stops at the same point. For example, `unlockHint` with no question on screen spends the hint and then fails before restoring the time.
- The chatbot's `cancel` branch cannot be reached while a question is open, because the waiting check runs first. `ProcessUserMessage` keeps that behaviour, and its contract states that every non-empty message gets the same reminder in that state.

## Model

| member | source | states |
|---|---|---|
| JsText.TrimStart | js/app.js:713 | the result is a suffix of the input; everything dropped is white space; the result starts with a non-space |
| JsText.TrimEnd | js/app.js:713 | the result is a prefix of the input; everything dropped is white space; the result ends with a non-space |
| JsText.Lower | js/app.js:713 | definition of `toLowerCase` on ASCII: same length, each character lower-cased on its own |
| JsText.TrimLower | js/app.js:713 | definition of `text.trim().toLowerCase()` (also duotrivia/js/chatbot.js:22): no white space at either end, no upper-case ASCII letter, never longer than the input |
| JsText.LowerTrimIsTrimLower | duotrivia/js/chatbot.js:62 | the answer normaliser `toLowerCase().trim()` gives the same text as `trim().toLowerCase()`: lower-casing and trimming commute |
| JsText.HexDigitValue | duotrivia/js/charts.js:186 | a hexadecimal digit is worth its position in `0123456789abcdef`, letters in either case; it is below 10 exactly when it is a decimal digit |
| JsText.NatToString | duotrivia/js/chatbot.js:136 | the decimal text of a number is non-empty, all digits, reads back as the number, and has no leading zero |
| Numeric.RoundHalfUp | duotrivia/js/chatbot.js:135 | `Math.round(num / den)` is the integer nearest the quotient, halves rounded up |
| Numeric.Percent | duotrivia/js/chatbot.js:135 | definition of `total > 0 ? Math.round(part / total * 100) : 0` (also duotrivia/js/charts.js:164, duotrivia/js/app.js:117): with a positive whole, the integer nearest 100·part/whole, halves up; otherwise 0 |
| Numeric.PercentInRange | duotrivia/js/app.js:117 | the percentage of a part within its whole lies in 0..100 |
| Numeric.PercentExact | js/app.js:981 | when the ratio is a whole percentage, the rounded percentage equals it |
| Numeric.PercentAtLeast | js/app.js:981-985 | the rounded percentage reaches a threshold exactly when the ratio is at least the threshold less one half |
| Shuffle.Pick | duotrivia/js/trivia-api.js:30 | `Math.floor(Math.random() * n)` is an index below `n` |
| Shuffle.ShuffleArray | js/app.js:607-614 | the result has the input's length and the same elements, each as often (a permutation); the input is a value and is not changed |
| QuestionBank.Item | js/app.js:618-661 | every base item has four options and a right-answer index among them |
| QuestionBank.ThreeCopies | js/app.js:663 | position `i` of three concatenated copies of a 40-item list holds item `i mod 40` |
| QuestionBank.BaseWellFormed | js/app.js:618-661 | the base list has 40 items, all well formed |
| QuestionBank.GeneratedBankWellFormed | js/app.js:616-664 | the generated bank has 120 items; item `i` is base item `i mod 40`; all are well formed |
| QuestionBank.PermutedBankWellFormed | js/app.js:558 | any shuffle of the generated bank still has 120 well-formed items |
| Round.Tag | js/app.js:823 | definition of the `map`: option `i` is tagged with its text and its position `i` |
| Round.Opts | js/app.js:826 | definition of the projection: the shown texts are the tagged texts in the shuffled order |
| Round.FindIdx | js/app.js:827 | `findIndex` returns the first position holding the tag, or -1 exactly when no position does |
| Round.OptsPreservesMultiset | js/app.js:824-826 | rearranging tagged options rearranges their texts: the same texts, each as often |
| Round.ShuffledRoundIsCorrect | js/app.js:823-827 | after any shuffle, the shown options are a permutation of the question's options, and the position found for the right answer shows the right answer's text |
| ChatCommands.SeparatorRun | js/app.js:716 | the longest prefix of `[:\s]` characters |
| ChatCommands.ParseCommand | js/app.js:715-747 | definition of the command tests in the source's order: a waves command exactly when the `oleadas` pattern matches, with its number; a questions command carries the `preguntas` number; a start exactly when the normalised text is `iniciar` or `start` (neither pattern can match those) |
| ChatCommands.ConfigValue | js/app.js:724-726 | a captured number implies that the text starts with the keyword |
| ChatCommands.ConfigValueMatchesPattern | js/app.js:716-717 | a number is captured exactly when the text is keyword, one or more separators, one or more digits; the number is those digits' decimal value |
| ChatCommands.ConfigKeywordsExclusive | js/app.js:724-747 | no text is both an `oleadas` and a `preguntas` command |
| Game.Clamp | js/app.js:728 | `min(max(n, lo), hi)` lies in `lo..hi`, is `n` inside the range and the nearer bound outside it |
| Game.ConfigSetting | js/app.js:700-701 | a positive number is floored and clamped to `1..limit`; anything else keeps the current setting; an in-range setting stays in range |
| Game.ClampMultiplier | js/app.js:1196-1197 | the multiplier lies in [0.2, 2]; NaN or 0 gives 1; a value already in range is kept |
| Game.GlobalIndex | js/app.js:812 | the question index always points into the bank |
| Game.GlobalIndexInjective | js/app.js:811-813 | when the game's questions fit the bank, no two (wave, question) pairs get the same bank position |
| Game.KeepCreditsThreshold | js/app.js:980-993 | credits survive the last wave exactly when at least 69.5% of all questions were answered right (the rounded percentage reaches 70) |
| Game.FinalPercent | js/app.js:980-981 | definition of the end-of-game percentage over `maxWaves * questionsPerWave` questions; it lies in 0..100 when the right answers do not exceed the questions |
| Game.StateManager.constructor | js/app.js:7-18 | 0 credits, 3 hints, no freeze charge, zero statistics |
| Game.StateManager.Update | js/app.js:20-25 | adds the value to the score or the hints, according to the key; any other key changes nothing |
| Game.StateManager.BuyItem | js/app.js:27-40 | succeeds exactly when the credits cover the cost. A success pays exactly the cost; a hint pack adds 3 hints; a freeze adds one charge and one item. A failure changes nothing |
| Game.StateManager.ResetWaveStats | js/app.js:42-44 | the wave's right-answer count is zero |
| Game.App.constructor | js/app.js:558-575 | a shuffled bank; wave 1 of 3, with 3 questions per wave; no game running; a full, unfrozen countdown at normal speed; the invariant holds |
| Game.App.Reshuffle | js/app.js:702 | the bank is a permutation of the generated bank, with 120 well-formed questions |
| Game.App.SetGameConfig | js/app.js:699-708 | both settings follow `ConfigSetting` with limits 50 and 100; the bank is reshuffled; the session's right answers reset; the configuration is marked as set; `isPlaying` is not consulted |
| Game.App.ProcessChatCommand | js/app.js:711-769 | an empty text returns nothing and changes nothing; otherwise the parsed command has its effect (a stored count changes only that setting and the configured flag) and reports whether it was recognised |
| Game.App.RunCommand | js/app.js:715-768 | during a wave, configuration commands and `iniciar` are acknowledged without effect. Otherwise a positive count is clamped and stored and nothing else changes but the configured flag, a zero count is refused, `iniciar` starts a new game, and unknown text is refused without effect |
| Game.App.StartGame | js/app.js:750-763 | a reshuffled bank; no right answers; wave 1; game not over; the first question of the wave is on screen, its options shuffled and the right answer tracked, with a full countdown; credits, settings and the time multiplier unchanged |
| Game.App.StartWave | js/app.js:771-802 | no effect once the game is over. Otherwise the wave's counters reset, the wave becomes active, the time multiplier is kept, and the question at the wave's global index is shown with its options shuffled (a permutation) and `correctOptionIndex` on its right answer |
| Game.App.NextQuestion | js/app.js:804-843 | no effect once the game is over. Once the wave's questions are used up, the wave ends. Otherwise the question at the global index is shown with a permutation of its options, the right answer sits at `correctOptionIndex`, and the countdown restarts |
| Game.App.ShowQuestion | js/app.js:812-827 | the question is on screen and the round invariant holds |
| Game.App.StartTimer | js/app.js:845-853 | 10 seconds left, not frozen, interval running |
| Game.App.Tick | js/app.js:853-877 | no interval, or a frozen one: nothing changes. Otherwise the time drops by the multiplier (`|| 1`). Reaching zero stops the interval and answers as timed out, once, advancing the question; a timeout earns nothing and spends no hint |
| Game.App.Answer | js/app.js:880-911 | stops the countdown and advances the question by one. Only a non-timeout answer at the right position adds 100 credits and one right answer to the wave and to the session |
| Game.App.ActivateHintLogic | js/app.js:914-929 | refused without hints. Otherwise the scan is pending, and during a wave the time slows to 0.6; no hint is spent |
| Game.App.UnlockHint | js/app.js:931-952 | acts only while a scan is pending: it ends the scan, spends exactly one hint, reveals the current question's hint and restores normal time |
| Game.App.CancelHint | js/app.js:1087-1097 | acts only while a scan is pending: it ends the scan without spending a hint and restores normal time |
| Game.App.FreezeTime | js/app.js:954-962 | uses one charge exactly when a charge is left and the countdown is not already frozen; otherwise nothing changes |
| Game.App.EndWave | js/app.js:965-1017 | after the last wave: game over, no wave active, normal time, question index 0, and credits kept exactly when the rounded session accuracy is at least 70% (else 0). Earlier: the next wave number, no wave active, normal time |
| Game.App.ResetGame | js/app.js:1020-1029 | wave 1; game not over; no wave active; no right answers; configuration open; normal time; a reshuffled bank; credits, hints and items untouched |
| Game.App.SetTimeMultiplier | js/app.js:1194-1200 | the multiplier becomes the clamped factor |
| Game.App.ResetTimeMultiplier | js/app.js:1202-1205 | the multiplier is 1 |
| Game.App.BuyHints | js/app.js:1103-1114 | the hint pack is bought exactly when the credits reach 300: 300 paid, 3 hints added, the item count unchanged; otherwise nothing changes |
| Game.App.BuyFreeze | js/app.js:1116-1127 | the freeze is bought exactly when the credits reach 500: 500 paid, one charge and one item added; otherwise nothing changes |
| TriviaApi.OrDefault | duotrivia/js/trivia-api.js:66-67 | definition of the JavaScript or-default on text: a missing or empty text falls back to the default; any other text is kept |
| TriviaApi.ErrorRecord | duotrivia/js/trivia-api.js:53-59 | the error record has the single answer "Error", which is also its right answer |
| TriviaApi.FormatData | duotrivia/js/trivia-api.js:42-73 | the error record unless options exist and the index points into them. Otherwise: the options unchanged; the text at the index as the right answer; "General"/"Normal" defaults; question and explanation passed through. Always at least one answer, with the right answer among them |
| TriviaApi.LoadedCache | duotrivia/js/trivia-api.js:11-22 | a fetch fills the cache exactly when it succeeds with a `questions` property |
| TriviaApi.Chosen | duotrivia/js/trivia-api.js:25-34 | a question is produced exactly when the cache is non-empty, and it has its right answer among its answers |
| TriviaApi.TriviaFetcher.constructor | duotrivia/js/trivia-api.js:2-6 | the cache starts empty (`null`) |
| TriviaApi.TriviaFetcher.GetQuestion | duotrivia/js/trivia-api.js:8-40 | an existing cache is never reloaded, even an empty one; a missing cache becomes what the fetch gave; the answer is the question the cache yields for the random number |
| DuoDashboard.TrendOf | duotrivia/js/app.js:122-131 | no trend without answers; otherwise improving, worse or unchanged exactly as the accuracy is above, below or equal to the previous one |
| DuoDashboard.SeriesAfter | duotrivia/js/app.js:134-138 | the accuracy is appended when the count outgrows the series; a zero count empties the series; otherwise it is kept |
| DuoDashboard.FeedAllRecords | duotrivia/js/app.js:134-138 | fed counts 1, 2, 3, … as the chatbot sends them, the series records every accuracy in order, and its length equals the count |
| DuoDashboard.Incorrect | duotrivia/js/app.js:186-187 | the incorrect count is never negative, adds up with the right answers to the total, and is 0 when the right answers reach the total |
| DuoDashboard.Dashboard.constructor | duotrivia/js/app.js:34-36 | zero figures, previous accuracy 0, empty series |
| DuoDashboard.Dashboard.UpdateStats | duotrivia/js/app.js:112-142 | stores the figures; the accuracy is the rounded percentage, within 0..100 for consistent figures; the trend compares against the previous accuracy; the previous accuracy becomes this one; the series follows `SeriesAfter` |
| DuoDashboard.CountLevel | duotrivia/js/app.js:208-214 | a bucket never holds more questions than there are |
| DuoDashboard.Level | duotrivia/js/app.js:210 | definition of the tally key, the lower-cased difficulty or the empty text: empty without a difficulty, as long as the difficulty otherwise, with no upper-case ASCII letter |
| DuoDashboard.TallyDifficulties | duotrivia/js/app.js:208-214 | the loop counts exactly the questions whose lower-cased difficulty is easy, medium or hard |
| DuoDashboard.TallyBound | duotrivia/js/app.js:208-214 | no question is counted twice: easy + medium + hard is at most the number of questions |
| DuoDashboard.FilterByDifficulty | duotrivia/js/app.js:246 | the kept questions are exactly those whose difficulty equals the selection (case-sensitive), and no more than there were |
| DuoDashboard.FilterKeepsMultiplicity | duotrivia/js/app.js:246 | each matching question is kept as often as it occurs; no other question is kept |
| DuoDashboard.FilterKeepsOrder | duotrivia/js/app.js:246 | filtering keeps the list's order: the filter of a concatenation is the concatenation of the filters |
| DuoDashboard.ListCorrectText | duotrivia/js/app.js:250-252 | with options and an index, the option at the index (`undefined` when out of range); otherwise `correct`, else "N/A" |
| DuoDashboard.ListAgreesWithCard | duotrivia/js/app.js:250-252 | for a question the validator accepts, the list shows the same right answer as the chatbot's card |
| DuoChatbot.Keys | duotrivia/js/chatbot.js:63 | definition of the key list: every answer, lower-cased then trimmed, in order |
| DuoChatbot.FirstMatch | duotrivia/js/chatbot.js:67 | the first position holding the target, or -1 exactly when no position holds it |
| DuoChatbot.ResolveCorrectIndex | duotrivia/js/chatbot.js:62-68 | a given non-negative index is used as it is. Otherwise it is the first answer equal to `correct` after normalising, or 0 when none is; in the text-search case, always a valid position |
| DuoChatbot.TextSearchRecoversIndex | duotrivia/js/chatbot.js:63-68 | when a valid raw question's options stay distinct after normalising, the text search finds exactly its `correct_answer` |
| DuoChatbot.Escape | duotrivia/js/chatbot.js:139-141 | the output holds no `<` or `>` and is at least as long as the input |
| DuoChatbot.UnescapeEscape | duotrivia/js/chatbot.js:139-141 | escaping loses nothing: decoding the three entities gives the text back |
| DuoChatbot.EscapePlainText | duotrivia/js/chatbot.js:139-141 | a text without `&`, `<` and `>` (quotes allowed) is copied unchanged |
| DuoChatbot.Accuracy | duotrivia/js/chatbot.js:135 | 0 without answers; otherwise the nearest integer to `100 * correct / total`, halves up; within 0..100 for consistent counts |
| DuoChatbot.Summary | duotrivia/js/chatbot.js:134-137 | definition of the stats line: the stats line shows the score, streak and answer count as they are, and the accuracy |
| DuoChatbot.StatsLine | duotrivia/js/chatbot.js:136 | definition of the stats text: it starts with `Puntaje: ` and ends with `%` |
| DuoChatbot.Prepare | duotrivia/js/chatbot.js:62-70 | the card keeps the question and its right-answer index is a valid position |
| DuoChatbot.Dealt | duotrivia/js/chatbot.js:57-70 | a card is dealt exactly when the cache is non-empty; it carries the chosen question and a valid right-answer index |
| DuoChatbot.AnswerText | duotrivia/js/chatbot.js:125-127 | the text shown as the right answer is the answer at the card's index when that index is valid |
| DuoChatbot.ShownExplanation | duotrivia/js/chatbot.js:128 | definition of the explanation guard: an explanation is shown exactly when a non-empty one exists |
| DuoChatbot.Classify | duotrivia/js/chatbot.js:30-42 | each command word, and only it, selects its branch: ayuda/help, puntaje/score, jugar/play/pregunta, cancel |
| DuoChatbot.Chatbot.constructor | duotrivia/js/chatbot.js:8-18 | zero counters, no open question, an empty fetcher, the given stats panel; the invariant holds |
| DuoChatbot.Chatbot.ProcessUserMessage | duotrivia/js/chatbot.js:21-52 | an empty message asks for text. While a question is open, every other message, `cancel` included, gets the same reminder and changes nothing. Otherwise: help, the stats line, a new card, "nothing to cancel" or "unknown"; only a card changes state |
| DuoChatbot.Chatbot.FetchCard | duotrivia/js/chatbot.js:57-60 | the cache follows the load-once rule, and the result is the card that cache deals |
| DuoChatbot.Chatbot.GenerateTriviaCard | duotrivia/js/chatbot.js:55-79 | a dealt card becomes the open question and an answer is awaited; without a question the bot says so and nothing else changes |
| DuoChatbot.Chatbot.HandleAnswer | duotrivia/js/chatbot.js:98-131 | without an open question, a notice and no change. Otherwise one more answer: a right one adds 100 points, one streak step and one right answer, and a wrong one resets the streak. The question closes, the panel gets the new figures and accuracy, and the reply carries the stats (and the right answer's text and any explanation after a wrong answer). The invariant holds |
| Charts.FirstIndex | duotrivia/js/charts.js:185 | the position of a character's first occurrence: it holds the character and no earlier position does |
| Charts.RemoveFirst | duotrivia/js/charts.js:185 | only the first `#` is removed: the result is the text before the first `#` followed by the text after it; text without one is unchanged; the length drops by one exactly when there was one |
| Charts.Substring | duotrivia/js/charts.js:186-188 | the slice when it fits; the rest of the text when only the start fits; empty when it starts past the end |
| Charts.HexRun | duotrivia/js/charts.js:186-188 | the longest prefix of hexadecimal digits |
| Charts.ParseIntHex | duotrivia/js/charts.js:186-188 | empty text is NaN; a string of hexadecimal digits reads as its value |
| Charts.ParseChannels | duotrivia/js/charts.js:185-188 | the three channels are read from characters 0-1, 2-3 and 4-5 after the first `#` is removed; fewer than five characters leave blue as NaN |
| Charts.Rgba | duotrivia/js/charts.js:184-190 | definition of `_rgba`: the text ends with the alpha as the last field, `,alpha)` |
| Charts.HexPairBound | duotrivia/js/charts.js:186-188 | two hexadecimal digits never exceed 255 |
| Charts.ChannelsAreBytes | duotrivia/js/charts.js:185-188 | `#` and six hexadecimal digits give three channels, each in 0..255 |
| Charts.HexColorChannels | duotrivia/js/charts.js:185-188 | the channels of `#rrggbb` are the three bytes it was written from |
| Charts.RgbaOfHexColor | duotrivia/js/charts.js:184-190 | `_rgba` of `#rrggbb` is the text `rgba(r,g,b,a)`, with `a` passed through |
| Charts.ChartColours | duotrivia/js/charts.js:90-91 | the chart colours read as (61, 220, 151) for right answers and (255, 56, 96) for wrong ones |
| Charts.MaxVal | duotrivia/js/charts.js:84 | the scale is at least 1 and both counts, and it is one of them or 1 |
| Charts.BarFraction | duotrivia/js/charts.js:100 | definition of a bar's share of the chart height: the share times the scale is the value |
| Charts.BarsFit | duotrivia/js/charts.js:84-100 | both bars fit the chart; the larger positive count fills it exactly; without answers both bars are empty |
| Charts.PieTotal | duotrivia/js/charts.js:131 | the total is non-negative and equals the sum of non-negative counts |
| Charts.SliceFraction | duotrivia/js/charts.js:141 | definition of a slice's share of the circle: a value within the total takes a share in [0, 1]; the whole total takes exactly 1; no total gives 0 |
| Charts.SlicesCoverCircle | duotrivia/js/charts.js:138-152 | each slice is a fraction in [0, 1]. With answers, the two slices close the circle exactly; without, both are empty |
| Charts.LegendPercent | duotrivia/js/charts.js:164 | 0 without answers; within 0..100 for a count within the total |
| Charts.LegendPercentsSum | duotrivia/js/charts.js:164 | with answers, the two legend percentages add up to 100 or 101; without, to 0 |
| Charts.LegendCanSumTo101 | duotrivia/js/charts.js:164 | one right and seven wrong answers show 13% and 88% |
| Charts.Clamp100 | duotrivia/js/charts.js:53 | a series value is clamped into [0, 100]; values inside are kept |
| Charts.StepX | duotrivia/js/charts.js:47 | definition of the horizontal step: `n - 1` steps span the chart width; one point or none gives 0 |
| Charts.PointX | duotrivia/js/charts.js:52 | definition of a point's x: the first point sits at the origin, and point `i` is `i/(n - 1)` of the width along |
| Charts.PointY | duotrivia/js/charts.js:53 | definition of a point's y: a value in 0..100 sits that percentage of the chart height above the axis |
| Charts.PointsInPlot | duotrivia/js/charts.js:46-65 | every point lies between the axis and the top of the chart, and horizontally within the axis; the last point sits at its right end |

## Left out

- Rendering, the camera and hand/face tracking, the 3D scene, audio, avatars and all DOM updates are side effects of the source. They are not modelled, and neither is the chat log `addChat`. The vision callbacks that only call modelled methods are not modelled separately (the smile calls `unlockHint`; camera start and stop set or reset the multiplier).
- `askGameConfigIfNeeded` (js/app.js:679-696) is not modelled. It depends on `window.prompt` and uses its own limits (20 waves, 50 questions).
- Timers are not scheduled. The interval and the 1.5-second delay before `nextQuestion` become the explicit methods `Tick` and `NextQuestion`. Each caller decides when to call them.
- `Math.random()` is not drawn. Its values are parameters in [0, 1). Nothing is claimed about the shuffle being uniform.
- Each `async` call runs to completion in one step: input is not interleaved at an `await`. For example, two `jugar` messages sent before the first fetch returns (cache still `null`) make the source fetch twice and deal two cards, the second overwriting `currentQuestion`. In the model, the first message completes its fetch and deal, and the second gets the pick-an-option reminder. This concerns `ProcessUserMessage`, `GenerateTriviaCard` and `TriviaFetcher.GetQuestion`.
- Fetching and decoding JSON (`getQuestion`, `_initDatasetPanel`) are not modelled. The fetch's outcome is a parameter, and the dataset panel's functions take the question list.
- Floating point is not modelled. Times, the multiplier and chart geometry are exact reals. `Math.round` is applied to exact quotients, so IEEE rounding of `x / y * 100` is not captured. Angles are measured in turns, not radians.
- JavaScript's dynamic values are narrowed:
  - a non-number or NaN argument of `setGameConfig` or `setTimeMultiplier` is `None`;
  - `correct_answer` is an integer or missing; a non-integer index, and `null` distinct from missing, are not modelled;
  - `Infinity` is not modelled.
- `Lower` lower-cases ASCII letters only, whereas `toLowerCase` also folds other scripts.
- The alpha of `_rgba` is given as its text, because the source only passes the literals 0.25 and 0.6. Number-to-text conversion of reals is not modelled.
- `_buildCardHTML` is modelled only through `Escape` and `Prepare`, and the stats line only through `Summary` and the text function `StatsLine`. The reply messages are a datatype naming each message, not its Spanish text.
- The "given `correctIndex`" branch of `generateTriviaCard` is kept in `ResolveCorrectIndex`. It is never taken, because `formatData` never sets a `correctIndex`, so `Prepare` always searches by text.
- `Dashboard` stands for the stats panel behind the chatbot's `updateStats` callback. A chatbot without a panel (`null`) stands for the default no-op callback.
- The dataset panel's error path (a document without a `questions` array throws) is not modelled: `TallyDifficulties` and `FilterByDifficulty` receive the array.
- Chart drawing calls (canvas paths, arcs, text, the grid loops, bar x-positions) are not modelled. Only the ratio, clamp, percentage and colour computations are.
