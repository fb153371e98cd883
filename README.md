# AlgoQuest quiz engine — a Dafny model

AlgoQuest is an in-browser quiz game with three modes:

- **Signal quiz**: multiple choice. Each question names a problem signal and asks for the algorithm it suggests.
- **Pattern flashcards**: a deck of pattern cards the user flips and browses.
- **Scenario quiz**: multiple choice. Each scenario carries a point value.

All three modes live in one global `gameState` record in `app.js`. This model keeps the engine and drops the page:

- **State.** The `gameState` record becomes the class `Game.GameState`. Its per-mode records and statistics become datatypes in `Engine`.
- **Handlers.** Every handler that changes the state becomes a method of the class. Most methods are tied to a pure function in `Engine`, `Options` or `Results`. `ShowView` only sets the view.
- **Randomness.** Every use of `Math.random` becomes an input list of draws. `shuffleArray` is a Fisher–Yates loop over a copy, kept as an in-place array algorithm (`Shuffling.ShuffleArray`). It is proved equal to a specification function (`Shuffling.Shuffle`), and that function is proved to be a permutation.

The layout is:

- `bank.dfy`: the question bank records.
- `lists.dfy`: sequence helpers.
- `shuffle.dfy`: the shuffle.
- `options.dfy`: the multiple-choice option lists, including the scenario distractor pipeline.
- `results.dfy`: rounding the percentage and choosing the tier.
- `engine.dfy`: run records, transitions, and lemmas over whole runs.
- `game.dfy`: the mutable game state.

### Randomness

Each use of `Math.floor(Math.random() * (i + 1))` in `shuffleArray` becomes a draw `j` with `0 <= j <= i`. The draws for one shuffle of `n` items are listed in loop order, and `ValidDraws(n, draws)` states their ranges. Every handler that shuffles takes its draws as parameters.

### What app.js does

- **Option count.** A signal question offers `1 + |wrongOptions|` options. The model proves four options only when a question has three distractors.
- **No bounds check on "next".** `nextSignalQuestion` and `nextScenario` do not check bounds. A run finishes from the answer handler, on a timer, once the last question has been answered. The model therefore requires `currentIndex < |items| - 1` of the "next" methods and reports `FinishScheduled` from the answer methods.

## Model

| member | source | states |
|---|---|---|
| Shuffling.ShuffleArray | app.js:655-662 | The loop over a copied array returns exactly `Shuffle(input, draws)`, a permutation of the input with the same length. |
| Shuffling.StepsFromPermutes | app.js:657-660 | The swaps from index i down to 1 permute the list: the multiset of items is unchanged. |
| Shuffling.Shuffle | app.js:655-662 | The shuffled copy has the input's length and the same multiset of items. |
| Shuffling.MapShuffle | app.js:655-662 | Shuffling commutes with mapping: shuffling the items and then projecting a field gives the same list as projecting and then shuffling. |
| Shuffling.ShuffleElements | app.js:655-662 | A value occurs in the shuffled copy exactly when it occurs in the input. |
| Shuffling.ShuffleDistinct | app.js:655-662 | Shuffling a list without repeats gives a list without repeats. |
| Shuffling.SwapPermutes | app.js:659 | Exchanging two positions keeps the multiset of items. |
| Options.UnshuffledMembers | app.js:254-257 | Before shuffling, an option is in the list exactly when it is the correct one (marked correct) or names a distractor (marked wrong). |
| Options.UnshuffledCount | app.js:254-257 | Before shuffling, exactly one option is marked correct. |
| Options.Unshuffled | app.js:254-257 | The list before shuffling has one option per distractor plus the correct one; UnshuffledCount and UnshuffledMembers state what it holds. |
| Options.SignalOptions | app.js:254-257 | A signal question's options, the unshuffled list shuffled: one more than its wrong options; SignalOptionsShape states which option is marked correct. |
| Options.SignalOptionsShape | app.js:254-257 | A signal question shows `1 + |wrongOptions|` options, four when it has three distractors. Exactly one is marked correct and it names the correct algorithm; every other option names one of the question's wrong options. |
| Options.ShuffledCount | app.js:254-257 | Shuffling an option list keeps the number of options marked correct. |
| Options.ShuffledLabels | app.js:499-502 | Shuffling an option list whose names are pairwise different keeps them pairwise different. |
| Options.Dedup | app.js:531 | `[...new Set(...)]` keeps every answer name once: the result has no repeats and holds exactly the input's names. |
| Options.Without | app.js:532 | Filtering out the correct answer keeps exactly the other names and keeps them free of repeats. |
| Options.WrongPoolShape | app.js:529-533 | The distractor pool holds each answer of the bank other than the correct one, once each, and nothing else. |
| Options.ScenarioWrongOptions | app.js:529-534 | `getScenarioWrongOptions`: the first `min(3, pool size)` entries of the shuffled pool, drawn from the pool; ScenarioWrongOptionsShape states the rest. |
| Options.ScenarioWrongOptionsShape | app.js:529-534 | At most three distractors, pairwise different, never the correct answer, each some scenario's answer. There are `min(3, number of other answers)` of them, and all other answers appear when there are at most three. |
| Options.ScenarioOptions | app.js:499-502 | A scenario's options: one more than its distractors, at most four; ScenarioOptionsShape states which is marked correct. |
| Options.ScenarioOptionsShape | app.js:499-502 | A scenario shows `1 + min(3, other answers)` (at most 4) options with pairwise-different names. An option is marked correct exactly when it names the scenario's answer, and exactly one is. |
| Results.Percentage | app.js:615 | `Math.round(correct / total * 100)` on exact values, as `(200·correct + total) div (2·total)`; PercentageRounds and PercentageAtLeast state its properties. |
| Results.PercentageRounds | app.js:615 | The percentage is `correct/total*100` rounded half up: `2·t·p − t ≤ 200·c < 2·t·p + t`. It is at most 100 when `correct <= total`, 100 for all correct, and 0 for none. |
| Results.PercentageAtLeast | app.js:615 | `percentage >= k` holds exactly when `200·correct >= (2k − 1)·total`. |
| Results.TierOf | app.js:622-634 | The tier is Outstanding exactly when the percentage is at least 90, and Keep Practicing exactly when it is below 50. |
| Results.TierThresholds | app.js:615-634 | Each tier holds exactly on its band of correct/total: Outstanding from 89.5%, Great Job from 69.5% up to 89.5%, Good Effort from 49.5% up to 69.5%, and Keep Practicing below 49.5%. |
| Results.TierMonotone | app.js:615-634 | More right answers out of the same total never give a lower tier. |
| Results.ShowResults | app.js:614-644 | The report carries the summary it was given, with the rounded percentage and its tier. |
| Engine.InitSignal | app.js:228-235 | A new signal run holds the bank's questions in some order. |
| Engine.SelectSignal | app.js:280-310 | An answered question ignores further answers. Otherwise the question becomes answered; a right answer adds 10 and extends the streak, a wrong one resets the streak to 0. The best streak becomes the larger of itself and the new streak, and the other statistics are unchanged. |
| Engine.SignalStepsKeepInvariant | app.js:280-334 | Answering and moving on keep the signal run's invariant: the index is on a question, the score is a multiple of 10 and at most 10 per question answered, and the streak is at most score/10. They also keep the streak at most the best streak and never lower the best streak. |
| Engine.NextSignal | app.js:331-334 | Moving on advances the index by one and leaves the new question unanswered. |
| Engine.FinishSignal | app.js:341-353 | Finishing adds one game and the run's score to the statistics. The summary reports score/10 right answers out of the number of questions. |
| Engine.StreakFront | app.js:298-310 | The streak and longest streak computed from the front agree with the definitions that read the outcomes from the back. |
| Engine.LongestAtLeast | app.js:302-304 | The longest streak is at least the starting streak and at least the current streak. |
| Engine.PlaySignal | app.js:280-334 | A sequence of answers, each followed by Next except the last, keeps the questions; SignalTally states its score, streak and best streak. |
| Engine.SignalTally | app.js:280-334 | Over a sequence of answers: the score grows by 10 per right answer, the streak equals the right answers since the last wrong one, and the best streak becomes the larger of itself and the longest streak reached. |
| Engine.CountTrueBound | app.js:615 | There are never more right answers than answers, and equally many exactly when every answer is right. |
| Engine.SignalRunEndToEnd | app.js:228-353 | A whole signal run, from start to finish, reports 10 points per right answer and that many right answers out of the bank's size. The statistics gain one game and the score, and the percentage is at most 100. With every answer right it is 100% and Outstanding. |
| Engine.InitScenario | app.js:460-467 | A new scenario run holds the bank's scenarios in some order. |
| Engine.SelectScenario | app.js:536-559 | An answered scenario ignores further answers. Otherwise it becomes answered; a right answer adds the scenario's own points and one right answer, a wrong one changes neither. |
| Engine.ScenarioStepsKeepInvariant | app.js:536-584 | Answering and moving on keep the index on a scenario and the right answers at most the answers given. |
| Engine.NextScenario | app.js:581-584 | Moving on advances the index by one and leaves the new scenario unanswered. |
| Engine.FinishScenario | app.js:596-608 | Finishing adds one game and the run's score to the statistics. The summary reports the run's right answers out of the number of scenarios. |
| Engine.PlayScenario | app.js:536-584 | A sequence of answers, each followed by Next except the last, keeps the scenarios; ScenarioTally states its score and right answers. |
| Engine.ScenarioTally | app.js:536-584 | Over a sequence of answers: the score grows by exactly the points of the scenarios answered right, and the count of right answers by their number. |
| Engine.ScenarioRunEndToEnd | app.js:460-608 | A whole scenario run, from start to finish, reports the sum of the points of the scenarios answered right and their number, and updates the statistics by that score. The percentage is at most 100. |
| Engine.InitPattern | app.js:359-367 | The deck starts in bank order on the first card, front up. |
| Engine.ShufflePatterns | app.js:419-423 | Reshuffling keeps the deck's cards. |
| Engine.Flip | app.js:399-403 | The face toggles; the deck and the index stay. |
| Engine.PrevPattern | app.js:405-410 | Back one card, front up, unless on the first card, where nothing changes; an index on a card stays on a card. |
| Engine.NextPattern | app.js:412-417 | On one card, front up, unless on the last card, where nothing changes; an index on a card stays on a card. |
| Engine.JumpToPattern | app.js:442-445 | A dot click shows its card, front up, with the deck unchanged. |
| Engine.Apply | app.js:399-445 | One flashcard action keeps the number of cards; ApplyShowing states what each action does. |
| Engine.ApplyShowing | app.js:369-445 | Every flashcard action keeps the index on a card and the deck a permutation of the bank. Prev on the first card and Next on the last change nothing. A flip toggles the face; a shuffle goes to the first card; a dot goes to its card; every move shows the front. |
| Engine.NavigateShowing | app.js:399-445 | Any sequence of flashcard actions keeps the index on a card and the deck a permutation of the bank. |
| Engine.Navigate | app.js:399-445 | Any sequence of flashcard actions keeps the number of cards. |
| Game.GameState.constructor | app.js:21-47 | Page load sets the banks and the restored statistics, shows the home page, and leaves every run empty. |
| Game.GameState.ShowView | app.js:199-205 | Only the current view changes. |
| Game.GameState.RenderSignalQuestion | app.js:241-278 | Rendering builds the current question's options, which mark correct only its correct algorithm, and clears `answered`. |
| Game.GameState.InitSignalQuiz | app.js:228-239 | The run becomes `InitSignal` of the bank, and the first question's options are shown. |
| Game.GameState.SelectSignalAnswer | app.js:280-329 | The run and statistics change as `SelectSignal` says, for the option picked. An already-answered question is ignored. A score increase happens only when the picked option names the correct algorithm. The outcome is Next or a scheduled finish. |
| Game.GameState.NextSignalQuestion | app.js:331-334 | The run becomes `NextSignal` of the old run, and the new question's options are shown. |
| Game.GameState.ShowResultsView | app.js:614-644 | Shows the report of the summary and remembers its game for "play again". |
| Game.GameState.FinishSignalQuiz | app.js:341-353 | The statistics and summary are `FinishSignal`'s, then the results are shown. |
| Game.GameState.InitPatternQuiz | app.js:359-367 | The deck becomes `InitPattern` of the bank. |
| Game.GameState.FlipCard | app.js:399-403 | The card's face toggles. |
| Game.GameState.PrevPattern | app.js:405-410 | Moves back one card, front up; nothing changes on the first card. |
| Game.GameState.NextPattern | app.js:412-417 | Moves on one card, front up; nothing changes on the last card. |
| Game.GameState.ShufflePatterns | app.js:419-430 | The deck is reshuffled, a permutation of the old one, and shows the first card front up. |
| Game.GameState.JumpToPattern | app.js:442-445 | A dot shows its card, front up. |
| Game.GameState.RenderScenario | app.js:473-527 | Rendering draws distractors from the whole bank. The options mark correct exactly the scenario's answer, and `answered` is cleared. |
| Game.GameState.InitScenarioQuiz | app.js:460-471 | The run becomes `InitScenario` of the bank, and the first scenario's options are shown. |
| Game.GameState.SelectScenarioAnswer | app.js:536-579 | The run changes as `SelectScenario` says. An already-answered scenario is ignored. A right answer is counted exactly when the picked option names the scenario's answer. |
| Game.GameState.NextScenario | app.js:581-584 | The run becomes `NextScenario` of the old run, and the new scenario's options are shown. |
| Game.GameState.FinishScenarioQuiz | app.js:596-608 | The statistics and summary are `FinishScenario`'s, then the results are shown. |
| Game.GameState.StartGame | app.js:207-222 | Starting a mode initialises that mode's run and renders its first options, shows its screen, and leaves the other runs, their option lists and the statistics alone. |
| Game.GameState.PlayAgain | app.js:646-649 | Restarts the game of the last results as StartGame does (new run and options for that game; the other quiz's run and options unchanged). Before any run has finished, nothing happens. |

## Left out

- **Page updates.** Every DOM change, button disabling, highlighting, progress bar and score display is left out; the model keeps only the state those updates read.
- **Loading and storage.** Loading the banks with `fetch` (`loadJSON`, `init`, `updateMenuCounts`) is left out; the banks are constructor parameters. Storing statistics in `localStorage` (`loadStats`, `saveStats`) is left out too; the restored statistics are a constructor parameter, and the JSON merge of unknown keys is not modelled.
- **Randomness.** `Math.random` is replaced by draw lists. Whether the shuffle is uniform is a probabilistic property and is not stated.
- **Timers.** The 1.5 s timer before a run finishes is left out: the answer methods return `FinishScheduled`, and the finish methods model the callback. The timer that resets the shuffle button's label is left out too.
- **Display-only functions.** `toggleHints`, `updateSignalScore`, `updateScenarioScore`, `updateStatsDisplay`, `renderPatternDots`, `updatePatternDots` and the `algorithmNames` table only change what is shown.
- **Unknown game names.** `startGame` with a name other than the three modes does nothing in the source. The model's `Mode` type has only the three modes.
- **Empty banks.** `renderSignalQuestion`, `renderScenario` and `renderPatternCard` read the first item and fail on an empty bank. The init methods therefore require a non-empty bank.
- Results.PercentageRounds: `Math.round((correct / total) * 100)` is computed in floating point. The model rounds the exact rational value half up, so an input whose product lands just below .5 in binary floating point rounds down in the source and up in the model. For example, 23 right answers out of 40 give `(23/40)*100`, which is 57.49999999999999, so the source shows 57% where the model gives 58%; 29 out of 200 behaves the same way.
- **Scenario points.** These are modelled as natural numbers; negative or fractional points in the data are not modelled.
