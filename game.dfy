/**
 * The single mutable game state the page's handlers share: the question
 * banks loaded once at start-up, the view on screen, one record per quiz
 * mode, the statistics, the options currently offered, and the game the
 * "play again" button restarts. Each method is one handler with the
 * screen updates left out.
 */
module Game {
  import opened Lists
  import opened Bank
  import opened Shuffling
  import opened Options
  import opened Results
  import opened Engine

  /** The options offered never call a wrong name correct. */
  ghost predicate CorrectOnlyFor(options: seq<AnswerOption>, answer: string) {
    forall k :: 0 <= k < |options| && options[k].isCorrect ==> options[k].algorithm == answer
  }

  /** The options offered call a name correct exactly when it is the answer. */
  ghost predicate CorrectExactlyFor(options: seq<AnswerOption>, answer: string) {
    forall k :: 0 <= k < |options| ==> (options[k].isCorrect <==> options[k].algorithm == answer)
  }

  /** The random draws one start of each quiz consumes. */
  datatype StartDraws = StartDraws(order: seq<nat>, wrong: seq<nat>, options: seq<nat>)

  class GameState {
    const signalBank: seq<SignalQuestion>
    const patternBank: seq<PatternCard>
    const scenarioBank: seq<Scenario>
    var currentView: View
    var signal: SignalRun
    var pattern: PatternRun
    var scenario: ScenarioRun
    var stats: Stats
    /** The options of the signal question on screen. */
    var signalOptions: seq<AnswerOption>
    /** The options of the scenario on screen. */
    var scenarioOptions: seq<AnswerOption>
    /** The game the results screen's "play again" button starts, once some run has finished. */
    var playAgainGame: Option<GameType>

    /**
     * What holds between handlers: each quiz is either not started or
     * holds its bank in some order with the index on an item and its run
     * invariant; the streak never passes the best streak; the options on
     * screen mark correct only the right answer.
     */
    ghost predicate Valid()
      reads this
    {
      && (signal.questions != [] ==> multiset(signal.questions) == multiset(signalBank))
      && SignalInvariant(signal)
      && signal.streak <= stats.bestStreak
      && (signal.questions != [] ==>
            CorrectOnlyFor(signalOptions, signal.questions[signal.currentIndex].correctAlgorithm))
      && (pattern.cards == [] ==> pattern.currentIndex == 0)
      && (pattern.cards != [] ==> PatternShowing(pattern, patternBank))
      && (scenario.scenarios != [] ==> multiset(scenario.scenarios) == multiset(scenarioBank))
      && ScenarioInvariant(scenario)
      && (scenario.scenarios != [] ==>
            CorrectExactlyFor(scenarioOptions, scenario.scenarios[scenario.currentIndex].correctAnswer))
    }

    /** The state at page load: the banks, the restored statistics, the home page, nothing started. */
    constructor (signals: seq<SignalQuestion>, patterns: seq<PatternCard>, scenarios: seq<Scenario>, saved: Stats)
      ensures Valid()
      ensures signalBank == signals && patternBank == patterns && scenarioBank == scenarios
      ensures currentView == Homepage && stats == saved && playAgainGame == None
      ensures signal == SignalRun([], 0, 0, 0, false)
      ensures pattern == PatternRun([], 0, false)
      ensures scenario == ScenarioRun([], 0, 0, 0, false)
    {
      signalBank, patternBank, scenarioBank := signals, patterns, scenarios;
      currentView := Homepage;
      signal := SignalRun([], 0, 0, 0, false);
      pattern := PatternRun([], 0, false);
      scenario := ScenarioRun([], 0, 0, 0, false);
      stats := saved;
      signalOptions, scenarioOptions := [], [];
      playAgainGame := None;
    }

    /** showView: the given view becomes the one on screen. */
    method ShowView(view: View)
      modifies this
      ensures currentView == view
      ensures signal == old(signal) && pattern == old(pattern) && scenario == old(scenario) && stats == old(stats)
      ensures signalOptions == old(signalOptions) && scenarioOptions == old(scenarioOptions)
      ensures playAgainGame == old(playAgainGame)
    {
      currentView := view;
    }

    // ----------------------------------------------------------------
    // Signal quiz
    // ----------------------------------------------------------------

    /** renderSignalQuestion: fresh options for the question at the index, and the question not yet answered. */
    method RenderSignalQuestion(optionDraws: seq<nat>)
      requires signal.currentIndex < |signal.questions|
      requires ValidDraws(1 + |signal.questions[signal.currentIndex].wrongOptions|, optionDraws)
      modifies this
      ensures signal == old(signal).(answered := false)
      ensures signalOptions == SignalOptions(signal.questions[signal.currentIndex], optionDraws)
      ensures CorrectOnlyFor(signalOptions, signal.questions[signal.currentIndex].correctAlgorithm)
      ensures currentView == old(currentView) && pattern == old(pattern) && scenario == old(scenario)
      ensures stats == old(stats) && scenarioOptions == old(scenarioOptions) && playAgainGame == old(playAgainGame)
    {
      var question := signal.questions[signal.currentIndex];
      signalOptions := ShuffleArray(Unshuffled(question.correctAlgorithm, question.wrongOptions), optionDraws);
      SignalOptionsShape(question, optionDraws);
      signal := signal.(answered := false);
    }

    /** initSignalQuiz: the bank shuffled, every counter at zero, and the first question rendered. */
    method InitSignalQuiz(questionDraws: seq<nat>, optionDraws: seq<nat>)
      requires Valid() && |signalBank| > 0 && ValidDraws(|signalBank|, questionDraws)
      requires ValidDraws(1 + |Shuffle(signalBank, questionDraws)[0].wrongOptions|, optionDraws)
      modifies this
      ensures Valid()
      ensures signal == InitSignal(signalBank, questionDraws)
      ensures signalOptions == SignalOptions(signal.questions[0], optionDraws)
      ensures currentView == old(currentView) && pattern == old(pattern) && scenario == old(scenario)
      ensures stats == old(stats) && scenarioOptions == old(scenarioOptions) && playAgainGame == old(playAgainGame)
    {
      var questions := ShuffleArray(signalBank, questionDraws);
      signal := SignalRun(questions, 0, 0, 0, false);
      RenderSignalQuestion(optionDraws);
    }

    /**
     * selectSignalAnswer for the option at the given position: ignored
     * when the question is already answered; otherwise scored as the
     * engine's SelectSignal says, a right answer only ever for the
     * question's correct algorithm, followed by the Next button or, on
     * the last question, the scheduled finish.
     */
    method SelectSignalAnswer(choice: nat) returns (outcome: AnswerOutcome)
      requires Valid() && signal.questions != [] && choice < |signalOptions|
      modifies this
      ensures Valid()
      ensures (signal, stats) == SelectSignal(old(signal), old(stats), old(signalOptions)[choice].isCorrect)
      ensures old(signal).answered ==> outcome == Ignored && signal == old(signal) && stats == old(stats)
      ensures !old(signal).answered ==> outcome == (if signal.currentIndex < |signal.questions| - 1 then ShowNext else FinishScheduled)
      ensures signal.score > old(signal).score ==>
                old(signalOptions)[choice].algorithm == signal.questions[signal.currentIndex].correctAlgorithm
      ensures currentView == old(currentView) && pattern == old(pattern) && scenario == old(scenario)
      ensures signalOptions == old(signalOptions) && scenarioOptions == old(scenarioOptions)
      ensures playAgainGame == old(playAgainGame)
    {
      if signal.answered {
        return Ignored;
      }
      signal := signal.(answered := true);
      if signalOptions[choice].isCorrect {
        signal := signal.(score := signal.score + SignalReward, streak := signal.streak + 1);
        if signal.streak > stats.bestStreak {
          stats := stats.(bestStreak := signal.streak);
        }
      } else {
        signal := signal.(streak := 0);
      }
      if signal.currentIndex < |signal.questions| - 1 {
        outcome := ShowNext;
      } else {
        outcome := FinishScheduled;
      }
    }

    /** nextSignalQuestion: the next question rendered. */
    method NextSignalQuestion(optionDraws: seq<nat>)
      requires Valid() && signal.currentIndex < |signal.questions| - 1
      requires ValidDraws(1 + |signal.questions[signal.currentIndex + 1].wrongOptions|, optionDraws)
      modifies this
      ensures Valid()
      ensures signal == NextSignal(old(signal))
      ensures signalOptions == SignalOptions(signal.questions[signal.currentIndex], optionDraws)
      ensures currentView == old(currentView) && pattern == old(pattern) && scenario == old(scenario)
      ensures stats == old(stats) && scenarioOptions == old(scenarioOptions) && playAgainGame == old(playAgainGame)
    {
      signal := signal.(currentIndex := signal.currentIndex + 1);
      RenderSignalQuestion(optionDraws);
    }

    /** showResults: the report of a finished run, and the results screen remembering which game to replay. */
    method ShowResultsView(summary: Summary) returns (report: Report)
      requires summary.total > 0
      modifies this
      ensures report == ShowResults(summary)
      ensures currentView == ResultsView && playAgainGame == Some(summary.gameType)
      ensures signal == old(signal) && pattern == old(pattern) && scenario == old(scenario) && stats == old(stats)
      ensures signalOptions == old(signalOptions) && scenarioOptions == old(scenarioOptions)
    {
      report := ShowResults(summary);
      playAgainGame := Some(summary.gameType);
      ShowView(ResultsView);
    }

    /** finishSignalQuiz: the statistics updated as the engine's FinishSignal says, and the results shown. */
    method FinishSignalQuiz() returns (report: Report)
      requires Valid() && signal.questions != []
      modifies this
      ensures Valid()
      ensures (stats, report.summary) == FinishSignal(old(signal), old(stats))
      ensures report == ShowResults(report.summary)
      ensures currentView == ResultsView && playAgainGame == Some(SignalGame)
      ensures signal == old(signal) && pattern == old(pattern) && scenario == old(scenario)
      ensures signalOptions == old(signalOptions) && scenarioOptions == old(scenarioOptions)
    {
      stats := stats.(gamesPlayed := stats.gamesPlayed + 1, totalPoints := stats.totalPoints + signal.score);
      report := ShowResultsView(Summary(signal.score, signal.score / 10, |signal.questions|, SignalGame));
    }

    // ----------------------------------------------------------------
    // Flashcards
    // ----------------------------------------------------------------

    /** initPatternQuiz: the cards in bank order, the first one front up. */
    method InitPatternQuiz()
      requires Valid() && |patternBank| > 0
      modifies this
      ensures Valid()
      ensures pattern == InitPattern(patternBank)
      ensures currentView == old(currentView) && signal == old(signal) && scenario == old(scenario) && stats == old(stats)
      ensures signalOptions == old(signalOptions) && scenarioOptions == old(scenarioOptions)
      ensures playAgainGame == old(playAgainGame)
    {
      pattern := PatternRun(patternBank, 0, false);
    }

    /** flipCard: the card turns over. */
    method FlipCard()
      requires Valid()
      modifies this
      ensures Valid()
      ensures pattern == Flip(old(pattern))
      ensures currentView == old(currentView) && signal == old(signal) && scenario == old(scenario) && stats == old(stats)
      ensures signalOptions == old(signalOptions) && scenarioOptions == old(scenarioOptions)
      ensures playAgainGame == old(playAgainGame)
    {
      pattern := pattern.(isFlipped := !pattern.isFlipped);
    }

    /** prevPattern: back one card unless on the first. */
    method PrevPattern()
      requires Valid()
      modifies this
      ensures Valid()
      ensures pattern == Engine.PrevPattern(old(pattern))
      ensures old(pattern).currentIndex == 0 ==> pattern == old(pattern)
      ensures currentView == old(currentView) && signal == old(signal) && scenario == old(scenario) && stats == old(stats)
      ensures signalOptions == old(signalOptions) && scenarioOptions == old(scenarioOptions)
      ensures playAgainGame == old(playAgainGame)
    {
      if pattern.currentIndex > 0 {
        pattern := pattern.(currentIndex := pattern.currentIndex - 1);
        pattern := pattern.(isFlipped := false);
      }
    }

    /** nextPattern: on one card unless on the last. */
    method NextPattern()
      requires Valid()
      modifies this
      ensures Valid()
      ensures pattern == Engine.NextPattern(old(pattern))
      ensures old(pattern).currentIndex == |old(pattern).cards| - 1 ==> pattern == old(pattern)
      ensures currentView == old(currentView) && signal == old(signal) && scenario == old(scenario) && stats == old(stats)
      ensures signalOptions == old(signalOptions) && scenarioOptions == old(scenarioOptions)
      ensures playAgainGame == old(playAgainGame)
    {
      if pattern.currentIndex < |pattern.cards| - 1 {
        pattern := pattern.(currentIndex := pattern.currentIndex + 1);
        pattern := pattern.(isFlipped := false);
      }
    }

    /** shufflePatterns: the cards reshuffled, back to the first card, front up. */
    method ShufflePatterns(draws: seq<nat>)
      requires Valid() && ValidDraws(|pattern.cards|, draws)
      modifies this
      ensures Valid()
      ensures pattern == Engine.ShufflePatterns(old(pattern), draws)
      ensures multiset(pattern.cards) == multiset(old(pattern).cards) && pattern.currentIndex == 0
      ensures currentView == old(currentView) && signal == old(signal) && scenario == old(scenario) && stats == old(stats)
      ensures signalOptions == old(signalOptions) && scenarioOptions == old(scenarioOptions)
      ensures playAgainGame == old(playAgainGame)
    {
      var cards := ShuffleArray(pattern.cards, draws);
      pattern := pattern.(cards := cards, currentIndex := 0);
      pattern := pattern.(isFlipped := false);
    }

    /** A click on a card's dot: that card, front up. */
    method JumpToPattern(index: nat)
      requires Valid() && index < |pattern.cards|
      modifies this
      ensures Valid()
      ensures pattern == Engine.JumpToPattern(old(pattern), index)
      ensures currentView == old(currentView) && signal == old(signal) && scenario == old(scenario) && stats == old(stats)
      ensures signalOptions == old(signalOptions) && scenarioOptions == old(scenarioOptions)
      ensures playAgainGame == old(playAgainGame)
    {
      pattern := pattern.(currentIndex := index);
      pattern := pattern.(isFlipped := false);
    }

    // ----------------------------------------------------------------
    // Scenario quiz
    // ----------------------------------------------------------------

    /** The draws rendering the scenario at the index needs. */
    ghost predicate ScenarioRenderFits(wrongDraws: seq<nat>, optionDraws: seq<nat>)
      reads this
    {
      && scenario.currentIndex < |scenario.scenarios|
      && ScenarioDrawsFit(scenarioBank, scenario.scenarios[scenario.currentIndex].correctAnswer, wrongDraws, optionDraws)
    }

    /** renderScenario: distractors drawn from the whole bank, fresh options, and the scenario not yet answered. */
    method RenderScenario(wrongDraws: seq<nat>, optionDraws: seq<nat>)
      requires ScenarioRenderFits(wrongDraws, optionDraws)
      modifies this
      ensures scenario == old(scenario).(answered := false)
      ensures scenarioOptions == ScenarioOptions(scenarioBank, scenario.scenarios[scenario.currentIndex], wrongDraws, optionDraws)
      ensures CorrectExactlyFor(scenarioOptions, scenario.scenarios[scenario.currentIndex].correctAnswer)
      ensures currentView == old(currentView) && signal == old(signal) && pattern == old(pattern)
      ensures stats == old(stats) && signalOptions == old(signalOptions) && playAgainGame == old(playAgainGame)
    {
      var current := scenario.scenarios[scenario.currentIndex];
      var pool := ShuffleArray(WrongPool(scenarioBank, current.correctAnswer), wrongDraws);
      var wrong := pool[..Min(3, |pool|)];
      scenarioOptions := ShuffleArray(Unshuffled(current.correctAnswer, wrong), optionDraws);
      ScenarioOptionsShape(scenarioBank, current, wrongDraws, optionDraws);
      scenario := scenario.(answered := false);
    }

    /** initScenarioQuiz: the bank shuffled, score and right answers at zero, and the first scenario rendered. */
    method InitScenarioQuiz(scenarioDraws: seq<nat>, wrongDraws: seq<nat>, optionDraws: seq<nat>)
      requires Valid() && |scenarioBank| > 0 && ValidDraws(|scenarioBank|, scenarioDraws)
      requires ScenarioDrawsFit(scenarioBank, Shuffle(scenarioBank, scenarioDraws)[0].correctAnswer, wrongDraws, optionDraws)
      modifies this
      ensures Valid()
      ensures scenario == InitScenario(scenarioBank, scenarioDraws)
      ensures scenarioOptions == ScenarioOptions(scenarioBank, scenario.scenarios[0], wrongDraws, optionDraws)
      ensures currentView == old(currentView) && signal == old(signal) && pattern == old(pattern)
      ensures stats == old(stats) && signalOptions == old(signalOptions) && playAgainGame == old(playAgainGame)
    {
      var scenarios := ShuffleArray(scenarioBank, scenarioDraws);
      scenario := ScenarioRun(scenarios, 0, 0, 0, false);
      RenderScenario(wrongDraws, optionDraws);
    }

    /**
     * selectScenarioAnswer for the option at the given position: ignored
     * when already answered; otherwise scored as the engine's
     * SelectScenario says, right exactly when the option names the
     * scenario's answer, followed by the Next button or, on the last
     * scenario, the scheduled finish.
     */
    method SelectScenarioAnswer(choice: nat) returns (outcome: AnswerOutcome)
      requires Valid() && scenario.scenarios != [] && choice < |scenarioOptions|
      modifies this
      ensures Valid()
      ensures scenario == SelectScenario(old(scenario), old(scenarioOptions)[choice].isCorrect)
      ensures old(scenario).answered ==> outcome == Ignored && scenario == old(scenario)
      ensures !old(scenario).answered ==>
                outcome == (if scenario.currentIndex < |scenario.scenarios| - 1 then ShowNext else FinishScheduled)
      ensures !old(scenario).answered ==>
                (scenario.correct == old(scenario).correct + 1
                 <==> old(scenarioOptions)[choice].algorithm == scenario.scenarios[scenario.currentIndex].correctAnswer)
      ensures currentView == old(currentView) && signal == old(signal) && pattern == old(pattern) && stats == old(stats)
      ensures signalOptions == old(signalOptions) && scenarioOptions == old(scenarioOptions)
      ensures playAgainGame == old(playAgainGame)
    {
      if scenario.answered {
        return Ignored;
      }
      scenario := scenario.(answered := true);
      if scenarioOptions[choice].isCorrect {
        var points := scenario.scenarios[scenario.currentIndex].points;
        scenario := scenario.(score := scenario.score + points, correct := scenario.correct + 1);
      }
      if scenario.currentIndex < |scenario.scenarios| - 1 {
        outcome := ShowNext;
      } else {
        outcome := FinishScheduled;
      }
    }

    /** nextScenario: the next scenario rendered. */
    method NextScenario(wrongDraws: seq<nat>, optionDraws: seq<nat>)
      requires Valid() && scenario.currentIndex < |scenario.scenarios| - 1
      requires ScenarioDrawsFit(scenarioBank, scenario.scenarios[scenario.currentIndex + 1].correctAnswer, wrongDraws, optionDraws)
      modifies this
      ensures Valid()
      ensures scenario == Engine.NextScenario(old(scenario))
      ensures scenarioOptions == ScenarioOptions(scenarioBank, scenario.scenarios[scenario.currentIndex], wrongDraws, optionDraws)
      ensures currentView == old(currentView) && signal == old(signal) && pattern == old(pattern)
      ensures stats == old(stats) && signalOptions == old(signalOptions) && playAgainGame == old(playAgainGame)
    {
      scenario := scenario.(currentIndex := scenario.currentIndex + 1);
      RenderScenario(wrongDraws, optionDraws);
    }

    /** finishScenarioQuiz: the statistics updated as the engine's FinishScenario says, and the results shown. */
    method FinishScenarioQuiz() returns (report: Report)
      requires Valid() && scenario.scenarios != []
      modifies this
      ensures Valid()
      ensures (stats, report.summary) == FinishScenario(old(scenario), old(stats))
      ensures report == ShowResults(report.summary)
      ensures currentView == ResultsView && playAgainGame == Some(ScenarioGame)
      ensures signal == old(signal) && pattern == old(pattern) && scenario == old(scenario)
      ensures signalOptions == old(signalOptions) && scenarioOptions == old(scenarioOptions)
    {
      stats := stats.(gamesPlayed := stats.gamesPlayed + 1, totalPoints := stats.totalPoints + scenario.score);
      report := ShowResultsView(Summary(scenario.score, scenario.correct, |scenario.scenarios|, ScenarioGame));
    }

    // ----------------------------------------------------------------
    // Starting games
    // ----------------------------------------------------------------

    /** The draws a start of the given mode needs, and a bank to start it on. */
    ghost predicate CanStart(mode: Mode, d: StartDraws)
      reads this
    {
      match mode
      case SignalMode =>
        && |signalBank| > 0 && ValidDraws(|signalBank|, d.order)
        && ValidDraws(1 + |Shuffle(signalBank, d.order)[0].wrongOptions|, d.options)
      case PatternMode => |patternBank| > 0
      case ScenarioMode =>
        && |scenarioBank| > 0 && ValidDraws(|scenarioBank|, d.order)
        && ScenarioDrawsFit(scenarioBank, Shuffle(scenarioBank, d.order)[0].correctAnswer, d.wrong, d.options)
    }

    /** startGame: the mode's quiz initialised, then its screen shown. */
    method StartGame(mode: Mode, d: StartDraws)
      requires Valid() && CanStart(mode, d)
      modifies this
      ensures Valid()
      ensures stats == old(stats) && playAgainGame == old(playAgainGame)
      ensures mode == SignalMode ==>
                && signal == InitSignal(signalBank, d.order) && currentView == SignalQuizView
                && signalOptions == SignalOptions(signal.questions[0], d.options)
                && pattern == old(pattern) && scenario == old(scenario)
                && scenarioOptions == old(scenarioOptions)
      ensures mode == PatternMode ==>
                && pattern == InitPattern(patternBank) && currentView == PatternQuizView
                && signal == old(signal) && scenario == old(scenario)
                && signalOptions == old(signalOptions) && scenarioOptions == old(scenarioOptions)
      ensures mode == ScenarioMode ==>
                && scenario == InitScenario(scenarioBank, d.order) && currentView == ScenarioQuizView
                && scenarioOptions == ScenarioOptions(scenarioBank, scenario.scenarios[0], d.wrong, d.options)
                && signal == old(signal) && pattern == old(pattern)
                && signalOptions == old(signalOptions)
    {
      match mode
      case SignalMode =>
        InitSignalQuiz(d.order, d.options);
        ShowView(SignalQuizView);
      case PatternMode =>
        InitPatternQuiz();
        ShowView(PatternQuizView);
      case ScenarioMode =>
        InitScenarioQuiz(d.order, d.wrong, d.options);
        ShowView(ScenarioQuizView);
    }

    /** playAgain: the game of the last results restarted; nothing happens before any run has finished. */
    method PlayAgain(d: StartDraws)
      requires Valid()
      requires playAgainGame == Some(SignalGame) ==> CanStart(SignalMode, d)
      requires playAgainGame == Some(ScenarioGame) ==> CanStart(ScenarioMode, d)
      modifies this
      ensures Valid()
      ensures stats == old(stats) && playAgainGame == old(playAgainGame) && pattern == old(pattern)
      ensures old(playAgainGame) == None ==>
                && currentView == old(currentView) && signal == old(signal) && scenario == old(scenario)
                && signalOptions == old(signalOptions) && scenarioOptions == old(scenarioOptions)
      ensures old(playAgainGame) == Some(SignalGame) ==>
                && signal == InitSignal(signalBank, d.order) && currentView == SignalQuizView
                && signalOptions == SignalOptions(signal.questions[0], d.options)
                && scenario == old(scenario) && scenarioOptions == old(scenarioOptions)
      ensures old(playAgainGame) == Some(ScenarioGame) ==>
                && scenario == InitScenario(scenarioBank, d.order) && currentView == ScenarioQuizView
                && scenarioOptions == ScenarioOptions(scenarioBank, scenario.scenarios[0], d.wrong, d.options)
                && signal == old(signal) && signalOptions == old(signalOptions)
    {
      match playAgainGame
      case None =>
      case Some(game) =>
        if game == SignalGame {
          StartGame(SignalMode, d);
        } else {
          StartGame(ScenarioMode, d);
        }
    }
  }
}
