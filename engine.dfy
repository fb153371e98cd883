/**
 * The quiz engine's state as values: one record per quiz mode plus the
 * aggregate statistics, and the transition each handler of the engine
 * applies to them. The lemmas follow whole runs through these transitions.
 */
module Engine {
  import opened Lists
  import opened Bank
  import opened Shuffling
  import opened Results

  /** The screen that is showing. */
  datatype View = Homepage | SignalQuizView | PatternQuizView | ScenarioQuizView | ResultsView

  /** The three quizzes a menu card starts. */
  datatype Mode = SignalMode | PatternMode | ScenarioMode

  /** Statistics kept across runs. */
  datatype Stats = Stats(gamesPlayed: nat, bestStreak: nat, totalPoints: nat)

  /** The signal quiz in progress. */
  datatype SignalRun = SignalRun(
    questions: seq<SignalQuestion>,
    currentIndex: nat,
    score: nat,
    streak: nat,
    answered: bool)

  /** The flashcard browser in progress. */
  datatype PatternRun = PatternRun(cards: seq<PatternCard>, currentIndex: nat, isFlipped: bool)

  /** The scenario quiz in progress. */
  datatype ScenarioRun = ScenarioRun(
    scenarios: seq<Scenario>,
    currentIndex: nat,
    score: nat,
    correct: nat,
    answered: bool)

  /** Points for a correct signal answer. */
  const SignalReward: nat := 10

  /** A value that may be missing. */
  datatype Option<T> = None | Some(value: T)

  /** What a click on an option leads to: nothing (already answered), the Next button, or the results after a pause. */
  datatype AnswerOutcome = Ignored | ShowNext | FinishScheduled

  /** The larger of two numbers. */
  function Max(a: int, b: int): int {
    if a >= b then a else b
  }

  // ------------------------------------------------------------------
  // Signal quiz
  // ------------------------------------------------------------------

  /** initSignalQuiz: a shuffled copy of the bank, every counter at zero, nothing answered. */
  function InitSignal(bank: seq<SignalQuestion>, draws: seq<nat>): (r: SignalRun)
    requires ValidDraws(|bank|, draws)
    ensures multiset(r.questions) == multiset(bank)
  {
    SignalRun(Shuffle(bank, draws), 0, 0, 0, false)
  }

  /**
   * selectSignalAnswer: ignored once the question is answered; otherwise
   * the question becomes answered, and a right answer scores 10 and
   * extends the streak (raising the best streak when it passes it) while
   * a wrong one breaks the streak.
   */
  function SelectSignal(run: SignalRun, stats: Stats, isCorrect: bool): (r: (SignalRun, Stats))
    ensures r.0.questions == run.questions && r.0.currentIndex == run.currentIndex
    ensures run.answered ==> r == (run, stats)
    ensures !run.answered ==> r.0.answered
    ensures r.1.bestStreak == Max(stats.bestStreak, if run.answered then 0 else r.0.streak)
    ensures r.1.gamesPlayed == stats.gamesPlayed && r.1.totalPoints == stats.totalPoints
    ensures !run.answered && isCorrect ==> r.0.score == run.score + SignalReward && r.0.streak == run.streak + 1
    ensures !run.answered && !isCorrect ==> r.0.score == run.score && r.0.streak == 0
  {
    if run.answered then (run, stats)
    else if isCorrect then
      var next := run.(answered := true, score := run.score + SignalReward, streak := run.streak + 1);
      (next, if next.streak > stats.bestStreak then stats.(bestStreak := next.streak) else stats)
    else
      (run.(answered := true, streak := 0), stats)
  }

  /** nextSignalQuestion with the render that follows it: the next index, not yet answered. */
  function NextSignal(run: SignalRun): (r: SignalRun)
    requires run.currentIndex < |run.questions| - 1
    ensures r.currentIndex == run.currentIndex + 1 && !r.answered
    ensures r.questions == run.questions && r.score == run.score && r.streak == run.streak
  {
    run.(currentIndex := run.currentIndex + 1, answered := false)
  }

  /** finishSignalQuiz: one more game played, the score added to the total, and the run's summary. */
  function FinishSignal(run: SignalRun, stats: Stats): (r: (Stats, Summary))
    requires |run.questions| > 0
    ensures r.0 == Stats(stats.gamesPlayed + 1, stats.bestStreak, stats.totalPoints + run.score)
    ensures r.1 == Summary(run.score, run.score / 10, |run.questions|, SignalGame)
  {
    (stats.(gamesPlayed := stats.gamesPlayed + 1, totalPoints := stats.totalPoints + run.score),
     Summary(run.score, run.score / 10, |run.questions|, SignalGame))
  }

  /**
   * What every reachable signal run satisfies: the index is on a question
   * (once questions are loaded), the score is 10 per right answer, the
   * streak is at most the number of right answers, and there are at most
   * as many right answers as questions answered so far.
   */
  ghost predicate SignalInvariant(run: SignalRun) {
    && (run.questions != [] ==> run.currentIndex < |run.questions|)
    && (run.questions == [] ==> run.currentIndex == 0)
    && run.score % SignalReward == 0
    && run.streak * SignalReward <= run.score
    && run.score <= SignalReward * (run.currentIndex + if run.answered then 1 else 0)
  }

  /** A new signal run satisfies the invariant, and each of its steps keeps it along with streak <= best streak. */
  lemma SignalStepsKeepInvariant(run: SignalRun, stats: Stats, isCorrect: bool)
    requires SignalInvariant(run) && run.questions != [] && run.streak <= stats.bestStreak
    ensures SignalInvariant(SelectSignal(run, stats, isCorrect).0)
    ensures SelectSignal(run, stats, isCorrect).0.streak <= SelectSignal(run, stats, isCorrect).1.bestStreak
    ensures SelectSignal(run, stats, isCorrect).1.bestStreak >= stats.bestStreak
    ensures run.currentIndex < |run.questions| - 1 ==> SignalInvariant(NextSignal(run))
  {
  }

  /** The number of right answers in a list of outcomes. */
  function CountTrue(outcomes: seq<bool>): nat {
    if outcomes == [] then 0 else (if outcomes[0] then 1 else 0) + CountTrue(outcomes[1..])
  }

  /** The streak after a list of outcomes, starting from streak s: the right answers since the last wrong one. */
  function StreakAfter(s: nat, outcomes: seq<bool>): nat {
    if outcomes == [] then s
    else if outcomes[|outcomes| - 1] then StreakAfter(s, outcomes[..|outcomes| - 1]) + 1
    else 0
  }

  /** The longest streak reached along a list of outcomes, starting from streak s. */
  function LongestStreak(s: nat, outcomes: seq<bool>): nat {
    if outcomes == [] then s
    else Max(LongestStreak(s, outcomes[..|outcomes| - 1]), StreakAfter(s, outcomes))
  }

  /** Reading the first outcome off the front: the streak after it, then the rest. */
  lemma {:induction false} StreakFront(s: nat, b: bool, rest: seq<bool>)
    ensures StreakAfter(s, [b] + rest) == StreakAfter(if b then s + 1 else 0, rest)
    ensures LongestStreak(s, [b] + rest) == Max(s, LongestStreak(if b then s + 1 else 0, rest))
    decreases |rest|
  {
    var s1 := if b then s + 1 else 0;
    if rest == [] {
      assert ([b] + rest)[..0] == [];
    } else {
      var init := rest[..|rest| - 1];
      assert ([b] + rest)[..|rest|] == [b] + init;
      StreakFront(s, b, init);
    }
  }

  /** A streak never falls below where it started before the first wrong answer, and the longest one never does. */
  lemma {:induction false} LongestAtLeast(s: nat, outcomes: seq<bool>)
    ensures LongestStreak(s, outcomes) >= s
    ensures LongestStreak(s, outcomes) >= StreakAfter(s, outcomes)
    decreases |outcomes|
  {
    if outcomes != [] {
      LongestAtLeast(s, outcomes[..|outcomes| - 1]);
    }
  }

  /** A signal run played through: each outcome answered, then the next question shown unless it was the last outcome. */
  function PlaySignal(run: SignalRun, stats: Stats, outcomes: seq<bool>): (r: (SignalRun, Stats))
    requires run.currentIndex + |outcomes| <= |run.questions|
    ensures r.0.questions == run.questions
    decreases |outcomes|
  {
    if outcomes == [] then (run, stats)
    else
      var after := SelectSignal(run, stats, outcomes[0]);
      if |outcomes| == 1 then after
      else PlaySignal(NextSignal(after.0), after.1, outcomes[1..])
  }

  /**
   * Answering questions one after another: each answer is scored once,
   * the score grows by 10 per right answer, the streak is the right
   * answers since the last wrong one, the best streak becomes the longest
   * streak reached (if that beats it), and the index ends on the last
   * question answered.
   */
  lemma {:induction false} SignalTally(run: SignalRun, stats: Stats, outcomes: seq<bool>)
    requires run.currentIndex + |outcomes| <= |run.questions|
    requires outcomes != [] && !run.answered && run.streak <= stats.bestStreak
    ensures PlaySignal(run, stats, outcomes).0.score == run.score + SignalReward * CountTrue(outcomes)
    ensures PlaySignal(run, stats, outcomes).0.streak == StreakAfter(run.streak, outcomes)
    ensures PlaySignal(run, stats, outcomes).1.bestStreak == Max(stats.bestStreak, LongestStreak(run.streak, outcomes))
    ensures PlaySignal(run, stats, outcomes).0.currentIndex == run.currentIndex + |outcomes| - 1
    ensures PlaySignal(run, stats, outcomes).0.answered
    ensures PlaySignal(run, stats, outcomes).0.questions == run.questions
    ensures PlaySignal(run, stats, outcomes).1.gamesPlayed == stats.gamesPlayed
    ensures PlaySignal(run, stats, outcomes).1.totalPoints == stats.totalPoints
    decreases |outcomes|
  {
    var b, rest := outcomes[0], outcomes[1..];
    assert outcomes == [b] + rest;
    var after := SelectSignal(run, stats, b);
    StreakFront(run.streak, b, rest);
    if rest == [] {
      assert CountTrue(outcomes) == (if b then 1 else 0) + CountTrue(rest);
    } else {
      var next := NextSignal(after.0);
      SignalTally(next, after.1, rest);
      LongestAtLeast(next.streak, rest);
    }
  }

  /**
   * A whole signal run from initSignalQuiz to finishSignalQuiz: the
   * summary counts the right answers (the score is 10 per right answer),
   * the statistics gain one game and the run's score, the percentage
   * never passes 100, and a run with every answer right scores 100% and
   * is Outstanding.
   */
  lemma SignalRunEndToEnd(bank: seq<SignalQuestion>, draws: seq<nat>, stats: Stats, outcomes: seq<bool>)
    requires ValidDraws(|bank|, draws) && |outcomes| == |bank| > 0
    ensures var played := PlaySignal(InitSignal(bank, draws), stats, outcomes);
            var finished := FinishSignal(played.0, played.1);
            && finished.1 == Summary(SignalReward * CountTrue(outcomes), CountTrue(outcomes), |bank|, SignalGame)
            && finished.0.gamesPlayed == stats.gamesPlayed + 1
            && finished.0.totalPoints == stats.totalPoints + SignalReward * CountTrue(outcomes)
            && finished.0.bestStreak == Max(stats.bestStreak, LongestStreak(0, outcomes))
            && ShowResults(finished.1).percentage <= 100
            && (CountTrue(outcomes) == |bank| ==>
                  ShowResults(finished.1).percentage == 100 && ShowResults(finished.1).tier == Outstanding)
  {
    var run := InitSignal(bank, draws);
    SignalTally(run, stats, outcomes);
    CountTrueBound(outcomes);
    PercentageRounds(CountTrue(outcomes), |bank|);
  }

  /** There are never more right answers than answers. */
  lemma {:induction false} CountTrueBound(outcomes: seq<bool>)
    ensures CountTrue(outcomes) <= |outcomes|
    ensures CountTrue(outcomes) == |outcomes| <==> forall k :: 0 <= k < |outcomes| ==> outcomes[k]
  {
    if outcomes != [] {
      CountTrueBound(outcomes[1..]);
      assert forall k :: 1 <= k < |outcomes| ==> outcomes[k] == outcomes[1..][k - 1];
    }
  }

  // ------------------------------------------------------------------
  // Scenario quiz
  // ------------------------------------------------------------------

  /** initScenarioQuiz: a shuffled copy of the bank, score and right answers at zero, nothing answered. */
  function InitScenario(bank: seq<Scenario>, draws: seq<nat>): (r: ScenarioRun)
    requires ValidDraws(|bank|, draws)
    ensures multiset(r.scenarios) == multiset(bank)
  {
    ScenarioRun(Shuffle(bank, draws), 0, 0, 0, false)
  }

  /**
   * selectScenarioAnswer for the scenario on screen: ignored once
   * answered; otherwise answered, and a right answer adds the scenario's
   * points and one right answer while a wrong one changes neither.
   */
  function SelectScenario(run: ScenarioRun, isCorrect: bool): (r: ScenarioRun)
    requires run.currentIndex < |run.scenarios|
    ensures r.scenarios == run.scenarios && r.currentIndex == run.currentIndex
    ensures run.answered ==> r == run
    ensures !run.answered ==> r.answered
    ensures !run.answered && isCorrect ==>
      r.score == run.score + run.scenarios[run.currentIndex].points && r.correct == run.correct + 1
    ensures !run.answered && !isCorrect ==> r.score == run.score && r.correct == run.correct
  {
    if run.answered then run
    else if isCorrect then
      run.(answered := true,
           score := run.score + run.scenarios[run.currentIndex].points,
           correct := run.correct + 1)
    else
      run.(answered := true)
  }

  /** nextScenario with the render that follows it: the next index, not yet answered. */
  function NextScenario(run: ScenarioRun): (r: ScenarioRun)
    requires run.currentIndex < |run.scenarios| - 1
    ensures r.currentIndex == run.currentIndex + 1 && !r.answered
    ensures r.scenarios == run.scenarios && r.score == run.score && r.correct == run.correct
  {
    run.(currentIndex := run.currentIndex + 1, answered := false)
  }

  /** finishScenarioQuiz: one more game played, the score added to the total, and the run's summary. */
  function FinishScenario(run: ScenarioRun, stats: Stats): (r: (Stats, Summary))
    requires |run.scenarios| > 0
    ensures r.0 == Stats(stats.gamesPlayed + 1, stats.bestStreak, stats.totalPoints + run.score)
    ensures r.1 == Summary(run.score, run.correct, |run.scenarios|, ScenarioGame)
  {
    (stats.(gamesPlayed := stats.gamesPlayed + 1, totalPoints := stats.totalPoints + run.score),
     Summary(run.score, run.correct, |run.scenarios|, ScenarioGame))
  }

  /** What every reachable scenario run satisfies: the index is on a scenario, and no more right answers than answers. */
  ghost predicate ScenarioInvariant(run: ScenarioRun) {
    && (run.scenarios != [] ==> run.currentIndex < |run.scenarios|)
    && (run.scenarios == [] ==> run.currentIndex == 0)
    && run.correct <= run.currentIndex + if run.answered then 1 else 0
  }

  /** Each step of a scenario run keeps its invariant. */
  lemma ScenarioStepsKeepInvariant(run: ScenarioRun, isCorrect: bool)
    requires ScenarioInvariant(run) && run.scenarios != []
    ensures ScenarioInvariant(SelectScenario(run, isCorrect))
    ensures run.currentIndex < |run.scenarios| - 1 ==> ScenarioInvariant(NextScenario(run))
  {
  }

  /** The points a list of outcomes earns on a list of scenarios, the k-th outcome answering the k-th scenario. */
  function Awarded(scenarios: seq<Scenario>, outcomes: seq<bool>): nat
    requires |outcomes| <= |scenarios|
  {
    if outcomes == [] then 0
    else (if outcomes[0] then scenarios[0].points else 0) + Awarded(scenarios[1..], outcomes[1..])
  }

  /** A scenario run played through: each outcome answered, then the next scenario shown unless it was the last outcome. */
  function PlayScenario(run: ScenarioRun, outcomes: seq<bool>): (r: ScenarioRun)
    requires run.currentIndex + |outcomes| <= |run.scenarios|
    ensures r.scenarios == run.scenarios
    decreases |outcomes|
  {
    if outcomes == [] then run
    else
      var after := SelectScenario(run, outcomes[0]);
      if |outcomes| == 1 then after
      else PlayScenario(NextScenario(after), outcomes[1..])
  }

  /**
   * Answering scenarios one after another: the score grows by exactly the
   * points of the scenarios answered right, the count of right answers by
   * their number, and the index ends on the last scenario answered.
   */
  lemma {:induction false} ScenarioTally(run: ScenarioRun, outcomes: seq<bool>)
    requires run.currentIndex + |outcomes| <= |run.scenarios|
    requires outcomes != [] && !run.answered
    ensures PlayScenario(run, outcomes).score
         == run.score + Awarded(run.scenarios[run.currentIndex..], outcomes)
    ensures PlayScenario(run, outcomes).correct == run.correct + CountTrue(outcomes)
    ensures PlayScenario(run, outcomes).currentIndex == run.currentIndex + |outcomes| - 1
    ensures PlayScenario(run, outcomes).answered
    ensures PlayScenario(run, outcomes).scenarios == run.scenarios
    decreases |outcomes|
  {
    var here := run.scenarios[run.currentIndex..];
    assert here[0] == run.scenarios[run.currentIndex];
    if |outcomes| > 1 {
      var next := NextScenario(SelectScenario(run, outcomes[0]));
      ScenarioTally(next, outcomes[1..]);
      assert here[1..] == run.scenarios[next.currentIndex..];
    }
  }

  /**
   * A whole scenario run from initScenarioQuiz to finishScenarioQuiz: the
   * summary's score is the sum of the points of the scenarios answered
   * right, its count of right answers their number, the statistics gain
   * one game and that score, and the percentage never passes 100.
   */
  lemma ScenarioRunEndToEnd(bank: seq<Scenario>, draws: seq<nat>, stats: Stats, outcomes: seq<bool>)
    requires ValidDraws(|bank|, draws) && |outcomes| == |bank| > 0
    ensures var run := InitScenario(bank, draws);
            var finished := FinishScenario(PlayScenario(run, outcomes), stats);
            && finished.1 == Summary(Awarded(run.scenarios, outcomes), CountTrue(outcomes), |bank|, ScenarioGame)
            && finished.0 == Stats(stats.gamesPlayed + 1, stats.bestStreak, stats.totalPoints + Awarded(run.scenarios, outcomes))
            && ShowResults(finished.1).percentage <= 100
  {
    var run := InitScenario(bank, draws);
    ScenarioTally(run, outcomes);
    assert run.scenarios[0..] == run.scenarios;
    CountTrueBound(outcomes);
    PercentageRounds(CountTrue(outcomes), |bank|);
  }

  // ------------------------------------------------------------------
  // Flashcards
  // ------------------------------------------------------------------

  /** initPatternQuiz: the cards in bank order, the first one showing its front. */
  function InitPattern(bank: seq<PatternCard>): (r: PatternRun)
    ensures r.cards == bank && r.currentIndex == 0 && !r.isFlipped
  {
    PatternRun(bank, 0, false)
  }

  /** flipCard: the card turns over. */
  function Flip(run: PatternRun): (r: PatternRun)
    ensures r.cards == run.cards && r.currentIndex == run.currentIndex
    ensures r.isFlipped != run.isFlipped
  {
    run.(isFlipped := !run.isFlipped)
  }

  /** prevPattern: one card back, front showing, unless already on the first card. */
  function PrevPattern(run: PatternRun): (r: PatternRun)
    ensures r.cards == run.cards
    ensures run.currentIndex == 0 ==> r == run
    ensures run.currentIndex > 0 ==> r.currentIndex == run.currentIndex - 1 && !r.isFlipped
    ensures run.currentIndex < |run.cards| ==> r.currentIndex < |r.cards|
  {
    if run.currentIndex > 0 then run.(currentIndex := run.currentIndex - 1, isFlipped := false)
    else run
  }

  /** nextPattern: one card on, front showing, unless already on the last card. */
  function NextPattern(run: PatternRun): (r: PatternRun)
    ensures r.cards == run.cards
    ensures run.currentIndex >= |run.cards| - 1 ==> r == run
    ensures run.currentIndex < |run.cards| - 1 ==> r.currentIndex == run.currentIndex + 1 && !r.isFlipped
    ensures run.currentIndex < |run.cards| ==> r.currentIndex < |r.cards|
  {
    if run.currentIndex < |run.cards| - 1 then run.(currentIndex := run.currentIndex + 1, isFlipped := false)
    else run
  }

  /** shufflePatterns: the cards reshuffled, back to the first one, front showing. */
  function ShufflePatterns(run: PatternRun, draws: seq<nat>): (r: PatternRun)
    requires ValidDraws(|run.cards|, draws)
    ensures multiset(r.cards) == multiset(run.cards)
  {
    PatternRun(Shuffle(run.cards, draws), 0, false)
  }

  /** A click on the dot of a card: that card, front showing. */
  function JumpToPattern(run: PatternRun, index: nat): (r: PatternRun)
    requires index < |run.cards|
    ensures r.cards == run.cards && r.currentIndex == index && !r.isFlipped
    ensures r.currentIndex < |r.cards|
  {
    run.(currentIndex := index, isFlipped := false)
  }

  /** The things the user can do on the flashcard screen. */
  datatype NavAction = FlipCard | Prev | Next | ShuffleCards(draws: seq<nat>) | Dot(index: nat)

  /** An action the screen offers for n cards: draws for n cards, a dot that exists. */
  predicate Offered(n: nat, a: NavAction) {
    match a
    case ShuffleCards(draws) => ValidDraws(n, draws)
    case Dot(index) => index < n
    case _ => true
  }

  /** The state after one action. */
  function Apply(run: PatternRun, a: NavAction): (r: PatternRun)
    requires Offered(|run.cards|, a)
    ensures |r.cards| == |run.cards|
  {
    match a
    case FlipCard => Flip(run)
    case Prev => PrevPattern(run)
    case Next => NextPattern(run)
    case ShuffleCards(draws) => ShufflePatterns(run, draws)
    case Dot(index) => JumpToPattern(run, index)
  }

  /** The state after a list of actions, in order. */
  function Navigate(run: PatternRun, actions: seq<NavAction>): (r: PatternRun)
    requires forall k :: 0 <= k < |actions| ==> Offered(|run.cards|, actions[k])
    ensures |r.cards| == |run.cards|
    decreases |actions|
  {
    if actions == [] then run
    else Navigate(Apply(run, actions[0]), actions[1..])
  }

  /** A flashcard screen showing a card: the cards are the bank in some order and the index is on one of them. */
  ghost predicate PatternShowing(run: PatternRun, bank: seq<PatternCard>) {
    multiset(run.cards) == multiset(bank) && run.currentIndex < |run.cards|
  }

  /**
   * Whatever the user does on the flashcard screen, the index stays on a
   * card and the cards stay the bank's cards; Prev on the first card and
   * Next on the last one change nothing; every move but a flip shows the
   * front of the card it lands on.
   */
  lemma ApplyShowing(run: PatternRun, bank: seq<PatternCard>, a: NavAction)
    requires PatternShowing(run, bank) && Offered(|run.cards|, a)
    ensures PatternShowing(Apply(run, a), bank)
    ensures a == Prev && run.currentIndex == 0 ==> Apply(run, a) == run
    ensures a == Next && run.currentIndex == |run.cards| - 1 ==> Apply(run, a) == run
    ensures a == FlipCard ==> Apply(run, a).isFlipped == !run.isFlipped
    ensures a.ShuffleCards? ==> Apply(run, a).currentIndex == 0
    ensures a.Dot? ==> Apply(run, a).currentIndex == a.index
    ensures a != FlipCard && Apply(run, a) != run ==> !Apply(run, a).isFlipped
  {
  }

  /** Any list of flashcard actions keeps the screen showing one of the bank's cards. */
  lemma {:induction false} NavigateShowing(run: PatternRun, bank: seq<PatternCard>, actions: seq<NavAction>)
    requires PatternShowing(run, bank)
    requires forall k :: 0 <= k < |actions| ==> Offered(|run.cards|, actions[k])
    ensures PatternShowing(Navigate(run, actions), bank)
    decreases |actions|
  {
    if actions != [] {
      ApplyShowing(run, bank, actions[0]);
      var next := Apply(run, actions[0]);
      assert forall k :: 0 <= k < |actions[1..]| ==> Offered(|next.cards|, actions[1..][k]) by {
        forall k | 0 <= k < |actions[1..]| ensures Offered(|next.cards|, actions[1..][k]) {
          assert actions[1..][k] == actions[k + 1];
        }
      }
      NavigateShowing(next, bank, actions[1..]);
    }
  }
}
