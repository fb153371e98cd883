/**
 * The three question banks the quiz engine reads. They are loaded once at
 * start-up and never change; the engine only ever copies or reorders them.
 */
module Bank {

  /** One multiple-choice "signal" question: a problem signal and the algorithm it points to. */
  datatype SignalQuestion = SignalQuestion(
    signal: string,
    correctAlgorithm: string,
    wrongOptions: seq<string>,
    explanation: string)

  /** One flashcard: a pattern name on the front, its signals and anti-signals on the back. */
  datatype PatternCard = PatternCard(
    pattern: string,
    signals: seq<string>,
    antiSignals: seq<string>)

  /** One scenario: a problem, its difficulty, the points it awards and the algorithm that solves it. */
  datatype Scenario = Scenario(
    problemDescription: string,
    difficulty: string,
    points: nat,
    hints: seq<string>,
    correctAnswer: string)
}
