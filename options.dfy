/**
 * The answer options shown for a question: the correct answer plus its
 * distractors, shuffled. Signal questions carry their own distractors;
 * a scenario takes them from the correct answers of all scenarios.
 */
module Options {
  import opened Lists
  import opened Shuffling
  import opened Bank

  /** One answer button: the algorithm it names and whether it is the right one. */
  datatype AnswerOption = AnswerOption(algorithm: string, isCorrect: bool)

  /** The algorithm names of a list of options, in order. */
  function Labels(s: seq<AnswerOption>): seq<string> {
    MapSeq((o: AnswerOption) => o.algorithm, s)
  }

  /** The isCorrect flags of a list of options, in order. */
  function Flags(s: seq<AnswerOption>): seq<bool> {
    MapSeq((o: AnswerOption) => o.isCorrect, s)
  }

  /** How many entries of an option list are marked correct. */
  function CountCorrect(s: seq<AnswerOption>): nat {
    multiset(Flags(s))[true]
  }

  /** The list literal before shuffling: the correct answer, then every wrong option marked incorrect. */
  function Unshuffled(correct: string, wrong: seq<string>): (r: seq<AnswerOption>)
    ensures |r| == 1 + |wrong|
  {
    [AnswerOption(correct, true)] + MapSeq((w: string) => AnswerOption(w, false), wrong)
  }

  /** The unshuffled literal marks exactly one entry correct. */
  lemma UnshuffledCount(correct: string, wrong: seq<string>)
    ensures CountCorrect(Unshuffled(correct, wrong)) == 1
  {
    var u := Unshuffled(correct, wrong);
    var rest := Flags(u)[1..];
    assert Flags(u) == [true] + rest;
    assert true !in rest;
    assert multiset(rest)[true] == 0;
  }

  /** The labels of the unshuffled literal: the correct answer, then the wrong options in order. */
  lemma UnshuffledLabels(correct: string, wrong: seq<string>)
    ensures Labels(Unshuffled(correct, wrong)) == [correct] + wrong
  {
  }

  /** An option is in the unshuffled literal exactly when it is the correct entry or an incorrect entry naming a wrong option. */
  lemma UnshuffledMembers(correct: string, wrong: seq<string>)
    ensures forall o :: o in Unshuffled(correct, wrong) <==>
      o == AnswerOption(correct, true) || (!o.isCorrect && o.algorithm in wrong)
  {
    var u := Unshuffled(correct, wrong);
    var tail := MapSeq((w: string) => AnswerOption(w, false), wrong);
    assert u == [AnswerOption(correct, true)] + tail;
    forall o ensures o in tail <==> !o.isCorrect && o.algorithm in wrong {
      if !o.isCorrect && o.algorithm in wrong {
        var k :| 0 <= k < |wrong| && wrong[k] == o.algorithm;
        assert tail[k] == o;
      }
    }
  }

  /** Shuffling an option list keeps the number of entries marked correct. */
  lemma ShuffledCount(u: seq<AnswerOption>, draws: seq<nat>)
    requires ValidDraws(|u|, draws)
    ensures CountCorrect(Shuffle(u, draws)) == CountCorrect(u)
  {
    MapShuffle((o: AnswerOption) => o.isCorrect, u, draws);
  }

  /** Shuffling an option list keeps its labels pairwise different if they were. */
  lemma ShuffledLabels(u: seq<AnswerOption>, draws: seq<nat>)
    requires ValidDraws(|u|, draws) && Distinct(Labels(u))
    ensures Distinct(Labels(Shuffle(u, draws)))
  {
    MapShuffle((o: AnswerOption) => o.algorithm, u, draws);
    ShuffleDistinct(Labels(u), draws);
  }

  /** The options of a signal question: its correct algorithm and its own wrong options, shuffled. */
  function SignalOptions(q: SignalQuestion, draws: seq<nat>): (r: seq<AnswerOption>)
    requires ValidDraws(1 + |q.wrongOptions|, draws)
    ensures |r| == 1 + |q.wrongOptions|
  {
    Shuffle(Unshuffled(q.correctAlgorithm, q.wrongOptions), draws)
  }

  /**
   * A signal question shows one option more than it has wrong options
   * (four for the usual three), exactly one of them marked correct, and
   * that one names the question's correct algorithm; every other option
   * is one of its wrong options.
   */
  lemma SignalOptionsShape(q: SignalQuestion, draws: seq<nat>)
    requires ValidDraws(1 + |q.wrongOptions|, draws)
    ensures |SignalOptions(q, draws)| == 1 + |q.wrongOptions|
    ensures |q.wrongOptions| == 3 ==> |SignalOptions(q, draws)| == 4
    ensures CountCorrect(SignalOptions(q, draws)) == 1
    ensures AnswerOption(q.correctAlgorithm, true) in SignalOptions(q, draws)
    ensures forall o :: o in SignalOptions(q, draws) && o.isCorrect ==> o.algorithm == q.correctAlgorithm
    ensures forall o :: o in SignalOptions(q, draws) && !o.isCorrect ==> o.algorithm in q.wrongOptions
  {
    var u := Unshuffled(q.correctAlgorithm, q.wrongOptions);
    UnshuffledCount(q.correctAlgorithm, q.wrongOptions);
    UnshuffledMembers(q.correctAlgorithm, q.wrongOptions);
    ShuffledCount(u, draws);
    ShuffleElements(u, draws);
  }

  /** The correct answer of every scenario of the bank, in bank order. */
  function Answers(bank: seq<Scenario>): seq<string> {
    MapSeq((s: Scenario) => s.correctAnswer, bank)
  }

  /** The distinct correct answers of the bank, as a set. */
  ghost function AnswerSet(bank: seq<Scenario>): set<string> {
    set s | s in bank :: s.correctAnswer
  }

  /** [...new Set(s)]: every value of s once, in the order of its first occurrence. */
  function Dedup(s: seq<string>): (r: seq<string>)
    ensures Distinct(r)
    ensures forall x :: x in r <==> x in s
  {
    if s == [] then []
    else
      var p, x := s[..|s| - 1], s[|s| - 1];
      assert forall y :: y in s <==> y in p || y == x by {
        assert s == p + [x];
      }
      if x in p then Dedup(p) else Dedup(p) + [x]
  }

  /** filter(a => a !== c): s without its entries equal to c, order kept. */
  function Without(s: seq<string>, c: string): (r: seq<string>)
    ensures forall x :: x in r <==> x in s && x != c
    ensures Distinct(s) ==> Distinct(r)
  {
    if s == [] then []
    else
      var rest := Without(s[1..], c);
      assert forall x :: x in s <==> x == s[0] || x in s[1..] by {
        assert s == [s[0]] + s[1..];
      }
      assert Distinct(s) ==> Distinct(s[1..]) && s[0] !in rest;
      if s[0] == c then rest else [s[0]] + rest
  }

  /** The distinct answers of the bank other than c, before they are shuffled. */
  function WrongPool(bank: seq<Scenario>, c: string): seq<string> {
    Without(Dedup(Answers(bank)), c)
  }

  /** getScenarioWrongOptions: the pool shuffled, then its first three entries (all of them when there are fewer). */
  function ScenarioWrongOptions(bank: seq<Scenario>, c: string, draws: seq<nat>): (r: seq<string>)
    requires ValidDraws(|WrongPool(bank, c)|, draws)
    ensures |r| == Min(3, |WrongPool(bank, c)|)
    ensures multiset(r) <= multiset(WrongPool(bank, c))
  {
    var shuffled := Shuffle(WrongPool(bank, c), draws);
    var k := Min(3, |shuffled|);
    assert shuffled == shuffled[..k] + shuffled[k..];
    shuffled[..k]
  }

  /** The pool holds each answer of the bank other than c exactly once. */
  lemma WrongPoolShape(bank: seq<Scenario>, c: string)
    ensures Distinct(WrongPool(bank, c))
    ensures forall x :: x in WrongPool(bank, c) <==> x in AnswerSet(bank) && x != c
    ensures |WrongPool(bank, c)| == |AnswerSet(bank) - {c}|
  {
    var pool := WrongPool(bank, c);
    forall x ensures x in Answers(bank) <==> x in AnswerSet(bank) {
      if x in Answers(bank) {
        var k :| 0 <= k < |bank| && Answers(bank)[k] == x;
        assert bank[k] in bank;
      }
      if x in AnswerSet(bank) {
        var s :| s in bank && s.correctAnswer == x;
        var k :| 0 <= k < |bank| && bank[k] == s;
        assert Answers(bank)[k] == x;
      }
    }
    assert Elements(pool) == AnswerSet(bank) - {c};
    DistinctSize(pool);
  }

  /**
   * The distractors of a scenario are pairwise different, never its own
   * answer, each the answer of some scenario of the bank; there are
   * min(3, number of other distinct answers) of them, so fewer than three
   * when the bank has fewer other answers, and then all of them.
   */
  lemma ScenarioWrongOptionsShape(bank: seq<Scenario>, c: string, draws: seq<nat>)
    requires ValidDraws(|WrongPool(bank, c)|, draws)
    ensures Distinct(ScenarioWrongOptions(bank, c, draws))
    ensures c !in ScenarioWrongOptions(bank, c, draws)
    ensures forall x :: x in ScenarioWrongOptions(bank, c, draws) ==> x in AnswerSet(bank)
    ensures |ScenarioWrongOptions(bank, c, draws)| == Min(3, |AnswerSet(bank) - {c}|)
    ensures |AnswerSet(bank) - {c}| <= 3 ==>
      forall x :: x in AnswerSet(bank) && x != c ==> x in ScenarioWrongOptions(bank, c, draws)
  {
    var pool := WrongPool(bank, c);
    var shuffled := Shuffle(pool, draws);
    var r := ScenarioWrongOptions(bank, c, draws);
    WrongPoolShape(bank, c);
    ShuffleDistinct(pool, draws);
    ShuffleElements(pool, draws);
    assert forall x :: x in r ==> x in shuffled;
    if |pool| <= 3 {
      assert r == shuffled;
    }
  }

  /** The draws a scenario's options need: one set for the distractor pool, one for the final list. */
  predicate ScenarioDrawsFit(bank: seq<Scenario>, c: string, wrongDraws: seq<nat>, optionDraws: seq<nat>) {
    && ValidDraws(|WrongPool(bank, c)|, wrongDraws)
    && ValidDraws(1 + |ScenarioWrongOptions(bank, c, wrongDraws)|, optionDraws)
  }

  /** The options of a scenario: its correct answer and its distractors, shuffled again. */
  function ScenarioOptions(bank: seq<Scenario>, s: Scenario, wrongDraws: seq<nat>, optionDraws: seq<nat>): (r: seq<AnswerOption>)
    requires ScenarioDrawsFit(bank, s.correctAnswer, wrongDraws, optionDraws)
    ensures |r| == 1 + |ScenarioWrongOptions(bank, s.correctAnswer, wrongDraws)| <= 4
  {
    Shuffle(Unshuffled(s.correctAnswer, ScenarioWrongOptions(bank, s.correctAnswer, wrongDraws)), optionDraws)
  }

  /**
   * A scenario shows at most four options with pairwise-different names,
   * one more than it has distractors; an option is marked correct exactly
   * when it names the scenario's answer, and every other option names the
   * answer of some scenario of the bank.
   */
  lemma ScenarioOptionsShape(bank: seq<Scenario>, s: Scenario, wrongDraws: seq<nat>, optionDraws: seq<nat>)
    requires ScenarioDrawsFit(bank, s.correctAnswer, wrongDraws, optionDraws)
    ensures |ScenarioOptions(bank, s, wrongDraws, optionDraws)| == 1 + Min(3, |AnswerSet(bank) - {s.correctAnswer}|)
    ensures |ScenarioOptions(bank, s, wrongDraws, optionDraws)| <= 4
    ensures CountCorrect(ScenarioOptions(bank, s, wrongDraws, optionDraws)) == 1
    ensures Distinct(Labels(ScenarioOptions(bank, s, wrongDraws, optionDraws)))
    ensures forall o :: o in ScenarioOptions(bank, s, wrongDraws, optionDraws) ==>
      (o.isCorrect <==> o.algorithm == s.correctAnswer)
    ensures forall o :: o in ScenarioOptions(bank, s, wrongDraws, optionDraws) && !o.isCorrect ==>
      o.algorithm in AnswerSet(bank)
  {
    var c := s.correctAnswer;
    var wrong := ScenarioWrongOptions(bank, c, wrongDraws);
    var u := Unshuffled(c, wrong);
    ScenarioWrongOptionsShape(bank, c, wrongDraws);
    UnshuffledCount(c, wrong);
    UnshuffledLabels(c, wrong);
    UnshuffledMembers(c, wrong);
    assert Distinct([c] + wrong);
    ShuffledCount(u, optionDraws);
    ShuffledLabels(u, optionDraws);
    ShuffleElements(u, optionDraws);
  }
}
