/** The results screen: the percentage of correct answers and the performance tier it falls in. */
module Results {

  /** The two quiz kinds that end on the results screen. */
  datatype GameType = SignalGame | ScenarioGame

  /** The four headings of the results screen, best first. */
  datatype Tier = Outstanding | GreatJob | GoodEffort | KeepPracticing

  /** What a finished run reports: its score, how many answers were right, and out of how many. */
  datatype Summary = Summary(score: nat, correct: nat, total: nat, gameType: GameType)

  /** What the results screen shows for a summary. */
  datatype Report = Report(summary: Summary, percentage: nat, tier: Tier)

  /**
   * Math.round(correct / total * 100), computed exactly: the nearest
   * integer to 100 * correct / total, a half rounding up.
   */
  function Percentage(correct: nat, total: nat): nat
    requires total > 0
  {
    (200 * correct + total) / (2 * total)
  }

  /** A positive factor keeps an inequality. */
  lemma MulMonotone(a: int, b: int, c: int)
    requires a > 0 && b <= c
    ensures a * b <= a * c
  {
    assert a * c - a * b == a * (c - b);
  }

  /** Integer division by d > 0 is the unique q with d * q <= n < d * (q + 1). */
  lemma DivUnique(n: int, d: int, q: int)
    requires d > 0 && d * q <= n < d * q + d
    ensures n / d == q
  {
    var q', m := n / d, n % d;
    assert n == d * q' + m && 0 <= m < d;
    if q' < q {
      MulMonotone(d, q' + 1, q);
    } else if q < q' {
      MulMonotone(d, q + 1, q');
    }
  }

  /**
   * The percentage is the rounded ratio: it lies within half a point of
   * 100 * correct / total (a tie goes up), it is 100 for a perfect run, 0
   * for a run with nothing right, and never above 100 while correct <= total.
   */
  lemma PercentageRounds(correct: nat, total: nat)
    requires total > 0
    ensures 2 * total * Percentage(correct, total) - total <= 200 * correct
    ensures 200 * correct < 2 * total * Percentage(correct, total) + total
    ensures correct <= total ==> Percentage(correct, total) <= 100
    ensures correct == total ==> Percentage(correct, total) == 100
    ensures correct == 0 ==> Percentage(correct, total) == 0
  {
    var n, d := 200 * correct + total, 2 * total;
    var p, m := n / d, n % d;
    assert n == d * p + m && 0 <= m < d;
    if correct <= total && p > 100 {
      MulMonotone(d, 101, p);
    }
    if correct == total {
      DivUnique(n, d, 100);
    }
    if correct == 0 {
      DivUnique(n, d, 0);
    }
  }

  /** The percentage reaches k exactly when 200 * correct >= (2k - 1) * total. */
  lemma PercentageAtLeast(correct: nat, total: nat, k: int)
    requires total > 0
    ensures Percentage(correct, total) >= k <==> 200 * correct >= (2 * k - 1) * total
  {
    var p := Percentage(correct, total);
    PercentageRounds(correct, total);
    assert (2 * k - 1) * total == 2 * total * k - total;
    if p >= k {
      MulMonotone(2 * total, k, p);
    } else {
      MulMonotone(2 * total, p, k - 1);
    }
  }

  /** The heading for a percentage: at least 90, 70 and 50 for the three better ones. */
  function TierOf(percentage: int): (t: Tier)
    ensures t == Outstanding <==> percentage >= 90
    ensures t == KeepPracticing <==> percentage < 50
  {
    if percentage >= 90 then Outstanding
    else if percentage >= 70 then GreatJob
    else if percentage >= 50 then GoodEffort
    else KeepPracticing
  }

  /** Where a tier stands: 0 for the best. */
  function Rank(t: Tier): nat {
    match t
    case Outstanding => 0
    case GreatJob => 1
    case GoodEffort => 2
    case KeepPracticing => 3
  }

  /**
   * The tiers read directly off the ratio of correct answers: Outstanding
   * from 89.5%, Great Job from 69.5%, Good Effort from 49.5% on.
   */
  lemma TierThresholds(correct: nat, total: nat)
    requires total > 0
    ensures TierOf(Percentage(correct, total)) == Outstanding <==> 200 * correct >= 179 * total
    ensures TierOf(Percentage(correct, total)) == GreatJob <==> 139 * total <= 200 * correct < 179 * total
    ensures TierOf(Percentage(correct, total)) == GoodEffort <==> 99 * total <= 200 * correct < 139 * total
    ensures TierOf(Percentage(correct, total)) == KeepPracticing <==> 200 * correct < 99 * total
  {
    PercentageAtLeast(correct, total, 90);
    PercentageAtLeast(correct, total, 70);
    PercentageAtLeast(correct, total, 50);
  }

  /** More correct answers out of the same total never give a worse tier. */
  lemma TierMonotone(c1: nat, c2: nat, total: nat)
    requires total > 0 && c1 <= c2
    ensures Rank(TierOf(Percentage(c2, total))) <= Rank(TierOf(Percentage(c1, total)))
  {
    TierThresholds(c1, total);
    TierThresholds(c2, total);
  }

  /** showResults: the summary with its percentage and the tier that percentage falls in. */
  function ShowResults(s: Summary): (r: Report)
    requires s.total > 0
    ensures r.summary == s
  {
    var p := Percentage(s.correct, s.total);
    Report(s, p, TierOf(p))
  }
}
