// The values shown on the result page: the percentage badge and the message
// tier, both computed from the final score and the number of questions.
module Grading {

  /**
   * `Math.round(score / total * 100)` in integers: round half up of
   * 100 * score / total, for a non-empty question list.
   */
  function Percentage(score: nat, total: nat): (p: nat)
    requires 0 < total
    ensures -(total as int) < 2 * total * p - 200 * score <= total
    ensures score <= total ==> p <= 100
  {
    var p := (200 * score + total) / (2 * total);
    RoundingBounds(score, total);
    p
  }

  lemma RoundingBounds(score: nat, total: nat)
    requires 0 < total
    ensures var p := (200 * score + total) / (2 * total);
      && -(total as int) < 2 * total * p - 200 * score <= total
      && (score <= total ==> p <= 100)
  {
    var p := (200 * score + total) / (2 * total);
    DivBounds(200 * score + total, 2 * total);
    if score <= total {
      assert 2 * total * p <= 200 * total + total;
      UpperBound(p, total);
    }
  }

  lemma DivBounds(a: nat, b: nat)
    requires 0 < b
    ensures b * (a / b) <= a < b * (a / b) + b
  {
  }

  lemma UpperBound(p: nat, total: nat)
    requires 0 < total && 2 * total * p <= 201 * total
    ensures p <= 100
  {
    if p > 100 {
      assert 2 * total * p >= 2 * total * 101 by {
        MulMonotone(2 * total, 101, p);
      }
    }
  }

  lemma MulMonotone(c: nat, x: nat, y: nat)
    requires x <= y
    ensures c * x <= c * y
  {
  }

  /** The three result messages. */
  datatype Tier = Master | Good | KeepPractising

  /** The message tier: all right, more than half right, or fewer. */
  function TierOf(score: nat, total: nat): Tier {
    if score == total then Master
    else if 2 * score > total then Good
    else KeepPractising
  }

  /**
   * For fewer than 200 questions the badge shows 100 exactly when every
   * answer was right.
   */
  lemma PercentageFullIff(score: nat, total: nat)
    requires 0 < total < 200 && score <= total
    ensures Percentage(score, total) == 100 <==> score == total
  {
  }

  /** From 200 questions on, one wrong answer can still round to a perfect badge. */
  lemma PercentageRoundsUpToFull()
    ensures Percentage(199, 200) == 100 && TierOf(199, 200) == Good
  {
  }

  /**
   * The tier and the percentage agree: a master scores 100, a good result
   * at least 50, and any other at most 50.
   */
  lemma TierAgreesWithPercentage(score: nat, total: nat)
    requires 0 < total && score <= total
    ensures TierOf(score, total) == Master ==> Percentage(score, total) == 100
    ensures TierOf(score, total) == Good ==> Percentage(score, total) >= 50
    ensures TierOf(score, total) == KeepPractising ==> Percentage(score, total) <= 50
  {
    var p := Percentage(score, total);
    match TierOf(score, total)
    case Master =>
      assert 2 * total * p > 200 * total - total;
      assert 2 * total * p > 2 * total * 99;
      if p < 100 {
        MulMonotone(2 * total, p, 99);
      }
    case Good =>
      assert 200 * score >= 100 * total + 100;
      assert 2 * total * p > 98 * total;
      if p < 50 {
        MulMonotone(2 * total, p, 49);
      }
    case KeepPractising =>
      assert 200 * score <= 100 * total;
      assert 2 * total * p <= 101 * total;
      if p > 50 {
        MulMonotone(2 * total, 51, p);
      }
  }

  /** A rank for tiers, lowest first. */
  function Rank(t: Tier): nat {
    match t
    case KeepPractising => 0
    case Good => 1
    case Master => 2
  }

  /** A higher score never earns a lower tier. */
  lemma TierMonotone(s1: nat, s2: nat, total: nat)
    requires s1 <= s2 <= total
    ensures Rank(TierOf(s1, total)) <= Rank(TierOf(s2, total))
  {
  }
}
