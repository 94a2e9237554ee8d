/**
 * What the game and day predictors do with the classifier's home-win
 * probability: pick the predicted winner and its win probability, and
 * turn that probability into fair American (moneyline) odds.
 * Probabilities are exact reals; the classifier itself is not modelled.
 */
module Odds {

  /** Python's `int(x)` on a float: truncation toward zero. */
  function Truncate(x: real): (r: int)
    ensures x >= 0.0 ==> 0 <= r && r as real <= x < r as real + 1.0
    ensures x < 0.0 ==> r <= 0 && r as real - 1.0 < x <= r as real
  {
    if x >= 0.0 then x.Floor else -((-x).Floor)
  }

  /** `prob_to_american(prob)`; the two extreme probabilities are mapped to
      the sentinels 99999 and -99999 instead of dividing by zero. */
  function ProbToAmerican(prob: real): int {
    if prob == 0.0 then 99999
    else if prob == 1.0 then -99999
    else if prob >= 0.5 then Truncate(-(prob / (1.0 - prob)) * 100.0)
    else Truncate(((1.0 - prob) / prob) * 100.0)
  }

  lemma TruncateNegates(x: real)
    ensures Truncate(-x) == -Truncate(x)
  {
  }

  lemma QuotientAtLeast(n: real, d: real)
    requires 0.0 < d <= n
    ensures n / d >= 1.0
  {
    var q := n / d;
    assert q * d == n;
    if q < 1.0 {
      assert false;
    }
  }

  /** The sentinels for a certain loss and a certain win. */
  lemma OddsAtCertainty()
    ensures ProbToAmerican(0.0) == 99999
    ensures ProbToAmerican(1.0) == -99999
  {
  }

  /** A favourite is quoted at -100 or lower. */
  lemma FavoriteOdds(prob: real)
    requires 0.5 <= prob < 1.0
    ensures ProbToAmerican(prob) <= -100
  {
    var q := prob / (1.0 - prob);
    QuotientAtLeast(prob, 1.0 - prob);
    assert -q * 100.0 <= -100.0;
  }

  /** Even money is quoted at exactly -100. */
  lemma EvenOdds()
    ensures ProbToAmerican(0.5) == -100
  {
    assert 0.5 / (1.0 - 0.5) == 1.0;
  }

  /** An underdog is quoted at +100 or higher. */
  lemma UnderdogOdds(prob: real)
    requires 0.0 < prob < 0.5
    ensures ProbToAmerican(prob) >= 100
  {
    var q := (1.0 - prob) / prob;
    QuotientAtLeast(1.0 - prob, prob);
    assert q * 100.0 >= 100.0;
  }

  /** Fair odds are symmetric: the two sides of a game are quoted at
      opposite prices, except at even money, where both sides get -100. */
  lemma OddsOfBothSides(prob: real)
    requires 0.0 < prob < 1.0 && prob != 0.5
    ensures ProbToAmerican(1.0 - prob) == -ProbToAmerican(prob)
  {
    if prob < 0.5 {
      assert 1.0 - (1.0 - prob) == prob;
      TruncateNegates(((1.0 - prob) / prob) * 100.0);
      assert -((1.0 - prob) / prob) * 100.0 == -(((1.0 - prob) / prob) * 100.0);
    } else {
      assert 1.0 - (1.0 - prob) == prob;
      TruncateNegates((prob / (1.0 - prob)) * 100.0);
      assert -(prob / (1.0 - prob)) * 100.0 == -((prob / (1.0 - prob)) * 100.0);
    }
  }

  /** The predicted winner, the other team, and the winner's probability. */
  datatype Pick = Pick(winner: string, loser: string, winProb: real)

  /** `winner = home if prob >= 0.5 else away`, `loser` the other way round,
      and `win_prob = prob if winner == home else 1 - prob`; the day
      predictor computes the same winner and probability without the loser. */
  function PickWinner(home: string, away: string, prob: real): Pick {
    var winner := if prob >= 0.5 then home else away;
    var loser := if prob >= 0.5 then away else home;
    var winProb := if winner == home then prob else 1.0 - prob;
    Pick(winner, loser, winProb)
  }

  /** For two different teams the pick is a proper split: the winner is the
      home team exactly when the home team is at least even money, the loser
      is the other team, and the winner's probability is the larger side. */
  lemma PickIsProper(home: string, away: string, prob: real)
    requires home != away
    requires 0.0 <= prob <= 1.0
    ensures var p := PickWinner(home, away, prob);
      && (p.winner == home <==> prob >= 0.5)
      && p.winner in {home, away} && p.loser in {home, away} && p.winner != p.loser
      && p.winProb >= 0.5
      && p.winProb == (if prob >= 0.5 then prob else 1.0 - prob)
  {
  }

  /** When both names are the same team the equality test picks `prob`
      itself, so an underdog probability is reported as the winner's. */
  lemma PickForSameTeam(team: string, prob: real)
    requires prob < 0.5
    ensures PickWinner(team, team, prob).winProb == prob
  {
  }
}
