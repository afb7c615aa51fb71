/**
 * The level scoring rule shared by the play scene, the game page and the
 * end-of-level modal: the score a level demands, the accuracy percentage shown
 * for a number of hits out of a number of shots, and the win condition that
 * combines the two.
 */
module Scoring {
  import JsMath

  /** The accuracy, in percent, a level demands besides its score */
  const MinAccuracy: int := 60

  /** `10 + (level - 1) * 10`: the score a level demands */
  function RequiredScore(level: int): (r: int)
    ensures r == 10 * level
  {
    10 + (level - 1) * 10
  }

  /** Each level demands exactly 10 points more than the one before */
  lemma RequiredScoreStep(level: int)
    ensures RequiredScore(level + 1) == RequiredScore(level) + 10
    ensures RequiredScore(level) < RequiredScore(level + 1)
  {
  }

  /**
   * `Math.round(hits / fired * 100)`: the percentage of shots that hit, rounded
   * to the nearest integer with halves rounded up. Every caller has fired at
   * least once, so the quotient is defined.
   */
  function Accuracy(hits: nat, fired: nat): (a: int)
    requires fired > 0
    ensures 2 * fired * a <= 200 * hits + fired < 2 * fired * a + 2 * fired
    ensures hits <= fired ==> 0 <= a <= 100
  {
    var a := JsMath.RoundDiv(100 * hits, fired);
    JsMath.MulLtCancel(2 * fired, 0, a + 1);
    if hits <= fired then JsMath.MulLtCancel(2 * fired, a, 101); a else a
  }

  /** Every shot hit: the accuracy is 100 */
  lemma {:induction false} AccuracyPerfect(n: nat)
    requires n > 0
    ensures Accuracy(n, n) == 100
  {
    var a := Accuracy(n, n);
    JsMath.MulLtCancel(2 * n, 99, a);
  }

  /** The win condition: enough points for the level and at least 60% accuracy */
  predicate MeetsWinCondition(score: int, accuracy: int, level: int)
    ensures MeetsWinCondition(score, accuracy, level) <==> score >= 10 * level && accuracy >= 60
  {
    score >= RequiredScore(level) && accuracy >= MinAccuracy
  }

  /** More points or accuracy never lose a win, and a win also counts at any lower level */
  lemma MeetsWinConditionMonotone(score: int, accuracy: int, level: int, score': int, accuracy': int, level': int)
    requires score <= score' && accuracy <= accuracy' && level' <= level
    ensures MeetsWinCondition(score, accuracy, level) ==> MeetsWinCondition(score', accuracy', level')
  {
  }
}
