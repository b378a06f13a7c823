// ScoreService (src/app/services/score.ts): stateless rules for single
// throws and whole rounds.

module Score {
  import opened Models

  /**
   * validateThrow: the board has segments 1 to 20 and the bull (25); the bull
   * has a single and a double ring but no triple.
   */
  function ValidateThrow(t: Throw): (ok: bool)
    ensures ok <==> (1 <= t.value <= 20 || (t.value == 25 && t.multiplier != 3))
  {
    if t.value < 1 || t.value > 25 || (t.value > 20 && t.value < 25) then false
    else if t.value == 25 && t.multiplier == 3 then false
    else true
  }

  /** calculateThrowScore: the segment counted once, twice or three times. */
  function CalculateThrowScore(value: int, multiplier: Multiplier): (score: int)
    ensures multiplier == 1 ==> score == value
    ensures multiplier == 2 ==> score == value + value
    ensures multiplier == 3 ==> score == value + value + value
  {
    value * multiplier
  }

  /** createThrow: keeps the segment and ring as given and attaches their score, legal or not. */
  function CreateThrow(value: int, multiplier: Multiplier): (t: Throw)
    ensures t.value == value && t.multiplier == multiplier
    ensures t.score == CalculateThrowScore(value, multiplier)
    ensures ValidateThrow(t) ==> 1 <= t.score <= 60
  {
    LegalThrowScore(value, multiplier);
    Throw(value, multiplier, CalculateThrowScore(value, multiplier))
  }

  /** A throw as createThrow builds it and validateThrow accepts it. */
  predicate WellFormedThrow(t: Throw) {
    ValidateThrow(t) && t.score == CalculateThrowScore(t.value, t.multiplier)
  }

  /** A legal dart scores between 1 and 60 points (treble 20). */
  lemma LegalThrowScore(value: int, multiplier: Multiplier)
    ensures ValidateThrow(Throw(value, multiplier, 0)) ==> 1 <= CalculateThrowScore(value, multiplier) <= 60
  {
    if ValidateThrow(Throw(value, multiplier, 0)) {
      if multiplier == 1 {
      } else if multiplier == 2 {
      } else {
        assert value <= 20;
      }
    }
  }

  /** The `reduce((sum, t) => sum + t.score, 0)` fold, left to right. */
  function SumScores(throws: seq<Throw>): (total: int)
    ensures (forall k :: 0 <= k < |throws| ==> throws[k].score >= 0) ==> total >= 0
    ensures (forall k :: 0 <= k < |throws| ==> WellFormedThrow(throws[k])) ==> |throws| <= total <= 60 * |throws|
  {
    if throws == [] then 0
    else
      var last := throws[|throws| - 1];
      LegalThrowScore(last.value, last.multiplier);
      SumScores(throws[..|throws| - 1]) + last.score
  }

  lemma SumScoresAppend(throws: seq<Throw>, t: Throw)
    ensures SumScores(throws + [t]) == SumScores(throws) + t.score
  {
    assert (throws + [t])[..|throws|] == throws;
  }

  /** calculateRoundScore: the sum of the throw scores; a round without throws scores 0. */
  function CalculateRoundScore(round: Round): (total: int)
    ensures round.throws == [] ==> total == 0
    ensures (forall k :: 0 <= k < |round.throws| ==> WellFormedThrow(round.throws[k])) && |round.throws| <= 3
            ==> 0 <= total <= 180
  {
    SumScores(round.throws)
  }

  /** canSubtractScore: a round may be taken off only if the remainder stays non-negative. */
  function CanSubtractScore(currentScore: int, roundScore: int): (ok: bool)
    ensures ok <==> roundScore <= currentScore
  {
    var newScore := currentScore - roundScore;
    newScore >= 0
  }

  /** checkWinCondition: a player has won exactly at 0; the last throw plays no part (no double-out). */
  function CheckWinCondition(currentScore: int, lastThrow: Option<Throw>): (won: bool)
    ensures won <==> currentScore == 0
  {
    if currentScore != 0 then false else true
  }
}
