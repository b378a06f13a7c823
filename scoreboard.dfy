// Scoreboard (src/app/components/scoreboard/scoreboard.ts): how many columns
// the player cards are laid out in.

module ScoreboardComponent {

  /**
   * columnCount: one column per two players, rounded up, never fewer than
   * one and never more than four.
   */
  function ColumnCount(playerCount: nat): (columns: nat)
    ensures 1 <= columns <= 4
    ensures columns == if playerCount <= 2 then 1 else if (playerCount + 1) / 2 >= 4 then 4 else (playerCount + 1) / 2
  {
    if playerCount <= 2 then 1
    else if playerCount <= 4 then 2
    else if playerCount <= 6 then 3
    else 4
  }

  /** More players never means fewer columns. */
  lemma ColumnCountMonotone(a: nat, b: nat)
    requires a <= b
    ensures ColumnCount(a) <= ColumnCount(b)
  {
  }
}
