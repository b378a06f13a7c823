// CalculatingMode (src/app/components/calculating-mode/calculating-mode.ts):
// a keypad that builds a round total of at most three digits and at most 180
// and submits it to the engine as a manual score.

module CalculatingModeComponent {
  import opened Decimal
  import opened GameState

  const MaxScoreError: string := "Maximum possible score is 180"
  const NoPlayerError: string := "No active player"

  /** The score a display stands for: an empty display counts as 0. */
  function DisplayScore(display: string): (score: nat)
    requires IsDigitString(display)
    ensures display == [] ==> score == 0
    ensures display != [] ==> score < Pow10(|display|)
  {
    if display == [] then 0 else ParseInt(display)
  }

  /** The keypad's own bound on the display: at most three digits, worth at most 180. */
  ghost predicate InRange(display: string) {
    IsDigitString(display) && |display| <= 3 && DisplayScore(display) <= 180
  }

  /**
   * A fourth digit is refused without an error only when the three digits
   * shown start with 0: otherwise the four-digit value is above 180.
   */
  lemma SilentFourthDigit(display: string, digit: char)
    requires InRange(display) && |display| == 3 && IsDigit(digit)
    requires ParseInt(display + [digit]) <= 180
    ensures display[0] == '0'
  {
    var s := display + [digit];
    assert s[..|s| - 1] == display;
    assert ParseInt(s) == ParseInt(display) * 10 + DigitValue(digit);
    assert ParseInt(display) >= DigitValue(display[0]) * 100;
  }

  class CalculatingMode {
    const gameState: GameStateService
    var displayValue: string
    var errorMessage: string

    /** The display only ever receives keypad digits. */
    ghost predicate Valid()
      reads this
    {
      IsDigitString(displayValue)
    }

    constructor (gameState: GameStateService)
      ensures this.gameState == gameState
      ensures displayValue == "" && errorMessage == ""
      ensures Valid() && InRange(displayValue)
    {
      this.gameState := gameState;
      displayValue := "";
      errorMessage := "";
    }

    /**
     * Accept the digit when the result has at most three digits and is at
     * most 180; report a value above 180; ignore anything else.
     */
    method AppendDigit(digit: char)
      requires Valid() && IsDigit(digit)
      modifies this
      ensures Valid()
      ensures var newValue := old(displayValue) + [digit];
        var accepted := |newValue| <= 3 && ParseInt(newValue) <= 180;
        && displayValue == (if accepted then newValue else old(displayValue))
        && errorMessage == (if accepted then ""
                            else if ParseInt(newValue) > 180 then MaxScoreError
                            else old(errorMessage))
      ensures old(InRange(displayValue)) ==> InRange(displayValue)
    {
      var current := displayValue;
      var newValue := current + [digit];
      var numValue := ParseInt(newValue);
      if |newValue| <= 3 && numValue <= 180 {
        displayValue := newValue;
        errorMessage := "";
      } else if numValue > 180 {
        errorMessage := MaxScoreError;
      }
    }

    /** Remove the last digit, if any, and clear the error. */
    method Backspace()
      requires Valid()
      modifies this
      ensures Valid()
      ensures displayValue == if old(displayValue) == [] then [] else old(displayValue)[..|old(displayValue)| - 1]
      ensures errorMessage == ""
      ensures old(InRange(displayValue)) ==> InRange(displayValue)
    {
      var current := displayValue;
      if |current| >= 2 {
        ParseIntDropLast(current);
      }
      displayValue := if current == [] then [] else current[..|current| - 1];
      errorMessage := "";
    }

    method Clear()
      modifies this
      ensures displayValue == "" && errorMessage == ""
      ensures Valid() && InRange(displayValue)
    {
      displayValue := "";
      errorMessage := "";
    }

    /**
     * Submit the display as a manual score when there is a current player and
     * the score is at most 180, then empty the display; otherwise only report.
     */
    method SubmitScore()
      requires Valid()
      modifies this, gameState
      ensures Valid()
      ensures var score := DisplayScore(old(displayValue));
        if old(gameState.CurrentPlayer()).None? then
          && errorMessage == NoPlayerError
          && displayValue == old(displayValue)
          && gameState.State() == old(gameState.State())
        else if score > 180 then
          && errorMessage == MaxScoreError
          && displayValue == old(displayValue)
          && gameState.State() == old(gameState.State())
        else
          && gameState.State() == AfterManualScore(old(gameState.State()), score)
          && displayValue == "" && errorMessage == ""
      ensures old(gameState.Valid()) ==> gameState.Valid()
      ensures old(InRange(displayValue)) ==> InRange(displayValue)
    {
      var displayStr := displayValue;
      var player := gameState.CurrentPlayer();
      var score := if displayStr == "" then 0 else ParseInt(displayStr);
      if player.None? {
        errorMessage := NoPlayerError;
        return;
      }
      if score > 180 {
        errorMessage := MaxScoreError;
        return;
      }
      gameState.SubmitManualScore(score);
      displayValue := "";
      errorMessage := "";
    }
  }
}
