// InputMode (src/app/components/input-mode/input-mode.ts): dart-by-dart
// entry into the engine's active round, with undo by replay.

module InputModeComponent {
  import Models
  import opened Score
  import opened GameState

  const MaxDartsError: string := "Maximum 3 darts per round"

  /** The engine state undoLastThrow leaves: the active round without its last throw, or unchanged when empty. */
  function AfterUndo(s: MatchState): MatchState {
    var throws := s.currentRound.throws;
    if throws == [] then s else WithThrows(s, throws[..|throws| - 1])
  }

  /**
   * Undo takes back exactly the last throw: the round keeps the earlier
   * throws in order, its total drops by the last throw's score, nothing else
   * changes, and the invariant is kept. An empty round changes nothing.
   */
  lemma UndoDropsLastThrow(s: MatchState)
    requires Inv(s)
    ensures var r := AfterUndo(s);
      var throws := s.currentRound.throws;
      && Inv(r)
      && (throws == [] ==> r == s)
      && (throws != [] ==>
            && r.currentRound.throws == throws[..|throws| - 1]
            && r.currentRound.totalScore == s.currentRound.totalScore - throws[|throws| - 1].score
            && r == s.(currentRound := r.currentRound))
  {
    if s.currentRound.throws != [] {
      DropLastThrow(s.currentRound);
    }
  }

  class InputMode {
    const gameState: GameStateService
    var errorMessage: string

    constructor (gameState: GameStateService)
      ensures this.gameState == gameState && errorMessage == ""
    {
      this.gameState := gameState;
      errorMessage := "";
    }

    /**
     * Build the throw with createThrow and offer it to the engine; the error
     * is shown exactly when the engine refuses it, whatever the reason.
     */
    method AddDartThrow(value: int, multiplier: Models.Multiplier)
      modifies this, gameState
      ensures var dartThrow := CreateThrow(value, multiplier);
        && gameState.State() == AfterAddThrow(old(gameState.State()), dartThrow)
        && errorMessage == (if ThrowAccepted(old(gameState.currentRound), dartThrow) then "" else MaxDartsError)
      ensures old(gameState.Valid()) ==> gameState.Valid()
    {
      var dartThrow := CreateThrow(value, multiplier);
      var success := gameState.AddThrow(dartThrow);
      if !success {
        errorMessage := MaxDartsError;
      } else {
        errorMessage := "";
      }
    }

    /**
     * Drop the last throw of the active round by clearing the round and
     * adding the other throws again; each of them is accepted, so the engine
     * ends in `AfterUndo` of its old state. An empty round is left alone.
     */
    method UndoLastThrow()
      requires gameState.Valid()
      modifies this, gameState
      ensures gameState.Valid()
      ensures gameState.State() == AfterUndo(old(gameState.State()))
      ensures errorMessage == if old(gameState.currentRound.throws) == [] then old(errorMessage) else ""
    {
      var round := gameState.currentRound;
      if |round.throws| > 0 {
        ghost var s0 := gameState.State();
        var updatedThrows := round.throws[..|round.throws| - 1];
        DropLastThrow(round);
        gameState.ClearCurrentRound();
        assert gameState.State() == WithThrows(s0, updatedThrows[..0]);
        var i := 0;
        while i < |updatedThrows|
          invariant 0 <= i <= |updatedThrows|
          invariant gameState.State() == WithThrows(s0, updatedThrows[..i])
        {
          var dartThrow := updatedThrows[i];
          ReplayThrow(s0, updatedThrows[..i], dartThrow);
          var accepted := gameState.AddThrow(dartThrow);
          assert updatedThrows[..i + 1] == updatedThrows[..i] + [dartThrow];
          i := i + 1;
        }
        assert updatedThrows[..i] == updatedThrows;
        UndoDropsLastThrow(s0);
        errorMessage := "";
      }
    }

    /** Hand the round to the engine and clear the error. */
    method SubmitRound()
      modifies this, gameState
      ensures gameState.State() == AfterSubmitRound(old(gameState.State()))
      ensures errorMessage == ""
      ensures old(gameState.Valid()) ==> gameState.Valid()
    {
      gameState.SubmitRound();
      errorMessage := "";
    }

    /** Empty the active round and clear the error. */
    method ClearRound()
      modifies this, gameState
      ensures gameState.State() == old(gameState.State()).(currentRound := EmptyRound)
      ensures errorMessage == ""
      ensures old(gameState.Valid()) ==> gameState.Valid()
    {
      gameState.ClearCurrentRound();
      errorMessage := "";
    }
  }
}
