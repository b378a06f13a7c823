// GameStateService (src/app/services/game-state.ts): the match engine.
// The class keeps the service's seven fields and updates them in place; each
// method is proved to take the state to a pure transition of the old state
// (`MatchState` and the functions below), and the darts rules are lemmas
// about those transitions.

module GameState {
  import opened Models
  import opened Score
  import opened Decimal

  /** The id given to the player at `index`: `player-${index}`. */
  function PlayerId(index: nat): string {
    "player-" + NatToString(index)
  }

  /** Players at different positions get different ids. */
  lemma PlayerIdInjective(i: nat, j: nat)
    ensures PlayerId(i) == PlayerId(j) ==> i == j
  {
    if PlayerId(i) == PlayerId(j) {
      assert PlayerId(i)[7..] == NatToString(i);
      assert PlayerId(j)[7..] == NatToString(j);
    }
  }

  const EmptyRound: Round := Round([], 0)

  /** The service's fields as one value. */
  datatype MatchState = MatchState(
    config: Option<GameConfig>,
    players: seq<Player>,
    currentPlayerIndex: nat,
    currentRound: Round,
    gameStarted: bool,
    gameFinished: bool,
    winner: Option<Player>)

  /** The field initialisers, which resetGame also restores. */
  const InitialState: MatchState := MatchState(None, [], 0, EmptyRound, false, false, None)

  /** An active round as addThrow builds it: at most three legal darts and their sum. */
  ghost predicate RoundInv(round: Round) {
    && |round.throws| <= 3
    && (forall k :: 0 <= k < |round.throws| ==> ValidateThrow(round.throws[k]))
    && round.totalScore == CalculateRoundScore(round)
  }

  /** What holds of every state the service can reach. */
  ghost predicate Inv(s: MatchState) {
    && (|s.players| == 0 || s.currentPlayerIndex < |s.players|)
    && (forall i :: 0 <= i < |s.players| ==> s.players[i].id == PlayerId(i))
    && RoundInv(s.currentRound)
  }

  /** currentPlayer: `players[index] || null`. */
  function PlayerAt(players: seq<Player>, index: nat): (p: Option<Player>)
    ensures p.Some? <==> index < |players|
    ensures p.Some? ==> p.value == players[index] && |players| > 0
  {
    if index < |players| then Some(players[index]) else None
  }

  function NewPlayers(names: seq<string>, startingScore: int): seq<Player> {
    seq(|names|, i requires 0 <= i < |names| => Player(PlayerId(i), names[i], startingScore, [], false))
  }

  /** startGame: the whole match is replaced; nothing of the previous state survives. */
  function Started(config: GameConfig): (s: MatchState)
    ensures Inv(s)
    ensures |s.players| == |config.playerNames|
    ensures forall i :: 0 <= i < |s.players| ==>
              && s.players[i].id == PlayerId(i)
              && s.players[i].name == config.playerNames[i]
              && s.players[i].currentScore == config.startingScore
              && s.players[i].rounds == []
              && !s.players[i].hasWon
    ensures s.currentPlayerIndex == 0 && s.currentRound.throws == [] && s.currentRound.totalScore == 0
    ensures s.config == Some(config) && s.gameStarted && !s.gameFinished && s.winner == None
  {
    MatchState(Some(config), NewPlayers(config.playerNames, config.startingScore), 0, EmptyRound, true, false, None)
  }

  /** The guard of addThrow. */
  predicate ThrowAccepted(round: Round, t: Throw) {
    |round.throws| < 3 && ValidateThrow(t)
  }

  function AddToRound(round: Round, t: Throw): Round {
    Round(round.throws + [t], round.totalScore + t.score)
  }

  /** addThrow: append an accepted throw to the active round; a rejected one changes nothing. */
  function AfterAddThrow(s: MatchState, t: Throw): (r: MatchState)
    ensures !ThrowAccepted(s.currentRound, t) ==> r == s
    ensures ThrowAccepted(s.currentRound, t) ==>
              && r.currentRound.throws == s.currentRound.throws + [t]
              && r.currentRound.totalScore == s.currentRound.totalScore + t.score
              && r == s.(currentRound := r.currentRound)
    ensures Inv(s) ==> Inv(r)
  {
    if ThrowAccepted(s.currentRound, t) then
      SumScoresAppend(s.currentRound.throws, t);
      s.(currentRound := AddToRound(s.currentRound, t))
    else s
  }

  /** The state `s` with an active round holding `throws` and their sum. */
  function WithThrows(s: MatchState, throws: seq<Throw>): MatchState {
    s.(currentRound := Round(throws, SumScores(throws)))
  }

  /** Adding a legal throw to a round that holds the sum of its throws gives the round of the longer list. */
  lemma ReplayThrow(s: MatchState, throws: seq<Throw>, t: Throw)
    requires |throws| < 3 && ValidateThrow(t)
    ensures AfterAddThrow(WithThrows(s, throws), t) == WithThrows(s, throws + [t])
  {
    SumScoresAppend(throws, t);
  }

  /**
   * The throws of a valid round without its last one are fewer than three,
   * all legal, and sum to the round total less the last throw's score.
   */
  lemma DropLastThrow(round: Round)
    requires RoundInv(round) && round.throws != []
    ensures var init := round.throws[..|round.throws| - 1];
      && |init| < 3
      && (forall k :: 0 <= k < |init| ==> ValidateThrow(init[k]))
      && SumScores(init) == round.totalScore - round.throws[|round.throws| - 1].score
  {
    var init := round.throws[..|round.throws| - 1];
    var last := round.throws[|round.throws| - 1];
    assert round.throws == init + [last];
    SumScoresAppend(init, last);
  }

  /** The player record after a round that does not bust (game-state.ts:114-119 and 158-163). */
  function Committed(p: Player, round: Round): Player {
    var newScore := p.currentScore - round.totalScore;
    p.(currentScore := newScore, rounds := p.rounds + [round], hasWon := newScore == 0)
  }

  /** `Array.prototype.findIndex` on the player ids: the first position holding `id`, or -1. */
  function FindIndex(players: seq<Player>, id: string): (k: int)
    ensures -1 <= k < |players|
    ensures k >= 0 ==> players[k].id == id && forall j :: 0 <= j < k ==> players[j].id != id
    ensures k == -1 <==> forall j :: 0 <= j < |players| ==> players[j].id != id
  {
    if players == [] then -1
    else if players[0].id == id then 0
    else
      var k := FindIndex(players[1..], id);
      if k == -1 then -1 else k + 1
  }

  /** updatePlayer: the first slot whose id matches is overwritten; with no match nothing changes. */
  function ReplaceById(players: seq<Player>, updated: Player): (r: seq<Player>)
    ensures |r| == |players|
    ensures forall j :: 0 <= j < |players| ==> r[j].id == players[j].id
    ensures forall j :: 0 <= j < |players| && players[j].id != updated.id ==> r[j] == players[j]
    ensures var k := FindIndex(players, updated.id);
      (k == -1 ==> r == players)
      && (k >= 0 ==> r[k] == updated && forall j :: 0 <= j < |players| && j != k ==> r[j] == players[j])
  {
    var k := FindIndex(players, updated.id);
    if k == -1 then players else players[k := updated]
  }

  /** Under the invariant the current player's id sits only in its own slot, so updatePlayer replaces that slot. */
  lemma ReplaceCurrentPlayer(s: MatchState, updated: Player)
    requires Inv(s) && s.currentPlayerIndex < |s.players|
    requires updated.id == s.players[s.currentPlayerIndex].id
    ensures ReplaceById(s.players, updated) == s.players[s.currentPlayerIndex := updated]
  {
    var k := FindIndex(s.players, updated.id);
    assert k != -1;
    PlayerIdInjective(k, s.currentPlayerIndex);
  }

  /** nextPlayer: the turn passes round-robin. */
  function NextIndex(s: MatchState): (i: nat)
    requires |s.players| > 0
    ensures i < |s.players|
    ensures s.currentPlayerIndex < |s.players| ==>
              i == if s.currentPlayerIndex + 1 == |s.players| then 0 else s.currentPlayerIndex + 1
  {
    (s.currentPlayerIndex + 1) % |s.players|
  }

  /** submitRound: commit the active round against the current player. */
  function AfterSubmitRound(s: MatchState): (r: MatchState)
    ensures PlayerAt(s.players, s.currentPlayerIndex).None? ==> r == s
    ensures Inv(s) ==> Inv(r)
  {
    match PlayerAt(s.players, s.currentPlayerIndex)
    case None => s
    case Some(player) =>
      var round := s.currentRound;
      var newScore := player.currentScore - round.totalScore;
      if newScore < 0 then
        s.(currentRound := EmptyRound, currentPlayerIndex := NextIndex(s))
      else
        var updatedPlayer := Committed(player, round);
        var s1 := s.(players := ReplaceById(s.players, updatedPlayer));
        if updatedPlayer.hasWon then
          s1.(gameFinished := true, winner := Some(updatedPlayer))
        else
          s1.(currentRound := EmptyRound, currentPlayerIndex := NextIndex(s1))
  }

  /** submitManualScore: commit a single total; a bust only passes the turn. */
  function AfterManualScore(s: MatchState, score: int): (r: MatchState)
    ensures PlayerAt(s.players, s.currentPlayerIndex).None? ==> r == s
    ensures r.currentRound == s.currentRound
    ensures Inv(s) ==> Inv(r)
  {
    match PlayerAt(s.players, s.currentPlayerIndex)
    case None => s
    case Some(player) =>
      var newScore := player.currentScore - score;
      if newScore < 0 then
        s.(currentPlayerIndex := NextIndex(s))
      else
        var updatedPlayer := Committed(player, Round([], score));
        var s1 := s.(players := ReplaceById(s.players, updatedPlayer));
        if updatedPlayer.hasWon then
          s1.(gameFinished := true, winner := Some(updatedPlayer))
        else
          s1.(currentPlayerIndex := NextIndex(s1))
  }

  /** A bust in submitRound leaves every player as it was, empties the active round and passes the turn. */
  lemma SubmitRoundBust(s: MatchState)
    requires Inv(s) && s.currentPlayerIndex < |s.players|
    requires !CanSubtractScore(s.players[s.currentPlayerIndex].currentScore, s.currentRound.totalScore)
    ensures var r := AfterSubmitRound(s);
      && r.players == s.players
      && r.currentRound.throws == [] && r.currentRound.totalScore == 0
      && r.currentPlayerIndex == (s.currentPlayerIndex + 1) % |s.players|
      && r.currentPlayerIndex < |r.players|
      && r.config == s.config && r.gameStarted == s.gameStarted
      && r.gameFinished == s.gameFinished && r.winner == s.winner
  {
  }

  /**
   * A submitRound that does not bust changes only the current player's entry:
   * the score drops by exactly the round total, the round is appended, and the
   * player has won iff the score is now 0. A win finishes the match with that
   * player as winner and neither passes the turn nor clears the round;
   * otherwise the round is cleared and the turn passes.
   */
  lemma SubmitRoundCommit(s: MatchState)
    requires Inv(s) && s.currentPlayerIndex < |s.players|
    requires CanSubtractScore(s.players[s.currentPlayerIndex].currentScore, s.currentRound.totalScore)
    ensures var r := AfterSubmitRound(s);
      var i := s.currentPlayerIndex;
      var p := s.players[i];
      var q := r.players[i];
      && |r.players| == |s.players|
      && (forall j :: 0 <= j < |s.players| && j != i ==> r.players[j] == s.players[j])
      && q.id == p.id && q.name == p.name
      && q.currentScore == p.currentScore - s.currentRound.totalScore >= 0
      && q.rounds == p.rounds + [s.currentRound]
      && q.hasWon == CheckWinCondition(q.currentScore, None)
      && r.config == s.config && r.gameStarted == s.gameStarted
      && (q.hasWon ==>
            && r.gameFinished && r.winner == Some(q)
            && r.currentPlayerIndex == i && r.currentRound == s.currentRound)
      && (!q.hasWon ==>
            && r.gameFinished == s.gameFinished && r.winner == s.winner
            && r.currentPlayerIndex == (i + 1) % |s.players|
            && r.currentRound.throws == [] && r.currentRound.totalScore == 0)
  {
    ReplaceCurrentPlayer(s, Committed(s.players[s.currentPlayerIndex], s.currentRound));
  }

  /** A manual-entry bust only passes the turn: players and the active round stay as they were. */
  lemma ManualScoreBust(s: MatchState, score: int)
    requires Inv(s) && s.currentPlayerIndex < |s.players|
    requires !CanSubtractScore(s.players[s.currentPlayerIndex].currentScore, score)
    ensures AfterManualScore(s, score) == s.(currentPlayerIndex := (s.currentPlayerIndex + 1) % |s.players|)
  {
  }

  /**
   * A manual score that does not bust commits like submitRound, with the
   * round `{throws: [], totalScore: score}`; the active round is never touched.
   */
  lemma ManualScoreCommit(s: MatchState, score: int)
    requires Inv(s) && s.currentPlayerIndex < |s.players|
    requires CanSubtractScore(s.players[s.currentPlayerIndex].currentScore, score)
    ensures var r := AfterManualScore(s, score);
      var i := s.currentPlayerIndex;
      var p := s.players[i];
      var q := r.players[i];
      && |r.players| == |s.players|
      && (forall j :: 0 <= j < |s.players| && j != i ==> r.players[j] == s.players[j])
      && q.id == p.id && q.name == p.name
      && q.currentScore == p.currentScore - score >= 0
      && q.rounds == p.rounds + [Round([], score)]
      && q.hasWon == CheckWinCondition(q.currentScore, None)
      && r.config == s.config && r.gameStarted == s.gameStarted
      && r.currentRound == s.currentRound
      && (q.hasWon ==> r.gameFinished && r.winner == Some(q) && r.currentPlayerIndex == i)
      && (!q.hasWon ==>
            && r.gameFinished == s.gameFinished && r.winner == s.winner
            && r.currentPlayerIndex == (i + 1) % |s.players|)
  {
    ReplaceCurrentPlayer(s, Committed(s.players[s.currentPlayerIndex], Round([], score)));
  }

  /**
   * Finishing does not freeze the match: right after a winning round with
   * a positive total, submitting again takes that total off the winner's 0,
   * which busts, so the round is cleared and the turn passes on.
   */
  lemma SubmitAfterWinPassesTurn(s: MatchState)
    requires Inv(s) && s.currentPlayerIndex < |s.players|
    requires 0 < s.currentRound.totalScore == s.players[s.currentPlayerIndex].currentScore
    ensures var w := AfterSubmitRound(s);
      var r := AfterSubmitRound(w);
      && w.gameFinished && w.currentPlayerIndex == s.currentPlayerIndex
      && r.gameFinished && r.players == w.players
      && r.currentPlayerIndex == (s.currentPlayerIndex + 1) % |s.players|
      && r.currentRound.throws == []
  {
    SubmitRoundCommit(s);
    var w := AfterSubmitRound(s);
    SubmitRoundBust(w);
  }

  class GameStateService {
    var gameConfig: Option<GameConfig>
    var players: seq<Player>
    var currentPlayerIndex: nat
    var currentRound: Round
    var gameStarted: bool
    var gameFinished: bool
    var winner: Option<Player>

    ghost function State(): MatchState
      reads this
    {
      MatchState(gameConfig, players, currentPlayerIndex, currentRound, gameStarted, gameFinished, winner)
    }

    ghost predicate Valid()
      reads this
    {
      Inv(State())
    }

    function CurrentPlayer(): Option<Player>
      reads this
    {
      PlayerAt(players, currentPlayerIndex)
    }

    constructor ()
      ensures State() == InitialState && Valid()
    {
      gameConfig := None;
      players := [];
      currentPlayerIndex := 0;
      currentRound := EmptyRound;
      gameStarted := false;
      gameFinished := false;
      winner := None;
    }

    method StartGame(config: GameConfig)
      modifies this
      ensures State() == Started(config) && Valid()
    {
      gameConfig := Some(config);
      players := NewPlayers(config.playerNames, config.startingScore);
      currentPlayerIndex := 0;
      currentRound := EmptyRound;
      gameStarted := true;
      gameFinished := false;
      winner := None;
    }

    method AddThrow(dartThrow: Throw) returns (accepted: bool)
      modifies this
      ensures accepted == ThrowAccepted(old(currentRound), dartThrow)
      ensures State() == AfterAddThrow(old(State()), dartThrow)
      ensures old(Valid()) ==> Valid()
    {
      var round := currentRound;
      if |round.throws| >= 3 {
        return false;
      }
      if !ValidateThrow(dartThrow) {
        return false;
      }
      currentRound := Round(round.throws + [dartThrow], round.totalScore + dartThrow.score);
      return true;
    }

    method SubmitRound()
      modifies this
      ensures State() == AfterSubmitRound(old(State()))
      ensures old(Valid()) ==> Valid()
    {
      ghost var s0 := State();
      var player := CurrentPlayer();
      var round := currentRound;
      if player.None? {
        return;
      }
      var newScore := player.value.currentScore - round.totalScore;
      if newScore < 0 {
        currentRound := EmptyRound;
        NextPlayer();
        return;
      }
      var updatedPlayer := Committed(player.value, round);
      UpdatePlayer(updatedPlayer);
      assert State() == s0.(players := ReplaceById(s0.players, updatedPlayer));
      if updatedPlayer.hasWon {
        gameFinished := true;
        winner := Some(updatedPlayer);
      } else {
        currentRound := EmptyRound;
        NextPlayer();
      }
    }

    method SubmitManualScore(score: int)
      modifies this
      ensures State() == AfterManualScore(old(State()), score)
      ensures old(Valid()) ==> Valid()
    {
      ghost var s0 := State();
      var player := CurrentPlayer();
      if player.None? {
        return;
      }
      var newScore := player.value.currentScore - score;
      if newScore < 0 {
        NextPlayer();
        return;
      }
      var updatedPlayer := Committed(player.value, Round([], score));
      UpdatePlayer(updatedPlayer);
      assert State() == s0.(players := ReplaceById(s0.players, updatedPlayer));
      if updatedPlayer.hasWon {
        gameFinished := true;
        winner := Some(updatedPlayer);
      } else {
        NextPlayer();
      }
    }

    method ClearCurrentRound()
      modifies this
      ensures State() == old(State()).(currentRound := EmptyRound)
      ensures old(Valid()) ==> Valid()
    {
      currentRound := EmptyRound;
    }

    method ResetGame()
      modifies this
      ensures State() == InitialState && Valid()
    {
      gameConfig := None;
      players := [];
      currentPlayerIndex := 0;
      currentRound := EmptyRound;
      gameStarted := false;
      gameFinished := false;
      winner := None;
    }

    /** Only called with a current player, so the player count is never 0 here. */
    method NextPlayer()
      requires |players| > 0
      modifies this
      ensures State() == old(State()).(currentPlayerIndex := NextIndex(old(State())))
      ensures currentPlayerIndex < |players|
      ensures old(Valid()) ==> Valid()
    {
      currentPlayerIndex := (currentPlayerIndex + 1) % |players|;
    }

    method UpdatePlayer(updatedPlayer: Player)
      modifies this
      ensures State() == old(State()).(players := ReplaceById(old(players), updatedPlayer))
      ensures old(Valid()) ==> Valid()
    {
      var index := FindIndex(players, updatedPlayer.id);
      if index != -1 {
        players := players[index := updatedPlayer];
      }
    }
  }
}
