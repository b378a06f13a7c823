# dartomat scoring core in Dafny

This project models the scoring and turn engine of the dartomat darts scorer and the small pieces of entry logic around it:

- `ScoreService` decides whether a throw is possible on a board: segments 1 to 20 and the bull at 25, with no triple bull. It also scores throws and rounds, checks that a round can be taken off a score, and checks the win condition.
- `GameStateService` is the match engine. It holds the players, the current player index, the active round and the started/finished/winner flags. It starts a match, collects up to three darts, and commits a round or a manual total. On a commit it detects a bust (the score would go below zero) or a win (the score reaches exactly zero) and passes the turn round-robin.
- The components add the entry logic: the calculator keypad's three-digit buffer (`CalculatingMode`), the player list and match configuration (`GameSetup`), dart-by-dart entry with undo by replay (`InputMode`), and the scoreboard's column count (`Scoreboard`).

Layout: one module per source file. `models.dfy` holds the records. `decimal.dfy` holds `parseInt` on digit strings and the decimal text inside `player-${index}`. Then `score.dfy`, `game_state.dfy`, `calculating_mode.dfy`, `game_setup.dfy`, `input_mode.dfy` and `scoreboard.dfy`.

`GameStateService` is a class with the service's seven fields, and its methods update them in place. `State()` packs the fields into a `MatchState` value. Each method is proved to leave `State()` equal to a pure transition of the old state: `Started`, `AfterAddThrow`, `AfterSubmitRound`, `AfterManualScore`, `InitialState`. The darts rules are proved as lemmas about those transitions. `Inv` holds in every reachable state:

- the index points at a player, or there are no players;
- player `i` has id `player-i`;
- the active round has at most three legal throws, and its `totalScore` is their sum.

The constructor, `StartGame` and `ResetGame` establish `Inv`, and every other method preserves it.

The engine is modelled as written, including its asymmetries:

- A winning round is not cleared, and the turn does not pass.
- A manual-entry bust passes the turn and leaves the active round as it was.
- Nothing stops submissions after the match is finished. `SubmitAfterWinPassesTurn` shows that a second submission after a win busts the winner and moves the turn on.

In two places the code is looser than one might expect, and the model follows the code:

- `startGame` accepts an empty name list. The match then has no current player, and both submissions do nothing.
- The finished state is not frozen.

## Model

| member | source | states |
|---|---|---|
| Decimal.ParseInt | src/app/components/calculating-mode/calculating-mode.ts:22 | parseInt of a non-empty digit string: its value is below 10^length and at least its leading digit times 10^(length-1) |
| Decimal.ParseIntDropLast | src/app/components/calculating-mode/calculating-mode.ts:36-40 | removing the last digit divides the parsed value by ten, so the value never grows |
| Decimal.NatToString | src/app/services/game-state.ts:50 | the decimal text of an index is a non-empty digit string without a leading zero that parses back to the index |
| Score.ValidateThrow | src/app/services/score.ts:12-27 | a throw is accepted iff its value is 1..20, or 25 with multiplier 1 or 2; so values below 1, above 25, 21..24 and the triple bull are refused |
| Score.CalculateThrowScore | src/app/services/score.ts:32-34 | a single counts the segment once, a double twice, a triple three times |
| Score.CreateThrow | src/app/services/score.ts:69-75 | the throw keeps value and multiplier as given and carries their score, and a throw that validateThrow accepts scores 1..60 |
| Score.LegalThrowScore | src/app/services/score.ts:12-34 | every legal dart scores between 1 and 60 |
| Score.SumScores | src/app/services/score.ts:40 | the left fold over throw scores is non-negative for non-negative scores, and between n and 60n for n well-formed legal throws |
| Score.SumScoresAppend | src/app/services/score.ts:40 | adding a throw at the end adds its score to the sum |
| Score.CalculateRoundScore | src/app/services/score.ts:39-41 | an empty round scores 0, and a round of at most three well-formed legal throws scores 0..180 |
| Score.CanSubtractScore | src/app/services/score.ts:47-50 | true iff the round score does not exceed the current score |
| Score.CheckWinCondition | src/app/services/score.ts:56-64 | true iff the score is exactly 0, whatever the last throw |
| GameState.PlayerIdInjective | src/app/services/game-state.ts:49-50 | ids `player-i` and `player-j` are equal only when i = j |
| GameState.PlayerAt | src/app/services/game-state.ts:31-35 | the current player (`GameStateService.CurrentPlayer`) exists iff the index is below the player count, and is then the player at the index |
| GameState.Started | src/app/services/game-state.ts:46-63 | one player per name in order (built by `NewPlayers`) with id `player-i`, the starting score, no rounds and not won; index 0, empty round, started, not finished, no winner; the invariant holds |
| GameState.AfterAddThrow | src/app/services/game-state.ts:68-88 | with 3 throws already or an invalid throw nothing changes; otherwise only the active round changes, with the throw appended and its score added; the invariant is preserved |
| GameState.ReplayThrow | src/app/components/input-mode/input-mode.ts:45 | adding a legal throw to a round of fewer than three throws that holds their sum yields the round of the longer list with its sum, nothing else changing |
| GameState.DropLastThrow | src/app/components/input-mode/input-mode.ts:41-43 | a valid round without its last throw has fewer than three throws, all legal, summing to the round total less the last throw's score |
| GameState.FindIndex | src/app/services/game-state.ts:209 | findIndex gives the first position with the id, or -1 exactly when no player has it |
| GameState.ReplaceById | src/app/services/game-state.ts:207-216 | updatePlayer: with no slot holding the id the list is unchanged; otherwise the first such slot (as FindIndex gives it) becomes the updated player and every other slot stays. The length and every slot's id are kept |
| GameState.ReplaceCurrentPlayer | src/app/services/game-state.ts:207-216 | under the invariant, updating the current player overwrites exactly the current slot |
| GameState.NextIndex | src/app/services/game-state.ts:198-202 | the next index is below the player count: the following player, wrapping from the last to 0 |
| GameState.AfterSubmitRound | src/app/services/game-state.ts:94-133 | with no current player nothing changes; the invariant is preserved |
| GameState.AfterManualScore | src/app/services/game-state.ts:138-173 | with no current player nothing changes; the active round is never touched; the invariant is preserved |
| GameState.SubmitRoundBust | src/app/services/game-state.ts:103-111 | when the round exceeds the score the players are unchanged, the round is emptied, the index becomes (i+1) mod n and stays below n, and config and flags stay |
| GameState.SubmitRoundCommit | src/app/services/game-state.ts:113-132 | otherwise only the current player's entry changes: the score drops by exactly the round total and stays at least 0, and the round is appended. hasWon matches checkWinCondition. A win sets finished and winner = that player and keeps the index and the round; otherwise the round is cleared and the turn passes |
| GameState.ManualScoreBust | src/app/services/game-state.ts:145-151 | a manual bust changes nothing but the index, which becomes (i+1) mod n: players, active round, config and flags all stay |
| GameState.ManualScoreCommit | src/app/services/game-state.ts:153-172 | a manual commit changes only the current player (the record `Committed` builds): the score drops by exactly the total, and `{throws: [], totalScore: score}` is appended. Config, the started flag and the active round stay. A win finishes the match with that winner; otherwise the turn passes |
| GameState.SubmitAfterWinPassesTurn | src/app/services/game-state.ts:94-133 | after a win with a positive round total, a further submitRound busts the winner, clears the round and passes the turn, and the match stays finished |
| GameState.GameStateService.constructor | src/app/services/game-state.ts:11-26 | the fields start as no config, no players, index 0, empty round, not started, not finished, no winner |
| GameState.GameStateService.StartGame | src/app/services/game-state.ts:46-63 | the new state is `Started(config)` whatever came before, and the invariant holds |
| GameState.GameStateService.AddThrow | src/app/services/game-state.ts:68-88 | returns false exactly when the round is full or the throw invalid; the new state is `AfterAddThrow`; the invariant is preserved |
| GameState.GameStateService.SubmitRound | src/app/services/game-state.ts:94-133 | the new state is `AfterSubmitRound` of the old; the invariant is preserved |
| GameState.GameStateService.SubmitManualScore | src/app/services/game-state.ts:138-173 | the new state is `AfterManualScore` of the old; the invariant is preserved |
| GameState.GameStateService.ClearCurrentRound | src/app/services/game-state.ts:178-180 | only the active round changes, to the empty round |
| GameState.GameStateService.ResetGame | src/app/services/game-state.ts:185-193 | every field gets back its initial value |
| GameState.GameStateService.NextPlayer | src/app/services/game-state.ts:198-202 | only the index changes, to (i+1) mod n, and it ends below n; the invariant is preserved |
| GameState.GameStateService.UpdatePlayer | src/app/services/game-state.ts:207-216 | only the players change, as `ReplaceById` says; the invariant is preserved |
| CalculatingModeComponent.DisplayScore | src/app/components/calculating-mode/calculating-mode.ts:58 | an empty display counts as 0, otherwise the parsed value, below 10^length |
| CalculatingModeComponent.SilentFourthDigit | src/app/components/calculating-mode/calculating-mode.ts:25-30 | a fourth digit is refused with no error only when the three digits shown start with 0 |
| CalculatingModeComponent.CalculatingMode.constructor | src/app/components/calculating-mode/calculating-mode.ts:13-14 | empty display and no error |
| CalculatingModeComponent.CalculatingMode.AppendDigit | src/app/components/calculating-mode/calculating-mode.ts:19-31 | the digit is appended iff the result has at most 3 digits and is at most 180, and the error is cleared; a value above 180 sets "Maximum possible score is 180"; otherwise nothing changes; the 3-digit/180 bound is preserved |
| CalculatingModeComponent.CalculatingMode.Backspace | src/app/components/calculating-mode/calculating-mode.ts:36-40 | exactly the last character goes (nothing on an empty display), the error is cleared, and the bound is preserved |
| CalculatingModeComponent.CalculatingMode.Clear | src/app/components/calculating-mode/calculating-mode.ts:45-48 | display and error are both emptied |
| CalculatingModeComponent.CalculatingMode.SubmitScore | src/app/components/calculating-mode/calculating-mode.ts:53-80 | with no current player, or a score above 180, only the error is set and engine and display are unchanged. Otherwise the engine takes the manual score (empty counts as 0) and display and error are emptied |
| GameSetupComponent.TrimStartCut | src/app/components/game-setup/game-setup.ts:34 | by induction over the input: stripping the front leaves a suffix whose removed prefix is all white space and which does not start with white space |
| GameSetupComponent.TrimEndCut | src/app/components/game-setup/game-setup.ts:34 | by induction over the input: stripping the back leaves a prefix whose removed suffix is all white space and which does not end with white space |
| GameSetupComponent.TrimStartSpec | src/app/components/game-setup/game-setup.ts:34 | stripping the front removes only white space: it leaves a suffix of the input whose removed prefix is all white space, that does not start with white space, and that is empty iff the input is blank |
| GameSetupComponent.TrimEndSpec | src/app/components/game-setup/game-setup.ts:34 | stripping the back removes only white space: it leaves a prefix of the input whose removed suffix is all white space, that does not end with white space, and that is empty iff the input is blank |
| GameSetupComponent.TrimSlice | src/app/components/game-setup/game-setup.ts:34 | `Trim` is the slice between the leading and trailing white space, which surround it, and a non-empty result neither starts nor ends with white space |
| GameSetupComponent.TrimBlank | src/app/components/game-setup/game-setup.ts:34 | `Trim` gives the empty string iff the input is all white space |
| GameSetupComponent.TrimSpec | src/app/components/game-setup/game-setup.ts:34 | `Trim` (`s.trim()`) is a slice `s[a..b]` with only white space before `a` and from `b` on; it neither starts nor ends with white space, and it is empty iff `s` is blank |
| GameSetupComponent.TrimIdempotent | src/app/components/game-setup/game-setup.ts:34 | trimming twice is trimming once |
| GameSetupComponent.RemoveAt | src/app/components/game-setup/game-setup.ts:46 | the filter removes exactly the entry at the index and keeps the rest in order; an index out of range changes nothing |
| GameSetupComponent.NonBlankNames | src/app/components/game-setup/game-setup.ts:53 | the filter keeps entries of the input only, keeps every entry that is non-blank after trimming and no blank one, and is empty iff every entry is blank |
| GameSetupComponent.CanStartGame | src/app/components/game-setup/game-setup.ts:52-55 | true iff some entry is non-blank after trimming |
| GameSetupComponent.TrimAll | src/app/components/game-setup/game-setup.ts:66 | the map keeps the number of entries, and entry i becomes `Trim` of entry i |
| GameSetupComponent.DropEmpty | src/app/components/game-setup/game-setup.ts:67 | the filter keeps exactly the non-empty entries: each kept entry is non-empty and from the input, and every non-empty entry is kept |
| GameSetupComponent.ValidNamesInOrder | src/app/components/game-setup/game-setup.ts:65-67 | `ValidNames` (map trim, then drop empty) equals the non-blank entries in their original order, each trimmed |
| GameSetupComponent.TrimAllOfTrimmed | src/app/components/game-setup/game-setup.ts:66 | mapping trim over already trimmed entries changes nothing |
| GameSetupComponent.DropEmptyDistinct | src/app/components/game-setup/game-setup.ts:67 | filtering a duplicate-free list keeps it duplicate-free |
| GameSetupComponent.ValidNamesDistinct | src/app/components/game-setup/game-setup.ts:33-40 | a duplicate-free list of trimmed entries gives duplicate-free configured names |
| GameSetupComponent.RemoveAtDistinct | src/app/components/game-setup/game-setup.ts:45-47 | removing an entry from a duplicate-free list keeps it duplicate-free |
| GameSetupComponent.RemoveAtTrimmed | src/app/components/game-setup/game-setup.ts:45-47 | removing an entry from a list of trimmed entries keeps every entry trimmed |
| GameSetupComponent.AppendDistinct | src/app/components/game-setup/game-setup.ts:35-37 | appending a name that is not listed keeps the list duplicate-free |
| GameSetupComponent.AppendTrimmed | src/app/components/game-setup/game-setup.ts:34-37 | appending a trimmed name keeps every entry trimmed |
| GameSetupComponent.GameSetup.constructor | src/app/components/game-setup/game-setup.ts:14-17 | one blank entry, game type 301, calculating mode, empty input |
| GameSetupComponent.GameSetup.AddPlayer | src/app/components/game-setup/game-setup.ts:33-40 | the trimmed input is appended at the end and the input cleared iff it is non-empty and not already listed; otherwise list and input are unchanged; the list stays trimmed and duplicate-free |
| GameSetupComponent.GameSetup.RemovePlayer | src/app/components/game-setup/game-setup.ts:45-47 | the list becomes `RemoveAt(list, index)`, nothing else changes, and the list stays trimmed and duplicate-free |
| GameSetupComponent.GameSetup.StartGame | src/app/components/game-setup/game-setup.ts:60-77 | nothing is emitted iff canStartGame is false. Otherwise the config has the trimmed non-blank names in order (at least one, none empty, duplicate-free for a list edited only by add/remove); startingScore = gameType = the selected type, one of 101/301/501/701; and the selected input mode |
| InputModeComponent.InputMode.constructor | src/app/components/input-mode/input-mode.ts:16 | no error shown |
| InputModeComponent.InputMode.AddDartThrow | src/app/components/input-mode/input-mode.ts:24-35 | the engine receives createThrow(value, multiplier) with score value*multiplier; the error is set iff the engine refuses the throw, for any reason, and cleared otherwise |
| InputModeComponent.InputMode.UndoLastThrow | src/app/components/input-mode/input-mode.ts:40-48 | clearing the round and replaying the kept throws one by one leaves the engine in `AfterUndo` of its old state (the round minus its last throw, or unchanged when empty), with the invariant kept; the error is cleared on a non-empty round and left alone on an empty one |
| InputModeComponent.UndoDropsLastThrow | src/app/components/input-mode/input-mode.ts:40-48 | `AfterUndo` keeps the earlier throws in order, lowers the total by the last throw's score, changes nothing else in the match and keeps the invariant; an empty round is left unchanged |
| InputModeComponent.InputMode.SubmitRound | src/app/components/input-mode/input-mode.ts:53-56 | the engine takes the `AfterSubmitRound` step and the error is cleared |
| InputModeComponent.InputMode.ClearRound | src/app/components/input-mode/input-mode.ts:61-64 | the engine's active round is emptied and the error is cleared |
| ScoreboardComponent.ColumnCount | src/app/components/scoreboard/scoreboard.ts:14-20 | 1 column for up to 2 players, otherwise half the players rounded up, capped at 4; always 1..4 |
| ScoreboardComponent.ColumnCountMonotone | src/app/components/scoreboard/scoreboard.ts:14-20 | more players never give fewer columns |

## Left out

- src/app/services/theme.ts is not part of this model. It reads the system colour preference and writes a DOM attribute, which is I/O with no game meaning.
- src/app/components/touch-mode/touch-mode.ts, src/app/app.ts and src/app/components/game-container/game-container.ts are not part of this model. They hold constants or only forward to `startGame`/`resetGame`.
- Angular's `signal`, `computed`, `inject`, `@Injectable` and `output().emit` are not modelled as such. Signals are plain fields, `computed` views are functions, and the emitted configuration is the return value of `GameSetup.StartGame`. Change notification is not modelled.
- `ScoreService` has no state, so its members are module functions. The engine's `scoreService` constructor parameter is dropped.
- The `setTimeout` that clears the input-mode error after two seconds is not modelled. It is timer-driven.
- The HTML templates are not modelled. Any direct binding from a template to `playerNames`, `newPlayerName`, `selectedGameType` or `selectedInputMode` is outside the model. The "trimmed and duplicate-free" list property therefore holds only for edits made through `addPlayer`/`removePlayer`.
- `InputMode.dartValues` and `GameSetup.gameTypes`/`inputModes` are left out. They are display lists for the templates. The selected game type is one of 101/301/501/701 by its type.
- JavaScript numbers are modelled as unbounded integers. Floats and NaN are not modelled.
- `parseInt` is modelled on non-empty decimal-digit strings only.
- CalculatingModeComponent.CalculatingMode.AppendDigit: requires the pressed key to be a digit and the display to be a digit string, because parseInt is modelled on digits only.
- CalculatingModeComponent.CalculatingMode.SubmitScore: the `isNaN(score) || score < 0` branch ("Please enter a valid score") is left out. The display holds only digits, so that branch cannot be taken.
- GameState.GameStateService.NextPlayer: requires at least one player. With none, the source would store NaN as the index. It is only called when a current player exists.
- InputModeComponent.InputMode.UndoLastThrow: requires the engine's invariant. The replay relies on the kept throws having been accepted before.
- `String.prototype.trim` is modelled with the ECMAScript white-space and line-terminator characters written out.
- `winner` holds a copy of the player record rather than a reference to the object in the array. The two are equal when set, and no later update in the source reaches that object.
- The double-out finishing rule is not modelled. The source only mentions it in comments and does not implement it.
