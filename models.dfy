// The data model of the darts scorer: throws, rounds, players and the
// match configuration (src/app/models/*.model.ts).

module Models {

  /** A value that may be absent; stands for TypeScript's `T | null`. */
  datatype Option<T> = None | Some(value: T)

  /** `1 | 2 | 3`: single, double or triple. */
  type Multiplier = m: int | 1 <= m <= 3 witness 1

  /** One dart. `score` is meant to be `value * multiplier`, but nothing in the type enforces it. */
  datatype Throw = Throw(value: int, multiplier: Multiplier, score: int)

  /** Up to three throws of one turn and their running total. */
  datatype Round = Round(throws: seq<Throw>, totalScore: int)

  datatype Player = Player(id: string, name: string, currentScore: int, rounds: seq<Round>, hasWon: bool)

  /** `101 | 301 | 501 | 701`. */
  type GameType = g: int | g == 101 || g == 301 || g == 501 || g == 701 witness 301

  /** `'calculating' | 'input' | 'touch'`. */
  datatype InputMode = Calculating | Input | Touch

  datatype GameConfig = GameConfig(
    gameType: GameType,
    startingScore: int,
    playerNames: seq<string>,
    inputMode: InputMode)
}
