/** The record shapes the match screens exchange with the engine and
    the stats store (types.ts). They carry no behaviour of their own. */
module Types {

  datatype Option<T> = None | Some(value: T)

  datatype Difficulty = Easy | Medium | Hard

  datatype PlayerRole = Batting | Bowling

  /** `Home` is the name-entry screen; the others are the phases of a match. */
  datatype GamePhase = Home | Toss | TossResult | Innings1 | MidInnings | Innings2 | GameOver

  /** Aggregate results of one player across matches. */
  datatype PlayerStats = PlayerStats(
    name: string,
    matchesPlayed: int,
    wins: int,
    losses: int,
    totalRuns: int,
    highScore: int)

  /** One played turn as the engine logs it. */
  datatype HistoryEntry = HistoryEntry(user: int, ai: int, role: PlayerRole)

  type InningsNumber = n: int | n == 1 || n == 2 witness 1

  /** The snapshot of a match that the engine hands to the screens. */
  datatype GameState = GameState(
    playerName: string,
    difficulty: Difficulty,
    phase: GamePhase,
    userRole: PlayerRole,
    currentInnings: InningsNumber,
    score: int,
    wickets: int,
    target: Option<int>,
    userLastChoice: Option<int>,
    aiLastChoice: Option<int>,
    history: seq<HistoryEntry>,
    isOut: bool,
    message: string)
}
