/** The match screen's controller state (App.tsx): which game is running,
    whether a turn is being resolved, and the stats last written. The engine
    and the stats store are not part of this model: what they return comes
    in as parameters. */
module MatchController {
  import opened Types
  import opened JsString
  import MatchStats

  class App {
    /** The text in the name box and the chosen difficulty. */
    var playerName: string
    var difficulty: Difficulty
    /** Whether an engine object exists, and the snapshot on screen. */
    var hasGame: bool
    var gameState: Option<GameState>
    /** True from a turn request until its delayed resolution has run. (The
        code also holds it true while a toss is resolved; the toss handler is
        not part of this model, so here it marks turns only.) */
    var isProcessing: bool
    /** The number captured by the scheduled resolution, while one is pending. */
    var pendingTurn: Option<int>
    /** The stats shown on screen, and every stats record written to the store, in order. */
    var stats: Option<PlayerStats>
    var saved: seq<PlayerStats>

    /** The controller's invariant. The middle conjunct ties the flag to a
        pending turn, which holds because only turns set the flag here. */
    ghost predicate Valid()
      reads this
    {
      (hasGame <==> gameState.Some?) &&
      (isProcessing <==> pendingTurn.Some?) &&
      (isProcessing ==> hasGame)
    }

    /** The screen being shown: the name-entry screen while no snapshot exists. */
    function Phase(): GamePhase
      reads this
    {
      match gameState
      case None => Home
      case Some(g) => g.phase
    }

    constructor ()
      ensures Valid()
      ensures playerName == [] && difficulty == Medium
      ensures !hasGame && gameState == None && Phase() == Home
      ensures !isProcessing && pendingTurn == None
      ensures stats == None && saved == []
    {
      playerName := [];
      difficulty := Medium;
      hasGame := false;
      gameState := None;
      isProcessing := false;
      pendingTurn := None;
      stats := None;
      saved := [];
    }

    /** Typing in the name box replaces the name and nothing else. */
    method EditName(name: string)
      modifies this`playerName
      ensures playerName == name
    {
      playerName := name;
    }

    /** Picking a difficulty button replaces the difficulty and nothing else. */
    method ChooseDifficulty(d: Difficulty)
      modifies this`difficulty
      ensures difficulty == d
    {
      difficulty := d;
    }

    /** Start a match. A blank name (empty or only white space) is refused
        and nothing changes; otherwise a new engine exists and its first
        snapshot is shown with the phase forced to Toss. `initial` is the
        snapshot the new engine reports for this name and difficulty. */
    method StartGame(initial: GameState)
      requires Valid()
      modifies this`hasGame, this`gameState
      ensures Valid()
      ensures IsBlank(playerName) ==> hasGame == old(hasGame) && gameState == old(gameState)
      ensures !IsBlank(playerName) ==>
        hasGame && gameState == Some(initial.(phase := Toss)) && Phase() == Toss
    {
      if Trim(playerName) == [] {
        return;
      }
      hasGame := true;
      gameState := Some(initial.(phase := Toss));
    }

    /** A press of a number button. Ignored with no game or while a turn is
        being resolved; otherwise marks a turn in flight and schedules its
        resolution with the pressed number. */
    method PlayTurn(num: int)
      requires Valid()
      modifies this`isProcessing, this`pendingTurn
      ensures Valid()
      ensures !old(hasGame) || old(isProcessing) ==>
        isProcessing == old(isProcessing) && pendingTurn == old(pendingTurn)
      ensures old(hasGame) && !old(isProcessing) ==>
        isProcessing && pendingTurn == Some(num)
    {
      if !hasGame || isProcessing {
        return;
      }
      isProcessing := true;
      pendingTurn := Some(num);
    }

    /** The scheduled resolution of a turn, run once after the delay.
        `newState` is the engine's snapshot after playing the pending number;
        `storedStats` is what the store holds at that moment. The snapshot
        is shown, the turn is no longer in flight, and the stats are updated
        and written exactly when the match is over. */
    method CompleteTurn(newState: GameState, storedStats: PlayerStats)
      requires Valid() && isProcessing
      modifies this`gameState, this`isProcessing, this`pendingTurn, this`stats, this`saved
      ensures Valid()
      ensures gameState == Some(newState) && Phase() == newState.phase
      ensures !isProcessing && pendingTurn == None
      ensures newState.phase == GameOver ==>
        var updated := MatchStats.SaveMatchResult(storedStats, newState);
        stats == Some(updated) && saved == old(saved) + [updated]
      ensures newState.phase != GameOver ==> stats == old(stats) && saved == old(saved)
    {
      gameState := Some(newState);
      isProcessing := false;
      pendingTurn := None;
      if newState.phase == GameOver {
        var updated := MatchStats.SaveMatchResult(storedStats, newState);
        saved := saved + [updated];
        stats := Some(updated);
      }
    }
  }
}
