/** The stats update made when a match ends (saveMatchResult in App.tsx):
    a pure function from the stored stats and the final match snapshot to
    the stats that are written back. */
module MatchStats {
  import opened Types
  import opened JsString

  /** The phrase whose presence in the final narration marks a win. */
  const WinPhrase: string := "you won"

  /** The win test: the lower-cased final message contains the phrase. */
  function IsUserWinner(message: string): (won: bool)
    ensures won <==> Contains(ToLowerCase(message), WinPhrase)
  {
    Includes(ToLowerCase(message), WinPhrase)
  }

  /** The stats after one more finished match. */
  function SaveMatchResult(current: PlayerStats, final: GameState): (r: PlayerStats)
    ensures r.name == final.playerName
    ensures r.matchesPlayed == current.matchesPlayed + 1
    ensures IsUserWinner(final.message) ==> r.wins == current.wins + 1 && r.losses == current.losses
    ensures !IsUserWinner(final.message) ==> r.wins == current.wins && r.losses == current.losses + 1
    ensures r.totalRuns == current.totalRuns + final.score
    ensures r.highScore >= current.highScore && r.highScore >= final.score
    ensures r.highScore == current.highScore || r.highScore == final.score
  {
    var won := IsUserWinner(final.message);
    current.(
      name := final.playerName,
      matchesPlayed := current.matchesPlayed + 1,
      wins := current.wins + (if won then 1 else 0),
      losses := current.losses + (if won then 0 else 1),
      totalRuns := current.totalRuns + final.score,
      highScore := if current.highScore >= final.score then current.highScore else final.score)
  }

  /** Every match is counted once, as a win or as a loss, never both. */
  lemma WinsPlusLossesTrackMatches(current: PlayerStats, final: GameState)
    ensures var r := SaveMatchResult(current, final);
      r.wins + r.losses - r.matchesPlayed == current.wins + current.losses - current.matchesPlayed
    ensures var r := SaveMatchResult(current, final);
      (r.wins - current.wins) + (r.losses - current.losses) == 1
  {
  }

  /** A win is recorded exactly when "you won" stands in the message, in any
      mix of upper- and lower-case ASCII letters. */
  lemma WinIffPhraseInMessage(current: PlayerStats, final: GameState)
    ensures SaveMatchResult(current, final).wins == current.wins + 1
      <==> Contains(ToLowerCase(final.message), WinPhrase)
    ensures SaveMatchResult(current, final).losses == current.losses + 1
      <==> !Contains(ToLowerCase(final.message), WinPhrase)
  {
  }

  /** Capital letters do not hide a win. */
  lemma UpperCaseWinCounts(current: PlayerStats, final: GameState)
    requires final.message == "YOU WON!"
    ensures SaveMatchResult(current, final).wins == current.wins + 1
  {
    assert OccursAt(ToLowerCase(final.message), WinPhrase, 0);
  }

  /** A message without the phrase, for instance "Match tied", is recorded as a loss. */
  lemma TieMessageIsLoss(current: PlayerStats, final: GameState)
    requires final.message == "Match tied"
    ensures SaveMatchResult(current, final).losses == current.losses + 1
  {
    var lower := ToLowerCase(final.message);
    assert lower == "match tied";
    forall i: nat ensures !OccursAt(lower, WinPhrase, i) {
      if i + |WinPhrase| <= |lower| {
        assert lower[i..i + |WinPhrase|][0] == lower[i] != 'y';
      }
    }
  }

  /** The stats after a run of finished matches, saved in order. */
  function SaveAll(current: PlayerStats, finals: seq<GameState>): PlayerStats {
    if finals == [] then current
    else SaveMatchResult(SaveAll(current, finals[..|finals| - 1]), finals[|finals| - 1])
  }

  function TotalScore(finals: seq<GameState>): int {
    if finals == [] then 0 else TotalScore(finals[..|finals| - 1]) + finals[|finals| - 1].score
  }

  /** Over any run of matches: each is counted once, the runs add up, and the
      high score never drops and is at least every final score. */
  lemma {:induction false} SaveAllTotals(current: PlayerStats, finals: seq<GameState>)
    ensures SaveAll(current, finals).matchesPlayed == current.matchesPlayed + |finals|
    ensures var r := SaveAll(current, finals);
      r.wins + r.losses - r.matchesPlayed == current.wins + current.losses - current.matchesPlayed
    ensures SaveAll(current, finals).totalRuns == current.totalRuns + TotalScore(finals)
    ensures SaveAll(current, finals).highScore >= current.highScore
    ensures forall k :: 0 <= k < |finals| ==> SaveAll(current, finals).highScore >= finals[k].score
  {
    if finals != [] {
      var init := finals[..|finals| - 1];
      SaveAllTotals(current, init);
      forall k | 0 <= k < |finals| - 1
        ensures SaveAll(current, finals).highScore >= finals[k].score
      {
        assert finals[k] == init[k];
      }
    }
  }
}
