# Hand cricket: batting loop, stats update and match-screen guards

Hand cricket is played by two sides, each showing a number each turn.
When the numbers are equal, the batter is out. Otherwise the batter's
number is added to the score as runs. Besides the match engine
(`GameServer`, whose code is not part of this model), the repository
has two parts with logic of their own. This project models and
verifies both, in Dafny:

- **The console game** (`hand_cricket.py`). The player bats a single
  wicket against random computer draws.
  - `HandCricket.PlayInnings` is the `while True` loop written as a
    `while` loop with a `break`.
  - It takes the typed numbers and the die draws up front, as a finite
    sequence of `Turn(player, computer)` pairs.
  - It returns the final score and the number of turns played. It also
    says whether the innings ended with an out or because the input ran
    out.
  - Its contract ties all three results to the spec functions
    `FirstOut`, `InningsScore`, `TurnsPlayed` and `EndingOf`. The lemmas
    state the game's arithmetic over those functions.
- **The web app's match screen** (`App.tsx`).
  - `MatchStats.SaveMatchResult` is the pure stats update made when a
    match ends. It uses the case-insensitive test for "you won" built
    from `JsString.ToLowerCase` and `JsString.Includes`.
  - `MatchController.App` is a class holding the screen's state: whether
    a game exists, the snapshot shown, whether a turn is in flight, the
    stats shown, and the log of stats written.
  - Its methods model typing a name, choosing a difficulty, the guard in
    `startGame`, the in-flight guard in `handlePlayTurn`, and that
    handler's delayed completion.

The match engine that `App.tsx` calls (`GameServer`) is not part of
this model. Neither is the stats store (`StorageService`). What they
return reaches the model as method parameters:
- `StartGame(initial)` receives the new engine's first snapshot.
- `CompleteTurn(newState, storedStats)` receives the engine's snapshot
  after the turn, and the stats the store held when the match ended.

The random draws of `hand_cricket.py` are the `computer` numbers of the
input turns. The same goes for its console input: the typed numbers
are the `player` numbers.

Three points where the model follows the code as written:
- The web app decides the winner by searching the final message for
  the text "you won" (App.tsx:68), and the model does the same.
- The screen controller schedules each turn's resolution with a delay
  (App.tsx:49-57). The model keeps this as two steps: `PlayTurn`
  schedules the turn and `CompleteTurn` resolves it.
- The console loop converts whatever the player types with `int(...)`
  and never checks the range (hand_cricket.py:7). So a negative number
  is added like any other and lowers the score
  (`NegativePickLowersScore`).

## Model

| member | source | states |
|---|---|---|
| `HandCricket.PlayInnings` | hand_cricket.py:4-18 | The loop returns the sum of the player's numbers before the first equal pair and the number of turns run, the out turn included. It reports Out exactly when some turn has equal numbers; then the last turn run is the first such turn. Otherwise it reports InputExhausted, and every turn was run and none was equal. |
| `HandCricket.FirstOut` | hand_cricket.py:11-13 | The index it returns is the first turn with equal numbers, or the length of the input when there is none: no earlier turn is equal, and the turn at that index is. |
| `HandCricket.FirstOutIsFirstMatch` | hand_cricket.py:11-13 | Any index with no equal turn before it and an equal turn at it (or the end of the input) is the stopping index: the innings stops on the first match and on no earlier turn. |
| `HandCricket.ScoreStartsAtZero` | hand_cricket.py:4 | The score before any turn is 0. |
| `HandCricket.ScoreRisesByPick` | hand_cricket.py:14-15 | On each turn before the out, the score rises by exactly the player's number. |
| `HandCricket.LaterTurnsIgnored` | hand_cricket.py:11-18 | Once an out has happened, the turns after it change neither the stopping index, the final score nor the turn count. The final score is the same as that of the input cut just after the out, so the out turn adds no runs. |
| `HandCricket.OffRangePicksNeverOut` | hand_cricket.py:7-11 | If every computer number is in 1..6 and every player number is outside it, the innings never ends by an out and scores every number typed. |
| `HandCricket.SumPicksBounds` | hand_cricket.py:14-15 | Adding n numbers from 1..6 gives a total between n and 6n. |
| `HandCricket.ScoreBounds` | hand_cricket.py:7-15 | After k scoring turns whose numbers are in 1..6, the score lies between k and 6k. |
| `HandCricket.ScoreMonotone` | hand_cricket.py:14-15 | When the player's numbers are non-negative, the score after i turns is at most the score after any later turn, up to the out. |
| `HandCricket.NegativePickLowersScore` | hand_cricket.py:7-15 | Since the input is not checked, a negative number is added like any other: the turns (4,1),(-2,3) end with 2 runs, fewer than after the first turn alone. |
| `JsString.TrimStart` | App.tsx:24 | The result is a suffix of the input, everything dropped is white space, and the result does not start with white space. |
| `JsString.TrimEnd` | App.tsx:24 | The result is a prefix of the input, everything dropped is white space, and the result does not end with white space. |
| `JsString.Trim` | App.tsx:24 | The trimmed name is empty exactly when every character of the name is white space; otherwise it neither starts nor ends with white space. |
| `JsString.TrimEmptyIffBlank` | App.tsx:24 | Trimming both ends leaves nothing exactly when every character is white space, in both directions; this is the fact behind the name guard. |
| `JsString.LowerChar` | App.tsx:68 | An upper-case ASCII letter A-Z becomes its lower-case letter, and every other character is kept, including the non-ASCII capitals that JavaScript would lower (such as 'É'). No upper-case ASCII letter is left. |
| `JsString.ToLowerCase` | App.tsx:68 | The result has the input's length, and each position holds the lowered character of that position. |
| `JsString.ToLowerCaseIdempotent` | App.tsx:68 | Lowering an already lowered string changes nothing. |
| `JsString.Includes` | App.tsx:68 | The search answers true exactly when the searched-for text stands somewhere in the string. |
| `MatchStats.SaveMatchResult` | App.tsx:66-78 | Updated stats: the name becomes the match's player name and matches played rises by 1. Wins rises by 1 with losses unchanged when the win test holds; otherwise losses rises by 1 with wins unchanged. Total runs rises by the final score. The high score is the larger of the old high score and the final score. |
| `MatchStats.IsUserWinner` | App.tsx:68 | The win flag is true exactly when "you won" occurs somewhere in the lower-cased message. |
| `MatchStats.WinsPlusLossesTrackMatches` | App.tsx:73-75 | Exactly one of wins and losses rises by one, so wins + losses − matches played is kept. |
| `MatchStats.WinIffPhraseInMessage` | App.tsx:68-75 | A win is recorded exactly when "you won" occurs somewhere in the lower-cased final message. A loss is recorded exactly when it does not. |
| `MatchStats.UpperCaseWinCounts` | App.tsx:68 | The message "YOU WON!" records a win: the test ignores case. |
| `MatchStats.TieMessageIsLoss` | App.tsx:68-75 | A message without the phrase, for instance "Match tied", is recorded as a loss. |
| `MatchStats.SaveAllTotals` | App.tsx:66-78 | After saving any run of finished matches in order, matches played rose by their number and wins + losses − matches is unchanged. Total runs rose by the sum of their scores. The high score did not drop and is at least every one of their scores. |
| `MatchController.App.constructor` | App.tsx:10-16 | The screen starts with an empty name, Medium difficulty, no game and no snapshot (the home screen). No turn is in flight, no stats are shown and nothing has been written. |
| `MatchController.App.EditName` | App.tsx:107-108 | Typing replaces the name and nothing else. |
| `MatchController.App.ChooseDifficulty` | App.tsx:115-118 | A difficulty button replaces the difficulty and nothing else. |
| `MatchController.App.StartGame` | App.tsx:23-28 | An empty or all-white-space name changes nothing. Otherwise a game exists and the engine's first snapshot is shown with phase Toss; the in-flight flag is not touched. |
| `MatchController.App.PlayTurn` | App.tsx:44-47 | With no game, or while a turn is already in flight, the press changes nothing. Otherwise the turn is marked in flight and the pressed number is the one scheduled. |
| `MatchController.App.CompleteTurn` | App.tsx:49-57 | The resolution shows the engine's new snapshot and clears the in-flight flag. The updated stats are shown and written to the store exactly when the new phase is GameOver, computed by `SaveMatchResult` from the stored stats and that snapshot. In any other phase the stats and the writes are unchanged. |

## Left out

- The match engine (`GameServer`: toss, role choice, turn resolution, target, second innings, computer strategy at each difficulty) is not part of this model. Its snapshots are parameters of `StartGame` and `CompleteTurn`.
- The stats and leaderboard store (`StorageService`) is not part of this model. What `getStats` returns is a parameter of `CompleteTurn`, and `saveStats` is modelled as appending to the `saved` log. The leaderboard reload after a save is not modelled.
- The loading of stats and leaderboard when the screen mounts (App.tsx:18-21) reads the store, so it is not modelled; `stats` starts empty.
- `handleToss`, `handleTossDecision`, `handleNextInnings` and `resetGame` (App.tsx:30-42, 60-64, 85-88) are not modelled.
  - `handleToss` also sets `isProcessing` to true before its engine call and back to false after it (App.tsx:32, 35). The model does not show this: in the model the flag is only ever set by a turn, so `Valid()` can tie it to a pending turn.
  - `handleTossDecision` and `handleNextInnings` put the engine's new snapshot on screen.
  - `resetGame` clears both the game and the snapshot (App.tsx:86-87). So the model cannot show one behaviour of the code: a turn resolution still pending when the player quits would put its snapshot back on screen.
- The 400 ms delay is not modelled as time, and neither is the asynchronous engine call. They are two steps, `PlayTurn` and `CompleteTurn`. React's batching of state updates is not modelled either. Neither is its stale view of `isProcessing` inside one render. So two presses before a re-render are not modelled.
- Console printing, and the parsing of typed text by `int(...)`, are not modelled. A text that is not a number raises an error in the code; there is no such error in the model, whose input is already integers. Running out of input is modelled as the `InputExhausted` ending; in the code it would raise an error.
- `random.randint(1, 6)` is replaced by the supplied computer numbers. `PlayInnings` accepts any integers there. The range 1..6 is a requirement only of the lemma that depends on it (`OffRangePicksNeverOut`).
- JavaScript numbers are IEEE doubles. The model uses unbounded integers for scores and counts, so NaN, infinities and rounding are not modelled.
- `JsString.LowerChar` and `JsString.ToLowerCase`: lower only the ASCII letters A-Z. JavaScript's `toLowerCase` also lowers other Unicode letters. For the search for "you won" this makes no difference. Only two characters outside ASCII lower to something that contains an ASCII letter. The Kelvin sign lowers to `k`. The dotted capital I (U+0130) lowers to two characters, `i` followed by U+0307. The phrase contains neither `k` nor `i`.
- `MatchStats.SaveMatchResult`: the record has exactly the six fields of `PlayerStats`, so the model does not show the object spread carrying over any extra fields a stored record might hold.
- All rendering, styling and the `Scoreboard` and `HandIcon` components are presentation only.
