/** The console game: one wicket, the player bats until the computer
    draws the same number. The typed numbers and the random draws are
    supplied up front as a finite sequence of turns. */
module HandCricket {

  /** One turn: the number the player typed and the number the computer drew. */
  datatype Turn = Turn(player: int, computer: int)

  /** Why the innings stopped: the batter was out, or there was no more input. */
  datatype Ending = Out | InputExhausted

  /** Equal numbers dismiss the batter. */
  predicate IsOut(t: Turn) {
    t.player == t.computer
  }

  /** Every computer number is one that a fair six-sided draw can give. */
  predicate DieDraws(turns: seq<Turn>) {
    forall i :: 0 <= i < |turns| ==> 1 <= turns[i].computer <= 6
  }

  /** The index of the first dismissal, or |turns| when nobody is out. */
  function FirstOut(turns: seq<Turn>): (k: nat)
    ensures k <= |turns|
    ensures forall j :: 0 <= j < k ==> !IsOut(turns[j])
    ensures k < |turns| ==> IsOut(turns[k])
  {
    if turns == [] then 0
    else if IsOut(turns[0]) then 0
    else 1 + FirstOut(turns[1..])
  }

  /** The sum of the player's numbers over `turns`. */
  function SumPicks(turns: seq<Turn>): int {
    if turns == [] then 0
    else SumPicks(turns[..|turns| - 1]) + turns[|turns| - 1].player
  }

  /** The total on the board after the first `i` turns, while none of them was out. */
  function ScoreAfter(turns: seq<Turn>, i: nat): int
    requires i <= |turns|
  {
    SumPicks(turns[..i])
  }

  /** The final score: the player's numbers before the first dismissal. */
  function InningsScore(turns: seq<Turn>): int {
    ScoreAfter(turns, FirstOut(turns))
  }

  /** How many turns the loop runs: up to and including the out, or all of them. */
  function TurnsPlayed(turns: seq<Turn>): (n: nat)
    ensures n <= |turns|
  {
    if FirstOut(turns) < |turns| then FirstOut(turns) + 1 else |turns|
  }

  function EndingOf(turns: seq<Turn>): Ending {
    if FirstOut(turns) < |turns| then Out else InputExhausted
  }

  /** The turn loop: add the player's number on every turn until the two
      numbers match, and stop there. */
  method PlayInnings(turns: seq<Turn>) returns (score: int, played: nat, ending: Ending)
    ensures score == InningsScore(turns)
    ensures played == TurnsPlayed(turns)
    ensures ending == EndingOf(turns)
    ensures ending == Out <==> exists i :: 0 <= i < |turns| && IsOut(turns[i])
    ensures ending == Out ==>
      1 <= played && IsOut(turns[played - 1]) &&
      forall j :: 0 <= j < played - 1 ==> !IsOut(turns[j])
    ensures ending == InputExhausted ==>
      played == |turns| && forall j :: 0 <= j < |turns| ==> !IsOut(turns[j])
  {
    score := 0;
    played := 0;
    ending := InputExhausted;
    while played < |turns|
      invariant played <= |turns|
      invariant forall j :: 0 <= j < played ==> !IsOut(turns[j])
      invariant score == ScoreAfter(turns, played)
    {
      var t := turns[played];
      if t.player == t.computer {
        FirstOutIsFirstMatch(turns, played);
        played := played + 1;
        ending := Out;
        break;
      }
      assert turns[..played + 1][..played] == turns[..played];
      score := score + t.player;
      played := played + 1;
    }
    if ending == InputExhausted {
      FirstOutIsFirstMatch(turns, played);
    }
  }

  /** FirstOut is pinned down by its two defining facts. */
  lemma FirstOutIsFirstMatch(turns: seq<Turn>, k: nat)
    requires k <= |turns|
    requires forall j :: 0 <= j < k ==> !IsOut(turns[j])
    requires k < |turns| ==> IsOut(turns[k])
    ensures FirstOut(turns) == k
  {
  }

  /** No runs are on the board before the first turn. */
  lemma ScoreStartsAtZero(turns: seq<Turn>)
    ensures ScoreAfter(turns, 0) == 0
  {
    assert turns[..0] == [];
  }

  /** A turn before the out adds exactly the player's number. */
  lemma ScoreRisesByPick(turns: seq<Turn>, i: nat)
    requires i < FirstOut(turns)
    ensures ScoreAfter(turns, i + 1) == ScoreAfter(turns, i) + turns[i].player
  {
    assert turns[..i + 1][..i] == turns[..i];
  }

  /** The out turn adds nothing, and every turn after it is never read. */
  lemma LaterTurnsIgnored(turns: seq<Turn>, more: seq<Turn>)
    requires EndingOf(turns) == Out
    ensures FirstOut(turns + more) == FirstOut(turns)
    ensures InningsScore(turns + more) == InningsScore(turns)
    ensures TurnsPlayed(turns + more) == TurnsPlayed(turns)
    ensures InningsScore(turns[..TurnsPlayed(turns)]) == InningsScore(turns)
  {
    var k := FirstOut(turns);
    var all := turns + more;
    FirstOutIsFirstMatch(all, k);
    assert all[..k] == turns[..k];
    var cut := turns[..k + 1];
    FirstOutIsFirstMatch(cut, k);
    assert cut[..k] == turns[..k];
  }

  /** A player number outside 1..6 can never meet a die draw, so such an
      innings runs through the whole input and scores every number. */
  lemma OffRangePicksNeverOut(turns: seq<Turn>)
    requires DieDraws(turns)
    requires forall i :: 0 <= i < |turns| ==> !(1 <= turns[i].player <= 6)
    ensures EndingOf(turns) == InputExhausted
    ensures InningsScore(turns) == SumPicks(turns)
  {
    assert turns[..|turns|] == turns;
  }

  lemma {:induction false} SumPicksBounds(s: seq<Turn>)
    requires forall i :: 0 <= i < |s| ==> 1 <= s[i].player <= 6
    ensures |s| <= SumPicks(s) <= 6 * |s|
  {
    if s != [] {
      SumPicksBounds(s[..|s| - 1]);
    }
  }

  /** With numbers in 1..6, k scoring turns give between k and 6k runs. */
  lemma ScoreBounds(turns: seq<Turn>, k: nat)
    requires k <= FirstOut(turns)
    requires forall i :: 0 <= i < k ==> 1 <= turns[i].player <= 6
    ensures k <= ScoreAfter(turns, k) <= 6 * k
  {
    SumPicksBounds(turns[..k]);
  }

  /** With non-negative numbers the score never goes down from turn to turn. */
  lemma {:induction false} ScoreMonotone(turns: seq<Turn>, i: nat, j: nat)
    requires i <= j <= FirstOut(turns)
    requires forall m :: 0 <= m < j ==> turns[m].player >= 0
    ensures ScoreAfter(turns, i) <= ScoreAfter(turns, j)
  {
    if i < j {
      ScoreMonotone(turns, i, j - 1);
      ScoreRisesByPick(turns, j - 1);
    }
  }

  /** Nothing rejects a negative number, and one lowers the score. */
  lemma NegativePickLowersScore()
    ensures InningsScore([Turn(4, 1), Turn(-2, 3)]) == 2
    ensures InningsScore([Turn(4, 1), Turn(-2, 3)]) < InningsScore([Turn(4, 1)])
  {
    var s := [Turn(4, 1), Turn(-2, 3)];
    FirstOutIsFirstMatch(s, 2);
    FirstOutIsFirstMatch([Turn(4, 1)], 1);
    assert s[..2] == s;
    assert s[..1] == [Turn(4, 1)];
  }
}
