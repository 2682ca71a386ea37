/** A session as a sequence of rounds: what the window's counters hold after
    any number of button presses, and how the 100 possible rolls divide among
    the five strategies. */
module Rounds {
  import opened Moves
  import opened RockPaperScissorsFrame

  /** The inputs of one round: the player's move, the strategy roll and the
      draw the Random strategy would use. */
  datatype Turn = Turn(move: char, roll: int, draw: int)

  /** The state after playing `turns` in order, starting from `s`. */
  function Play(s: SessionState, turns: seq<Turn>): SessionState
    decreases |turns|
  {
    if turns == [] then s
    else Play(PlayRound(s, turns[0].move, turns[0].roll, turns[0].draw).0, turns[1..])
  }

  /** How many of `turns` played symbol `x`. */
  function Occurrences(turns: seq<Turn>, x: char): nat
    decreases |turns|
  {
    if turns == [] then 0
    else (if turns[0].move == x then 1 else 0) + Occurrences(turns[1..], x)
  }

  /** Every round adds exactly one to the sum of the three totals, and no
      total ever decreases. */
  lemma {:induction false} PlayCountsRounds(s: SessionState, turns: seq<Turn>)
    ensures Total(Play(s, turns).stats) == Total(s.stats) + |turns|
    ensures forall o :: OutcomeCount(s.stats, o) <= OutcomeCount(Play(s, turns).stats, o)
    decreases |turns|
  {
    if turns != [] {
      var t := turns[0];
      var s' := PlayRound(s, t.move, t.roll, t.draw).0;
      RoundUpdatesState(s, t.move, t.roll, t.draw);
      PlayCountsRounds(s', turns[1..]);
    }
  }

  /** The play count of each symbol grows by the number of rounds that played it. */
  lemma {:induction false} PlayCountsMoves(s: SessionState, turns: seq<Turn>, x: char)
    requires ValidMove(x)
    ensures PlayCount(Play(s, turns).history, x) == PlayCount(s.history, x) + Occurrences(turns, x)
    decreases |turns|
  {
    if turns != [] {
      var t := turns[0];
      var s' := PlayRound(s, t.move, t.roll, t.draw).0;
      RoundUpdatesState(s, t.move, t.roll, t.draw);
      assert PlayCount(s'.history, x) == PlayCount(s.history, x) + (if t.move == x then 1 else 0);
      PlayCountsMoves(s', turns[1..], x);
    }
  }

  /** After at least one round the last move is the move of the latest round. */
  lemma {:induction false} PlayRemembersLastMove(s: SessionState, turns: seq<Turn>)
    requires turns != []
    ensures Play(s, turns).history.last == Some(turns[|turns| - 1].move)
    decreases |turns|
  {
    var t := turns[0];
    var s' := PlayRound(s, t.move, t.roll, t.draw).0;
    if |turns| > 1 {
      PlayRemembersLastMove(s', turns[1..]);
    }
  }

  /** Every move is one of the three symbols. */
  predicate AllValid(turns: seq<Turn>) {
    forall i :: 0 <= i < |turns| ==> ValidMove(turns[i].move)
  }

  /** When every move is valid, each round plays exactly one of the three symbols. */
  lemma {:induction false} OccurrencesSum(turns: seq<Turn>)
    requires AllValid(turns)
    ensures Occurrences(turns, 'R') + Occurrences(turns, 'P') + Occurrences(turns, 'S') == |turns|
    decreases |turns|
  {
    if turns != [] {
      assert ValidMove(turns[0].move);
      assert AllValid(turns[1..]) by {
        forall i | 0 <= i < |turns[1..]| ensures ValidMove(turns[1..][i].move) {
          assert turns[1..][i] == turns[i + 1];
        }
      }
      OccurrencesSum(turns[1..]);
    }
  }

  /** A session from zero counters (such as `InitialState`): the totals sum to
      the number of rounds, each play count is the number of rounds that played
      the symbol, and with valid moves the three play counts also sum to the
      number of rounds. */
  lemma SessionFromStart(s: SessionState, turns: seq<Turn>)
    requires Total(s.stats) == 0
    requires s.history.rock == 0 && s.history.paper == 0 && s.history.scissors == 0
    ensures Total(Play(s, turns).stats) == |turns|
    ensures var h := Play(s, turns).history;
      h.rock == Occurrences(turns, 'R') && h.paper == Occurrences(turns, 'P') && h.scissors == Occurrences(turns, 'S')
    ensures AllValid(turns) ==>
      var h := Play(s, turns).history;
      h.rock + h.paper + h.scissors == |turns|
  {
    PlayCountsRounds(s, turns);
    PlayCountsMoves(s, turns, 'R');
    PlayCountsMoves(s, turns, 'P');
    PlayCountsMoves(s, turns, 'S');
    if AllValid(turns) {
      OccurrencesSum(turns);
    }
  }

  // ---------------------------------------------------------------------------
  // How the rolls divide among the strategies

  /** The rolls in 1..100 that select strategy `k`. */
  function RollsFor(k: StrategyKind): set<int> {
    set roll | 1 <= roll <= 100 && SelectStrategy(roll) == k
  }

  /** The integers from `lo` to `hi`. */
  function Range(lo: int, hi: int): (r: set<int>)
    ensures forall x :: x in r <==> lo <= x <= hi
    decreases hi - lo
  {
    if lo > hi then {} else Range(lo, hi - 1) + {hi}
  }

  /** `Range(lo, hi)` has `hi - lo + 1` elements. */
  lemma {:induction false} RangeSize(lo: int, hi: int)
    requires lo <= hi + 1
    ensures |Range(lo, hi)| == hi - lo + 1
    decreases hi - lo
  {
    if lo <= hi {
      RangeSize(lo, hi - 1);
    }
  }

  /** The five sets of rolls cover 1..100 and do not overlap. */
  lemma RollsPartition(k1: StrategyKind, k2: StrategyKind)
    ensures RollsFor(Cheat) + RollsFor(LeastUsed) + RollsFor(MostUsed) + RollsFor(LastUsed) + RollsFor(Random) == Range(1, 100)
    ensures k1 != k2 ==> RollsFor(k1) * RollsFor(k2) == {}
  {
  }

  /** Of the 100 equally likely rolls, 10 select Cheat, 20 each Least Used,
      Most Used and Last Used, and 30 select Random. */
  lemma RollWeights()
    ensures |RollsFor(Cheat)| == 10
    ensures |RollsFor(LeastUsed)| == 20
    ensures |RollsFor(MostUsed)| == 20
    ensures |RollsFor(LastUsed)| == 20
    ensures |RollsFor(Random)| == 30
  {
    assert RollsFor(Cheat) == Range(1, 10);
    assert RollsFor(LeastUsed) == Range(11, 30);
    assert RollsFor(MostUsed) == Range(31, 50);
    assert RollsFor(LastUsed) == Range(51, 70);
    assert RollsFor(Random) == Range(71, 100);
    RangeSize(1, 10);
    RangeSize(11, 30);
    RangeSize(31, 50);
    RangeSize(51, 70);
    RangeSize(71, 100);
  }
}
