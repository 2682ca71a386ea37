/** The Random strategy. The draw `rng.nextInt(3)` of the program is a
    parameter here: `draw` is the value the generator returned. */
module RandomStrategy {
  import opened Moves

  /** The move for a draw: 0 gives 'R', 1 gives 'P', anything else 'S'.
      The player's move is accepted and ignored. */
  function GetMove(playerMove: char, draw: int): (r: char)
    ensures ValidMove(r)
    ensures r == 'R' <==> draw == 0
    ensures r == 'P' <==> draw == 1
    ensures r == 'S' <==> draw != 0 && draw != 1
  {
    match draw
    case 0 => 'R'
    case 1 => 'P'
    case _ => 'S'
  }

  /** The result depends on the draw alone, never on the player's move. */
  lemma IgnoresPlayerMove(p1: char, p2: char, draw: int)
    ensures GetMove(p1, draw) == GetMove(p2, draw)
  {
  }

  /** Every valid move is produced by exactly one of the three draws
      `rng.nextInt(3)` can return. */
  lemma EachMoveHasOneDraw(m: char)
    requires ValidMove(m)
    ensures exists d :: 0 <= d < 3 && GetMove('R', d) == m
    ensures forall d1, d2 :: 0 <= d1 < 3 && 0 <= d2 < 3 && GetMove('R', d1) == m && GetMove('R', d2) == m ==> d1 == d2
  {
    var d := if m == 'R' then 0 else if m == 'P' then 1 else 2;
    assert GetMove('R', d) == m;
  }
}
