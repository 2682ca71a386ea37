/** The Cheat strategy: it looks at the player's move of this round and plays
    the move that beats it. */
module CheatStrategy {
  import opened Moves

  /** The computer's move against `playerMove`; an unknown move gets 'R'. */
  function GetMove(playerMove: char): (r: char)
    ensures ValidMove(r)
    ensures ValidMove(playerMove) ==> Beats(r, playerMove)
    ensures !ValidMove(playerMove) ==> r == 'R'
  {
    if playerMove == 'R' then 'P'
    else if playerMove == 'P' then 'S'
    else if playerMove == 'S' then 'R'
    else 'R'
  }

  /** The move table of the three valid moves. */
  lemma MoveTable()
    ensures GetMove('R') == 'P' && GetMove('P') == 'S' && GetMove('S') == 'R'
  {
  }

  /** Cheat never answers a valid move with the same move, so it never ties. */
  lemma NeverTies(playerMove: char)
    requires ValidMove(playerMove)
    ensures GetMove(playerMove) != playerMove
  {
  }
}
