/** The game's vocabulary. The program passes moves around as the one-letter
    codes "R" (Rock), "P" (Paper) and "S" (Scissors); here a move is the
    character of its code, 'R', 'P' or 'S'. Any other character stands for an
    unknown move, which several operations map to a default. */
module Moves {

  /** True of the three symbols the player's buttons produce. */
  predicate ValidMove(m: char) {
    m == 'R' || m == 'P' || m == 'S'
  }

  /** The beats-relation: Rock beats Scissors, Scissors beats Paper, Paper beats Rock. */
  predicate Beats(x: char, y: char) {
    (x == 'R' && y == 'S') || (x == 'S' && y == 'P') || (x == 'P' && y == 'R')
  }

  /** The fixed tie-break order of the count-based strategies: Rock, then Paper, then Scissors. */
  predicate Precedes(x: char, y: char) {
    (x == 'R' && (y == 'P' || y == 'S')) || (x == 'P' && y == 'S')
  }

  /** Only valid moves take part in the relation, no move beats itself, and of two
      different valid moves exactly one beats the other. */
  lemma BeatsIsTournament(x: char, y: char)
    ensures Beats(x, y) ==> ValidMove(x) && ValidMove(y)
    ensures !Beats(x, x)
    ensures ValidMove(x) && ValidMove(y) && x != y ==> (Beats(x, y) <==> !Beats(y, x))
  {
  }

  /** No move is beaten by two different moves. */
  lemma UniqueBeater(m: char, x: char, y: char)
    requires Beats(x, m) && Beats(y, m)
    ensures x == y
  {
  }
}
