/** The game logic of the Rock-Paper-Scissors window, without its Swing user
    interface: the session's counters, the three strategies that read them,
    the strategy dispatch by a roll of 1..100 and the adjudication of a round.

    The pure parts are functions over value snapshots (`History`, `Stats`);
    the `Session` class holds the fields the window updates in place, and its
    methods are proved against those functions. */
module RockPaperScissorsFrame {
  import opened Moves
  import CheatStrategy
  import RandomStrategy

  /** `lastPlayerMove` is null before the first round. */
  datatype Option<T> = None | Some(value: T)

  // ---------------------------------------------------------------------------
  // Move helpers

  /** The move that beats `move`; an unknown move gets 'R'. */
  function WinningMoveAgainst(move: char): (r: char)
    ensures ValidMove(r)
    ensures ValidMove(move) ==> Beats(r, move)
    ensures !ValidMove(move) ==> r == 'R'
  {
    if move == 'R' then 'P'
    else if move == 'P' then 'S'
    else 'R'
  }

  /** On the valid moves, `WinningMoveAgainst` is a 3-cycle without fixed points. */
  lemma WinningMoveCycle(m: char)
    requires ValidMove(m)
    ensures WinningMoveAgainst(m) != m
    ensures WinningMoveAgainst(WinningMoveAgainst(WinningMoveAgainst(m))) == m
  {
  }

  /** The Cheat strategy plays exactly the move `WinningMoveAgainst` names, on
      every input, the unknown ones included. */
  lemma CheatIsWinningMove(m: char)
    ensures CheatStrategy.GetMove(m) == WinningMoveAgainst(m)
  {
  }

  /** The word shown for a move; an unknown move is shown as "Scissors". */
  function MoveWord(move: char): (w: string)
    ensures w == "Rock" || w == "Paper" || w == "Scissors"
    ensures ValidMove(move) ==> |w| > 0 && w[0] == move
    ensures !ValidMove(move) ==> w == "Scissors"
  {
    if move == 'R' then "Rock"
    else if move == 'P' then "Paper"
    else "Scissors"
  }

  /** Different valid moves are shown as different words. */
  lemma MoveWordInjective(a: char, b: char)
    requires ValidMove(a) && ValidMove(b) && MoveWord(a) == MoveWord(b)
    ensures a == b
  {
  }

  // ---------------------------------------------------------------------------
  // Player history and session statistics

  /** The player's play counts per symbol and the last move played. */
  datatype History = History(rock: nat, paper: nat, scissors: nat, last: Option<char>)

  /** The history at the start of a session. */
  const EmptyHistory := History(0, 0, 0, None)

  /** The play count of symbol `x`. */
  function PlayCount(h: History, x: char): nat {
    if x == 'R' then h.rock
    else if x == 'P' then h.paper
    else if x == 'S' then h.scissors
    else 0
  }

  /** Records a player move: the count of that symbol goes up by one, the other
      counts stay, and the move becomes the last move. An unknown move changes
      no count but still becomes the last move. */
  function RecordMove(h: History, m: char): (g: History)
    ensures forall x :: ValidMove(x) ==> PlayCount(g, x) == PlayCount(h, x) + (if x == m then 1 else 0)
    ensures g.last == Some(m)
  {
    var g := h.(last := Some(m));
    if m == 'R' then g.(rock := h.rock + 1)
    else if m == 'P' then g.(paper := h.paper + 1)
    else if m == 'S' then g.(scissors := h.scissors + 1)
    else g
  }

  /** The result of a round, seen from the player. */
  datatype Outcome = Tie | PlayerWin | ComputerWin

  /** The three running totals. */
  datatype Stats = Stats(playerWins: nat, computerWins: nat, ties: nat)

  /** The totals at the start of a session. */
  const ZeroStats := Stats(0, 0, 0)

  /** The counter that records outcome `o`. */
  function OutcomeCount(s: Stats, o: Outcome): nat {
    match o
    case Tie => s.ties
    case PlayerWin => s.playerWins
    case ComputerWin => s.computerWins
  }

  /** The number of rounds the totals record. */
  function Total(s: Stats): nat {
    s.playerWins + s.computerWins + s.ties
  }

  /** Records the outcome of a round: exactly its counter goes up, by one. */
  function Tally(s: Stats, o: Outcome): (t: Stats)
    ensures OutcomeCount(t, o) == OutcomeCount(s, o) + 1
    ensures forall o' :: o' != o ==> OutcomeCount(t, o') == OutcomeCount(s, o')
    ensures Total(t) == Total(s) + 1
  {
    match o
    case Tie => s.(ties := s.ties + 1)
    case PlayerWin => s.(playerWins := s.playerWins + 1)
    case ComputerWin => s.(computerWins := s.computerWins + 1)
  }

  /** The outcome of player move `p` against computer move `c`, decided as the
      window decides it: equal moves tie, the pairs (R,S), (P,R) and (S,P) are
      player wins, and everything else is a computer win. In terms of the
      game's rule: a tie exactly when the moves are equal, a player win exactly
      when the player's move beats the computer's, and, for valid moves, a
      computer win exactly when the computer's move beats the player's. */
  function Adjudicate(p: char, c: char): (o: Outcome)
    ensures o == Tie <==> p == c
    ensures o == PlayerWin <==> Beats(p, c)
    ensures ValidMove(p) && ValidMove(c) ==> (o == ComputerWin <==> Beats(c, p))
  {
    if p == c then Tie
    else if (p == 'R' && c == 'S') || (p == 'P' && c == 'R') || (p == 'S' && c == 'P') then PlayerWin
    else ComputerWin
  }

  /** Swapping the roles of player and computer swaps the two kinds of win. */
  lemma AdjudicateSwapsRoles(a: char, b: char)
    requires ValidMove(a) && ValidMove(b) && Beats(a, b)
    ensures Adjudicate(a, b) == PlayerWin && Adjudicate(b, a) == ComputerWin
  {
  }

  /** The line the window shows for a round, worded by the outcome and the
      moves, and naming the strategy that played. */
  function ResultLine(p: char, c: char, strategyName: string): string {
    if p == c then MoveWord(p) + " ties " + MoveWord(c) + ". (Tie! Computer: " + strategyName + ")"
    else if p == 'R' && c == 'S' then "Rock breaks Scissors. (Player wins! Computer: " + strategyName + ")"
    else if p == 'P' && c == 'R' then "Paper covers Rock. (Player wins! Computer: " + strategyName + ")"
    else if p == 'S' && c == 'P' then "Scissors cuts Paper. (Player wins! Computer: " + strategyName + ")"
    else if c == 'R' && p == 'S' then "Rock breaks Scissors. (Computer wins! Computer: " + strategyName + ")"
    else if c == 'P' && p == 'R' then "Paper covers Rock. (Computer wins! Computer: " + strategyName + ")"
    else "Scissors cuts Paper. (Computer wins! Computer: " + strategyName + ")"
  }

  /** How a result line words an outcome, up to the strategy name. */
  function VerdictTag(o: Outcome): string {
    match o
    case Tie => "(Tie! Computer: "
    case PlayerWin => "(Player wins! Computer: "
    case ComputerWin => "(Computer wins! Computer: "
  }

  /** `t` is a suffix of `s`. */
  predicate EndsWith(s: string, t: string) {
    |t| <= |s| && s[|s| - |t|..] == t
  }

  /** Appending to both sides keeps a suffix a suffix. */
  lemma EndsWithAppend(s: string, t: string, u: string)
    requires EndsWith(s, t)
    ensures EndsWith(s + u, t + u)
  {
    assert (s + u)[|s + u| - |t + u|..] == s[|s| - |t|..] + u;
  }

  /** A literal line head ending in the verdict tag gives a line ending in the tag and the name. */
  lemma HeadCarriesVerdict(head: string, o: Outcome, strategyName: string)
    requires EndsWith(head, VerdictTag(o))
    ensures EndsWith(head + strategyName + ")", VerdictTag(o) + strategyName + ")")
  {
    EndsWithAppend(head, VerdictTag(o), strategyName);
    EndsWithAppend(head + strategyName, VerdictTag(o) + strategyName, ")");
  }

  /** Prepending keeps a suffix a suffix. */
  lemma EndsWithPrepend(u: string, s: string, t: string)
    requires EndsWith(s, t)
    ensures EndsWith(u + s, t)
  {
    assert (u + s)[|u + s| - |t|..] == s[|s| - |t|..];
  }

  /** The six win lines of valid moves report their outcome and the strategy. */
  lemma WinLinesReportOutcome(n: string)
    ensures EndsWith(ResultLine('R', 'S', n), VerdictTag(PlayerWin) + n + ")")
    ensures EndsWith(ResultLine('P', 'R', n), VerdictTag(PlayerWin) + n + ")")
    ensures EndsWith(ResultLine('S', 'P', n), VerdictTag(PlayerWin) + n + ")")
    ensures EndsWith(ResultLine('S', 'R', n), VerdictTag(ComputerWin) + n + ")")
    ensures EndsWith(ResultLine('R', 'P', n), VerdictTag(ComputerWin) + n + ")")
    ensures EndsWith(ResultLine('P', 'S', n), VerdictTag(ComputerWin) + n + ")")
  {
    HeadCarriesVerdict("Rock breaks Scissors. (Player wins! Computer: ", PlayerWin, n);
    HeadCarriesVerdict("Paper covers Rock. (Player wins! Computer: ", PlayerWin, n);
    HeadCarriesVerdict("Scissors cuts Paper. (Player wins! Computer: ", PlayerWin, n);
    HeadCarriesVerdict("Rock breaks Scissors. (Computer wins! Computer: ", ComputerWin, n);
    HeadCarriesVerdict("Paper covers Rock. (Computer wins! Computer: ", ComputerWin, n);
    HeadCarriesVerdict("Scissors cuts Paper. (Computer wins! Computer: ", ComputerWin, n);
  }

  /** The tie line reports a tie and the strategy. */
  lemma TieLineReportsOutcome(m: char, n: string)
    ensures EndsWith(ResultLine(m, m, n), VerdictTag(Tie) + n + ")")
  {
    var words := MoveWord(m) + " ties " + MoveWord(m);
    assert ResultLine(m, m, n) == words + ". (Tie! Computer: " + n + ")";
    EndsWithPrepend(words, ". (Tie! Computer: ", VerdictTag(Tie));
    HeadCarriesVerdict(words + ". (Tie! Computer: ", Tie, n);
  }

  /** Two different moves, one of them unknown, give the last computer-win line. */
  lemma UnknownLineReportsOutcome(p: char, c: char, n: string)
    requires p != c && !(ValidMove(p) && ValidMove(c))
    ensures EndsWith(ResultLine(p, c, n), VerdictTag(Adjudicate(p, c)) + n + ")")
  {
    assert Adjudicate(p, c) == ComputerWin;
    assert ResultLine(p, c, n) == "Scissors cuts Paper. (Computer wins! Computer: " + n + ")";
    HeadCarriesVerdict("Scissors cuts Paper. (Computer wins! Computer: ", ComputerWin, n);
  }

  /** Every line ends by reporting the adjudicated outcome and the strategy that
      played, so the line the window shows always agrees with the counter that
      `Adjudicate` bumps; this holds for unknown moves too. */
  lemma ResultLineReportsOutcome(p: char, c: char, n: string)
    ensures EndsWith(ResultLine(p, c, n), VerdictTag(Adjudicate(p, c)) + n + ")")
  {
    if p == c {
      TieLineReportsOutcome(p, n);
    } else if ValidMove(p) && ValidMove(c) {
      WinLinesReportOutcome(n);
    } else {
      UnknownLineReportsOutcome(p, c, n);
    }
  }

  /** A prefix of a line head is a prefix of the whole line. */
  lemma HeadOpensLine(head: string, word: string, n: string)
    requires word <= head
    ensures word <= head + n + ")"
  {
    assert (head + n + ")")[..|head|] == head;
  }

  /** The six win lines of valid moves open with the winning move's word. */
  lemma WinLinesOpenWithWinner(n: string)
    ensures MoveWord('R') <= ResultLine('R', 'S', n) && MoveWord('R') <= ResultLine('S', 'R', n)
    ensures MoveWord('P') <= ResultLine('P', 'R', n) && MoveWord('P') <= ResultLine('R', 'P', n)
    ensures MoveWord('S') <= ResultLine('S', 'P', n) && MoveWord('S') <= ResultLine('P', 'S', n)
  {
    HeadOpensLine("Rock breaks Scissors. (Player wins! Computer: ", "Rock", n);
    HeadOpensLine("Rock breaks Scissors. (Computer wins! Computer: ", "Rock", n);
    HeadOpensLine("Paper covers Rock. (Player wins! Computer: ", "Paper", n);
    HeadOpensLine("Paper covers Rock. (Computer wins! Computer: ", "Paper", n);
    HeadOpensLine("Scissors cuts Paper. (Player wins! Computer: ", "Scissors", n);
    HeadOpensLine("Scissors cuts Paper. (Computer wins! Computer: ", "Scissors", n);
  }

  /** For valid moves the line opens with the winning move's word, and with the
      player's move on a tie. */
  lemma ResultLineOpensWithWinner(p: char, c: char, n: string)
    requires ValidMove(p) && ValidMove(c)
    ensures Adjudicate(p, c) == ComputerWin ==> MoveWord(c) <= ResultLine(p, c, n)
    ensures Adjudicate(p, c) != ComputerWin ==> MoveWord(p) <= ResultLine(p, c, n)
  {
    if p == c {
      var rest := " ties " + MoveWord(c) + ". (Tie! Computer: " + n + ")";
      assert ResultLine(p, c, n) == MoveWord(p) + rest;
    } else {
      WinLinesOpenWithWinner(n);
    }
  }

  // ---------------------------------------------------------------------------
  // The strategies that read the history

  /** The least-used symbol: its count is minimal, and every symbol before it
      in the order Rock, Paper, Scissors has a larger count. */
  function LeastUsedSymbol(h: History): (x: char)
    ensures ValidMove(x)
    ensures forall y :: ValidMove(y) ==> PlayCount(h, x) <= PlayCount(h, y)
    ensures forall y :: Precedes(y, x) ==> PlayCount(h, x) < PlayCount(h, y)
  {
    if h.rock <= h.paper && h.rock <= h.scissors then 'R'
    else if h.paper <= h.rock && h.paper <= h.scissors then 'P'
    else 'S'
  }

  /** The Least Used strategy beats the least-used symbol. */
  function LeastUsedMove(h: History): (m: char)
    ensures ValidMove(m) && Beats(m, LeastUsedSymbol(h))
  {
    WinningMoveAgainst(LeastUsedSymbol(h))
  }

  /** The most-used symbol: its count is maximal, and every symbol before it
      in the order Rock, Paper, Scissors has a smaller count. */
  function MostUsedSymbol(h: History): (x: char)
    ensures ValidMove(x)
    ensures forall y :: ValidMove(y) ==> PlayCount(h, y) <= PlayCount(h, x)
    ensures forall y :: Precedes(y, x) ==> PlayCount(h, y) < PlayCount(h, x)
  {
    if h.rock >= h.paper && h.rock >= h.scissors then 'R'
    else if h.paper >= h.rock && h.paper >= h.scissors then 'P'
    else 'S'
  }

  /** The Most Used strategy beats the most-used symbol. */
  function MostUsedMove(h: History): (m: char)
    ensures ValidMove(m) && Beats(m, MostUsedSymbol(h))
  {
    WinningMoveAgainst(MostUsedSymbol(h))
  }

  /** The tie-break rule picks one symbol: any symbol with a minimal count that
      no tied symbol precedes is the one `LeastUsedSymbol` finds, and likewise
      for the maximum. */
  lemma TieBreakDetermines(h: History, x: char)
    requires ValidMove(x)
    ensures (forall y :: ValidMove(y) ==> PlayCount(h, x) <= PlayCount(h, y)) &&
            (forall y :: Precedes(y, x) ==> PlayCount(h, x) < PlayCount(h, y))
            ==> x == LeastUsedSymbol(h)
    ensures (forall y :: ValidMove(y) ==> PlayCount(h, y) <= PlayCount(h, x)) &&
            (forall y :: Precedes(y, x) ==> PlayCount(h, y) < PlayCount(h, x))
            ==> x == MostUsedSymbol(h)
  {
    var l, m := LeastUsedSymbol(h), MostUsedSymbol(h);
    if x != l {
      assert Precedes(x, l) || Precedes(l, x);
    }
    if x != m {
      assert Precedes(x, m) || Precedes(m, x);
    }
  }

  /** Worked cases: equal counts resolve to Rock, so both strategies play Paper;
      counts (2,1,0) give Least Used 'R' and Most Used 'P'; after the moves R, R, P
      Least Used plays 'R', the move that beats the unplayed Scissors. */
  lemma CountStrategyExamples()
    ensures LeastUsedMove(History(1, 1, 1, Some('S'))) == 'P'
    ensures MostUsedMove(History(1, 1, 1, Some('S'))) == 'P'
    ensures LeastUsedMove(History(2, 1, 0, Some('P'))) == 'R'
    ensures MostUsedMove(History(2, 1, 0, Some('P'))) == 'P'
    ensures LeastUsedMove(RecordMove(RecordMove(RecordMove(EmptyHistory, 'R'), 'R'), 'P')) == 'R'
  {
  }

  /** The Last Used strategy replays the last recorded move; with none recorded
      it falls back to the Random strategy. */
  function LastUsedMove(h: History, playerMove: char, draw: int): (m: char)
    ensures h.last.Some? ==> m == h.last.value
    ensures h.last.None? ==> ValidMove(m) && m == RandomStrategy.GetMove(playerMove, draw)
  {
    match h.last
    case None => RandomStrategy.GetMove(playerMove, draw)
    case Some(last) => last
  }

  // ---------------------------------------------------------------------------
  // Strategy dispatch

  /** The five opponent strategies. */
  datatype StrategyKind = Cheat | LeastUsed | MostUsed | LastUsed | Random

  /** The strategy a roll selects, by the fixed ranges 1..10, 11..30, 31..50,
      51..70 and 71..100 (a roll outside 1..100 falls to the first or last). */
  function SelectStrategy(roll: int): (k: StrategyKind)
    ensures k == Cheat <==> roll <= 10
    ensures k == LeastUsed <==> 11 <= roll <= 30
    ensures k == MostUsed <==> 31 <= roll <= 50
    ensures k == LastUsed <==> 51 <= roll <= 70
    ensures k == Random <==> 71 <= roll
  {
    if roll <= 10 then Cheat
    else if roll <= 30 then LeastUsed
    else if roll <= 50 then MostUsed
    else if roll <= 70 then LastUsed
    else Random
  }

  /** The boundaries between the ranges are exactly 10/11, 30/31, 50/51 and 70/71. */
  lemma SelectionBoundaries()
    ensures SelectStrategy(1) == Cheat && SelectStrategy(10) == Cheat
    ensures SelectStrategy(11) == LeastUsed && SelectStrategy(30) == LeastUsed
    ensures SelectStrategy(31) == MostUsed && SelectStrategy(50) == MostUsed
    ensures SelectStrategy(51) == LastUsed && SelectStrategy(70) == LastUsed
    ensures SelectStrategy(71) == Random && SelectStrategy(100) == Random
  {
  }

  /** The name of a strategy as the result line reports it. */
  function StrategyName(k: StrategyKind): string {
    match k
    case Cheat => "Cheat"
    case LeastUsed => "Least Used"
    case MostUsed => "Most Used"
    case LastUsed => "Last Used"
    case Random => "Random"
  }

  /** Different strategies report different names. */
  lemma StrategyNamesDistinct(k1: StrategyKind, k2: StrategyKind)
    requires StrategyName(k1) == StrategyName(k2)
    ensures k1 == k2
  {
  }

  /** The computer's move when strategy `k` plays against `playerMove` with
      history `h` (already holding this round's move). It is one of 'R', 'P',
      'S' whenever the recorded last move is. */
  function ComputerMove(k: StrategyKind, h: History, playerMove: char, draw: int): (m: char)
    ensures (h.last.Some? ==> ValidMove(h.last.value)) ==> ValidMove(m)
  {
    match k
    case Cheat => CheatStrategy.GetMove(playerMove)
    case LeastUsed => LeastUsedMove(h)
    case MostUsed => MostUsedMove(h)
    case LastUsed => LastUsedMove(h, playerMove, draw)
    case Random => RandomStrategy.GetMove(playerMove, draw)
  }

  // ---------------------------------------------------------------------------
  // One round

  /** Everything the window keeps between rounds. */
  datatype SessionState = SessionState(history: History, stats: Stats)

  /** The state at the start of a session. */
  const InitialState := SessionState(EmptyHistory, ZeroStats)

  /** What one round produced. */
  datatype RoundResult = RoundResult(strategy: StrategyKind, computerMove: char, outcome: Outcome, line: string)

  /** One round: record the player's move, select a strategy by the roll, let it
      play against the updated history, adjudicate and tally. */
  function PlayRound(s: SessionState, playerMove: char, roll: int, draw: int): (SessionState, RoundResult) {
    var h := RecordMove(s.history, playerMove);
    var k := SelectStrategy(roll);
    var c := ComputerMove(k, h, playerMove, draw);
    var o := Adjudicate(playerMove, c);
    (SessionState(h, Tally(s.stats, o)), RoundResult(k, c, o, ResultLine(playerMove, c, StrategyName(k))))
  }

  /** A round records the move, lets the rolled strategy play against the
      updated history, adjudicates the two moves and bumps exactly the counter
      of that outcome. */
  lemma RoundUpdatesState(s: SessionState, playerMove: char, roll: int, draw: int)
    ensures var (t, r) := PlayRound(s, playerMove, roll, draw);
      && t.history == RecordMove(s.history, playerMove)
      && r.computerMove == ComputerMove(SelectStrategy(roll), RecordMove(s.history, playerMove), playerMove, draw)
      && r.outcome == Adjudicate(playerMove, r.computerMove)
      && t.stats == Tally(s.stats, r.outcome)
      && OutcomeCount(t.stats, r.outcome) == OutcomeCount(s.stats, r.outcome) + 1
      && (forall o :: o != r.outcome ==> OutcomeCount(t.stats, o) == OutcomeCount(s.stats, o))
      && Total(t.stats) == Total(s.stats) + 1
      && r.strategy == SelectStrategy(roll)
      && r.line == ResultLine(playerMove, r.computerMove, StrategyName(r.strategy))
  {
  }

  /** For a valid player move every strategy answers with a valid move. */
  lemma RoundComputerMoveIsValid(s: SessionState, playerMove: char, roll: int, draw: int)
    requires ValidMove(playerMove)
    ensures ValidMove(PlayRound(s, playerMove, roll, draw).1.computerMove)
  {
  }

  /** Because the move is recorded before the strategy plays, Last Used sees
      this round's move: it replays it, never uses its random fallback, and the
      round is a tie. */
  lemma LastUsedRoundIsTie(s: SessionState, playerMove: char, roll: int, draw: int)
    requires 51 <= roll <= 70
    ensures var r := PlayRound(s, playerMove, roll, draw).1;
      && RecordMove(s.history, playerMove).last.Some?
      && r.computerMove == playerMove
      && r.outcome == Tie
      && r.line == MoveWord(playerMove) + " ties " + MoveWord(playerMove) + ". (Tie! Computer: Last Used)"
  {
  }

  /** A Cheat round of a valid move is always a computer win. */
  lemma CheatRoundComputerWins(s: SessionState, playerMove: char, roll: int, draw: int)
    requires ValidMove(playerMove) && roll <= 10
    ensures var r := PlayRound(s, playerMove, roll, draw).1;
      r.outcome == ComputerWin && Beats(r.computerMove, playerMove)
  {
  }

  // ---------------------------------------------------------------------------
  // The session object

  /** The window's session fields, updated in place once per round. */
  class Session {
    var playerRockCount: nat
    var playerPaperCount: nat
    var playerScissorsCount: nat
    var lastPlayerMove: Option<char>
    var playerWins: nat
    var computerWins: nat
    var ties: nat

    /** The history fields as a value. */
    function PlayerHistory(): History
      reads this
    {
      History(playerRockCount, playerPaperCount, playerScissorsCount, lastPlayerMove)
    }

    /** The statistics fields as a value. */
    function SessionStats(): Stats
      reads this
    {
      Stats(playerWins, computerWins, ties)
    }

    /** All session fields as a value. */
    function State(): SessionState
      reads this
    {
      SessionState(PlayerHistory(), SessionStats())
    }

    /** Every counter starts at zero and there is no last move. */
    constructor ()
      ensures State() == InitialState
    {
      playerRockCount, playerPaperCount, playerScissorsCount := 0, 0, 0;
      lastPlayerMove := None;
      playerWins, computerWins, ties := 0, 0, 0;
    }

    /** Counts the player's move and remembers it as the last move. */
    method IncrementPlayerCounts(playerMove: char)
      modifies this
      ensures PlayerHistory() == RecordMove(old(PlayerHistory()), playerMove)
      ensures SessionStats() == old(SessionStats())
    {
      if playerMove == 'R' {
        playerRockCount := playerRockCount + 1;
      } else if playerMove == 'P' {
        playerPaperCount := playerPaperCount + 1;
      } else if playerMove == 'S' {
        playerScissorsCount := playerScissorsCount + 1;
      }
      lastPlayerMove := Some(playerMove);
    }

    /** Bumps the counter of the round's outcome and returns its result line. */
    method BuildResultLine(playerMove: char, computerMove: char, strategyName: string) returns (line: string)
      modifies this
      ensures SessionStats() == Tally(old(SessionStats()), Adjudicate(playerMove, computerMove))
      ensures PlayerHistory() == old(PlayerHistory())
      ensures line == ResultLine(playerMove, computerMove, strategyName)
    {
      if playerMove == computerMove {
        ties := ties + 1;
        return MoveWord(playerMove) + " ties " + MoveWord(computerMove) + ". (Tie! Computer: " + strategyName + ")";
      }

      if playerMove == 'R' && computerMove == 'S' {
        playerWins := playerWins + 1;
        return "Rock breaks Scissors. (Player wins! Computer: " + strategyName + ")";
      }
      if playerMove == 'P' && computerMove == 'R' {
        playerWins := playerWins + 1;
        return "Paper covers Rock. (Player wins! Computer: " + strategyName + ")";
      }
      if playerMove == 'S' && computerMove == 'P' {
        playerWins := playerWins + 1;
        return "Scissors cuts Paper. (Player wins! Computer: " + strategyName + ")";
      }

      computerWins := computerWins + 1;
      if computerMove == 'R' && playerMove == 'S' {
        return "Rock breaks Scissors. (Computer wins! Computer: " + strategyName + ")";
      }
      if computerMove == 'P' && playerMove == 'R' {
        return "Paper covers Rock. (Computer wins! Computer: " + strategyName + ")";
      }
      return "Scissors cuts Paper. (Computer wins! Computer: " + strategyName + ")";
    }

    /** One round, driven by the player's move, the roll in 1..100 that picks
        the strategy, and the draw in 0..2 the Random strategy would use.
        Returns the line the window appends to its results. */
    method HandleMove(playerMove: char, roll: int, draw: int) returns (line: string)
      requires 1 <= roll <= 100
      requires 0 <= draw < 3
      modifies this
      ensures State() == PlayRound(old(State()), playerMove, roll, draw).0
      ensures line == PlayRound(old(State()), playerMove, roll, draw).1.line
    {
      IncrementPlayerCounts(playerMove);
      var strategy := SelectStrategy(roll);
      var computerMove := ComputerMove(strategy, PlayerHistory(), playerMove, draw);
      line := BuildResultLine(playerMove, computerMove, StrategyName(strategy));
    }
  }
}
