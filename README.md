# Rock-Paper-Scissors game logic in Dafny

This project models the game logic of a Swing Rock-Paper-Scissors window
(`RockPaperScissorsFrame`) together with its two stand-alone strategies
(`Cheat`, `RandomStrategy`), and proves properties of that logic. The user
interface is not modelled.

In each round the player picks Rock, Paper or Scissors. The window then:

1. records the move in its per-symbol play counts and remembers it as the last move;
2. rolls 1..100 and picks one of five computer strategies by fixed ranges: Cheat 1..10, Least Used 11..30, Most Used 31..50, Last Used 51..70, Random 71..100;
3. asks that strategy for the computer's move;
4. adjudicates the round, bumps one of the three win/loss/tie counters and builds the result line shown to the player.

Modules:

- `Moves` (`moves.dfy`): the one-letter move codes 'R', 'P', 'S', the "beats" relation and the Rock < Paper < Scissors tie-break order.
- `CheatStrategy` (`cheat.dfy`): the Cheat strategy, which answers with the move that beats the player's.
- `RandomStrategy` (`random_strategy.dfy`): the Random strategy. Its random number is an explicit `draw` parameter.
- `RockPaperScissorsFrame` (`frame.dfy`):
  - the window's helpers (`MoveWord`, `WinningMoveAgainst`);
  - its three inner strategies (Least Used, Most Used, Last Used);
  - the strategy dispatch and the adjudication and result line of a round;
  - a class `Session` holding the window's seven session fields. Its methods `IncrementPlayerCounts`, `BuildResultLine` and `HandleMove` update those fields in place. Each method is proved against the pure functions `RecordMove`, `Tally`, `ResultLine` and `PlayRound`.
- `Rounds` (`rounds.dfy`): sessions of many rounds, and the weights of the roll ranges.

In three places the code does something its comments or documentation do
not spell out. The model follows the code in each:

- Last Used plays the current move. The comments on the Last Used strategy say it uses the player's previous move and must handle the first round safely (src/RockPaperScissorsFrame.java:264 and :273). But `handleMove` records the player's move (line 118) before the chosen strategy plays (line 143). So Last Used sees the current round's move:
  - its null fallback to Random can never fire;
  - every Last Used round is a tie (`LastUsedRoundIsTie`).
- Unknown moves. The `Strategy` interface documents the player's move as "R", "P" or "S" (src/Strategy.java:8-9). `moveFromEvent` (src/RockPaperScissorsFrame.java:157-162) only ever produces those three, so unknown moves never reach the game logic. The model still follows the code on them, and no operation requires a valid move:
  - `incrementPlayerCounts` matches no case and changes no count;
  - `moveWord` says "Scissors";
  - `winningMoveAgainst` and Cheat answer 'R';
  - `buildResultLine` counts a computer win for two different moves, and two equal unknown moves tie;
  - Last Used keeps the R, P, S promise only when the last move is valid, because it replays that move.
- Randomness is stated as counts. The Random strategy is documented as choosing uniformly at random (src/RandomStrategy.java:4), which is a property of `java.util.Random`. The model proves instead:
  - how many of the 100 rolls each strategy owns (`RollWeights`);
  - that each valid move comes from exactly one of the three draws (`EachMoveHasOneDraw`).

## Model

| member | source | states |
|---|---|---|
| Moves.BeatsIsTournament | src/RockPaperScissorsFrame.java:181-203 | Only valid moves beat anything. No move beats itself. Of two distinct valid moves exactly one beats the other. |
| Moves.UniqueBeater | src/RockPaperScissorsFrame.java:278-284 | Each move is beaten by at most one move, so "the winning move against" a move is well defined. |
| CheatStrategy.GetMove | src/Cheat.java:7-14 | The answer is always R, P or S. It beats every valid player move. An unknown move gets 'R'. |
| CheatStrategy.MoveTable | src/Cheat.java:9-11 | R gets P, P gets S, S gets R. |
| CheatStrategy.NeverTies | src/Cheat.java:8-13 | Against a valid move, Cheat never plays the same move. |
| RandomStrategy.GetMove | src/RandomStrategy.java:11-18 | Draw 0 gives exactly R, draw 1 exactly P, any other draw exactly S. The result is always a valid move. |
| RandomStrategy.IgnoresPlayerMove | src/RandomStrategy.java:11-13 | The answer depends on the draw only, not on the player's move. |
| RandomStrategy.EachMoveHasOneDraw | src/RandomStrategy.java:12-17 | Every valid move comes from some draw in 0..2, and from only one. So the three moves are equally likely when the draws are. |
| RockPaperScissorsFrame.WinningMoveAgainst | src/RockPaperScissorsFrame.java:278-284 | The result is valid. It beats every valid move. An unknown move gets 'R'. |
| RockPaperScissorsFrame.WinningMoveCycle | src/RockPaperScissorsFrame.java:278-284 | On valid moves it has no fixed point, and applying it three times returns the move. |
| RockPaperScissorsFrame.CheatIsWinningMove | src/Cheat.java:8-13 | Cheat agrees with `winningMoveAgainst` on every input, unknown moves included. |
| RockPaperScissorsFrame.MoveWord | src/RockPaperScissorsFrame.java:206-212 | The word is Rock, Paper or Scissors. A valid move's word starts with its letter. An unknown move reads "Scissors". |
| RockPaperScissorsFrame.MoveWordInjective | src/RockPaperScissorsFrame.java:206-212 | Distinct valid moves get distinct words. |
| RockPaperScissorsFrame.RecordMove | src/RockPaperScissorsFrame.java:164-171 | Exactly the played symbol's count grows by one and the others stay. The move becomes the last move. |
| RockPaperScissorsFrame.Tally | src/RockPaperScissorsFrame.java:173-204 | Exactly the outcome's counter grows by one and the others stay, so the total grows by one. |
| RockPaperScissorsFrame.Adjudicate | src/RockPaperScissorsFrame.java:175-196 | A tie exactly when the moves are equal. A player win exactly when the player's move beats the computer's. For valid moves, a computer win exactly when the computer's move beats the player's. |
| RockPaperScissorsFrame.AdjudicateSwapsRoles | src/RockPaperScissorsFrame.java:181-203 | When valid move a beats b, a against b is a player win and b against a is a computer win. |
| RockPaperScissorsFrame.TieLineReportsOutcome | src/RockPaperScissorsFrame.java:175-179 | A tie line ends with "(Tie! Computer: <name>)". |
| RockPaperScissorsFrame.WinLinesReportOutcome | src/RockPaperScissorsFrame.java:181-203 | Each of the six win lines ends with the verdict of its pair of moves. |
| RockPaperScissorsFrame.UnknownLineReportsOutcome | src/RockPaperScissorsFrame.java:195-203 | A line for unequal moves with an unknown one reports a computer win. |
| RockPaperScissorsFrame.ResultLine | src/RockPaperScissorsFrame.java:173-204 | The line `buildResultLine` returns: the tie line, then the six win lines, with the last computer-win line as fallback. `ResultLineReportsOutcome` and `ResultLineOpensWithWinner` state what it reports. |
| RockPaperScissorsFrame.ResultLineReportsOutcome | src/RockPaperScissorsFrame.java:173-204 | Every result line ends with the verdict of the adjudicated outcome followed by the strategy name. |
| RockPaperScissorsFrame.WinLinesOpenWithWinner | src/RockPaperScissorsFrame.java:181-203 | Each of the six win lines starts with the winning move's word. |
| RockPaperScissorsFrame.ResultLineOpensWithWinner | src/RockPaperScissorsFrame.java:173-204 | For valid moves the line starts with the winner's word: the computer's on a computer win, otherwise the player's. |
| RockPaperScissorsFrame.LeastUsedSymbol | src/RockPaperScissorsFrame.java:229-236 | The symbol has a minimal count, and every symbol before it in R, P, S order has a strictly larger count. |
| RockPaperScissorsFrame.LeastUsedMove | src/RockPaperScissorsFrame.java:225-240 | Least Used plays a valid move that beats the least-used symbol. |
| RockPaperScissorsFrame.MostUsedSymbol | src/RockPaperScissorsFrame.java:249-256 | The symbol has a maximal count, and every symbol before it in R, P, S order has a strictly smaller count. |
| RockPaperScissorsFrame.MostUsedMove | src/RockPaperScissorsFrame.java:246-260 | Most Used plays a valid move that beats the most-used symbol. |
| RockPaperScissorsFrame.TieBreakDetermines | src/RockPaperScissorsFrame.java:233-256 | The minimum (maximum) with the R, P, S tie-break is unique, so it characterises the chosen symbol. |
| RockPaperScissorsFrame.CountStrategyExamples | src/RockPaperScissorsFrame.java:225-260 | Worked cases: equal counts give Paper for both strategies. Counts (2,1,0) give R and P. After R, R, P, Least Used plays R. |
| RockPaperScissorsFrame.LastUsedMove | src/RockPaperScissorsFrame.java:268-275 | With a recorded move it replays that move. Without one it plays the Random strategy's move for the draw. |
| RockPaperScissorsFrame.SelectStrategy | src/RockPaperScissorsFrame.java:126-141 | Each strategy is chosen exactly on its roll range. |
| RockPaperScissorsFrame.SelectionBoundaries | src/RockPaperScissorsFrame.java:126-141 | The ranges switch exactly at 10/11, 30/31, 50/51 and 70/71, and 1 and 100 belong to Cheat and Random. |
| RockPaperScissorsFrame.StrategyName | src/RockPaperScissorsFrame.java:126-141 | The name each branch of the dispatch assigns to `strategyName`. `StrategyNamesDistinct` proves the five names pairwise distinct. |
| RockPaperScissorsFrame.StrategyNamesDistinct | src/RockPaperScissorsFrame.java:126-141 | The five reported strategy names are pairwise distinct. |
| RockPaperScissorsFrame.ComputerMove | src/Strategy.java:5-11 | Every strategy returns R, P or S whenever the remembered last move is one. |
| RockPaperScissorsFrame.PlayRound | src/RockPaperScissorsFrame.java:114-146 | One press of a move button as a function of the old state, the roll and the draw. `RoundUpdatesState`, `RoundComputerMoveIsValid`, `LastUsedRoundIsTie` and `CheatRoundComputerWins` state what it does. |
| RockPaperScissorsFrame.RoundUpdatesState | src/RockPaperScissorsFrame.java:114-146 | A round records the move, picks the roll's strategy, and lets it play against the updated history. It adjudicates the two moves, tallies exactly that outcome's counter, and builds the result line of the two moves and the strategy name. |
| RockPaperScissorsFrame.RoundComputerMoveIsValid | src/RockPaperScissorsFrame.java:118-143 | For a valid player move the computer's move is valid, whichever strategy plays. |
| RockPaperScissorsFrame.LastUsedRoundIsTie | src/RockPaperScissorsFrame.java:118-143 | Because the move is recorded first, Last Used replays the current move, never falls back to Random, and ties with its tie line. |
| RockPaperScissorsFrame.CheatRoundComputerWins | src/RockPaperScissorsFrame.java:126-146 | A Cheat round against a valid move is a computer win. |
| RockPaperScissorsFrame.Session.constructor | src/RockPaperScissorsFrame.java:10-18 | A new session has zero counts, no last move and zero statistics. |
| RockPaperScissorsFrame.Session.IncrementPlayerCounts | src/RockPaperScissorsFrame.java:164-171 | The history fields become `RecordMove` of the old history, and the statistics do not change. |
| RockPaperScissorsFrame.Session.BuildResultLine | src/RockPaperScissorsFrame.java:173-204 | The statistics become `Tally` of the adjudicated outcome, and the history does not change. The returned line is `ResultLine`. |
| RockPaperScissorsFrame.Session.HandleMove | src/RockPaperScissorsFrame.java:114-147 | The new session state and the returned line are exactly those of `PlayRound` from the old state. |
| Rounds.PlayCountsRounds | src/RockPaperScissorsFrame.java:173-204 | After n rounds the statistics total grows by n, and no counter decreases. |
| Rounds.Play | src/RockPaperScissorsFrame.java:114-146 | A session of repeated rounds, each played on the state the one before left. `PlayCountsRounds`, `PlayCountsMoves` and `PlayRemembersLastMove` state what it accumulates. |
| Rounds.PlayCountsMoves | src/RockPaperScissorsFrame.java:164-169 | After a sequence of rounds each symbol's count grows by the number of times it was played. |
| Rounds.PlayRemembersLastMove | src/RockPaperScissorsFrame.java:170 | After a non-empty sequence of rounds the last move is the last one played. |
| Rounds.OccurrencesSum | src/RockPaperScissorsFrame.java:164-169 | For valid moves the three symbol occurrences add up to the number of rounds. |
| Rounds.SessionFromStart | src/RockPaperScissorsFrame.java:10-18 | From zero counters, such as a new session's, the statistics total and the three play counts match the moves played. Each count is how often its symbol was played, and with valid moves the counts sum to the number of rounds. |
| Rounds.RollsPartition | src/RockPaperScissorsFrame.java:121-141 | The five roll sets cover 1..100 and are pairwise disjoint. |
| Rounds.RollWeights | src/RockPaperScissorsFrame.java:121-141 | Out of the 100 rolls, Cheat owns 10, Least Used, Most Used and Last Used own 20 each, and Random owns 30. |

## Left out

- The Swing user interface is not modelled: the window, its buttons, icons, text area, statistics fields, `loadIcon`, `main` and the Quit button's `System.exit`. `HandleMove` returns the result line instead of appending it to the text area, and the statistics fields show values the `Session` fields already hold.
- `moveFromEvent` is not modelled, because it maps a button press to "R", "P" or "S". The player's move is a parameter of `HandleMove`.
- Java `String` moves are modelled as a single `char`. Every move in the program is a one-letter string, and any other character stands for an unknown move.
- `java.util.Random` is not modelled. The strategy-selecting roll and the Random strategy's draw are parameters of `HandleMove` and `RandomStrategy.GetMove`. The statement about uniform randomness becomes the counting lemmas `RollWeights` and `EachMoveHasOneDraw`.
- The `Strategy` interface and its five strategy objects are not modelled as objects. They become the `StrategyKind` datatype, dispatched by `ComputerMove`. The interface's "returns R, P or S" promise is the `ValidMove` ensures of Cheat, Random, Least Used and Most Used. For Last Used it is ensured only for a valid last move (`LastUsedMove`, `ComputerMove`), and `RoundComputerMoveIsValid` states it for every valid player move.
- The session counters are Java `int` values that would wrap after 2^31 - 1 rounds. They are modelled as unbounded `nat`, so `Tally` and `RecordMove` do not model that wrap-around.
- Concurrency is not modelled, because the Swing event thread runs one round at a time.
- The middle words of a win line, its verb and the losing move's word, have no lemma of their own. Comparing the long literal strings is too costly for the prover. The lemmas fix each line's opening word and its closing verdict and strategy name, and `Session.BuildResultLine` returns exactly `ResultLine`.
