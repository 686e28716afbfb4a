# Tic-tac-toe board engine and computer opponent, in Dafny

This project models the core of a terminal tic-tac-toe game written in Ruby
(`tic_tac_toe.rb`). A match is played in rounds between a human and the
computer. The model covers:

- **The board.** A table from the positions 1..9 to squares. A square is
  unmarked while it holds the initial marker, a single space. The board
  supports `reset`, `board[num] = marker`, `unmarked_keys` and `full?`.
- **Win detection.** `winning_marker` and `someone_won?` scan the eight
  winning lines (rows, then columns, then diagonals).
- **Threat detection.** `current_winning_moves` reports each line that holds
  exactly two marked squares with equal markers, together with that line's
  empty square.
- **The computer's move policy.** `move_choice` picks offense (complete the
  computer's own line), then defense (block the human's line), then a random
  free square. `computer_offense_ai`, `computer_defense_ai` and
  `computer_random_move` then write the computer's marker onto the board.
- **Small helpers.** Scoring (`update_score`, `winning_player`), the human
  input validators (`valid_marker?`, `blank?`) and the list formatter
  `verbose_join`.

Layout, one module per part of the program:

- `wrappers.dfy` (`Wrappers`): `Option`, which stands for Ruby's `nil`-or-value.
- `square.dfy` (`Squares`): markers and the marked/unmarked tests of `Square`.
- `board.dfy` (`Boards`): the queries as functions on the table's value
  (`Cells`, a `map<int, Marker>`), their lemmas, and the class `Board` with
  the table as a field. `Reset` and `Set` mutate it. `WinningMarker` and
  `CurrentWinningMoves` run the source's loops over the winning lines. The
  loops are written once over any list of lines (`FirstCompleteAlong`,
  `ThreatsAlong`) and proved equal to their specification functions
  (`FirstWinner`, `ThreatsIn`).
- `player.dfy` (`Players`): the `Player` class (marker, name, points) and the
  validators.
- `scenarios.dfy` (`Scenarios`): concrete boards for offense, defense, offense-before-defense, the random fallback, a win and a tie.
- `game.dfy` (`Game`): the move policy as functions, and the class `TTTGame`
  with the AI methods, `UpdateScore` and `WinningPlayer`. `VerboseJoin` also
  lives here.

Modelling choices:

- A `Square` object is represented by the marker it holds. Each square belongs
  to exactly one key of the table and is never shared, and `reset` allocates
  fresh ones. So nothing observable depends on the objects' identity.
- Ruby hashes keep keys in insertion order. The table's keys are inserted as
  1..9 by the first `reset` and are never removed or re-inserted. So the key
  order is the constant `Positions` = `[1, …, 9]`.
- `markers.min == markers.max` in the identical-marker tests means "all
  equal", and is modelled as plain equality.
- The random tier picks *some* element of `unmarked_keys` (`:|`).
- `board[num] = m` overwrites whatever the square held, as the code does. Its
  only precondition is `1 <= num <= 9`: any other key has no square, and the
  call would fail. A stricter contract would reject occupied squares; the
  model follows the code, which overwrites.
- In the code, the AI methods write the board themselves. `StrategyMove`
  gives their choice as a pure function, and the AI methods write it to the
  board. `ComputerMoves` is proved to write exactly where `StrategyMove`
  points.
- The random move requires a board that is not full. On a full board
  `unmarked_keys.sample` is `nil` and `board[nil] = …` raises. The round loop
  never asks the computer to move on a full board.
- `TTTGame.new` re-rolls the computer player until its marker and name differ
  from the human's. The model's constructor takes that outcome as its
  precondition. Both markers are also non-blank: the human's passed
  `valid_marker?`, and the computer's comes from `['X', 'O', '*', '@']`.

## Model

| member | source | states |
|---|---|---|
| `Squares.Unmarked` | tic_tac_toe.rb:100-102 | a square is unmarked exactly when it holds the one-character string of a space |
| `Squares.Marked` | tic_tac_toe.rb:100-106 | a square is marked exactly when it is not unmarked, i.e. does not hold the blank `" "` |
| `Boards.WinningLinesValid` | tic_tac_toe.rb:2-4 | there are eight winning lines, each of three distinct positions 1..9 |
| `Boards.WinningLinesDistinct` | tic_tac_toe.rb:2-4 | no winning line is listed twice |
| `Boards.AllEqualThree` | tic_tac_toe.rb:78 | three markers have `min == max` (all equal) iff the second and third equal the first |
| `Boards.UnmarkedKeys` | tic_tac_toe.rb:15-17 | the result holds exactly the positions 1..9 whose square is unmarked, in strictly ascending order |
| `Boards.Full` | tic_tac_toe.rb:19-21 | `full?` holds iff every one of the nine squares is marked, i.e. `unmarked_keys` is empty |
| `Boards.LineMarkers` | tic_tac_toe.rb:41 | the markers collected from a line's marked squares are all non-blank |
| `Boards.LineMarkersRanked` | tic_tac_toe.rb:41 | the collected markers are exactly the marked squares' markers in line order: as many as marked squares, each marked square's marker at its rank among the marked ones |
| `Boards.LineUnmarked` | tic_tac_toe.rb:43 | the positions selected as unmarked lie on the line and are unmarked; marked plus unmarked squares of a line number three |
| `Boards.LineUnmarkedRanked` | tic_tac_toe.rb:43 | the selected positions are exactly the line's unmarked positions in line order: each unmarked position appears, at its rank among the unmarked ones |
| `Boards.ThreatForSquares` | tic_tac_toe.rb:41-45 | a line is a threat for `m` iff `m` is non-blank, one of its squares is unmarked and the other two hold `m` |
| `Boards.ThreeIdenticalMarkers` | tic_tac_toe.rb:75-79 | true iff all three squares of the line hold the same marker and that marker is not blank |
| `Boards.TwoIdenticalMarkers` | tic_tac_toe.rb:81-84 | true iff there are exactly two markers and they are equal |
| `Boards.ThreatMove` | tic_tac_toe.rb:43-47 | a threatened line's entry carries a non-blank marker and an empty square that lies on the line, is a position and is unmarked |
| `Boards.FirstWinner` | tic_tac_toe.rb:27-35 | returns the marker of the first complete line in line order (none complete before it), never the blank; returns nil iff no line is complete |
| `Boards.SomeoneWon` | tic_tac_toe.rb:23-25 | `someone_won?` holds iff some winning line is complete |
| `Boards.ThreatsIn` | tic_tac_toe.rb:37-51 | no more entries than lines; every entry has a non-blank marker and an unmarked position as its empty square |
| `Boards.ThreatsInAppend` | tic_tac_toe.rb:39-49 | scanning two lists of lines in turn gives the first scan's entries followed by the second's |
| `Boards.ThreatsInRanked` | tic_tac_toe.rb:39-49 | one entry per threatened line, in line order: line `i` adds exactly one entry iff it is threatened, and that entry is its `ThreatMove`, placed right after the entries of the earlier lines |
| `Boards.ThreatsInMembers` | tic_tac_toe.rb:37-51 | the entries are exactly the entries of the lines with two equal markers and one empty square |
| `Boards.ThreatsInNone` | tic_tac_toe.rb:37-51 | no threatened line gives an empty list of winning moves |
| `Boards.ThreatCompletesLine` | tic_tac_toe.rb:37-51 | placing an entry's marker on its empty square completes that line with that marker |
| `Boards.FirstThreatSquare` | tic_tac_toe.rb:377-397 | reference definition of the AIs' tie-break: what it finds is a position whose square is unmarked |
| `Boards.FirstThreatSquareNone` | tic_tac_toe.rb:377-397 | the tie-break finds nothing iff no line is threatened by the target marker |
| `Boards.FirstThreatSquareFirst` | tic_tac_toe.rb:377-397 | what the tie-break finds is the empty square of a line threatened by the target marker, with no threatened line before it |
| `Boards.Without` | tic_tac_toe.rb:15-17 | removing a key keeps every other element and the ascending order |
| `Boards.WithoutOnce` | tic_tac_toe.rb:15-17 | removing a key present once from an ascending list shortens it by exactly one |
| `Boards.MarkInRemoves` | tic_tac_toe.rb:11-17 | after marking a square with a non-blank marker, the unmarked positions are the old ones with that position removed |
| `Boards.MarkRemovesKey` | tic_tac_toe.rb:11-17 | marking an unmarked square with a non-blank marker removes exactly that key from `unmarked_keys`, keeping the order, and shortens it by one |
| `Boards.UnmarkedInAllBlank` | tic_tac_toe.rb:15-17 | on all-blank squares every position is reported unmarked, in order |
| `Boards.EmptyBoard` | tic_tac_toe.rb:53-55 | after reset, `unmarked_keys` is `[1, …, 9]` and the board is not full |
| `Boards.EmptyBoardQuiet` | tic_tac_toe.rb:53-55 | after reset nobody has won and there are no winning moves |
| `Boards.Board.constructor` | tic_tac_toe.rb:6-9 | a new board is the reset board |
| `Boards.Board.Reset` | tic_tac_toe.rb:53-55 | the table has exactly the keys 1..9, all unmarked; `unmarked_keys` is 1..9 and `full?` is false; a second reset gives the same state |
| `Boards.Board.Set` | tic_tac_toe.rb:11-13 | only square `num` changes, to `marker`; the key set stays 1..9; with a non-blank marker, `unmarked_keys` loses exactly `num` |
| `Boards.Board.WinningMarker` | tic_tac_toe.rb:27-35 | returns `WinnerOf`: the first complete winning line's marker in line order, else nil |
| `Boards.Board.FirstCompleteAlong` | tic_tac_toe.rb:28-34 | the loop with early return over a list of lines computes `FirstWinner` of that list |
| `Boards.Board.CurrentWinningMoves` | tic_tac_toe.rb:37-51 | returns `ThreatsOf`: one entry per threatened winning line, in line order |
| `Boards.Board.ThreatsAlong` | tic_tac_toe.rb:38-50 | the appending loop over a list of lines computes `ThreatsIn` of that list |
| `Boards.ThreatsInStep` | tic_tac_toe.rb:39-49 | one loop step: the first remaining line contributes its entry, computed as the loop body does, exactly when its two markers are equal |
| `Players.Player.constructor` | tic_tac_toe.rb:109-115 | a player starts with zero points and keeps the marker and name it was given |
| `Players.Player.Reset` | tic_tac_toe.rb:117-119 | points go back to zero |
| `Players.ValidMarker` | tic_tac_toe.rb:140-143 | true iff the marker is one character that is not a space; a valid marker is never the blank square marker |
| `Players.Blank` | tic_tac_toe.rb:156-158 | true iff the string consists of spaces only (the empty string included) |
| `Players.PossibleMarkersValid` | tic_tac_toe.rb:162 | every marker the computer can be given would pass `valid_marker?` |
| `Game.FirstSquareFor` | tic_tac_toe.rb:377-397 | the AIs' scan: the empty square of the first entry with the target marker (no earlier entry has it); none iff no entry has it |
| `Game.FirstMoveIsFirstThreat` | tic_tac_toe.rb:377-397 | scanning the winning-move list finds the first line, in line order, threatened by the target marker |
| `Game.MarkersOf` | tic_tac_toe.rb:369-371 | the mapped list has one marker per entry, in order |
| `Game.MarkerListed` | tic_tac_toe.rb:372-373 | a marker is in the mapped list iff the AIs' scan for it finds an entry |
| `Game.MoveChoice` | tic_tac_toe.rb:368-375 | offense iff the computer threatens some line; defense iff it does not and the human does; random otherwise |
| `Game.StrategyMove` | tic_tac_toe.rb:358-397 | the offense/defense square is an unmarked key and the first line threatened by the computer (offense) or the human (defense); none exactly for the random tier |
| `Game.UntouchedLine` | tic_tac_toe.rb:27-35 | marking a square off a line does not change whether that line is complete |
| `Game.CompletingThreatWins` | tic_tac_toe.rb:388-397 | on a board with no complete line, completing a marker's first threatened line makes that marker the winner |
| `Game.OffenseWins` | tic_tac_toe.rb:361-362 | when nobody has won and the policy picks offense, the computer's move makes the computer the winner |
| `Game.BlockedLine` | tic_tac_toe.rb:377-386 | after the computer marks the empty square of a line the human threatens, that line is neither a threat nor complete |
| `Game.Join` | tic_tac_toe.rb:341 | no items give ""; one item gives the item; a non-empty join starts with the first item and ends with the last |
| `Game.JoinSnoc` | tic_tac_toe.rb:341 | joining a non-empty list plus one more item is the join of the list, the separator, then the item; with the one-item case this fixes the join completely |
| `Game.VerboseJoin` | tic_tac_toe.rb:337-343 | one item gives the item; two give "a or b"; three give "a, b, or c"; three or more give the first n-1 items joined by ", ", then ", or " and the last; none gives ", or " |
| `Game.TTTGame.constructor` | tic_tac_toe.rb:185-196 | the game starts with a fresh reset board and the two given players |
| `Game.TTTGame.ClaimFirstThreat` | tic_tac_toe.rb:377-397 | the loop with break writes the computer's marker at the first entry with the target marker, and changes nothing else; with no such entry the board is unchanged |
| `Game.TTTGame.ComputerOffenseAi` | tic_tac_toe.rb:388-397 | writes the computer's marker at the empty square of the first entry carrying the computer's marker; nothing else changes |
| `Game.TTTGame.ComputerDefenseAi` | tic_tac_toe.rb:377-386 | writes the computer's marker at the empty square of the first entry carrying the human's marker; nothing else changes |
| `Game.TTTGame.ComputerRandomMove` | tic_tac_toe.rb:399-402 | writes the computer's marker on some key of `unmarked_keys`; nothing else changes |
| `Game.TTTGame.ComputerMoves` | tic_tac_toe.rb:358-366 | exactly one previously unmarked square gets the computer's marker, the one `StrategyMove` names when it names one; `unmarked_keys` shrinks by one |
| `Game.TTTGame.UpdateScore` | tic_tac_toe.rb:257-263 | the human gains a point iff the winning marker is the human's; otherwise (computer win or tie) the computer gains one; exactly one point is awarded |
| `Game.TTTGame.WinningPlayer` | tic_tac_toe.rb:326-330 | the human if the human has at least 5 points (checked first), else the computer if it has at least 5, else nil |
| `Game.TTTGame.MatchComplete` | tic_tac_toe.rb:290-292 | the match is over iff either player has at least 5 points |
| `Game.TTTGame.ResetMatch` | tic_tac_toe.rb:310-315 | the board is reset and both players' points are zero |
| `Scenarios.FirstRowThreat` | tic_tac_toe.rb:37-51 | two equal non-blank markers on 1 and 2 with 3 blank: that marker threatens a line, and its first threatened square is 3 |
| `Scenarios.AbsentNoThreat` | tic_tac_toe.rb:37-51 | a marker on no square threatens no line |
| `Scenarios.OffenseScenario` | tic_tac_toe.rb:358-397 | X on 1 and 2, computer X, human O: the policy picks offense and square 3 |
| `Scenarios.DefenseScenario` | tic_tac_toe.rb:358-386 | O on 1 and 2, computer X, human O: the policy picks defense and square 3 |
| `Scenarios.OffenseBeforeDefense` | tic_tac_toe.rb:368-375 | when both players threaten a line, the computer completes its own (square 3) rather than block |
| `Scenarios.RandomScenario` | tic_tac_toe.rb:368-375 | on the empty board, for any markers, the policy falls through to the random tier |
| `Scenarios.WinScenario` | tic_tac_toe.rb:23-35 | X across the first row: the winning marker is X and someone has won |
| `Scenarios.TieLayoutNoWinner` | tic_tac_toe.rb:19-35 | the board X O X / X O O / O X X is full and has no winner |
| `Scenarios.TieScenario` | tic_tac_toe.rb:19-35 | the concrete tie board is full, has no winning marker, and nobody has won |

## Left out

- `Board#draw` and every `display_*` method: terminal output.
- `HumanPlayer#initalize_marker`, `#initalize_name`, `TTTGame#human_moves` and `#play_again?`: input loops over `gets`. Only their validators are modelled.
- `play`, `play_round`, `play_one_round`, `current_player_moves`, `first_player`, `reset_round`, `clear` and `clear_screen_and_display_board`: orchestration mixed with I/O, `sleep` and `system "clear"`. `@current_marker` (whose turn it is) is left out with them; `ResetMatch` omits its update.
- `ComputerPlayer#initalize_marker` and `#initalize_name` draw with `sample`. The re-roll loop of `TTTGame.new` is replaced by the constructor's precondition.
- The message and the `sleep` in `computer_moves`: I/O.
- `Game.TTTGame.ComputerRandomMove`, `Game.TTTGame.ComputerMoves`: require a board that is not full. On a full board `unmarked_keys.sample` is nil and `board[nil] = …` raises; the precondition stands in for that crash, which the round loop never reaches.
- `Game.TTTGame.ComputerRandomMove`: the uniform distribution of `sample` is not modelled; the move is some element of `unmarked_keys`. The discarded first `sample` call has no effect.
- `VerboseJoin`: takes the items as strings. The `to_s` of the integer keys in `human_moves` is not modelled.
- The two top-level lines that create and start the game: process start-up.
