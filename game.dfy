/**
 * The game: the computer's three-tier move policy (offense, then defense,
 * then an arbitrary free square), scoring, the match winner and the list
 * formatter used in prompts.
 */
module Game {
  import opened Wrappers
  import opened Squares
  import opened Boards
  import opened Players

  /** Points a player needs to win the match. */
  const WinningScore: nat := 5

  /** What `move_choice` answers. */
  datatype Choice = Offense | Defense | Random

  /**
   * The empty square of the first entry whose marker is `target`: where the
   * AIs' loop writes before it breaks.
   */
  function FirstSquareFor(moves: seq<WinningMove>, target: Marker): (r: Option<int>)
    ensures r.None? <==> forall k :: 0 <= k < |moves| ==> moves[k].marker != target
    ensures r.Some? ==> exists k :: 0 <= k < |moves| && moves[k].marker == target && moves[k].emptySquare == r.value
                                    && forall j :: 0 <= j < k ==> moves[j].marker != target
  {
    if moves == [] then None
    else if moves[0].marker == target then Some(moves[0].emptySquare)
    else FirstSquareFor(moves[1..], target)
  }

  /** Scanning the threat list for `target` finds the first line `target` threatens. */
  lemma {:induction false} FirstMoveIsFirstThreat(cells: Cells, lines: seq<seq<int>>, target: Marker)
    requires WellFormed(cells) && ValidLines(lines)
    ensures FirstSquareFor(ThreatsIn(cells, lines), target) == FirstThreatSquare(cells, lines, target)
  {
    if lines != [] {
      FirstMoveIsFirstThreat(cells, lines[1..], target);
      var rest := ThreatsIn(cells, lines[1..]);
      if IsThreat(cells, lines[0]) {
        var mv := ThreatMove(cells, lines[0]);
        assert ThreatsIn(cells, lines) == [mv] + rest;
        assert ([mv] + rest)[1..] == rest;
      } else {
        assert ThreatsIn(cells, lines) == rest;
      }
    }
  }

  /** The markers of the entries, in order. */
  function MarkersOf(moves: seq<WinningMove>): (r: seq<Marker>)
    ensures |r| == |moves| && forall k :: 0 <= k < |moves| ==> r[k] == moves[k].marker
  {
    seq(|moves|, k requires 0 <= k < |moves| => moves[k].marker)
  }

  /** A marker is listed exactly when the AIs' scan for it finds an entry. */
  lemma MarkerListed(moves: seq<WinningMove>, m: Marker)
    ensures m in MarkersOf(moves) <==> FirstSquareFor(moves, m).Some?
  {
    var markers := MarkersOf(moves);
    if FirstSquareFor(moves, m).Some? {
      var k :| 0 <= k < |moves| && moves[k].marker == m;
      assert markers[k] == m;
    }
  }

  /** `TTTGame#move_choice`. */
  function MoveChoice(cells: Cells, computerMarker: Marker, humanMarker: Marker): (r: Choice)
    requires WellFormed(cells)
    ensures r == Offense <==> HasThreat(cells, computerMarker)
    ensures r == Defense <==> !HasThreat(cells, computerMarker) && HasThreat(cells, humanMarker)
  {
    WinningLinesValid();
    var moves := ThreatsOf(cells);
    var markers := MarkersOf(moves);
    FirstMoveIsFirstThreat(cells, WinningLines, computerMarker);
    FirstMoveIsFirstThreat(cells, WinningLines, humanMarker);
    MarkerListed(moves, computerMarker);
    MarkerListed(moves, humanMarker);
    FirstThreatSquareNone(cells, WinningLines, computerMarker);
    FirstThreatSquareNone(cells, WinningLines, humanMarker);
    if computerMarker in markers then Offense
    else if humanMarker in markers then Defense
    else Random
  }

  /**
   * The square the offense or defense tier writes to, or None when the
   * policy falls through to the random tier.
   */
  function StrategyMove(cells: Cells, computerMarker: Marker, humanMarker: Marker): (r: Option<int>)
    requires WellFormed(cells)
    ensures r.None? <==> MoveChoice(cells, computerMarker, humanMarker) == Random
    ensures r.Some? ==> r.value in UnmarkedKeys(cells)
    ensures MoveChoice(cells, computerMarker, humanMarker) == Offense ==>
              r == FirstThreat(cells, computerMarker)
    ensures MoveChoice(cells, computerMarker, humanMarker) == Defense ==>
              r == FirstThreat(cells, humanMarker)
  {
    WinningLinesValid();
    FirstMoveIsFirstThreat(cells, WinningLines, computerMarker);
    FirstMoveIsFirstThreat(cells, WinningLines, humanMarker);
    match MoveChoice(cells, computerMarker, humanMarker)
    case Offense => FirstSquareFor(ThreatsOf(cells), computerMarker)
    case Defense => FirstSquareFor(ThreatsOf(cells), humanMarker)
    case Random => None
  }

  /** Marking a square outside a line changes nothing about that line. */
  lemma UntouchedLine(cells: Cells, line: seq<int>, p: int, m: Marker)
    requires WellFormed(cells) && ValidLine(line) && IsPosition(p)
    ensures WellFormed(cells[p := m])
    ensures p != line[0] && p != line[1] && p != line[2] ==>
              (ThreeIdenticalMarkers(cells[p := m], line) <==> ThreeIdenticalMarkers(cells, line))
  {
  }

  /**
   * Completing the first line `m` threatens, on a board where no line is
   * complete yet, makes `m` the winner.
   */
  lemma CompletingThreatWins(cells: Cells, lines: seq<seq<int>>, m: Marker, p: int)
    requires WellFormed(cells) && ValidLines(lines)
    requires FirstWinner(cells, lines) == None
    requires FirstThreatSquare(cells, lines, m) == Some(p)
    ensures WellFormed(cells[p := m])
    ensures FirstWinner(cells[p := m], lines) == Some(m)
  {
    var after := cells[p := m];
    FirstThreatSquareFirst(cells, lines, m);
    var i :| 0 <= i < |lines| && ThreatFor(cells, lines[i], m) && ThreatMove(cells, lines[i]).emptySquare == p;
    ThreatCompletesLine(cells, lines[i]);
    assert ThreeIdenticalMarkers(after, lines[i]);
    var w := FirstWinner(after, lines);
    var k :| 0 <= k < |lines| && Completes(after, lines[k], w.value);
    var line := lines[k];
    UntouchedLine(cells, line, p, m);
    assert !ThreeIdenticalMarkers(cells, line);
    assert ThreeIdenticalMarkers(after, line);
    assert p == line[0] || p == line[1] || p == line[2];
  }

  /**
   * When nobody has won yet and the policy picks offense, the computer's
   * move wins the round for the computer.
   */
  lemma OffenseWins(cells: Cells, computerMarker: Marker, humanMarker: Marker)
    requires WellFormed(cells) && WinnerOf(cells) == None
    requires MoveChoice(cells, computerMarker, humanMarker) == Offense
    ensures StrategyMove(cells, computerMarker, humanMarker).Some?
    ensures WellFormed(cells[StrategyMove(cells, computerMarker, humanMarker).value := computerMarker])
    ensures WinnerOf(cells[StrategyMove(cells, computerMarker, humanMarker).value := computerMarker]) == Some(computerMarker)
  {
    WinningLinesValid();
    var p := StrategyMove(cells, computerMarker, humanMarker).value;
    CompletingThreatWins(cells, WinningLines, computerMarker, p);
  }

  /**
   * Blocking: after the computer marks the empty square of a line the human
   * threatens, that line is neither a threat nor a win any more.
   */
  lemma BlockedLine(cells: Cells, line: seq<int>, computerMarker: Marker, humanMarker: Marker)
    requires WellFormed(cells) && ValidLine(line) && ThreatFor(cells, line, humanMarker)
    requires Marked(computerMarker) && computerMarker != humanMarker
    ensures WellFormed(cells[ThreatMove(cells, line).emptySquare := computerMarker])
    ensures var after := cells[ThreatMove(cells, line).emptySquare := computerMarker];
            !IsThreat(after, line) && !ThreeIdenticalMarkers(after, line)
  {
    var after := cells[ThreatMove(cells, line).emptySquare := computerMarker];
  }

  predicate StartsWith(s: string, prefix: string) {
    |prefix| <= |s| && s[..|prefix|] == prefix
  }

  predicate EndsWith(s: string, suffix: string) {
    |suffix| <= |s| && s[|s| - |suffix|..] == suffix
  }

  /** Ruby's `Array#join(sep)` on strings. */
  function Join(items: seq<string>, sep: string): (r: string)
    ensures |items| == 0 ==> r == ""
    ensures |items| == 1 ==> r == items[0]
    ensures |items| >= 1 ==> StartsWith(r, items[0])
    ensures |items| >= 1 ==> EndsWith(r, items[|items| - 1])
  {
    if |items| == 0 then ""
    else if |items| == 1 then items[0]
    else
      var rest := Join(items[1..], sep);
      assert items[1..][|items[1..]| - 1] == items[|items| - 1];
      items[0] + sep + rest
  }

  /** Joining one more item appends the separator and that item. */
  lemma {:induction false} JoinSnoc(items: seq<string>, x: string, sep: string)
    requires |items| >= 1
    ensures Join(items + [x], sep) == Join(items, sep) + sep + x
  {
    var all := items + [x];
    assert all[0] == items[0];
    if |items| == 1 {
      assert all[1..] == [x];
    } else {
      assert all[1..] == items[1..] + [x];
      JoinSnoc(items[1..], x, sep);
    }
  }

  /**
   * `TTTGame#verbose_join`: "a", "a or b", "a, b, or c". On no items the
   * source yields ", or " (Ruby's `[][0..-2]` is empty and `[][-1]` is nil).
   */
  function VerboseJoin(items: seq<string>): (r: string)
    ensures |items| == 0 ==> r == ", or "
    ensures |items| == 1 ==> r == items[0]
    ensures |items| >= 1 ==> StartsWith(r, items[0])
    ensures |items| == 2 ==> r == items[0] + " or " + items[1]
    ensures |items| == 3 ==> r == items[0] + ", " + items[1] + ", or " + items[2]
    ensures |items| >= 3 ==> EndsWith(r, ", or " + items[|items| - 1])
    ensures |items| >= 3 ==> r == Join(items[..|items| - 1], ", ") + ", or " + items[|items| - 1]
  {
    var n := |items|;
    if n == 0 then ", or "
    else if n == 1 then items[0]
    else if n == 2 then items[0] + " or " + items[1]
    else
      var init := Join(items[..n - 1], ", ");
      assert items[..n - 1][0] == items[0];
      assert n == 3 ==> items[..n - 1] == [items[0]] + [items[1]];
      assert n == 3 ==> init == items[0] + ", " + items[1] by {
        if n == 3 { JoinSnoc([items[0]], items[1], ", "); }
      }
      init + ", or " + items[n - 1]
  }

  /** `TTTGame`: the board and the two players of one match. */
  class TTTGame {
    const board: Board
    const human: Player
    const computer: Player

    /** Both markers are real markers and they differ. */
    ghost predicate Valid()
      reads board
    {
      && board.Valid()
      && Marked(human.marker) && Marked(computer.marker)
      && human.marker != computer.marker
    }

    /**
     * `TTTGame.new` once its re-roll loop has produced a computer player
     * whose marker and name differ from the human's.
     */
    constructor (human: Player, computer: Player)
      requires Marked(human.marker) && Marked(computer.marker)
      requires human.marker != computer.marker && human.name != computer.name
      ensures Valid() && fresh(board) && board.squares == EmptyCells
      ensures this.human == human && this.computer == computer
    {
      board := new Board();
      this.human := human;
      this.computer := computer;
    }

    /**
     * The loop shared by the offense and defense AIs: write the computer's
     * marker on the empty square of the first entry whose marker is
     * `target`, then stop.
     */
    method ClaimFirstThreat(target: Marker)
      requires Valid()
      modifies board
      ensures Valid()
      ensures match FirstSquareFor(ThreatsOf(old(board.squares)), target)
              case Some(p) => board.squares == old(board.squares)[p := computer.marker]
              case None => board.squares == old(board.squares)
    {
      var moves := board.CurrentWinningMoves();
      var i := 0;
      while i < |moves|
        invariant 0 <= i <= |moves|
        invariant board.squares == old(board.squares)
        invariant FirstSquareFor(moves[i..], target) == FirstSquareFor(moves, target)
      {
        var marker := moves[i].marker;
        var emptySquare := moves[i].emptySquare;
        if marker == target {
          board.Set(emptySquare, computer.marker);
          break;
        }
        assert moves[i..][1..] == moves[i + 1..];
        i := i + 1;
      }
    }

    /** `TTTGame#computer_offense_ai`: complete the computer's first threatened line. */
    method ComputerOffenseAi()
      requires Valid()
      modifies board
      ensures Valid()
      ensures match FirstSquareFor(ThreatsOf(old(board.squares)), computer.marker)
              case Some(p) => board.squares == old(board.squares)[p := computer.marker]
              case None => board.squares == old(board.squares)
    {
      ClaimFirstThreat(computer.marker);
    }

    /** `TTTGame#computer_defense_ai`: block the human's first threatened line. */
    method ComputerDefenseAi()
      requires Valid()
      modifies board
      ensures Valid()
      ensures match FirstSquareFor(ThreatsOf(old(board.squares)), human.marker)
              case Some(p) => board.squares == old(board.squares)[p := computer.marker]
              case None => board.squares == old(board.squares)
    {
      ClaimFirstThreat(human.marker);
    }

    /** `TTTGame#computer_random_move`: mark some unmarked square. */
    method ComputerRandomMove()
      requires Valid() && !Full(board.squares)
      modifies board
      ensures Valid()
      ensures exists p :: p in UnmarkedKeys(old(board.squares)) && board.squares == old(board.squares)[p := computer.marker]
    {
      var keys := UnmarkedKeys(board.squares);
      assert keys[0] in keys;
      var p :| p in keys;
      board.Set(p, computer.marker);
    }

    /**
     * `TTTGame#computer_moves` without its message and pause: dispatch on
     * `move_choice`. Exactly one unmarked square gets the computer's marker.
     */
    method ComputerMoves()
      requires Valid() && !Full(board.squares)
      modifies board
      ensures Valid()
      ensures exists p :: p in UnmarkedKeys(old(board.squares)) && board.squares == old(board.squares)[p := computer.marker]
      ensures StrategyMove(old(board.squares), computer.marker, human.marker).Some? ==>
                board.squares == old(board.squares)[StrategyMove(old(board.squares), computer.marker, human.marker).value := computer.marker]
      ensures |UnmarkedKeys(board.squares)| == |UnmarkedKeys(old(board.squares))| - 1
    {
      ghost var before := board.squares;
      ghost var planned := StrategyMove(before, computer.marker, human.marker);
      ghost var p: int;
      match MoveChoice(board.squares, computer.marker, human.marker) {
        case Offense =>
          ComputerOffenseAi();
          p := planned.value;
        case Defense =>
          ComputerDefenseAi();
          p := planned.value;
        case Random =>
          ComputerRandomMove();
          p :| p in UnmarkedKeys(before) && board.squares == before[p := computer.marker];
      }
      MarkRemovesKey(before, p, computer.marker);
    }

    /**
     * `TTTGame#update_score`: a point to the human when the human's marker
     * won, otherwise (a computer win or a tie) a point to the computer.
     */
    method UpdateScore()
      requires Valid()
      modifies human, computer
      ensures WinnerOf(board.squares) == Some(human.marker) ==>
                human.points == old(human.points) + 1 && computer.points == old(computer.points)
      ensures WinnerOf(board.squares) != Some(human.marker) ==>
                computer.points == old(computer.points) + 1 && human.points == old(human.points)
      ensures human.points + computer.points == old(human.points + computer.points) + 1
    {
      var winner := board.WinningMarker();
      if winner == Some(human.marker) {
        human.points := human.points + 1;
      } else {
        computer.points := computer.points + 1;
      }
    }

    /** `TTTGame#winning_player`: the human is checked first. */
    function WinningPlayer(): (r: Player?)
      requires Valid()
      reads board, human, computer
      ensures r == human <==> human.points >= WinningScore
      ensures r == computer <==> human.points < WinningScore && computer.points >= WinningScore
      ensures r == null <==> human.points < WinningScore && computer.points < WinningScore
    {
      if human.points >= WinningScore then human
      else if computer.points >= WinningScore then computer
      else null
    }

    /** `TTTGame#match_complete?`: some player has reached the winning score. */
    function MatchComplete(): (r: bool)
      requires Valid()
      reads board, human, computer
      ensures r <==> human.points >= WinningScore || computer.points >= WinningScore
    {
      WinningPlayer() != null
    }

    /** `TTTGame#reset_match` without the first-player bookkeeping. */
    method ResetMatch()
      requires Valid()
      modifies board, human, computer
      ensures Valid() && board.squares == EmptyCells
      ensures human.points == 0 && computer.points == 0
    {
      board.Reset();
      human.Reset();
      computer.Reset();
    }
  }
}
