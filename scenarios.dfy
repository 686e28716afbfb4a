/**
 * Concrete boards on which the policy and the win detection give the
 * expected answers.
 */
module Scenarios {
  import opened Wrappers
  import opened Squares
  import opened Boards
  import opened Game

  /** `m` on squares 1 and 2, the rest blank. */
  function FirstRowPair(m: Marker): (r: Cells)
    ensures WellFormed(r) && r[1] == m && r[2] == m
  {
    EmptyCells[1 := m][2 := m]
  }

  /** The first line of two equal markers and a blank is claimed at its blank, 3. */
  lemma FirstRowThreat(cells: Cells, m: Marker)
    requires WellFormed(cells) && Marked(m)
    requires cells[1] == m && cells[2] == m && Unmarked(cells[3])
    ensures FirstThreat(cells, m) == Some(3)
    ensures HasThreat(cells, m)
  {
    WinningLinesValid();
    var line := WinningLines[0];
    assert line == [1, 2, 3];
    assert LineMarkers(cells, line) == [m, m];
    assert LineUnmarked(cells, line) == [3];
    assert ThreatFor(cells, line, m);
  }

  /** With X one move from the first row, the computer playing X takes square 3. */
  lemma OffenseScenario()
    ensures MoveChoice(FirstRowPair("X"), "X", "O") == Offense
    ensures StrategyMove(FirstRowPair("X"), "X", "O") == Some(3)
  {
    FirstRowThreat(FirstRowPair("X"), "X");
  }

  /** A marker that is on no square threatens no line. */
  lemma AbsentNoThreat(cells: Cells, m: Marker)
    requires WellFormed(cells)
    requires forall p :: IsPosition(p) ==> cells[p] != m
    ensures !HasThreat(cells, m)
  {
    WinningLinesValid();
    forall i | 0 <= i < |WinningLines| ensures !ThreatFor(cells, WinningLines[i], m) {
      var line := WinningLines[i];
      LineMarkersOnLine(cells, line);
    }
  }

  /** With only O one move from the first row, the computer playing X blocks at 3. */
  lemma DefenseScenario()
    ensures MoveChoice(FirstRowPair("O"), "X", "O") == Defense
    ensures StrategyMove(FirstRowPair("O"), "X", "O") == Some(3)
  {
    AbsentNoThreat(FirstRowPair("O"), "X");
    FirstRowThreat(FirstRowPair("O"), "O");
  }

  /** X threatens the first row and O the second: offense comes first. */
  lemma OffenseBeforeDefense()
    ensures WellFormed(EmptyCells[1 := "X"][2 := "X"][4 := "O"][5 := "O"])
    ensures MoveChoice(EmptyCells[1 := "X"][2 := "X"][4 := "O"][5 := "O"], "X", "O") == Offense
    ensures StrategyMove(EmptyCells[1 := "X"][2 := "X"][4 := "O"][5 := "O"], "X", "O") == Some(3)
  {
    FirstRowThreat(EmptyCells[1 := "X"][2 := "X"][4 := "O"][5 := "O"], "X");
  }

  /** X across the first row: X has won. */
  lemma WinScenario()
    ensures WellFormed(EmptyCells[1 := "X"][2 := "X"][3 := "X"])
    ensures WinnerOf(EmptyCells[1 := "X"][2 := "X"][3 := "X"]) == Some("X")
    ensures SomeoneWon(EmptyCells[1 := "X"][2 := "X"][3 := "X"])
  {
    var cells := EmptyCells[1 := "X"][2 := "X"][3 := "X"];
    WinningLinesValid();
    assert WinningLines[0] == [1, 2, 3];
    assert ThreeIdenticalMarkers(cells, WinningLines[0]);
  }

  /** X O X / X O O / O X X: every square is marked and no line is complete. */
  function TieBoard(): (r: Cells)
    ensures WellFormed(r)
  {
    EmptyCells[1 := "X"][2 := "O"][3 := "X"][4 := "X"][5 := "O"][6 := "O"][7 := "O"][8 := "X"][9 := "X"]
  }

  /** The tie board's squares, read one by one. */
  lemma TieBoardSquares()
    ensures TieBoard()[1] == "X" && TieBoard()[2] == "O" && TieBoard()[3] == "X"
    ensures TieBoard()[4] == "X" && TieBoard()[5] == "O" && TieBoard()[6] == "O"
    ensures TieBoard()[7] == "O" && TieBoard()[8] == "X" && TieBoard()[9] == "X"
  {
  }

  /** On a board laid out as the tie board, no winning line is complete. */
  lemma TieLayoutNoWinner(cells: Cells)
    requires WellFormed(cells)
    requires cells[1] == "X" && cells[2] == "O" && cells[3] == "X"
    requires cells[4] == "X" && cells[5] == "O" && cells[6] == "O"
    requires cells[7] == "O" && cells[8] == "X" && cells[9] == "X"
    ensures Full(cells)
    ensures WinnerOf(cells) == None && !SomeoneWon(cells)
  {
    WinningLinesValid();
    forall i | 0 <= i < |WinningLines| ensures !ThreeIdenticalMarkers(cells, WinningLines[i]) {
      if i == 0 { assert WinningLines[i] == [1, 2, 3]; }
      else if i == 1 { assert WinningLines[i] == [4, 5, 6]; }
      else if i == 2 { assert WinningLines[i] == [7, 8, 9]; }
      else if i == 3 { assert WinningLines[i] == [1, 4, 7]; }
      else if i == 4 { assert WinningLines[i] == [2, 5, 8]; }
      else if i == 5 { assert WinningLines[i] == [3, 6, 9]; }
      else if i == 6 { assert WinningLines[i] == [1, 5, 9]; }
      else { assert WinningLines[i] == [3, 5, 7]; }
    }
  }

  /** The tie board is full and nobody has won. */
  lemma TieScenario()
    ensures Full(TieBoard())
    ensures WinnerOf(TieBoard()) == None && !SomeoneWon(TieBoard())
  {
    TieBoardSquares();
    TieLayoutNoWinner(TieBoard());
  }

  /** On the empty board the policy falls through to the random tier. */
  lemma RandomScenario(computerMarker: Marker, humanMarker: Marker)
    ensures WellFormed(EmptyCells)
    ensures MoveChoice(EmptyCells, computerMarker, humanMarker) == Random
    ensures StrategyMove(EmptyCells, computerMarker, humanMarker) == None
  {
    EmptyBoardQuiet();
    WinningLinesValid();
    FirstMoveIsFirstThreat(EmptyCells, WinningLines, computerMarker);
    FirstMoveIsFirstThreat(EmptyCells, WinningLines, humanMarker);
  }
}
