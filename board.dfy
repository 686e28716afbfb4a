/**
 * The board: a table from the positions 1..9 to squares, the eight winning
 * lines, win detection and near-win (threat) detection.
 *
 * The queries that the source writes as selects and maps are functions on
 * the table's value (`Cells`); the class `Board` below holds the table, and
 * its methods are the operations that mutate it or that loop over the lines.
 */
module Boards {
  import opened Wrappers
  import opened Squares

  /** The table of squares, each represented by its marker. */
  type Cells = map<int, Marker>

  /** The positions, in the order the table holds its keys. */
  const Positions: seq<int> := [1, 2, 3, 4, 5, 6, 7, 8, 9]

  /** Rows, then columns, then diagonals. */
  const WinningLines: seq<seq<int>> :=
    [[1, 2, 3], [4, 5, 6], [7, 8, 9]] +
    [[1, 4, 7], [2, 5, 8], [3, 6, 9]] +
    [[1, 5, 9], [3, 5, 7]]

  /** A board where every square holds the initial marker. */
  const EmptyCells: Cells := map p | 1 <= p <= 9 :: InitialMarker

  predicate IsPosition(p: int) {
    1 <= p <= 9
  }

  /** The table holds exactly the nine positions. */
  ghost predicate WellFormed(cells: Cells) {
    forall p :: p in cells <==> IsPosition(p)
  }

  predicate Positional(ps: seq<int>) {
    forall i :: 0 <= i < |ps| ==> IsPosition(ps[i])
  }

  /** A line is three distinct positions. */
  predicate ValidLine(line: seq<int>) {
    && |line| == 3
    && IsPosition(line[0]) && IsPosition(line[1]) && IsPosition(line[2])
    && line[0] != line[1] && line[0] != line[2] && line[1] != line[2]
  }

  predicate ValidLines(lines: seq<seq<int>>) {
    forall i :: 0 <= i < |lines| ==> ValidLine(lines[i])
  }

  predicate Ascending(ps: seq<int>) {
    forall i, j :: 0 <= i < j < |ps| ==> ps[i] < ps[j]
  }

  lemma WinningLinesValid()
    ensures |WinningLines| == 8 && ValidLines(WinningLines)
  {
  }

  /** No winning line is listed twice. */
  lemma WinningLinesDistinct()
    ensures forall i, j :: 0 <= i < j < |WinningLines| ==> WinningLines[i] != WinningLines[j]
  {
  }

  lemma PositionsInOrder()
    ensures Positional(Positions) && Ascending(Positions)
    ensures forall p :: p in Positions <==> IsPosition(p)
  {
  }

  /** The unmarked positions among `ps`, in order. */
  function UnmarkedIn(cells: Cells, ps: seq<int>): (r: seq<int>)
    requires WellFormed(cells) && Positional(ps)
    ensures forall p :: p in r <==> p in ps && Unmarked(cells[p])
    ensures Ascending(ps) ==> Ascending(r)
  {
    if ps == [] then []
    else
      var rest := UnmarkedIn(cells, ps[1..]);
      assert Ascending(ps) ==> forall k :: 0 <= k < |rest| ==> ps[0] < rest[k] by {
        if Ascending(ps) {
          forall k | 0 <= k < |rest| ensures ps[0] < rest[k] {
            assert rest[k] in ps[1..];
          }
        }
      }
      (if Unmarked(cells[ps[0]]) then [ps[0]] else []) + rest
  }

  /** `Board#unmarked_keys`. */
  function UnmarkedKeys(cells: Cells): (r: seq<int>)
    requires WellFormed(cells)
    ensures forall p :: p in r <==> IsPosition(p) && Unmarked(cells[p])
    ensures Ascending(r)
  {
    PositionsInOrder();
    UnmarkedIn(cells, Positions)
  }

  /** `Board#full?`. */
  function Full(cells: Cells): (r: bool)
    requires WellFormed(cells)
    ensures r <==> forall p :: IsPosition(p) ==> Marked(cells[p])
  {
    var keys := UnmarkedKeys(cells);
    assert keys != [] ==> keys[0] in keys;
    keys == []
  }

  predicate AllEqual(markers: seq<Marker>) {
    forall k :: 0 <= k < |markers| ==> markers[k] == markers[0]
  }

  lemma AllEqualThree(a: Marker, b: Marker, c: Marker)
    ensures AllEqual([a, b, c]) <==> b == a && c == a
  {
    assert [a, b, c][1] == b && [a, b, c][2] == c;
    if b == a && c == a {
      forall k | 0 <= k < 3 ensures [a, b, c][k] == a {
        if k == 0 {} else if k == 1 {} else {}
      }
    }
  }

  /** The marker at `p` as a one-element list, or nothing if `p` is unmarked. */
  function MarkerIfMarked(cells: Cells, p: int): seq<Marker>
    requires WellFormed(cells) && IsPosition(p)
  {
    if Marked(cells[p]) then [cells[p]] else []
  }

  /** `p` as a one-element list if it is unmarked, or nothing. */
  function PositionIfUnmarked(cells: Cells, p: int): seq<int>
    requires WellFormed(cells) && IsPosition(p)
  {
    if Unmarked(cells[p]) then [p] else []
  }

  /** The markers of the line's marked squares, in line order. */
  function LineMarkers(cells: Cells, line: seq<int>): (r: seq<Marker>)
    requires WellFormed(cells) && ValidLine(line)
    ensures forall k :: 0 <= k < |r| ==> Marked(r[k])
  {
    MarkerIfMarked(cells, line[0]) + MarkerIfMarked(cells, line[1]) + MarkerIfMarked(cells, line[2])
  }

  /** Every collected marker is the marker of one of the line's squares. */
  lemma LineMarkersOnLine(cells: Cells, line: seq<int>)
    requires WellFormed(cells) && ValidLine(line)
    ensures forall k :: 0 <= k < |LineMarkers(cells, line)| ==>
              LineMarkers(cells, line)[k] in {cells[line[0]], cells[line[1]], cells[line[2]]}
  {
  }

  /** The line's unmarked positions, in line order. */
  function LineUnmarked(cells: Cells, line: seq<int>): (r: seq<int>)
    requires WellFormed(cells) && ValidLine(line)
    ensures forall k :: 0 <= k < |r| ==> (r[k] == line[0] || r[k] == line[1] || r[k] == line[2]) && Unmarked(cells[r[k]])
    ensures |r| + |LineMarkers(cells, line)| == 3
  {
    PositionIfUnmarked(cells, line[0]) + PositionIfUnmarked(cells, line[1]) + PositionIfUnmarked(cells, line[2])
  }

  /** How many of the line's first `k` squares are marked. */
  function MarkedBefore(cells: Cells, line: seq<int>, k: int): nat
    requires WellFormed(cells) && ValidLine(line) && 0 <= k <= 3
  {
    (if k > 0 && Marked(cells[line[0]]) then 1 else 0) +
    (if k > 1 && Marked(cells[line[1]]) then 1 else 0) +
    (if k > 2 && Marked(cells[line[2]]) then 1 else 0)
  }

  /**
   * The collected markers are exactly the marked squares' markers in line
   * order: one per marked square, each at the rank of its square among the
   * marked ones.
   */
  lemma LineMarkersRanked(cells: Cells, line: seq<int>)
    requires WellFormed(cells) && ValidLine(line)
    ensures |LineMarkers(cells, line)| == MarkedBefore(cells, line, 3)
    ensures forall k :: 0 <= k < 3 && Marked(cells[line[k]]) ==>
              MarkedBefore(cells, line, k) < |LineMarkers(cells, line)| &&
              LineMarkers(cells, line)[MarkedBefore(cells, line, k)] == cells[line[k]]
  {
  }

  /**
   * The unmarked positions are exactly the line's unmarked squares in line
   * order: one per unmarked square, each at its rank among the unmarked ones.
   */
  lemma LineUnmarkedRanked(cells: Cells, line: seq<int>)
    requires WellFormed(cells) && ValidLine(line)
    ensures |LineUnmarked(cells, line)| == 3 - MarkedBefore(cells, line, 3)
    ensures forall k :: 0 <= k < 3 && Unmarked(cells[line[k]]) ==>
              k - MarkedBefore(cells, line, k) < |LineUnmarked(cells, line)| &&
              LineUnmarked(cells, line)[k - MarkedBefore(cells, line, k)] == line[k]
  {
    var u0, u1, u2 := PositionIfUnmarked(cells, line[0]), PositionIfUnmarked(cells, line[1]), PositionIfUnmarked(cells, line[2]);
    assert LineUnmarked(cells, line) == u0 + u1 + u2;
    forall k | 0 <= k < 3 && Unmarked(cells[line[k]])
      ensures k - MarkedBefore(cells, line, k) < |LineUnmarked(cells, line)|
      ensures LineUnmarked(cells, line)[k - MarkedBefore(cells, line, k)] == line[k]
    {
      if k == 0 {
        assert u0 == [line[0]];
      } else if k == 1 {
        assert u1 == [line[1]] && |u0| == k - MarkedBefore(cells, line, k);
      } else {
        assert u2 == [line[2]] && |u0 + u1| == k - MarkedBefore(cells, line, k);
      }
    }
  }

  /** All three squares of `line` hold `m`, and `m` is not the initial marker. */
  predicate Completes(cells: Cells, line: seq<int>, m: Marker)
    requires WellFormed(cells) && ValidLine(line)
  {
    Marked(m) && cells[line[0]] == m && cells[line[1]] == m && cells[line[2]] == m
  }

  /** `Board#three_identical_markers?` on the squares of `line`. */
  function ThreeIdenticalMarkers(cells: Cells, line: seq<int>): (r: bool)
    requires WellFormed(cells) && ValidLine(line)
    ensures r <==> Completes(cells, line, cells[line[0]])
  {
    var markers := LineMarkers(cells, line);
    var c0, c1, c2 := cells[line[0]], cells[line[1]], cells[line[2]];
    assert |markers| == 3 <==> Marked(c0) && Marked(c1) && Marked(c2);
    assert |markers| == 3 ==> markers == [c0, c1, c2];
    AllEqualThree(c0, c1, c2);
    |markers| == 3 && AllEqual(markers)
  }

  /** `Board#two_identical_markers?`. */
  function TwoIdenticalMarkers(markers: seq<Marker>): (r: bool)
    ensures r <==> |markers| == 2 && markers[0] == markers[1]
  {
    |markers| == 2 && AllEqual(markers)
  }

  /** The line holds exactly two marked squares, with equal markers. */
  predicate IsThreat(cells: Cells, line: seq<int>)
    requires WellFormed(cells) && ValidLine(line)
  {
    TwoIdenticalMarkers(LineMarkers(cells, line))
  }

  /** One entry of `current_winning_moves`. */
  datatype WinningMove = WinningMove(marker: Marker, emptySquare: int)

  /** The entry a threatened line contributes. */
  function ThreatMove(cells: Cells, line: seq<int>): (r: WinningMove)
    requires WellFormed(cells) && ValidLine(line) && IsThreat(cells, line)
    ensures Marked(r.marker) && IsPosition(r.emptySquare) && Unmarked(cells[r.emptySquare])
    ensures r.emptySquare == line[0] || r.emptySquare == line[1] || r.emptySquare == line[2]
  {
    WinningMove(LineMarkers(cells, line)[0], LineUnmarked(cells, line)[0])
  }

  /** The line is a threat whose marker is `m`. */
  predicate ThreatFor(cells: Cells, line: seq<int>, m: Marker)
    requires WellFormed(cells) && ValidLine(line)
  {
    IsThreat(cells, line) && LineMarkers(cells, line)[0] == m
  }
  /**
   * A line is a threat for `m` exactly when `m` is a real marker, one of the
   * line's squares is unmarked and the other two hold `m`.
   */
  lemma ThreatForSquares(cells: Cells, line: seq<int>, m: Marker)
    requires WellFormed(cells) && ValidLine(line)
    ensures ThreatFor(cells, line, m) <==>
              Marked(m) &&
              ((Unmarked(cells[line[0]]) && cells[line[1]] == m && cells[line[2]] == m) ||
               (cells[line[0]] == m && Unmarked(cells[line[1]]) && cells[line[2]] == m) ||
               (cells[line[0]] == m && cells[line[1]] == m && Unmarked(cells[line[2]])))
  {
  }

  /** First line, in order, whose three squares hold the same marker. */
  function FirstWinner(cells: Cells, lines: seq<seq<int>>): (r: Option<Marker>)
    requires WellFormed(cells) && ValidLines(lines)
    ensures r.Some? ==> Marked(r.value)
    ensures r.Some? ==> exists i :: 0 <= i < |lines| && Completes(cells, lines[i], r.value)
                                    && forall j :: 0 <= j < i ==> !ThreeIdenticalMarkers(cells, lines[j])
    ensures r.None? <==> forall i :: 0 <= i < |lines| ==> !ThreeIdenticalMarkers(cells, lines[i])
  {
    if lines == [] then None
    else if ThreeIdenticalMarkers(cells, lines[0]) then Some(cells[lines[0][0]])
    else FirstWinner(cells, lines[1..])
  }

  /** The entries of the threatened lines, in line order. */
  function ThreatsIn(cells: Cells, lines: seq<seq<int>>): (r: seq<WinningMove>)
    requires WellFormed(cells) && ValidLines(lines)
    ensures |r| <= |lines|
    ensures forall k :: 0 <= k < |r| ==>
              Marked(r[k].marker) && IsPosition(r[k].emptySquare) && Unmarked(cells[r[k].emptySquare])
  {
    if lines == [] then []
    else (if IsThreat(cells, lines[0]) then [ThreatMove(cells, lines[0])] else []) + ThreatsIn(cells, lines[1..])
  }

  /**
   * Reference definition of the tie-break: the empty square of the first
   * line, in line order, that `target` is one move away from completing.
   */
  function FirstThreatSquare(cells: Cells, lines: seq<seq<int>>, target: Marker): (r: Option<int>)
    requires WellFormed(cells) && ValidLines(lines)
    ensures r.Some? ==> IsPosition(r.value) && Unmarked(cells[r.value])
  {
    if lines == [] then None
    else if ThreatFor(cells, lines[0], target) then Some(ThreatMove(cells, lines[0]).emptySquare)
    else FirstThreatSquare(cells, lines[1..], target)
  }

  /** The tie-break finds nothing exactly when no line is threatened by `target`. */
  lemma {:induction false} FirstThreatSquareNone(cells: Cells, lines: seq<seq<int>>, target: Marker)
    requires WellFormed(cells) && ValidLines(lines)
    ensures FirstThreatSquare(cells, lines, target).None? <==>
              forall i :: 0 <= i < |lines| ==> !ThreatFor(cells, lines[i], target)
  {
    if lines != [] {
      var tail := lines[1..];
      FirstThreatSquareNone(cells, tail, target);
      assert forall i :: 0 <= i < |tail| ==> tail[i] == lines[i + 1];
    }
  }

  /**
   * What the tie-break finds is the empty square of a line threatened by
   * `target` that no earlier line precedes as a threat.
   */
  lemma {:induction false} FirstThreatSquareFirst(cells: Cells, lines: seq<seq<int>>, target: Marker)
    requires WellFormed(cells) && ValidLines(lines)
    ensures FirstThreatSquare(cells, lines, target).Some? ==>
              exists i :: 0 <= i < |lines| && ThreatFor(cells, lines[i], target)
                          && ThreatMove(cells, lines[i]).emptySquare == FirstThreatSquare(cells, lines, target).value
                          && forall j :: 0 <= j < i ==> !ThreatFor(cells, lines[j], target)
  {
    var r := FirstThreatSquare(cells, lines, target);
    if lines != [] && r.Some? && !ThreatFor(cells, lines[0], target) {
      var tail := lines[1..];
      FirstThreatSquareFirst(cells, tail, target);
      var k :| 0 <= k < |tail| && ThreatFor(cells, tail[k], target)
               && ThreatMove(cells, tail[k]).emptySquare == r.value
               && forall j :: 0 <= j < k ==> !ThreatFor(cells, tail[j], target);
      assert lines[k + 1] == tail[k];
      forall j | 0 <= j < k + 1 ensures !ThreatFor(cells, lines[j], target) {
        if j > 0 { assert lines[j] == tail[j - 1]; }
      }
    }
  }


  /** Some winning line is complete. */
  ghost predicate AnyLineComplete(cells: Cells)
    requires WellFormed(cells)
  {
    WinningLinesValid();
    exists i :: 0 <= i < |WinningLines| && ThreeIdenticalMarkers(cells, WinningLines[i])
  }

  /** `m` is one move away from completing some winning line. */
  ghost predicate HasThreat(cells: Cells, m: Marker)
    requires WellFormed(cells)
  {
    WinningLinesValid();
    exists i :: 0 <= i < |WinningLines| && ThreatFor(cells, WinningLines[i], m)
  }

  /** The tie-break over the winning lines, in their declared order. */
  function FirstThreat(cells: Cells, m: Marker): Option<int>
    requires WellFormed(cells)
  {
    WinningLinesValid();
    FirstThreatSquare(cells, WinningLines, m)
  }

  /** What `Board#winning_marker` returns. */
  function WinnerOf(cells: Cells): Option<Marker>
    requires WellFormed(cells)
  {
    WinningLinesValid();
    FirstWinner(cells, WinningLines)
  }

  /** What `Board#current_winning_moves` returns. */
  function ThreatsOf(cells: Cells): seq<WinningMove>
    requires WellFormed(cells)
  {
    WinningLinesValid();
    ThreatsIn(cells, WinningLines)
  }

  /**
   * One step of the threat scan: the first line's entry, if it has one,
   * moves from the lines still to scan to the entries already collected.
   */
  lemma ThreatsInStep(cells: Cells, rest: seq<seq<int>>, moves: seq<WinningMove>)
    requires WellFormed(cells) && ValidLines(rest) && rest != []
    ensures ValidLines(rest[1..])
    ensures moves + ThreatsIn(cells, rest) ==
              (if TwoIdenticalMarkers(LineMarkers(cells, rest[0]))
               then moves + [WinningMove(LineMarkers(cells, rest[0])[0], LineUnmarked(cells, rest[0])[0])]
               else moves) + ThreatsIn(cells, rest[1..])
  {
    if IsThreat(cells, rest[0]) {
      var entry := WinningMove(LineMarkers(cells, rest[0])[0], LineUnmarked(cells, rest[0])[0]);
      assert ThreatsIn(cells, rest) == [entry] + ThreatsIn(cells, rest[1..]);
      assert moves + ([entry] + ThreatsIn(cells, rest[1..])) == moves + [entry] + ThreatsIn(cells, rest[1..]);
    } else {
      assert ThreatsIn(cells, rest) == ThreatsIn(cells, rest[1..]);
    }
  }

  lemma ValidLinesAppend(a: seq<seq<int>>, b: seq<seq<int>>)
    requires ValidLines(a) && ValidLines(b)
    ensures ValidLines(a + b)
  {
    forall i | 0 <= i < |a + b| ensures ValidLine((a + b)[i]) {
      if i < |a| { assert (a + b)[i] == a[i]; } else { assert (a + b)[i] == b[i - |a|]; }
    }
  }

  /** Scanning two lists one after the other collects the two scans' entries in that order. */
  lemma {:induction false} ThreatsInAppend(cells: Cells, a: seq<seq<int>>, b: seq<seq<int>>)
    requires WellFormed(cells) && ValidLines(a) && ValidLines(b) && ValidLines(a + b)
    ensures ThreatsIn(cells, a + b) == ThreatsIn(cells, a) + ThreatsIn(cells, b)
  {
    if a == [] {
      assert a + b == b;
    } else {
      var tail := a[1..];
      assert (a + b)[0] == a[0] && (a + b)[1..] == tail + b;
      ThreatsInAppend(cells, tail, b);
      var e := if IsThreat(cells, a[0]) then [ThreatMove(cells, a[0])] else [];
      calc {
        ThreatsIn(cells, a + b);
        e + ThreatsIn(cells, tail + b);
        e + (ThreatsIn(cells, tail) + ThreatsIn(cells, b));
        (e + ThreatsIn(cells, tail)) + ThreatsIn(cells, b);
        ThreatsIn(cells, a) + ThreatsIn(cells, b);
      }
    }
  }

  /**
   * One entry per threatened line, in line order: line `i` adds one entry
   * exactly when it is threatened, and that entry sits right after the
   * entries of the lines before it.
   */
  lemma ThreatsInRanked(cells: Cells, lines: seq<seq<int>>, i: int)
    requires WellFormed(cells) && ValidLines(lines) && 0 <= i < |lines|
    ensures |ThreatsIn(cells, lines[..i + 1])| == |ThreatsIn(cells, lines[..i])| + (if IsThreat(cells, lines[i]) then 1 else 0)
    ensures IsThreat(cells, lines[i]) ==>
              |ThreatsIn(cells, lines[..i])| < |ThreatsIn(cells, lines)| &&
              ThreatsIn(cells, lines)[|ThreatsIn(cells, lines[..i])|] == ThreatMove(cells, lines[i])
  {
    var before, at, after := lines[..i], lines[i..i + 1], lines[i + 1..];
    assert at == [lines[i]] && at[1..] == [];
    assert lines[..i + 1] == before + at;
    assert lines == before + at + after;
    ValidLinesAppend(before, at);
    ValidLinesAppend(before + at, after);
    ThreatsInAppend(cells, before, at);
    ThreatsInAppend(cells, before + at, after);
  }

  /** `Board#someone_won?`. */
  function SomeoneWon(cells: Cells): (r: bool)
    requires WellFormed(cells)
    ensures r <==> AnyLineComplete(cells)
  {
    WinningLinesValid();
    WinnerOf(cells).Some?
  }

  /** `s` with every occurrence of `x` removed, order kept. */
  function Without(s: seq<int>, x: int): (r: seq<int>)
    ensures forall y :: y in r <==> y in s && y != x
    ensures Ascending(s) ==> Ascending(r)
  {
    if s == [] then []
    else
      var rest := Without(s[1..], x);
      assert Ascending(s) ==> forall k :: 0 <= k < |rest| ==> s[0] < rest[k] by {
        if Ascending(s) {
          forall k | 0 <= k < |rest| ensures s[0] < rest[k] {
            assert rest[k] in s[1..];
          }
        }
      }
      (if s[0] == x then [] else [s[0]]) + rest
  }

  lemma {:induction false} WithoutAbsent(s: seq<int>, x: int)
    requires x !in s
    ensures Without(s, x) == s
  {
    if s != [] {
      assert x !in s[1..];
      WithoutAbsent(s[1..], x);
    }
  }

  /** Removing a key that occurs in an ascending sequence drops exactly one element. */
  lemma {:induction false} WithoutOnce(s: seq<int>, x: int)
    requires Ascending(s) && x in s
    ensures |Without(s, x)| == |s| - 1
  {
    assert Ascending(s[1..]);
    if s[0] == x {
      assert x !in s[1..];
      WithoutAbsent(s[1..], x);
    } else {
      WithoutOnce(s[1..], x);
    }
  }

  /** Every square blank: every position is reported unmarked. */
  lemma {:induction false} UnmarkedInAllBlank(cells: Cells, ps: seq<int>)
    requires WellFormed(cells) && Positional(ps)
    requires forall i :: 0 <= i < |ps| ==> Unmarked(cells[ps[i]])
    ensures UnmarkedIn(cells, ps) == ps
  {
    if ps != [] {
      UnmarkedInAllBlank(cells, ps[1..]);
    }
  }

  /** Marking a square removes exactly that position from the unmarked ones. */
  lemma {:induction false} MarkInRemoves(cells: Cells, ps: seq<int>, p: int, m: Marker)
    requires WellFormed(cells) && Positional(ps) && IsPosition(p) && Marked(m)
    ensures WellFormed(cells[p := m])
    ensures UnmarkedIn(cells[p := m], ps) == Without(UnmarkedIn(cells, ps), p)
  {
    var after := cells[p := m];
    assert WellFormed(after);
    if ps != [] {
      var q := ps[0];
      MarkInRemoves(cells, ps[1..], p, m);
      var rest := UnmarkedIn(cells, ps[1..]);
      var restAfter := UnmarkedIn(after, ps[1..]);
      assert restAfter == Without(rest, p);
      if q == p {
        assert UnmarkedIn(after, ps) == restAfter;
        if Unmarked(cells[q]) {
          assert UnmarkedIn(cells, ps) == [q] + rest;
          assert ([q] + rest)[1..] == rest;
        } else {
          assert UnmarkedIn(cells, ps) == rest;
        }
      } else if Unmarked(cells[q]) {
        assert UnmarkedIn(after, ps) == [q] + restAfter;
        assert UnmarkedIn(cells, ps) == [q] + rest;
        assert ([q] + rest)[1..] == rest;
      } else {
        assert UnmarkedIn(after, ps) == restAfter;
        assert UnmarkedIn(cells, ps) == rest;
      }
    }
  }

  /**
   * `board[num] = m` on an unmarked square with a real marker: the unmarked
   * keys lose exactly `num` and keep their order.
   */
  lemma MarkRemovesKey(cells: Cells, num: int, m: Marker)
    requires WellFormed(cells) && IsPosition(num) && Unmarked(cells[num]) && Marked(m)
    ensures WellFormed(cells[num := m])
    ensures num in UnmarkedKeys(cells) && num !in UnmarkedKeys(cells[num := m])
    ensures UnmarkedKeys(cells[num := m]) == Without(UnmarkedKeys(cells), num)
    ensures |UnmarkedKeys(cells[num := m])| == |UnmarkedKeys(cells)| - 1
  {
    MarkInRemoves(cells, Positions, num, m);
    WithoutOnce(UnmarkedKeys(cells), num);
  }

  /** The entries of `ThreatsIn` are exactly the entries of the threatened lines. */
  lemma {:induction false} ThreatsInMembers(cells: Cells, lines: seq<seq<int>>)
    requires WellFormed(cells) && ValidLines(lines)
    ensures forall mv :: mv in ThreatsIn(cells, lines) <==>
              exists i :: 0 <= i < |lines| && IsThreat(cells, lines[i]) && mv == ThreatMove(cells, lines[i])
  {
    if lines != [] {
      ThreatsInMembers(cells, lines[1..]);
      forall i | 1 <= i < |lines| ensures lines[1..][i - 1] == lines[i] {}
    }
  }

  lemma {:induction false} ThreatsInNone(cells: Cells, lines: seq<seq<int>>)
    requires WellFormed(cells) && ValidLines(lines)
    requires forall i :: 0 <= i < |lines| ==> !IsThreat(cells, lines[i])
    ensures ThreatsIn(cells, lines) == []
  {
    if lines != [] {
      ThreatsInNone(cells, lines[1..]);
    }
  }

  /**
   * A threat's entry is a real win: placing its marker on its empty square
   * completes the line.
   */
  lemma ThreatCompletesLine(cells: Cells, line: seq<int>)
    requires WellFormed(cells) && ValidLine(line) && IsThreat(cells, line)
    ensures WellFormed(cells[ThreatMove(cells, line).emptySquare := ThreatMove(cells, line).marker])
    ensures var mv := ThreatMove(cells, line);
            Completes(cells[mv.emptySquare := mv.marker], line, mv.marker)
  {
  }

  /** The board `reset` produces has every position unmarked, so it is not full. */
  lemma EmptyBoard()
    ensures WellFormed(EmptyCells)
    ensures UnmarkedKeys(EmptyCells) == Positions && !Full(EmptyCells)
  {
    PositionsInOrder();
    UnmarkedInAllBlank(EmptyCells, Positions);
    assert 1 in UnmarkedKeys(EmptyCells);
  }

  /** On the board `reset` produces nobody has won and nobody threatens to. */
  lemma EmptyBoardQuiet()
    ensures WellFormed(EmptyCells)
    ensures WinnerOf(EmptyCells) == None && !SomeoneWon(EmptyCells)
    ensures ThreatsOf(EmptyCells) == []
  {
    WinningLinesValid();
    forall i | 0 <= i < |WinningLines|
      ensures !ThreeIdenticalMarkers(EmptyCells, WinningLines[i]) && !IsThreat(EmptyCells, WinningLines[i])
    {
    }
    ThreatsInNone(EmptyCells, WinningLines);
  }

  /** The board: a table from the positions 1..9 to squares. */
  class Board {
    var squares: Cells

    ghost predicate Valid()
      reads this
    {
      WellFormed(squares)
    }

    /** `Board.new`: an empty table, then `reset`. */
    constructor ()
      ensures Valid() && squares == EmptyCells
    {
      squares := map[];
      new;
      Reset();
    }

    /** `Board#reset`: a fresh blank square at every position. */
    method Reset()
      requires forall p :: p in squares ==> IsPosition(p)
      modifies this
      ensures Valid() && squares == EmptyCells
      ensures UnmarkedKeys(squares) == Positions && !Full(squares)
    {
      for key := 1 to 10
        invariant forall p :: p in squares ==> IsPosition(p)
        invariant forall p :: 1 <= p < key ==> p in squares && squares[p] == InitialMarker
      {
        squares := squares[key := InitialMarker];
      }
      assert squares.Keys == EmptyCells.Keys;
      EmptyBoard();
    }

    /** `Board#[]=`: overwrite the marker at `num`, whatever it held. */
    method Set(num: int, marker: Marker)
      requires Valid() && IsPosition(num)
      modifies this
      ensures Valid() && squares == old(squares)[num := marker]
      ensures Marked(marker) ==> UnmarkedKeys(squares) == Without(UnmarkedKeys(old(squares)), num)
    {
      if Marked(marker) {
        PositionsInOrder();
        MarkInRemoves(squares, Positions, num, marker);
      }
      squares := squares[num := marker];
    }

    /** `Board#winning_marker`: scan the winning lines, return at the first complete one. */
    method WinningMarker() returns (m: Option<Marker>)
      requires Valid()
      ensures m == WinnerOf(squares)
    {
      WinningLinesValid();
      m := FirstCompleteAlong(WinningLines);
    }

    /** The loop of `winning_marker` over a list of lines. */
    method FirstCompleteAlong(lines: seq<seq<int>>) returns (m: Option<Marker>)
      requires Valid() && ValidLines(lines)
      ensures m == FirstWinner(squares, lines)
    {
      var i := 0;
      while i < |lines|
        invariant 0 <= i <= |lines|
        invariant FirstWinner(squares, lines[i..]) == FirstWinner(squares, lines)
      {
        var line := lines[i];
        assert lines[i..][0] == line && lines[i..][1..] == lines[i + 1..];
        if ThreeIdenticalMarkers(squares, line) {
          return Some(squares[line[0]]);
        }
        i := i + 1;
      }
      return None;
    }

    /** `Board#current_winning_moves`: one entry per threatened winning line, in line order. */
    method CurrentWinningMoves() returns (moves: seq<WinningMove>)
      requires Valid()
      ensures moves == ThreatsOf(squares)
    {
      WinningLinesValid();
      moves := ThreatsAlong(WinningLines);
    }

    /** The loop of `current_winning_moves` over a list of lines. */
    method ThreatsAlong(lines: seq<seq<int>>) returns (moves: seq<WinningMove>)
      requires Valid() && ValidLines(lines)
      ensures moves == ThreatsIn(squares, lines)
    {
      moves := [];
      var rest := lines;
      while rest != []
        invariant ValidLines(rest)
        invariant moves + ThreatsIn(squares, rest) == ThreatsIn(squares, lines)
      {
        var line := rest[0];
        ThreatsInStep(squares, rest, moves);
        var markers := LineMarkers(squares, line);
        if TwoIdenticalMarkers(markers) {
          var emptySquare := LineUnmarked(squares, line);
          moves := moves + [WinningMove(markers[0], emptySquare[0])];
        }
        rest := rest[1..];
      }
    }
  }
}
