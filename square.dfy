/**
 * A square of the board. The model represents a square by the marker it
 * holds: a blank square holds the initial marker, a single space.
 */
module Squares {
  /** Markers are strings the board compares but never interprets. */
  type Marker = string

  /** The marker a square holds until a player claims it. */
  const InitialMarker: Marker := " "

  /** `Square#unmarked?`: the square still holds the initial marker. */
  function Unmarked(m: Marker): (r: bool)
    ensures r <==> |m| == 1 && m[0] == ' '
  {
    m == InitialMarker
  }

  /** `Square#marked?`: the square holds some other marker. */
  function Marked(m: Marker): (r: bool)
    ensures r <==> !Unmarked(m)
  {
    m != InitialMarker
  }
}
