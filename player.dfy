/** The two participants and the validators for what a human may enter. */
module Players {
  import opened Squares

  /** The markers a computer player is given one of. */
  const PossibleMarkers: seq<Marker> := ["X", "O", "*", "@"]

  /** A participant: a fixed marker and name, and the points won so far. */
  class Player {
    var points: nat
    const marker: Marker
    const name: string

    constructor (marker: Marker, name: string)
      ensures this.marker == marker && this.name == name && points == 0
    {
      this.marker := marker;
      this.name := name;
      points := 0;
    }

    /** `Player#reset`: back to no points for a new match. */
    method Reset()
      modifies this
      ensures points == 0
    {
      points := 0;
    }
  }

  /** `HumanPlayer#valid_marker?`: exactly one character, and not a space. */
  function ValidMarker(marker: string): (r: bool)
    ensures r <==> |marker| == 1 && marker[0] != ' '
    ensures r ==> Marked(marker)
  {
    marker != " " && |marker| == 1
  }

  /** `HumanPlayer#blank?`: every character is a space; the empty name is blank too. */
  function Blank(s: string): (r: bool)
    ensures r <==> s == seq(|s|, _ => ' ')
  {
    var spaces := seq(|s|, _ => ' ');
    var r := forall c :: c in s ==> c == ' ';
    assert r ==> s == spaces by {
      if r {
        assert forall i :: 0 <= i < |s| ==> s[i] in s;
      }
    }
    r
  }

  /** Every marker a computer player can get is one a human could have chosen. */
  lemma PossibleMarkersValid()
    ensures forall i :: 0 <= i < |PossibleMarkers| ==> ValidMarker(PossibleMarkers[i])
  {
  }
}
