/** Chess pieces: a kind and a colour, and nothing else. A piece carries no
    move counter; whether a pawn may still double-step is decided by the
    caller and handed to the engine as a flag. */
module Pieces {

  datatype Kind = Pawn | Knight | Bishop | Rook | Queen | King

  datatype Color = White | Black

  datatype Piece = Piece(kind: Kind, color: Color)

  /** The other side. */
  function Opponent(c: Color): (o: Color)
    ensures o != c
  {
    if c == White then Black else White
  }

  /** The row step of a pawn's advance: White moves toward row 0 (rank 8),
      Black toward row 7 (rank 1). */
  function Direction(c: Color): (d: int)
    ensures d == -1 || d == 1
    ensures d < 0 <==> c == White
  {
    if c == White then -1 else 1
  }

  /** True for the pieces that slide along lines and can be blocked. */
  predicate IsSlider(k: Kind) {
    k == Rook || k == Bishop || k == Queen
  }
}
