/** The move-legality predicate of the chess board, branch for branch. */
module Legality {
  import opened Pieces
  import opened Boards

  function Abs(x: int): (a: nat)
    ensures a == x || a == -x
  {
    if x < 0 then -x else x
  }

  /** The sign of x, as Math.sign on integers. */
  function Sign(x: int): (s: int)
    ensures s * x == Abs(x)
    ensures -1 <= s <= 1
    ensures s == 0 <==> x == 0
  {
    if x > 0 then 1 else if x < 0 then -1 else 0
  }

  function Max(a: nat, b: nat): nat {
    if a < b then b else a
  }

  /** The square k unit steps from s toward e, where a step moves each
      coordinate by the sign of its displacement. */
  function Step(s: Pos, e: Pos, k: int): Pos {
    Pos(s.row + k * Sign(e.row - s.row), s.col + k * Sign(e.col - s.col))
  }

  /** The number of unit steps from s to e along a line (rank, file or
      diagonal); on such a line Step(s, e, Span(s, e)) == e. */
  function Span(s: Pos, e: Pos): nat {
    Max(Abs(e.row - s.row), Abs(e.col - s.col))
  }

  /** The obstruction scan: the squares Step(s, e, j) for k <= j < Span(s, e)
      are all empty. Started at k = 1 it walks exactly the squares strictly
      between s and e, as the source's for loops do. */
  function ClearFrom(b: Board, s: Pos, e: Pos, k: nat): (r: bool)
    ensures r <==> forall j :: k <= j < Span(s, e) ==> At(b, Step(s, e, j)) == None
    decreases Span(s, e) - k
  {
    if k >= Span(s, e) then true
    else At(b, Step(s, e, k)) == None && ClearFrom(b, s, e, k + 1)
  }

  /** Every square strictly between s and e is empty. */
  predicate PathClear(b: Board, s: Pos, e: Pos) {
    ClearFrom(b, s, e, 1)
  }

  /** Whether `piece`, standing on `start`, may move to `end`. `firstMove` is
      the caller's per-colour flag that enables the pawn double step.
      The destination must be on the board and must not hold a piece of the
      mover's colour; then the per-kind rule decides. */
  function IsValidMove(b: Board, piece: Piece, start: Pos, end: Pos, firstMove: bool): (r: bool)
    requires InBounds(start)
    ensures r ==> InBounds(end)
    ensures r ==> !(At(b, end).Some? && At(b, end).value.color == piece.color)
    ensures r && IsSlider(piece.kind) ==> PathClear(b, start, end)
  {
    if !InBounds(end) then false
    else
      var target := At(b, end);
      if target.Some? && target.value.color == piece.color then false
      else
        var dr := end.row - start.row;
        var dc := end.col - start.col;
        match piece.kind
        case Pawn =>
          var dir := Direction(piece.color);
          if dc == 0 && dr == dir && target == None then true
          else if firstMove && dc == 0 && dr == 2 * dir && target == None
                  && At(b, Pos(start.row + dir, start.col)) == None then true
          else if Abs(dc) == 1 && dr == dir && target.Some? then true
          else false
        case Rook =>
          if start.row == end.row then PathClear(b, start, end)
          else if start.col == end.col then PathClear(b, start, end)
          else false
        case King =>
          Abs(dr) <= 1 && Abs(dc) <= 1
        case Knight =>
          (Abs(dr) == 1 && Abs(dc) == 2) || (Abs(dr) == 2 && Abs(dc) == 1)
        case Bishop =>
          // the source's fall-through `|dr| == |dc|` is false whenever it is reached
          if Abs(dr) == Abs(dc) then PathClear(b, start, end) else false
        case Queen =>
          if start.row == end.row then PathClear(b, start, end)
          else if start.col == end.col then PathClear(b, start, end)
          else if Abs(dr) == Abs(dc) then PathClear(b, start, end)
          // the source's fall-through disjunction is false whenever it is reached
          else false
  }
}
