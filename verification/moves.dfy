/** Executing a move: validate, then either report a king capture or
    relocate the piece, promoting a pawn that lands on a back rank. */
module Moves {
  import opened Pieces
  import opened Boards
  import opened Legality

  datatype MoveError = NoPieceAtStart | IllegalMove

  /** The text of the error the source throws. */
  function Message(err: MoveError): string {
    match err
    case NoPieceAtStart => "No piece at start position."
    case IllegalMove => "Illegal move."
  }

  /** 'win' when the move captures a king, 'ok' otherwise. */
  datatype Status = Win | Ok

  datatype Outcome = Outcome(status: Status, board: Board)

  datatype Result = Success(outcome: Outcome) | Failure(error: MoveError)

  /** The piece that stands on the destination after p lands on `row`: a pawn
      on row 0 or row 7, whichever its colour, becomes a queen of its colour. */
  function Landed(p: Piece, row: int): (q: Piece)
    ensures q.color == p.color
    ensures q.kind == King <==> p.kind == King
    ensures q != p ==> q.kind == Queen && p.kind == Pawn
    ensures p.kind == Pawn && (row == 0 || row == 7) ==> q == Piece(Queen, p.color)
    ensures q != p ==> row == 0 || row == 7
  {
    if p.kind == Pawn && (row == 0 || row == 7) then Piece(Queen, p.color) else p
  }

  /** Move the piece on `start` to `end`. A start square off the board reads
      as empty. */
  function MovePiece(b: Board, start: Pos, end: Pos, firstMove: bool): (r: Result)
    ensures r == Failure(NoPieceAtStart) <==> At(b, start) == None
    ensures r == Failure(IllegalMove) <==>
            At(b, start).Some? && !IsValidMove(b, At(b, start).value, start, end, firstMove)
    ensures r.Success? ==> InBounds(start) && InBounds(end) && start != end
    ensures r.Success? && r.outcome.status == Win <==>
            r.Success? && At(b, end).Some? && At(b, end).value.kind == King
    ensures r.Success? && r.outcome.status == Win ==> r.outcome.board == b
    ensures r.Success? && r.outcome.status == Ok ==>
            forall q :: At(r.outcome.board, q) ==
              if q == end then Some(Landed(At(b, start).value, end.row))
              else if q == start then None
              else At(b, q)
  {
    var cell := At(b, start);
    if cell == None then Failure(NoPieceAtStart)
    else
      var piece := cell.value;
      if !IsValidMove(b, piece, start, end, firstMove) then Failure(IllegalMove)
      else
        var dest := At(b, end);
        if dest.Some? && dest.value.kind == King then Success(Outcome(Win, b))
        else
          var b1 := Set(b, end, Some(piece));
          var b2 := Set(b1, start, None);
          var b3 := if piece.kind == Pawn && (end.row == 0 || end.row == 7)
                    then Set(b2, end, Some(Piece(Queen, piece.color)))
                    else b2;
          Success(Outcome(Ok, b3))
  }

  /** Nothing is copied or lost by an 'ok' move: the mover leaves the
      inventory, the captured piece (if any) leaves it, and the landed piece
      (the mover, or its queen) joins it. */
  lemma OkMoveCensus(b: Board, start: Pos, end: Pos, firstMove: bool, p: Piece)
    requires MovePiece(b, start, end, firstMove).Success?
    requires MovePiece(b, start, end, firstMove).outcome.status == Ok
    ensures var b' := MovePiece(b, start, end, firstMove).outcome.board;
            var mover := At(b, start).value;
            Census(b', p) + Holds(At(b, end), p) + Holds(Some(mover), p)
              == Census(b, p) + Holds(Some(Landed(mover, end.row)), p)
  {
    var mover := At(b, start).value;
    var landed := Landed(mover, end.row);
    var b1 := Set(b, end, Some(mover));
    var b2 := Set(b1, start, None);
    var b3 := Set(b2, end, Some(landed));
    SetCensus(b, end, Some(mover), p);
    SetCensus(b1, start, None, p);
    SetCensus(b2, end, Some(landed), p);
    assert At(b1, start) == Some(mover);
    assert At(b2, end) == Some(mover);
    BoardExtensionality(b3, MovePiece(b, start, end, firstMove).outcome.board);
  }

  /** An 'ok' move never removes a king from the board nor creates one: the
      number of kings of each colour is unchanged. */
  lemma OkMoveKeepsKings(b: Board, start: Pos, end: Pos, firstMove: bool, c: Color)
    requires MovePiece(b, start, end, firstMove).Success?
    requires MovePiece(b, start, end, firstMove).outcome.status == Ok
    ensures Census(MovePiece(b, start, end, firstMove).outcome.board, Piece(King, c)) == Census(b, Piece(King, c))
  {
    OkMoveCensus(b, start, end, firstMove, Piece(King, c));
  }

  /** Promotion: after an 'ok' move of a pawn onto row 0 or row 7, of either
      colour, the destination holds a queen of the pawn's colour. */
  lemma OkMovePromotes(b: Board, start: Pos, end: Pos, firstMove: bool)
    requires MovePiece(b, start, end, firstMove).Success?
    requires MovePiece(b, start, end, firstMove).outcome.status == Ok
    requires At(b, start).Some? && At(b, start).value.kind == Pawn
    requires end.row == 0 || end.row == 7
    ensures At(MovePiece(b, start, end, firstMove).outcome.board, end) == Some(Piece(Queen, At(b, start).value.color))
  {
  }

  /** Any other 'ok' move puts the mover itself on the destination. */
  lemma OkMoveWithoutPromotionRelocates(b: Board, start: Pos, end: Pos, firstMove: bool)
    requires MovePiece(b, start, end, firstMove).Success?
    requires MovePiece(b, start, end, firstMove).outcome.status == Ok
    requires At(b, start).Some?
    requires At(b, start).value.kind != Pawn || (end.row != 0 && end.row != 7)
    ensures At(MovePiece(b, start, end, firstMove).outcome.board, end) == At(b, start)
  {
  }
}
