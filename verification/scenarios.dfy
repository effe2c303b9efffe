/** The repository's test cases, stated as facts about the model. */
module Scenarios {
  import opened Pieces
  import opened Boards
  import opened Legality
  import opened Moves
  import opened Setup

  /** The piece standing on (r, c) of the starting position. */
  function StartPiece(r: int, c: int): Piece
    requires 0 <= r < 8 && 0 <= c < 8 && r in {0, 1, 6, 7}
  {
    StartPosition()[r][c].value
  }

  /** A test that omits the first-move argument passes `undefined`, which
      behaves as false. */
  const Omitted := false

  lemma PawnsStepForwardFromTheStart()
    ensures IsValidMove(StartPosition(), StartPiece(6, 0), Pos(6, 0), Pos(5, 0), Omitted)
    ensures IsValidMove(StartPosition(), StartPiece(1, 0), Pos(1, 0), Pos(2, 0), Omitted)
  {
  }

  lemma KnightLeapsFromTheStart()
    ensures IsValidMove(StartPosition(), StartPiece(7, 1), Pos(7, 1), Pos(5, 2), Omitted)
    ensures !IsValidMove(StartPosition(), StartPiece(7, 1), Pos(7, 1), Pos(6, 2), Omitted)
    ensures !IsValidMove(StartPosition(), StartPiece(7, 1), Pos(7, 1), Pos(8, 2), Omitted)
  {
    assert StartPiece(7, 1) == Piece(Knight, White);
  }

  lemma SlidersBlockedAtTheStart()
    ensures !IsValidMove(StartPosition(), StartPiece(7, 0), Pos(7, 0), Pos(5, 0), Omitted)
    ensures !IsValidMove(StartPosition(), StartPiece(7, 2), Pos(7, 2), Pos(5, 4), Omitted)
    ensures !IsValidMove(StartPosition(), StartPiece(7, 3), Pos(7, 3), Pos(5, 5), Omitted)
  {
    var b := StartPosition();
    assert StartPiece(7, 0) == Piece(Rook, White);
    assert StartPiece(7, 2) == Piece(Bishop, White);
    assert StartPiece(7, 3) == Piece(Queen, White);
    assert At(b, Step(Pos(7, 0), Pos(5, 0), 1)) == Some(Piece(Pawn, White));
    assert At(b, Step(Pos(7, 2), Pos(5, 4), 1)) == Some(Piece(Pawn, White));
    assert At(b, Step(Pos(7, 3), Pos(5, 5), 1)) == Some(Piece(Pawn, White));
  }

  lemma QueenSlidesOverClearedFile()
    ensures var b := Set(Set(StartPosition(), Pos(6, 3), None), Pos(5, 3), None);
            IsValidMove(b, At(b, Pos(7, 3)).value, Pos(7, 3), Pos(5, 3), Omitted)
  {
  }

  lemma KingStepsOnceItsPawnIsGone()
    ensures !IsValidMove(StartPosition(), StartPiece(7, 4), Pos(7, 4), Pos(6, 4), Omitted)
    ensures var b := Set(StartPosition(), Pos(6, 4), None);
            IsValidMove(b, At(b, Pos(7, 4)).value, Pos(7, 4), Pos(6, 4), Omitted)
  {
  }

  lemma PawnCapturesDiagonally()
    ensures var b := Set(Set(StartPosition(), Pos(4, 4), Some(Piece(Pawn, White))), Pos(3, 5), Some(Piece(Pawn, Black)));
            IsValidMove(b, At(b, Pos(4, 4)).value, Pos(4, 4), Pos(3, 5), Omitted)
  {
  }

  /** The board the move-execution tests start from: the king's pawn gone
      and a white king on e1. */
  function ExecutionBoard(): Board {
    Set(Set(Set(StartPosition(), Pos(6, 4), None), Pos(5, 4), None), Pos(7, 4), Some(Piece(King, White)))
  }

  lemma CapturingTheKingWins()
    ensures var b := Set(ExecutionBoard(), Pos(6, 4), Some(Piece(King, Black)));
            MovePiece(b, Pos(7, 4), Pos(6, 4), Omitted) == Success(Outcome(Win, b))
  {
  }

  lemma MoveErrors()
    ensures MovePiece(ExecutionBoard(), Pos(4, 4), Pos(5, 4), Omitted) == Failure(NoPieceAtStart)
    ensures Message(NoPieceAtStart) == "No piece at start position."
    ensures MovePiece(ExecutionBoard(), Pos(7, 4), Pos(4, 4), Omitted) == Failure(IllegalMove)
    ensures Message(IllegalMove) == "Illegal move."
  {
  }

  lemma PawnsDoubleStepOnFirstMove()
    ensures var b := Set(ExecutionBoard(), Pos(6, 4), Some(Piece(Pawn, White)));
            IsValidMove(b, At(b, Pos(6, 4)).value, Pos(6, 4), Pos(4, 4), true)
    ensures var b := Set(ExecutionBoard(), Pos(6, 4), Some(Piece(Pawn, Black)));
            IsValidMove(b, At(b, Pos(1, 4)).value, Pos(1, 4), Pos(3, 4), true)
  {
  }

  lemma NoDoubleStepAfterFirstMove()
    ensures var b := Set(ExecutionBoard(), Pos(6, 3), Some(Piece(Pawn, White)));
            var r := MovePiece(b, Pos(6, 3), Pos(5, 3), true);
            && r.Success? && r.outcome.status == Ok
            && !IsValidMove(r.outcome.board, Piece(Pawn, White), Pos(5, 3), Pos(3, 3), false)
  {
  }

  /** A pawn of colour c on the square before the far corner of the a-file,
      the corner itself cleared. */
  function PromotionBoard(c: Color): Board {
    var from := if c == White then Pos(1, 0) else Pos(6, 0);
    var to := if c == White then Pos(0, 0) else Pos(7, 0);
    Set(Set(Set(ExecutionBoard(), from, None), to, None), from, Some(Piece(Pawn, c)))
  }

  lemma PawnsPromoteOnTheLastRank(c: Color)
    ensures var from := if c == White then Pos(1, 0) else Pos(6, 0);
            var to := if c == White then Pos(0, 0) else Pos(7, 0);
            var r := MovePiece(PromotionBoard(c), from, to, c == White);
            r.Success? && r.outcome.status == Ok && At(r.outcome.board, to) == Some(Piece(Queen, c))
  {
    var from := if c == White then Pos(1, 0) else Pos(6, 0);
    var to := if c == White then Pos(0, 0) else Pos(7, 0);
    var b1 := Set(ExecutionBoard(), from, None);
    var b2 := Set(b1, to, None);
    var b := Set(b2, from, Some(Piece(Pawn, c)));
    assert b == PromotionBoard(c);
    assert At(b, to) == None;
    assert IsValidMove(b, Piece(Pawn, c), from, to, c == White);
  }
}
