/** The movement rules stated declaratively, square by square, and the
    properties of the legality predicate that follow from them. */
module Rules {
  import opened Pieces
  import opened Boards
  import opened Legality

  /** The destination holds a piece of colour c. */
  predicate OwnPieceAt(b: Board, e: Pos, c: Color) {
    At(b, e).Some? && At(b, e).value.color == c
  }

  /** No piece stands on any square strictly between s and e. */
  ghost predicate Clear(b: Board, s: Pos, e: Pos) {
    forall k :: 0 < k < Span(s, e) ==> At(b, Step(s, e, k)) == None
  }

  predicate OnRankOrFile(s: Pos, e: Pos) {
    s.row == e.row || s.col == e.col
  }

  predicate OnDiagonal(s: Pos, e: Pos) {
    Abs(e.row - s.row) == Abs(e.col - s.col)
  }

  /** The lines a sliding piece of kind k may travel. */
  predicate OnLine(k: Kind, s: Pos, e: Pos) {
    match k
    case Rook => OnRankOrFile(s, e)
    case Bishop => OnDiagonal(s, e)
    case Queen => OnRankOrFile(s, e) || OnDiagonal(s, e)
    case _ => false
  }

  /** The three pawn moves: one step forward onto an empty square; two steps
      forward on the colour's first move over two empty squares; one step
      diagonally forward onto an occupied square. */
  predicate PawnMove(b: Board, c: Color, s: Pos, e: Pos, firstMove: bool) {
    var ahead := Pos(s.row + Direction(c), s.col);
    || (e == ahead && At(b, e) == None)
    || (firstMove && e == Pos(s.row + 2 * Direction(c), s.col) && At(b, e) == None && At(b, ahead) == None)
    || (e.row == ahead.row && Abs(e.col - s.col) == 1 && At(b, e).Some?)
  }

  /** A knight's leap: one square along one axis and two along the other. */
  predicate KnightLeap(s: Pos, e: Pos) {
    Abs(e.row - s.row) * Abs(e.col - s.col) == 2
  }

  /** The rules of movement, as a relation between the board, the mover and
      the two squares. */
  ghost predicate Legal(b: Board, p: Piece, s: Pos, e: Pos, firstMove: bool) {
    && InBounds(e)
    && !OwnPieceAt(b, e, p.color)
    && match p.kind
       case Pawn => PawnMove(b, p.color, s, e, firstMove)
       case Knight => KnightLeap(s, e)
       case King => Span(s, e) <= 1
       case _ => OnLine(p.kind, s, e) && Clear(b, s, e)
  }

  lemma KnightLeapShapes(dr: int, dc: int)
    ensures KnightLeap(Pos(0, 0), Pos(dr, dc)) <==> (Abs(dr) == 1 && Abs(dc) == 2) || (Abs(dr) == 2 && Abs(dc) == 1)
  {
    var a, c := Abs(dr), Abs(dc);
    assert Abs(dr - 0) == a && Abs(dc - 0) == c;
  }

  /** The legality predicate decides exactly the rules of movement. */
  lemma IsValidMoveMatchesRules(b: Board, p: Piece, s: Pos, e: Pos, firstMove: bool)
    requires InBounds(s)
    ensures IsValidMove(b, p, s, e, firstMove) <==> Legal(b, p, s, e, firstMove)
  {
    var dr, dc := e.row - s.row, e.col - s.col;
    KnightLeapShapes(dr, dc);
    assert Abs(e.row - s.row) == Abs(dr - 0) && Abs(e.col - s.col) == Abs(dc - 0);
  }

  // ---------------------------------------------------------------------
  // Zero-length moves

  /** A piece standing on s may never "move" to s: the destination holds a
      piece of its own colour, namely itself. */
  lemma ZeroLengthIllegal(b: Board, p: Piece, s: Pos, firstMove: bool)
    requires InBounds(s) && At(b, s) == Some(p)
    ensures !IsValidMove(b, p, s, s, firstMove)
  {
  }

  /** It is only that colour check which rejects a zero-length move: the
      king, rook, bishop and queen rules by themselves accept a zero
      displacement, as an empty or enemy-held start square shows. */
  lemma ZeroDisplacementPassesKindRules(b: Board, p: Piece, s: Pos, firstMove: bool)
    requires InBounds(s) && !OwnPieceAt(b, s, p.color)
    requires p.kind in {King, Rook, Bishop, Queen}
    ensures IsValidMove(b, p, s, s, firstMove)
  {
  }

  // ---------------------------------------------------------------------
  // Pawns

  lemma PawnSingleStep(b: Board, p: Piece, s: Pos, firstMove: bool)
    requires InBounds(s) && p.kind == Pawn
    ensures var e := Pos(s.row + Direction(p.color), s.col);
            IsValidMove(b, p, s, e, firstMove) <==> InBounds(e) && At(b, e) == None
  {
  }

  lemma PawnDiagonalCapture(b: Board, p: Piece, s: Pos, e: Pos, firstMove: bool)
    requires InBounds(s) && p.kind == Pawn
    requires e.row == s.row + Direction(p.color) && Abs(e.col - s.col) == 1
    ensures IsValidMove(b, p, s, e, firstMove) <==>
            InBounds(e) && At(b, e).Some? && At(b, e).value.color == Opponent(p.color)
  {
  }

  /** The double step needs the first-move flag, an empty destination and
      an empty square in between; without the flag it is illegal even over
      empty squares. */
  lemma PawnDoubleStep(b: Board, p: Piece, s: Pos, firstMove: bool)
    requires InBounds(s) && p.kind == Pawn
    ensures var dir := Direction(p.color);
            var e := Pos(s.row + 2 * dir, s.col);
            IsValidMove(b, p, s, e, firstMove) <==>
              firstMove && InBounds(e) && At(b, e) == None && At(b, Pos(s.row + dir, s.col)) == None
  {
  }

  /** Every other pawn displacement is illegal. */
  lemma PawnOtherwiseIllegal(b: Board, p: Piece, s: Pos, e: Pos, firstMove: bool)
    requires InBounds(s) && p.kind == Pawn
    requires var dir, dr, dc := Direction(p.color), e.row - s.row, e.col - s.col;
             !(dc == 0 && dr == dir) && !(dc == 0 && dr == 2 * dir) && !(Abs(dc) == 1 && dr == dir)
    ensures !IsValidMove(b, p, s, e, firstMove)
  {
  }

  /** A pawn only ever reaches the far rank of its own direction of travel,
      so the colour-blind promotion test on rows 0 and 7 never promotes a
      pawn on its own back rank. */
  lemma PawnReachesOnlyItsFarRank(b: Board, p: Piece, s: Pos, e: Pos, firstMove: bool)
    requires InBounds(s) && p.kind == Pawn && IsValidMove(b, p, s, e, firstMove)
    requires e.row == 0 || e.row == 7
    ensures e.row == 0 <==> p.color == White
  {
  }

  // ---------------------------------------------------------------------
  // Knights and kings

  lemma KnightRule(b: Board, p: Piece, s: Pos, e: Pos, firstMove: bool)
    requires InBounds(s) && p.kind == Knight
    ensures IsValidMove(b, p, s, e, firstMove) <==>
            InBounds(e) && !OwnPieceAt(b, e, p.color) && KnightLeap(s, e)
  {
    IsValidMoveMatchesRules(b, p, s, e, firstMove);
  }

  lemma KingRule(b: Board, p: Piece, s: Pos, e: Pos, firstMove: bool)
    requires InBounds(s) && p.kind == King
    ensures IsValidMove(b, p, s, e, firstMove) <==>
            InBounds(e) && !OwnPieceAt(b, e, p.color) && Span(s, e) <= 1
  {
  }

  /** Knights and kings jump: two boards that agree on the destination
      square agree on the move, whatever stands elsewhere. */
  lemma LeapersIgnoreOtherSquares(b1: Board, b2: Board, p: Piece, s: Pos, e: Pos, firstMove: bool)
    requires InBounds(s) && (p.kind == Knight || p.kind == King)
    requires At(b1, e) == At(b2, e)
    ensures IsValidMove(b1, p, s, e, firstMove) == IsValidMove(b2, p, s, e, firstMove)
  {
  }

  // ---------------------------------------------------------------------
  // Rooks, bishops and queens

  lemma SliderRule(b: Board, p: Piece, s: Pos, e: Pos, firstMove: bool)
    requires InBounds(s) && IsSlider(p.kind)
    ensures IsValidMove(b, p, s, e, firstMove) <==>
            InBounds(e) && !OwnPieceAt(b, e, p.color) && OnLine(p.kind, s, e) && Clear(b, s, e)
  {
    IsValidMoveMatchesRules(b, p, s, e, firstMove);
  }

  /** A piece of either colour on any square strictly between s and e blocks
      a rook, bishop or queen. */
  lemma BlockerBlocks(b: Board, p: Piece, s: Pos, e: Pos, k: int, x: Piece, firstMove: bool)
    requires InBounds(s) && IsSlider(p.kind)
    requires 0 < k < Span(s, e) && InBounds(Step(s, e, k))
    ensures !IsValidMove(Set(b, Step(s, e, k), Some(x)), p, s, e, firstMove)
  {
    var b' := Set(b, Step(s, e, k), Some(x));
    SliderRule(b', p, s, e, firstMove);
    assert At(b', Step(s, e, k)) != None;
  }

  /** q lies strictly between s and e on the walk from s toward e. */
  predicate OnPath(s: Pos, e: Pos, q: Pos) {
    var k := Max(Abs(q.row - s.row), Abs(q.col - s.col));
    0 < k < Span(s, e) && q == Step(s, e, k)
  }

  /** The board with every square strictly between s and e emptied. */
  function ClearPath(b: Board, s: Pos, e: Pos): (b': Board)
    ensures forall q :: !OnPath(s, e, q) ==> At(b', q) == At(b, q)
    ensures forall q :: OnPath(s, e, q) ==> At(b', q) == None
  {
    seq(8, r requires 0 <= r < 8 => seq(8, c requires 0 <= c < 8 => if OnPath(s, e, Pos(r, c)) then None else b[r][c]))
  }

  /** The k-th step of a walk of positive span lies k squares from s. */
  lemma StepDistance(s: Pos, e: Pos, k: int)
    requires 0 < k < Span(s, e)
    ensures Max(Abs(Step(s, e, k).row - s.row), Abs(Step(s, e, k).col - s.col)) == k
  {
    var sr, sc := Sign(e.row - s.row), Sign(e.col - s.col);
    assert Step(s, e, k).row - s.row == k * sr;
    assert Step(s, e, k).col - s.col == k * sc;
    assert sr != 0 || sc != 0;
    assert Abs(k * sr) == (if sr == 0 then 0 else k);
    assert Abs(k * sc) == (if sc == 0 then 0 else k);
  }

  /** Emptying every blocker restores a rook, bishop or queen move along its
      line onto a square not held by its own colour. */
  lemma ClearingRestores(b: Board, p: Piece, s: Pos, e: Pos, firstMove: bool)
    requires InBounds(s) && IsSlider(p.kind)
    requires InBounds(e) && !OwnPieceAt(b, e, p.color) && OnLine(p.kind, s, e)
    ensures IsValidMove(ClearPath(b, s, e), p, s, e, firstMove)
  {
    var b' := ClearPath(b, s, e);
    forall k | 0 < k < Span(s, e)
      ensures At(b', Step(s, e, k)) == None
    {
      StepDistance(s, e, k);
      assert OnPath(s, e, Step(s, e, k));
    }
    assert !OnPath(s, e, e);
    SliderRule(b', p, s, e, firstMove);
  }
}
