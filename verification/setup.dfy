/** The standard starting position. */
module Setup {
  import opened Pieces
  import opened Boards

  /** The back-rank order, file a to file h. */
  const BackRank: seq<Kind> := [Rook, Knight, Bishop, Queen, King, Bishop, Knight, Rook]

  /** The starting position described square by square: Black's pieces on
      rows 0 and 1, White's on rows 7 and 6, the middle empty. */
  function StartPosition(): (b: Board) {
    seq(8, r requires 0 <= r < 8 => seq(8, c requires 0 <= c < 8 =>
      if r == 0 then Some(Piece(BackRank[c], Black))
      else if r == 1 then Some(Piece(Pawn, Black))
      else if r == 6 then Some(Piece(Pawn, White))
      else if r == 7 then Some(Piece(BackRank[c], White))
      else None))
  }

  function EmptyBoard(): (b: Board)
    ensures forall q :: At(b, q) == None
  {
    seq(8, r => seq(8, c => None))
  }

  /** The board as the constructor leaves it: an empty grid, then for each
      file a black pawn on row 1, a white pawn on row 6 and the back-rank
      pieces on rows 0 and 7. */
  method InitializeBoard() returns (b: Board)
    ensures b == StartPosition()
  {
    b := EmptyBoard();
    var i := 0;
    while i < 8
      invariant 0 <= i <= 8
      invariant forall r, c :: 0 <= r < 8 && 0 <= c < 8 ==>
                  b[r][c] == if c < i then StartPosition()[r][c] else None
    {
      b := Set(b, Pos(1, i), Some(Piece(Pawn, Black)));
      b := Set(b, Pos(6, i), Some(Piece(Pawn, White)));
      b := Set(b, Pos(0, i), Some(Piece(BackRank[i], Black)));
      b := Set(b, Pos(7, i), Some(Piece(BackRank[i], White)));
      i := i + 1;
      forall r, c | 0 <= r < 8 && 0 <= c < 8
        ensures b[r][c] == if c < i then StartPosition()[r][c] else None
      {
        assert b[r][c] == At(b, Pos(r, c));
      }
    }
    BoardExtensionality(b, StartPosition());
  }

  /** The other side's piece of the same kind. */
  function Mirror(x: Cell): Cell {
    if x.Some? then Some(Piece(x.value.kind, Opponent(x.value.color))) else None
  }

  /** The start position is symmetric: reflecting the rows and swapping the
      colours gives it back. */
  lemma StartPositionIsMirrored(q: Pos)
    ensures At(StartPosition(), Pos(7 - q.row, q.col)) == Mirror(At(StartPosition(), q))
  {
  }

  /** Each side's pieces stand on its own two back rows. */
  lemma StartPositionRows(q: Pos)
    requires InBounds(q)
    ensures At(StartPosition(), q).Some? <==> q.row in {0, 1, 6, 7}
    ensures At(StartPosition(), q).Some? ==> (At(StartPosition(), q).value.color == White <==> q.row >= 6)
    ensures At(StartPosition(), q).Some? && At(StartPosition(), q).value.kind == Pawn <==> q.row in {1, 6}
  {
  }

  /** How many of each piece the standard set has, per colour. */
  function SetSize(k: Kind): nat {
    match k
    case Pawn => 8
    case Knight => 2
    case Bishop => 2
    case Rook => 2
    case Queen => 1
    case King => 1
  }

  /** A row of eight cells counts p once per cell holding it. */
  lemma RowCountEight(row: seq<Cell>, p: Piece)
    requires |row| == 8
    ensures RowCount(row, p) == Holds(row[0], p) + Holds(row[1], p) + Holds(row[2], p) + Holds(row[3], p)
                              + Holds(row[4], p) + Holds(row[5], p) + Holds(row[6], p) + Holds(row[7], p)
  {
    var t1 := row[1..]; assert t1[0] == row[1];
    var t2 := t1[1..]; assert t2[0] == row[2];
    var t3 := t2[1..]; assert t3[0] == row[3];
    var t4 := t3[1..]; assert t4[0] == row[4];
    var t5 := t4[1..]; assert t5[0] == row[5];
    var t6 := t5[1..]; assert t6[0] == row[6];
    var t7 := t6[1..]; assert t7[0] == row[7];
    var t8 := t7[1..]; assert |t8| == 0;
    assert RowCount(t7, p) == Holds(row[7], p) + RowCount(t8, p);
    assert RowCount(t6, p) == Holds(row[6], p) + RowCount(t7, p);
    assert RowCount(t5, p) == Holds(row[5], p) + RowCount(t6, p);
    assert RowCount(t4, p) == Holds(row[4], p) + RowCount(t5, p);
    assert RowCount(t3, p) == Holds(row[3], p) + RowCount(t4, p);
    assert RowCount(t2, p) == Holds(row[2], p) + RowCount(t3, p);
    assert RowCount(t1, p) == Holds(row[1], p) + RowCount(t2, p);
  }

  /** A board counts p once per row occurrence. */
  lemma GridCountEight(b: Board, p: Piece)
    ensures Census(b, p) == RowCount(b[0], p) + RowCount(b[1], p) + RowCount(b[2], p) + RowCount(b[3], p)
                          + RowCount(b[4], p) + RowCount(b[5], p) + RowCount(b[6], p) + RowCount(b[7], p)
  {
    var t1 := b[1..]; assert t1[0] == b[1];
    var t2 := t1[1..]; assert t2[0] == b[2];
    var t3 := t2[1..]; assert t3[0] == b[3];
    var t4 := t3[1..]; assert t4[0] == b[4];
    var t5 := t4[1..]; assert t5[0] == b[5];
    var t6 := t5[1..]; assert t6[0] == b[6];
    var t7 := t6[1..]; assert t7[0] == b[7];
    var t8 := t7[1..]; assert |t8| == 0;
    assert GridCount(t7, p) == RowCount(b[7], p) + GridCount(t8, p);
    assert GridCount(t6, p) == RowCount(b[6], p) + GridCount(t7, p);
    assert GridCount(t5, p) == RowCount(b[5], p) + GridCount(t6, p);
    assert GridCount(t4, p) == RowCount(b[4], p) + GridCount(t5, p);
    assert GridCount(t3, p) == RowCount(b[3], p) + GridCount(t4, p);
    assert GridCount(t2, p) == RowCount(b[2], p) + GridCount(t3, p);
    assert GridCount(t1, p) == RowCount(b[1], p) + GridCount(t2, p);
  }

  /** A back rank of colour c counts every non-pawn piece of c as often as
      the standard set has it. */
  lemma BackRankCount(c: Color, p: Piece)
    ensures RowCount(seq(8, i requires 0 <= i < 8 => Some(Piece(BackRank[i], c))), p) ==
            if p.color == c && p.kind != Pawn then SetSize(p.kind) else 0
  {
    RowCountEight(seq(8, i requires 0 <= i < 8 => Some(Piece(BackRank[i], c))), p);
  }

  /** A row of eight copies of x counts p eight times or not at all. */
  lemma UniformRowCount(x: Cell, p: Piece)
    ensures RowCount(seq(8, i => x), p) == 8 * Holds(x, p)
  {
    RowCountEight(seq(8, i => x), p);
  }

  /** How often p occurs in row r of the starting position. */
  lemma StartRowCount(r: int, p: Piece)
    requires 0 <= r < 8
    ensures var owner := if r < 4 then Black else White;
            RowCount(StartPosition()[r], p) ==
              if p.color != owner || r in {2, 3, 4, 5} then 0
              else if r in {1, 6} then (if p.kind == Pawn then 8 else 0)
              else if p.kind == Pawn then 0
              else SetSize(p.kind)
  {
    var row := StartPosition()[r];
    if r == 0 || r == 7 {
      var c := if r == 0 then Black else White;
      assert row == seq(8, i requires 0 <= i < 8 => Some(Piece(BackRank[i], c)));
      BackRankCount(c, p);
    } else if r == 1 || r == 6 {
      var c := if r == 1 then Black else White;
      assert row == seq(8, i => Some(Piece(Pawn, c)));
      UniformRowCount(Some(Piece(Pawn, c)), p);
    } else {
      assert row == seq(8, i => None);
      UniformRowCount(None, p);
    }
  }

  /** The starting position holds the full standard set of each colour:
      eight pawns, two rooks, two knights, two bishops, one queen and one
      king. */
  lemma StartInventory(p: Piece)
    ensures Census(StartPosition(), p) == SetSize(p.kind)
  {
    GridCountEight(StartPosition(), p);
    StartRowCount(0, p);
    StartRowCount(1, p);
    StartRowCount(2, p);
    StartRowCount(3, p);
    StartRowCount(4, p);
    StartRowCount(5, p);
    StartRowCount(6, p);
    StartRowCount(7, p);
  }
}
