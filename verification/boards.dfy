/** The 8x8 grid of optional pieces. Row 0 is rank 8 (Black's back rank),
    row 7 is rank 1 (White's back rank); column 0 is file a. */
module Boards {
  import opened Pieces

  datatype Option<T> = None | Some(value: T)

  type Cell = Option<Piece>

  datatype Pos = Pos(row: int, col: int)

  /** Eight rows of eight cells. */
  predicate IsGrid(g: seq<seq<Cell>>) {
    |g| == 8 && forall r :: 0 <= r < |g| ==> |g[r]| == 8
  }

  type Board = g: seq<seq<Cell>> | IsGrid(g) witness seq(8, _ => seq(8, _ => None))

  predicate InBounds(q: Pos) {
    0 <= q.row < 8 && 0 <= q.col < 8
  }

  /** The cell at q; a square off the board reads as empty. */
  function At(b: Board, q: Pos): (c: Cell)
    ensures !InBounds(q) ==> c == None
  {
    if InBounds(q) then b[q.row][q.col] else None
  }

  /** The board with square q holding x. */
  function Set(b: Board, q: Pos, x: Cell): (b': Board)
    requires InBounds(q)
    ensures At(b', q) == x
    ensures forall p :: p != q ==> At(b', p) == At(b, p)
  {
    b[q.row := b[q.row][q.col := x]]
  }

  /** Two boards are equal when every square holds the same cell. */
  lemma BoardExtensionality(b: Board, b': Board)
    requires forall q :: InBounds(q) ==> At(b, q) == At(b', q)
    ensures b == b'
  {
    forall r | 0 <= r < 8
      ensures b[r] == b'[r]
    {
      forall c | 0 <= c < 8
        ensures b[r][c] == b'[r][c]
      {
        assert At(b, Pos(r, c)) == At(b', Pos(r, c));
      }
    }
  }

  // ---------------------------------------------------------------------
  // Inventory: how many copies of a piece stand on the board.

  /** 1 when the cell holds p, else 0. */
  function Holds(x: Cell, p: Piece): nat {
    if x == Some(p) then 1 else 0
  }

  function RowCount(row: seq<Cell>, p: Piece): nat {
    if |row| == 0 then 0 else Holds(row[0], p) + RowCount(row[1..], p)
  }

  function GridCount(rows: seq<seq<Cell>>, p: Piece): nat {
    if |rows| == 0 then 0 else RowCount(rows[0], p) + GridCount(rows[1..], p)
  }

  /** The number of squares of b holding a piece equal to p. */
  function Census(b: Board, p: Piece): nat {
    GridCount(b, p)
  }

  lemma {:induction false} RowCountUpdate(row: seq<Cell>, i: nat, x: Cell, p: Piece)
    requires i < |row|
    ensures RowCount(row[i := x], p) + Holds(row[i], p) == RowCount(row, p) + Holds(x, p)
  {
    if i == 0 {
      assert row[i := x][1..] == row[1..];
    } else {
      var tail := row[1..];
      assert row[i := x][1..] == tail[i - 1 := x];
      assert tail[i - 1] == row[i];
      RowCountUpdate(tail, i - 1, x, p);
    }
  }

  lemma {:induction false} GridCountUpdate(rows: seq<seq<Cell>>, i: nat, row: seq<Cell>, p: Piece)
    requires i < |rows|
    ensures GridCount(rows[i := row], p) + RowCount(rows[i], p) == GridCount(rows, p) + RowCount(row, p)
  {
    if i == 0 {
      assert rows[i := row][1..] == rows[1..];
    } else {
      var tail := rows[1..];
      assert rows[i := row][1..] == tail[i - 1 := row];
      assert tail[i - 1] == rows[i];
      GridCountUpdate(tail, i - 1, row, p);
    }
  }

  /** Writing x over square q removes the old occupant from the inventory
      and adds x; nothing else on the board is gained or lost. */
  lemma SetCensus(b: Board, q: Pos, x: Cell, p: Piece)
    requires InBounds(q)
    ensures Census(Set(b, q, x), p) + Holds(At(b, q), p) == Census(b, p) + Holds(x, p)
  {
    var row := b[q.row];
    RowCountUpdate(row, q.col, x, p);
    GridCountUpdate(b, q.row, row[q.col := x], p);
  }
}
