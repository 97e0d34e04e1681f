/**
 * The board as a row-major sequence of `n * n` cells, each empty or holding
 * a player's symbol, and the arithmetic between a cell index and its
 * (row, column) position.
 */
module Board {
  import opened Wrappers

  type Cell = Option<char>

  datatype Pos = Pos(row: int, col: int)

  predicate InBounds(n: int, p: Pos) {
    0 <= p.row < n && 0 <= p.col < n
  }

  /** The cell index of position `p`, `row * n + col`. */
  function Index(n: int, p: Pos): int {
    p.row * n + p.col
  }

  /** A position on the board has an index inside it. */
  lemma IndexBound(n: int, p: Pos)
    ensures InBounds(n, p) ==> 0 <= Index(n, p) < n * n
  {
    if InBounds(n, p) {
      assert p.row * n <= (n - 1) * n by {
        assert (n - 1 - p.row) * n >= 0;
      }
    }
  }

  /** The position of cell `index`: row `index / n`, column `index % n`. */
  function CellPos(n: int, index: int): (p: Pos)
    requires n > 0
    ensures Index(n, p) == index
    ensures 0 <= index < n * n ==> InBounds(n, p)
  {
    Pos(index / n, index % n)
  }

  /** The number of occupied cells. */
  function Filled(cells: seq<Cell>): (count: nat)
    ensures count <= |cells|
  {
    if cells == [] then 0
    else (if cells[0].Some? then 1 else 0) + Filled(cells[1..])
  }

  /** A board is full exactly when every cell is occupied. */
  lemma {:induction false} FilledFull(cells: seq<Cell>)
    ensures Filled(cells) == |cells| <==> forall i :: 0 <= i < |cells| ==> cells[i].Some?
  {
    if cells != [] {
      FilledFull(cells[1..]);
      assert forall i :: 1 <= i < |cells| ==> cells[i] == cells[1..][i - 1];
    }
  }

  /** An empty board has no occupied cell. */
  lemma {:induction false} FilledEmpty(cells: seq<Cell>)
    requires forall i :: 0 <= i < |cells| ==> cells[i].None?
    ensures Filled(cells) == 0
  {
    if cells != [] {
      FilledEmpty(cells[1..]);
    }
  }

  /** Filling one empty cell adds exactly one to the count. */
  lemma {:induction false} FilledPlace(cells: seq<Cell>, i: int, c: char)
    requires 0 <= i < |cells| && cells[i].None?
    ensures Filled(cells[i := Some(c)]) == Filled(cells) + 1
  {
    if i > 0 {
      assert cells[i := Some(c)][1..] == cells[1..][i - 1 := Some(c)];
      FilledPlace(cells[1..], i - 1, c);
    } else {
      assert cells[i := Some(c)][1..] == cells[1..];
    }
  }
}
