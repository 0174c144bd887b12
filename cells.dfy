/** Grid cells of the 4 x 4 x 4 cube and the shell predicate that `createCubes` filters on. */
module Cells {

  /** Number of cubes along each axis (`gridSize`). */
  const GridSize: int := 4

  /** Number of cells in the grid, `GridSize` cubed. */
  const CellCount: int := 64

  /** Integer grid indices of one small cube. */
  datatype Cell = Cell(x: int, y: int, z: int)

  predicate InGrid(c: Cell) {
    0 <= c.x < GridSize && 0 <= c.y < GridSize && 0 <= c.z < GridSize
  }

  /** A cell with some coordinate on the minimum or maximum of its axis. */
  predicate OnShell(c: Cell) {
    c.x == 0 || c.x == GridSize - 1 ||
    c.y == 0 || c.y == GridSize - 1 ||
    c.z == 0 || c.z == GridSize - 1
  }

  /** Position of a cell in the x-major, then y, then z visiting order of the nested loops (`GridSize` is 4). */
  function Index(c: Cell): int {
    16 * c.x + 4 * c.y + c.z
  }

  /** The cell visited at step `k` of the nested loops; `Index` is its inverse. */
  function CellAt(k: int): (c: Cell)
    requires 0 <= k < CellCount
    ensures InGrid(c) && Index(c) == k
  {
    Cell(k / 16, (k / 4) % 4, k % 4)
  }

  lemma CellAtIndex(c: Cell)
    requires InGrid(c)
    ensures 0 <= Index(c) < CellCount && CellAt(Index(c)) == c
  {
    var k := Index(c);
    assert k / 16 == c.x;
    assert k / 4 == 4 * c.x + c.y;
  }

  predicate InRange(i: int) {
    0 <= i < GridSize
  }

  /** Distinct grid cells have distinct visiting positions. */
  lemma IndexInjective(c: Cell, d: Cell)
    requires InGrid(c) && InGrid(d) && Index(c) == Index(d)
    ensures c == d
  {
    CellAtIndex(c);
    CellAtIndex(d);
  }
}
