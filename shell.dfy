/**
 * The boundary-shell enumeration of `createCubes`: three nested loops over the
 * grid that keep every cell on the outer shell, tagged with its label.
 */
module Shell {
  import opened Wrappers
  import opened Cells
  import Labels

  /** One kept cube: its grid indices and the label stored as `userData.coordinate`. */
  datatype Cube = Cube(cell: Cell, coordinate: Option<string>)

  /** The cube built for a cell. */
  function Tag(c: Cell): Cube
    requires InGrid(c)
  {
    Cube(c, Labels.CubeCoordinate(c))
  }

  /**
   * The loop states `(x, y, z)` the three loops pass through: inside a row,
   * at the end of a slab, and at the end of the outer loop.
   */
  predicate LoopState(x: int, y: int, z: int) {
    || (0 <= x < GridSize && 0 <= y < GridSize && 0 <= z <= GridSize)
    || (0 <= x < GridSize && y == GridSize && z == 0)
    || (x == GridSize && y == 0 && z == 0)
  }

  /** The cells kept before the loops reach state `(x, y, z)`, in visiting order. */
  function KeptBefore(x: int, y: int, z: int): seq<Cell>
    requires LoopState(x, y, z)
    decreases x, y, z
  {
    if z > 0 then
      KeptBefore(x, y, z - 1) + if OnShell(Cell(x, y, z - 1)) then [Cell(x, y, z - 1)] else []
    else if y > 0 then KeptBefore(x, y - 1, GridSize)
    else if x > 0 then KeptBefore(x - 1, GridSize, 0)
    else []
  }

  /** The cells of the whole enumeration, in the order their cubes are added to the group. */
  function ShellCells(): seq<Cell> {
    KeptBefore(GridSize, 0, 0)
  }

  /** `cubes` are the cubes of `cells`, one for one and in the same order. */
  predicate TaggedAs(cubes: seq<Cube>, cells: seq<Cell>) {
    |cubes| == |cells| &&
    forall i :: 0 <= i < |cubes| ==> InGrid(cells[i]) && cubes[i] == Tag(cells[i])
  }

  /**
   * `createCubes` without the meshes, textures and positions: the cubes added
   * to the group, in order, are those of the shell cells, each tagged with its label.
   */
  method CreateCubes() returns (cubes: seq<Cube>)
    ensures TaggedAs(cubes, ShellCells())
  {
    cubes := [];
    ghost var cells: seq<Cell> := [];
    for x := 0 to GridSize
      invariant cells == KeptBefore(x, 0, 0) && TaggedAs(cubes, cells)
    {
      for y := 0 to GridSize
        invariant cells == KeptBefore(x, y, 0) && TaggedAs(cubes, cells)
      {
        for z := 0 to GridSize
          invariant cells == KeptBefore(x, y, z) && TaggedAs(cubes, cells)
        {
          if x == 0 || x == GridSize - 1 ||
             y == 0 || y == GridSize - 1 ||
             z == 0 || z == GridSize - 1
          {
            var coordinate := Labels.CubeCoordinate(Cell(x, y, z));
            cubes := cubes + [Cube(Cell(x, y, z), coordinate)];
            cells := cells + [Cell(x, y, z)];
          }
        }
      }
    }
  }

  /** Every cell kept before state `(x, y, z)` is a shell cell the loops have already visited. */
  lemma {:induction false} KeptBeforeBounded(x: int, y: int, z: int)
    requires LoopState(x, y, z)
    ensures forall c :: c in KeptBefore(x, y, z) ==> InGrid(c) && OnShell(c) && Index(c) < Index(Cell(x, y, z))
    decreases x, y, z
  {
    if z > 0 {
      KeptBeforeBounded(x, y, z - 1);
    } else if y > 0 {
      KeptBeforeBounded(x, y - 1, GridSize);
    } else if x > 0 {
      KeptBeforeBounded(x - 1, GridSize, 0);
    }
  }

  /** The cells kept before state `(x, y, z)` come in strictly increasing visiting order. */
  lemma {:induction false} KeptBeforeIncreasing(x: int, y: int, z: int)
    requires LoopState(x, y, z)
    ensures forall i, j :: 0 <= i < j < |KeptBefore(x, y, z)| ==>
      Index(KeptBefore(x, y, z)[i]) < Index(KeptBefore(x, y, z)[j])
    decreases x, y, z
  {
    if z > 0 {
      KeptBeforeIncreasing(x, y, z - 1);
      KeptBeforeBounded(x, y, z - 1);
      var prefix := KeptBefore(x, y, z - 1);
      var s := KeptBefore(x, y, z);
      forall i, j | 0 <= i < j < |s|
        ensures Index(s[i]) < Index(s[j])
      {
        if j == |prefix| {
          assert s[i] == prefix[i] && prefix[i] in prefix;
        } else {
          assert s[i] == prefix[i] && s[j] == prefix[j];
        }
      }
    } else if y > 0 {
      KeptBeforeIncreasing(x, y - 1, GridSize);
    } else if x > 0 {
      KeptBeforeIncreasing(x - 1, GridSize, 0);
    }
  }

  /** Every shell cell visited before state `(x, y, z)` has been kept. */
  lemma {:induction false} KeptBeforeComplete(x: int, y: int, z: int)
    requires LoopState(x, y, z)
    ensures forall c :: InGrid(c) && OnShell(c) && Index(c) < Index(Cell(x, y, z)) ==> c in KeptBefore(x, y, z)
    decreases x, y, z
  {
    if z > 0 {
      KeptBeforeComplete(x, y, z - 1);
      forall c | InGrid(c) && OnShell(c) && Index(c) < Index(Cell(x, y, z))
        ensures c in KeptBefore(x, y, z)
      {
        if Index(c) == Index(Cell(x, y, z - 1)) {
          IndexInjective(c, Cell(x, y, z - 1));
        }
      }
    } else if y > 0 {
      KeptBeforeComplete(x, y - 1, GridSize);
    } else if x > 0 {
      KeptBeforeComplete(x - 1, GridSize, 0);
    }
  }

  /** A row keeps all four of its cells, unless it crosses the interior, where it keeps the two end cells. */
  lemma RowLength(x: int, y: int)
    requires InRange(x) && InRange(y)
    ensures |KeptBefore(x, y, GridSize)| ==
            |KeptBefore(x, y, 0)| + if 1 <= x <= 2 && 1 <= y <= 2 then 2 else 4
  {
    assert KeptBefore(x, y, 1) == KeptBefore(x, y, 0) + [Cell(x, y, 0)];
    assert KeptBefore(x, y, 4) == KeptBefore(x, y, 3) + [Cell(x, y, 3)];
  }

  /** A slab keeps 16 cells, or 12 when it is one of the two middle slabs. */
  lemma SlabLength(x: int)
    requires InRange(x)
    ensures |KeptBefore(x, GridSize, 0)| == |KeptBefore(x, 0, 0)| + if 1 <= x <= 2 then 12 else 16
  {
    RowLength(x, 0);
    RowLength(x, 1);
    RowLength(x, 2);
    RowLength(x, 3);
  }

  /** The enumeration keeps 64 - 8 = 56 cells: all but the interior 2 x 2 x 2 block. */
  lemma ShellCount()
    ensures |ShellCells()| == 56
  {
    SlabLength(0);
    SlabLength(1);
    SlabLength(2);
    SlabLength(3);
  }

  /** Each cube `createCubes` adds sits on the shell and carries that cell's non-null label. */
  lemma CubesOnShell(cubes: seq<Cube>)
    requires TaggedAs(cubes, ShellCells())
    ensures |cubes| == 56
    ensures forall i :: 0 <= i < |cubes| ==>
      InGrid(cubes[i].cell) && OnShell(cubes[i].cell) &&
      cubes[i].coordinate == Labels.CubeCoordinate(cubes[i].cell) && cubes[i].coordinate.Some?
  {
    ShellCount();
    KeptBeforeBounded(GridSize, 0, 0);
    var cells := ShellCells();
    forall i | 0 <= i < |cubes|
      ensures OnShell(cubes[i].cell) && cubes[i].coordinate.Some?
    {
      assert cells[i] in cells;
    }
  }

  /** The cubes are added in x-major, then y, then z order, so no cell is added twice. */
  lemma CubesOrdered(cubes: seq<Cube>)
    requires TaggedAs(cubes, ShellCells())
    ensures forall i, j :: 0 <= i < j < |cubes| ==> Index(cubes[i].cell) < Index(cubes[j].cell)
  {
    KeptBeforeIncreasing(GridSize, 0, 0);
  }

  /** Every shell cell gets a cube. */
  lemma CubesComplete(cubes: seq<Cube>)
    requires TaggedAs(cubes, ShellCells())
    ensures forall c :: InGrid(c) && OnShell(c) ==> exists i :: 0 <= i < |cubes| && cubes[i].cell == c
  {
    KeptBeforeComplete(GridSize, 0, 0);
    var cells := ShellCells();
    forall c | InGrid(c) && OnShell(c)
      ensures exists i :: 0 <= i < |cubes| && cubes[i].cell == c
    {
      var i :| 0 <= i < |cells| && cells[i] == c;
      assert cubes[i].cell == c;
    }
  }

  /** No two cubes carry the same label. */
  lemma CubesDistinctLabels(cubes: seq<Cube>)
    requires TaggedAs(cubes, ShellCells())
    ensures forall i, j :: 0 <= i < j < |cubes| ==> cubes[i].coordinate != cubes[j].coordinate
  {
    CubesOnShell(cubes);
    CubesOrdered(cubes);
    forall i, j | 0 <= i < j < |cubes|
      ensures cubes[i].coordinate != cubes[j].coordinate
    {
      Labels.LabelsDistinct(cubes[i].cell, cubes[j].cell);
    }
  }
}
