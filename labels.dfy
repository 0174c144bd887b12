/**
 * The coordinate-label mapper `getCubeCoordinate`: six fixed 4 x 4 tables and a
 * first-match chain of face tests that picks the table and the entry for a cell.
 */
module Labels {
  import opened Wrappers
  import opened Cells

  /** The six named tables, listed in the order the face tests are tried. */
  datatype Face = Front | Back | Left | Right | Top | Bottom

  /** One entry of one table: `faces.<face>[row][col]`. */
  datatype Position = Position(face: Face, row: int, col: int)

  const FrontTable: seq<seq<string>> := [
    ["1D", "2D", "3D", "4D"],
    ["1C", "3C", "2C", "4C"],
    ["1B", "2B", "3B", "4B"],
    ["1A", "2A", "3A", "4A"]
  ]

  const BackTable: seq<seq<string>> := [
    ["13D", "14D", "15D", "16D"],
    ["13C", "14C", "15C", "16C"],
    ["13B", "14B", "15B", "16B"],
    ["13A", "14A", "15A", "16A"]
  ]

  const LeftTable: seq<seq<string>> := [
    ["1A", "5D", "9D", "13A"],
    ["1C", "5C", "9C", "13B"],
    ["1B", "5B", "9B", "13C"],
    ["FF", "5A", "9A", "13D"]
  ]

  const RightTable: seq<seq<string>> := [
    ["16A", "12D", "8D", "4A"],
    ["16B", "12C", "8C", "4B"],
    ["16C", "12B", "8B", "4C"],
    ["16D", "12A", "8A", "4D"]
  ]

  const TopTable: seq<seq<string>> := [
    ["1A", "CC", "XX", "4A"],
    ["5A", "6A", "10A", "8A"],
    ["9A", "7A", "11A", "12A"],
    ["13A", "14A", "15A", "16A"]
  ]

  const BottomTable: seq<seq<string>> := [
    ["13D", "14D", "15D", "16D"],
    ["AD", "10D", "6D", "12D"],
    ["5D", "11D", "7D", "8D"],
    ["1D", "2D", "3D", "4A"]
  ]

  function Table(f: Face): (t: seq<seq<string>>)
    ensures |t| == 4 && forall row :: 0 <= row < 4 ==> |t[row]| == 4
  {
    match f
    case Front => FrontTable
    case Back => BackTable
    case Left => LeftTable
    case Right => RightTable
    case Top => TopTable
    case Bottom => BottomTable
  }

  predicate InTable(p: Position) {
    0 <= p.row < 4 && 0 <= p.col < 4
  }

  function Entry(p: Position): string
    requires InTable(p)
  {
    Table(p.face)[p.row][p.col]
  }

  /** The plane of the cube that each table describes. */
  predicate OnFace(f: Face, c: Cell) {
    match f
    case Front => c.z == 0
    case Back => c.z == 3
    case Left => c.x == 0
    case Right => c.x == 3
    case Top => c.y == 3
    case Bottom => c.y == 0
  }

  /** Rank of a face in the order the tests are tried; a lower rank wins. */
  function Priority(f: Face): int {
    match f
    case Front => 0
    case Back => 1
    case Left => 2
    case Right => 3
    case Top => 4
    case Bottom => 5
  }

  /**
   * The table entry `getCubeCoordinate` reads for a cell, or `None` for an
   * interior cell. The chosen face is the first, in priority order, whose
   * plane holds the cell, and every index it builds (`3 - z` included) is
   * inside the table.
   */
  function Lookup(c: Cell): (r: Option<Position>)
    requires InGrid(c)
    ensures r.Some? <==> OnShell(c)
    ensures r.Some? ==> InTable(r.value) && OnFace(r.value.face, c)
    ensures r.Some? ==> forall g: Face :: Priority(g) < Priority(r.value.face) ==> !OnFace(g, c)
  {
    if c.z == 0 then Some(Position(Front, c.y, c.x))
    else if c.z == 3 then Some(Position(Back, c.y, c.x))
    else if c.x == 0 then Some(Position(Left, c.y, c.z))
    else if c.x == 3 then Some(Position(Right, c.y, 3 - c.z))
    else if c.y == 3 then Some(Position(Top, c.x, c.z))
    else if c.y == 0 then Some(Position(Bottom, c.x, 3 - c.z))
    else None
  }

  /** `getCubeCoordinate(x, y, z)`: the label of a shell cell, `null` (`None`) inside. */
  function CubeCoordinate(c: Cell): (r: Option<string>)
    requires InGrid(c)
    ensures r.None? <==> !OnShell(c)
    ensures r.Some? ==> r.value == Entry(Lookup(c).value)
  {
    match Lookup(c)
    case None => None
    case Some(p) => Some(Entry(p))
  }

  /**
   * The table entries the priority chain can ever reach: every entry of the
   * front and back tables, the two middle columns of the left and right
   * tables, and the middle 2 x 2 block of the top and bottom tables.
   */
  predicate Reachable(p: Position) {
    && InTable(p)
    && match p.face
       case Front => true
       case Back => true
       case Left => 1 <= p.col <= 2
       case Right => 1 <= p.col <= 2
       case Top => 1 <= p.row <= 2 && 1 <= p.col <= 2
       case Bottom => 1 <= p.row <= 2 && 1 <= p.col <= 2
  }

  /** The cell whose label a table entry holds: the inverse of `Lookup` on the reachable entries. */
  function CellOf(p: Position): (c: Cell)
    requires InTable(p)
    ensures InGrid(c) && OnFace(p.face, c)
    ensures Reachable(p) ==> OnShell(c) && Lookup(c) == Some(p)
  {
    match p.face
    case Front => Cell(p.col, p.row, 0)
    case Back => Cell(p.col, p.row, 3)
    case Left => Cell(0, p.row, p.col)
    case Right => Cell(3, p.row, 3 - p.col)
    case Top => Cell(p.row, 3, p.col)
    case Bottom => Cell(p.row, 0, 3 - p.col)
  }

  /** Every shell cell reads a reachable entry, and `CellOf` gives the cell back. */
  lemma LookupReachable(c: Cell)
    requires InGrid(c) && OnShell(c)
    ensures Lookup(c).Some? && Reachable(Lookup(c).value) && CellOf(Lookup(c).value) == c
  {
  }

  /** Value of a decimal digit character. */
  function DigitValue(ch: char): int {
    ch as int - '0' as int
  }

  predicate IsDigit(ch: char) {
    '0' <= ch <= '9'
  }

  /** The layer a label's letter names: `A` is the top layer (y = 3), `D` the bottom one (y = 0). */
  function LayerOf(letter: char): (r: Option<int>)
    ensures r.Some? ==> 0 <= r.value < 4
  {
    if letter == 'A' then Some(3)
    else if letter == 'B' then Some(2)
    else if letter == 'C' then Some(1)
    else if letter == 'D' then Some(0)
    else None
  }

  /** A one- or two-digit decimal numeral. */
  function Numeral(digits: string): Option<int> {
    if |digits| == 1 && IsDigit(digits[0]) then Some(DigitValue(digits[0]))
    else if |digits| == 2 && IsDigit(digits[0]) && IsDigit(digits[1])
    then Some(10 * DigitValue(digits[0]) + DigitValue(digits[1]))
    else None
  }

  /**
   * Reads a label back as a cell. Every reachable table entry follows one
   * naming scheme: a column number `n` in 1..16 for the vertical column
   * `(x, z)`, with `n = 4 * z + x + 1`, then a letter for the layer `y`. The
   * only reachable exception is the second row of the front table, which
   * names (1, 1, 0) "3C" and (2, 1, 0) "2C". Unreachable border entries need
   * not follow the scheme. Strings outside the scheme, such as the entries
   * "FF", "CC", "XX" and "AD", read as `None`.
   */
  function DecodeLabel(name: string): (r: Option<Cell>)
    ensures r.Some? ==> InGrid(r.value)
  {
    if name == "3C" then Some(Cell(1, 1, 0))
    else if name == "2C" then Some(Cell(2, 1, 0))
    else if |name| < 2 then None
    else
      match (Numeral(name[..|name| - 1]), LayerOf(name[|name| - 1]))
      case (Some(n), Some(y)) =>
        if 1 <= n <= 16 then Some(Cell((n - 1) % 4, y, (n - 1) / 4)) else None
      case _ => None
  }

  // One lemma per table: each reachable entry of that table decodes to its cell.

  lemma FrontEntriesDecode(row: int, col: int)
    requires 0 <= row < 4 && 0 <= col < 4
    ensures DecodeLabel(FrontTable[row][col]) == Some(Cell(col, row, 0))
  {
  }

  lemma BackEntriesDecode(row: int, col: int)
    requires 0 <= row < 4 && 0 <= col < 4
    ensures DecodeLabel(BackTable[row][col]) == Some(Cell(col, row, 3))
  {
  }

  lemma LeftEntriesDecode(row: int, col: int)
    requires 0 <= row < 4 && 1 <= col <= 2
    ensures DecodeLabel(LeftTable[row][col]) == Some(Cell(0, row, col))
  {
  }

  lemma RightEntriesDecode(row: int, col: int)
    requires 0 <= row < 4 && 1 <= col <= 2
    ensures DecodeLabel(RightTable[row][col]) == Some(Cell(3, row, 3 - col))
  {
  }

  lemma TopEntriesDecode(row: int, col: int)
    requires 1 <= row <= 2 && 1 <= col <= 2
    ensures DecodeLabel(TopTable[row][col]) == Some(Cell(row, 3, col))
  {
  }

  lemma BottomEntriesDecode(row: int, col: int)
    requires 1 <= row <= 2 && 1 <= col <= 2
    ensures DecodeLabel(BottomTable[row][col]) == Some(Cell(row, 0, 3 - col))
  {
  }

  /** Every reachable table entry names the cell it is read for. */
  lemma EntryDecodes(p: Position)
    requires Reachable(p)
    ensures DecodeLabel(Entry(p)) == Some(CellOf(p))
  {
    match p.face
    case Front => FrontEntriesDecode(p.row, p.col);
    case Back => BackEntriesDecode(p.row, p.col);
    case Left => LeftEntriesDecode(p.row, p.col);
    case Right => RightEntriesDecode(p.row, p.col);
    case Top => TopEntriesDecode(p.row, p.col);
    case Bottom => BottomEntriesDecode(p.row, p.col);
  }

  /** Decoding the label of a shell cell gives that cell back. */
  lemma LabelRoundTrip(c: Cell)
    requires InGrid(c) && OnShell(c)
    ensures CubeCoordinate(c).Some? && DecodeLabel(CubeCoordinate(c).value) == Some(c)
  {
    LookupReachable(c);
    EntryDecodes(Lookup(c).value);
  }

  /** No two shell cells share a label. */
  lemma LabelsDistinct(c: Cell, d: Cell)
    requires InGrid(c) && OnShell(c) && InGrid(d) && OnShell(d) && c != d
    ensures CubeCoordinate(c) != CubeCoordinate(d)
  {
    LabelRoundTrip(c);
    LabelRoundTrip(d);
  }

  /**
   * The placeholder-looking entries, and the second "4A" in the bottom table,
   * sit at entries the priority chain never reaches.
   */
  lemma PlaceholdersUnreachable()
    ensures Entry(Position(Left, 3, 0)) == "FF" && !Reachable(Position(Left, 3, 0))
    ensures Entry(Position(Top, 0, 1)) == "CC" && !Reachable(Position(Top, 0, 1))
    ensures Entry(Position(Top, 0, 2)) == "XX" && !Reachable(Position(Top, 0, 2))
    ensures Entry(Position(Bottom, 1, 0)) == "AD" && !Reachable(Position(Bottom, 1, 0))
    ensures Entry(Position(Bottom, 3, 3)) == "4A" && !Reachable(Position(Bottom, 3, 3))
  {
  }

  /** No shell cell is labelled with a placeholder, and none reads `bottom[3][3]`. */
  lemma PlaceholdersNeverReturned(c: Cell)
    requires InGrid(c) && OnShell(c)
    ensures CubeCoordinate(c).Some?
    ensures CubeCoordinate(c).value !in {"FF", "CC", "XX", "AD"}
    ensures Lookup(c) != Some(Position(Bottom, 3, 3))
  {
    LabelRoundTrip(c);
    LookupReachable(c);
    assert DecodeLabel("FF") == None;
    assert DecodeLabel("CC") == None;
    assert DecodeLabel("XX") == None;
    assert DecodeLabel("AD") == None;
  }
}
