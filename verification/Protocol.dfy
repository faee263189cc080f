/** Wire-level vocabulary shared by client and server: coordinates, ships, shot results. */
module Protocol {

  const BOARD_SIZE := 10
  const NUM_SHIPS := 5

  const HORIZONTAL := 0
  const VERTICAL := 1

  const SHIP_CARRIER := 0
  const SHIP_BATTLESHIP := 1
  const SHIP_CRUISER := 2
  const SHIP_SUBMARINE := 3
  const SHIP_DESTROYER := 4

  datatype Coord = Coord(row: int, col: int)

  datatype CellState = CellEmpty | CellShip | CellMiss | CellHit | CellSunk

  datatype ShotResult = ShotMiss | ShotHit | ShotSunk

  /** `typ` and `orientation` travel as raw bytes, so they are numbers, not enumerations. */
  datatype Ship = Ship(typ: int, orientation: int, position: Coord, length: nat, hits: nat, sunk: bool)

  function GetShipLength(typ: int): nat {
    if typ == SHIP_CARRIER then 5
    else if typ == SHIP_BATTLESHIP then 4
    else if typ == SHIP_CRUISER then 3
    else if typ == SHIP_SUBMARINE then 3
    else if typ == SHIP_DESTROYER then 2
    else 0
  }

  predicate InGrid(c: Coord) {
    0 <= c.row < BOARD_SIZE && 0 <= c.col < BOARD_SIZE
  }

  /** The cell that the source's loops visit for index `j` of a ship. */
  function CellAt(s: Ship, j: int): Coord {
    Coord(s.position.row + (if s.orientation == VERTICAL then j else 0),
          s.position.col + (if s.orientation == HORIZONTAL then j else 0))
  }

  /** `c` is one of the cells `CellAt(s, 0)`, ..., `CellAt(s, s.length - 1)`. An orientation
      that is neither horizontal nor vertical keeps every index on the start cell. */
  predicate Covers(s: Ship, c: Coord) {
    && s.length > 0
    && (if s.orientation == VERTICAL then
          c.col == s.position.col && s.position.row <= c.row < s.position.row + s.length
        else if s.orientation == HORIZONTAL then
          c.row == s.position.row && s.position.col <= c.col < s.position.col + s.length
        else
          c == s.position)
  }

  /** The index at which the source's inner loop first meets cell `c`. */
  function IndexIn(s: Ship, c: Coord): (j: nat)
    requires Covers(s, c)
    ensures j < s.length && CellAt(s, j) == c
  {
    if s.orientation == VERTICAL then c.row - s.position.row
    else if s.orientation == HORIZONTAL then c.col - s.position.col
    else 0
  }

  /** The cells that the loops compute are covered, and along a straight ship they are all different. */
  lemma {:induction false} CoversCellAt(s: Ship, j: nat)
    requires j < s.length
    ensures Covers(s, CellAt(s, j))
    ensures s.orientation in {HORIZONTAL, VERTICAL} ==> IndexIn(s, CellAt(s, j)) == j
  {
  }

  function AllCells(): (cells: set<Coord>)
    ensures forall c :: c in cells <==> InGrid(c)
  {
    var cells := set r, c | 0 <= r < BOARD_SIZE && 0 <= c < BOARD_SIZE :: Coord(r, c);
    assert forall c :: InGrid(c) ==> Coord(c.row, c.col) in cells;
    cells
  }
}
