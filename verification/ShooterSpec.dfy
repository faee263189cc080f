/** What the shooting client does to its picture of the enemy board when a result arrives. */
module ShooterSpec {
  import opened Protocol
  import opened BoardSpec

  datatype Direction = West | East | North | South

  /** The cell `k` steps away from `c`. */
  function Step(c: Coord, dir: Direction, k: int): Coord {
    match dir
    case West => Coord(c.row, c.col - k)
    case East => Coord(c.row, c.col + k)
    case North => Coord(c.row - k, c.col)
    case South => Coord(c.row + k, c.col)
  }

  /** Cells between `c` and the border. */
  function Margin(c: Coord, dir: Direction): int {
    match dir
    case West => c.col
    case East => BOARD_SIZE - 1 - c.col
    case North => c.row
    case South => BOARD_SIZE - 1 - c.row
  }

  predicate HitAt(b: BoardState, c: Coord) {
    c in b.grid && b.grid[c] == CellHit
  }

  datatype ScanOutcome = ScanOutcome(board: BoardState, steps: nat)

  /** A scanning loop that has reached step `k`: hits become sunk cells until another cell is met. */
  function ScanFrom(b: BoardState, c: Coord, dir: Direction, k: nat): (s: ScanOutcome)
    requires FullGrid(b)
    ensures FullGrid(s.board)
    decreases Margin(c, dir) + 1 - k
  {
    if HitAt(b, Step(c, dir, k)) then
      var rest := ScanFrom(SetCell(b, Step(c, dir, k), CellSunk), c, dir, k + 1);
      ScanOutcome(rest.board, rest.steps + 1)
    else ScanOutcome(b, 0)
  }

  /** One of the four scanning loops; `on` says whether the flags let it run. */
  function Scan(b: BoardState, c: Coord, dir: Direction, on: bool): (s: ScanOutcome)
    requires FullGrid(b)
    ensures FullGrid(s.board)
  {
    if on then ScanFrom(b, c, dir, 1) else ScanOutcome(b, 0)
  }

  datatype SunkGuess = SunkGuess(board: BoardState, pos: Coord, orientation: int)

  predicate HitBeside(b: BoardState, c: Coord, d: Direction, e: Direction) {
    HitAt(b, Step(c, d, 1)) || HitAt(b, Step(c, e, 1))
  }

  /** Infer orientation and extent of the ship sunk at `target` from the neighbouring hits. */
  function MarkSunk(b: BoardState, target: Coord): (g: SunkGuess)
    requires FullGrid(b)
    ensures FullGrid(g.board)
  {
    var b0 := SetCell(b, target, CellSunk);
    FourScans(b0, target, HitBeside(b0, target, West, East), HitBeside(b0, target, North, South))
  }

  datatype AxisOutcome = AxisOutcome(board: BoardState, there: nat, back: nat)

  /** The two scans of one axis, `there` first. */
  function ScanAxis(b: BoardState, c: Coord, there: Direction, back: Direction, on: bool): (s: AxisOutcome)
    requires FullGrid(b)
    ensures FullGrid(s.board)
  {
    var one := Scan(b, c, there, on);
    var two := Scan(one.board, c, back, on);
    AxisOutcome(two.board, one.steps, two.steps)
  }

  function FourScans(b: BoardState, target: Coord, horizontal: bool, vertical: bool): (g: SunkGuess)
    requires FullGrid(b)
    ensures FullGrid(g.board)
  {
    var h := ScanAxis(b, target, West, East, horizontal || !vertical);
    var v := ScanAxis(h.board, target, North, South, vertical || !horizontal);
    SunkGuess(v.board, Coord(target.row - v.there, target.col - h.there),
              if h.there + h.back > 0 then HORIZONTAL
              else if v.there + v.back > 0 then VERTICAL
              else HORIZONTAL)
  }

  /** Shoot at the first `n` cells of a ship. */
  function ShootCells(b: BoardState, s: Ship, n: nat): (r: BoardState)
    requires FullGrid(b)
    ensures FullGrid(r)
  {
    if n == 0 then b else ShotBoard(ShootCells(b, s, n - 1), CellAt(s, n - 1))
  }

  lemma {:induction false} PlaceFullGrid(b: BoardState, typ: int, pos: Coord, orientation: int)
    requires FullGrid(b) && pos.row < BOARD_SIZE && pos.col < BOARD_SIZE
    ensures FullGrid(Place(b, typ, pos, orientation).board)
  {
  }

  /** Whether the ship object of the SUNK branch is accepted. */
  predicate ObjectAccepted(b: BoardState, target: Coord, typ: int)
    requires FullGrid(b) && InGrid(target)
  {
    var guess := MarkSunk(b, target);
    Place(guess.board, typ, guess.pos, guess.orientation).ok
  }

  /** Mark the sunk ship, then try to add it as a ship object and shoot all its cells. */
  function ShowSunk(b: BoardState, target: Coord, typ: int): (r: BoardState)
    requires FullGrid(b) && InGrid(target)
    ensures FullGrid(r)
  {
    var guess := MarkSunk(b, target);
    PlaceFullGrid(guess.board, typ, guess.pos, guess.orientation);
    var placed := Place(guess.board, typ, guess.pos, guess.orientation);
    if placed.ok then ShootCells(placed.board, NewShip(typ, guess.pos, guess.orientation), GetShipLength(typ))
    else guess.board
  }

  /** The answers a server gives: SUNK only for targets on the grid. */
  predicate Answerable(target: Coord, result: ShotResult) {
    result == ShotSunk ==> InGrid(target)
  }

  function OnMyShot(b: BoardState, target: Coord, result: ShotResult, typ: int): (r: BoardState)
    requires FullGrid(b) && Answerable(target, result)
    ensures FullGrid(r)
  {
    match result
    case ShotMiss => SetCell(b, target, CellMiss)
    case ShotHit => SetCell(b, target, CellHit)
    case ShotSunk => ShowSunk(b, target, typ)
  }
}
