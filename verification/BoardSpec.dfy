/** The board as a value: what each `Board` operation does to grid, ship list and counter. */
module BoardSpec {
  import opened Protocol

  datatype BoardState = BoardState(grid: map<Coord, CellState>, ships: seq<Ship>, remaining: int)

  datatype ShotOutcome = ShotOutcome(board: BoardState, result: ShotResult)

  datatype PlaceOutcome = PlaceOutcome(board: BoardState, ok: bool)

  predicate FullGrid(b: BoardState) {
    b.grid.Keys == AllCells()
  }

  function EmptyBoard(): BoardState {
    BoardState(map c | c in AllCells() :: CellEmpty, [], NUM_SHIPS)
  }

  function NewShip(typ: int, pos: Coord, orientation: int): Ship {
    Ship(typ, orientation, pos, GetShipLength(typ), 0, false)
  }

  /** The bounds tests of `isValidPlacement`: along the ship's own axis only. */
  predicate FitsAxis(s: Ship) {
    && 0 <= s.position.row && 0 <= s.position.col
    && (s.orientation == HORIZONTAL ==> s.position.col + s.length <= BOARD_SIZE)
    && (s.orientation == VERTICAL ==> s.position.row + s.length <= BOARD_SIZE)
  }

  /** What callers must see to: nothing bounds the start cell across the ship's axis, so a ship that passes the
      tests above must start inside the grid. */
  predicate Startable(s: Ship) {
    FitsAxis(s) ==> s.position.row < BOARD_SIZE && s.position.col < BOARD_SIZE
  }

  predicate IsValidPlacement(b: BoardState, s: Ship)
    requires Startable(s)
    requires FullGrid(b)
  {
    FitsAxis(s) && forall c :: c in b.grid && Covers(s, c) ==> b.grid[c] == CellEmpty
  }

  function Paint(grid: map<Coord, CellState>, s: Ship): map<Coord, CellState> {
    map c | c in grid :: if Covers(s, c) then CellShip else grid[c]
  }

  function Place(b: BoardState, typ: int, pos: Coord, orientation: int): PlaceOutcome
    requires Startable(NewShip(typ, pos, orientation))
    requires FullGrid(b)
  {
    var s := NewShip(typ, pos, orientation);
    if IsValidPlacement(b, s)
    then PlaceOutcome(BoardState(Paint(b.grid, s), b.ships + [s], b.remaining), true)
    else PlaceOutcome(b, false)
  }

  /** First listed ship that covers `c`; the number of ships when there is none. */
  function Owner(ships: seq<Ship>, c: Coord): (i: nat)
    ensures i <= |ships|
    ensures i < |ships| ==> Covers(ships[i], c)
    ensures forall k :: 0 <= k < i ==> !Covers(ships[k], c)
  {
    if ships == [] then 0
    else if Covers(ships[0], c) then 0
    else
      var i := Owner(ships[1..], c);
      assert forall k :: 1 <= k < i + 1 ==> ships[k] == ships[1..][k - 1];
      i + 1
  }

  function Struck(s: Ship): Ship {
    if s.hits + 1 >= s.length then s.(hits := s.hits + 1, sunk := true) else s.(hits := s.hits + 1)
  }

  /** Count a hit on the first ship that occupies `target`. */
  function Strike(b: BoardState, target: Coord): ShotOutcome {
    var i := Owner(b.ships, target);
    if i == |b.ships| then ShotOutcome(b, ShotHit)
    else
      var struck := Struck(b.ships[i]);
      if struck.hits >= struck.length
      then ShotOutcome(BoardState(b.grid, b.ships[i := struck], b.remaining - 1), ShotSunk)
      else ShotOutcome(BoardState(b.grid, b.ships[i := struck], b.remaining), ShotHit)
  }

  function Shot(b: BoardState, target: Coord): ShotOutcome
    requires FullGrid(b)
  {
    if !InGrid(target) then ShotOutcome(b, ShotMiss)
    else match b.grid[target]
      case CellShip => Strike(b.(grid := b.grid[target := CellHit]), target)
      case CellEmpty => ShotOutcome(b.(grid := b.grid[target := CellMiss]), ShotMiss)
      case _ => ShotOutcome(b, ShotMiss)
  }

  function ShotBoard(b: BoardState, target: Coord): (r: BoardState)
    requires FullGrid(b)
    ensures FullGrid(r)
  {
    Shot(b, target).board
  }

  /** The boards after a list of shots. */
  function Shots(b: BoardState, targets: seq<Coord>): (r: BoardState)
    requires FullGrid(b)
    ensures FullGrid(r)
    decreases |targets|
  {
    if targets == [] then b
    else ShotBoard(Shots(b, targets[..|targets| - 1]), targets[|targets| - 1])
  }

  predicate AllShipsSunk(b: BoardState) {
    b.remaining == 0
  }

  /** First listed ship of the given type; the number of ships when there is none. */
  function FirstOfType(ships: seq<Ship>, typ: int): (i: nat)
    ensures i <= |ships|
    ensures i < |ships| ==> ships[i].typ == typ
    ensures forall k :: 0 <= k < i ==> ships[k].typ != typ
  {
    if ships == [] then 0
    else if ships[0].typ == typ then 0
    else
      var i := FirstOfType(ships[1..], typ);
      assert forall k :: 1 <= k < i + 1 ==> ships[k] == ships[1..][k - 1];
      i + 1
  }

  function Erase(grid: map<Coord, CellState>, s: Ship): map<Coord, CellState> {
    map c | c in grid :: if Covers(s, c) && grid[c] == CellShip then CellEmpty else grid[c]
  }

  function Remove(b: BoardState, typ: int): PlaceOutcome
    requires FullGrid(b)
  {
    var i := FirstOfType(b.ships, typ);
    if i == |b.ships| then PlaceOutcome(b, false)
    else PlaceOutcome(BoardState(Erase(b.grid, b.ships[i]), b.ships[..i] + b.ships[i + 1..], b.remaining), true)
  }

  function GetCell(b: BoardState, c: Coord): CellState {
    if c in b.grid then b.grid[c] else CellEmpty
  }

  function SetCell(b: BoardState, c: Coord, state: CellState): BoardState {
    if c in b.grid then b.(grid := b.grid[c := state]) else b
  }

  /** The type reported with a SUNK answer: the last listed sunk ship that occupies the target. */
  function SunkType(ships: seq<Ship>, target: Coord): int {
    if ships == [] then SHIP_CARRIER
    else
      var last := ships[|ships| - 1];
      if last.sunk && last.hits >= last.length && Covers(last, target) then last.typ
      else SunkType(ships[..|ships| - 1], target)
  }
}
