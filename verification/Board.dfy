/** The game board as the program holds it: a grid and a ship table updated in place. */
module Boards {
  import opened Protocol
  import opened BoardSpec
  import opened BoardLaws
  import opened BoardRuns
  import opened Deployment

  const BLANK_SHIP := Ship(0, 0, Coord(0, 0), 0, 0, false)

  /** The first `n` cells of a ship. */
  function Bow(s: Ship, n: nat): Ship {
    s.(length := n)
  }

  /** One more cell of a ship. */
  lemma {:induction false} BowNext(s: Ship, n: nat)
    requires n < s.length
    ensures forall x :: Covers(Bow(s, n + 1), x) <==> Covers(Bow(s, n), x) || x == CellAt(s, n)
    ensures Covers(s, CellAt(s, n))
  {
  }

  lemma {:induction false} BowWhole(s: Ship)
    ensures Bow(s, s.length) == s && forall x :: !Covers(Bow(s, 0), x)
  {
  }

  class Board {
    const grid: array2<CellState>
    const ships: array<Ship>
    var shipsCount: nat
    var shipsRemaining: int

    /** The board as a value; `Valid` ties it to the fields above. */
    ghost var state: BoardState

    ghost predicate Valid()
      reads this, grid, ships
    {
      && grid.Length0 == BOARD_SIZE && grid.Length1 == BOARD_SIZE
      && ships.Length == NUM_SHIPS && shipsCount <= NUM_SHIPS
      && FullGrid(state)
      && (forall r, c {:trigger grid[r, c]} ::
            0 <= r < BOARD_SIZE && 0 <= c < BOARD_SIZE ==> grid[r, c] == state.grid[Coord(r, c)])
      && state.ships == ships[..shipsCount]
      && state.remaining == shipsRemaining
      && forall i :: 0 <= i < |state.ships| ==> Inside(state.ships[i])
    }

    lemma {:induction false} WholeGrid()
      requires Valid()
      ensures FullGrid(state)
    {
    }

    ghost function Repr(): set<object> {
      {this, grid, ships}
    }

    /** Table entries beyond `shipsCount` never count as sunk ships. */
    ghost predicate SpareSlotsAfloat()
      reads this, grid, ships
      requires Valid()
    {
      forall i :: shipsCount <= i < NUM_SHIPS ==> !ships[i].sunk
    }

    constructor ()
      ensures Valid() && state == EmptyBoard() && SpareSlotsAfloat()
      ensures fresh(Repr())
    {
      grid := new CellState[BOARD_SIZE, BOARD_SIZE]((_, _) => CellEmpty);
      ships := new Ship[NUM_SHIPS](_ => BLANK_SHIP);
      shipsCount, shipsRemaining := 0, NUM_SHIPS;
      state := EmptyBoard();
    }

    method IsValidPlacement(typ: int, pos: Coord, orientation: int) returns (ok: bool)
      requires Valid() && Startable(NewShip(typ, pos, orientation))
      ensures ok == BoardSpec.IsValidPlacement(state, NewShip(typ, pos, orientation))
    {
      var length := GetShipLength(typ);
      ghost var s := NewShip(typ, pos, orientation);
      if pos.row < 0 || pos.col < 0 { return false; }
      if orientation == HORIZONTAL && pos.col + length > BOARD_SIZE { return false; }
      if orientation == VERTICAL && pos.row + length > BOARD_SIZE { return false; }
      for i := 0 to length
        invariant forall c :: InGrid(c) && Covers(Bow(s, i), c) ==> state.grid[c] == CellEmpty
      {
        var r := pos.row + (if orientation == VERTICAL then i else 0);
        var c := pos.col + (if orientation == HORIZONTAL then i else 0);
        assert Covers(s, Coord(r, c));
        if grid[r, c] != CellEmpty {
          assert state.grid[Coord(r, c)] != CellEmpty;
          return false;
        }
        assert forall x :: Covers(Bow(s, i + 1), x) ==> Covers(Bow(s, i), x) || x == Coord(r, c);
      }
      assert Bow(s, length) == s;
      ok := true;
    }

    method PlaceShip(typ: int, pos: Coord, orientation: int) returns (ok: bool)
      requires Valid() && Startable(NewShip(typ, pos, orientation))
      requires BoardSpec.IsValidPlacement(state, NewShip(typ, pos, orientation)) ==> shipsCount < NUM_SHIPS
      modifies Repr()
      ensures Valid()
      ensures PlaceOutcome(state, ok) == Place(old(state), typ, pos, orientation)
      ensures old(SpareSlotsAfloat()) ==> SpareSlotsAfloat()
    {
      ok := IsValidPlacement(typ, pos, orientation);
      if !ok { return; }
      var ship := Ship(typ, orientation, pos, GetShipLength(typ), 0, false);
      PaintOnGrid(ship);
      ships[shipsCount] := ship;
      shipsCount := shipsCount + 1;
      state := state.(ships := state.ships + [ship]);
    }

    method PaintOnGrid(ship: Ship)
      requires Valid() && Inside(ship)
      modifies this`state, grid
      ensures Valid() && state == old(state).(grid := Paint(old(state).grid, ship))
    {
      BowWhole(ship);
      hide Covers, Bow;
      for i := 0 to ship.length
        invariant unchanged(this)
        invariant forall r, c :: 0 <= r < BOARD_SIZE && 0 <= c < BOARD_SIZE ==>
          grid[r, c] == if Covers(Bow(ship, i), Coord(r, c)) then CellShip else state.grid[Coord(r, c)]
      {
        BowNext(ship, i);
        var r := ship.position.row + (if ship.orientation == VERTICAL then i else 0);
        var c := ship.position.col + (if ship.orientation == HORIZONTAL then i else 0);
        grid[r, c] := CellShip;
      }
      state := state.(grid := Paint(state.grid, ship));
    }

    method ClearBoard()
      requires Valid()
      modifies Repr()
      ensures Valid() && state == EmptyBoard() && SpareSlotsAfloat()
    {
      for i := 0 to BOARD_SIZE
        invariant forall r, c :: 0 <= r < i && 0 <= c < BOARD_SIZE ==> grid[r, c] == CellEmpty
      {
        for j := 0 to BOARD_SIZE
          invariant forall r, c :: 0 <= r < i && 0 <= c < BOARD_SIZE ==> grid[r, c] == CellEmpty
          invariant forall c :: 0 <= c < j ==> grid[i, c] == CellEmpty
        {
          grid[i, j] := CellEmpty;
        }
      }
      shipsCount, shipsRemaining := 0, NUM_SHIPS;
      forall i | 0 <= i < NUM_SHIPS { ships[i] := BLANK_SHIP; }
      state := EmptyBoard();
    }

    static method Occupies(ship: Ship, pos: Coord) returns (b: bool)
      ensures b == Covers(ship, pos)
    {
      for j := 0 to ship.length
        invariant !Covers(Bow(ship, j), pos)
      {
        var r := ship.position.row + (if ship.orientation == VERTICAL then j else 0);
        var c := ship.position.col + (if ship.orientation == HORIZONTAL then j else 0);
        if r == pos.row && c == pos.col {
          return true;
        }
      }
      assert Bow(ship, ship.length) == ship;
      return false;
    }

    method ProcessShot(pos: Coord) returns (result: ShotResult)
      requires Valid()
      modifies Repr()
      ensures Valid()
      ensures ShotOutcome(state, result) == Shot(old(state), pos)
      ensures old(SpareSlotsAfloat()) ==> SpareSlotsAfloat()
    {
      if pos.row < 0 || pos.row >= BOARD_SIZE || pos.col < 0 || pos.col >= BOARD_SIZE {
        return ShotMiss;
      }
      var cell := grid[pos.row, pos.col];
      if cell == CellShip {
        grid[pos.row, pos.col] := CellHit;
        state := state.(grid := state.grid[pos := CellHit]);
        result := StrikeFirst(pos);
      } else if cell == CellEmpty {
        grid[pos.row, pos.col] := CellMiss;
        state := state.(grid := state.grid[pos := CellMiss]);
        result := ShotMiss;
      } else {
        result := ShotMiss;
      }
    }

    /** The ship loop of `processShot`: count the hit on the first ship that occupies `pos`. */
    method StrikeFirst(pos: Coord) returns (result: ShotResult)
      requires Valid()
      modifies this, ships
      ensures Valid()
      ensures ShotOutcome(state, result) == Strike(old(state), pos)
      ensures old(SpareSlotsAfloat()) ==> SpareSlotsAfloat()
    {
      for i := 0 to shipsCount
        invariant unchanged(this) && unchanged(ships)
        invariant forall k :: 0 <= k < i ==> !Covers(state.ships[k], pos)
      {
        assert ships[i] == state.ships[i];
        var found := Occupies(ships[i], pos);
        if found {
          result := StrikeShip(i, pos);
          return;
        }
      }
      return ShotHit;
    }

    /** Count the hit on the ship that was found. */
    method StrikeShip(i: nat, pos: Coord) returns (result: ShotResult)
      requires Valid() && i < shipsCount && Owner(state.ships, pos) == i
      modifies this, ships
      ensures Valid()
      ensures ShotOutcome(state, result) == Strike(old(state), pos)
      ensures old(SpareSlotsAfloat()) ==> SpareSlotsAfloat()
    {
      hide Covers, Owner;
      var ship := ships[i].(hits := ships[i].hits + 1);
      if ship.hits >= ship.length {
        ship := ship.(sunk := true);
        shipsRemaining := shipsRemaining - 1;
        result := ShotSunk;
      } else {
        result := ShotHit;
      }
      ships[i] := ship;
      state := Strike(state, pos).board;
    }

    method AllShipsSunk() returns (b: bool)
      requires Valid()
      ensures b == BoardSpec.AllShipsSunk(state)
    {
      b := shipsRemaining == 0;
    }

    method GetCell(row: int, col: int) returns (cell: CellState)
      requires Valid()
      ensures cell == BoardSpec.GetCell(state, Coord(row, col))
    {
      if row < 0 || row >= BOARD_SIZE || col < 0 || col >= BOARD_SIZE {
        return CellEmpty;
      }
      return grid[row, col];
    }

    method SetCell(row: int, col: int, cell: CellState)
      requires Valid()
      modifies this`state, grid
      ensures Valid() && state == BoardSpec.SetCell(old(state), Coord(row, col), cell)
    {
      if row >= 0 && row < BOARD_SIZE && col >= 0 && col < BOARD_SIZE {
        grid[row, col] := cell;
        state := BoardSpec.SetCell(state, Coord(row, col), cell);
      }
    }

    method RemoveShip(typ: int) returns (ok: bool)
      requires Valid()
      modifies Repr()
      ensures Valid()
      ensures PlaceOutcome(state, ok) == Remove(old(state), typ)
    {
      for i := 0 to shipsCount
        invariant unchanged(this) && unchanged(grid) && unchanged(ships)
        invariant forall k :: 0 <= k < i ==> state.ships[k].typ != typ
      {
        assert ships[i] == state.ships[i];
        if ships[i].typ == typ {
          assert FirstOfType(state.ships, typ) == i;
          EraseFromGrid(ships[i]);
          DropEntry(i);
          return true;
        }
      }
      return false;
    }

    method EraseFromGrid(ship: Ship)
      requires Valid() && Inside(ship)
      modifies this`state, grid
      ensures Valid() && state == old(state).(grid := Erase(old(state).grid, ship))
    {
      BowWhole(ship);
      hide Covers, Bow;
      for j := 0 to ship.length
        invariant unchanged(this)
        invariant forall r, c :: 0 <= r < BOARD_SIZE && 0 <= c < BOARD_SIZE ==>
          grid[r, c] == if Covers(Bow(ship, j), Coord(r, c)) && state.grid[Coord(r, c)] == CellShip
                        then CellEmpty else state.grid[Coord(r, c)]
      {
        BowNext(ship, j);
        var r := ship.position.row + (if ship.orientation == VERTICAL then j else 0);
        var c := ship.position.col + (if ship.orientation == HORIZONTAL then j else 0);
        if grid[r, c] == CellShip {
          grid[r, c] := CellEmpty;
        }
      }
      state := state.(grid := Erase(state.grid, ship));
    }

    /** Close the gap in the ship table. */
    method DropEntry(i: nat)
      requires Valid() && i < shipsCount
      modifies this, ships
      ensures Valid() && state == old(state).(ships := old(state.ships[..i] + state.ships[i + 1..]))
    {
      ShiftDown(i);
      shipsCount := shipsCount - 1;
      state := state.(ships := state.ships[..i] + state.ships[i + 1..]);
    }

    method ShiftDown(i: nat)
      requires ships.Length == NUM_SHIPS && i < shipsCount <= NUM_SHIPS
      modifies ships
      ensures ships[..shipsCount - 1] == old(ships[..shipsCount][..i] + ships[..shipsCount][i + 1..])
    {
      for j := i to shipsCount - 1
        invariant forall k :: 0 <= k < NUM_SHIPS ==> ships[k] == old(ships[if i <= k < j then k + 1 else k])
      {
        ships[j] := ships[j + 1];
      }
    }

    /** The source draws row, column and orientation with `rand()`; here the draws of each type are an input. */
    method RandomPlacement(draws: seq<seq<Draw>>)
      requires Valid() && |draws| == NUM_SHIPS && forall typ :: 0 <= typ < NUM_SHIPS ==> DrawList(draws[typ])
      modifies Repr()
      ensures Valid() && SpareSlotsAfloat() && Randomised(state, NUM_SHIPS)
      ensures state.ships == RandomFleet(draws, NUM_SHIPS)
      ensures |CellsIn(state, CellShip)| == 17 <==> AllPlaceable(draws, NUM_SHIPS)
    {
      hide AllPlaceable, CellsIn, View, Valid, Repr, SpareSlotsAfloat, FirstValid, RandomFleet;
      ClearBoard();
      RandomStart(draws);
      for typ := 0 to NUM_SHIPS
        invariant Valid() && SpareSlotsAfloat() && Randomised(state, typ) && state.ships == RandomFleet(draws, typ)
      {
        RandomFleetStep(draws, typ + 1);
        hide RandomFleet, FirstValid, ShipAt;
        PlaceAtRandom(typ, draws[typ]);
      }
      AllDrawnIff(draws);
    }

    /** Draw until a draw is valid, at most 1000 times: the ship is placed at the first valid draw. */
    method PlaceAtRandom(typ: nat, draws: seq<Draw>)
      requires Valid() && SpareSlotsAfloat() && typ < NUM_SHIPS && Randomised(state, typ) && DrawList(draws)
      modifies Repr()
      ensures Valid() && SpareSlotsAfloat() && Randomised(state, typ + 1)
      ensures var k := FirstValid(old(state), typ, draws);
              state.ships == if k < |draws| then old(state.ships) + [ShipAt(typ, draws[k])] else old(state.ships)
    {
      hide Place, Randomised, Tried, FirstValid, BoardSpec.IsValidPlacement;
      var placed, attempts := false, 0;
      ghost var before := state;
      PlaceRandomised(before, typ, Coord(0, 0), HORIZONTAL);
      NoneTried(before, typ, draws);
      while !placed && attempts < MAX_DRAWS
        invariant Valid() && SpareSlotsAfloat() && attempts <= MAX_DRAWS
        invariant Tried(before, state, typ, draws, attempts, placed)
      {
        NotPlaced(before, state, typ, draws, attempts);
        TriedNext(before, typ, draws, attempts);
        var row, col, orientation := draws[attempts].row, draws[attempts].col, draws[attempts].orientation;
        var valid := IsValidPlacement(typ, Coord(row, col), orientation);
        if valid {
          var _ := PlaceShip(typ, Coord(row, col), orientation);
          placed := true;
        }
        attempts := attempts + 1;
      }
      TriedAll(before, state, typ, draws, attempts, placed);
    }

    /** The search `handleMove` runs over the whole ship table after a SUNK answer. */
    method FindSunkType(target: Coord) returns (typ: int)
      requires Valid() && SpareSlotsAfloat()
      ensures typ == SunkType(state.ships, target)
    {
      typ := SHIP_CARRIER;
      for i := 0 to NUM_SHIPS
        invariant typ == SunkType(ships[..if i < shipsCount then i else shipsCount], target)
      {
        if ships[i].sunk && ships[i].hits >= ships[i].length {
          var found := Occupies(ships[i], target);
          if found {
            typ := ships[i].typ;
          }
        }
        assert i < shipsCount ==> ships[..i + 1][..i] == ships[..i];
      }
    }
  }
}
