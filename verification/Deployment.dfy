/** Counting the cells of a fleet, and why random placement always finds room. */
module Deployment {
  import opened Protocol
  import opened BoardSpec
  import opened BoardLaws
  import opened BoardRuns

  function Area(fleet: seq<Ship>): nat {
    if fleet == [] then 0 else Area(fleet[..|fleet| - 1]) + fleet[|fleet| - 1].length
  }

  predicate AllStraight(fleet: seq<Ship>) {
    forall i :: 0 <= i < |fleet| ==> Straight(fleet[i])
  }

  predicate KnownType(typ: int) {
    SHIP_CARRIER <= typ <= SHIP_DESTROYER
  }

  /** One straight ship of each type, in any order. */
  predicate OneOfEach(fleet: seq<Ship>) {
    && |fleet| == NUM_SHIPS
    && (forall i :: 0 <= i < |fleet| ==> KnownType(fleet[i].typ))
    && (forall i, j :: 0 <= i < j < |fleet| ==> fleet[i].typ != fleet[j].typ)
  }

  lemma {:induction false} DeployedFront(fleet: seq<Ship>)
    requires Deployed(fleet) && fleet != []
    ensures Deployed(fleet[..|fleet| - 1])
  {
  }

  /** Disjoint straight ships cover as many cells as their lengths add up to. */
  lemma {:induction false} FleetArea(fleet: seq<Ship>)
    requires Deployed(fleet) && AllStraight(fleet)
    ensures |FleetCells(fleet)| == Area(fleet)
  {
    if fleet == [] {
      assert FleetCells(fleet) == {};
    } else {
      var front, last := fleet[..|fleet| - 1], fleet[|fleet| - 1];
      assert fleet == front + [last];
      DeployedFront(fleet);
      FleetArea(front);
      LastApart(front, last);
      forall c ensures c in FleetCells(fleet) <==> c in FleetCells(front) + Cells(last) {
        OwnerSnoc(front, last, c);
      }
      assert FleetCells(fleet) == FleetCells(front) + Cells(last);
      if last.length > 0 {
        CellsSize(last);
      } else {
        assert Cells(last) == {};
      }
    }
  }

  lemma {:induction false} LastApart(front: seq<Ship>, last: Ship)
    requires Deployed(front + [last])
    ensures FleetCells(front) !! Cells(last)
  {
    var fleet := front + [last];
    forall c | c in FleetCells(front) ensures c !in Cells(last) {
      var i := Owner(front, c);
      assert Apart(fleet[i], fleet[|front|]);
    }
  }

  /** A full fleet occupies 5 + 4 + 3 + 3 + 2 = 17 cells whatever the order of its ships. */
  lemma {:induction false} FullFleetArea(fleet: seq<Ship>)
    requires Deployed(fleet) && AllStraight(fleet) && OneOfEach(fleet)
    ensures |FleetCells(fleet)| == 17
  {
    FleetArea(fleet);
    var a, b, c, d, e := fleet[0], fleet[1], fleet[2], fleet[3], fleet[4];
    assert fleet == [a, b, c, d, e];
    AreaOfFive(a, b, c, d, e);
    LengthSum(a.typ, b.typ, c.typ, d.typ, e.typ);
  }

  lemma {:induction false} AreaOfFive(a: Ship, b: Ship, c: Ship, d: Ship, e: Ship)
    ensures Area([a, b, c, d, e]) == a.length + b.length + c.length + d.length + e.length
  {
    AreaSnoc([], a);
    AreaSnoc([a], b);
    AreaSnoc([a, b], c);
    AreaSnoc([a, b, c], d);
    AreaSnoc([a, b, c, d], e);
    assert [] + [a] == [a];
    assert [a] + [b] == [a, b];
    assert [a, b] + [c] == [a, b, c];
    assert [a, b, c] + [d] == [a, b, c, d];
    assert [a, b, c, d] + [e] == [a, b, c, d, e];
  }

  lemma {:induction false} AreaSnoc(fleet: seq<Ship>, s: Ship)
    ensures Area(fleet + [s]) == Area(fleet) + s.length
  {
    assert (fleet + [s])[..|fleet|] == fleet;
  }

  lemma {:induction false} LengthSum(a: int, b: int, c: int, d: int, e: int)
    requires KnownType(a) && KnownType(b) && KnownType(c) && KnownType(d) && KnownType(e)
    requires a != b && a != c && a != d && a != e && b != c && b != d && b != e && c != d && c != e && d != e
    ensures GetShipLength(a) + GetShipLength(b) + GetShipLength(c) + GetShipLength(d) + GetShipLength(e) == 17
  {
  }

  // ---------------------------------------------------------------- room for the next ship

  /** Twenty pairwise disjoint horizontal places for a ship of at most five cells: the left and
      the right half of each row. */
  function Slot(typ: int, k: nat): Ship {
    NewShip(typ, Coord(k / 2, 5 * (k % 2)), HORIZONTAL)
  }

  function SlotOf(c: Coord): int {
    2 * c.row + c.col / 5
  }

  lemma {:induction false} SlotCells(typ: int, k: nat, c: Coord)
    requires KnownType(typ) && k < 20 && c in Cells(Slot(typ, k))
    ensures InGrid(c) && SlotOf(c) == k
  {
  }

  predicate Blocked(fleet: seq<Ship>, s: Ship) {
    !(Cells(s) !! FleetCells(fleet))
  }

  /** The fleet's cells in the first `k` slots. */
  ghost function CellsBelow(fleet: seq<Ship>, k: nat): set<Coord> {
    set c | c in FleetCells(fleet) && SlotOf(c) < k
  }

  lemma {:induction false} OneMoreBelow(fleet: seq<Ship>, k: nat, c: Coord)
    requires c in FleetCells(fleet) && SlotOf(c) == k
    ensures |CellsBelow(fleet, k)| < |CellsBelow(fleet, k + 1)|
  {
    hide FleetCells, SlotOf;
    SubsetSize(CellsBelow(fleet, k) + {c}, CellsBelow(fleet, k + 1));
  }

  lemma {:induction false} CellInSlot(fleet: seq<Ship>, typ: int, k: nat) returns (c: Coord)
    requires KnownType(typ) && k < 20 && Blocked(fleet, Slot(typ, k))
    ensures c in FleetCells(fleet) && SlotOf(c) == k
  {
    hide FleetCells;
    c :| c in Cells(Slot(typ, k)) && c in FleetCells(fleet);
    SlotCells(typ, k, c);
  }

  lemma {:induction false} BlockedSlots(fleet: seq<Ship>, typ: int, k: nat)
    requires KnownType(typ) && k <= 20
    requires forall j :: 0 <= j < k ==> Blocked(fleet, Slot(typ, j))
    ensures |CellsBelow(fleet, k)| >= k
  {
    hide Blocked, CellsBelow, FleetCells, Slot, SlotOf;
    if k > 0 {
      BlockedSlots(fleet, typ, k - 1);
      var c := CellInSlot(fleet, typ, k - 1);
      OneMoreBelow(fleet, k - 1, c);
    }
  }

  /** Random placement never gets stuck: whatever valid positions were drawn for the earlier
      ships, as long as they cover fewer than 20 cells (the four largest cover 15) the next
      ship has a valid position. */
  lemma {:induction false} RoomForNextShip(fleet: seq<Ship>, typ: int) returns (pos: Coord, orientation: int)
    requires Deployed(fleet) && AllStraight(fleet) && Area(fleet) < 20 && KnownType(typ)
    ensures InGrid(pos) && orientation == HORIZONTAL
    ensures IsValidPlacement(View(fleet, {}), NewShip(typ, pos, orientation))
  {
    var k := FreeSlot(fleet, typ);
    var s := Slot(typ, k);
    FreeCells(Story(fleet, {}), s);
    pos, orientation := s.position, HORIZONTAL;
  }

  lemma {:induction false} FreeSlot(fleet: seq<Ship>, typ: int) returns (k: nat)
    requires Deployed(fleet) && AllStraight(fleet) && Area(fleet) < 20 && KnownType(typ)
    ensures k < 20 && !Blocked(fleet, Slot(typ, k))
  {
    if j: nat :| j < 20 && !Blocked(fleet, Slot(typ, j)) {
      k := j;
    } else {
      FleetArea(fleet);
      BlockedSlots(fleet, typ, 20);
      SubsetSize(CellsBelow(fleet, 20), FleetCells(fleet));
      assert false;
    }
  }

  // ---------------------------------------------------------------- random placement

  /** Ships placed after trying types 0, ..., n - 1 in this order, some of them without success. */
  ghost predicate Placing(fleet: seq<Ship>, n: nat) {
    && Deployed(fleet) && AllStraight(fleet) && n <= NUM_SHIPS
    && (forall i :: 0 <= i < |fleet| ==> 0 <= fleet[i].typ < n)
    && (forall i, j :: 0 <= i < j < |fleet| ==> fleet[i].typ < fleet[j].typ)
  }

  function LengthBelow(n: nat): nat {
    if n == 0 then 0 else LengthBelow(n - 1) + GetShipLength(n - 1)
  }

  lemma {:induction false} PlacingArea(fleet: seq<Ship>, n: nat)
    requires Placing(fleet, n)
    ensures |fleet| <= n && Area(fleet) <= LengthBelow(n)
  {
    if fleet != [] {
      DeployedFront(fleet);
      var last := fleet[|fleet| - 1];
      PlacingArea(fleet[..|fleet| - 1], last.typ);
      assert Area(fleet) <= LengthBelow(last.typ + 1);
      LengthBelowGrows(last.typ + 1, n);
    }
  }

  lemma {:induction false} LengthBelowGrows(m: nat, n: nat)
    requires m <= n
    ensures LengthBelow(m) <= LengthBelow(n)
  {
    if m < n {
      LengthBelowGrows(m, n - 1);
    }
  }

  /** At every point of `randomPlacement` some draw is accepted. */
  lemma {:induction false} RandomPlacementNeverStuck(fleet: seq<Ship>, n: nat) returns (pos: Coord, orientation: int)
    requires Placing(fleet, n) && n < NUM_SHIPS
    ensures InGrid(pos) && (orientation == HORIZONTAL || orientation == VERTICAL)
    ensures Place(View(fleet, {}), n, pos, orientation).ok
  {
    PlacingArea(fleet, n);
    LengthBelowGrows(n, 4);
    assert LengthBelow(4) == 15;
    pos, orientation := RoomForNextShip(fleet, n);
  }

  /** A board that shows exactly its own ship list, after trying types 0, ..., n - 1. */
  ghost predicate Randomised(b: BoardState, n: nat) {
    Placing(b.ships, n) && b == View(b.ships, {})
  }

  lemma {:induction false} PlaceRandomised(b: BoardState, typ: nat, pos: Coord, orientation: int)
    requires Randomised(b, typ) && typ < NUM_SHIPS
    requires InGrid(pos) && HORIZONTAL <= orientation <= VERTICAL
    ensures |b.ships| <= typ && Randomised(b, typ + 1)
    ensures Randomised(Place(b, typ, pos, orientation).board, typ + 1)
  {
    var fleet, s := b.ships, NewShip(typ, pos, orientation);
    PlacingArea(fleet, typ);
    PlaceView(Story(fleet, {}), typ, pos, orientation);
    if Free(Story(fleet, {}), s) {
      PlacingSnoc(fleet, s, typ);
      UnshotView(fleet + [s]);
    }
  }

  lemma {:induction false} PlacingSnoc(fleet: seq<Ship>, s: Ship, n: nat)
    requires Placing(fleet, n) && Deployed(fleet + [s]) && Straight(s) && s.typ == n < NUM_SHIPS
    ensures Placing(fleet + [s], n + 1)
  {
  }

  function CellsIn(b: BoardState, state: CellState): set<Coord> {
    set c | c in b.grid && b.grid[c] == state
  }

  /** When all five loops succeed the board shows 17 ship cells. */
  lemma {:induction false} PlacedCells(fleet: seq<Ship>)
    requires Placing(fleet, NUM_SHIPS) && |fleet| == NUM_SHIPS
    ensures |CellsIn(View(fleet, {}), CellShip)| == 17
  {
    FullFleetArea(fleet);
    assert CellsIn(View(fleet, {}), CellShip) == FleetCells(fleet);
  }

  // ---------------------------------------------------------------- random placement, draw by draw

  const MAX_DRAWS := 1000

  /** What one attempt of the random loop draws. */
  datatype Draw = Draw(row: int, col: int, orientation: int)

  predicate InRange(d: Draw) {
    InGrid(Coord(d.row, d.col)) && HORIZONTAL <= d.orientation <= VERTICAL
  }

  /** The draws of one type: as many as the loop makes at most. */
  predicate DrawList(draws: seq<Draw>) {
    |draws| == MAX_DRAWS && forall i :: 0 <= i < |draws| ==> InRange(draws[i])
  }

  function ShipAt(typ: int, d: Draw): Ship {
    NewShip(typ, Coord(d.row, d.col), d.orientation)
  }

  predicate ValidDraw(b: BoardState, typ: int, d: Draw)
    requires FullGrid(b)
  {
    InRange(d) && IsValidPlacement(b, ShipAt(typ, d))
  }

  /** The first valid draw of a list; its length when there is none. */
  function FirstValid(b: BoardState, typ: int, draws: seq<Draw>): (k: nat)
    requires FullGrid(b)
    ensures k <= |draws| && (k < |draws| ==> ValidDraw(b, typ, draws[k]))
    ensures forall j :: 0 <= j < k ==> !ValidDraw(b, typ, draws[j])
  {
    if draws == [] then 0
    else if ValidDraw(b, typ, draws[0]) then 0
    else
      var k := FirstValid(b, typ, draws[1..]);
      assert forall j :: 1 <= j < k + 1 ==> draws[j] == draws[1..][j - 1];
      k + 1
  }

  /** The ships that stand after types 0, ..., n - 1 have had their draws. */
  function RandomFleet(draws: seq<seq<Draw>>, n: nat): seq<Ship>
    requires n <= |draws|
  {
    if n == 0 then []
    else
      var fleet, list := RandomFleet(draws, n - 1), draws[n - 1];
      var k := FirstValid(View(fleet, {}), n - 1, list);
      if k < |list| then fleet + [ShipAt(n - 1, list[k])] else fleet
  }

  /** One of the draws of this type is valid on the board that the types before it have left. */
  predicate Placeable(draws: seq<seq<Draw>>, typ: nat)
    requires typ < |draws|
  {
    exists k :: 0 <= k < |draws[typ]| && ValidDraw(View(RandomFleet(draws, typ), {}), typ, draws[typ][k])
  }

  lemma {:induction false} PlaceOneDrawn(fleet: seq<Ship>, typ: nat, d: Draw)
    requires Placing(fleet, typ) && typ < NUM_SHIPS && ValidDraw(View(fleet, {}), typ, d)
    ensures Placing(fleet + [ShipAt(typ, d)], typ + 1)
  {
    UnshotView(fleet);
    PlaceRandomised(View(fleet, {}), typ, Coord(d.row, d.col), d.orientation);
    var after := Place(View(fleet, {}), typ, Coord(d.row, d.col), d.orientation).board;
    assert after.ships == fleet + [ShipAt(typ, d)];
  }

  /** One type more: its ship joins at the first valid draw, if there is one. */
  lemma {:induction false} RandomFleetStep(draws: seq<seq<Draw>>, n: nat)
    requires 0 < n <= |draws|
    ensures var fleet, list := RandomFleet(draws, n - 1), draws[n - 1];
            var k := FirstValid(View(fleet, {}), n - 1, list);
            && (Placeable(draws, n - 1) <==> k < |list|)
            && RandomFleet(draws, n) == (if k < |list| then fleet + [ShipAt(n - 1, list[k])] else fleet)
            && (k < |list| ==> ValidDraw(View(fleet, {}), n - 1, list[k]))
  {
    hide View, ValidDraw;
  }

  lemma {:induction false} RandomFleetPlacing(draws: seq<seq<Draw>>, n: nat)
    requires n <= |draws| && n <= NUM_SHIPS
    ensures Placing(RandomFleet(draws, n), n)
  {
    hide RandomFleet, FirstValid, ValidDraw, Placeable, View, Placing, ShipAt;
    if n == 0 {
      NothingPlaced(draws);
    } else {
      RandomFleetPlacing(draws, n - 1);
      RandomFleetStep(draws, n);
      var fleet, list := RandomFleet(draws, n - 1), draws[n - 1];
      var k := FirstValid(View(fleet, {}), n - 1, list);
      if k < |list| {
        PlaceOneDrawn(fleet, n - 1, list[k]);
      } else {
        PlacingMore(fleet, n - 1);
      }
    }
  }

  lemma {:induction false} NothingPlaced(draws: seq<seq<Draw>>)
    ensures Placing(RandomFleet(draws, 0), 0)
  {
  }

  lemma {:induction false} PlacingMore(fleet: seq<Ship>, n: nat)
    requires Placing(fleet, n) && n < NUM_SHIPS
    ensures Placing(fleet, n + 1)
  {
    hide Deployed, AllStraight;
  }

  /** A type stands on the resulting board if and only if one of its draws was valid on the board that the types before
      it had left, and then it stands at the first such draw. */
  lemma {:induction false} DrawnIff(draws: seq<seq<Draw>>, typ: nat, n: nat)
    requires typ < n <= |draws| && n <= NUM_SHIPS
    ensures (exists s: Ship :: s in RandomFleet(draws, n) && s.typ == typ) <==> Placeable(draws, typ)
    ensures forall s: Ship :: s in RandomFleet(draws, n) && s.typ == typ ==>
              var k := FirstValid(View(RandomFleet(draws, typ), {}), typ, draws[typ]);
              k < |draws[typ]| && s == ShipAt(typ, draws[typ][k])
    decreases n
  {
    hide FirstValid, View, Deployed, AllStraight, Placeable, RandomFleet, ValidDraw;
    RandomFleetStep(draws, n);
    RandomFleetPlacing(draws, n - 1);
    var fleet := RandomFleet(draws, n - 1);
    assert forall s: Ship :: s in fleet ==> s.typ < n - 1;
    if typ == n - 1 {
      var k := FirstValid(View(fleet, {}), typ, draws[typ]);
      if k < |draws[typ]| {
        assert ShipAt(typ, draws[typ][k]) in RandomFleet(draws, n);
      }
    } else {
      DrawnIff(draws, typ, n - 1);
      forall s: Ship | s.typ == typ ensures s in RandomFleet(draws, n) <==> s in fleet {
      }
    }
  }

  /** Each of the first `n` lists holds a valid draw. */
  ghost predicate AllPlaceable(draws: seq<seq<Draw>>, n: nat)
    requires n <= |draws|
  {
    forall typ :: 0 <= typ < n ==> Placeable(draws, typ)
  }

  lemma {:induction false} AllPlaceableStep(draws: seq<seq<Draw>>, n: nat)
    requires 0 < n <= |draws|
    ensures AllPlaceable(draws, n) <==> AllPlaceable(draws, n - 1) && Placeable(draws, n - 1)
  {
    hide Placeable;
  }

  lemma {:induction false} RandomArea(draws: seq<seq<Draw>>, n: nat)
    requires n <= |draws| && n <= NUM_SHIPS
    ensures |RandomFleet(draws, n)| <= n && Area(RandomFleet(draws, n)) <= LengthBelow(n)
    ensures |RandomFleet(draws, n)| == n <==> AllPlaceable(draws, n)
    ensures Area(RandomFleet(draws, n)) == LengthBelow(n) <==> AllPlaceable(draws, n)
  {
    hide FirstValid, View, Placeable, RandomFleet, AllPlaceable, ValidDraw, Area;
    if n == 0 {
      NothingDrawn(draws);
    } else {
      RandomArea(draws, n - 1);
      RandomFleetStep(draws, n);
      AllPlaceableStep(draws, n);
      var fleet, list := RandomFleet(draws, n - 1), draws[n - 1];
      var k := FirstValid(View(fleet, {}), n - 1, list);
      if k < |list| {
        AreaSnoc(fleet, ShipAt(n - 1, list[k]));
      }
    }
  }

  lemma {:induction false} NothingDrawn(draws: seq<seq<Draw>>)
    ensures RandomFleet(draws, 0) == [] && Area([]) == 0 && AllPlaceable(draws, 0)
  {
  }

  /** All five ships stand, and 17 cells show a ship, if and only if each of the five lists holds a valid draw. */
  lemma {:induction false} AllDrawnIff(draws: seq<seq<Draw>>)
    requires |draws| == NUM_SHIPS
    ensures var fleet := RandomFleet(draws, NUM_SHIPS);
            && Placing(fleet, NUM_SHIPS)
            && (|fleet| == NUM_SHIPS <==> AllPlaceable(draws, NUM_SHIPS))
            && (|CellsIn(View(fleet, {}), CellShip)| == 17 <==> AllPlaceable(draws, NUM_SHIPS))
  {
    var fleet := RandomFleet(draws, NUM_SHIPS);
    assert LengthBelow(NUM_SHIPS) == 17 by {
      assert LengthBelow(3) == 12;
    }
    assert CellsIn(View(fleet, {}), CellShip) == FleetCells(fleet);
    hide RandomFleet, AllPlaceable, View, Area, LengthBelow, Deployed, CellsIn, FleetCells;
    RandomArea(draws, NUM_SHIPS);
    RandomFleetPlacing(draws, NUM_SHIPS);
    FleetArea(fleet);
  }

  // ---------------------------------------------------------------- one random loop

  lemma {:induction false} RandomStart(draws: seq<seq<Draw>>)
    ensures Randomised(EmptyBoard(), 0) && RandomFleet(draws, 0) == [] && EmptyBoard().ships == []
  {
    EmptyView();
  }

  /** The loop has looked at the first `n` draws: the board is untouched, or the ship stands at the first valid one. */
  ghost predicate Tried(before: BoardState, now: BoardState, typ: nat, draws: seq<Draw>, n: nat, placed: bool)
    requires FullGrid(before) && n <= |draws|
  {
    var k := FirstValid(before, typ, draws);
    if placed then
      k < n && InRange(draws[k])
      && now == Place(before, typ, Coord(draws[k].row, draws[k].col), draws[k].orientation).board
    else k >= n && now == before
  }

  lemma {:induction false} NoneTried(before: BoardState, typ: nat, draws: seq<Draw>)
    requires FullGrid(before)
    ensures Tried(before, before, typ, draws, 0, false)
  {
  }

  lemma {:induction false} NotPlaced(before: BoardState, now: BoardState, typ: nat, draws: seq<Draw>, n: nat)
    requires FullGrid(before) && n <= |draws| && Tried(before, now, typ, draws, n, false)
    ensures now == before && FirstValid(before, typ, draws) >= n
  {
  }

  lemma {:induction false} TriedNext(before: BoardState, typ: nat, draws: seq<Draw>, n: nat)
    requires FullGrid(before) && n < |draws| && InRange(draws[n]) && FirstValid(before, typ, draws) >= n
    ensures var after := Place(before, typ, Coord(draws[n].row, draws[n].col), draws[n].orientation);
            if ValidDraw(before, typ, draws[n]) then Tried(before, after.board, typ, draws, n + 1, true)
            else Tried(before, before, typ, draws, n + 1, false)
  {
    hide IsValidPlacement, Place;
  }

  lemma {:induction false} TriedAll(before: BoardState, now: BoardState, typ: nat, draws: seq<Draw>, n: nat,
                                    placed: bool)
    requires Randomised(before, typ) && typ < NUM_SHIPS && n <= |draws|
    requires Tried(before, now, typ, draws, n, placed) && (placed || n == |draws|)
    ensures Randomised(now, typ + 1)
    ensures var k := FirstValid(before, typ, draws);
            now.ships == if k < |draws| then before.ships + [ShipAt(typ, draws[k])] else before.ships
  {
    PlaceRandomised(before, typ, Coord(0, 0), HORIZONTAL);
    if placed {
      var k := FirstValid(before, typ, draws);
      PlaceRandomised(before, typ, Coord(draws[k].row, draws[k].col), draws[k].orientation);
    }
    hide Randomised, IsValidPlacement;
  }
}
