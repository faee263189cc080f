/** The ship object that the shooting client tries to place on a ship it has just marked as sunk, and what no
    result ever does to the client's board. */
module ShooterObjects {
  import opened Protocol
  import opened BoardSpec
  import opened BoardLaws
  import opened Deployment
  import opened ShooterSpec
  import opened ShooterLaws

  // ---------------------------------------------------------------- what marking changes

  /** Some hits have become sunk cells and nothing else has changed. */
  ghost predicate OnlySinks(b: BoardState, after: BoardState) {
    && after.grid.Keys == b.grid.Keys && after.ships == b.ships && after.remaining == b.remaining
    && forall d :: d in b.grid ==> after.grid[d] == b.grid[d] || (b.grid[d] == CellHit && after.grid[d] == CellSunk)
  }

  lemma {:induction false} InRunIsHit(b: BoardState, c: Coord, dir: Direction, x: Coord)
    requires FullGrid(b) && InRun(b, c, dir, x)
    ensures HitAt(b, x)
  {
    var j := if dir == West then c.col - x.col else if dir == East then x.col - c.col
             else if dir == North then c.row - x.row else x.row - c.row;
    assert Step(c, dir, j) == x;
    HitRunHits(b, c, dir, 1, j);
  }

  /** Apart from the target itself, marking a sunk ship turns hits into sunk cells and changes nothing else. */
  lemma {:induction false} MarkOnlySinks(b: BoardState, target: Coord)
    requires FullGrid(b) && InGrid(target)
    ensures OnlySinks(SetCell(b, target, CellSunk), MarkSunk(b, target).board)
  {
    MarkSunkIs(b, target);
    var b0 := SetCell(b, target, CellSunk);
    hide MarkSunk, InRun;
    forall d | d in b.grid && InStar(b, target, d) && d != target ensures b.grid[d] == CellHit {
      if InRun(b, target, West, d) { InRunIsHit(b, target, West, d); }
      if InRun(b, target, East, d) { InRunIsHit(b, target, East, d); }
      if InRun(b, target, North, d) { InRunIsHit(b, target, North, d); }
      if InRun(b, target, South, d) { InRunIsHit(b, target, South, d); }
    }
  }

  // ---------------------------------------------------------------- when the object is refused

  /** The object that the SUNK branch places, by the lengths of the runs of hits beside the target. */
  function Guessed(b: BoardState, target: Coord, typ: int): Ship
    requires FullGrid(b)
  {
    var w, e := RunLength(b, target, West), RunLength(b, target, East);
    var n, s := RunLength(b, target, North), RunLength(b, target, South);
    NewShip(typ, Coord(target.row - n, target.col - w),
            if w + e > 0 then HORIZONTAL else if n + s > 0 then VERTICAL else HORIZONTAL)
  }

  /** The object is accepted if and only if the ship that starts as far north and west as the runs of hits reach
      fits along its axis and covers neither the target nor any cell that was marked before. */
  lemma {:induction false} ObjectAcceptedIff(b: BoardState, target: Coord, typ: int)
    requires FullGrid(b) && InGrid(target)
    ensures var s := Guessed(b, target, typ);
            ObjectAccepted(b, target, typ) <==>
            (FitsAxis(s) && forall c :: c in Cells(s) ==> c != target && b.grid[c] == CellEmpty)
  {
    hide MarkSunk, StarPainted, RunLength;
    MarkSunkIs(b, target);
    MarkedEmpty(b, target);
  }

  /** Marking leaves exactly those cells empty that were empty before, apart from the target. */
  lemma {:induction false} MarkedEmpty(b: BoardState, target: Coord)
    requires FullGrid(b) && InGrid(target)
    ensures var after := MarkSunk(b, target).board;
            forall c :: InGrid(c) ==> (after.grid[c] == CellEmpty <==> c != target && b.grid[c] == CellEmpty)
  {
    hide MarkSunk;
    MarkOnlySinks(b, target);
    var after := MarkSunk(b, target).board;
    forall c | c in after.grid ensures after.grid[c] == CellEmpty <==> c != target && b.grid[c] == CellEmpty {
      assert SetCell(b, target, CellSunk).grid[c] == if c == target then CellSunk else b.grid[c];
    }
  }

  /** On an exact picture: if and only if it fits along its axis and covers neither the target nor a shot cell. */
  lemma {:induction false} SeenObjectAcceptedIff(fleet: seq<Ship>, shots: set<Coord>, target: Coord, typ: int)
    requires InGrid(target)
    ensures var b := Seen(fleet, shots);
            var s := Guessed(b, target, typ);
            ObjectAccepted(b, target, typ) <==> (FitsAxis(s) && Cells(s) !! shots + {target})
  {
    ObjectAcceptedIff(Seen(fleet, shots), target, typ);
    hide MarkSunk, RunLength;
    forall c | InGrid(c) ensures Seen(fleet, shots).grid[c] == CellEmpty <==> c !in shots {
    }
  }

  /** When hits lie beside the target on at most one axis, the object starts on a marked cell and is refused. */
  lemma {:induction false} OneAxisRefused(b: BoardState, target: Coord, typ: int)
    requires FullGrid(b) && InGrid(target) && KnownType(typ)
    requires !(HitBeside(b, target, West, East) && HitBeside(b, target, North, South))
    ensures !ObjectAccepted(b, target, typ)
    ensures ShowSunk(b, target, typ) == MarkSunk(b, target).board
  {
    MarkSunkIs(b, target);
    FlagsAreRuns(b, target, West, East);
    FlagsAreRuns(b, target, North, South);
    hide HitBeside, MarkSunk;
    var w, n := RunLength(b, target, West), RunLength(b, target, North);
    var pos := Coord(target.row - n, target.col - w);
    if w > 0 { InRunIsHit(b, target, West, pos); }
    if n > 0 { InRunIsHit(b, target, North, pos); }
    hide RunLength;
    assert InStar(b, target, pos);
    var guess := MarkSunk(b, target);
    PlaceRefused(guess.board, typ, guess.pos, guess.orientation);
  }

  // ---------------------------------------------------------------- what no result ever does

  /** Marks stay, and no cell is drawn as a ship. */
  ghost predicate KeepsMarks(b: BoardState, after: BoardState) {
    && FullGrid(b) && FullGrid(after)
    && forall d :: d in b.grid && b.grid[d] != CellEmpty ==> after.grid[d] != CellEmpty
  }

  ghost predicate KeepsSunk(b: BoardState, after: BoardState) {
    FullGrid(b) && FullGrid(after) && forall d :: d in b.grid && b.grid[d] == CellSunk ==> after.grid[d] == CellSunk
  }

  ghost predicate NoShipDrawn(b: BoardState) {
    forall d :: d in b.grid ==> b.grid[d] != CellShip
  }

  /** Shooting the first cells of a ship leaves ships drawn on other cells only, and erases no mark. */
  lemma {:induction false} ShootCellsLeaves(b: BoardState, s: Ship, n: nat)
    requires FullGrid(b)
    ensures KeepsMarks(b, ShootCells(b, s, n)) && KeepsSunk(b, ShootCells(b, s, n))
    ensures var after := ShootCells(b, s, n);
            forall d :: d in b.grid && after.grid[d] == CellShip ==>
              b.grid[d] == CellShip && forall j :: 0 <= j < n ==> CellAt(s, j) != d
  {
    if n > 0 {
      ShootCellsLeaves(b, s, n - 1);
      ShotLeaves(ShootCells(b, s, n - 1), CellAt(s, n - 1));
      hide ShotBoard;
    }
  }

  lemma {:induction false} ShotLeaves(b: BoardState, target: Coord)
    requires FullGrid(b)
    ensures KeepsMarks(b, ShotBoard(b, target)) && KeepsSunk(b, ShotBoard(b, target))
    ensures var after := ShotBoard(b, target);
            forall d :: d in b.grid && after.grid[d] == CellShip ==> b.grid[d] == CellShip && d != target
  {
  }

  lemma {:induction false} ObjectLeaves(b: BoardState, target: Coord, typ: int)
    requires FullGrid(b) && InGrid(target)
    ensures var marked, after := MarkSunk(b, target).board, ShowSunk(b, target, typ);
            && KeepsMarks(marked, after) && KeepsSunk(marked, after)
            && (NoShipDrawn(marked) ==> NoShipDrawn(after))
  {
    var guess := MarkSunk(b, target);
    assert guess.pos.row < BOARD_SIZE && guess.pos.col < BOARD_SIZE;
    hide MarkSunk;
    PlaceFullGrid(guess.board, typ, guess.pos, guess.orientation);
    var placed := Place(guess.board, typ, guess.pos, guess.orientation);
    if placed.ok {
      var s := NewShip(typ, guess.pos, guess.orientation);
      ShootCellsLeaves(placed.board, s, GetShipLength(typ));
      var after := ShowSunk(b, target, typ);
      if NoShipDrawn(guess.board) {
        forall d | d in after.grid ensures after.grid[d] != CellShip {
          if Covers(s, d) {
            assert CellAt(s, IndexIn(s, d)) == d && IndexIn(s, d) < GetShipLength(typ);
          }
        }
      }
    }
  }

  /** Whatever lies on the runs of hits beside the finishing shot is drawn as sunk. */
  lemma {:induction false} StarIsSunk(b: BoardState, target: Coord, d: Coord, typ: int)
    requires FullGrid(b) && InGrid(target) && InGrid(d) && InStar(b, target, d)
    ensures ShowSunk(b, target, typ).grid[d] == CellSunk
  {
    MarkSunkIs(b, target);
    ObjectLeaves(b, target, typ);
    hide MarkSunk, ShowSunk, InStar;
  }

  /** A result marks its target, if that lies on the grid, never erases a mark, and leaves no ship drawn. */
  lemma {:induction false} ResultMarks(b: BoardState, target: Coord, result: ShotResult, typ: int)
    requires FullGrid(b) && Answerable(target, result)
    ensures var after := OnMyShot(b, target, result, typ);
            && KeepsMarks(b, after) && (InGrid(target) ==> after.grid[target] != CellEmpty)
            && (NoShipDrawn(b) ==> NoShipDrawn(after))
    ensures !InGrid(target) ==> OnMyShot(b, target, result, typ) == b
  {
    hide MarkSunk, ShowSunk;
    if result == ShotSunk {
      MarkOnlySinks(b, target);
      OnlySinksMarks(b, target, MarkSunk(b, target).board);
      ObjectLeaves(b, target, typ);
    }
  }

  lemma {:induction false} OnlySinksMarks(b: BoardState, target: Coord, after: BoardState)
    requires FullGrid(b) && InGrid(target) && OnlySinks(SetCell(b, target, CellSunk), after)
    ensures KeepsMarks(b, after) && after.grid[target] != CellEmpty && (NoShipDrawn(b) ==> NoShipDrawn(after))
  {
    assert SetCell(b, target, CellSunk).grid == b.grid[target := CellSunk];
  }

  /** The cells that were empty, except the target, stay empty if and only if no object is accepted. */
  lemma {:induction false} EmptyStaysIff(b: BoardState, target: Coord, typ: int)
    requires FullGrid(b) && InGrid(target) && KnownType(typ)
    ensures var after := ShowSunk(b, target, typ);
            (forall c :: InGrid(c) && c != target && b.grid[c] == CellEmpty ==> after.grid[c] == CellEmpty) <==>
            !ObjectAccepted(b, target, typ)
  {
    MarkOnlySinks(b, target);
    ObjectAcceptedIff(b, target, typ);
    ObjectLeaves(b, target, typ);
    MarkSunkIs(b, target);
    hide StarPainted, RunLength;
    if ObjectAccepted(b, target, typ) {
      AcceptedObjectDrawn(b, target, typ);
    }
    hide MarkSunk;
  }

  /** An accepted object is drawn on its first cell, which was empty. */
  lemma {:induction false} AcceptedObjectDrawn(b: BoardState, target: Coord, typ: int)
    requires FullGrid(b) && InGrid(target) && KnownType(typ) && ObjectAccepted(b, target, typ)
    ensures var pos := Guessed(b, target, typ).position;
            InGrid(pos) && pos != target && b.grid[pos] == CellEmpty
            && ShowSunk(b, target, typ).grid[pos] != CellEmpty
  {
    ObjectAcceptedIff(b, target, typ);
    MarkSunkIs(b, target);
    hide StarPainted, RunLength, MarkSunk;
    var guess, s := MarkSunk(b, target), Guessed(b, target, typ);
    PlaceFullGrid(guess.board, typ, guess.pos, guess.orientation);
    assert Covers(s, s.position) && s.position in Cells(s);
    var placed := Place(guess.board, typ, guess.pos, guess.orientation);
    ShootCellsLeaves(placed.board, s, GetShipLength(typ));
  }
}
