/** The MOVE_RESULT callback of the shooting client, on a board updated in place. */
module ShooterClient {
  import opened Protocol
  import opened BoardSpec
  import opened Boards
  import opened ShooterSpec

  class OpponentScreen {
    const board: Board
    var hitsCount: nat
    var shotsFired: nat

    ghost predicate Valid()
      reads this, board.Repr()
    {
      this !in board.Repr() && board.Valid()
    }

    constructor (b: Board)
      requires b.Valid()
      ensures Valid() && board == b && hitsCount == 0 && shotsFired == 0
    {
      board := b;
      hitsCount, shotsFired := 0, 0;
    }

    /** One scanning loop: walk from `target` in direction `dir` while the cells show hits. */
    method ScanHits(target: Coord, dir: Direction) returns (n: nat)
      requires Valid() && InGrid(target)
      modifies board`state, board.grid
      ensures Valid() && ScanOutcome(board.state, n) == ScanFrom(old(board.state), target, dir, 1)
      ensures n <= Margin(target, dir)
    {
      hide Boards.Board.Valid, FullGrid, SetCell, ScanFrom, HitAt, Step, Margin;
      board.WholeGrid();
      ScanFromNext(board.state, target, dir, 1);
      n := 0;
      ghost var whole := ScanFrom(board.state, target, dir, 1);
      while true
        invariant Valid() && FullGrid(board.state) && n <= Margin(target, dir) && n <= whole.steps
        invariant ScanFrom(board.state, target, dir, n + 1) == ScanOutcome(whole.board, whole.steps - n)
        decreases Margin(target, dir) - n
      {
        var c := Step(target, dir, n + 1);
        ScanFromNext(board.state, target, dir, n + 1);
        var hit := IsHit(c);
        if !hit { break; }
        board.SetCell(c.row, c.col, CellSunk);
        n := n + 1;
      }
    }

    static lemma {:induction false} ScanFromNext(b: BoardState, c: Coord, dir: Direction, k: nat)
      requires FullGrid(b) && InGrid(c) && k >= 1
      ensures 0 <= Margin(c, dir)
      ensures var x := Step(c, dir, k);
              if HitAt(b, x) then
                var rest := ScanFrom(SetCell(b, x, CellSunk), c, dir, k + 1);
                k <= Margin(c, dir) && FullGrid(SetCell(b, x, CellSunk)) &&
                ScanFrom(b, c, dir, k) == ScanOutcome(rest.board, rest.steps + 1)
              else ScanFrom(b, c, dir, k) == ScanOutcome(b, 0)
    {
    }

    method ScanBothWays(target: Coord, there: Direction, back: Direction, on: bool) returns (m: nat, n: nat)
      requires Valid() && InGrid(target)
      modifies board`state, board.grid
      ensures Valid() && AxisOutcome(board.state, m, n) == ScanAxis(old(board.state), target, there, back, on)
      ensures m <= Margin(target, there) && n <= Margin(target, back)
    {
      m, n := 0, 0;
      if on {
        m := ScanHits(target, there);
        n := ScanHits(target, back);
      }
    }

    method IsHit(c: Coord) returns (hit: bool)
      requires Valid()
      ensures hit == HitAt(board.state, c)
    {
      var cell := board.GetCell(c.row, c.col);
      return cell == CellHit;
    }

    /** Infer the extent of the sunk ship; the minima of the scans give its first cell. */
    method MarkSunkShip(target: Coord) returns (pos: Coord, orientation: int)
      requires Valid() && InGrid(target)
      modifies board`state, board.grid
      ensures Valid() && SunkGuess(board.state, pos, orientation) == MarkSunk(old(board.state), target)
      ensures InGrid(pos)
    {
      board.SetCell(target.row, target.col, CellSunk);
      var west := IsHit(Step(target, West, 1));
      var east := IsHit(Step(target, East, 1));
      var north := IsHit(Step(target, North, 1));
      var south := IsHit(Step(target, South, 1));
      pos, orientation := ScanAround(target, west || east, north || south);
    }

    method ScanAround(target: Coord, horizontal: bool, vertical: bool) returns (pos: Coord, orientation: int)
      requires Valid() && InGrid(target)
      modifies board`state, board.grid
      ensures Valid()
      ensures SunkGuess(board.state, pos, orientation) == FourScans(old(board.state), target, horizontal, vertical)
      ensures InGrid(pos)
    {
      ghost var b := board.state;
      var l, r := ScanBothWays(target, West, East, horizontal || !vertical);
      ghost var h := ScanAxis(b, target, West, East, horizontal || !vertical);
      assert AxisOutcome(board.state, l, r) == h;
      var u, d := ScanBothWays(target, North, South, vertical || !horizontal);
      assert AxisOutcome(board.state, u, d) == ScanAxis(h.board, target, North, South, vertical || !horizontal);
      pos, orientation := Extent(target, l, r, u, d);
    }

    /** First cell and orientation from the extremes that the scans reached. */
    static method Extent(target: Coord, l: nat, r: nat, u: nat, d: nat) returns (pos: Coord, orientation: int)
      ensures pos == Coord(target.row - u, target.col - l)
      ensures orientation == if l + r > 0 then HORIZONTAL else if u + d > 0 then VERTICAL else HORIZONTAL
    {
      var minRow, maxRow, minCol, maxCol := target.row - u, target.row + d, target.col - l, target.col + r;
      orientation := if maxCol > minCol then HORIZONTAL else if maxRow > minRow then VERTICAL else HORIZONTAL;
      pos := Coord(minRow, minCol);
    }

    method ShowSunkShip(target: Coord, typ: int)
      requires Valid() && InGrid(target)
      requires ObjectAccepted(board.state, target, typ) ==> board.shipsCount < NUM_SHIPS
      modifies board.Repr()
      ensures Valid() && board.state == ShowSunk(old(board.state), target, typ)
    {
      var pos, orientation := MarkSunkShip(target);
      var placed := board.PlaceShip(typ, pos, orientation);
      if placed {
        ShootShip(typ, pos, orientation);
      }
    }

    method ShootShip(typ: int, pos: Coord, orientation: int)
      requires Valid()
      modifies board.Repr()
      ensures Valid()
      ensures board.state == ShootCells(old(board.state), NewShip(typ, pos, orientation), GetShipLength(typ))
    {
      hide Shot, GetShipLength, FullGrid;
      ghost var s := NewShip(typ, pos, orientation);
      for i := 0 to GetShipLength(typ)
        invariant Valid() && board.state == ShootCells(old(board.state), s, i)
      {
        var _ := board.ProcessShot(Coord(pos.row + (if orientation == VERTICAL then i else 0),
                                         pos.col + (if orientation == HORIZONTAL then i else 0)));
      }
    }

    /** The branch of the callback for the client's own shots. */
    method OnMoveResult(target: Coord, result: ShotResult, typ: int)
      requires Valid() && Answerable(target, result)
      requires result == ShotSunk && ObjectAccepted(board.state, target, typ) ==> board.shipsCount < NUM_SHIPS
      modifies this, board.Repr()
      ensures Valid() && board.state == OnMyShot(old(board.state), target, result, typ)
      ensures shotsFired == old(shotsFired) + 1
      ensures hitsCount == old(hitsCount) + (if result == ShotMiss then 0 else 1)
    {
      if result == ShotMiss {
        board.SetCell(target.row, target.col, CellMiss);
      } else if result == ShotHit {
        board.SetCell(target.row, target.col, CellHit);
      } else {
        ShowSunkShip(target, typ);
      }
      if result == ShotHit || result == ShotSunk {
        hitsCount := hitsCount + 1;
      }
      shotsFired := shotsFired + 1;
    }
  }
}
