/** When the shooter's picture of the enemy board is exact. */
module ShooterLaws {
  import opened Protocol
  import opened BoardSpec
  import opened BoardLaws
  import opened Deployment
  import opened ShooterSpec

  // ---------------------------------------------------------------- what the shooter should see

  function SeenCell(fleet: seq<Ship>, shots: set<Coord>, c: Coord): CellState {
    if c !in shots then CellEmpty
    else if !Covered(fleet, c) then CellMiss
    else if Down(fleet[Owner(fleet, c)], shots) then CellSunk
    else CellHit
  }

  /** Misses where the server has misses, sunk cells on sunk ships, hits on the rest, no ship objects. */
  function Seen(fleet: seq<Ship>, shots: set<Coord>): (b: BoardState)
    ensures FullGrid(b)
  {
    BoardState(map c | c in AllCells() :: SeenCell(fleet, shots, c), [], NUM_SHIPS)
  }

  predicate Adjacent(c: Coord, d: Coord) {
    || (c.row == d.row && (c.col == d.col + 1 || d.col == c.col + 1))
    || (c.col == d.col && (c.row == d.row + 1 || d.row == c.row + 1))
  }

  /** No cell of one ship lies directly beside a cell of another. */
  ghost predicate Untouching(fleet: seq<Ship>) {
    forall i, j, c, d ::
      0 <= i < |fleet| && 0 <= j < |fleet| && i != j && Covers(fleet[i], c) && Covers(fleet[j], d) ==> !Adjacent(c, d)
  }

  /** The fleets a server deploys from valid straight placements. */
  ghost predicate Regular(fleet: seq<Ship>) {
    Deployed(fleet) && AllStraight(fleet) && forall i :: 0 <= i < |fleet| ==> KnownType(fleet[i].typ)
  }

  // ---------------------------------------------------------------- scanning

  /** `x` is one of the cells k, ..., k + n - 1 steps away from `c`. */
  predicate OnRun(c: Coord, dir: Direction, k: nat, n: nat, x: Coord) {
    match dir
    case West => x.row == c.row && c.col - k - n < x.col <= c.col - k
    case East => x.row == c.row && c.col + k <= x.col < c.col + k + n
    case North => x.col == c.col && c.row - k - n < x.row <= c.row - k
    case South => x.col == c.col && c.row + k <= x.row < c.row + k + n
  }

  function Painted(b: BoardState, c: Coord, dir: Direction, k: nat, n: nat): BoardState {
    b.(grid := map x | x in b.grid :: if OnRun(c, dir, k, n, x) then CellSunk else b.grid[x])
  }

  /** How many hits follow one another in a direction, from `k` steps away on. */
  function HitRun(b: BoardState, c: Coord, dir: Direction, k: nat): nat
    requires FullGrid(b)
    decreases Margin(c, dir) + 1 - k
  {
    if HitAt(b, Step(c, dir, k)) then HitRun(b, c, dir, k + 1) + 1 else 0
  }

  lemma {:induction false} HitRunIs(b: BoardState, c: Coord, dir: Direction, k: nat, n: nat)
    requires FullGrid(b) && forall j :: k <= j < k + n ==> HitAt(b, Step(c, dir, j))
    ensures HitRun(b, c, dir, k) >= n
    ensures !HitAt(b, Step(c, dir, k + n)) ==> HitRun(b, c, dir, k) == n
    decreases n
  {
    if n > 0 {
      HitRunIs(b, c, dir, k + 1, n - 1);
    }
  }

  lemma {:induction false} HitRunHits(b: BoardState, c: Coord, dir: Direction, k: nat, j: nat)
    requires FullGrid(b) && k <= j < k + HitRun(b, c, dir, k)
    ensures HitAt(b, Step(c, dir, j))
    decreases j - k
  {
    if j > k {
      HitRunHits(b, c, dir, k + 1, j);
    }
  }

  /** Only the cells ahead matter to a run. */
  lemma {:induction false} SameHitRun(b: BoardState, d: BoardState, c: Coord, dir: Direction, k: nat)
    requires FullGrid(b) && FullGrid(d)
    requires forall j :: j >= k ==> (HitAt(b, Step(c, dir, j)) <==> HitAt(d, Step(c, dir, j)))
    ensures HitRun(b, c, dir, k) == HitRun(d, c, dir, k)
    decreases Margin(c, dir) + 1 - k
  {
    if HitAt(b, Step(c, dir, k)) {
      SameHitRun(b, d, c, dir, k + 1);
    }
  }

  /** A scan paints exactly the run of hits and counts it. */
  lemma {:induction false} ScanPaintsRun(b: BoardState, c: Coord, dir: Direction, k: nat)
    requires FullGrid(b)
    ensures var n := HitRun(b, c, dir, k);
            ScanFrom(b, c, dir, k) == ScanOutcome(Painted(b, c, dir, k, n), n)
    decreases Margin(c, dir) + 1 - k
  {
    hide Painted, OnRun;
    if HitAt(b, Step(c, dir, k)) {
      var marked := SetCell(b, Step(c, dir, k), CellSunk);
      forall j | j >= k + 1 ensures HitAt(b, Step(c, dir, j)) <==> HitAt(marked, Step(c, dir, j)) {
        assert Step(c, dir, j) != Step(c, dir, k);
      }
      SameHitRun(b, marked, c, dir, k + 1);
      ScanPaintsRun(marked, c, dir, k + 1);
      PaintOneMore(b, c, dir, k, HitRun(b, c, dir, k));
    } else {
      PaintNone(b, c, dir, k);
    }
  }

  lemma {:induction false} PaintNone(b: BoardState, c: Coord, dir: Direction, k: nat)
    ensures Painted(b, c, dir, k, 0) == b
  {
    assert Painted(b, c, dir, k, 0).grid == b.grid;
  }

  lemma {:induction false} PaintOneMore(b: BoardState, c: Coord, dir: Direction, k: nat, n: nat)
    requires FullGrid(b) && n > 0
    ensures Painted(SetCell(b, Step(c, dir, k), CellSunk), c, dir, k + 1, n - 1) == Painted(b, c, dir, k, n)
  {
    forall x ensures OnRun(c, dir, k, n, x) <==> OnRun(c, dir, k + 1, n - 1, x) || x == Step(c, dir, k) {
    }
    var before := SetCell(b, Step(c, dir, k), CellSunk);
    assert Painted(before, c, dir, k + 1, n - 1).grid == Painted(b, c, dir, k, n).grid;
  }

  // ---------------------------------------------------------------- the four scans

  /** The run of hits beside a cell in one direction. */
  function RunLength(b: BoardState, c: Coord, dir: Direction): nat
    requires FullGrid(b)
  {
    HitRun(b, c, dir, 1)
  }

  predicate InRun(b: BoardState, c: Coord, dir: Direction, x: Coord)
    requires FullGrid(b)
  {
    OnRun(c, dir, 1, RunLength(b, c, dir), x)
  }

  /** The target and the four runs of hits beside it. */
  predicate InStar(b: BoardState, target: Coord, x: Coord)
    requires FullGrid(b)
  {
    || x == target
    || InRun(b, target, West, x) || InRun(b, target, East, x)
    || InRun(b, target, North, x) || InRun(b, target, South, x)
  }

  function StarPainted(b: BoardState, target: Coord): (r: BoardState)
    requires FullGrid(b)
    ensures FullGrid(r)
  {
    b.(grid := map x | x in b.grid :: if InStar(b, target, x) then CellSunk else b.grid[x])
  }

  /** Painting in one direction leaves the runs in the others. */
  lemma {:induction false} RunsApart(b: BoardState, c: Coord, dir: Direction, n: nat, other: Direction)
    requires FullGrid(b) && dir != other
    ensures FullGrid(Painted(b, c, dir, 1, n))
    ensures RunLength(Painted(b, c, dir, 1, n), c, other) == RunLength(b, c, other)
  {
    var d := Painted(b, c, dir, 1, n);
    forall j | j >= 1 ensures HitAt(b, Step(c, other, j)) <==> HitAt(d, Step(c, other, j)) {
      assert !OnRun(c, dir, 1, n, Step(c, other, j));
    }
    SameHitRun(b, d, c, other, 1);
  }

  /** One axis: whether it is scanned or skipped for lack of hits, both its runs are painted and counted. */
  lemma {:induction false} AxisPaintsRuns(b: BoardState, c: Coord, there: Direction, back: Direction, on: bool)
    requires FullGrid(b) && there != back && (!on ==> RunLength(b, c, there) == RunLength(b, c, back) == 0)
    ensures ScanAxis(b, c, there, back, on)
         == AxisOutcome(Painted(Painted(b, c, there, 1, RunLength(b, c, there)), c, back, 1, RunLength(b, c, back)),
                        RunLength(b, c, there), RunLength(b, c, back))
  {
    hide Painted, OnRun, HitRun;
    if on {
      ScanPaintsRun(b, c, there, 1);
      RunsApart(b, c, there, RunLength(b, c, there), back);
      ScanPaintsRun(Painted(b, c, there, 1, RunLength(b, c, there)), c, back, 1);
    } else {
      PaintNone(b, c, there, 1);
      PaintNone(b, c, back, 1);
    }
  }

  lemma {:induction false} MarkedRun(b: BoardState, target: Coord, dir: Direction)
    requires FullGrid(b)
    ensures RunLength(SetCell(b, target, CellSunk), target, dir) == RunLength(b, target, dir)
  {
    var b0 := SetCell(b, target, CellSunk);
    forall j | j >= 1 ensures HitAt(b, Step(target, dir, j)) <==> HitAt(b0, Step(target, dir, j)) {
      assert Step(target, dir, j) != target;
    }
    SameHitRun(b, b0, target, dir, 1);
  }

  lemma {:induction false} FourPaints(b: BoardState, target: Coord, w: nat, e: nat, n: nat, s: nat)
    requires FullGrid(b) && InGrid(target)
    requires w == RunLength(b, target, West) && e == RunLength(b, target, East)
    requires n == RunLength(b, target, North) && s == RunLength(b, target, South)
    ensures var row := Painted(Painted(SetCell(b, target, CellSunk), target, West, 1, w), target, East, 1, e);
            Painted(Painted(row, target, North, 1, n), target, South, 1, s) == StarPainted(b, target)
  {
    hide HitRun;
    var row := Painted(Painted(SetCell(b, target, CellSunk), target, West, 1, w), target, East, 1, e);
    var all := Painted(Painted(row, target, North, 1, n), target, South, 1, s);
    hide OnRun;
    assert all.grid == StarPainted(b, target).grid;
  }

  /** On every board, marking a sunk ship paints the target and the four runs of hits beside it. The guessed ship
      starts as far north and west as these runs reach, and lies along the row if there is a run in it. */
  lemma {:induction false} MarkSunkIs(b: BoardState, target: Coord)
    requires FullGrid(b) && InGrid(target)
    ensures var w, e := RunLength(b, target, West), RunLength(b, target, East);
            var n, s := RunLength(b, target, North), RunLength(b, target, South);
            MarkSunk(b, target)
            == SunkGuess(StarPainted(b, target), Coord(target.row - n, target.col - w),
                         if w + e > 0 then HORIZONTAL else if n + s > 0 then VERTICAL else HORIZONTAL)
  {
    var b0 := SetCell(b, target, CellSunk);
    assert FullGrid(b0);
    hide HitRun, RunLength, Painted, StarPainted, ScanAxis, HitBeside, OnRun, SetCell, HitAt;
    forall dir ensures RunLength(b0, target, dir) == RunLength(b, target, dir) {
      MarkedRun(b, target, dir);
    }
    FlagsAreRuns(b0, target, West, East);
    FlagsAreRuns(b0, target, North, South);
    FourScansPaint(b0, target);
    FourPaints(b, target, RunLength(b, target, West), RunLength(b, target, East), RunLength(b, target, North),
      RunLength(b, target, South));
  }

  /** The four scans paint the four runs, one after the other. */
  lemma {:induction false} FourScansPaint(b: BoardState, c: Coord)
    requires FullGrid(b)
    ensures var row := Painted(Painted(b, c, West, 1, RunLength(b, c, West)), c, East, 1, RunLength(b, c, East));
            var all := Painted(Painted(row, c, North, 1, RunLength(b, c, North)), c, South, 1, RunLength(b, c, South));
            var w, e := RunLength(b, c, West), RunLength(b, c, East);
            var n, s := RunLength(b, c, North), RunLength(b, c, South);
            FourScans(b, c, HitBeside(b, c, West, East), HitBeside(b, c, North, South))
            == SunkGuess(all, Coord(c.row - n, c.col - w),
                         if w + e > 0 then HORIZONTAL else if n + s > 0 then VERTICAL else HORIZONTAL)
  {
    hide HitRun, RunLength, Painted, ScanAxis, HitBeside, OnRun, HitAt;
    var w, e := RunLength(b, c, West), RunLength(b, c, East);
    var horizontal, vertical := HitBeside(b, c, West, East), HitBeside(b, c, North, South);
    FlagsAreRuns(b, c, West, East);
    FlagsAreRuns(b, c, North, South);
    AxisPaintsRuns(b, c, West, East, horizontal || !vertical);
    var west := Painted(b, c, West, 1, w);
    var row := Painted(west, c, East, 1, e);
    forall dir | dir in {North, South} ensures FullGrid(row) && RunLength(row, c, dir) == RunLength(b, c, dir) {
      RunsApart(b, c, West, w, dir);
      RunsApart(west, c, East, e, dir);
    }
    AxisPaintsRuns(row, c, North, South, vertical || !horizontal);
  }

  lemma {:induction false} FlagsAreRuns(b: BoardState, target: Coord, there: Direction, back: Direction)
    requires FullGrid(b)
    ensures HitBeside(b, target, there, back) <==> RunLength(b, target, there) + RunLength(b, target, back) > 0
  {
  }

  // ---------------------------------------------------------------- sinking exactly one ship

  /** The cells just beyond the two ends of a straight ship. */
  predicate BeyondEnd(s: Ship, d: Coord) {
    if s.orientation == VERTICAL then
      d.col == s.position.col && (d.row == s.position.row - 1 || d.row == s.position.row + s.length)
    else
      d.row == s.position.row && (d.col == s.position.col - 1 || d.col == s.position.col + s.length)
  }

  /** No hit of another ship lies beside the target or just beyond an end of the ship. */
  ghost predicate Clear(b: BoardState, s: Ship, target: Coord) {
    forall d :: HitAt(b, d) && !Covers(s, d) ==> !Adjacent(target, d) && !BeyondEnd(s, d)
  }

  /** Every cell of the ship but the target is drawn as a hit. */
  ghost predicate ReadyToSink(b: BoardState, s: Ship, target: Coord) {
    && FullGrid(b) && Inside(s) && Straight(s) && s.length >= 2 && Covers(s, target) && !HitAt(b, target)
    && (forall c :: Covers(s, c) && c != target ==> HitAt(b, c))
  }

  function Sink(b: BoardState, s: Ship): BoardState {
    b.(grid := map c | c in b.grid :: if Covers(s, c) then CellSunk else b.grid[c])
  }

  /** How far the ship reaches from the target in each direction. */
  function Reach(s: Ship, target: Coord, dir: Direction): int {
    match dir
    case West => if s.orientation == HORIZONTAL then target.col - s.position.col else 0
    case East => if s.orientation == HORIZONTAL then s.position.col + s.length - 1 - target.col else 0
    case North => if s.orientation == VERTICAL then target.row - s.position.row else 0
    case South => if s.orientation == VERTICAL then s.position.row + s.length - 1 - target.row else 0
  }

  lemma {:induction false} ReachCovers(s: Ship, target: Coord, dir: Direction)
    requires Straight(s) && Covers(s, target)
    ensures Reach(s, target, dir) >= 0
    ensures forall j :: 1 <= j <= Reach(s, target, dir) ==> Covers(s, Step(target, dir, j))
    ensures var d := Step(target, dir, Reach(s, target, dir) + 1);
            !Covers(s, d) && (Adjacent(target, d) || BeyondEnd(s, d))
  {
  }

  /** The run in a direction covers the ship's part there, and on a clear board nothing more. */
  lemma {:induction false} RunIsReach(b: BoardState, s: Ship, target: Coord, dir: Direction)
    requires ReadyToSink(b, s, target)
    ensures RunLength(b, target, dir) >= Reach(s, target, dir) >= 0
    ensures Clear(b, s, target) ==> RunLength(b, target, dir) == Reach(s, target, dir)
    ensures HitAt(b, Step(target, dir, Reach(s, target, dir) + 1)) ==> RunLength(b, target, dir) > Reach(s, target, dir)
  {
    hide FullGrid, HitRun, Reach, Covers, Adjacent, BeyondEnd, HitAt, Inside;
    var n := Reach(s, target, dir);
    ReachCovers(s, target, dir);
    forall j | 1 <= j <= n ensures HitAt(b, Step(target, dir, j)) {
      assert Step(target, dir, j) != target;
    }
    hide Step;
    HitRunIs(b, target, dir, 1, n);
    if HitAt(b, Step(target, dir, n + 1)) {
      HitRunIs(b, target, dir, 1, n + 1);
    }
  }

  /** On a clear board the guess is exactly the ship just sunk, and exactly its cells are marked. */
  lemma {:induction false} MarkSunkExact(b: BoardState, s: Ship, target: Coord)
    requires ReadyToSink(b, s, target) && Clear(b, s, target)
    ensures MarkSunk(b, target) == SunkGuess(Sink(b, s), s.position, s.orientation)
  {
    hide MarkSunk, HitRun, RunLength, Clear, HitAt, InStar, StarPainted, Step;
    MarkSunkIs(b, target);
    forall dir ensures RunLength(b, target, dir) == Reach(s, target, dir) {
      RunIsReach(b, s, target, dir);
    }
    StarIsShip(b, s, target);
  }

  lemma {:induction false} StarIsShip(b: BoardState, s: Ship, target: Coord)
    requires FullGrid(b) && Straight(s) && s.length >= 2 && Covers(s, target)
    requires forall dir :: RunLength(b, target, dir) == Reach(s, target, dir)
    ensures StarPainted(b, target) == Sink(b, s)
    ensures Coord(target.row - Reach(s, target, North), target.col - Reach(s, target, West)) == s.position
    ensures Reach(s, target, West) + Reach(s, target, East) > 0 <==> s.orientation == HORIZONTAL
    ensures Reach(s, target, North) + Reach(s, target, South) > 0 <==> s.orientation == VERTICAL
  {
    hide HitRun, RunLength;
    forall x ensures InStar(b, target, x) <==> Covers(s, x) {
    }
    hide Covers, InStar;
    assert StarPainted(b, target).grid == Sink(b, s).grid;
  }

  /** On a clear board the four scans find exactly the ship just sunk, and the object placed on top of it is
      refused because its first cell is already marked. */
  lemma {:induction false} ShowSunkExact(b: BoardState, s: Ship, target: Coord, typ: int)
    requires ReadyToSink(b, s, target) && Clear(b, s, target) && KnownType(typ)
    ensures InGrid(target) && ShowSunk(b, target, typ) == Sink(b, s)
  {
    MarkSunkExact(b, s, target);
    hide MarkSunk, Clear;
    var guess := MarkSunk(b, target);
    assert Covers(s, s.position);
    PlaceRefused(guess.board, typ, guess.pos, guess.orientation);
  }

  lemma {:induction false} PlaceRefused(b: BoardState, typ: int, pos: Coord, orientation: int)
    requires FullGrid(b) && InGrid(pos) && b.grid[pos] != CellEmpty && KnownType(typ)
    ensures Place(b, typ, pos, orientation) == PlaceOutcome(b, false)
  {
    assert Covers(NewShip(typ, pos, orientation), pos);
  }

  // ---------------------------------------------------------------- one result

  lemma {:induction false} SeenCellKept(fleet: seq<Ship>, shots: set<Coord>, target: Coord, c: Coord)
    requires c != target
    requires Covered(fleet, c) && Covers(fleet[Owner(fleet, c)], target) ==>
             !Down(fleet[Owner(fleet, c)], shots + {target})
    ensures SeenCell(fleet, shots + {target}, c) == SeenCell(fleet, shots, c)
  {
    if Covered(fleet, c) {
      var s := fleet[Owner(fleet, c)];
      if !Covers(s, target) {
        assert Cells(s) <= shots + {target} <==> Cells(s) <= shots;
      }
    }
  }

  lemma {:induction false} SameOwner(fleet: seq<Ship>, c: Coord, d: Coord)
    requires PairwiseApart(fleet) && Covered(fleet, c) && Covers(fleet[Owner(fleet, c)], d)
    ensures Covered(fleet, d) && Owner(fleet, d) == Owner(fleet, c)
  {
    CoveredBy(fleet, Owner(fleet, c), d);
  }

  /** A MISS or HIT answer to a new target keeps the picture exact, on any fleet. */
  lemma {:induction false} SeenPlainStep(fleet: seq<Ship>, shots: set<Coord>, target: Coord, typ: int)
    requires Deployed(fleet) && target !in shots
    requires Verdict(fleet, shots, target) != ShotSunk
    ensures OnMyShot(Seen(fleet, shots), target, Verdict(fleet, shots, target), typ)
         == Seen(fleet, With(shots, target))
  {
    if InGrid(target) {
      forall c | c in AllCells() && c != target
        ensures SeenCell(fleet, shots + {target}, c) == SeenCell(fleet, shots, c)
      {
        if Covered(fleet, c) && Covers(fleet[Owner(fleet, c)], target) {
          SameOwner(fleet, c, target);
        }
        SeenCellKept(fleet, shots, target, c);
      }
    }
  }

  lemma {:induction false} SeenReady(fleet: seq<Ship>, shots: set<Coord>, target: Coord)
    requires Regular(fleet) && target !in shots && Verdict(fleet, shots, target) == ShotSunk
    ensures ReadyToSink(Seen(fleet, shots), fleet[Owner(fleet, target)], target)
  {
    var i := Owner(fleet, target);
    var s := fleet[i];
    var b := Seen(fleet, shots);
    assert target in Cells(s);
    forall c | Covers(s, c) && c != target ensures HitAt(b, c) {
      assert c in Cells(s);
      CoveredBy(fleet, i, c);
    }
  }

  /** On a fleet without contact the picture is clear around every ship. */
  lemma {:induction false} UntouchingClear(fleet: seq<Ship>, shots: set<Coord>, target: Coord)
    requires Regular(fleet) && Untouching(fleet) && Covered(fleet, target)
    ensures Clear(Seen(fleet, shots), fleet[Owner(fleet, target)], target)
  {
    var i := Owner(fleet, target);
    var s, b := fleet[i], Seen(fleet, shots);
    forall d | HitAt(b, d) && !Covers(s, d) ensures !Adjacent(target, d) && !BeyondEnd(s, d) {
      var j := Owner(fleet, d);
      assert Covered(fleet, d) && j != i && Covers(fleet[j], d);
      BesideEnd(s, d);
    }
  }

  /** A cell just beyond an end lies beside a cell of the ship. */
  lemma {:induction false} BesideEnd(s: Ship, d: Coord)
    requires Straight(s) && s.length >= 2
    ensures BeyondEnd(s, d) ==> exists c :: Covers(s, c) && Adjacent(c, d)
  {
    var first, last := CellAt(s, 0), CellAt(s, s.length - 1);
    assert Covers(s, first) && Covers(s, last);
    assert BeyondEnd(s, d) ==> Adjacent(first, d) || Adjacent(last, d);
  }

  lemma {:induction false} SinkSeen(fleet: seq<Ship>, shots: set<Coord>, target: Coord)
    requires Deployed(fleet) && target !in shots && Verdict(fleet, shots, target) == ShotSunk
    ensures Sink(Seen(fleet, shots), fleet[Owner(fleet, target)]) == Seen(fleet, shots + {target})
  {
    var i := Owner(fleet, target);
    var s := fleet[i];
    forall c | c in AllCells()
      ensures SeenCell(fleet, shots + {target}, c) == if Covers(s, c) then CellSunk else SeenCell(fleet, shots, c)
    {
      if Covers(s, c) {
        assert c in Cells(s);
        CoveredBy(fleet, i, c);
      } else {
        if Covered(fleet, c) && Covers(fleet[Owner(fleet, c)], target) {
          SameOwner(fleet, c, target);
        }
        SeenCellKept(fleet, shots, target, c);
      }
    }
  }

  /** A SUNK answer to a new target keeps the picture exact when the picture is clear around the ship. */
  lemma {:induction false} SeenSunkStep(fleet: seq<Ship>, shots: set<Coord>, target: Coord, typ: int)
    requires Regular(fleet) && target !in shots && KnownType(typ)
    requires Verdict(fleet, shots, target) == ShotSunk
    requires Clear(Seen(fleet, shots), fleet[Owner(fleet, target)], target)
    ensures OnMyShot(Seen(fleet, shots), target, ShotSunk, typ) == Seen(fleet, shots + {target})
  {
    SeenReady(fleet, shots, target);
    ShowSunkExact(Seen(fleet, shots), fleet[Owner(fleet, target)], target, typ);
    SinkSeen(fleet, shots, target);
  }
}
