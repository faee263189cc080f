/** The shooter's picture over whole runs: exact for every run exactly when no two ships touch. */
module ShooterRuns {
  import opened Protocol
  import opened BoardSpec
  import opened BoardLaws
  import opened BoardRuns
  import opened Deployment
  import opened ShooterSpec
  import opened ShooterLaws
  import opened ShooterObjects

  /** What the server reports about a shot. */
  datatype Reply = Reply(result: ShotResult, typ: int)

  function ServerReply(b: BoardState, target: Coord): (r: Reply)
    requires FullGrid(b)
    ensures Answerable(target, r.result)
  {
    var shot := Shot(b, target);
    Reply(shot.result, if shot.result == ShotSunk then SunkType(shot.board.ships, target) else SHIP_CARRIER)
  }

  /** The shooter's board after the results of `targets`, starting from a cleared board. */
  function Picture(fleet: seq<Ship>, targets: seq<Coord>): (b: BoardState)
    ensures FullGrid(b)
    decreases |targets|
  {
    if targets == [] then EmptyBoard()
    else
      var front, last := targets[..|targets| - 1], targets[|targets| - 1];
      var reply := ServerReply(Shots(View(fleet, {}), front), last);
      OnMyShot(Picture(fleet, front), last, reply.result, reply.typ)
  }

  /** The server's answer to a target after others have been answered. */
  function ResultOf(fleet: seq<Ship>, answered: seq<Coord>, target: Coord): ShotResult {
    ServerReply(Shots(View(fleet, {}), answered), target).result
  }

  ghost predicate Exact(fleet: seq<Ship>, targets: seq<Coord>) {
    Picture(fleet, targets) == Seen(fleet, Targets(targets))
  }

  // ---------------------------------------------------------------- what the server answers

  lemma {:induction false} SunkTypeKnown(ships: seq<Ship>, c: Coord)
    requires forall i :: 0 <= i < |ships| ==> KnownType(ships[i].typ)
    ensures KnownType(SunkType(ships, c))
  {
    if ships != [] {
      SunkTypeKnown(ships[..|ships| - 1], c);
    }
  }

  lemma {:induction false} SunkTypeIs(ships: seq<Ship>, c: Coord, i: nat)
    requires i < |ships| && Covers(ships[i], c) && ships[i].sunk && ships[i].hits >= ships[i].length
    requires forall k :: 0 <= k < |ships| && k != i ==> !Covers(ships[k], c)
    ensures SunkType(ships, c) == ships[i].typ
  {
    if i < |ships| - 1 {
      SunkTypeIs(ships[..|ships| - 1], c, i);
    }
  }

  /** With a SUNK answer the server names the type of the ship that the shot completed. */
  lemma {:induction false} ReplyNamesShip(fleet: seq<Ship>, shots: set<Coord>, target: Coord)
    requires Regular(fleet)
    ensures var reply := ServerReply(View(fleet, shots), target);
            && reply.result == Verdict(fleet, shots, target)
            && KnownType(reply.typ)
            && (reply.result == ShotSunk ==> reply.typ == fleet[Owner(fleet, target)].typ)
  {
    ShotView(fleet, shots, target);
    var after := View(fleet, With(shots, target));
    SunkTypeKnown(after.ships, target);
    if Verdict(fleet, shots, target) == ShotSunk {
      SunkOwnerNamed(fleet, shots + {target}, target);
    }
  }

  lemma {:induction false} SunkOwnerNamed(fleet: seq<Ship>, shots: set<Coord>, target: Coord)
    requires Regular(fleet) && Covered(fleet, target) && Down(fleet[Owner(fleet, target)], shots)
    ensures SunkType(ShipsAfter(fleet, shots), target) == fleet[Owner(fleet, target)].typ
  {
    var i := Owner(fleet, target);
    HitsReachLength(fleet[i], shots);
    forall k | 0 <= k < |fleet| && k != i ensures !Covers(fleet[k], target) {
      assert k < i || Apart(fleet[i], fleet[k]);
    }
    SunkTypeIs(ShipsAfter(fleet, shots), target, i);
  }

  lemma {:induction false} PictureStep(fleet: seq<Ship>, targets: seq<Coord>, target: Coord)
    requires Regular(fleet)
    ensures exists typ :: KnownType(typ) &&
              Answerable(target, Verdict(fleet, Targets(targets), target)) &&
              Picture(fleet, targets + [target])
              == OnMyShot(Picture(fleet, targets), target, Verdict(fleet, Targets(targets), target), typ)
  {
    ShotsFromStart(fleet, targets);
    ReplyNamesShip(fleet, Targets(targets), target);
    assert (targets + [target])[..|targets|] == targets;
    var reply := ServerReply(View(fleet, Targets(targets)), target);
    assert KnownType(reply.typ);
  }

  lemma {:induction false} PictureStart(fleet: seq<Ship>)
    ensures Exact(fleet, [])
  {
    assert EmptyBoard().grid == Seen(fleet, Targets([])).grid;
  }

  // ---------------------------------------------------------------- fleets without contact

  /** Refinement: on a fleet whose ships do not touch, after every run without a repeated target the
      shooter sees misses exactly at misses, sunk cells exactly on sunk ships and hits on the rest. */
  lemma {:induction false} PictureExact(fleet: seq<Ship>, targets: seq<Coord>)
    requires Regular(fleet) && Untouching(fleet) && NoRepeat(targets)
    ensures Exact(fleet, targets)
    decreases |targets|
  {
    PictureStart(fleet);
    if targets != [] {
      var front, last := targets[..|targets| - 1], targets[|targets| - 1];
      assert targets == front + [last];
      PictureExact(fleet, front);
      TargetsSnoc(front, last);
      PictureStep(fleet, front, last);
      var typ :| KnownType(typ) && Picture(fleet, targets)
                 == OnMyShot(Picture(fleet, front), last, Verdict(fleet, Targets(front), last), typ);
      if Verdict(fleet, Targets(front), last) == ShotSunk {
        UntouchingClear(fleet, Targets(front), last);
        SeenSunkStep(fleet, Targets(front), last, typ);
      } else {
        SeenPlainStep(fleet, Targets(front), last, typ);
      }
    }
  }

  /** On an exact picture the cells that the client lets the player select are those not shot yet. */
  lemma {:induction false} SelectableMeansNew(fleet: seq<Ship>, shots: set<Coord>, c: Coord)
    requires InGrid(c)
    ensures GetCell(Seen(fleet, shots), c) in {CellEmpty, CellShip} <==> c !in shots
  {
  }

  // ---------------------------------------------------------------- fleets with contact

  /** As long as no ship is down the picture is exact on every fleet. */
  lemma {:induction false} PictureExactBeforeSinking(fleet: seq<Ship>, targets: seq<Coord>)
    requires Regular(fleet) && NoRepeat(targets) && DownCount(fleet, Targets(targets)) == 0
    ensures Exact(fleet, targets)
    decreases |targets|
  {
    hide Picture, Seen, OnMyShot, View, Deployed, AllStraight, DownCount, FullGrid;
    PictureStart(fleet);
    if targets != [] {
      var front, last := targets[..|targets| - 1], targets[|targets| - 1];
      assert targets == front + [last];
      TargetsSnoc(front, last);
      VerdictCount(fleet, Targets(front), last);
      PictureExactBeforeSinking(fleet, front);
      PictureStep(fleet, front, last);
      var typ :| KnownType(typ) && Picture(fleet, targets)
                 == OnMyShot(Picture(fleet, front), last, Verdict(fleet, Targets(front), last), typ);
      SeenPlainStep(fleet, Targets(front), last, typ);
    }
  }

  /** A hit cell directly beside the finishing shot is always drawn as sunk. */
  lemma {:induction false} ContactIsSwallowed(b: BoardState, c: Coord, d: Coord, typ: int)
    requires FullGrid(b) && InGrid(c) && Adjacent(c, d) && HitAt(b, d)
    ensures ShowSunk(b, c, typ).grid[d] == CellSunk
  {
    var dir := if d.row < c.row then North else if d.row > c.row then South else if d.col < c.col then West else East;
    assert d == Step(c, dir, 1);
    HitRunIs(b, c, dir, 1, 1);
    StarIsSunk(b, c, d, typ);
  }

  /** The first `n` cells of a ship except `c`, in order. */
  function CellsExcept(s: Ship, c: Coord, n: nat): seq<Coord> {
    if n == 0 then []
    else CellsExcept(s, c, n - 1) + (if CellAt(s, n - 1) == c then [] else [CellAt(s, n - 1)])
  }

  lemma {:induction false} NoRepeatSnoc(targets: seq<Coord>, target: Coord)
    requires NoRepeat(targets) && target !in targets
    ensures NoRepeat(targets + [target])
  {
  }

  lemma {:induction false} CellsExceptIs(s: Ship, c: Coord, n: nat)
    requires Straight(s) && n <= s.length
    ensures forall x :: x in CellsExcept(s, c, n) <==> x != c && exists k :: 0 <= k < n && x == CellAt(s, k)
    ensures NoRepeat(CellsExcept(s, c, n))
  {
    if n > 0 {
      CellsExceptIs(s, c, n - 1);
      if CellAt(s, n - 1) != c {
        NoRepeatSnoc(CellsExcept(s, c, n - 1), CellAt(s, n - 1));
      }
    }
  }

  /** Shoot one cell of the neighbour, then the ship, leaving the contact cell for last. */
  function Trap(s: Ship, c: Coord, d: Coord): seq<Coord> {
    [d] + CellsExcept(s, c, s.length)
  }

  lemma {:induction false} TrapTargets(s: Ship, c: Coord, d: Coord)
    requires Straight(s) && Inside(s) && Covers(s, c) && !Covers(s, d) && InGrid(d)
    ensures NoRepeat(Trap(s, c, d) + [c])
    ensures Targets(Trap(s, c, d)) == {d} + Cells(s) - {c}
  {
    CellsExceptIs(s, c, s.length);
    forall x ensures x in CellsExcept(s, c, s.length) <==> x in Cells(s) && x != c {
      if Covers(s, x) {
        assert x == CellAt(s, IndexIn(s, x));
      }
    }
    assert d !in CellsExcept(s, c, s.length);
    assert NoRepeat(Trap(s, c, d));
    NoRepeatSnoc(Trap(s, c, d), c);
  }

  lemma {:induction false} NoneDown(fleet: seq<Ship>, shots: set<Coord>)
    requires forall k :: 0 <= k < |fleet| ==> !Down(fleet[k], shots)
    ensures DownCount(fleet, shots) == 0
  {
    if fleet != [] {
      NoneDown(fleet[1..], shots);
    }
  }

  /** A ship apart from `s` keeps an unshot cell when only `d` and cells of `s` are shot. */
  lemma {:induction false} NeighbourAfloat(s: Ship, t: Ship, d: Coord, shots: set<Coord>)
    requires Apart(s, t) && Inside(t) && t.length >= 2
    requires shots <= {d} + Cells(s)
    ensures !Down(t, shots)
  {
    if Down(t, shots) {
      CellsSize(t);
      assert Cells(t) <= {d};
      SubsetSize(Cells(t), {d});
    }
  }

  /** If two ships touch there is a run without repeated targets after which the picture is wrong. */
  lemma {:induction false} ContactFools(fleet: seq<Ship>) returns (targets: seq<Coord>)
    requires Regular(fleet) && !Untouching(fleet)
    ensures NoRepeat(targets) && !Exact(fleet, targets)
  {
    var i, j, c, d :| 0 <= i < |fleet| && 0 <= j < |fleet| && i != j &&
                      Covers(fleet[i], c) && Covers(fleet[j], d) && Adjacent(c, d);
    targets := Trap(fleet[i], c, d) + [c];
    ContactFoolsAt(fleet, i, j, c, d);
  }

  ghost predicate Contact(fleet: seq<Ship>, i: nat, j: nat, c: Coord, d: Coord) {
    && i < |fleet| && j < |fleet| && i != j
    && Covers(fleet[i], c) && Covers(fleet[j], d) && Adjacent(c, d)
  }

  lemma {:induction false} ContactApart(fleet: seq<Ship>, i: nat, k: nat)
    requires Deployed(fleet) && i < |fleet| && k < |fleet| && i != k
    ensures Apart(fleet[i], fleet[k])
  {
    if k < i {
      assert Apart(fleet[k], fleet[i]);
    }
  }

  lemma {:induction false} TrapPrefix(fleet: seq<Ship>, i: nat, j: nat, c: Coord, d: Coord)
    requires Regular(fleet) && Contact(fleet, i, j, c, d)
    ensures InGrid(c) && InGrid(d) && !Covers(fleet[i], d)
    ensures NoRepeat(Trap(fleet[i], c, d) + [c])
    ensures var shots := Targets(Trap(fleet[i], c, d));
            shots == {d} + Cells(fleet[i]) - {c} && DownCount(fleet, shots) == 0 && Exact(fleet, Trap(fleet[i], c, d))
  {
    ContactApart(fleet, i, j);
    TrapTargets(fleet[i], c, d);
    var trap := Trap(fleet[i], c, d);
    forall k | 0 <= k < |fleet| ensures !Down(fleet[k], Targets(trap)) {
      if k == i {
        assert c in Cells(fleet[i]);
      } else {
        ContactApart(fleet, i, k);
        NeighbourAfloat(fleet[i], fleet[k], d, Targets(trap));
      }
    }
    NoneDown(fleet, Targets(trap));
    assert trap == (trap + [c])[..|trap|];
    PictureExactBeforeSinking(fleet, trap);
  }

  lemma {:induction false} ContactFoolsAt(fleet: seq<Ship>, i: nat, j: nat, c: Coord, d: Coord)
    requires Regular(fleet) && Contact(fleet, i, j, c, d)
    ensures NoRepeat(Trap(fleet[i], c, d) + [c]) && !Exact(fleet, Trap(fleet[i], c, d) + [c])
  {
    hide Regular, View, Picture, Trap, Targets, NoRepeat, Verdict, ShowSunk, Seen;
    var trap := Trap(fleet[i], c, d);
    var shots := Targets(trap);
    TrapPrefix(fleet, i, j, c, d);
    TrapVerdicts(fleet, i, j, c, d, shots);
    TargetsSnoc(trap, c);
    PictureStep(fleet, trap, c);
    var typ :| KnownType(typ) && Picture(fleet, trap + [c]) == OnMyShot(Picture(fleet, trap), c, ShotSunk, typ);
    ContactIsSwallowed(Seen(fleet, shots), c, d, typ);
  }

  /** The last shot of the trap sinks its ship while the touched neighbour stays afloat. */
  lemma {:induction false} TrapVerdicts(fleet: seq<Ship>, i: nat, j: nat, c: Coord, d: Coord, shots: set<Coord>)
    requires Regular(fleet) && Contact(fleet, i, j, c, d) && InGrid(c) && InGrid(d)
    requires shots == {d} + Cells(fleet[i]) - {c}
    ensures Verdict(fleet, shots, c) == ShotSunk
    ensures HitAt(Seen(fleet, shots), d) && Seen(fleet, shots + {c}).grid[d] == CellHit
  {
    CoveredBy(fleet, i, c);
    CoveredBy(fleet, j, d);
    ContactApart(fleet, i, j);
    NeighbourAfloat(fleet[i], fleet[j], d, shots);
    NeighbourAfloat(fleet[i], fleet[j], d, shots + {c});
  }

  /** The picture is exact after every run without repeated targets if and only if no two ships of
      the fleet touch. */
  lemma {:induction false} PictureExactIffUntouching(fleet: seq<Ship>)
    requires Regular(fleet)
    ensures Untouching(fleet) <==> forall targets :: NoRepeat(targets) ==> Exact(fleet, targets)
  {
    if Untouching(fleet) {
      forall targets | NoRepeat(targets) ensures Exact(fleet, targets) {
        PictureExact(fleet, targets);
      }
    } else {
      var targets := ContactFools(fleet);
    }
  }

  // ---------------------------------------------------------------- one result, exactly

  /** A cell beside the target or just beyond an end lies where the ship ends in some direction. */
  lemma {:induction false} EndDirection(s: Ship, target: Coord, d: Coord) returns (dir: Direction)
    requires Straight(s) && Covers(s, target) && !Covers(s, d) && (Adjacent(target, d) || BeyondEnd(s, d))
    ensures Reach(s, target, dir) >= 0 && d == Step(target, dir, Reach(s, target, dir) + 1)
  {
    dir := if d.row < target.row then North else if d.row > target.row then South
           else if d.col < target.col then West else East;
  }

  /** A SUNK result to a new target keeps an exact picture exact if and only if no hit of another ship lies beside
      the target or just beyond an end of the ship. */
  lemma {:induction false} SunkStepExactIff(fleet: seq<Ship>, shots: set<Coord>, target: Coord, typ: int)
    requires Regular(fleet) && target !in shots && KnownType(typ) && Verdict(fleet, shots, target) == ShotSunk
    ensures OnMyShot(Seen(fleet, shots), target, ShotSunk, typ) == Seen(fleet, shots + {target}) <==>
            Clear(Seen(fleet, shots), fleet[Owner(fleet, target)], target)
  {
    var b, s := Seen(fleet, shots), fleet[Owner(fleet, target)];
    if Clear(b, s, target) {
      SeenSunkStep(fleet, shots, target, typ);
    } else {
      var d :| HitAt(b, d) && !Covers(s, d) && (Adjacent(target, d) || BeyondEnd(s, d));
      SeenReady(fleet, shots, target);
      ForeignIsSunk(b, s, target, d, typ);
      ForeignStaysHit(fleet, shots, target, d);
      hide ShowSunk, Seen, Regular;
    }
  }

  lemma {:induction false} ForeignIsSunk(b: BoardState, s: Ship, target: Coord, d: Coord, typ: int)
    requires ReadyToSink(b, s, target) && HitAt(b, d) && !Covers(s, d) && (Adjacent(target, d) || BeyondEnd(s, d))
    ensures InGrid(target) && InGrid(d) && ShowSunk(b, target, typ).grid[d] == CellSunk
  {
    var dir := EndDirection(s, target, d);
    RunIsReach(b, s, target, dir);
    assert Covers(s, target) && InGrid(target);
    hide HitRun, RunLength, ShowSunk;
    assert InRun(b, target, dir, d);
    StarIsSunk(b, target, d, typ);
  }

  /** A hit of another ship is still a hit after this ship has sunk. */
  lemma {:induction false} ForeignStaysHit(fleet: seq<Ship>, shots: set<Coord>, target: Coord, d: Coord)
    requires Regular(fleet) && Covered(fleet, target) && !Covers(fleet[Owner(fleet, target)], d)
    requires HitAt(Seen(fleet, shots), d)
    ensures InGrid(d) && Seen(fleet, shots + {target}).grid[d] == CellHit
  {
    var i, j := Owner(fleet, target), Owner(fleet, d);
    assert Covered(fleet, d) && i != j;
    ContactApart(fleet, i, j);
    SeenCellKept(fleet, shots, target, d);
  }

  /** From an exact picture, on every fleet, the next result keeps it exact if and only if the target is not a ship
      cell that was shot before, whose answer is MISS, and, when the answer is SUNK, the picture is clear around the
      ship. */
  lemma {:induction false} NextResultExactIff(fleet: seq<Ship>, targets: seq<Coord>, target: Coord)
    requires Regular(fleet) && Exact(fleet, targets)
    ensures var shots := Targets(targets);
            Exact(fleet, targets + [target]) <==>
            (!(target in shots && Covered(fleet, target)) &&
             (Verdict(fleet, shots, target) == ShotSunk ==>
                Clear(Seen(fleet, shots), fleet[Owner(fleet, target)], target)))
  {
    var shots := Targets(targets);
    TargetsSnoc(targets, target);
    PictureStep(fleet, targets, target);
    var typ :| KnownType(typ) && Answerable(target, Verdict(fleet, shots, target)) &&
               Picture(fleet, targets + [target])
               == OnMyShot(Picture(fleet, targets), target, Verdict(fleet, shots, target), typ);
    if target in shots {
      assert With(shots, target) == shots;
      RepeatedShot(fleet, shots, target);
    } else if Verdict(fleet, shots, target) == ShotSunk {
      SunkStepExactIff(fleet, shots, target, typ);
    } else {
      SeenPlainStep(fleet, shots, target, typ);
    }
    hide Picture, Seen, OnMyShot, Regular, Clear, Targets;
  }

  lemma {:induction false} RepeatedShot(fleet: seq<Ship>, shots: set<Coord>, target: Coord)
    requires InGrid(target) && target in shots
    ensures SetCell(Seen(fleet, shots), target, CellMiss) == Seen(fleet, shots) <==> !Covered(fleet, target)
  {
    var b := Seen(fleet, shots);
    if !Covered(fleet, target) {
      assert SetCell(b, target, CellMiss).grid == b.grid;
    } else {
      assert SetCell(b, target, CellMiss).grid[target] != b.grid[target];
    }
  }

  // ---------------------------------------------------------------- room for ship objects

  lemma {:induction false} ShootCellsKeepsLength(b: BoardState, s: Ship, n: nat)
    requires FullGrid(b)
    ensures |ShootCells(b, s, n).ships| == |b.ships|
  {
    if n > 0 {
      ShootCellsKeepsLength(b, s, n - 1);
    }
  }

  lemma {:induction false} ShowSunkAddsOne(b: BoardState, target: Coord, typ: int)
    requires FullGrid(b) && InGrid(target)
    ensures |ShowSunk(b, target, typ).ships| <= |b.ships| + 1
  {
    MarkOnlySinks(b, target);
    var guess := MarkSunk(b, target);
    PlaceFullGrid(guess.board, typ, guess.pos, guess.orientation);
    var placed := Place(guess.board, typ, guess.pos, guess.orientation);
    if placed.ok {
      ShootCellsKeepsLength(placed.board, NewShip(typ, guess.pos, guess.orientation), GetShipLength(typ));
    }
  }

  /** The shooter's board never holds more ship objects than ships have been sunk, so there is a free slot
      whenever a SUNK result arrives. */
  lemma {:induction false} SunkResultFits(fleet: seq<Ship>, targets: seq<Coord>, target: Coord)
    requires Regular(fleet)
    ensures |Picture(fleet, targets).ships| <= DownCount(fleet, Targets(targets))
    ensures Verdict(fleet, Targets(targets), target) == ShotSunk ==> |Picture(fleet, targets).ships| < NUM_SHIPS
    decreases |targets|
  {
    if targets != [] {
      var front, last := targets[..|targets| - 1], targets[|targets| - 1];
      assert targets == front + [last];
      SunkResultFits(fleet, front, last);
      PictureStep(fleet, front, last);
      TargetsSnoc(front, last);
      VerdictCount(fleet, Targets(front), last);
      var typ :| KnownType(typ) && Picture(fleet, targets)
                 == OnMyShot(Picture(fleet, front), last, Verdict(fleet, Targets(front), last), typ);
      if Verdict(fleet, Targets(front), last) == ShotSunk {
        ShowSunkAddsOne(Picture(fleet, front), last, typ);
      }
    }
    VerdictCount(fleet, Targets(targets), target);
  }
}
