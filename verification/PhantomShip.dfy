/** A fleet and a run without repeats after which the shooter sees hits on cells that were never shot. */
module PhantomShip {
  import opened Protocol
  import opened BoardSpec
  import opened BoardLaws
  import opened BoardRuns
  import opened ShooterSpec
  import opened ShooterLaws
  import opened ShooterObjects
  import opened ShooterRuns
  import opened TargetSpec

  /** A carrier with one cell unshot, and a destroyer that touches it. */
  function TouchingFleet(): seq<Ship> {
    [NewShip(SHIP_CARRIER, Coord(5, 0), HORIZONTAL), NewShip(SHIP_DESTROYER, Coord(4, 5), VERTICAL)]
  }

  function PhantomTargets(): seq<Coord> {
    [Coord(5, 1), Coord(5, 2), Coord(5, 3), Coord(5, 4), Coord(4, 5)]
  }

  predicate PhantomShot(c: Coord) {
    (c.row == 5 && 1 <= c.col <= 4) || c == Coord(4, 5)
  }

  lemma {:induction false} PhantomTargetsNew()
    ensures NoRepeat(PhantomTargets()) && NoRepeat(PhantomTargets() + [Coord(5, 5)])
    ensures forall c :: c in Targets(PhantomTargets()) <==> PhantomShot(c)
  {
    var targets := PhantomTargets();
    assert targets + [Coord(5, 5)] == [targets[0], targets[1], targets[2], targets[3], targets[4], Coord(5, 5)];
  }

  lemma {:induction false} PhantomRegular()
    ensures Regular(TouchingFleet())
  {
  }

  lemma {:induction false} PhantomOwners(c: Coord)
    ensures Covered(TouchingFleet(), c) <==>
              (c.row == 5 && 0 <= c.col <= 4) || (c.col == 5 && 4 <= c.row <= 5)
    ensures Covered(TouchingFleet(), c) ==> Owner(TouchingFleet(), c) == if c.col == 5 then 1 else 0
  {
    var fleet := TouchingFleet();
    if Covers(fleet[0], c) { CoveredBy(fleet, 0, c); }
    if Covers(fleet[1], c) { CoveredBy(fleet, 1, c); }
    assert |fleet| == 2;
  }

  lemma {:induction false} PhantomAfloat(shots: set<Coord>)
    requires shots == Targets(PhantomTargets())
    ensures !Down(TouchingFleet()[0], shots) && !Down(TouchingFleet()[1], shots)
    ensures Down(TouchingFleet()[1], shots + {Coord(5, 5)})
  {
    PhantomTargetsNew();
    hide Targets, PhantomTargets;
    var fleet := TouchingFleet();
    assert Coord(5, 0) in Cells(fleet[0]) && Coord(5, 0) !in shots;
    assert Coord(5, 5) in Cells(fleet[1]) && Coord(5, 5) !in shots;
    forall c | c in Cells(fleet[1]) ensures c in shots + {Coord(5, 5)} {
      assert c == Coord(4, 5) || c == Coord(5, 5);
    }
  }

  /** The picture before the destroyer sinks is exact. */
  lemma {:induction false} PhantomSetting()
    ensures Regular(TouchingFleet()) && Exact(TouchingFleet(), PhantomTargets())
    ensures Verdict(TouchingFleet(), Targets(PhantomTargets()), Coord(5, 5)) == ShotSunk
  {
    var fleet, targets, shots := TouchingFleet(), PhantomTargets(), Targets(PhantomTargets());
    hide Down, Regular, Exact, NoRepeat, Deployed;
    PhantomTargetsNew();
    PhantomRegular();
    PhantomAfloat(shots);
    PhantomOwners(Coord(5, 5));
    assert |fleet| == 2;
    hide Targets, PhantomTargets, TouchingFleet;
    forall k | 0 <= k < |fleet| ensures !Down(fleet[k], shots) {
      assert k == 0 || k == 1;
    }
    NoneDown(fleet, shots);
    PictureExactBeforeSinking(fleet, targets);
  }

  lemma {:induction false} PhantomHits(c: Coord)
    ensures HitAt(Seen(TouchingFleet(), Targets(PhantomTargets())), c) <==> PhantomShot(c)
  {
    var fleet, shots := TouchingFleet(), Targets(PhantomTargets());
    PhantomTargetsNew();
    PhantomAfloat(shots);
    PhantomOwners(c);
    assert |fleet| == 2;
    hide Targets, PhantomTargets, Down, Covered, Owner, TouchingFleet;
  }

  /** Hits lie beside the finishing shot on both axes, and the client takes the corner between the two runs of
      hits for the first cell of a horizontal ship. */
  lemma {:induction false} PhantomGuess(b: BoardState)
    requires FullGrid(b)
    requires forall c :: HitAt(b, c) <==> PhantomShot(c)
    ensures Guessed(b, Coord(5, 5), SHIP_DESTROYER) == NewShip(SHIP_DESTROYER, Coord(4, 1), HORIZONTAL)
  {
    HitRunIs(b, Coord(5, 5), West, 1, 4);
    HitRunIs(b, Coord(5, 5), East, 1, 0);
    HitRunIs(b, Coord(5, 5), North, 1, 1);
    hide HitRun;
  }

  /** The object is then accepted, and two cells that were never shot are drawn as hits. */
  lemma {:induction false} PhantomObject()
    ensures ObjectAccepted(Picture(TouchingFleet(), PhantomTargets()), Coord(5, 5), SHIP_DESTROYER)
    ensures var after := Picture(TouchingFleet(), PhantomTargets() + [Coord(5, 5)]);
            after.grid[Coord(4, 1)] == CellHit && after.grid[Coord(4, 2)] == CellHit
  {
    var fleet, targets, target := TouchingFleet(), PhantomTargets(), Coord(5, 5);
    var shots := Targets(targets);
    var b := Seen(fleet, shots);
    PhantomTargetsNew();
    PhantomSetting();
    PhantomOwners(target);
    assert fleet[1].typ == SHIP_DESTROYER;
    hide TouchingFleet, PhantomTargets, Targets, Seen, MarkSunk, Regular, Deployed, View, ShowSunk, PhantomShot,
      HitAt, Picture, ObjectAccepted;
    forall c ensures HitAt(b, c) <==> PhantomShot(c) {
      PhantomHits(c);
    }
    PhantomGuess(b);
    PhantomAccepted(fleet, shots, target, b);
    PhantomPicture(fleet, targets, target, SHIP_DESTROYER);
    ObjectShot(b, target, SHIP_DESTROYER);
  }

  /** The client then refuses to select a cell at which no shot was sent. */
  lemma {:induction false} PhantomUnselectable()
    ensures var sent := PhantomTargets() + [Coord(5, 5)];
            Coord(4, 1) !in sent && !Selectable(Picture(TouchingFleet(), sent), Coord(4, 1))
  {
    hide Picture, TouchingFleet, Seen, Exact, Regular, Verdict, ObjectAccepted;
    PhantomObject();
    PhantomNotSent();
    hide PhantomTargets;
  }

  lemma {:induction false} PhantomNotSent()
    ensures Coord(4, 1) !in PhantomTargets() + [Coord(5, 5)]
  {
  }

  lemma {:induction false} PhantomAccepted(fleet: seq<Ship>, shots: set<Coord>, target: Coord, b: BoardState)
    requires b == Seen(fleet, shots) && target == Coord(5, 5)
    requires forall c :: c in shots <==> PhantomShot(c)
    requires Guessed(b, target, SHIP_DESTROYER) == NewShip(SHIP_DESTROYER, Coord(4, 1), HORIZONTAL)
    ensures ObjectAccepted(b, target, SHIP_DESTROYER)
  {
    SeenObjectAcceptedIff(fleet, shots, target, SHIP_DESTROYER);
    hide Seen, ObjectAccepted, Guessed;
    forall c | c in Cells(NewShip(SHIP_DESTROYER, Coord(4, 1), HORIZONTAL)) ensures c !in shots && c != target {
      assert c.row == 4 && 1 <= c.col < 3;
    }
  }

  /** The picture after a shot whose answer is SUNK. */
  lemma {:induction false} PhantomPicture(fleet: seq<Ship>, targets: seq<Coord>, target: Coord, typ: int)
    requires Regular(fleet) && Verdict(fleet, Targets(targets), target) == ShotSunk
    requires typ == fleet[Owner(fleet, target)].typ && Covered(fleet, target)
    ensures InGrid(target) && Picture(fleet, targets + [target]) == ShowSunk(Picture(fleet, targets), target, typ)
  {
    ShotsFromStart(fleet, targets);
    ReplyNamesShip(fleet, Targets(targets), target);
    assert (targets + [target])[..|targets|] == targets;
    hide Regular, View, ShowSunk, Targets;
  }

  /** An accepted object of length two ends up as two hit cells. */
  lemma {:induction false} ObjectShot(b: BoardState, target: Coord, typ: int)
    requires FullGrid(b) && InGrid(target) && GetShipLength(typ) == 2 && ObjectAccepted(b, target, typ)
    requires InGrid(CellAt(Guessed(b, target, typ), 0)) && InGrid(CellAt(Guessed(b, target, typ), 1))
    requires CellAt(Guessed(b, target, typ), 0) != CellAt(Guessed(b, target, typ), 1)
    ensures var s, after := Guessed(b, target, typ), ShowSunk(b, target, typ);
            after.grid[CellAt(s, 0)] == CellHit && after.grid[CellAt(s, 1)] == CellHit
  {
    MarkSunkIs(b, target);
    hide MarkSunk, StarPainted, RunLength;
    var guess, s := MarkSunk(b, target), Guessed(b, target, typ);
    PlaceFullGrid(guess.board, typ, guess.pos, guess.orientation);
    CoversCellAt(s, 0);
    CoversCellAt(s, 1);
    TwoCellsShot(Place(guess.board, typ, guess.pos, guess.orientation).board, s);
  }

  lemma {:induction false} TwoCellsShot(b: BoardState, s: Ship)
    requires FullGrid(b) && InGrid(CellAt(s, 0)) && InGrid(CellAt(s, 1)) && CellAt(s, 0) != CellAt(s, 1)
    requires b.grid[CellAt(s, 0)] == CellShip && b.grid[CellAt(s, 1)] == CellShip
    ensures var after := ShootCells(b, s, 2);
            after.grid[CellAt(s, 0)] == CellHit && after.grid[CellAt(s, 1)] == CellHit
  {
    var one := ShotBoard(b, CellAt(s, 0));
    assert ShootCells(b, s, 0) == b && ShootCells(b, s, 1) == one;
    assert one.grid == b.grid[CellAt(s, 0) := CellHit];
  }
}
