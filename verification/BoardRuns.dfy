/** Laws over whole runs of board operations. */
module BoardRuns {
  import opened Protocol
  import opened BoardSpec
  import opened BoardLaws

  // ---------------------------------------------------------------- shots only

  function Targets(targets: seq<Coord>): set<Coord> {
    set c | c in targets && InGrid(c)
  }

  lemma {:induction false} TargetsSnoc(targets: seq<Coord>, target: Coord)
    ensures Targets(targets + [target]) == With(Targets(targets), target)
  {
  }

  /** After any list of shots, repeated and wild ones included, the board is a function of the
      fleet and of the set of cells hit by the list. */
  lemma {:induction false} ShotsView(fleet: seq<Ship>, shots: set<Coord>, targets: seq<Coord>)
    requires Deployed(fleet)
    ensures Shots(View(fleet, shots), targets) == View(fleet, shots + Targets(targets))
    decreases |targets|
  {
    if targets == [] {
      assert shots + Targets(targets) == shots;
    } else {
      var front, last := targets[..|targets| - 1], targets[|targets| - 1];
      ShotsView(fleet, shots, front);
      ShotView(fleet, shots + Targets(front), last);
      TargetsSnoc(front, last);
      assert targets == front + [last];
      assert With(shots + Targets(front), last) == shots + Targets(targets);
    }
  }

  /** Permuting, repeating or dropping duplicate shots leaves the same board. */
  lemma {:induction false} ShotsOrderIndependent(fleet: seq<Ship>, shots: set<Coord>, first: seq<Coord>,
                                                 second: seq<Coord>)
    requires Deployed(fleet)
    requires forall c :: InGrid(c) ==> (c in first <==> c in second)
    ensures Shots(View(fleet, shots), first) == Shots(View(fleet, shots), second)
  {
    ShotsView(fleet, shots, first);
    ShotsView(fleet, shots, second);
    assert Targets(first) == Targets(second);
  }

  predicate NoRepeat(targets: seq<Coord>) {
    forall i, j :: 0 <= i < j < |targets| ==> targets[i] != targets[j]
  }

  /** The answers `processShot` gives along a list of shots. */
  function Answers(b: BoardState, targets: seq<Coord>): (answers: seq<ShotResult>)
    requires FullGrid(b)
    ensures |answers| == |targets|
    decreases |targets|
  {
    if targets == [] then []
    else
      var front := targets[..|targets| - 1];
      Answers(b, front) + [Shot(Shots(b, front), targets[|targets| - 1]).result]
  }

  function Count(answers: seq<ShotResult>, r: ShotResult): (n: nat)
    ensures n <= |answers|
  {
    if answers == [] then 0
    else Count(answers[..|answers| - 1], r) + (if answers[|answers| - 1] == r then 1 else 0)
  }

  function FleetCells(fleet: seq<Ship>): (cells: set<Coord>)
    ensures forall c :: c in cells <==> InGrid(c) && Covered(fleet, c)
  {
    set c | c in AllCells() && Covered(fleet, c)
  }

  lemma {:induction false} ShotsFromStart(fleet: seq<Ship>, targets: seq<Coord>)
    requires Deployed(fleet)
    ensures Shots(View(fleet, {}), targets) == View(fleet, Targets(targets))
  {
    ShotsView(fleet, {}, targets);
    assert {} + Targets(targets) == Targets(targets);
  }

  lemma {:induction false} AnswersSnoc(b: BoardState, targets: seq<Coord>, target: Coord)
    requires FullGrid(b)
    ensures Shots(b, targets + [target]) == ShotBoard(Shots(b, targets), target)
    ensures Answers(b, targets + [target]) == Answers(b, targets) + [Shot(Shots(b, targets), target).result]
  {
    assert (targets + [target])[..|targets|] == targets;
  }

  lemma {:induction false} AnswersAreVerdicts(fleet: seq<Ship>, targets: seq<Coord>, target: Coord)
    requires Deployed(fleet)
    ensures Answers(View(fleet, {}), targets + [target])
         == Answers(View(fleet, {}), targets) + [Verdict(fleet, Targets(targets), target)]
  {
    AnswersSnoc(View(fleet, {}), targets, target);
    ShotsFromStart(fleet, targets);
    ShotView(fleet, Targets(targets), target);
  }

  lemma {:induction false} CountSnoc(answers: seq<ShotResult>, answer: ShotResult, r: ShotResult)
    ensures Count(answers + [answer], r) == Count(answers, r) + (if answer == r then 1 else 0)
  {
    assert (answers + [answer])[..|answers|] == answers;
  }

  /** SUNK is answered once per fully covered ship, and HIT or SUNK once per covered cell that
      was shot; every other answer is MISS. */
  lemma {:induction false} AnswersCount(fleet: seq<Ship>, targets: seq<Coord>)
    requires Deployed(fleet)
    ensures var answers := Answers(View(fleet, {}), targets);
            && Count(answers, ShotSunk) == DownCount(fleet, Targets(targets))
            && Count(answers, ShotHit) + Count(answers, ShotSunk) == |FleetCells(fleet) * Targets(targets)|
    decreases |targets|
  {
    hide Deployed, View, Answers, Count, DownCount, FleetCells, Targets;
    if targets == [] {
      AnswersCountNone(fleet);
    } else {
      var front, last := targets[..|targets| - 1], targets[|targets| - 1];
      AnswersCount(fleet, front);
      AnswersCountStep(fleet, front, last);
      assert targets == front + [last];
    }
  }

  lemma {:induction false} AnswersCountNone(fleet: seq<Ship>)
    requires Deployed(fleet)
    ensures Answers(View(fleet, {}), []) == [] && Count([], ShotSunk) == 0 && Count([], ShotHit) == 0
    ensures DownCount(fleet, Targets([])) == 0 && FleetCells(fleet) * Targets([]) == {}
  {
    NothingDown(fleet);
    assert Targets([]) == {};
  }

  lemma {:induction false} AnswersCountStep(fleet: seq<Ship>, targets: seq<Coord>, target: Coord)
    requires Deployed(fleet)
    ensures var before, after := Answers(View(fleet, {}), targets), Answers(View(fleet, {}), targets + [target]);
            var shots := Targets(targets + [target]);
            && Count(after, ShotSunk) - Count(before, ShotSunk)
               == DownCount(fleet, shots) - DownCount(fleet, Targets(targets))
            && Count(after, ShotHit) + Count(after, ShotSunk) - Count(before, ShotHit) - Count(before, ShotSunk)
               == |FleetCells(fleet) * shots| - |FleetCells(fleet) * Targets(targets)|
  {
    var before, v := Answers(View(fleet, {}), targets), Verdict(fleet, Targets(targets), target);
    AnswersAreVerdicts(fleet, targets, target);
    CountSnoc(before, v, ShotHit);
    CountSnoc(before, v, ShotSunk);
    TargetsSnoc(targets, target);
    VerdictCount(fleet, Targets(targets), target);
  }

  lemma {:induction false} NothingDown(fleet: seq<Ship>)
    requires forall i :: 0 <= i < |fleet| ==> Unhurt(fleet[i]) && Inside(fleet[i])
    ensures DownCount(fleet, {}) == 0
  {
    if fleet != [] {
      NothingDown(fleet[1..]);
      if fleet[0].length > 0 {
        CellsSize(fleet[0]);
      }
    }
  }

  lemma {:induction false} VerdictCount(fleet: seq<Ship>, shots: set<Coord>, target: Coord)
    requires Deployed(fleet)
    ensures var v := Verdict(fleet, shots, target);
            && DownCount(fleet, With(shots, target)) == DownCount(fleet, shots) + (if v == ShotSunk then 1 else 0)
            && |FleetCells(fleet) * With(shots, target)|
               == |FleetCells(fleet) * shots| + (if v == ShotMiss then 0 else 1)
  {
    var hit := FleetCells(fleet);
    if !InGrid(target) || target in shots {
      assert With(shots, target) == shots;
    } else if !Covered(fleet, target) {
      DownCountMiss(fleet, shots, target);
      assert hit * (shots + {target}) == hit * shots;
    } else {
      var i := Owner(fleet, target);
      forall k | 0 <= k < |fleet| && k != i
        ensures !Covers(fleet[k], target)
      {
        assert k < i || Apart(fleet[i], fleet[k]);
      }
      DownCountStep(fleet, shots, target, i);
      assert hit * (shots + {target}) == hit * shots + {target};
    }
  }

  // ---------------------------------------------------------------- the end of a fleet

  lemma {:induction false} DownCountFull(fleet: seq<Ship>, shots: set<Coord>)
    ensures DownCount(fleet, shots) == |fleet| <==> forall i :: 0 <= i < |fleet| ==> Down(fleet[i], shots)
  {
    if fleet != [] {
      DownCountFull(fleet[1..], shots);
      assert (forall i :: 0 <= i < |fleet| ==> Down(fleet[i], shots)) <==>
             Down(fleet[0], shots) && forall i :: 0 <= i < |fleet[1..]| ==> Down(fleet[1..][i], shots) by {
        assert forall i :: 0 <= i < |fleet[1..]| ==> fleet[1..][i] == fleet[i + 1];
        assert forall i :: 1 <= i < |fleet| ==> fleet[i] == fleet[1..][i - 1];
      }
    }
  }

  /** `allShipsSunk` is true exactly when five straight ships are deployed and every cell they
      occupy has been shot: a fleet of fewer ships can never be reported as sunk. */
  lemma {:induction false} AllShipsSunkIff(fleet: seq<Ship>, shots: set<Coord>)
    requires Deployed(fleet)
    ensures AllShipsSunk(View(fleet, shots)) <==>
            && |fleet| == NUM_SHIPS
            && (forall i :: 0 <= i < |fleet| ==> fleet[i].length > 0 && Straight(fleet[i]))
            && FleetCells(fleet) <= shots
  {
    DownCountFull(fleet, shots);
    if FleetCells(fleet) <= shots {
      forall i | 0 <= i < |fleet|
        ensures Cells(fleet[i]) <= shots
      {
        forall c | c in Cells(fleet[i]) ensures c in shots { CoveredBy(fleet, i, c); }
      }
    }
    if forall i :: 0 <= i < |fleet| ==> Down(fleet[i], shots) {
      forall c | c in FleetCells(fleet) ensures c in shots {
        assert c in Cells(fleet[Owner(fleet, c)]);
      }
    }
  }

  /** Writing a cell and reading it back; outside the grid nothing is written and EMPTY is read. */
  lemma {:induction false} ReadBack(b: BoardState, c: Coord, d: Coord, state: CellState)
    requires FullGrid(b)
    ensures GetCell(SetCell(b, c, state), d)
         == if !InGrid(d) then CellEmpty else if c == d then state else b.grid[d]
    ensures SetCell(b, c, state).ships == b.ships && SetCell(b, c, state).remaining == b.remaining
  {
  }

  // ---------------------------------------------------------------- any mix of place, remove, clear and shoot

  datatype Op =
    | PlaceOp(typ: int, pos: Coord, orientation: int)
    | RemoveOp(typ: int)
    | ClearOp
    | ShotOp(target: Coord)

  datatype Story = Story(fleet: seq<Ship>, shots: set<Coord>)

  /** What callers must respect: a start cell below the upper bounds and a free slot for a valid ship; a ship that was
      hit is not removed. */
  predicate Callable(b: BoardState, op: Op)
    requires FullGrid(b)
  {
    match op
    case PlaceOp(typ, pos, orientation) =>
      var s := NewShip(typ, pos, orientation);
      Startable(s) && (IsValidPlacement(b, s) ==> |b.ships| < NUM_SHIPS)
    case RemoveOp(typ) =>
      var i := FirstOfType(b.ships, typ);
      i < |b.ships| ==> b.ships[i].hits == 0
    case _ => true
  }

  function Apply(b: BoardState, op: Op): (r: BoardState)
    requires FullGrid(b) && Callable(b, op)
    ensures FullGrid(r)
  {
    match op
    case PlaceOp(typ, pos, orientation) => Place(b, typ, pos, orientation).board
    case RemoveOp(typ) => Remove(b, typ).board
    case ClearOp => EmptyBoard()
    case ShotOp(target) => ShotBoard(b, target)
  }

  predicate Free(story: Story, s: Ship) {
    FitsAxis(s) && Cells(s) !! FleetCells(story.fleet) && Cells(s) !! story.shots
  }

  /** The fleet without its first ship of a type. */
  function Without(fleet: seq<Ship>, typ: int): seq<Ship> {
    var i := FirstOfType(fleet, typ);
    if i == |fleet| then fleet else fleet[..i] + fleet[i + 1..]
  }

  function Continue(story: Story, op: Op): Story {
    match op
    case PlaceOp(typ, pos, orientation) =>
      var s := NewShip(typ, pos, orientation);
      if Free(story, s) then Story(story.fleet + [s], story.shots) else story
    case RemoveOp(typ) => Story(Without(story.fleet, typ), story.shots)
    case ClearOp => Story([], {})
    case ShotOp(target) => Story(story.fleet, With(story.shots, target))
  }

  ghost predicate Told(b: BoardState, story: Story) {
    Deployed(story.fleet) && story.shots <= AllCells() && b == View(story.fleet, story.shots)
  }

  lemma {:induction false} OwnerSnoc(fleet: seq<Ship>, s: Ship, c: Coord)
    ensures Covered(fleet + [s], c) <==> Covered(fleet, c) || Covers(s, c)
  {
    var i := Owner(fleet + [s], c);
    if Covered(fleet, c) {
      CoveredBy(fleet + [s], Owner(fleet, c), c);
    } else if Covers(s, c) {
      CoveredBy(fleet + [s], |fleet|, c);
    }
    if i < |fleet| {
      CoveredBy(fleet, i, c);
    }
  }

  lemma {:induction false} DownCountSnoc(fleet: seq<Ship>, s: Ship, shots: set<Coord>)
    ensures DownCount(fleet + [s], shots) == DownCount(fleet, shots) + DownCount([s], shots)
  {
    if fleet == [] {
      assert fleet + [s] == [s];
    } else {
      DownCountSnoc(fleet[1..], s, shots);
      assert (fleet + [s])[1..] == fleet[1..] + [s];
    }
  }

  /** A placement succeeds exactly on cells that no ship occupies and no shot has marked, and
      then extends the fleet by the new ship. */
  lemma {:induction false} PlaceView(story: Story, typ: int, pos: Coord, orientation: int)
    requires Deployed(story.fleet) && Startable(NewShip(typ, pos, orientation))
    requires Free(story, NewShip(typ, pos, orientation)) ==> |story.fleet| < NUM_SHIPS
    ensures var s := NewShip(typ, pos, orientation);
            && Place(View(story.fleet, story.shots), typ, pos, orientation)
               == (if Free(story, s) then PlaceOutcome(View(story.fleet + [s], story.shots), true)
                   else PlaceOutcome(View(story.fleet, story.shots), false))
            && (Free(story, s) ==> Deployed(story.fleet + [s]))
  {
    var s := NewShip(typ, pos, orientation);
    FreeCells(story, s);
    if Free(story, s) {
      DeployedSnoc(story.fleet, s);
      ViewSnoc(story.fleet, s, story.shots);
    }
  }

  lemma {:induction false} ViewSnoc(fleet: seq<Ship>, s: Ship, shots: set<Coord>)
    requires Unhurt(s) && Inside(s) && Cells(s) !! FleetCells(fleet) && Cells(s) !! shots
    ensures View(fleet + [s], shots)
         == BoardState(Paint(View(fleet, shots).grid, s), View(fleet, shots).ships + [s], View(fleet, shots).remaining)
  {
    GridSnoc(fleet, s, shots);
    DownCountSnoc(fleet, s, shots);
    NewShipAfter(s, shots);
  }

  lemma {:induction false} GridSnoc(fleet: seq<Ship>, s: Ship, shots: set<Coord>)
    requires Cells(s) !! FleetCells(fleet) && Cells(s) !! shots
    ensures View(fleet + [s], shots).grid == Paint(View(fleet, shots).grid, s)
  {
    forall c | c in AllCells() ensures CellAfter(fleet + [s], shots, c) == Paint(View(fleet, shots).grid, s)[c] {
      OwnerSnoc(fleet, s, c);
      assert Covers(s, c) ==> c in Cells(s);
    }
  }

  lemma {:induction false} FreeCells(story: Story, s: Ship)
    requires Startable(s)
    ensures IsValidPlacement(View(story.fleet, story.shots), s) <==> Free(story, s)
  {
    var b := View(story.fleet, story.shots);
    if IsValidPlacement(b, s) {
      forall c | c in Cells(s) ensures c !in FleetCells(story.fleet) && c !in story.shots {
        assert b.grid[c] == CellEmpty;
      }
    }
  }

  lemma {:induction false} DeployedSnoc(fleet: seq<Ship>, s: Ship)
    requires Deployed(fleet) && |fleet| < NUM_SHIPS && Unhurt(s) && Inside(s)
    requires Cells(s) !! FleetCells(fleet)
    ensures Deployed(fleet + [s])
  {
    forall i | 0 <= i < |fleet| ensures Apart(fleet[i], s) {
      forall c | Covers(fleet[i], c) ensures !Covers(s, c) {
        CoveredBy(fleet, i, c);
        assert c in FleetCells(fleet);
      }
    }
  }

  lemma {:induction false} NewShipAfter(s: Ship, shots: set<Coord>)
    requires Unhurt(s) && Inside(s) && Cells(s) !! shots
    ensures ShipAfter(s, shots) == s && DownCount([s], shots) == 0
  {
    assert Cells(s) * shots == {};
    if s.length > 0 {
      HitsReachLength(s, shots);
    }
  }

  lemma {:induction false} EmptyView()
    ensures EmptyBoard() == View([], {})
  {
  }

  lemma {:induction false} RemoveTold(story: Story, typ: int)
    requires Told(View(story.fleet, story.shots), story) && Callable(View(story.fleet, story.shots), RemoveOp(typ))
    ensures Told(Remove(View(story.fleet, story.shots), typ).board, Story(Without(story.fleet, typ), story.shots))
  {
    var fleet, shots := story.fleet, story.shots;
    var i := FirstOfType(fleet, typ);
    hide View, Remove, Deployed, ShipsAfter, Cells;
    SameTypes(fleet, shots, typ);
    ViewParts(fleet, shots);
    if i == |fleet| {
      RemoveNone(View(fleet, shots), typ);
    } else {
      HitsShown(fleet, shots, i);
      assert fleet == fleet[..i] + [fleet[i]] + fleet[i + 1..];
      RemoveView(fleet[..i], fleet[i], fleet[i + 1..], shots);
    }
  }

  lemma {:induction false} RemoveNone(b: BoardState, typ: int)
    requires FullGrid(b) && FirstOfType(b.ships, typ) == |b.ships|
    ensures Remove(b, typ) == PlaceOutcome(b, false)
  {
  }

  lemma {:induction false} HitsShown(fleet: seq<Ship>, shots: set<Coord>, i: nat)
    requires i < |fleet|
    ensures |ShipsAfter(fleet, shots)| == |fleet| && ShipsAfter(fleet, shots)[i].hits == |Cells(fleet[i]) * shots|
    ensures ShipsAfter(fleet, shots)[i].hits == 0 ==> Cells(fleet[i]) !! shots
  {
    if c :| c in Cells(fleet[i]) && c in shots {
      SubsetSize({c}, Cells(fleet[i]) * shots);
    }
  }

  lemma {:induction false} SameTypes(fleet: seq<Ship>, shots: set<Coord>, typ: int)
    ensures |ShipsAfter(fleet, shots)| == |fleet|
    ensures FirstOfType(ShipsAfter(fleet, shots), typ) == FirstOfType(fleet, typ)
  {
    var i, k := FirstOfType(fleet, typ), FirstOfType(ShipsAfter(fleet, shots), typ);
    assert forall j :: 0 <= j < |fleet| ==> ShipsAfter(fleet, shots)[j].typ == fleet[j].typ;
  }

  lemma {:induction false} ApplyTold(b: BoardState, story: Story, op: Op)
    requires FullGrid(b) && Told(b, story) && Callable(b, op)
    ensures Told(Apply(b, op), Continue(story, op))
  {
    match op
    case PlaceOp(typ, pos, orientation) => PlaceView(story, typ, pos, orientation);
    case RemoveOp(typ) => RemoveTold(story, typ);
    case ClearOp => EmptyView();
    case ShotOp(target) => ShotView(story.fleet, story.shots, target);
  }

  /** A legal run of operations and the board it ends on. */
  ghost predicate Reaches(ops: seq<Op>, b: BoardState)
    decreases |ops|
  {
    if ops == [] then b == EmptyBoard()
    else exists before ::
      && FullGrid(before)
      && Reaches(ops[..|ops| - 1], before)
      && Callable(before, ops[|ops| - 1])
      && b == Apply(before, ops[|ops| - 1])
  }

  function StoryOf(ops: seq<Op>): Story
    decreases |ops|
  {
    if ops == [] then Story([], {}) else Continue(StoryOf(ops[..|ops| - 1]), ops[|ops| - 1])
  }

  /** Board invariant over every run of place, remove, clear and shoot: the board always shows a fleet
      of in-range, pairwise disjoint ships and the shots since the last clear. */
  lemma {:induction false} RunTold(ops: seq<Op>, b: BoardState)
    requires Reaches(ops, b)
    ensures Told(b, StoryOf(ops))
    decreases |ops|
  {
    if ops == [] {
      EmptyView();
    } else {
      var before :| FullGrid(before) && Reaches(ops[..|ops| - 1], before) &&
                    Callable(before, ops[|ops| - 1]) && b == Apply(before, ops[|ops| - 1]);
      RunTold(ops[..|ops| - 1], before);
      ApplyTold(before, StoryOf(ops[..|ops| - 1]), ops[|ops| - 1]);
    }
  }

  // ---------------------------------------------------------------- the invariant, read off the board alone

  function SunkCount(ships: seq<Ship>): (n: nat)
    ensures n <= |ships|
  {
    if ships == [] then 0 else SunkCount(ships[1..]) + (if ships[0].sunk then 1 else 0)
  }

  /** The cells of a ship that the grid shows as hit. */
  function HitCells(b: BoardState, s: Ship): set<Coord> {
    set c | c in Cells(s) && c in b.grid && b.grid[c] == CellHit
  }

  /** Grid, ship table, hit counters, sunk flags and the counter of remaining ships all agree. */
  ghost predicate Agrees(b: BoardState) {
    && FullGrid(b) && |b.ships| <= NUM_SHIPS && PairwiseApart(b.ships)
    && (forall i :: 0 <= i < |b.ships| ==> Inside(b.ships[i]) && HitsAgree(b, b.ships[i]))
    && (forall c :: c in b.grid ==> (b.grid[c] in {CellShip, CellHit} <==> Covered(b.ships, c)))
    && b.remaining == NUM_SHIPS - SunkCount(b.ships)
  }

  ghost predicate HitsAgree(b: BoardState, s: Ship) {
    && s.hits == |HitCells(b, s)| <= s.length
    && (s.sunk <==> s.hits == s.length > 0)
  }

  lemma {:induction false} SunkCountIs(fleet: seq<Ship>, shots: set<Coord>)
    ensures SunkCount(ShipsAfter(fleet, shots)) == DownCount(fleet, shots)
  {
    if fleet != [] {
      SunkCountIs(fleet[1..], shots);
      assert ShipsAfter(fleet, shots)[1..] == ShipsAfter(fleet[1..], shots);
    }
  }

  lemma {:induction false} HitsAgreeAfter(fleet: seq<Ship>, shots: set<Coord>, i: nat)
    requires Deployed(fleet) && i < |fleet|
    ensures HitsAgree(View(fleet, shots), ShipAfter(fleet[i], shots))
  {
    var s, b := fleet[i], View(fleet, shots);
    forall c ensures c in HitCells(b, ShipAfter(s, shots)) <==> c in Cells(s) * shots {
      if c in Cells(s) { CoveredBy(fleet, i, c); }
    }
    assert HitCells(b, ShipAfter(s, shots)) == Cells(s) * shots;
    if s.length == 0 {
      assert Cells(s) == {};
    } else {
      CellsSize(s);
      SubsetSize(Cells(s) * shots, Cells(s));
      HitsReachLength(s, shots);
    }
  }

  /** Over every run of place, remove, clear and shoot all parts of the board agree with each other. */
  lemma {:induction false} RunAgrees(ops: seq<Op>, b: BoardState)
    requires Reaches(ops, b)
    ensures Agrees(b)
  {
    hide Reaches, StoryOf, Agrees, View, Deployed;
    RunTold(ops, b);
    ViewAgrees(StoryOf(ops).fleet, StoryOf(ops).shots);
  }

  lemma {:induction false} ViewAgrees(fleet: seq<Ship>, shots: set<Coord>)
    requires Deployed(fleet)
    ensures Agrees(View(fleet, shots))
  {
    hide PairwiseApart, HitsAgree, Inside, View, Covered;
    GridAgrees(fleet, shots);
    TableAgrees(fleet, shots);
  }

  lemma {:induction false} TableAgrees(fleet: seq<Ship>, shots: set<Coord>)
    requires Deployed(fleet)
    ensures var b := View(fleet, shots);
            && PairwiseApart(b.ships) && b.remaining == NUM_SHIPS - SunkCount(b.ships)
            && forall i :: 0 <= i < |b.ships| ==> Inside(b.ships[i]) && HitsAgree(b, b.ships[i])
  {
    ApartAfter(fleet, shots);
    SunkCountIs(fleet, shots);
    hide HitsAgree, Apart;
    forall i | 0 <= i < |fleet|
      ensures Inside(ShipAfter(fleet[i], shots)) && HitsAgree(View(fleet, shots), ShipAfter(fleet[i], shots))
    {
      HitsAgreeAfter(fleet, shots, i);
    }
  }

  lemma {:induction false} GridAgrees(fleet: seq<Ship>, shots: set<Coord>)
    ensures var b := View(fleet, shots);
            && |b.ships| == |fleet|
            && forall c :: c in b.grid ==> (b.grid[c] in {CellShip, CellHit} <==> Covered(b.ships, c))
  {
    forall c ensures Covered(ShipsAfter(fleet, shots), c) <==> Covered(fleet, c) {
      OwnerAfter(fleet, shots, c);
    }
  }

  lemma {:induction false} ApartAfter(fleet: seq<Ship>, shots: set<Coord>)
    requires PairwiseApart(fleet)
    ensures PairwiseApart(ShipsAfter(fleet, shots))
  {
    forall i, j | 0 <= i < j < |fleet| ensures Apart(ShipAfter(fleet[i], shots), ShipAfter(fleet[j], shots)) {
      assert Apart(fleet[i], fleet[j]);
      forall c | Covers(ShipAfter(fleet[i], shots), c) ensures !Covers(ShipAfter(fleet[j], shots), c) {
        assert Covers(fleet[i], c);
      }
    }
  }

  // ---------------------------------------------------------------- removing a ship

  /** Removing the first ship of a type that was not hit gives the board that never had it. */
  lemma {:induction false} RemoveView(before: seq<Ship>, s: Ship, after: seq<Ship>, shots: set<Coord>)
    requires Deployed(before + [s] + after) && Cells(s) !! shots
    requires forall i :: 0 <= i < |before| ==> before[i].typ != s.typ
    ensures Remove(View(before + [s] + after, shots), s.typ) == PlaceOutcome(View(before + after, shots), true)
    ensures Deployed(before + after)
  {
    hide View, Remove, Deployed, PairwiseApart, Erase;
    DeployedWithout(before, s, after);
    RemoveExact(before, s, after, shots);
    InsideOne(before, s, after);
    DownWithout(before, s, after, shots);
    GridWithout(before, s, after, shots);
    ViewParts(before + after, shots);
  }

  lemma {:induction false} InsideOne(before: seq<Ship>, s: Ship, after: seq<Ship>)
    requires Deployed(before + [s] + after)
    ensures Inside(s)
  {
    assert (before + [s] + after)[|before|] == s;
  }

  lemma {:induction false} ViewParts(fleet: seq<Ship>, shots: set<Coord>)
    ensures View(fleet, shots)
         == BoardState(View(fleet, shots).grid, ShipsAfter(fleet, shots), NUM_SHIPS - DownCount(fleet, shots))
  {
  }

  /** Removing the first ship of a type takes it off the table and off the cells that show it unhit; hits stay drawn,
      and the counter of remaining ships stays as it was. */
  lemma {:induction false} RemoveExact(before: seq<Ship>, s: Ship, after: seq<Ship>, shots: set<Coord>)
    requires forall i :: 0 <= i < |before| ==> before[i].typ != s.typ
    ensures var fleet := before + [s] + after;
            && Remove(View(fleet, shots), s.typ)
               == PlaceOutcome(BoardState(Erase(View(fleet, shots).grid, s), ShipsAfter(before + after, shots),
                                          NUM_SHIPS - DownCount(fleet, shots)), true)
            && forall c :: c in AllCells() && Covers(s, c) ==>
                 Erase(View(fleet, shots).grid, s)[c] == if c in shots then CellHit else CellEmpty
  {
    var fleet := before + [s] + after;
    FirstOfTypeAt(before, s, after);
    SameTypes(fleet, shots, s.typ);
    ShipsWithout(before, s, after, shots);
    forall c | c in AllCells() && Covers(s, c) ensures Covered(fleet, c) {
      CoveredBy(fleet, |before|, c);
    }
    SameErase(View(fleet, shots).grid, s, shots);
  }

  lemma {:induction false} SameErase(grid: map<Coord, CellState>, s: Ship, shots: set<Coord>)
    ensures Erase(grid, ShipAfter(s, shots)) == Erase(grid, s)
  {
    assert forall c :: Covers(ShipAfter(s, shots), c) <==> Covers(s, c);
  }

  lemma {:induction false} ShipsWithout(before: seq<Ship>, s: Ship, after: seq<Ship>, shots: set<Coord>)
    ensures var ships := ShipsAfter(before + [s] + after, shots);
            && |ships| == |before| + 1 + |after| && ships[|before|] == ShipAfter(s, shots)
            && ships[..|before|] + ships[|before| + 1..] == ShipsAfter(before + after, shots)
  {
    var ships := ShipsAfter(before + [s] + after, shots);
    assert (before + [s] + after)[|before|] == s;
    assert ships[..|before|] + ships[|before| + 1..] == ShipsAfter(before + after, shots);
  }

  lemma {:induction false} DownCountAppend(front: seq<Ship>, rest: seq<Ship>, shots: set<Coord>)
    ensures DownCount(front + rest, shots) == DownCount(front, shots) + DownCount(rest, shots)
  {
    if front == [] {
      assert front + rest == rest;
    } else {
      assert (front + rest)[1..] == front[1..] + rest;
      DownCountAppend(front[1..], rest, shots);
    }
  }

  lemma {:induction false} DownWithout(before: seq<Ship>, s: Ship, after: seq<Ship>, shots: set<Coord>)
    requires Inside(s) && Cells(s) !! shots
    ensures DownCount(before + [s] + after, shots) == DownCount(before + after, shots)
  {
    DownCountAppend(before, after, shots);
    DownCountAppend(before + [s], after, shots);
    DownCountAppend(before, [s], shots);
    if s.length > 0 {
      CellsSize(s);
    }
    assert Cells(s) * shots == {};
  }

  /** The board after the removal is the one that never had the ship if and only if the ship was not hit. */
  lemma {:induction false} RemoveViewIff(before: seq<Ship>, s: Ship, after: seq<Ship>, shots: set<Coord>)
    requires Deployed(before + [s] + after)
    requires forall i :: 0 <= i < |before| ==> before[i].typ != s.typ
    ensures Remove(View(before + [s] + after, shots), s.typ).board == View(before + after, shots) <==>
            Cells(s) !! shots
  {
    if Cells(s) !! shots {
      RemoveView(before, s, after, shots);
    } else {
      var c :| c in Cells(s) && c in shots;
      RemoveExact(before, s, after, shots);
      ApartFromRest(before, s, after, c);
      assert View(before + after, shots).grid[c] == CellMiss;
    }
  }

  lemma {:induction false} DeployedWithout(before: seq<Ship>, s: Ship, after: seq<Ship>)
    requires Deployed(before + [s] + after)
    ensures Deployed(before + after)
  {
    var fleet, rest := before + [s] + after, before + after;
    forall i | 0 <= i < |rest| ensures rest[i] == fleet[if i < |before| then i else i + 1] {
    }
    forall i, j | 0 <= i < j < |rest| ensures Apart(rest[i], rest[j]) {
      assert Apart(fleet[if i < |before| then i else i + 1], fleet[if j < |before| then j else j + 1]);
    }
  }

  lemma {:induction false} FirstOfTypeAt(before: seq<Ship>, s: Ship, after: seq<Ship>)
    requires forall i :: 0 <= i < |before| ==> before[i].typ != s.typ
    ensures var fleet := before + [s] + after;
            && FirstOfType(fleet, s.typ) == |before|
            && fleet[|before|] == s
            && fleet[..|before|] + fleet[|before| + 1..] == before + after
  {
    var fleet := before + [s] + after;
    assert fleet[|before|] == s;
    assert forall i :: 0 <= i < |before| ==> fleet[i] == before[i];
  }

  lemma {:induction false} UnshotView(fleet: seq<Ship>)
    requires forall s :: s in fleet ==> Unhurt(s) && Inside(s)
    ensures View(fleet, {}).ships == fleet
    ensures View(fleet, {}).remaining == NUM_SHIPS
  {
    ShipsUnhurt(fleet);
    NothingDown(fleet);
  }

  lemma {:induction false} GridWithout(before: seq<Ship>, s: Ship, after: seq<Ship>, shots: set<Coord>)
    requires Deployed(before + [s] + after) && Cells(s) !! shots
    ensures View(before + after, shots).grid == Erase(View(before + [s] + after, shots).grid, s)
  {
    var fleet, rest := before + [s] + after, before + after;
    forall c | c in AllCells() ensures CellAfter(rest, shots, c) == Erase(View(fleet, shots).grid, s)[c] {
      CoveredWithout(before, s, after, c);
      if Covers(s, c) {
        assert c in Cells(s);
        ApartFromRest(before, s, after, c);
      }
    }
  }

  lemma {:induction false} ShipsUnhurt(fleet: seq<Ship>)
    requires forall i :: 0 <= i < |fleet| ==> Unhurt(fleet[i]) && Inside(fleet[i])
    ensures ShipsAfter(fleet, {}) == fleet
  {
    forall i | 0 <= i < |fleet| ensures ShipAfter(fleet[i], {}) == fleet[i] {
      NewShipAfter(fleet[i], {});
    }
  }

  lemma {:induction false} CoveredWithout(before: seq<Ship>, s: Ship, after: seq<Ship>, c: Coord)
    ensures Covered(before + [s] + after, c) <==> Covered(before + after, c) || Covers(s, c)
  {
    var fleet, rest := before + [s] + after, before + after;
    var i, k := Owner(fleet, c), Owner(rest, c);
    if k < |rest| {
      CoveredBy(fleet, if k < |before| then k else k + 1, c);
    }
    if Covers(s, c) {
      CoveredBy(fleet, |before|, c);
    }
    if i < |fleet| && i != |before| {
      CoveredBy(rest, if i < |before| then i else i - 1, c);
    }
  }

  lemma {:induction false} ApartFromRest(before: seq<Ship>, s: Ship, after: seq<Ship>, c: Coord)
    requires Deployed(before + [s] + after) && Covers(s, c)
    ensures !Covered(before + after, c)
  {
    var fleet, rest := before + [s] + after, before + after;
    var k := Owner(rest, c);
    if k < |rest| {
      CoveredBy(fleet, |before|, c);
      CoveredBy(fleet, if k < |before| then k else k + 1, c);
    }
  }
}
