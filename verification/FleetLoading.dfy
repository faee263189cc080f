/** Validating, storing and loading a submitted fleet, and what the loaded board can do. */
module FleetLoading {
  import opened Protocol
  import opened BoardSpec
  import opened BoardLaws
  import opened BoardRuns
  import opened Deployment
  import opened FleetText

  // ---------------------------------------------------------------- validation

  /** One entry of a submission: known type, matching length, and inside the grid; every
      orientation but the horizontal one is measured downwards. */
  predicate GoodEntry(s: Ship) {
    && KnownType(s.typ) && s.length == GetShipLength(s.typ) && InGrid(s.position)
    && (if s.orientation == HORIZONTAL then s.position.col + s.length <= BOARD_SIZE
        else s.position.row + s.length <= BOARD_SIZE)
  }

  /** Five good entries of five different types. Overlaps and stray orientations are not looked at. */
  predicate ValidFleet(ships: seq<Ship>) {
    && |ships| == NUM_SHIPS
    && (forall i :: 0 <= i < |ships| ==> GoodEntry(ships[i]))
    && (forall i, j :: 0 <= i < j < |ships| ==> ships[i].typ != ships[j].typ)
  }

  // ---------------------------------------------------------------- loading

  /** Assignment of an int to the signed byte of a coordinate. */
  function ToInt8(n: int): int {
    (n + 128) % 256 - 128
  }

  /** The signed byte is the number itself where it fits, and otherwise differs from it by a multiple of 256. */
  lemma {:induction false} ToInt8Is(n: int)
    ensures -128 <= ToInt8(n) < 128 && (n - ToInt8(n)) % 256 == 0
    ensures -128 <= n < 128 ==> ToInt8(n) == n
  {
  }

  function PositionOf(r: Record): Coord {
    Coord(ToInt8(r.row), ToInt8(r.col))
  }

  /** Records that `placeShip` may be called with: it has no upper bound checks of its own. */
  predicate Loadable(records: seq<Record>) {
    && |records| <= NUM_SHIPS
    && forall i :: 0 <= i < |records| ==>
         PositionOf(records[i]).row < BOARD_SIZE && PositionOf(records[i]).col < BOARD_SIZE
  }

  function PlaceAll(b: BoardState, records: seq<Record>): (r: BoardState)
    requires FullGrid(b) && Loadable(records)
    ensures FullGrid(r)
    decreases |records|
  {
    if records == [] then b
    else
      var before := PlaceAll(b, records[..|records| - 1]);
      var last := records[|records| - 1];
      PlaceKeepsGrid(before, last.typ, PositionOf(last), last.orientation);
      Place(before, last.typ, PositionOf(last), last.orientation).board
  }

  lemma {:induction false} PlaceKeepsGrid(b: BoardState, typ: int, pos: Coord, orientation: int)
    requires FullGrid(b) && pos.row < BOARD_SIZE && pos.col < BOARD_SIZE
    ensures FullGrid(Place(b, typ, pos, orientation).board)
  {
  }

  /** The board after `loadShips`; an empty text leaves it alone. */
  function LoadText(b: BoardState, text: string): BoardState
    requires FullGrid(b) && Loadable(ParseFleet(text).records)
  {
    if text == [] then b else PlaceAll(EmptyBoard(), ParseFleet(text).records)
  }

  function Records(ships: seq<Ship>): (records: seq<Record>)
    ensures |records| == |ships|
  {
    seq(|ships|, i requires 0 <= i < |ships| => RecordOf(ships[i]))
  }

  function StoredText(ships: seq<Ship>): string {
    PrintFleet(Records(ships))
  }

  // ---------------------------------------------------------------- which ships survive loading

  function Unhit(s: Ship): Ship {
    s.(hits := 0, sunk := false)
  }

  /** A ship joins the fleet unless it overlaps it. */
  function Grown(fleet: seq<Ship>, s: Ship): seq<Ship> {
    if Cells(Unhit(s)) !! FleetCells(fleet) then fleet + [Unhit(s)] else fleet
  }

  /** The ships that loading keeps: each one that overlaps none kept before it. */
  function Kept(ships: seq<Ship>): (fleet: seq<Ship>)
    ensures |fleet| <= |ships|
  {
    if ships == [] then []
    else Grown(Kept(ships[..|ships| - 1]), ships[|ships| - 1])
  }

  ghost predicate GoodEntries(ships: seq<Ship>) {
    |ships| <= NUM_SHIPS && forall i :: 0 <= i < |ships| ==> GoodEntry(ships[i])
  }

  lemma {:induction false} GoodEntriesLoadable(ships: seq<Ship>)
    requires GoodEntries(ships)
    ensures Loadable(Records(ships))
  {
    forall i | 0 <= i < |ships| ensures PositionOf(Records(ships)[i]) == ships[i].position {
      PositionKept(ships[i]);
    }
  }

  lemma {:induction false} PositionKept(s: Ship)
    requires InGrid(s.position)
    ensures PositionOf(RecordOf(s)) == s.position
  {
  }

  /** Loading the records of good entries deploys exactly the kept ships. */
  lemma {:induction false} PlaceAllKeeps(ships: seq<Ship>)
    requires GoodEntries(ships)
    ensures Loadable(Records(ships))
    ensures Deployed(Kept(ships)) && PlaceAll(EmptyBoard(), Records(ships)) == View(Kept(ships), {})
    decreases |ships|
  {
    GoodEntriesLoadable(ships);
    if ships == [] {
      EmptyView();
    } else {
      var front, last := ships[..|ships| - 1], ships[|ships| - 1];
      PlaceAllKeeps(front);
      PlaceKeepsOne(front, last);
      assert ships == front + [last];
    }
  }

  lemma {:induction false} PlaceKeepsOne(front: seq<Ship>, last: Ship)
    requires GoodEntries(front) && |front| < NUM_SHIPS && GoodEntry(last)
    requires Loadable(Records(front)) && Deployed(Kept(front))
    requires PlaceAll(EmptyBoard(), Records(front)) == View(Kept(front), {})
    ensures Loadable(Records(front + [last])) && Deployed(Kept(front + [last]))
    ensures PlaceAll(EmptyBoard(), Records(front + [last])) == View(Kept(front + [last]), {})
  {
    PositionKept(last);
    PlaceOneMore(Kept(front), last);
    PlaceAllSnoc(EmptyBoard(), Records(front), RecordOf(last));
    assert Records(front + [last]) == Records(front) + [RecordOf(last)];
    KeptSnoc(front, last);
  }

  lemma {:induction false} KeptSnoc(front: seq<Ship>, last: Ship)
    ensures Kept(front + [last]) == Grown(Kept(front), last)
  {
    assert (front + [last])[..|front|] == front;
  }

  lemma {:induction false} PlaceOneMore(fleet: seq<Ship>, s: Ship)
    requires Deployed(fleet) && |fleet| < NUM_SHIPS && GoodEntry(s)
    ensures Deployed(Grown(fleet, s))
    ensures Place(View(fleet, {}), s.typ, s.position, s.orientation).board == View(Grown(fleet, s), {})
  {
    assert NewShip(s.typ, s.position, s.orientation) == Unhit(s);
    PlaceView(Story(fleet, {}), s.typ, s.position, s.orientation);
  }

  lemma {:induction false} PlaceAllSnoc(b: BoardState, records: seq<Record>, r: Record)
    requires FullGrid(b) && Loadable(records) && |records| < NUM_SHIPS
    requires PositionOf(r).row < BOARD_SIZE && PositionOf(r).col < BOARD_SIZE
    ensures Loadable(records + [r])
    ensures PlaceAll(b, records + [r]) == Place(PlaceAll(b, records), r.typ, PositionOf(r), r.orientation).board
  {
    assert (records + [r])[..|records|] == records;
  }

  /** All ships survive if and only if no two of them overlap. */
  lemma {:induction false} KeptAllIff(ships: seq<Ship>)
    requires GoodEntries(ships)
    ensures |Kept(ships)| == |ships| <==> PairwiseApart(ships)
    ensures |Kept(ships)| == |ships| ==> forall i :: 0 <= i < |ships| ==> Kept(ships)[i] == Unhit(ships[i])
    decreases |ships|
  {
    if ships != [] {
      var front, last := ships[..|ships| - 1], ships[|ships| - 1];
      assert ships == front + [last] && GoodEntries(front) && GoodEntry(last);
      KeptSnoc(front, last);
      hide Kept, PairwiseApart, Apart, GoodEntries, GoodEntry, Unhit, FleetCells, Cells;
      KeptAllIff(front);
      SnocApart(front, last);
      if |Kept(front)| == |front| {
        LastApartIff(front, last, Kept(front));
      }
    }
  }

  lemma {:induction false} LastApartIff(front: seq<Ship>, last: Ship, kept: seq<Ship>)
    requires GoodEntry(last) && GoodEntries(front) && |kept| == |front|
    requires forall i :: 0 <= i < |front| ==> kept[i] == Unhit(front[i])
    ensures Cells(Unhit(last)) !! FleetCells(kept) <==> forall i :: 0 <= i < |front| ==> Apart(front[i], last)
  {
    if Cells(Unhit(last)) !! FleetCells(kept) {
      forall i, c | 0 <= i < |front| && Covers(front[i], c) ensures !Covers(last, c) {
        assert Covers(kept[i], c);
        CoveredBy(kept, i, c);
        assert c in FleetCells(kept);
      }
    } else {
      var c :| c in Cells(Unhit(last)) && c in FleetCells(kept);
      assert Covers(front[Owner(kept, c)], c) && Covers(last, c);
    }
  }

  lemma {:induction false} SnocApart(front: seq<Ship>, last: Ship)
    ensures PairwiseApart(front + [last]) <==>
              PairwiseApart(front) && forall i :: 0 <= i < |front| ==> Apart(front[i], last)
  {
    var ships := front + [last];
    if PairwiseApart(ships) {
      forall i, j | 0 <= i < j < |front| ensures Apart(front[i], front[j]) {
        assert Apart(ships[i], ships[j]);
      }
      forall i | 0 <= i < |front| ensures Apart(front[i], last) {
        assert Apart(ships[i], ships[|front|]);
      }
    }
  }

  // ---------------------------------------------------------------- what can become of the loaded board

  function GridList(n: nat): seq<Coord> {
    if n == 0 then [] else GridList(n - 1) + [Coord((n - 1) / BOARD_SIZE, (n - 1) % BOARD_SIZE)]
  }

  lemma {:induction false} GridListHas(n: nat, c: Coord)
    requires InGrid(c) && BOARD_SIZE * c.row + c.col < n
    ensures c in GridList(n)
  {
    if n - 1 > BOARD_SIZE * c.row + c.col {
      GridListHas(n - 1, c);
    }
  }

  /** Storing and loading a validated fleet, through its text. */
  lemma {:induction false} LoadStored(ships: seq<Ship>)
    requires ValidFleet(ships)
    ensures Loadable(ParseFleet(StoredText(ships)).records) && ParseFleet(StoredText(ships)).ok
    ensures Deployed(Kept(ships)) && LoadText(EmptyBoard(), StoredText(ships)) == View(Kept(ships), {})
  {
    ParseInvertsPrint(Records(ships));
    PlaceAllKeeps(ships);
    EmptyView();
  }

  /** Whatever a board showed before, it shows the stored fleet after loading it, and an empty text changes nothing. */
  lemma {:induction false} LoadReplaces(b: BoardState, ships: seq<Ship>)
    requires FullGrid(b) && ValidFleet(ships)
    ensures Loadable(ParseFleet(StoredText(ships)).records) && Loadable(ParseFleet("").records)
    ensures LoadText(b, StoredText(ships)) == View(Kept(ships), {}) && LoadText(b, "") == b
  {
    LoadStored(ships);
    assert PrintFleet(Records(ships)) == ShipToken(Records(ships)[0]) + ";" + PrintFleet(Records(ships)[1..]);
    hide PlaceAll, Kept, PrintFleet, ShipToken;
  }

  ghost predicate Sinkable(b: BoardState)
    requires FullGrid(b)
  {
    exists targets :: AllShipsSunk(Shots(b, targets))
  }

  lemma {:induction false} SinkableIff(fleet: seq<Ship>)
    requires Deployed(fleet) && forall i :: 0 <= i < |fleet| ==> fleet[i].length > 0
    ensures Sinkable(View(fleet, {})) <==> |fleet| == NUM_SHIPS && AllStraight(fleet)
  {
    if |fleet| == NUM_SHIPS && AllStraight(fleet) {
      SweepSinks(fleet);
    }
    forall targets | AllShipsSunk(Shots(View(fleet, {}), targets)) ensures |fleet| == NUM_SHIPS && AllStraight(fleet) {
      ShotsFromStart(fleet, targets);
      AllShipsSunkIff(fleet, Targets(targets));
    }
  }

  lemma {:induction false} ValidFleetEntries(ships: seq<Ship>)
    requires ValidFleet(ships)
    ensures GoodEntries(ships) && |ships| == NUM_SHIPS && forall i :: 0 <= i < |ships| ==> ships[i].length > 0
  {
  }

  /** A validated fleet yields a board that some shots can clear if and only if its ships do not
      overlap and every orientation is horizontal or vertical. */
  lemma {:induction false} LoadedFleetSinkableIff(ships: seq<Ship>)
    requires ValidFleet(ships)
    ensures Loadable(ParseFleet(StoredText(ships)).records)
    ensures Sinkable(LoadText(EmptyBoard(), StoredText(ships))) <==> PairwiseApart(ships) && AllStraight(ships)
  {
    hide Sinkable, LoadText, View, StoredText, ParseFleet, Loadable, PairwiseApart, Deployed, AllStraight, Kept,
      GoodEntry, FullGrid;
    LoadStored(ships);
    ValidFleetEntries(ships);
    KeptAllIff(ships);
    KeptLengths(ships);
    SinkableIff(Kept(ships));
    if |Kept(ships)| == |ships| {
      KeptStraight(ships);
    }
  }

  lemma {:induction false} KeptLengths(ships: seq<Ship>)
    requires forall i :: 0 <= i < |ships| ==> ships[i].length > 0
    ensures forall i :: 0 <= i < |Kept(ships)| ==> Kept(ships)[i].length > 0
    decreases |ships|
  {
    if ships != [] {
      KeptLengths(ships[..|ships| - 1]);
    }
  }

  lemma {:induction false} KeptStraight(ships: seq<Ship>)
    requires |Kept(ships)| == |ships| && forall i :: 0 <= i < |ships| ==> Kept(ships)[i] == Unhit(ships[i])
    ensures AllStraight(Kept(ships)) <==> AllStraight(ships)
  {
    forall i | 0 <= i < |ships| ensures Straight(Kept(ships)[i]) <==> Straight(ships[i]) {
    }
  }

  lemma {:induction false} SweepSinks(fleet: seq<Ship>)
    requires Deployed(fleet) && |fleet| == NUM_SHIPS
    requires forall i :: 0 <= i < |fleet| ==> fleet[i].length > 0 && Straight(fleet[i])
    ensures AllShipsSunk(Shots(View(fleet, {}), GridList(100)))
  {
    ShotsFromStart(fleet, GridList(100));
    forall c | c in FleetCells(fleet) ensures c in Targets(GridList(100)) {
      GridListHas(100, c);
    }
    AllShipsSunkIff(fleet, Targets(GridList(100)));
  }

  /** Replica: a client board with one straight ship of each type passes validation, comes out of
      the stored text as the very same board, and stays equal to the server's under the same shots. */
  lemma {:induction false} DefenderReplica(fleet: seq<Ship>, targets: seq<Coord>)
    requires Deployed(fleet) && AllStraight(fleet) && OneOfEach(fleet)
    ensures View(fleet, {}).ships == fleet && ValidFleet(fleet)
    ensures Loadable(ParseFleet(StoredText(fleet)).records)
    ensures LoadText(EmptyBoard(), StoredText(fleet)) == View(fleet, {})
    ensures Shots(LoadText(EmptyBoard(), StoredText(fleet)), targets) == Shots(View(fleet, {}), targets)
         == View(fleet, Targets(targets))
  {
    FullFleetValid(fleet);
    UnshotView(fleet);
    hide View, LoadText, StoredText, ParseFleet, Loadable, Kept, Deployed, AllStraight, OneOfEach, ValidFleet,
      PairwiseApart, Shots;
    LoadStored(fleet);
    KeptAllIff(fleet);
    ShotsFromStart(fleet, targets);
    assert Kept(fleet) == fleet;
  }

  lemma {:induction false} FullFleetValid(fleet: seq<Ship>)
    requires Deployed(fleet) && AllStraight(fleet) && OneOfEach(fleet)
    ensures ValidFleet(fleet) && GoodEntries(fleet) && PairwiseApart(fleet)
    ensures forall i :: 0 <= i < |fleet| ==> Unhit(fleet[i]) == fleet[i]
  {
  }

  /** Two submissions that pass validation although no shots can ever clear the loaded board: five
      ships on one spot, and five separate ships of which one has orientation 2. */
  lemma {:induction false} ValidatedYetUnsinkable()
    ensures var stacked := seq(NUM_SHIPS, i => NewShip(i, Coord(0, 0), HORIZONTAL));
            ValidFleet(stacked) && Loadable(ParseFleet(StoredText(stacked)).records)
            && !Sinkable(LoadText(EmptyBoard(), StoredText(stacked)))
    ensures var stray := seq(NUM_SHIPS, i => NewShip(i, Coord(i, 0), if i == 4 then 2 else HORIZONTAL));
            ValidFleet(stray) && Loadable(ParseFleet(StoredText(stray)).records)
            && !Sinkable(LoadText(EmptyBoard(), StoredText(stray)))
  {
    var stacked := seq(NUM_SHIPS, i => NewShip(i, Coord(0, 0), HORIZONTAL));
    var stray := seq(NUM_SHIPS, i => NewShip(i, Coord(i, 0), if i == 4 then 2 else HORIZONTAL));
    assert ValidFleet(stacked) && ValidFleet(stray);
    assert !PairwiseApart(stacked) by {
      assert Covers(stacked[0], Coord(0, 0)) && Covers(stacked[1], Coord(0, 0));
      assert !Apart(stacked[0], stacked[1]);
    }
    assert !Straight(stray[4]);
    hide ValidFleet, PairwiseApart, Sinkable, LoadText, StoredText, ParseFleet, Loadable;
    LoadedFleetSinkableIff(stacked);
    LoadedFleetSinkableIff(stray);
  }
}
