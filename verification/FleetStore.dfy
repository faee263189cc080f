/** The loops of the server's ship placement handler. */
module FleetStore {
  import opened Protocol
  import opened BoardSpec
  import opened Deployment
  import opened FleetText
  import opened FleetLoading
  import opened Boards

  /** Five types out of five are all present exactly when no two are the same. */
  lemma {:induction false} AllTypesIffDistinct(a: int, b: int, c: int, d: int, e: int)
    requires KnownType(a) && KnownType(b) && KnownType(c) && KnownType(d) && KnownType(e)
    ensures {0, 1, 2, 3, 4} <= {a, b, c, d, e}
       <==> (a != b && a != c && a != d && a != e && b != c && b != d && b != e && c != d && c != e && d != e)
  {
  }

  predicate HasType(ships: seq<Ship>, n: nat, typ: int)
    requires n <= |ships|
  {
    exists i :: 0 <= i < n && ships[i].typ == typ
  }

  predicate AllGood(ships: seq<Ship>, n: nat)
    requires n <= |ships|
  {
    forall i :: 0 <= i < n ==> GoodEntry(ships[i])
  }

  /** The five flags say which types occur among the first `n` entries. */
  predicate Flags(ships: seq<Ship>, n: nat, carrier: bool, battleship: bool, cruiser: bool, submarine: bool,
                  destroyer: bool)
    requires n <= |ships|
  {
    && carrier == HasType(ships, n, SHIP_CARRIER) && battleship == HasType(ships, n, SHIP_BATTLESHIP)
    && cruiser == HasType(ships, n, SHIP_CRUISER) && submarine == HasType(ships, n, SHIP_SUBMARINE)
    && destroyer == HasType(ships, n, SHIP_DESTROYER)
  }

  /** One more entry adds its own type. */
  lemma {:induction false} HasTypeNext(ships: seq<Ship>, n: nat)
    requires n < |ships|
    ensures forall t :: HasType(ships, n + 1, t) <==> HasType(ships, n, t) || ships[n].typ == t
    ensures AllGood(ships, n + 1) <==> AllGood(ships, n) && GoodEntry(ships[n])
  {
    forall t ensures HasType(ships, n + 1, t) <==> HasType(ships, n, t) || ships[n].typ == t {
      if HasType(ships, n, t) {
        var i :| 0 <= i < n && ships[i].typ == t;
        assert 0 <= i < n + 1;
      }
    }
  }

  lemma {:induction false} NoTypeYet(ships: seq<Ship>)
    ensures AllGood(ships, 0) && forall t :: !HasType(ships, 0, t)
  {
  }

  predicate AllDifferent(ships: seq<Ship>) {
    forall i, j :: 0 <= i < j < |ships| ==> ships[i].typ != ships[j].typ
  }

  lemma {:induction false} ValidFleetParts(ships: seq<Ship>)
    requires |ships| == NUM_SHIPS
    ensures ValidFleet(ships) <==> AllGood(ships, NUM_SHIPS) && AllDifferent(ships)
    ensures AllGood(ships, NUM_SHIPS) ==>
              KnownType(ships[0].typ) && KnownType(ships[1].typ) && KnownType(ships[2].typ) &&
              KnownType(ships[3].typ) && KnownType(ships[4].typ)
  {
  }

  lemma {:induction false} DistinctTypes(ships: seq<Ship>)
    requires |ships| == NUM_SHIPS
    ensures forall t :: HasType(ships, NUM_SHIPS, t) <==>
              t in {ships[0].typ, ships[1].typ, ships[2].typ, ships[3].typ, ships[4].typ}
    ensures AllDifferent(ships) <==>
              var a, b, c, d, e := ships[0].typ, ships[1].typ, ships[2].typ, ships[3].typ, ships[4].typ;
              a != b && a != c && a != d && a != e && b != c && b != d && b != e && c != d && c != e && d != e
  {
  }

  /** A submission is valid if and only if all its entries are good and all five flags are set. */
  lemma {:induction false} ValidFleetIff(ships: seq<Ship>)
    requires |ships| == NUM_SHIPS
    ensures ValidFleet(ships) <==> AllGood(ships, NUM_SHIPS) && Flags(ships, NUM_SHIPS, true, true, true, true, true)
  {
    hide HasType, ValidFleet, AllGood, AllDifferent;
    DistinctTypes(ships);
    ValidFleetParts(ships);
    if AllGood(ships, NUM_SHIPS) {
      AllTypesIffDistinct(ships[0].typ, ships[1].typ, ships[2].typ, ships[3].typ, ships[4].typ);
    }
  }

  /** In full: a submission of five ships is accepted if and only if every type occurs, each ship has the length of its
      type and starts in the grid, and it ends in the grid too, along the column unless it is horizontal. */
  lemma {:induction false} AcceptedIff(ships: seq<Ship>)
    requires |ships| == NUM_SHIPS
    ensures ValidFleet(ships) <==>
            && (forall typ :: 0 <= typ < 5 ==> HasType(ships, NUM_SHIPS, typ))
            && forall i :: 0 <= i < |ships| ==>
                 var s := ships[i];
                 && 0 <= s.typ < 5 && s.length == [5, 4, 3, 3, 2][s.typ]
                 && 0 <= s.position.row < 10 && 0 <= s.position.col < 10
                 && (if s.orientation == HORIZONTAL then s.position.col + s.length <= 10
                     else s.position.row + s.length <= 10)
  {
    hide HasType, ValidFleet;
    ValidFleetIff(ships);
    forall i | 0 <= i < |ships|
      ensures var s := ships[i];
              GoodEntry(s) <==>
              && 0 <= s.typ < 5 && s.length == [5, 4, 3, 3, 2][s.typ]
              && 0 <= s.position.row < 10 && 0 <= s.position.col < 10
              && (if s.orientation == HORIZONTAL then s.position.col + s.length <= 10
                  else s.position.row + s.length <= 10)
    {
      EntryIff(ships[i]);
    }
    hide GoodEntry;
  }

  lemma {:induction false} EntryIff(s: Ship)
    ensures GoodEntry(s) <==>
            && 0 <= s.typ < 5 && s.length == [5, 4, 3, 3, 2][s.typ]
            && 0 <= s.position.row < 10 && 0 <= s.position.col < 10
            && (if s.orientation == HORIZONTAL then s.position.col + s.length <= 10
                else s.position.row + s.length <= 10)
  {
    assert 0 <= s.typ < 5 ==> s.typ in {0, 1, 2, 3, 4};
  }

  lemma {:induction false} BadEntry(ships: seq<Ship>, i: nat)
    requires i < |ships| && !GoodEntry(ships[i])
    ensures !ValidFleet(ships)
  {
  }

  method ValidateShipPlacement(ships: seq<Ship>) returns (ok: bool)
    requires |ships| == NUM_SHIPS
    ensures ok == ValidFleet(ships)
  {
    var shipCount := 0;
    var hasCarrier, hasBattleship, hasCruiser, hasSubmarine, hasDestroyer := false, false, false, false, false;
    NoTypeYet(ships);
    hide HasType, AllGood, ValidFleet;
    for i := 0 to NUM_SHIPS
      invariant shipCount <= i && (shipCount == i <==> AllGood(ships, i))
      invariant Flags(ships, i, hasCarrier, hasBattleship, hasCruiser, hasSubmarine, hasDestroyer) || shipCount < i
    {
      var s := ships[i];
      HasTypeNext(ships, i);
      if !GoodEntry(s) { BadEntry(ships, i); }
      if s.length > 0 {
        shipCount := shipCount + 1;
        if s.typ == SHIP_CARRIER { hasCarrier := true; }
        else if s.typ == SHIP_BATTLESHIP { hasBattleship := true; }
        else if s.typ == SHIP_CRUISER { hasCruiser := true; }
        else if s.typ == SHIP_SUBMARINE { hasSubmarine := true; }
        else if s.typ == SHIP_DESTROYER { hasDestroyer := true; }
        else { return false; }
        if s.length != GetShipLength(s.typ) { return false; }
        if s.position.row < 0 || s.position.row >= BOARD_SIZE || s.position.col < 0 || s.position.col >= BOARD_SIZE {
          return false;
        }
        if s.orientation == HORIZONTAL {
          if s.position.col + s.length > BOARD_SIZE { return false; }
        } else {
          if s.position.row + s.length > BOARD_SIZE { return false; }
        }
      }
    }
    ok := shipCount == 5 && hasCarrier && hasBattleship && hasCruiser && hasSubmarine && hasDestroyer;
    ValidFleetIff(ships);
  }

  lemma {:induction false} PrintFleetFrom(records: seq<Record>, i: nat)
    requires i < |records|
    ensures PrintFleet(records[i..]) == ShipToken(records[i]) + ";" + PrintFleet(records[i + 1..])
  {
    assert records[i..][1..] == records[i + 1..];
  }

  lemma {:induction false} Regroup(a: string, b: string, c: string)
    ensures a + (b + ";" + c) == a + (b + ";") + c
  {
  }

  /** The text that the handler stores for a submission. */
  method PrintShips(ships: seq<Ship>) returns (text: string)
    ensures text == StoredText(ships)
  {
    text := "";
    ghost var records := Records(ships);
    for i := 0 to |ships|
      invariant text + PrintFleet(records[i..]) == StoredText(ships)
    {
      var token := IntText(ships[i].typ) + "," + IntText(ships[i].orientation) + "," +
                   IntText(ships[i].position.row) + "," + IntText(ships[i].position.col);
      PrintFleetFrom(records, i);
      assert token == ShipToken(records[i]);
      Regroup(text, token, PrintFleet(records[i + 1..]));
      text := text + (token + ";");
    }
  }

  /** `loadShips`: false when a field is not a number and the parser throws. */
  method LoadShips(board: Board, data: string) returns (ok: bool)
    requires board.Valid() && Loadable(ParseFleet(data).records)
    modifies board.Repr()
    ensures board.Valid() && board.state == LoadText(old(board.state), data)
    ensures old(board.SpareSlotsAfloat()) ==> board.SpareSlotsAfloat()
    ensures ok == ParseFleet(data).ok
  {
    hide GetLine, ParseShip, ParseFleet, PlaceAll, Loadable;
    if data == "" { NothingLeft([]); return true; }
    board.ClearBoard();
    var left := data;
    ghost var done: seq<Record> := [];
    NothingYet(ParseFleet(data).records);
    while left != ""
      invariant Loading(board, data, left, done)
      decreases |left|
    {
      var line := GetLine(left, ';').value;
      var parsed := if line.text == "" then SkippedShip else ParseShip(line.text);
      ParseOneToken(left);
      if parsed.BadShip? {
        NothingLeft(done);
        return false;
      }
      left := line.rest;
      if parsed.GoodShip? {
        PlaceNext(board, data, line.rest, done, parsed.record);
        done := done + [parsed.record];
      }
    }
    NothingLeft(done);
    return true;
  }

  lemma {:induction false} NothingYet(records: seq<Record>)
    ensures Loadable([]) && PlaceAll(EmptyBoard(), []) == EmptyBoard() && [] + records == records
  {
  }

  lemma {:induction false} NothingLeft(done: seq<Record>)
    ensures done + [] == done && ParseFleet("") == Parsed([], true)
  {
  }

  lemma {:induction false} ParseOneToken(text: string)
    requires text != []
    ensures var line := GetLine(text, ';').value;
            var later := ParseFleet(line.rest);
            ParseFleet(text) ==
              if line.text == "" then later
              else match ParseShip(line.text)
                   case SkippedShip => later
                   case BadShip => Parsed([], false)
                   case GoodShip(r) => Parsed([r] + later.records, later.ok)
  {
  }

  /** The records in `done` have been placed, those in `left` have not. */
  ghost predicate Loading(board: Board, data: string, left: string, done: seq<Record>)
    reads board, board.grid, board.ships
  {
    && board.Valid() && board.SpareSlotsAfloat() && board.shipsCount <= |done|
    && Loadable(done) && board.state == PlaceAll(EmptyBoard(), done)
    && ParseFleet(data) == Parsed(done + ParseFleet(left).records, ParseFleet(left).ok)
  }

  method PlaceNext(board: Board, ghost data: string, ghost rest: string, ghost done: seq<Record>, r: Record)
    requires Loadable(ParseFleet(data).records)
    requires board.Valid() && board.SpareSlotsAfloat() && board.shipsCount <= |done|
    requires Loadable(done) && board.state == PlaceAll(EmptyBoard(), done)
    requires ParseFleet(data) == Parsed(done + ([r] + ParseFleet(rest).records), ParseFleet(rest).ok)
    modifies board.Repr()
    ensures Loading(board, data, rest, done + [r])
  {
    LoadableNext(done, r, ParseFleet(rest).records);
    PlaceAllSnoc(EmptyBoard(), done, r);
    var _ := board.PlaceShip(r.typ, Coord(ToInt8(r.row), ToInt8(r.col)), r.orientation);
  }

  lemma {:induction false} LoadableNext(done: seq<Record>, r: Record, more: seq<Record>)
    requires Loadable(done + ([r] + more))
    ensures |done| < NUM_SHIPS && PositionOf(r).row < BOARD_SIZE && PositionOf(r).col < BOARD_SIZE
    ensures done + ([r] + more) == (done + [r]) + more
  {
    assert (done + ([r] + more))[|done|] == r;
  }
}
