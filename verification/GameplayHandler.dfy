/** The gameplay handler over match objects that it shares, starts, updates and drops. */
module Gameplay {
  import opened Protocol
  import opened BoardSpec
  import Boards
  import opened MatchSpec
  import opened Matches
  import opened FleetText
  import opened FleetLoading
  import opened FleetStore
  import opened Elo
  import opened ServerSpec
  import opened SortedKeys

  class GameplayHandler {
    const pow10: real -> real
    var activeMatches: map<nat, MatchState>
    var readyPlayers: map<nat, set<nat>>
    // The database tables that the handler reads and writes.
    var matchRows: map<nat, Row>
    var shipPlacements: map<(nat, nat), string>
    var ratings: Ratings
    /** The server as a value; `Valid` ties it to the fields above. */
    ghost var state: Server

    /** Every object of the match objects held so far. */
    ghost var objects: set<object>

    /** The match object is in good order and shows the value `v`. */
    static ghost predicate Shows(m: MatchState, v: MatchValue)
      reads m, m.Repr
    {
      m.Valid() && m.SlotsAfloat() && m.value == v
    }

    /** The match objects share no parts. */
    static ghost predicate Separate(matches: map<nat, MatchState>, objects: set<object>) {
      && (forall id :: id in matches ==> matches[id] in matches[id].Repr && matches[id].Repr <= objects)
      && forall i, j :: i in matches && j in matches && i != j ==> matches[i].Repr !! matches[j].Repr
    }

    static ghost predicate AllShow(matches: map<nat, MatchState>, values: map<nat, MatchValue>, objects: set<object>)
      reads objects
      requires Separate(matches, objects)
    {
      matches.Keys == values.Keys && forall id :: id in matches ==> Shows(matches[id], values[id])
    }

    ghost predicate Valid()
      reads this, objects
    {
      && PowerLike(pow10)
      && this !in objects
      && Separate(activeMatches, objects)
      && AllShow(activeMatches, state.active, objects)
      && state.ready == readyPlayers && state.rows == matchRows
      && state.placements == shipPlacements && state.ratings == ratings
      && StoredTexts(state) && LiveGrids(state)
    }

    /** The fields of a held match object are those of its value. */
    lemma {:induction false} Held(id: nat)
      requires Valid() && id in activeMatches
      ensures id in state.active && Shows(activeMatches[id], state.active[id]) && activeMatches[id].Repr <= objects
      ensures var m, v := activeMatches[id], state.active[id];
              m.player1Id == v.player1 && m.player2Id == v.player2 && m.currentTurnPlayerId == v.current
    {
    }

    constructor (power: real -> real, users: Ratings)
      requires PowerLike(power)
      ensures Valid() && objects == {} && pow10 == power
      ensures state == Server(map[], map[], map[], map[], users, [])
    {
      pow10 := power;
      activeMatches, readyPlayers, matchRows, shipPlacements, ratings := map[], map[], map[], map[], users;
      state := Server(map[], map[], map[], map[], users, []);
      objects := {};
    }

    /** Announce the end, rate the players, complete the row and forget the match. */
    method FinishMatch(id: nat, winner: nat, reason: Reason)
      requires Valid() && id in activeMatches
      modifies this
      ensures Valid() && objects == old(objects) && state == End(pow10, old(state), id, winner, reason)
      ensures activeMatches == old(activeMatches) - {id}
    {
      hide FleetTexts, FullGrids, Rate, PowerLike, End, AllShow, Separate, Shows;
      var m := activeMatches[id];
      Held(id);
      EndKeepsTexts(pow10, state, id, winner, reason);
      EndFields(pow10, state, id, winner, reason);
      ratings := Rate(pow10, ratings, m.player1Id, m.player2Id, winner);
      matchRows := CompletedRows(matchRows, id, winner);
      RemoveMatch(id, End(pow10, state, id, winner, reason));
    }

    static function CompletedRows(rows: map<nat, Row>, id: nat, winner: nat): map<nat, Row> {
      if id in rows then rows[id := rows[id].(winner := winner, completed := true)] else rows
    }

    static lemma {:induction false} EndFields(pow10: real -> real, s: Server, id: nat, winner: nat, reason: Reason)
      requires PowerLike(pow10) && id in s.active
      ensures var after, m := End(pow10, s, id, winner, reason), s.active[id];
              && after.active == s.active - {id} && after.ready == s.ready - {id}
              && after.rows == CompletedRows(s.rows, id, winner) && after.placements == s.placements
              && after.ratings == Rate(pow10, s.ratings, m.player1, m.player2, winner)
    {
    }

    /** Forget a match: it is neither active nor are its players ready any more. */
    method RemoveMatch(id: nat, ghost next: Server)
      requires PowerLike(pow10) && this !in objects && Separate(activeMatches, objects)
      requires AllShow(activeMatches, state.active, objects) && state.ready == readyPlayers
      requires next.active == state.active - {id} && next.ready == state.ready - {id}
      requires next.rows == matchRows && next.placements == shipPlacements && next.ratings == ratings
      requires StoredTexts(next) && LiveGrids(next)
      modifies this
      ensures Valid() && objects == old(objects) && state == next
      ensures activeMatches == old(activeMatches) - {id}
    {
      hide FleetTexts, FullGrids, Shows, PowerLike, AllShow, Separate;
      LeftBy(activeMatches, state.active, objects, id);
      activeMatches := activeMatches - {id};
      readyPlayers := readyPlayers - {id};
      state := next;
    }

    /** The match objects that remain are still separate and in good order. */
    static lemma {:induction false} LeftBy(matches: map<nat, MatchState>, values: map<nat, MatchValue>,
                                           objects: set<object>, id: nat)
      requires Separate(matches, objects) && AllShow(matches, values, objects)
      ensures Separate(matches - {id}, objects) && AllShow(matches - {id}, values - {id}, objects)
    {
      hide Shows;
    }

    method HandleResign(id: nat, user: nat)
      requires Valid()
      modifies this
      ensures Valid() && objects == old(objects) && state == Resign(pow10, old(state), id, user)
    {
      if user == 0 || id !in activeMatches { return; }
      var m := activeMatches[id];
      Held(id);
      var winner := if user == m.player1Id then m.player2Id else m.player1Id;
      FinishMatch(id, winner, EndResign);
    }

    method HandleDrawResponse(id: nat, user: nat, accepted: bool)
      requires Valid()
      modifies this
      ensures Valid() && objects == old(objects) && state == AnswerDraw(pow10, old(state), id, user, accepted)
    {
      if user == 0 || !accepted || id !in activeMatches { return; }
      FinishMatch(id, 0, EndDrawAgreed);
    }

    method HandleMove(id: nat, user: nat, target: Coord, now: int) returns (message: Option<MoveResult>)
      requires Valid()
      modifies this, objects
      ensures Valid() && objects == old(objects) && state == MakeMove(pow10, old(state), id, user, target, now)
      ensures message == if user == 0 || id !in old(state).active || old(state).active[id].current != user then None
                         else Some(MoveMessage(old(state).active[id], user, target, now))
    {
      hide FleetTexts, End, PowerLike, AllShow, Separate, Shows, Grids;
      message := None;
      SameKeys();
      if user == 0 || id !in activeMatches { return; }
      var m := activeMatches[id];
      Held(id);
      if m.currentTurnPlayerId != user { return; }
      GridsAfterMove(state.active, id, user, target, now);
      assert MoveMessage(state.active[id], user, target, now).gameOver ==
             AllShipsSunk(TargetBoard(ProcessMove(state.active[id], user, target, now).value, user));
      hide FullGrids, MoveMessage, ProcessMove, AllShipsSunk, TargetBoard;
      var reply := MoveInMatch(id, user, target, now);
      message := Some(reply);
      if reply.gameOver {
        FinishMatch(id, user, EndNormal);
      }
    }

    static lemma {:induction false} GridsAfterMove(active: map<nat, MatchValue>, id: nat, user: nat, target: Coord,
                                                   now: int)
      requires FullGrids(active) && id in active
      ensures FullGrid(active[id].board1) && FullGrid(active[id].board2)
      ensures FullGrids(active[id := ProcessMove(active[id], user, target, now).value])
    {
      hide ProcessMove;
      assert Grids(active[id]);
      ProcessMoveGrids(active[id], user, target, now);
    }

    /** One move on the shared match object; no other match is touched. */
    method MoveInMatch(id: nat, user: nat, target: Coord, now: int) returns (reply: MoveResult)
      requires Valid() && id in activeMatches
      modifies this`state, activeMatches[id].Repr
      ensures Valid()
      ensures reply == MoveMessage(old(state).active[id], user, target, now)
      ensures var next := ProcessMove(old(state).active[id], user, target, now).value;
              state == old(state).(active := old(state).active[id := next])
    {
      hide FleetTexts, ProcessMove, PowerLike, Shows, MoveMessage, Grids, FullGrids;
      ghost var before := state.active[id];
      GridsAfterMove(state.active, id, user, target, now);
      reply := PlayMove(activeMatches[id], user, target, now, before);
      state := state.(active := state.active[id := ProcessMove(before, user, target, now).value]);
    }

    /** Process a move and compose its MOVE_RESULT message. */
    static method PlayMove(m: MatchState, user: nat, target: Coord, now: int,
                           ghost before: MatchValue) returns (reply: MoveResult)
      requires Shows(m, before)
      modifies m.Repr
      ensures Grids(before) && Shows(m, ProcessMove(before, user, target, now).value)
      ensures reply == MoveMessage(before, user, target, now)
    {
      hide ProcessMove;
      var result := m.ProcessMove(user, target, now);
      var targetBoard := if user == m.player1Id then m.player2Board else m.player1Board;
      assert targetBoard.state == TargetBoard(m.value, user);
      var shipSunk := SHIP_CARRIER;
      if result == ShotSunk {
        shipSunk := targetBoard.FindSunkType(target);
      }
      var gameOver := targetBoard.AllShipsSunk();
      reply := MoveResult(user, target, result, shipSunk, targetBoard.shipsRemaining, gameOver,
                          if gameOver then user else 0);
    }
  
    // ---------------------------------------------------------------- placement

    /** The answer sent back for a submission; None for an invalid session. */
    method HandleShipPlacement(id: nat, user: nat, ships: seq<Ship>, firstIsPlayer1: bool, now: int)
      returns (accepted: Option<bool>)
      requires Valid() && |ships| == NUM_SHIPS
      modifies this, objects
      ensures Valid() && fresh(objects - old(objects))
      ensures state == PlaceFleet(old(state), id, user, ships, firstIsPlayer1, now)
      ensures accepted == if user == 0 then None else Some(ValidFleet(ships))
    {
      hide PowerLike, FleetTexts, FullGrids, AllShow, Separate, ValidFleet, StoredText, Activate;
      if user == 0 { return None; }
      var ok := ValidateShipPlacement(ships);
      if !ok { return Some(false); }
      StoreKeepsTexts(state, id, user, ships);
      var text := PrintShips(ships);
      if (id, user) !in shipPlacements {
        shipPlacements := shipPlacements[(id, user) := text];
      }
      readyPlayers := readyPlayers[id := (if id in readyPlayers then readyPlayers[id] else {}) + {user}];
      state := Store(state, id, user, ships);
      if id in matchRows && matchRows[id].player1 in readyPlayers[id] && matchRows[id].player2 in readyPlayers[id] {
        CreateMatch(id, firstIsPlayer1, now);
      }
      accepted := Some(true);
    }

    /** Create the match object, load both fleets, start the match and pick who begins. */
    method CreateMatch(id: nat, firstIsPlayer1: bool, now: int)
      requires Valid() && BothReady(state, id)
      modifies this
      ensures Valid() && fresh(objects - old(objects))
      ensures Loadable(ParseFleet(PlacementOf(old(state), id, old(state).rows[id].player1)).records)
      ensures Loadable(ParseFleet(PlacementOf(old(state), id, old(state).rows[id].player2)).records)
      ensures state == Activate(old(state), id, firstIsPlayer1, now)
    {
      hide PowerLike, FleetTexts, Shows, BuiltMatch, FullGrids, ParseFleet, Loadable, AllShow, Separate;
      var player1, player2 := matchRows[id].player1, matchRows[id].player2;
      PlacementLoadable(state, id, player1);
      PlacementLoadable(state, id, player2);
      var text1 := if (id, player1) in shipPlacements then shipPlacements[(id, player1)] else "";
      var text2 := if (id, player2) in shipPlacements then shipPlacements[(id, player2)] else "";
      GridsWithBuilt(state.active, id, player1, player2, text1, text2, firstIsPlayer1, now);
      var m := BuildMatch(player1, player2, text1, text2, firstIsPlayer1, now);
      JoinedBy(activeMatches, state.active, objects, id, m,
               NewLiveMatch(state, id, state.rows[id], firstIsPlayer1, now));
      activeMatches := activeMatches[id := m];
      objects := objects + m.Repr;
      state := Activate(state, id, firstIsPlayer1, now);
    }

    /** A new match object that shares no parts with the others joins or replaces one of them. */
    static lemma {:induction false} JoinedBy(matches: map<nat, MatchState>, values: map<nat, MatchValue>,
                                             objects: set<object>,
                                             id: nat, m: MatchState, v: MatchValue)
      requires Separate(matches, objects) && AllShow(matches, values, objects)
      requires m in m.Repr && m.Repr !! objects && Shows(m, v)
      ensures Separate(matches[id := m], objects + m.Repr)
      ensures AllShow(matches[id := m], values[id := v], objects + m.Repr)
    {
      hide Shows;
    }

    static lemma {:induction false} GridsWithBuilt(active: map<nat, MatchValue>, id: nat, player1: nat, player2: nat,
                                                   text1: string, text2: string, firstIsPlayer1: bool, now: int)
      requires FullGrids(active)
      requires Loadable(ParseFleet(text1).records) && Loadable(ParseFleet(text2).records)
      ensures FullGrids(active[id := BuiltMatch(player1, player2, text1, text2, firstIsPlayer1, now)])
    {
      hide ParseFleet, Loadable;
    }

    static method BuildMatch(player1: nat, player2: nat, text1: string, text2: string, firstIsPlayer1: bool, now: int)
      returns (m: MatchState)
      requires Loadable(ParseFleet(text1).records) && Loadable(ParseFleet(text2).records)
      ensures fresh(m) && fresh(m.Repr) && m in m.Repr
      ensures Shows(m, BuiltMatch(player1, player2, text1, text2, firstIsPlayer1, now))
    {
      hide ParseFleet, Loadable, LoadText, Boards.Board.Valid;
      m := new MatchState(player1, player2);
      LoadFleets(m, text1, text2);
      m.StartMatch(now);
      m.SetCurrentPlayer(if firstIsPlayer1 then player1 else player2);
    }

    static method LoadFleets(m: MatchState, text1: string, text2: string)
      requires m.Valid() && m.SlotsAfloat()
      requires Loadable(ParseFleet(text1).records) && Loadable(ParseFleet(text2).records)
      modifies m.Repr
      ensures m.Valid() && m.SlotsAfloat()
      ensures m.value == old(m.value).(board1 := LoadText(old(m.value).board1, text1),
                                       board2 := LoadText(old(m.value).board2, text2))
    {
      hide ParseFleet, Loadable, LoadText, Boards.Board.Valid;
      var _ := LoadShips(m.player1Board, text1);
      var _ := LoadShips(m.player2Board, text2);
      m.value := m.value.(board1 := m.player1Board.state, board2 := m.player2Board.state);
    }

    // ---------------------------------------------------------------- sweeps

    static method IsDue(m: MatchState, sweep: Sweep, ghost v: MatchValue) returns (due: bool)
      requires Shows(m, v)
      ensures due == Due(v, sweep)
    {
      match sweep
      case TurnExpired(now) => due := m.IsTurnTimedOut(now);
      case Left(user) => due := m.player1Id == user || m.player2Id == user;
    }

    /** Collect the ids of the matches that are due, in the order of the map. */
    method CollectDue(sweep: Sweep) returns (ids: seq<nat>)
      requires Valid()
      ensures ids == Ascending(DueIds(state, sweep))
    {
      hide PowerLike, FleetTexts, FullGrids, Shows, Due, AllShow, Separate;
      ids := [];
      var keys := Ascending(activeMatches.Keys);
      ghost var due := DueIds(state, sweep);
      SameKeys();
      assert due <= activeMatches.Keys && Collected(ids, keys, 0, due);
      hide Collected, Increasing;
      for i := 0 to |keys|
        invariant Collected(ids, keys, i, due)
      {
        assert keys[i] in keys;
        Held(keys[i]);
        var d := IsDue(activeMatches[keys[i]], sweep, state.active[keys[i]]);
        CollectNext(ids, keys, i, due);
        if d {
          ids := ids + [keys[i]];
        }
      }
      CollectedAll(ids, activeMatches.Keys, due);
    }

    /** End the collected matches one after the other. */
    method EndCollected(ids: seq<nat>, sweep: Sweep)
      requires Valid()
      modifies this
      ensures Valid() && objects == old(objects) && state == EndEach(pow10, old(state), ids, sweep)
    {
      hide PowerLike, FleetTexts, FullGrids, AllShow, Separate, Shows, End;
      for i := 0 to |ids|
        invariant Valid() && objects == old(objects) && state == EndEach(pow10, old(state), ids[..i], sweep)
      {
        assert ids[..i + 1][..i] == ids[..i];
        SameKeys();
        if ids[i] in activeMatches {
          var m := activeMatches[ids[i]];
          Held(ids[i]);
          var loser := if sweep.Left? then sweep.user else m.currentTurnPlayerId;
          var winner := if loser == m.player1Id then m.player2Id else m.player1Id;
          FinishMatch(ids[i], winner, if sweep.Left? then EndDisconnect else EndTimeout);
        }
      }
      assert ids[..|ids|] == ids;
    }

    lemma {:induction false} SameKeys()
      requires Valid()
      ensures activeMatches.Keys == state.active.Keys
    {
    }

    method CheckTurnTimeouts(now: int)
      requires Valid()
      modifies this
      ensures Valid() && objects == old(objects) && state == RunSweep(pow10, old(state), TurnExpired(now))
    {
      var timedOut := CollectDue(TurnExpired(now));
      EndCollected(timedOut, TurnExpired(now));
    }

    method HandlePlayerDisconnect(user: nat)
      requires Valid()
      modifies this
      ensures Valid() && objects == old(objects) && state == RunSweep(pow10, old(state), Left(user))
    {
      var toEnd := CollectDue(Left(user));
      EndCollected(toEnd, Left(user));
    }

    /** The row that the database creates for an accepted challenge. */
    method RegisterMatch(id: nat, player1: nat, player2: nat)
      requires Valid()
      modifies this
      ensures Valid() && objects == old(objects) && state == Register(old(state), id, player1, player2)
    {
      hide PowerLike, FleetTexts, FullGrids, AllShow, Separate;
      if id != 0 && id !in matchRows && player1 != player2 && player1 != 0 && player2 != 0 &&
         player1 in ratings && player2 in ratings {
        matchRows := matchRows[id := Row(player1, player2, 0, false)];
      }
      state := Register(state, id, player1, player2);
    }
  }
}
