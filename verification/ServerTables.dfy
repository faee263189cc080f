/** What one event does to a match and to the stored placements, and what follows over runs: which submission a match
    is played with. (server/src/gameplay_handler.cpp) */
module ServerTables {
  import opened Protocol
  import opened BoardSpec
  import opened BoardLaws
  import opened MatchSpec
  import opened MatchLaws
  import opened FleetText
  import opened FleetLoading
  import opened Elo
  import opened SortedKeys
  import opened ServerSpec
  import opened ServerLaws
  import opened ServerRuns

  // ---------------------------------------------------------------- one event

  /** The event is a move that the server carries out in this match, and reports to both players. */
  predicate Moves(s: Server, e: Event, id: nat) {
    e.MoveMade? && e.id == id && e.user != 0 && id in s.active && s.active[id].current == e.user
  }

  lemma {:induction false} LiveFacts(pow10: real -> real, start: Ratings, s: Server, id: nat)
    requires PowerLike(pow10) && Inv(pow10, start, s) && id in s.active
    ensures LiveGrids(s) && id in s.rows && Grids(s.active[id]) && s.active[id].active && !s.active[id].paused
    ensures var m, row := s.active[id], s.rows[id];
            && m.player1 == row.player1 && m.player2 == row.player2 && row.player1 != row.player2
            && (m.current == row.player1 || m.current == row.player2)
            && Healthy(m, row, PlacementOf(s, id, row.player1), PlacementOf(s, id, row.player2), ReadySet(s, id))
  {
    hide Inv, Healthy, StoredTexts, ReadyHavePlaced;
    InvGrids(pow10, start, s);
    assert HealthyAt(s, id);
    HealthyBasics(s, id);
  }

  /** The live match is left alone, or a new game of a registered match has started. */
  ghost predicate KeptOrNew(s: Server, after: Server, id: nat) {
    id in after.active ==>
      (id in s.active && after.active[id] == s.active[id]) || (id in s.rows && after.active[id].history == [])
  }

  /** What an event does to the live match: it carries out the move, leaves the match alone, or starts a new game. */
  ghost predicate MatchAfter(s: Server, e: Event, after: Server, id: nat)
    requires LiveGrids(s)
  {
    if Moves(s, e, id) then
      id in after.active ==> after.active[id] == ProcessMove(s.active[id], e.user, e.target, e.now).value
    else KeptOrNew(s, after, id)
  }

  /** Matches keep their players, and placements once stored stay. */
  ghost predicate TablesKept(s: Server, after: Server) {
    && (forall id :: id in s.rows ==>
          id in after.rows
          && after.rows[id].player1 == s.rows[id].player1 && after.rows[id].player2 == s.rows[id].player2)
    && (forall key :: key in s.placements ==> key in after.placements && after.placements[key] == s.placements[key])
  }

  lemma {:induction false} StoreKeepsTables(s: Server, k: nat, user: nat, ships: seq<Ship>)
    ensures TablesKept(s, Store(s, k, user, ships)) && Store(s, k, user, ships).active == s.active
    ensures Store(s, k, user, ships).rows == s.rows
  {
    hide StoredText;
  }

  lemma {:induction false} ActivateKeepsTables(s: Server, k: nat, coin: bool, now: int, id: nat)
    requires StoredTexts(s) && k in s.rows
    ensures Loadable(ParseFleet(PlacementOf(s, k, s.rows[k].player1)).records)
    ensures Loadable(ParseFleet(PlacementOf(s, k, s.rows[k].player2)).records)
    ensures var after := Activate(s, k, coin, now);
            && after.rows == s.rows && after.placements == s.placements
            && KeptOrNew(s, after, id)
  {
    PlacementLoadable(s, k, s.rows[k].player1);
    PlacementLoadable(s, k, s.rows[k].player2);
    hide ParseFleet, Loadable, LoadText, PlacementOf, StoredTexts;
  }

  lemma {:induction false} PlaceFleetKeepsTables(s: Server, k: nat, user: nat, ships: seq<Ship>, coin: bool, now: int,
                                                 id: nat)
    requires StoredTexts(s)
    ensures var after := PlaceFleet(s, k, user, ships, coin, now);
            TablesKept(s, after) && KeptOrNew(s, after, id)
  {
    hide Store, Activate, FleetTexts, ValidFleet, ParseFleet, Loadable;
    if AcceptsPlacement(user, ships) {
      StoreKeepsTables(s, k, user, ships);
      StoreKeepsTexts(s, k, user, ships);
      if BothReady(Store(s, k, user, ships), k) {
        ActivateKeepsTables(Store(s, k, user, ships), k, coin, now, id);
      }
    }
  }

  lemma {:induction false} EndEachKeepsTables(pow10: real -> real, s: Server, ids: seq<nat>, sweep: Sweep, id: nat)
    requires PowerLike(pow10)
    ensures var after := EndEach(pow10, s, ids, sweep);
            TablesKept(s, after) && (id in after.active ==> id in s.active && after.active[id] == s.active[id])
    decreases |ids|
  {
    hide Rate;
    if ids != [] {
      EndEachKeepsTables(pow10, s, ids[..|ids| - 1], sweep, id);
    }
  }

  lemma {:induction false} MakeMoveKeepsTables(pow10: real -> real, s: Server, e: Event, id: nat)
    requires PowerLike(pow10) && LiveGrids(s) && e.MoveMade?
    ensures var after := MakeMove(pow10, s, e.id, e.user, e.target, e.now);
            TablesKept(s, after) && MatchAfter(s, e, after, id)
  {
    hide Rate, ProcessMove, AllShipsSunk, FullGrids;
  }

  /** Every event keeps players and placements, and moves, leaves alone or restarts the live match. */
  lemma {:induction false} StepMatch(pow10: real -> real, s: Server, e: Event, id: nat)
    requires PowerLike(pow10) && StoredTexts(s) && LiveGrids(s)
    ensures var after := ServerSpec.Step(pow10, s, e); TablesKept(s, after) && MatchAfter(s, e, after, id)
  {
    hide Rate, PlaceFleet, MakeMove, EndEach, FleetTexts, FullGrids, ProcessMove;
    match e
    case MatchRegistered(k, player1, player2) =>
    case FleetSubmitted(k, user, ships, coin, now) => PlaceFleetKeepsTables(s, k, user, ships, coin, now, id);
    case MoveMade(k, user, target, now) => MakeMoveKeepsTables(pow10, s, e, id);
    case Resigned(k, user) =>
    case DrawAnswered(k, user, accepted) =>
    case Swept(sweep) => EndEachKeepsTables(pow10, s, Ascending(DueIds(s, sweep)), sweep, id);
  }

  /** The event is an accepted submission for this match. */
  predicate Submits(e: Event, id: nat) {
    e.FleetSubmitted? && e.id == id && AcceptsPlacement(e.user, e.ships)
  }

  lemma {:induction false} PlaceFleetElsewhereKeeps(s: Server, k: nat, user: nat, ships: seq<Ship>, coin: bool,
                                                    now: int, id: nat)
    requires StoredTexts(s) && !(k == id && AcceptsPlacement(user, ships))
    ensures var after := PlaceFleet(s, k, user, ships, coin, now);
            (id in after.active <==> id in s.active) && (id in s.active ==> after.active[id] == s.active[id])
  {
    hide FleetTexts, ValidFleet, ParseFleet, Loadable, NewLiveMatch, StoredText;
    if AcceptsPlacement(user, ships) {
      StoreKeepsTexts(s, k, user, ships);
      var stored := Store(s, k, user, ships);
      if BothReady(stored, k) {
        PlacementLoadable(stored, k, stored.rows[k].player1);
        PlacementLoadable(stored, k, stored.rows[k].player2);
      }
    }
  }

  /** An event that is neither a move nor an accepted submission of this match leaves its live match or ends it. */
  lemma {:induction false} NotRestarted(pow10: real -> real, s: Server, e: Event, id: nat)
    requires PowerLike(pow10) && StoredTexts(s) && LiveGrids(s) && !Moves(s, e, id) && !Submits(e, id)
    ensures var after := ServerSpec.Step(pow10, s, e);
            id in after.active ==> id in s.active && after.active[id] == s.active[id]
  {
    hide Rate, PlaceFleet, EndEach, FleetTexts, FullGrids, ProcessMove, ValidFleet, AllShipsSunk;
    match e
    case MatchRegistered(k, player1, player2) =>
    case FleetSubmitted(k, user, ships, coin, now) => PlaceFleetElsewhereKeeps(s, k, user, ships, coin, now, id);
    case MoveMade(k, user, target, now) =>
    case Resigned(k, user) =>
    case DrawAnswered(k, user, accepted) =>
    case Swept(sweep) => EndEachKeepsTables(pow10, s, Ascending(DueIds(s, sweep)), sweep, id);
  }

  lemma {:induction false} RunKeepsTables(pow10: real -> real, start: Ratings, s: Server, events: seq<Event>)
    requires PowerLike(pow10) && Inv(pow10, start, s)
    ensures TablesKept(s, Run(pow10, start, s, events))
    decreases |events|
  {
    hide Inv, ServerSpec.Step, MatchAfter;
    if events != [] {
      var before := Run(pow10, start, s, events[..|events| - 1]);
      RunKeepsTables(pow10, start, s, events[..|events| - 1]);
      InvGrids(pow10, start, before);
      StepMatch(pow10, before, events[|events| - 1], 0);
    }
  }

  /** An accepted submission is what every later game of the match is played with if and only if it is the first one
      of that user or has the same text as the first: a later one with another fleet is never used. */
  lemma {:induction false} SubmissionUsedIff(pow10: real -> real, start: Ratings, s: Server, id: nat, p: nat,
                                             ships: seq<Ship>, coin: bool, now: int, events: seq<Event>)
    requires PowerLike(pow10) && Inv(pow10, start, s) && AcceptsPlacement(p, ships)
    ensures Inv(pow10, start, PlaceFleet(s, id, p, ships, coin, now))
    ensures var after := Run(pow10, start, PlaceFleet(s, id, p, ships, coin, now), events);
            PlacementOf(after, id, p) == StoredText(ships) <==>
            ((id, p) !in s.placements || s.placements[(id, p)] == StoredText(ships))
  {
    PlaceFleetKeepsInv(pow10, start, s, id, p, ships, coin, now);
    InvGrids(pow10, start, s);
    SubmissionStored(s, id, p, ships, coin, now);
    RunKeepsTables(pow10, start, PlaceFleet(s, id, p, ships, coin, now), events);
    hide Inv, PlaceFleet, Run, StoredText, ValidFleet, StoredTexts;
  }

  lemma {:induction false} SubmissionStored(s: Server, id: nat, p: nat, ships: seq<Ship>, coin: bool, now: int)
    requires StoredTexts(s) && AcceptsPlacement(p, ships)
    ensures var after := PlaceFleet(s, id, p, ships, coin, now);
            && (id, p) in after.placements
            && after.placements[(id, p)]
               == (if (id, p) in s.placements then s.placements[(id, p)] else StoredText(ships))
  {
    hide ValidFleet, FleetTexts, Activate, ParseFleet, Loadable, StoredText;
    StoreKeepsTexts(s, id, p, ships);
    if BothReady(Store(s, id, p, ships), id) {
      ActivateKeepsTables(Store(s, id, p, ships), id, coin, now, id);
    }
  }

  // ---------------------------------------------------------------- the players of a live match

  predicate Plays(s: Server, id: nat, p: nat) {
    id in s.rows && (p == s.rows[id].player1 || p == s.rows[id].player2)
  }

  function Foe(s: Server, id: nat, p: nat): nat
    requires id in s.rows
  {
    if p == s.rows[id].player1 then s.rows[id].player2 else s.rows[id].player1
  }

  /** The board a player shoots at, explained from the other player's stored fleet. */
  lemma {:induction false} LiveBoard(pow10: real -> real, start: Ratings, s: Server, id: nat, p: nat)
    requires PowerLike(pow10) && Inv(pow10, start, s) && id in s.active && Plays(s, id, p)
    ensures TargetBoard(s.active[id], p)
         == Shots(View(FleetFrom(PlacementOf(s, id, Foe(s, id, p))), {}), TargetsBy(s.active[id].history, p))
    ensures (id, Foe(s, id, p)) in s.placements
  {
    LiveFacts(pow10, start, s, id);
    hide IsFleetText, TurnLaw, OneLoser, FleetFrom, PlacementOf, Balanced, LogProper, Ledger, LiveHealthy, RowsInOrder;
    var m, row := s.active[id], s.rows[id];
    var setup := Setup(row.player1, row.player2, FleetFrom(PlacementOf(s, id, row.player1)),
                       FleetFrom(PlacementOf(s, id, row.player2)), FirstMover(m));
    assert Explained(setup, m);
    assert ExplainedFor(setup, m, p);
    assert Foe(s, id, p) in ReadySet(s, id);
  }

  /** Whatever happens, a live match keeps its players and both their stored fleets. */
  lemma {:induction false} PlayersKept(pow10: real -> real, start: Ratings, s: Server, e: Event, id: nat, p: nat)
    requires PowerLike(pow10) && Inv(pow10, start, s) && id in s.active && Plays(s, id, p)
    ensures StoredTexts(s) && LiveGrids(s)
    ensures var after := ServerSpec.Step(pow10, s, e);
            && Plays(after, id, p) && Foe(after, id, p) == Foe(s, id, p)
            && PlacementOf(after, id, p) == PlacementOf(s, id, p)
            && PlacementOf(after, id, Foe(s, id, p)) == PlacementOf(s, id, Foe(s, id, p))
  {
    hide Inv, ServerSpec.Step, MatchAfter, FleetFrom;
    InvGrids(pow10, start, s);
    LiveBoard(pow10, start, s, id, p);
    LiveBoard(pow10, start, s, id, Foe(s, id, p));
    StepMatch(pow10, s, e, id);
  }

  /** The move of a live match appends its entry, unless it ends the match. */
  lemma {:induction false} MoveAppends(pow10: real -> real, start: Ratings, s: Server, e: Event, id: nat)
    requires PowerLike(pow10) && Inv(pow10, start, s) && Moves(s, e, id)
    ensures StoredTexts(s) && LiveGrids(s) && Grids(s.active[id]) && Accepts(s.active[id], e.user)
    ensures var after := ServerSpec.Step(pow10, s, e);
            id in after.active ==>
              after.active[id].history == s.active[id].history + [MatchLaws.Entry(s.active[id], e.target, e.now)]
  {
    hide Inv, ServerSpec.Step, ProcessMove, Healthy, MatchLaws.Entry, TablesKept;
    InvGrids(pow10, start, s);
    LiveFacts(pow10, start, s, id);
    StepMatch(pow10, s, e, id);
    MoveFacts(s.active[id], e.target, e.now);
  }

  lemma {:induction false} EntryFields(m: MatchValue, target: Coord, now: int)
    requires Grids(m)
    ensures MatchLaws.Entry(m, target, now).player == m.current && MatchLaws.Entry(m, target, now).target == target
  {
  }
}
