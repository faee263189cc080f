/** Whole runs of the server: safety, one rating per ending, silence after an ending, exact sweeps. */
module ServerRuns {
  import opened Protocol
  import opened BoardSpec
  import opened BoardLaws
  import opened Deployment
  import opened MatchSpec
  import opened MatchLaws
  import opened FleetText
  import opened FleetLoading
  import opened Elo
  import opened ServerSpec
  import opened SortedKeys
  import opened ServerLaws

  // ---------------------------------------------------------------- runs

  /** A server with its users, before any match. */
  function FreshServer(ratings: Ratings): Server {
    Server(map[], map[], map[], map[], ratings, [])
  }

  lemma {:induction false} FreshServerInv(pow10: real -> real, ratings: Ratings)
    requires PowerLike(pow10)
    ensures Inv(pow10, ratings, FreshServer(ratings))
  {
  }

  /** The server after a list of events; its postcondition is the invariant over all runs. */
  ghost function Run(pow10: real -> real, start: Ratings, s: Server, events: seq<Event>): (r: Server)
    requires PowerLike(pow10) && Inv(pow10, start, s)
    ensures Inv(pow10, start, r)
    decreases |events|
  {
    if events == [] then s
    else
      var before := Run(pow10, start, s, events[..|events| - 1]);
      StepKeepsInv(pow10, start, before, events[|events| - 1]);
      Step(pow10, before, events[|events| - 1])
  }

  /** In every reachable state a live match is running, belongs to the two players of its row, has a
      player to move among them, shows no sunk fleet, and both players are ready. */
  lemma {:induction false} LiveMatchesSafe(pow10: real -> real, ratings: Ratings, events: seq<Event>, id: nat)
    requires PowerLike(pow10)
    ensures Inv(pow10, ratings, FreshServer(ratings))
    ensures var s := Run(pow10, ratings, FreshServer(ratings), events);
            id in s.active ==>
              var m := s.active[id];
              && id in s.rows && m.active && !m.paused
              && m.player1 == s.rows[id].player1 && m.player2 == s.rows[id].player2 && m.player1 != m.player2
              && (m.current == m.player1 || m.current == m.player2)
              && !AllShipsSunk(m.board1) && !AllShipsSunk(m.board2)
              && m.player1 in ReadySet(s, id) && m.player2 in ReadySet(s, id)
  {
    FreshServerInv(pow10, ratings);
    var s := Run(pow10, ratings, FreshServer(ratings), events);
    InvGrids(pow10, ratings, s);
    if id in s.active {
      assert HealthyAt(s, id);
      HealthyAfloat(s, id);
    }
  }

  lemma {:induction false} HealthyAfloat(s: Server, id: nat)
    requires id in s.active && HealthyAt(s, id) && RowsInOrder(s)
    ensures var m := s.active[id];
            && m.active && !m.paused && m.player1 == s.rows[id].player1 && m.player2 == s.rows[id].player2
            && m.player1 != m.player2 && (m.current == m.player1 || m.current == m.player2)
            && !AllShipsSunk(m.board1) && !AllShipsSunk(m.board2)
            && m.player1 in ReadySet(s, id) && m.player2 in ReadySet(s, id)
  {
    HealthyBasics(s, id);
  }

  /** Per match: activations are endings plus overwrites plus the live one; and the ratings are the
      initial ones with the Elo update applied exactly once for each ending. */
  lemma {:induction false} EndedOnceRatedOnce(pow10: real -> real, ratings: Ratings, events: seq<Event>, id: nat)
    requires PowerLike(pow10)
    ensures Inv(pow10, ratings, FreshServer(ratings))
    ensures var s := Run(pow10, ratings, FreshServer(ratings), events);
            && Activations(s.log, id) == Endings(s.log, id) + Overwrites(s.log, id) + (if id in s.active then 1 else 0)
            && s.ratings == Ledger(pow10, ratings, s.log)
  {
    hide LiveHealthy, StoredTexts, RowsInOrder, ReadyHavePlaced, LogProper;
    FreshServerInv(pow10, ratings);
    assert BalancedAt(Run(pow10, ratings, FreshServer(ratings), events), id);
  }

  // ---------------------------------------------------------------- rating drift

  function EndingCount(log: seq<Entry>): nat {
    if log == [] then 0
    else EndingCount(log[..|log| - 1]) + (if log[|log| - 1].Ended? then 1 else 0)
  }

  ghost predicate RatedPlayers(start: Ratings, users: seq<nat>, e: Entry) {
    e.Ended? ==>
      && e.player1 != e.player2 && e.player1 in start && e.player2 in start
      && e.player1 in users && e.player2 in users
  }

  lemma {:induction false} LedgerDrift(pow10: real -> real, start: Ratings, log: seq<Entry>, users: seq<nat>)
    requires PowerLike(pow10) && Distinct(users)
    requires forall i :: 0 <= i < |log| ==> RatedPlayers(start, users, log[i])
    ensures Ledger(pow10, start, log).Keys == start.Keys
    ensures Total(Ledger(pow10, start, log), users) - Total(start, users) <= EndingCount(log)
    ensures Total(start, users) - Total(Ledger(pow10, start, log), users) <= EndingCount(log)
    decreases |log|
  {
    hide Rate;
    if log != [] {
      var front, last := log[..|log| - 1], log[|log| - 1];
      assert forall i :: 0 <= i < |front| ==> front[i] == log[i];
      LedgerDrift(pow10, start, front, users);
      if last.Ended? {
        RateKeepsTotal(pow10, Ledger(pow10, start, front), users, last.player1, last.player2, last.winner);
      }
    }
  }

  /** After n endings the total of all ratings has drifted by at most n points. */
  lemma {:induction false} RatingDrift(pow10: real -> real, ratings: Ratings, events: seq<Event>, users: seq<nat>)
    requires PowerLike(pow10) && Distinct(users) && forall u :: u in ratings ==> u in users
    ensures Inv(pow10, ratings, FreshServer(ratings))
    ensures var s := Run(pow10, ratings, FreshServer(ratings), events);
            && Total(s.ratings, users) - Total(ratings, users) <= EndingCount(s.log)
            && Total(ratings, users) - Total(s.ratings, users) <= EndingCount(s.log)
  {
    FreshServerInv(pow10, ratings);
    InvDrift(pow10, ratings, Run(pow10, ratings, FreshServer(ratings), events), users);
  }

  lemma {:induction false} InvDrift(pow10: real -> real, start: Ratings, s: Server, users: seq<nat>)
    requires PowerLike(pow10) && Inv(pow10, start, s) && Distinct(users) && forall u :: u in start ==> u in users
    ensures Total(s.ratings, users) - Total(start, users) <= EndingCount(s.log)
    ensures Total(start, users) - Total(s.ratings, users) <= EndingCount(s.log)
  {
    hide LiveHealthy, StoredTexts, ReadyHavePlaced, Balanced;
    LedgerKeepsUsers(pow10, start, s.log);
    forall i | 0 <= i < |s.log| ensures RatedPlayers(start, users, s.log[i]) {
      assert EndingProper(s, s.log[i]);
    }
    LedgerDrift(pow10, start, s.log, users);
  }

  lemma {:induction false} LedgerKeepsUsers(pow10: real -> real, start: Ratings, log: seq<Entry>)
    requires PowerLike(pow10)
    ensures Ledger(pow10, start, log).Keys == start.Keys
    decreases |log|
  {
    if log != [] {
      LedgerKeepsUsers(pow10, start, log[..|log| - 1]);
    }
  }

  // ---------------------------------------------------------------- sweeps

  /** The entries a sweep writes, in the order of the match ids. */
  function SweepEntries(s: Server, ids: seq<nat>, sweep: Sweep): (entries: seq<Entry>)
    requires forall id :: id in ids ==> id in s.active
    ensures |entries| == |ids|
    ensures forall i :: 0 <= i < |ids| ==>
      var m := s.active[ids[i]];
      entries[i] == Ended(ids[i], m.player1, m.player2, SweepWinner(m, sweep), SweepReason(sweep))
    decreases |ids|
  {
    if ids == [] then []
    else
      var last := ids[|ids| - 1];
      var m := s.active[last];
      SweepEntries(s, ids[..|ids| - 1], sweep) +
      [Ended(last, m.player1, m.player2, SweepWinner(m, sweep), SweepReason(sweep))]
  }

  lemma {:induction false} EndEachExact(pow10: real -> real, s: Server, ids: seq<nat>, sweep: Sweep)
    requires PowerLike(pow10) && Increasing(ids) && forall id :: id in ids ==> id in s.active
    ensures var after := EndEach(pow10, s, ids, sweep);
            && after.active == s.active - Elements(ids) && after.ready == s.ready - Elements(ids)
            && after.log == s.log + SweepEntries(s, ids, sweep)
            && after.placements == s.placements
    decreases |ids|
  {
    if ids == [] {
      assert s.active - Elements(ids) == s.active && s.ready - Elements(ids) == s.ready;
    } else {
      hide Rate, Elements, Increasing;
      MinusLast(s.active, ids);
      EndEachExact(pow10, s, ids[..|ids| - 1], sweep);
      ReadyMinusLast(s.ready, ids);
    }
  }

  lemma {:induction false} ReadyMinusLast(ready: map<nat, set<nat>>, ids: seq<nat>)
    requires ids != []
    ensures ready - Elements(ids) == (ready - Elements(ids[..|ids| - 1])) - {ids[|ids| - 1]}
  {
    assert ids == ids[..|ids| - 1] + [ids[|ids| - 1]];
  }

  /** A sweep ends exactly the matches that are due, each won by the opponent of the late or absent
      player, leaves every other match untouched, and afterwards no live match is due. */
  lemma {:induction false} SweepExact(pow10: real -> real, s: Server, sweep: Sweep)
    requires PowerLike(pow10)
    ensures var after, due := RunSweep(pow10, s, sweep), DueIds(s, sweep);
            && after.active == s.active - due && after.ready == s.ready - due && after.placements == s.placements
            && after.log == s.log + SweepEntries(s, Ascending(due), sweep)
            && (forall id :: id in after.active ==> !Due(after.active[id], sweep))
  {
    hide EndEach, Due, SweepEntries;
    var due := DueIds(s, sweep);
    EndEachExact(pow10, s, Ascending(due), sweep);
    ElementsAscending(due);
  }

  /** In a sound state the winner that a sweep names is one of the players and never the loser. */
  lemma {:induction false} SweepWinnerIsOpponent(pow10: real -> real, start: Ratings, s: Server, sweep: Sweep, id: nat)
    requires PowerLike(pow10) && Inv(pow10, start, s) && id in DueIds(s, sweep)
    ensures var m := s.active[id];
            var loser := if sweep.Left? then sweep.user else m.current;
            {loser, SweepWinner(m, sweep)} == {m.player1, m.player2} && loser != SweepWinner(m, sweep)
  {
    hide Inv, Healthy, TurnTimedOut, StoredTexts, LiveGrids, ReadyHavePlaced;
    InvGrids(pow10, start, s);
    assert HealthyAt(s, id);
    HealthyBasics(s, id);
    SweepWinnerCases(s.active[id], sweep);
  }

  lemma {:induction false} SweepWinnerCases(m: MatchValue, sweep: Sweep)
    requires m.player1 != m.player2 && (m.current == m.player1 || m.current == m.player2) && Due(m, sweep)
    ensures var loser := if sweep.Left? then sweep.user else m.current;
            {loser, SweepWinner(m, sweep)} == {m.player1, m.player2} && loser != SweepWinner(m, sweep)
  {
    hide TurnTimedOut;
  }

  // ---------------------------------------------------------------- silence after an ending

  function EntriesOf(log: seq<Entry>, id: nat): seq<Entry> {
    if log == [] then []
    else EntriesOf(log[..|log| - 1], id) + (if log[|log| - 1].id == id then [log[|log| - 1]] else [])
  }

  lemma {:induction false} EntriesOfAppend(log: seq<Entry>, more: seq<Entry>, id: nat)
    requires forall i :: 0 <= i < |more| ==> more[i].id != id
    ensures EntriesOf(log + more, id) == EntriesOf(log, id)
    decreases |more|
  {
    if more == [] {
      assert log + more == log;
    } else {
      var front, last := more[..|more| - 1], more[|more| - 1];
      EntriesOfAppend(log, front, id);
      assert (log + more)[..|log + more| - 1] == log + front;
    }
  }

  /** The users whose placements for a match are accepted during a list of events. */
  function Placers(events: seq<Event>, id: nat): set<nat> {
    if events == [] then {}
    else
      var last := events[|events| - 1];
      Placers(events[..|events| - 1], id) +
      (if last.FleetSubmitted? && last.id == id && AcceptsPlacement(last.user, last.ships) then {last.user} else {})
  }

  /** What concerns one match: live or not, who is ready, its row, and its log entries. */
  ghost predicate Quiet(before: Server, after: Server, id: nat, placers: set<nat>) {
    && id !in after.active
    && ReadySet(after, id) == ReadySet(before, id) + placers
    && id in before.rows && id in after.rows && after.rows[id] == before.rows[id]
    && EntriesOf(after.log, id) == EntriesOf(before.log, id)
  }

  lemma {:induction false} EndElsewhere(pow10: real -> real, s: Server, k: nat, winner: nat, reason: Reason, id: nat)
    requires PowerLike(pow10) && k in s.active && id !in s.active && id in s.rows
    ensures Quiet(s, End(pow10, s, k, winner, reason), id, {})
  {
    hide Rate;
    var m := s.active[k];
    EntriesOfAppend(s.log, [Ended(k, m.player1, m.player2, winner, reason)], id);
  }

  lemma {:induction false} EndEachElsewhere(pow10: real -> real, s: Server, ids: seq<nat>, sweep: Sweep, id: nat)
    requires PowerLike(pow10) && id !in s.active && id in s.rows
    ensures Quiet(s, EndEach(pow10, s, ids, sweep), id, {})
    decreases |ids|
  {
    hide End;
    if ids != [] {
      var before, k := EndEach(pow10, s, ids[..|ids| - 1], sweep), ids[|ids| - 1];
      EndEachElsewhere(pow10, s, ids[..|ids| - 1], sweep, id);
      if k in before.active {
        EndElsewhere(pow10, before, k, SweepWinner(before.active[k], sweep), SweepReason(sweep), id);
      }
    }
  }

  lemma {:induction false} StoreElsewhere(s: Server, k: nat, user: nat, ships: seq<Ship>, id: nat, placers: set<nat>)
    requires id !in s.active && id in s.rows && placers == (if k == id then {user} else {})
    ensures Quiet(s, Store(s, k, user, ships), id, placers)
  {
    hide StoredText, EntriesOf;
  }

  lemma {:induction false} ActivateElsewhere(s: Server, stored: Server, k: nat, coin: bool, now: int, id: nat,
                                             placers: set<nat>)
    requires Quiet(s, stored, id, placers) && k in stored.rows && k != id
    requires Loadable(ParseFleet(PlacementOf(stored, k, stored.rows[k].player1)).records)
    requires Loadable(ParseFleet(PlacementOf(stored, k, stored.rows[k].player2)).records)
    ensures Quiet(s, Activate(stored, k, coin, now), id, placers)
  {
    hide NewLiveMatch, FleetTexts, PlacementOf, Loadable, ParseFleet, EntriesOf;
    var overwritten := if k in stored.active then [Overwritten(k)] else [];
    EntriesOfAppend(stored.log, overwritten, id);
    EntriesOfAppend(stored.log + overwritten, [Activated(k)], id);
  }

  lemma {:induction false} PlaceFleetElsewhere(s: Server, k: nat, user: nat, ships: seq<Ship>, coin: bool, now: int,
                                               id: nat, placers: set<nat>)
    requires StoredTexts(s) && id !in s.active && id in s.rows
    requires placers == (if k == id && AcceptsPlacement(user, ships) then {user} else {})
    requires placers != {} ==> !({s.rows[id].player1, s.rows[id].player2} <= ReadySet(s, id) + placers)
    ensures Quiet(s, PlaceFleet(s, k, user, ships, coin, now), id, placers)
  {
    if AcceptsPlacement(user, ships) {
      var stored := Store(s, k, user, ships);
      StoreElsewhere(s, k, user, ships, id, placers);
      StoreKeepsTexts(s, k, user, ships);
      assert stored.rows == s.rows;
      hide Store, FleetTexts, Quiet, NewLiveMatch;
      if BothReady(stored, k) {
        assert k != id by {
          assert {stored.rows[k].player1, stored.rows[k].player2} <= ReadySet(stored, k);
        }
        PlacementLoadable(stored, k, stored.rows[k].player1);
        PlacementLoadable(stored, k, stored.rows[k].player2);
        ActivateElsewhere(s, stored, k, coin, now, id, placers);
        hide Activate;
      }
    }
  }

  lemma {:induction false} MakeMoveElsewhere(pow10: real -> real, s: Server, k: nat, user: nat, target: Coord,
                                             now: int, id: nat)
    requires PowerLike(pow10) && LiveGrids(s) && id !in s.active && id in s.rows
    ensures Quiet(s, MakeMove(pow10, s, k, user, target, now), id, {})
  {
    hide End, ProcessMove, AllShipsSunk;
    if user != 0 && k in s.active && s.active[k].current == user {
      var next := ProcessMove(s.active[k], user, target, now).value;
      var moved := s.(active := s.active[k := next]);
      if AllShipsSunk(TargetBoard(next, user)) {
        EndElsewhere(pow10, moved, k, user, EndNormal, id);
      }
    }
  }

  /** Both players are ready, be it from before or by placements accepted meanwhile, and some placement was accepted. */
  ghost predicate BothPlaced(s: Server, events: seq<Event>, id: nat)
    requires id in s.rows
  {
    Placers(events, id) != {} && {s.rows[id].player1, s.rows[id].player2} <= ReadySet(s, id) + Placers(events, id)
  }

  lemma {:induction false} PlacersOne(e: Event, id: nat)
    ensures Placers([e], id)
         == if e.FleetSubmitted? && e.id == id && AcceptsPlacement(e.user, e.ships) then {e.user} else {}
  {
    assert [e][..0] == [];
  }

  lemma {:induction false} QuietStep(pow10: real -> real, s: Server, e: Event, id: nat)
    requires PowerLike(pow10) && StoredTexts(s) && LiveGrids(s) && id !in s.active && id in s.rows
    requires !BothPlaced(s, [e], id)
    ensures Quiet(s, Step(pow10, s, e), id, Placers([e], id))
  {
    hide PlaceFleet, MakeMove, EndEach, End, Placers;
    PlacersOne(e, id);
    match e
    case MatchRegistered(k, player1, player2) =>
    case FleetSubmitted(k, user, ships, coin, now) =>
      PlaceFleetElsewhere(s, k, user, ships, coin, now, id, Placers([e], id));
    case MoveMade(k, user, target, now) => MakeMoveElsewhere(pow10, s, k, user, target, now, id);
    case Resigned(k, user) =>
      if user != 0 && k in s.active { EndElsewhere(pow10, s, k, Opponent(s.active[k], user), EndResign, id); }
    case DrawAnswered(k, user, accepted) =>
      if user != 0 && accepted && k in s.active { EndElsewhere(pow10, s, k, 0, EndDrawAgreed, id); }
    case Swept(sweep) => EndEachElsewhere(pow10, s, Ascending(DueIds(s, sweep)), sweep, id);
  }

  lemma {:induction false} PlacersSnoc(front: seq<Event>, last: Event, id: nat)
    ensures Placers(front + [last], id) == Placers(front, id) + Placers([last], id)
  {
    assert [last][..0] == [];
    assert (front + [last])[..|front|] == front;
  }

  /** Nothing happens to a match that is not live until both its players are ready and a placement is accepted: no
      event starts, moves, ends or rates it, and exactly the users whose placements were accepted become ready. */
  lemma {:induction false} QuietUntilBothPlace(pow10: real -> real, start: Ratings, s: Server, events: seq<Event>,
                                               id: nat)
    requires PowerLike(pow10) && Inv(pow10, start, s) && id !in s.active && id in s.rows
    requires !BothPlaced(s, events, id)
    ensures Quiet(s, Run(pow10, start, s, events), id, Placers(events, id))
    decreases |events|
  {
    hide Inv, Step, Placers;
    if events == [] {
      NoPlacers(id);
    } else {
      var front, last := events[..|events| - 1], events[|events| - 1];
      assert events == front + [last];
      PlacersSnoc(front, last, id);
      var before := Run(pow10, start, s, front);
      QuietUntilBothPlace(pow10, start, s, front, id);
      InvGrids(pow10, start, before);
      QuietStep(pow10, before, last, id);
    }
  }

  lemma {:induction false} NoPlacers(id: nat)
    ensures Placers([], id) == {}
  {
  }

  /** An accepted placement that completes the two players makes the match live. */
  lemma {:induction false} CompletingActivates(pow10: real -> real, s: Server, e: Event, id: nat)
    requires PowerLike(pow10) && StoredTexts(s) && LiveGrids(s) && id in s.rows && BothPlaced(s, [e], id)
    ensures id in Step(pow10, s, e).active
  {
    hide ParseFleet, Loadable, FleetTexts, NewLiveMatch, ValidFleet, StoredText, Placers;
    PlacersOne(e, id);
    var stored := Store(s, id, e.user, e.ships);
    StoreKeepsTexts(s, id, e.user, e.ships);
    assert BothReady(stored, id);
    PlacementLoadable(stored, id, stored.rows[id].player1);
    PlacementLoadable(stored, id, stored.rows[id].player2);
  }

  lemma {:induction false} PlacersGrow(events: seq<Event>, i: nat, id: nat)
    requires i <= |events|
    ensures Placers(events[..i], id) <= Placers(events, id)
    decreases |events|
  {
    if i < |events| {
      var front := events[..|events| - 1];
      PlacersGrow(front, i, id);
      assert front[..i] == events[..i];
    } else {
      assert events[..i] == events;
    }
  }

  /** A match that is not live gets live at some point of a run if and only if both its players are ready, be it from
      before or by placements accepted during the run, and some placement for it is accepted, whoever sends it and
      whatever happens in between. */
  lemma {:induction false} GetsLiveIff(pow10: real -> real, start: Ratings, s: Server, events: seq<Event>, id: nat)
    requires PowerLike(pow10) && Inv(pow10, start, s) && id !in s.active && id in s.rows
    ensures (exists i :: 0 <= i <= |events| && id in Run(pow10, start, s, events[..i]).active) <==>
            BothPlaced(s, events, id)
  {
    hide Inv, Run, Placers;
    if BothPlaced(s, events, id) {
      var i := LivePoint(pow10, start, s, events, id);
    } else {
      forall i | 0 <= i <= |events| ensures id !in Run(pow10, start, s, events[..i]).active {
        PlacersGrow(events, i, id);
        QuietUntilBothPlace(pow10, start, s, events[..i], id);
      }
    }
  }

  lemma {:induction false} LivePoint(pow10: real -> real, start: Ratings, s: Server, events: seq<Event>, id: nat)
    returns (i: nat)
    requires PowerLike(pow10) && Inv(pow10, start, s) && id !in s.active && id in s.rows && BothPlaced(s, events, id)
    ensures i <= |events| && id in Run(pow10, start, s, events[..i]).active
    decreases |events|
  {
    hide Inv, Placers, Step;
    NoPlacers(id);
    var front, last := events[..|events| - 1], events[|events| - 1];
    assert events == front + [last];
    PlacersSnoc(front, last, id);
    if BothPlaced(s, front, id) {
      i := LivePoint(pow10, start, s, front, id);
      assert front[..i] == events[..i];
    } else {
      i := |events|;
      assert events[..i] == events;
      var before := Run(pow10, start, s, front);
      QuietUntilBothPlace(pow10, start, s, front, id);
      InvGrids(pow10, start, before);
      CompletingActivates(pow10, before, last, id);
    }
  }

  /** A new match between the players of its row: the drawn one moves first, and the clocks start now. */
  predicate JustStarted(m: MatchValue, row: Row, firstIsPlayer1: bool, now: int) {
    && m.player1 == row.player1 && m.player2 == row.player2
    && m.current == (if firstIsPlayer1 then row.player1 else row.player2)
    && m.active && !m.paused && m.history == [] && m.turnNumber == 1
    && m.startTime == now && m.turnStart == now && m.turnTimeLimit == 60
  }

  /** Two accepted placements, one of each player, are enough: afterwards the match is live, it was activated,
      and by the second placement. */
  lemma {:induction false} BothPlacementsActivate(pow10: real -> real, start: Ratings, s: Server, id: nat,
                                                  ships1: seq<Ship>, coin1: bool, now1: int,
                                                  ships2: seq<Ship>, coin2: bool, now2: int)
    requires PowerLike(pow10) && Inv(pow10, start, s) && id in s.rows && ValidFleet(ships1) && ValidFleet(ships2)
    ensures var row := s.rows[id];
            var half := PlaceFleet(s, id, row.player1, ships1, coin1, now1);
            && StoredTexts(half)
            && var after := PlaceFleet(half, id, row.player2, ships2, coin2, now2);
               && id in after.active && after.log != half.log && after.log[|after.log| - 1] == Activated(id)
               && JustStarted(after.active[id], row, coin2, now2)
  {
    hide Inv, ValidFleet, PlaceFleet, StoredTexts;
    InvGrids(pow10, start, s);
    RowUsers(pow10, start, s, id);
    PlaceFleetKeepsInv(pow10, start, s, id, s.rows[id].player1, ships1, coin1, now1);
    FirstPlacement(s, id, ships1, coin1, now1);
    var half := PlaceFleet(s, id, s.rows[id].player1, ships1, coin1, now1);
    InvGrids(pow10, start, half);
    SecondPlacement(half, id, ships2, coin2, now2);
  }

  lemma {:induction false} RowUsers(pow10: real -> real, start: Ratings, s: Server, id: nat)
    requires PowerLike(pow10) && Inv(pow10, start, s) && id in s.rows
    ensures s.rows[id].player1 != 0 && s.rows[id].player2 != 0 && s.rows[id].player1 != s.rows[id].player2
  {
    hide LiveHealthy, Balanced, LogProper, Ledger, ReadyHavePlaced, StoredTexts, RowsTold;
  }

  lemma {:induction false} FirstPlacement(s: Server, id: nat, ships: seq<Ship>, coin: bool, now: int)
    requires StoredTexts(s) && id in s.rows && ValidFleet(ships) && s.rows[id].player1 != 0
    ensures var after := PlaceFleet(s, id, s.rows[id].player1, ships, coin, now);
            after.rows == s.rows && s.rows[id].player1 in ReadySet(after, id)
  {
    hide FleetTexts, ValidFleet, ParseFleet, Loadable, NewLiveMatch, StoredText;
    var stored := Store(s, id, s.rows[id].player1, ships);
    StoreKeepsTexts(s, id, s.rows[id].player1, ships);
    if BothReady(stored, id) {
      PlacementLoadable(stored, id, stored.rows[id].player1);
      PlacementLoadable(stored, id, stored.rows[id].player2);
    }
  }

  lemma {:induction false} SecondPlacement(s: Server, id: nat, ships: seq<Ship>, coin: bool, now: int)
    requires StoredTexts(s) && id in s.rows && ValidFleet(ships)
    requires s.rows[id].player2 != 0 && s.rows[id].player1 in ReadySet(s, id)
    ensures var after := PlaceFleet(s, id, s.rows[id].player2, ships, coin, now);
            && id in after.active && after.log != s.log && after.log[|after.log| - 1] == Activated(id)
            && JustStarted(after.active[id], s.rows[id], coin, now)
  {
    hide FleetTexts, ValidFleet, ParseFleet, Loadable, NewLiveMatch, StoredText, JustStarted;
    var stored := Store(s, id, s.rows[id].player2, ships);
    StoreKeepsTexts(s, id, s.rows[id].player2, ships);
    PlacementLoadable(stored, id, stored.rows[id].player1);
    PlacementLoadable(stored, id, stored.rows[id].player2);
    assert BothReady(stored, id);
    BuiltStarted(stored, id, coin, now);
    assert PlaceFleet(s, id, s.rows[id].player2, ships, coin, now).log[|s.log|..] != [];
  }

  lemma {:induction false} BuiltStarted(s: Server, id: nat, coin: bool, now: int)
    requires id in s.rows
    requires Loadable(ParseFleet(PlacementOf(s, id, s.rows[id].player1)).records)
    requires Loadable(ParseFleet(PlacementOf(s, id, s.rows[id].player2)).records)
    ensures JustStarted(NewLiveMatch(s, id, s.rows[id], coin, now), s.rows[id], coin, now)
  {
    hide ParseFleet, Loadable, LoadText, PlacementOf;
  }

  /** An ending takes the match off the live ones, forgets who was ready, keeps its players, and is logged once. */
  lemma {:induction false} EndingIsClean(pow10: real -> real, s: Server, id: nat, winner: nat, reason: Reason)
    requires PowerLike(pow10) && id in s.active && id in s.rows
    ensures var after := End(pow10, s, id, winner, reason);
            && id !in after.active && ReadySet(after, id) == {} && id in after.rows
            && after.rows[id].player1 == s.rows[id].player1 && after.rows[id].player2 == s.rows[id].player2
            && Endings(after.log, id) == Endings(s.log, id) + 1
  {
    hide Rate;
    var m := s.active[id];
    assert (s.log + [Ended(id, m.player1, m.player2, winner, reason)])[..|s.log|] == s.log;
  }

  /** After an ending nothing happens to the match until placements of both its players have been accepted again. */
  lemma {:induction false} EndedStaysQuiet(pow10: real -> real, start: Ratings, s: Server, id: nat, winner: nat,
                                           reason: Reason, events: seq<Event>)
    requires PowerLike(pow10) && Inv(pow10, start, s) && id in s.active && id in s.rows
    requires winner in {0, s.active[id].player1, s.active[id].player2}
    requires !({s.rows[id].player1, s.rows[id].player2} <= Placers(events, id))
    ensures var ended := End(pow10, s, id, winner, reason);
            Inv(pow10, start, ended) && Quiet(ended, Run(pow10, start, ended, events), id, Placers(events, id))
  {
    EndKeepsInv(pow10, start, s, id, winner, reason);
    EndingIsClean(pow10, s, id, winner, reason);
    hide Inv, End, Placers, Run;
    QuietUntilBothPlace(pow10, start, End(pow10, s, id, winner, reason), events, id);
  }

  // ---------------------------------------------------------------- who wins

  /** A resignation is accepted from any signed-in user. It ends the match, and the winner it names is the
      opponent of the resigning user if and only if that user plays in the match; otherwise it is player 1. */
  lemma {:induction false} ResignationWinner(pow10: real -> real, start: Ratings, s: Server, id: nat, user: nat)
    requires PowerLike(pow10) && Inv(pow10, start, s) && id in s.active && user != 0
    ensures var m, after := s.active[id], Resign(pow10, s, id, user);
            var winner := Opponent(m, user);
            && id !in after.active && after.log == s.log + [Ended(id, m.player1, m.player2, winner, EndResign)]
            && ({user, winner} == {m.player1, m.player2} <==> user == m.player1 || user == m.player2)
            && (user != m.player1 && user != m.player2 ==> winner == m.player1)
  {
    hide Inv, Healthy, Rate, Opponent, StoredTexts, LiveGrids, ReadyHavePlaced;
    InvGrids(pow10, start, s);
    assert HealthyAt(s, id);
    HealthyBasics(s, id);
    OpponentCases(s.active[id], user);
  }

  lemma {:induction false} OpponentCases(m: MatchValue, user: nat)
    requires m.player1 != m.player2
    ensures {user, Opponent(m, user)} == {m.player1, m.player2} <==> user == m.player1 || user == m.player2
    ensures user != m.player1 ==> Opponent(m, user) == m.player1
  {
    assert user in {user, Opponent(m, user)};
  }

  /** An accepted draw is accepted from any signed-in user, whether a draw was offered or not: it ends a live match
      if and only if it comes with a session and says yes. One of the players has then agreed if and only if the
      user plays in the match, and never have both. */
  lemma {:induction false} DrawEndsIff(pow10: real -> real, start: Ratings, s: Server, id: nat, user: nat,
                                       accepted: bool)
    requires PowerLike(pow10) && Inv(pow10, start, s) && id in s.active
    ensures var m, after := s.active[id], AnswerDraw(pow10, s, id, user, accepted);
            && (id !in after.active <==> user != 0 && accepted)
            && (id !in after.active ==> after.log == s.log + [Ended(id, m.player1, m.player2, 0, EndDrawAgreed)])
            && (id in after.active ==> after == s)
            && var agreed := {user} * {m.player1, m.player2};
               (agreed != {} <==> user == m.player1 || user == m.player2) && agreed != {m.player1, m.player2}
  {
    hide Inv, Healthy, Rate, StoredTexts, LiveGrids, ReadyHavePlaced;
    InvGrids(pow10, start, s);
    assert HealthyAt(s, id);
    HealthyBasics(s, id);
    AgreedCases(user, s.active[id].player1, s.active[id].player2);
  }

  lemma {:induction false} AgreedCases(user: nat, player1: nat, player2: nat)
    requires player1 != player2
    ensures var agreed := {user} * {player1, player2};
            (agreed != {} <==> user == player1 || user == player2) && agreed != {player1, player2}
  {
    var agreed := {user} * {player1, player2};
    assert user in {player1, player2} ==> user in agreed;
    assert player1 in agreed && player2 in agreed ==> player1 == user && player2 == user;
    assert player1 in {player1, player2} && player2 in {player1, player2};
  }

  // ---------------------------------------------------------------- placements during a match

  /** A placement for a live match replaces it if and only if the submission is accepted, whoever sends it. The new
      match has an empty history, is in turn 1 and shows the first stored fleets; no other match is touched. A
      refused submission changes nothing. */
  lemma {:induction false} PlacementReplacesIff(pow10: real -> real, start: Ratings, s: Server, id: nat, user: nat,
                                                ships: seq<Ship>, coin: bool, now: int)
    requires PowerLike(pow10) && Inv(pow10, start, s) && id in s.active
    ensures StoredTexts(s) && id in s.rows
    ensures var row := s.rows[id];
            Loadable(ParseFleet(PlacementOf(s, id, row.player1)).records) &&
            Loadable(ParseFleet(PlacementOf(s, id, row.player2)).records)
    ensures var after, row := PlaceFleet(s, id, user, ships, coin, now), s.rows[id];
            && (after.log == s.log + [Overwritten(id), Activated(id)] <==> AcceptsPlacement(user, ships))
            && (AcceptsPlacement(user, ships) ==>
                 && after.active.Keys == s.active.Keys
                 && (forall k :: k in s.active && k != id ==> after.active[k] == s.active[k])
                 && JustStarted(after.active[id], row, coin, now)
                 && after.active[id].board1 == LoadText(EmptyBoard(), PlacementOf(s, id, row.player1))
                 && after.active[id].board2 == LoadText(EmptyBoard(), PlacementOf(s, id, row.player2)))
            && (!AcceptsPlacement(user, ships) ==> after == s)
  {
    hide Inv, Healthy, FleetTexts, LiveGrids, ReadyHavePlaced, ParseFleet, Loadable, LoadText, Store, Activate,
      ValidFleet;
    InvGrids(pow10, start, s);
    assert HealthyAt(s, id);
    HealthyBasics(s, id);
    PlacementLoadable(s, id, s.rows[id].player1);
    PlacementLoadable(s, id, s.rows[id].player2);
    if AcceptsPlacement(user, ships) {
      StoreKeepsTexts(s, id, user, ships);
      StoreOfLive(s, id, user, ships);
      ActivateReplaces(Store(s, id, user, ships), id, coin, now);
    } else {
      assert |s.log| != |s.log + [Overwritten(id), Activated(id)]|;
    }
  }

  lemma {:induction false} StoreOfLive(s: Server, id: nat, user: nat, ships: seq<Ship>)
    requires id in s.rows && ReadyHavePlaced(s)
    requires s.rows[id].player1 in ReadySet(s, id) && s.rows[id].player2 in ReadySet(s, id)
    ensures var stored := Store(s, id, user, ships);
            && stored.active == s.active && stored.rows == s.rows && stored.log == s.log && BothReady(stored, id)
            && PlacementOf(stored, id, s.rows[id].player1) == PlacementOf(s, id, s.rows[id].player1)
            && PlacementOf(stored, id, s.rows[id].player2) == PlacementOf(s, id, s.rows[id].player2)
  {
    StoreKeepsReadPlacements(s, id, user, ships, id, s.rows[id].player1);
    StoreKeepsReadPlacements(s, id, user, ships, id, s.rows[id].player2);
    hide StoredText, PlacementOf;
  }

  lemma {:induction false} ActivateReplaces(s: Server, id: nat, coin: bool, now: int)
    requires id in s.rows && id in s.active
    requires Loadable(ParseFleet(PlacementOf(s, id, s.rows[id].player1)).records)
    requires Loadable(ParseFleet(PlacementOf(s, id, s.rows[id].player2)).records)
    ensures var after, row := Activate(s, id, coin, now), s.rows[id];
            && after.log == s.log + [Overwritten(id), Activated(id)] && after.active.Keys == s.active.Keys
            && (forall k :: k in s.active && k != id ==> after.active[k] == s.active[k])
            && JustStarted(after.active[id], row, coin, now)
            && after.active[id].board1 == LoadText(EmptyBoard(), PlacementOf(s, id, row.player1))
            && after.active[id].board2 == LoadText(EmptyBoard(), PlacementOf(s, id, row.player2))
  {
    hide ParseFleet, Loadable, LoadText, PlacementOf;
    assert s.log + [Overwritten(id)] + [Activated(id)] == s.log + [Overwritten(id), Activated(id)];
  }

  /** In particular a user who does not play in a match can replace it. */
  lemma {:induction false} StrangerReplaces(pow10: real -> real, start: Ratings, s: Server, id: nat, user: nat,
                                            ships: seq<Ship>, coin: bool, now: int)
    requires PowerLike(pow10) && Inv(pow10, start, s) && id in s.active && ValidFleet(ships)
    requires user !in {0, s.active[id].player1, s.active[id].player2}
    ensures StoredTexts(s)
    ensures var after := PlaceFleet(s, id, user, ships, coin, now);
            && after.log == s.log + [Overwritten(id), Activated(id)]
            && id in after.active && after.active[id].history == []
            && (s.active[id].history != [] ==> after.active[id] != s.active[id])
  {
    PlacementReplacesIff(pow10, start, s, id, user, ships, coin, now);
  }

  /** A run of four events: user 3 replaces the live match of users 1 and 2. */
  function StrangerEvents(ships: seq<Ship>): seq<Event> {
    [MatchRegistered(7, 1, 2), FleetSubmitted(7, 1, ships, true, 0), FleetSubmitted(7, 2, ships, true, 0),
     FleetSubmitted(7, 3, ships, false, 0)]
  }

  lemma {:induction false} RunNext(pow10: real -> real, start: Ratings, s: Server, events: seq<Event>, k: nat)
    requires PowerLike(pow10) && Inv(pow10, start, s) && k < |events|
    ensures StoredTexts(Run(pow10, start, s, events[..k])) && LiveGrids(Run(pow10, start, s, events[..k]))
    ensures Run(pow10, start, s, events[..k + 1]) == Step(pow10, Run(pow10, start, s, events[..k]), events[k])
  {
    hide Inv, Step;
    assert events[..k + 1][..k] == events[..k];
    InvGrids(pow10, start, Run(pow10, start, s, events[..k]));
  }

  lemma {:induction false} StrangerSteps(pow10: real -> real, start: Ratings, s: Server, ships: seq<Ship>)
    requires PowerLike(pow10) && Inv(pow10, start, s)
    ensures var events := StrangerEvents(ships);
            var registered, half := Run(pow10, start, s, events[..1]), Run(pow10, start, s, events[..2]);
            var live := Run(pow10, start, s, events[..3]);
            && registered == Register(s, 7, 1, 2)
            && StoredTexts(registered) && half == PlaceFleet(registered, 7, 1, ships, true, 0)
            && StoredTexts(half) && live == PlaceFleet(half, 7, 2, ships, true, 0)
            && StoredTexts(live) && Run(pow10, start, s, events) == PlaceFleet(live, 7, 3, ships, false, 0)
  {
    var events := StrangerEvents(ships);
    hide Inv, PlaceFleet, Register, StoredTexts, LiveGrids;
    assert events[..0] == [] && events[..4] == events;
    assert Run(pow10, start, s, events[..0]) == s;
    hide Run;
    RunNext(pow10, start, s, events, 0);
    RunNext(pow10, start, s, events, 1);
    RunNext(pow10, start, s, events, 2);
    RunNext(pow10, start, s, events, 3);
  }

  lemma {:induction false} StrangerRun(pow10: real -> real, ratings: Ratings, ships: seq<Ship>)
    requires PowerLike(pow10) && ValidFleet(ships) && 1 in ratings && 2 in ratings
    ensures Inv(pow10, ratings, FreshServer(ratings))
    ensures var live := Run(pow10, ratings, FreshServer(ratings), StrangerEvents(ships)[..3]);
            var after := Run(pow10, ratings, FreshServer(ratings), StrangerEvents(ships));
            && 7 in live.active && live.active[7].player1 == 1 && live.active[7].player2 == 2
            && after.log == live.log + [Overwritten(7), Activated(7)]
  {
    FreshServerInv(pow10, ratings);
    var s, events := FreshServer(ratings), StrangerEvents(ships);
    StrangerSteps(pow10, ratings, s, ships);
    assert Register(s, 7, 1, 2).rows == map[7 := Row(1, 2, 0, false)];
    hide Inv, ValidFleet, PlaceFleet, Run, StrangerEvents, Register, FreshServer, StoredTexts;
    var registered, half := Run(pow10, ratings, s, events[..1]), Run(pow10, ratings, s, events[..2]);
    var live := Run(pow10, ratings, s, events[..3]);
    BothPlacementsActivate(pow10, ratings, registered, 7, ships, true, 0, ships, true, 0);
    PlaceFleetKeepsRow(registered, 7, 1, ships, true, 0);
    PlaceFleetKeepsRow(half, 7, 2, ships, true, 0);
    LivePlayers(pow10, ratings, live, 7);
    StrangerReplaces(pow10, ratings, live, 7, 3, ships, false, 0);
  }

  lemma {:induction false} PlaceFleetKeepsRow(s: Server, id: nat, user: nat, ships: seq<Ship>, coin: bool, now: int)
    requires StoredTexts(s)
    ensures PlaceFleet(s, id, user, ships, coin, now).rows == s.rows
  {
    hide ParseFleet, Loadable, LoadText, FleetTexts, ValidFleet, StoredText, NewLiveMatch;
    if AcceptsPlacement(user, ships) {
      StoreKeepsTexts(s, id, user, ships);
      var stored := Store(s, id, user, ships);
      if BothReady(stored, id) {
        PlacementLoadable(stored, id, stored.rows[id].player1);
        PlacementLoadable(stored, id, stored.rows[id].player2);
      }
    }
  }

  lemma {:induction false} LivePlayers(pow10: real -> real, start: Ratings, s: Server, id: nat)
    requires PowerLike(pow10) && Inv(pow10, start, s) && id in s.active
    ensures id in s.rows
    ensures s.active[id].player1 == s.rows[id].player1 && s.active[id].player2 == s.rows[id].player2
  {
    hide Inv, Healthy;
    InvGrids(pow10, start, s);
    assert HealthyAt(s, id);
    HealthyBasics(s, id);
  }

  /** The move that ends a live match has sunk the fleet that the opponent's stored submission describes, so
      that submission had no overlapping ships and no stray orientations. */
  lemma {:induction false} NormalEndNeedsSinkableFleet(pow10: real -> real, start: Ratings, s: Server, id: nat,
                                                       target: Coord,
                                                       now: int, ships: seq<Ship>)
    requires PowerLike(pow10) && Inv(pow10, start, s) && id in s.active && ValidFleet(ships)
    requires PlacementOf(s, id, Opponent(s.active[id], s.active[id].current)) == StoredText(ships)
    ensures Grids(s.active[id])
    ensures var m := s.active[id];
            AllShipsSunk(TargetBoard(ProcessMove(m, m.current, target, now).value, m.current)) ==>
            PairwiseApart(ships) && AllStraight(ships)
  {
    InvGrids(pow10, start, s);
    assert HealthyAt(s, id);
    HealthyBasics(s, id);
    var m, row := s.active[id], s.rows[id];
    var setup := Setup(row.player1, row.player2, FleetFrom(PlacementOf(s, id, row.player1)),
                       FleetFrom(PlacementOf(s, id, row.player2)), FirstMover(m));
    MoveKeepsSound(setup, m, m.current, target, now);
    SoundSinks(setup, ProcessMove(m, m.current, target, now).value, m.current, StoredText(ships));
    LoadedFleetSinkableIff(ships);
  }

  /** A fleet that is sunk in a sound match could be sunk. */
  lemma {:induction false} SoundSinks(s: Setup, m: MatchValue, p: nat, text: string)
    requires Sound(s, m) && (p == s.player1 || p == s.player2)
    requires IsFleetText(text) && Prey(s, p) == FleetFrom(text)
    ensures Loadable(ParseFleet(text).records)
    ensures AllShipsSunk(TargetBoard(m, p)) ==> Sinkable(LoadText(EmptyBoard(), text))
  {
    FleetFromDeployed(text);
    assert ExplainedFor(s, m, p);
  }
}
