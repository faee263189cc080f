/** How live matches end: by which move, after how long and for whom, what the row and the ratings say afterwards, and
    what the last message tells. (server/src/gameplay_handler.cpp) */
module Endings {
  import opened Protocol
  import opened BoardSpec
  import opened BoardLaws
  import opened BoardRuns
  import opened MatchSpec
  import opened MatchLaws
  import opened FleetText
  import opened FleetLoading
  import opened Elo
  import opened ServerSpec
  import opened SortedKeys
  import opened ServerLaws
  import opened ServerRuns
  import opened ServerTables

  // ---------------------------------------------------------------- ratings and rows

  /** An ending completes the row for its winner, rates its two players fairly and is logged. */
  ghost predicate EndedFor(s: Server, after: Server, id: nat, winner: nat, reason: Reason)
    requires id in s.active
  {
    var m := s.active[id];
    && id in s.rows && id in after.rows && {m.player1, m.player2} == {s.rows[id].player1, s.rows[id].player2}
    && id !in after.active && after.rows[id] == s.rows[id].(winner := winner, completed := true)
    && (forall k :: k in s.rows && k != id ==> k in after.rows && after.rows[k] == s.rows[k])
    && after.log == s.log + [Ended(id, m.player1, m.player2, winner, reason)]
    && RatesFairly(s.ratings, after.ratings, m.player1, m.player2, winner)
  }

  lemma {:induction false} EndingEnds(pow10: real -> real, start: Ratings, s: Server, id: nat, winner: nat,
                                      reason: Reason)
    requires PowerLike(pow10) && Inv(pow10, start, s) && id in s.active
    ensures EndedFor(s, End(pow10, s, id, winner, reason), id, winner, reason)
  {
    hide Healthy, Rate, Balanced, LogProper, RowsTold, Ledger, StoredTexts, ReadyHavePlaced, RatesFairly;
    var m := s.active[id];
    assert HealthyAt(s, id);
    HealthyBasics(s, id);
    RateLaw(pow10, s.ratings, m.player1, m.player2, winner);
  }

  /** Over every run the row of a match is completed exactly when the match has ended, and names the winner of its last
      ending. */
  lemma {:induction false} RowsRecordEndings(pow10: real -> real, ratings: Ratings, events: seq<Event>, id: nat)
    requires PowerLike(pow10)
    ensures Inv(pow10, ratings, FreshServer(ratings))
    ensures var s := Run(pow10, ratings, FreshServer(ratings), events);
            id in s.rows ==>
              (s.rows[id].completed <==> Endings(s.log, id) > 0) && s.rows[id].winner == LastWinner(s.log, id)
  {
    FreshServerInv(pow10, ratings);
    hide LiveHealthy, StoredTexts, RowsInOrder, ReadyHavePlaced, LogProper, Balanced, Ledger, Endings, LastWinner;
    var s := Run(pow10, ratings, FreshServer(ratings), events);
    if id in s.rows {
      assert RowTold(s, id);
    }
  }

  /** Over every run each logged ending moved the ratings fairly: its winner lost no points, its loser gained none, and
      nobody else was touched. */
  lemma {:induction false} EndingsRateFairly(pow10: real -> real, ratings: Ratings, events: seq<Event>, i: nat)
    requires PowerLike(pow10)
    ensures Inv(pow10, ratings, FreshServer(ratings))
    ensures var log := Run(pow10, ratings, FreshServer(ratings), events).log;
            i < |log| && log[i].Ended? ==>
              RatesFairly(Ledger(pow10, ratings, log[..i]), Ledger(pow10, ratings, log[..i + 1]), log[i].player1,
                          log[i].player2, log[i].winner)
  {
    FreshServerInv(pow10, ratings);
    var s := Run(pow10, ratings, FreshServer(ratings), events);
    if i < |s.log| && s.log[i].Ended? {
      EntryRatesFairly(pow10, ratings, s, i);
    }
  }

  lemma {:induction false} EntryRatesFairly(pow10: real -> real, start: Ratings, s: Server, i: nat)
    requires PowerLike(pow10) && Inv(pow10, start, s) && i < |s.log| && s.log[i].Ended?
    ensures var e := s.log[i];
            RatesFairly(Ledger(pow10, start, s.log[..i]), Ledger(pow10, start, s.log[..i + 1]), e.player1, e.player2,
                        e.winner)
  {
    hide LiveHealthy, Balanced, RowsTold, StoredTexts, ReadyHavePlaced, Rate, RatesFairly;
    assert EndingProper(s, s.log[i]);
    LedgerKeepsUsers(pow10, start, s.log);
    LedgerKeepsUsers(pow10, start, s.log[..i]);
    assert s.log[..i + 1] == s.log[..i] + [s.log[i]];
    LogSnoc(pow10, start, s.log[..i], s.log[i], 0);
    RateLaw(pow10, Ledger(pow10, start, s.log[..i]), s.log[i].player1, s.log[i].player2, s.log[i].winner);
  }

  // ---------------------------------------------------------------- the move that ends a match

  /** Five straight ships, and every cell they occupy was shot. */
  ghost predicate FleetSunk(fleet: seq<Ship>, shots: set<Coord>) {
    && |fleet| == NUM_SHIPS && (forall i :: 0 <= i < |fleet| ==> fleet[i].length > 0 && Straight(fleet[i]))
    && FleetCells(fleet) <= shots
  }

  /** The cells that a player has shot in the live game, with one more target. */
  function ShotsWith(m: MatchValue, user: nat, target: Coord): set<Coord> {
    Targets(TargetsBy(m.history, user) + [target])
  }

  function StoredFleet(s: Server, id: nat, user: nat): seq<Ship> {
    FleetFrom(PlacementOf(s, id, user))
  }

  /** The board that a move leaves behind. */
  lemma {:induction false} BoardAfterMove(pow10: real -> real, start: Ratings, s: Server, id: nat, user: nat,
                                          target: Coord, now: int)
    requires PowerLike(pow10) && Inv(pow10, start, s) && Moves(s, MoveMade(id, user, target, now), id)
    ensures Grids(s.active[id]) && Plays(s, id, user)
    ensures var fleet, shots := StoredFleet(s, id, Foe(s, id, user)), ShotsWith(s.active[id], user, target);
            && Deployed(fleet)
            && TargetBoard(ProcessMove(s.active[id], user, target, now).value, user) == View(fleet, shots)
  {
    var m := s.active[id];
    LiveFacts(pow10, start, s, id);
    LiveBoard(pow10, start, s, id, user);
    hide Inv, FleetFrom, View, Deployed, TargetsBy, Sound, Shots, ParseFleet, Loadable, LoadText;
    MoveFacts(m, target, now);
    assert IsFleetText(PlacementOf(s, id, Foe(s, id, user)));
    FleetFromDeployed(PlacementOf(s, id, Foe(s, id, user)));
    var fleet, targets := StoredFleet(s, id, Foe(s, id, user)), TargetsBy(m.history, user);
    ShotsFromStart(fleet, targets + [target]);
    AnswersSnoc(View(fleet, {}), targets, target);
  }

  /** Every move that the server carries out: the match leaves the live ones if and only if the opponent's stored fleet
      is sunk by the mover's targets so far and this one. It then ends for the mover: log, row and ratings say so.
      Otherwise it goes on with the move in its history, and log, rows and ratings stay. */
  lemma {:induction false} MoveEndsIff(pow10: real -> real, start: Ratings, s: Server, id: nat, user: nat,
                                       target: Coord, now: int)
    requires PowerLike(pow10) && Inv(pow10, start, s) && Moves(s, MoveMade(id, user, target, now), id)
    ensures LiveGrids(s) && Grids(s.active[id]) && id in s.rows
    ensures var after, m := MakeMove(pow10, s, id, user, target, now), s.active[id];
            var sunk := FleetSunk(StoredFleet(s, id, Foe(s, id, user)), ShotsWith(m, user, target));
            && (id !in after.active <==> sunk)
            && (sunk ==> EndedFor(s, after, id, user, EndNormal))
            && (!sunk ==>
                 && after == s.(active := after.active)
                 && after.active[id].history == m.history + [MatchLaws.Entry(m, target, now)])
  {
    var fleet, shots := StoredFleet(s, id, Foe(s, id, user)), ShotsWith(s.active[id], user, target);
    hide Inv, End, ProcessMove, View, AllShipsSunk, FleetFrom, FullGrids, MatchLaws.Entry, EndedFor, Deployed,
      FleetCells, ShotsWith, FleetSunk, PlacementOf, TargetBoard, MakeMove;
    InvGrids(pow10, start, s);
    BoardAfterMove(pow10, start, s, id, user, target, now);
    SunkIff(fleet, shots);
    MoveCases(pow10, s, id, user, target, now);
    MoveAppends(pow10, start, s, MoveMade(id, user, target, now), id);
    LiveFacts(pow10, start, s, id);
    EndDrops(pow10, s, id, user, EndNormal);
    EndingEnds(pow10, start, s, id, user, EndNormal);
  }

  lemma {:induction false} SunkIff(fleet: seq<Ship>, shots: set<Coord>)
    requires Deployed(fleet)
    ensures AllShipsSunk(View(fleet, shots)) <==> FleetSunk(fleet, shots)
  {
    AllShipsSunkIff(fleet, shots);
  }

  lemma {:induction false} MoveCases(pow10: real -> real, s: Server, id: nat, user: nat, target: Coord, now: int)
    requires PowerLike(pow10) && LiveGrids(s) && Moves(s, MoveMade(id, user, target, now), id) && Grids(s.active[id])
    requires s.active[id].active && !s.active[id].paused
    ensures var after := MakeMove(pow10, s, id, user, target, now);
            var next := ProcessMove(s.active[id], user, target, now).value;
            if AllShipsSunk(TargetBoard(next, user)) then after == End(pow10, s, id, user, EndNormal)
            else
              && id in after.active && after == s.(active := after.active)
              && after.active[id].history == s.active[id].history + [MatchLaws.Entry(s.active[id], target, now)]
  {
    hide End, AllShipsSunk, FullGrids, MatchLaws.Entry;
    var m := s.active[id];
    MoveFacts(m, target, now);
    hide ProcessMove;
    EndForgetsMove(pow10, s, id, ProcessMove(m, user, target, now).value, user, EndNormal);
  }

  lemma {:induction false} EndDrops(pow10: real -> real, s: Server, id: nat, winner: nat, reason: Reason)
    requires PowerLike(pow10) && id in s.active
    ensures id !in End(pow10, s, id, winner, reason).active
  {
    hide Rate;
  }

  /** The message about a move says whether it ended the match, for whom, and how many of the opponent's ships are
      left. */
  lemma {:induction false} MessageTellsEnd(pow10: real -> real, start: Ratings, s: Server, id: nat, user: nat,
                                           target: Coord, now: int)
    requires PowerLike(pow10) && Inv(pow10, start, s) && Moves(s, MoveMade(id, user, target, now), id)
    ensures LiveGrids(s) && Grids(s.active[id]) && id in s.rows
    ensures var message := MoveMessage(s.active[id], user, target, now);
            var fleet, shots := StoredFleet(s, id, Foe(s, id, user)), ShotsWith(s.active[id], user, target);
            && (message.gameOver <==> id !in MakeMove(pow10, s, id, user, target, now).active)
            && message.winner == (if message.gameOver then user else 0)
            && message.shipsRemaining == NUM_SHIPS - DownCount(fleet, shots)
  {
    InvGrids(pow10, start, s);
    BoardAfterMove(pow10, start, s, id, user, target, now);
    hide Inv, End, ProcessMove, FleetFrom, Healthy, FullGrids, Deployed, SunkType;
    var next := ProcessMove(s.active[id], user, target, now).value;
    EndDrops(pow10, s.(active := s.active[id := next]), id, user, EndNormal);
  }

  // ---------------------------------------------------------------- resignations and draws

  /** A resignation or an accepted draw, from any signed-in user, ends the live match: for the opponent of a resigning
      player, for player 1 when a stranger resigns, and for nobody in a draw. */
  lemma {:induction false} AnswerEnds(pow10: real -> real, start: Ratings, s: Server, id: nat, user: nat)
    requires PowerLike(pow10) && Inv(pow10, start, s) && id in s.active && user != 0
    ensures id in s.rows
    ensures EndedFor(s, Resign(pow10, s, id, user), id,
                     if Plays(s, id, user) then Foe(s, id, user) else s.rows[id].player1, EndResign)
    ensures EndedFor(s, AnswerDraw(pow10, s, id, user, true), id, 0, EndDrawAgreed)
  {
    LiveFacts(pow10, start, s, id);
    EndingEnds(pow10, start, s, id, Opponent(s.active[id], user), EndResign);
    EndingEnds(pow10, start, s, id, 0, EndDrawAgreed);
    hide Inv, End, EndedFor, Healthy;
  }

  // ---------------------------------------------------------------- requests that are ignored

  /** The live match that a move, a resignation or an accepted draw is meant for can take it. */
  predicate Effective(s: Server, e: Event)
    requires e.MoveMade? || e.Resigned? || e.DrawAnswered?
  {
    && e.user != 0 && e.id in s.active
    && (e.MoveMade? ==> s.active[e.id].current == e.user) && (e.DrawAnswered? ==> e.accepted)
  }

  /** A move, a resignation or an answer to a draw changes the server if and only if it comes with a session, meets a
      live match, and, for a move, from the player on turn, for an answer, says yes. */
  lemma {:induction false} RequestIgnoredIff(pow10: real -> real, start: Ratings, s: Server, e: Event)
    requires PowerLike(pow10) && Inv(pow10, start, s) && (e.MoveMade? || e.Resigned? || e.DrawAnswered?)
    ensures StoredTexts(s) && LiveGrids(s)
    ensures ServerSpec.Step(pow10, s, e) == s <==> !Effective(s, e)
  {
    InvGrids(pow10, start, s);
    if Effective(s, e) {
      LiveFacts(pow10, start, s, e.id);
      if e.MoveMade? {
        MoveEndsIff(pow10, start, s, e.id, e.user, e.target, e.now);
      } else {
        AnswerEnds(pow10, start, s, e.id, e.user);
      }
    }
    hide Inv, FleetSunk, End, EndedFor, FullGrids, FleetTexts, ProcessMove, MatchLaws.Entry, Healthy;
  }

  /** A submission without a session, or of a fleet that fails validation, changes nothing. */
  lemma {:induction false} SubmissionIgnored(s: Server, id: nat, user: nat, ships: seq<Ship>, coin: bool, now: int)
    requires StoredTexts(s) && (user == 0 || !ValidFleet(ships))
    ensures PlaceFleet(s, id, user, ships, coin, now) == s
  {
    hide ValidFleet, FleetTexts;
  }

  // ---------------------------------------------------------------- sweeps

  /** A match that a sweep ends is logged once, with its winner and reason, and its row is completed for that winner. */
  ghost predicate SweptFor(s: Server, after: Server, id: nat, winner: nat, reason: Reason)
    requires id in s.active
  {
    && id !in after.active && id in after.rows && |s.log| <= |after.log|
    && Ended(id, s.active[id].player1, s.active[id].player2, winner, reason) in after.log[|s.log|..]
    && Endings(after.log, id) == Endings(s.log, id) + 1
    && after.rows[id].completed && after.rows[id].winner == winner
  }

  lemma {:induction false} EndEachRows(pow10: real -> real, s: Server, ids: seq<nat>, sweep: Sweep)
    requires PowerLike(pow10) && Increasing(ids) && forall id :: id in ids ==> id in s.active && id in s.rows
    ensures var after := EndEach(pow10, s, ids, sweep);
            && (forall id :: id in s.rows && id !in ids ==> id in after.rows && after.rows[id] == s.rows[id])
            && (forall id :: id in ids ==>
                 && id in after.rows && after.rows[id].completed
                 && after.rows[id].winner == SweepWinner(s.active[id], sweep)
                 && Endings(after.log, id) == Endings(s.log, id) + 1)
            && (forall id :: id !in ids ==> Endings(after.log, id) == Endings(s.log, id))
    decreases |ids|
  {
    hide Rate, Endings, SweepWinner, SweepReason, SweepEntries, End;
    if ids != [] {
      var front, last := ids[..|ids| - 1], ids[|ids| - 1];
      assert ids == front + [last];
      EndEachRows(pow10, s, front, sweep);
      EndEachExact(pow10, s, front, sweep);
      assert last !in front;
      var before := EndEach(pow10, s, front, sweep);
      assert last in before.active && before.active[last] == s.active[last];
      hide Elements, Increasing;
      EndOneRow(pow10, before, last, SweepWinner(s.active[last], sweep), SweepReason(sweep));
    }
  }

  lemma {:induction false} EndOneRow(pow10: real -> real, s: Server, id: nat, winner: nat, reason: Reason)
    requires PowerLike(pow10) && id in s.active && id in s.rows
    ensures var after := End(pow10, s, id, winner, reason);
            && after.rows == s.rows[id := s.rows[id].(winner := winner, completed := true)]
            && forall k :: Endings(after.log, k) == Endings(s.log, k) + (if k == id then 1 else 0)
  {
    hide Rate, Endings;
    forall k ensures Endings(End(pow10, s, id, winner, reason).log, k)
                  == Endings(s.log, k) + (if k == id then 1 else 0) {
      EndingCounted(s, id, k, winner, reason);
    }
  }

  lemma {:induction false} EndingCounted(s: Server, id: nat, k: nat, winner: nat, reason: Reason)
    requires id in s.active
    ensures Endings(s.log + [Ended(id, s.active[id].player1, s.active[id].player2, winner, reason)], k)
         == Endings(s.log, k) + (if k == id then 1 else 0)
  {
    var e := Ended(id, s.active[id].player1, s.active[id].player2, winner, reason);
    assert (s.log + [e])[..|s.log|] == s.log;
  }

  /** What a sweep does to one live match. */
  lemma {:induction false} SweepOne(pow10: real -> real, start: Ratings, s: Server, sweep: Sweep, id: nat)
    requires PowerLike(pow10) && Inv(pow10, start, s) && id in s.active
    ensures var after := RunSweep(pow10, s, sweep);
            && (Due(s.active[id], sweep) ==>
                 SweptFor(s, after, id, SweepWinner(s.active[id], sweep), SweepReason(sweep)))
            && (!Due(s.active[id], sweep) ==> id in after.active && after.active[id] == s.active[id])
  {
    hide Inv, Due, EndEach, SweepEntries, SweepWinner, SweepReason, Endings;
    var ids := Ascending(DueIds(s, sweep));
    forall k | k in ids ensures k in s.active && k in s.rows {
      LiveRow(pow10, start, s, k);
    }
    SweepExact(pow10, s, sweep);
    EndEachRows(pow10, s, ids, sweep);
    if Due(s.active[id], sweep) {
      assert id in ids;
      SweepLogs(s, ids, sweep, id);
      assert RunSweep(pow10, s, sweep).log[|s.log|..] == SweepEntries(s, ids, sweep);
    }
  }

  lemma {:induction false} SweepLogs(s: Server, ids: seq<nat>, sweep: Sweep, id: nat)
    requires id in ids && forall k :: k in ids ==> k in s.active
    ensures var m := s.active[id];
            Ended(id, m.player1, m.player2, SweepWinner(m, sweep), SweepReason(sweep)) in SweepEntries(s, ids, sweep)
  {
    hide SweepWinner, SweepReason;
    var i :| 0 <= i < |ids| && ids[i] == id;
    var entries := SweepEntries(s, ids, sweep);
    assert entries[i] in entries;
  }

  lemma {:induction false} LiveRow(pow10: real -> real, start: Ratings, s: Server, id: nat)
    requires PowerLike(pow10) && Inv(pow10, start, s) && id in s.active
    ensures id in s.rows
  {
    assert HealthyAt(s, id);
  }

  /** The timeout sweep, with a clock that has not stepped back behind the beginning of the turn: a live match ends if
      and only if 60 seconds have passed since its last miss or, without one, since its start. It ends for the opponent
      of the player to move. A match whose turn began at time 0 never times out. */
  lemma {:induction false} TimeoutEndsIff(pow10: real -> real, start: Ratings, s: Server, now: int, id: nat)
    requires PowerLike(pow10) && Inv(pow10, start, s) && id in s.active
    requires TurnBegan(s.active[id].history, s.active[id].startTime) <= now
    requires now < TurnBegan(s.active[id].history, s.active[id].startTime) + TWO_TO_THE_64
    ensures id in s.rows
    ensures var after, m := RunSweep(pow10, s, TurnExpired(now)), s.active[id];
            var began := TurnBegan(m.history, m.startTime);
            if began != 0 && now - began >= 60 then SweptFor(s, after, id, Foe(s, id, m.current), EndTimeout)
            else id in after.active && after.active[id] == m
  {
    var m := s.active[id];
    LiveFacts(pow10, start, s, id);
    SweepOne(pow10, start, s, TurnExpired(now), id);
    LiveClock(s, id, now);
    hide Inv, RunSweep, SweptFor, TurnBegan, TurnTimedOut, Healthy;
  }

  lemma {:induction false} LiveClock(s: Server, id: nat, now: int)
    requires id in s.active && id in s.rows
    requires Healthy(s.active[id], s.rows[id], PlacementOf(s, id, s.rows[id].player1),
                     PlacementOf(s, id, s.rows[id].player2), ReadySet(s, id))
    ensures var m := s.active[id];
            var began := TurnBegan(m.history, m.startTime);
            && (began == 0 ==> !TurnTimedOut(m, now))
            && (began != 0 && began <= now < began + TWO_TO_THE_64 ==> (TurnTimedOut(m, now) <==> now - began >= 60))
  {
    hide Sound, IsFleetText, FleetFrom, TurnBegan, TurnTimedOut, TurnTimeRemaining;
    var m, row := s.active[id], s.rows[id];
    SoundClock(Setup(row.player1, row.player2, FleetFrom(PlacementOf(s, id, row.player1)),
                     FleetFrom(PlacementOf(s, id, row.player2)), FirstMover(m)), m, now);
  }

  /** When a user disconnects, a live match ends if and only if that user plays in it, and then for the other player. */
  lemma {:induction false} DisconnectEndsIff(pow10: real -> real, start: Ratings, s: Server, user: nat, id: nat)
    requires PowerLike(pow10) && Inv(pow10, start, s) && id in s.active
    ensures id in s.rows
    ensures var after := RunSweep(pow10, s, Left(user));
            if Plays(s, id, user) then SweptFor(s, after, id, Foe(s, id, user), EndDisconnect)
            else id in after.active && after.active[id] == s.active[id]
  {
    hide Inv, RunSweep, SweptFor, Healthy, Due, SweepWinner;
    LiveFacts(pow10, start, s, id);
    SweepOne(pow10, start, s, Left(user), id);
    LeftCases(s, id, user);
  }

  lemma {:induction false} LeftCases(s: Server, id: nat, user: nat)
    requires id in s.active && id in s.rows
    requires s.active[id].player1 == s.rows[id].player1 && s.active[id].player2 == s.rows[id].player2
    ensures Due(s.active[id], Left(user)) <==> Plays(s, id, user)
    ensures Plays(s, id, user) ==> SweepWinner(s.active[id], Left(user)) == Foe(s, id, user)
  {
  }
}
