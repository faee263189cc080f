/** What every handler step keeps, and what follows for whole runs of the server. */
module ServerLaws {
  import opened Protocol
  import opened BoardSpec
  import opened BoardLaws
  import opened BoardRuns
  import opened MatchSpec
  import opened MatchLaws
  import opened FleetText
  import opened FleetLoading
  import opened Elo
  import opened ServerSpec
  import opened SortedKeys

  // ---------------------------------------------------------------- fleets behind stored texts

  function FleetFrom(text: string): seq<Ship> {
    if Loadable(ParseFleet(text).records) then LoadText(EmptyBoard(), text).ships else []
  }

  lemma {:induction false} FleetFromDeployed(text: string)
    requires IsFleetText(text)
    ensures Loadable(ParseFleet(text).records)
    ensures Deployed(FleetFrom(text)) && LoadText(EmptyBoard(), text) == View(FleetFrom(text), {})
  {
    var ships :| ValidFleet(ships) && text == StoredText(ships);
    LoadStored(ships);
    KeptUnhurt(Kept(ships));
  }

  lemma {:induction false} KeptUnhurt(fleet: seq<Ship>)
    requires Deployed(fleet)
    ensures View(fleet, {}).ships == fleet
  {
    forall s | s in fleet ensures Unhurt(s) && Inside(s) {
    }
    UnshotView(fleet);
  }

  // ---------------------------------------------------------------- the invariant

  /** The player who moved first, read off the player to move and the number of misses. */
  function FirstMover(m: MatchValue): nat {
    if Misses(m.history) % 2 == 0 then m.current else Opponent(m, m.current)
  }

  /** A live match: running, between the two players of its row, who are both ready, and with a
      history that explains both boards from the stored fleets; in particular neither is sunk. */
  ghost predicate Healthy(m: MatchValue, row: Row, text1: string, text2: string, ready: set<nat>) {
    && IsFleetText(text1) && IsFleetText(text2)
    && row.player1 in ready && row.player2 in ready
    && m.active
    && Sound(Setup(row.player1, row.player2, FleetFrom(text1), FleetFrom(text2), FirstMover(m)), m)
  }

  ghost predicate HealthyAt(s: Server, id: nat)
    requires id in s.active
  {
    && id in s.rows
    && Healthy(s.active[id], s.rows[id], PlacementOf(s, id, s.rows[id].player1),
               PlacementOf(s, id, s.rows[id].player2), ReadySet(s, id))
  }

  ghost predicate LiveHealthy(s: Server) {
    forall id :: id in s.active ==> HealthyAt(s, id)
  }

  /** Facts of the database: two different registered players per match. */
  ghost predicate RowsInOrder(s: Server) {
    forall id :: id in s.rows ==>
      var row := s.rows[id];
      && row.player1 != row.player2 && row.player1 != 0 && row.player2 != 0
      && row.player1 in s.ratings && row.player2 in s.ratings
  }

  ghost predicate ReadyHavePlaced(s: Server) {
    forall id, user :: id in s.ready && user in s.ready[id] ==> (id, user) in s.placements
  }

  function Activations(log: seq<Entry>, id: nat): nat {
    if log == [] then 0
    else Activations(log[..|log| - 1], id) + (if log[|log| - 1] == Activated(id) then 1 else 0)
  }

  function Overwrites(log: seq<Entry>, id: nat): nat {
    if log == [] then 0
    else Overwrites(log[..|log| - 1], id) + (if log[|log| - 1] == Overwritten(id) then 1 else 0)
  }

  function Endings(log: seq<Entry>, id: nat): nat {
    if log == [] then 0
    else Endings(log[..|log| - 1], id) + (if log[|log| - 1].Ended? && log[|log| - 1].id == id then 1 else 0)
  }

  /** Every activation of a match is ended or overwritten once, except the live one. */
  ghost predicate Balanced(s: Server) {
    forall id :: BalancedAt(s, id)
  }

  ghost predicate BalancedAt(s: Server, id: nat) {
    Activations(s.log, id) == Endings(s.log, id) + Overwrites(s.log, id) + (if id in s.active then 1 else 0)
  }

  lemma {:induction false} SameBalance(s: Server, after: Server)
    requires Balanced(s) && after.log == s.log && after.active.Keys == s.active.Keys
    ensures Balanced(after)
  {
    forall id ensures BalancedAt(after, id) {
      assert BalancedAt(s, id);
    }
  }

  /** The ratings after applying the Elo update once per ending, in log order. */
  function Ledger(pow10: real -> real, start: Ratings, log: seq<Entry>): Ratings
    requires PowerLike(pow10)
  {
    if log == [] then start
    else
      var before := Ledger(pow10, start, log[..|log| - 1]);
      var last := log[|log| - 1];
      if last.Ended? then Rate(pow10, before, last.player1, last.player2, last.winner) else before
  }

  /** Every ending names the two players of its match, and one of them or nobody as the winner. */
  ghost predicate EndingProper(s: Server, e: Entry) {
    e.Ended? ==>
      && e.id in s.rows
      && e.player1 == s.rows[e.id].player1 && e.player2 == s.rows[e.id].player2
      && e.winner in {0, e.player1, e.player2}
  }

  ghost predicate LogProper(s: Server) {
    forall i :: 0 <= i < |s.log| ==> EndingProper(s, s.log[i])
  }

  /** The winner of the last ending of a match; 0 when there is none. */
  function LastWinner(log: seq<Entry>, id: nat): nat {
    if log == [] then 0
    else
      var last := log[|log| - 1];
      if last.Ended? && last.id == id then last.winner else LastWinner(log[..|log| - 1], id)
  }

  /** A row is completed exactly when the match has ended, and names the winner of its last ending. */
  ghost predicate RowTold(s: Server, id: nat)
    requires id in s.rows
  {
    (s.rows[id].completed <==> Endings(s.log, id) > 0) && s.rows[id].winner == LastWinner(s.log, id)
  }

  ghost predicate RowsTold(s: Server) {
    forall id :: id in s.rows ==> RowTold(s, id)
  }

  ghost predicate Inv(pow10: real -> real, start: Ratings, s: Server)
    requires PowerLike(pow10)
  {
    && StoredTexts(s) && LiveHealthy(s) && RowsInOrder(s) && ReadyHavePlaced(s) && Balanced(s) && LogProper(s)
    && RowsTold(s)
    && s.ratings == Ledger(pow10, start, s.log)
  }

  lemma {:induction false} HealthyBasics(s: Server, id: nat)
    requires id in s.active && HealthyAt(s, id)
    ensures var m, row := s.active[id], s.rows[id];
            && Grids(m) && m.active && !m.paused && m.player1 == row.player1 && m.player2 == row.player2
            && (m.current == row.player1 || m.current == row.player2)
            && row.player1 in ReadySet(s, id) && row.player2 in ReadySet(s, id)
  {
  }

  /** A match stays healthy when more players are ready. */
  lemma {:induction false} HealthyGrows(m: MatchValue, row: Row, text1: string, text2: string, ready: set<nat>,
                                        more: set<nat>)
    requires Healthy(m, row, text1, text2, ready) && ready <= more
    ensures Healthy(m, row, text1, text2, more)
  {
    hide Sound, IsFleetText, FleetFrom;
  }

  lemma {:induction false} HealthyGrids(s: Server)
    requires LiveHealthy(s)
    ensures LiveGrids(s)
  {
    forall id | id in s.active ensures Grids(s.active[id]) {
      HealthyBasics(s, id);
    }
  }

  // ---------------------------------------------------------------- the log grows by one entry

  lemma {:induction false} LogSnoc(pow10: real -> real, start: Ratings, log: seq<Entry>, e: Entry, id: nat)
    requires PowerLike(pow10)
    ensures Activations(log + [e], id) == Activations(log, id) + (if e == Activated(id) then 1 else 0)
    ensures Overwrites(log + [e], id) == Overwrites(log, id) + (if e == Overwritten(id) then 1 else 0)
    ensures Endings(log + [e], id) == Endings(log, id) + (if e.Ended? && e.id == id then 1 else 0)
    ensures LastWinner(log + [e], id) == if e.Ended? && e.id == id then e.winner else LastWinner(log, id)
    ensures Ledger(pow10, start, log + [e])
         == if e.Ended? then Rate(pow10, Ledger(pow10, start, log), e.player1, e.player2, e.winner)
            else Ledger(pow10, start, log)
  {
    assert (log + [e])[..|log|] == log;
  }

  lemma {:induction false} RateKeepsUsers(pow10: real -> real, ratings: Ratings, player1: nat, player2: nat,
                                          winner: nat)
    requires PowerLike(pow10)
    ensures Rate(pow10, ratings, player1, player2, winner).Keys == ratings.Keys
  {
  }

  // ---------------------------------------------------------------- one ending

  lemma {:induction false} EndKeepsInv(pow10: real -> real, start: Ratings, s: Server, id: nat, winner: nat,
                                       reason: Reason)
    requires PowerLike(pow10) && Inv(pow10, start, s) && id in s.active
    requires winner in {0, s.active[id].player1, s.active[id].player2}
    ensures Inv(pow10, start, End(pow10, s, id, winner, reason))
  {
    hide LiveHealthy, RowsInOrder, ReadyHavePlaced, Balanced, LogProper, RowsTold, StoredTexts, LiveGrids, End, Ledger;
    HealthyGrids(s);
    EndKeepsRows(pow10, start, s, id, winner, reason);
    EndKeepsTexts(pow10, s, id, winner, reason);
    EndKeepsTables(pow10, s, id, winner, reason);
    EndKeepsHealthy(pow10, s, id, winner, reason);
    EndKeepsLogProper(pow10, s, id, winner, reason);
    EndKeepsLedger(pow10, start, s, id, winner, reason);
  }

  lemma {:induction false} EndKeepsTables(pow10: real -> real, s: Server, id: nat, winner: nat, reason: Reason)
    requires PowerLike(pow10) && id in s.active && RowsInOrder(s) && ReadyHavePlaced(s)
    ensures RowsInOrder(End(pow10, s, id, winner, reason)) && ReadyHavePlaced(End(pow10, s, id, winner, reason))
  {
    RateKeepsUsers(pow10, s.ratings, s.active[id].player1, s.active[id].player2, winner);
    hide Rate;
  }

  lemma {:induction false} EndKeepsRows(pow10: real -> real, start: Ratings, s: Server, id: nat, winner: nat,
                                        reason: Reason)
    requires PowerLike(pow10) && id in s.active && RowsTold(s)
    ensures RowsTold(End(pow10, s, id, winner, reason))
  {
    hide Rate, Ledger, Activations, Endings, Overwrites, LastWinner;
    var m := s.active[id];
    var after := End(pow10, s, id, winner, reason);
    forall k | k in after.rows ensures RowTold(after, k) {
      assert RowTold(s, k);
      LogSnoc(pow10, start, s.log, Ended(id, m.player1, m.player2, winner, reason), k);
    }
  }

  /** The rows of a server whose log tells the same endings. */
  lemma {:induction false} SameRowsTold(s: Server, after: Server)
    requires RowsTold(s) && after.rows == s.rows
    requires forall id ::
      Endings(after.log, id) == Endings(s.log, id) && LastWinner(after.log, id) == LastWinner(s.log, id)
    ensures RowsTold(after)
  {
    hide Endings, LastWinner;
    forall id | id in after.rows ensures RowTold(after, id) {
      assert RowTold(s, id);
    }
  }

  lemma {:induction false} EndKeepsLedger(pow10: real -> real, start: Ratings, s: Server, id: nat, winner: nat,
                                          reason: Reason)
    requires PowerLike(pow10) && id in s.active && Balanced(s) && s.ratings == Ledger(pow10, start, s.log)
    ensures var after := End(pow10, s, id, winner, reason);
            Balanced(after) && after.ratings == Ledger(pow10, start, after.log)
  {
    hide Rate, Ledger, Activations, Endings, Overwrites;
    var m := s.active[id];
    var after := End(pow10, s, id, winner, reason);
    var e := Ended(id, m.player1, m.player2, winner, reason);
    LogSnoc(pow10, start, s.log, e, id);
    forall k ensures BalancedAt(after, k) {
      LogSnoc(pow10, start, s.log, e, k);
      assert BalancedAt(s, k);
    }
  }

  lemma {:induction false} EndKeepsLogProper(pow10: real -> real, s: Server, id: nat, winner: nat, reason: Reason)
    requires PowerLike(pow10) && id in s.active && LiveHealthy(s) && LogProper(s)
    requires winner in {0, s.active[id].player1, s.active[id].player2}
    ensures LogProper(End(pow10, s, id, winner, reason))
  {
    hide Healthy, Rate;
    HealthyBasics(s, id);
    var after := End(pow10, s, id, winner, reason);
    forall i | 0 <= i < |after.log| ensures EndingProper(after, after.log[i]) {
      assert i < |s.log| ==> EndingProper(s, s.log[i]);
    }
  }

  lemma {:induction false} EndKeepsHealthy(pow10: real -> real, s: Server, id: nat, winner: nat, reason: Reason)
    requires PowerLike(pow10) && id in s.active && LiveHealthy(s)
    ensures LiveHealthy(End(pow10, s, id, winner, reason))
  {
    hide Healthy;
    var after := End(pow10, s, id, winner, reason);
    forall k | k in after.active ensures HealthyAt(after, k) {
      assert HealthyAt(s, k);
      assert after.active[k] == s.active[k] && after.rows[k] == s.rows[k];
    }
  }

  // ---------------------------------------------------------------- a move

  lemma {:induction false} MoveKeepsHealthy(m: MatchValue, row: Row, text1: string, text2: string, ready: set<nat>,
                                            target: Coord, now: int)
    requires Healthy(m, row, text1, text2, ready)
    ensures Grids(m)
    ensures var next := ProcessMove(m, m.current, target, now).value;
            !AllShipsSunk(TargetBoard(next, m.current)) ==> Healthy(next, row, text1, text2, ready)
  {
    var setup := Setup(row.player1, row.player2, FleetFrom(text1), FleetFrom(text2), FirstMover(m));
    var next := ProcessMove(m, m.current, target, now).value;
    MoveKeepsSound(setup, m, m.current, target, now);
    MoveFacts(m, target, now);
    assert FirstMover(next) == setup.first;
  }

  lemma {:induction false} InvGrids(pow10: real -> real, start: Ratings, s: Server)
    requires PowerLike(pow10) && Inv(pow10, start, s)
    ensures StoredTexts(s) && LiveHealthy(s) && LiveGrids(s) && RowsInOrder(s) && ReadyHavePlaced(s)
  {
    HealthyGrids(s);
  }

  /** An ending forgets the last state of the match. */
  lemma {:induction false} EndForgetsMove(pow10: real -> real, s: Server, id: nat, next: MatchValue, winner: nat,
                                          reason: Reason)
    requires PowerLike(pow10) && id in s.active
    requires next.player1 == s.active[id].player1 && next.player2 == s.active[id].player2
    ensures End(pow10, s.(active := s.active[id := next]), id, winner, reason) == End(pow10, s, id, winner, reason)
  {
    hide Rate;
    assert s.active[id := next] - {id} == s.active - {id};
  }

  lemma {:induction false} MakeMoveKeepsInv(pow10: real -> real, start: Ratings, s: Server, id: nat, user: nat,
                                            target: Coord, now: int)
    requires PowerLike(pow10) && Inv(pow10, start, s)
    ensures LiveGrids(s) && Inv(pow10, start, MakeMove(pow10, s, id, user, target, now))
  {
    hide Inv, Healthy, ProcessMove, End, AllShipsSunk;
    InvGrids(pow10, start, s);
    if user != 0 && id in s.active && s.active[id].current == user {
      var m := s.active[id];
      var next := ProcessMove(m, user, target, now).value;
      HealthyBasics(s, id);
      MoveFacts(m, target, now);
      EndForgetsMove(pow10, s, id, next, user, EndNormal);
      if AllShipsSunk(TargetBoard(next, user)) {
        EndKeepsInv(pow10, start, s, id, user, EndNormal);
      } else {
        MovedKeepsInv(pow10, start, s, id, target, now);
      }
    }
  }

  lemma {:induction false} MovedKeepsInv(pow10: real -> real, start: Ratings, s: Server, id: nat, target: Coord,
                                         now: int)
    requires PowerLike(pow10) && Inv(pow10, start, s) && id in s.active && Grids(s.active[id])
    requires var m := s.active[id];
             !AllShipsSunk(TargetBoard(ProcessMove(m, m.current, target, now).value, m.current))
    ensures var m := s.active[id];
            Inv(pow10, start, s.(active := s.active[id := ProcessMove(m, m.current, target, now).value]))
  {
    hide Healthy, ProcessMove, AllShipsSunk, StoredText, ValidFleet;
    var m := s.active[id];
    var moved := s.(active := s.active[id := ProcessMove(m, m.current, target, now).value]);
    assert HealthyAt(s, id);
    MoveKeepsHealthy(m, s.rows[id], PlacementOf(s, id, s.rows[id].player1),
                     PlacementOf(s, id, s.rows[id].player2), ReadySet(s, id), target, now);
    forall k | k in moved.active ensures HealthyAt(moved, k) {
      assert HealthyAt(s, k);
    }
    SameBalance(s, moved);
    SameRowsTold(s, moved);
  }

  // ---------------------------------------------------------------- a placement

  lemma {:induction false} StoreKeepsInv(pow10: real -> real, start: Ratings, s: Server, id: nat, user: nat,
                                         ships: seq<Ship>)
    requires PowerLike(pow10) && Inv(pow10, start, s) && ValidFleet(ships)
    ensures Inv(pow10, start, Store(s, id, user, ships))
  {
    hide Healthy, StoredText, ValidFleet;
    var stored := Store(s, id, user, ships);
    StoreKeepsTexts(s, id, user, ships);
    forall k | k in stored.active ensures HealthyAt(stored, k) {
      HealthyBasics(s, k);
      StoreKeepsReadPlacements(s, id, user, ships, k, s.rows[k].player1);
      StoreKeepsReadPlacements(s, id, user, ships, k, s.rows[k].player2);
      HealthyGrows(s.active[k], s.rows[k], PlacementOf(s, k, s.rows[k].player1),
                   PlacementOf(s, k, s.rows[k].player2), ReadySet(s, k), ReadySet(stored, k));
    }
    SameBalance(s, stored);
    SameRowsTold(s, stored);
  }

  /** A placement once stored is what every later reading returns. */
  lemma {:induction false} StoreKeepsReadPlacements(s: Server, id: nat, user: nat, ships: seq<Ship>, k: nat, p: nat)
    requires ReadyHavePlaced(s) && p in ReadySet(s, k)
    ensures PlacementOf(Store(s, id, user, ships), k, p) == PlacementOf(s, k, p)
  {
    assert (k, p) in s.placements;
  }

  lemma {:induction false} NewMatchHealthy(s: Server, id: nat, firstIsPlayer1: bool, now: int)
    requires StoredTexts(s) && RowsInOrder(s) && ReadyHavePlaced(s) && BothReady(s, id)
    ensures var row := s.rows[id];
            var text1, text2 := PlacementOf(s, id, row.player1), PlacementOf(s, id, row.player2);
            && Loadable(ParseFleet(text1).records) && Loadable(ParseFleet(text2).records)
            && Healthy(NewLiveMatch(s, id, row, firstIsPlayer1, now), row, text1, text2, ReadySet(s, id))
  {
    hide Sound, StoredText, ValidFleet, ParseFleet, PlaceAll, View;
    var row := s.rows[id];
    var text1, text2 := PlacementOf(s, id, row.player1), PlacementOf(s, id, row.player2);
    assert (id, row.player1) in s.placements && (id, row.player2) in s.placements;
    FleetFromDeployed(text1);
    FleetFromDeployed(text2);
    var first := if firstIsPlayer1 then row.player1 else row.player2;
    var setup := Setup(row.player1, row.player2, FleetFrom(text1), FleetFrom(text2), first);
    StartedSound(setup, now);
    assert NewLiveMatch(s, id, row, firstIsPlayer1, now) == StartedMatch(setup, now);
  }

  lemma {:induction false} ActivateKeepsInv(pow10: real -> real, start: Ratings, s: Server, id: nat,
                                            firstIsPlayer1: bool, now: int)
    requires PowerLike(pow10) && Inv(pow10, start, s) && BothReady(s, id)
    ensures Loadable(ParseFleet(PlacementOf(s, id, s.rows[id].player1)).records)
    ensures Loadable(ParseFleet(PlacementOf(s, id, s.rows[id].player2)).records)
    ensures Inv(pow10, start, Activate(s, id, firstIsPlayer1, now))
  {
    hide Healthy, NewLiveMatch, StoredText, ValidFleet, ParseFleet;
    NewMatchHealthy(s, id, firstIsPlayer1, now);
    var after := Activate(s, id, firstIsPlayer1, now);
    var mid := s.log + (if id in s.active then [Overwritten(id)] else []);
    forall k | k in after.active ensures HealthyAt(after, k) {
      assert k != id ==> HealthyAt(s, k);
    }
    LogActivated(pow10, start, s, id, id);
    forall k ensures BalancedAt(after, k) {
      LogActivated(pow10, start, s, id, k);
      assert BalancedAt(s, k);
    }
    forall k ensures Endings(after.log, k) == Endings(s.log, k) && LastWinner(after.log, k) == LastWinner(s.log, k) {
      LogActivated(pow10, start, s, id, k);
    }
    SameRowsTold(s, after);
  }

  lemma {:induction false} LogActivated(pow10: real -> real, start: Ratings, s: Server, id: nat, k: nat)
    requires PowerLike(pow10)
    ensures var log := s.log + (if id in s.active then [Overwritten(id)] else []) + [Activated(id)];
            && Activations(log, k) == Activations(s.log, k) + (if k == id then 1 else 0)
            && Overwrites(log, k) == Overwrites(s.log, k) + (if k == id && id in s.active then 1 else 0)
            && Endings(log, k) == Endings(s.log, k) && LastWinner(log, k) == LastWinner(s.log, k)
            && Ledger(pow10, start, log) == Ledger(pow10, start, s.log)
  {
    var mid := s.log + (if id in s.active then [Overwritten(id)] else []);
    if id in s.active {
      LogSnoc(pow10, start, s.log, Overwritten(id), k);
    } else {
      assert mid == s.log;
    }
    LogSnoc(pow10, start, mid, Activated(id), k);
  }

  lemma {:induction false} PlaceFleetKeepsInv(pow10: real -> real, start: Ratings, s: Server, id: nat, user: nat,
                                              ships: seq<Ship>, coin: bool, now: int)
    requires PowerLike(pow10) && Inv(pow10, start, s)
    ensures Inv(pow10, start, PlaceFleet(s, id, user, ships, coin, now))
  {
    if AcceptsPlacement(user, ships) {
      var stored := Store(s, id, user, ships);
      StoreKeepsInv(pow10, start, s, id, user, ships);
      if BothReady(stored, id) {
        ActivateKeepsInv(pow10, start, stored, id, coin, now);
      }
    }
  }

  lemma {:induction false} RegisterKeepsInv(pow10: real -> real, start: Ratings, s: Server, id: nat, player1: nat,
                                            player2: nat)
    requires PowerLike(pow10) && Inv(pow10, start, s)
    ensures Inv(pow10, start, Register(s, id, player1, player2))
  {
    hide Healthy, StoredText, ValidFleet;
    var after := Register(s, id, player1, player2);
    forall k | k in after.active ensures HealthyAt(after, k) {
      assert HealthyAt(s, k);
    }
    SameBalance(s, after);
    forall i | 0 <= i < |after.log| ensures EndingProper(after, after.log[i]) {
      assert EndingProper(s, s.log[i]);
    }
    if after != s {
      NeverEnded(s, id, |s.log|);
      RegisterKeepsRows(s, id, player1, player2);
    }
  }

  /** A match without a row has never ended. */
  lemma {:induction false} NeverEnded(s: Server, id: nat, n: nat)
    requires LogProper(s) && id !in s.rows && n <= |s.log|
    ensures Endings(s.log[..n], id) == 0 && LastWinner(s.log[..n], id) == 0
  {
    if n > 0 {
      NeverEnded(s, id, n - 1);
      assert s.log[..n][..n - 1] == s.log[..n - 1];
      assert EndingProper(s, s.log[n - 1]);
    }
  }

  lemma {:induction false} RegisterKeepsRows(s: Server, id: nat, player1: nat, player2: nat)
    requires RowsTold(s) && id !in s.rows
    requires Endings(s.log[..|s.log|], id) == 0 && LastWinner(s.log[..|s.log|], id) == 0
    ensures RowsTold(Register(s, id, player1, player2))
  {
    hide Endings, LastWinner;
    assert s.log[..|s.log|] == s.log;
    var after := Register(s, id, player1, player2);
    forall k | k in after.rows ensures RowTold(after, k) {
      assert k != id ==> RowTold(s, k);
    }
  }

  // ---------------------------------------------------------------- sweeps and steps

  lemma {:induction false} EndEachKeepsInv(pow10: real -> real, start: Ratings, s: Server, ids: seq<nat>, sweep: Sweep)
    requires PowerLike(pow10) && Inv(pow10, start, s)
    ensures Inv(pow10, start, EndEach(pow10, s, ids, sweep))
    decreases |ids|
  {
    if ids != [] {
      var before := EndEach(pow10, s, ids[..|ids| - 1], sweep);
      var id := ids[|ids| - 1];
      EndEachKeepsInv(pow10, start, s, ids[..|ids| - 1], sweep);
      if id in before.active {
        assert HealthyAt(before, id);
        HealthyBasics(before, id);
        EndKeepsInv(pow10, start, before, id, SweepWinner(before.active[id], sweep), SweepReason(sweep));
      }
    }
  }

  /** Every handler step keeps the invariant: live matches stay healthy, activations stay balanced
      by endings and overwrites, and the ratings stay those of the log. */
  lemma {:induction false} StepKeepsInv(pow10: real -> real, start: Ratings, s: Server, e: Event)
    requires PowerLike(pow10) && Inv(pow10, start, s)
    ensures LiveGrids(s) && Inv(pow10, start, Step(pow10, s, e))
  {
    HealthyGrids(s);
    match e
    case MatchRegistered(id, player1, player2) => RegisterKeepsInv(pow10, start, s, id, player1, player2);
    case FleetSubmitted(id, user, ships, coin, now) => PlaceFleetKeepsInv(pow10, start, s, id, user, ships, coin, now);
    case MoveMade(id, user, target, now) => MakeMoveKeepsInv(pow10, start, s, id, user, target, now);
    case Resigned(id, user) =>
      if user != 0 && id in s.active { EndKeepsInv(pow10, start, s, id, Opponent(s.active[id], user), EndResign); }
    case DrawAnswered(id, user, accepted) =>
      if user != 0 && accepted && id in s.active { EndKeepsInv(pow10, start, s, id, 0, EndDrawAgreed); }
    case Swept(sweep) => EndEachKeepsInv(pow10, start, s, Ascending(DueIds(s, sweep)), sweep);
  }
}
