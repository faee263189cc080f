/** The match lifecycle on the server: one function per handler, each an atomic step. */
module ServerSpec {
  import opened Protocol
  import opened BoardSpec
  import opened MatchSpec
  import opened FleetText
  import opened FleetLoading
  import opened Elo
  import opened SortedKeys

  datatype Reason = EndNormal | EndResign | EndDisconnect | EndTimeout | EndDrawAgreed

  /** A row of the matches table; winner 0 stands for none. */
  datatype Row = Row(player1: nat, player2: nat, winner: nat, completed: bool)

  datatype Entry =
    | Activated(id: nat)
    | Overwritten(id: nat)
    | Ended(id: nat, player1: nat, player2: nat, winner: nat, reason: Reason)

  /** The handler's maps, the database tables it uses, and a log of what became of each match.
      Of the stored placements only the first per match and user is ever read back. */
  datatype Server = Server(
    active: map<nat, MatchValue>,
    ready: map<nat, set<nat>>,
    rows: map<nat, Row>,
    placements: map<(nat, nat), string>,
    ratings: Ratings,
    log: seq<Entry>)

  function ReadySet(s: Server, id: nat): set<nat> {
    if id in s.ready then s.ready[id] else {}
  }

  function PlacementOf(s: Server, id: nat, user: nat): string {
    if (id, user) in s.placements then s.placements[(id, user)] else []
  }

  ghost predicate IsFleetText(text: string) {
    exists ships :: ValidFleet(ships) && text == StoredText(ships)
  }

  /** Every stored text is the text of a validated fleet. */
  ghost predicate FleetTexts(placements: map<(nat, nat), string>) {
    forall key :: key in placements ==> IsFleetText(placements[key])
  }

  ghost predicate StoredTexts(s: Server) {
    FleetTexts(s.placements)
  }

  lemma {:induction false} PlacementLoadable(s: Server, id: nat, user: nat)
    requires StoredTexts(s)
    ensures Loadable(ParseFleet(PlacementOf(s, id, user)).records)
  {
    if (id, user) in s.placements {
      var ships :| ValidFleet(ships) && s.placements[(id, user)] == StoredText(ships);
      LoadStored(ships);
    }
  }

  // ---------------------------------------------------------------- endings

  /** `sendMatchEnd`, `endMatch` and `removeMatch` together. */
  function End(pow10: real -> real, s: Server, id: nat, winner: nat, reason: Reason): Server
    requires PowerLike(pow10) && id in s.active
  {
    var m := s.active[id];
    s.(active := s.active - {id},
       ready := s.ready - {id},
       rows := if id in s.rows then s.rows[id := s.rows[id].(winner := winner, completed := true)] else s.rows,
       ratings := Rate(pow10, s.ratings, m.player1, m.player2, winner),
       log := s.log + [Ended(id, m.player1, m.player2, winner, reason)])
  }

  lemma {:induction false} EndKeepsTexts(pow10: real -> real, s: Server, id: nat, winner: nat, reason: Reason)
    requires PowerLike(pow10) && id in s.active && StoredTexts(s) && LiveGrids(s)
    ensures StoredTexts(End(pow10, s, id, winner, reason)) && LiveGrids(End(pow10, s, id, winner, reason))
  {
    hide Rate, FleetTexts;
  }

  // ---------------------------------------------------------------- placement

  function Store(s: Server, id: nat, user: nat, ships: seq<Ship>): Server {
    s.(placements := if (id, user) in s.placements then s.placements else s.placements[(id, user) := StoredText(ships)],
       ready := s.ready[id := ReadySet(s, id) + {user}])
  }

  /** A match started on the boards loaded from two texts. */
  function BuiltMatch(player1: nat, player2: nat, text1: string, text2: string, firstIsPlayer1: bool,
                      now: int): MatchValue
    requires Loadable(ParseFleet(text1).records) && Loadable(ParseFleet(text2).records)
  {
    var loaded := NewMatch(player1, player2).(board1 := LoadText(EmptyBoard(), text1),
                                              board2 := LoadText(EmptyBoard(), text2));
    StartMatch(loaded, now)
      .(current := if firstIsPlayer1 then player1 else player2)
  }

  function NewLiveMatch(s: Server, id: nat, row: Row, firstIsPlayer1: bool, now: int): MatchValue
    requires Loadable(ParseFleet(PlacementOf(s, id, row.player1)).records)
    requires Loadable(ParseFleet(PlacementOf(s, id, row.player2)).records)
  {
    BuiltMatch(row.player1, row.player2, PlacementOf(s, id, row.player1), PlacementOf(s, id, row.player2),
               firstIsPlayer1, now)
  }

  function BothReady(s: Server, id: nat): bool {
    id in s.rows && s.rows[id].player1 in ReadySet(s, id) && s.rows[id].player2 in ReadySet(s, id)
  }

  function Activate(s: Server, id: nat, firstIsPlayer1: bool, now: int): Server
    requires id in s.rows
    requires Loadable(ParseFleet(PlacementOf(s, id, s.rows[id].player1)).records)
    requires Loadable(ParseFleet(PlacementOf(s, id, s.rows[id].player2)).records)
  {
    s.(active := s.active[id := NewLiveMatch(s, id, s.rows[id], firstIsPlayer1, now)],
       log := s.log + (if id in s.active then [Overwritten(id)] else []) + [Activated(id)])
  }

  /** `user` 0 stands for an invalid session in every handler. */
  predicate AcceptsPlacement(user: nat, ships: seq<Ship>) {
    user != 0 && ValidFleet(ships)
  }

  lemma {:induction false} StoreKeepsTexts(s: Server, id: nat, user: nat, ships: seq<Ship>)
    requires StoredTexts(s) && ValidFleet(ships)
    ensures StoredTexts(Store(s, id, user, ships))
  {
  }

  function PlaceFleet(s: Server, id: nat, user: nat, ships: seq<Ship>, firstIsPlayer1: bool, now: int): Server
    requires StoredTexts(s)
  {
    if !AcceptsPlacement(user, ships) then s
    else
      var stored := Store(s, id, user, ships);
      StoreKeepsTexts(s, id, user, ships);
      if BothReady(stored, id) then
        PlacementLoadable(stored, id, stored.rows[id].player1);
        PlacementLoadable(stored, id, stored.rows[id].player2);
        Activate(stored, id, firstIsPlayer1, now)
      else stored
  }

  // ---------------------------------------------------------------- moves and answers

  ghost predicate FullGrids(active: map<nat, MatchValue>) {
    forall id :: id in active ==> Grids(active[id])
  }

  ghost predicate LiveGrids(s: Server) {
    FullGrids(s.active)
  }

  function MakeMove(pow10: real -> real, s: Server, id: nat, user: nat, target: Coord, now: int): Server
    requires PowerLike(pow10) && LiveGrids(s)
  {
    if user == 0 || id !in s.active || s.active[id].current != user then s
    else
      var next := ProcessMove(s.active[id], user, target, now).value;
      var moved := s.(active := s.active[id := next]);
      if AllShipsSunk(TargetBoard(next, user)) then End(pow10, moved, id, user, EndNormal) else moved
  }

  /** The MOVE_RESULT message sent to both players. */
  datatype MoveResult = MoveResult(shooter: nat, target: Coord, result: ShotResult, shipSunk: int,
                                   shipsRemaining: int, gameOver: bool, winner: nat)

  function MoveMessage(m: MatchValue, user: nat, target: Coord, now: int): MoveResult
    requires FullGrid(m.board1) && FullGrid(m.board2)
  {
    var out := ProcessMove(m, user, target, now);
    var board := TargetBoard(out.value, user);
    MoveResult(user, target, out.result,
               if out.result == ShotSunk then SunkType(board.ships, target) else SHIP_CARRIER,
               board.remaining, AllShipsSunk(board), if AllShipsSunk(board) then user else 0)
  }

  function Resign(pow10: real -> real, s: Server, id: nat, user: nat): Server
    requires PowerLike(pow10)
  {
    if user == 0 || id !in s.active then s
    else End(pow10, s, id, Opponent(s.active[id], user), EndResign)
  }

  function AnswerDraw(pow10: real -> real, s: Server, id: nat, user: nat, accepted: bool): Server
    requires PowerLike(pow10)
  {
    if user == 0 || !accepted || id !in s.active then s
    else End(pow10, s, id, 0, EndDrawAgreed)
  }

  // ---------------------------------------------------------------- sweeps

  /** Who wins when a sweep ends a match: the opponent of the player to move, or of the user who left. */
  datatype Sweep = TurnExpired(now: int) | Left(user: nat)

  predicate Due(m: MatchValue, sweep: Sweep) {
    match sweep
    case TurnExpired(now) => TurnTimedOut(m, now)
    case Left(user) => m.player1 == user || m.player2 == user
  }

  function SweepWinner(m: MatchValue, sweep: Sweep): nat {
    match sweep
    case TurnExpired(_) => Opponent(m, m.current)
    case Left(user) => Opponent(m, user)
  }

  function SweepReason(sweep: Sweep): Reason {
    if sweep.TurnExpired? then EndTimeout else EndDisconnect
  }

  function DueIds(s: Server, sweep: Sweep): (ids: set<nat>)
    ensures forall id :: id in ids <==> id in s.active && Due(s.active[id], sweep)
  {
    set id | id in s.active && Due(s.active[id], sweep)
  }

  function EndEach(pow10: real -> real, s: Server, ids: seq<nat>, sweep: Sweep): Server
    requires PowerLike(pow10)
    decreases |ids|
  {
    if ids == [] then s
    else
      var before := EndEach(pow10, s, ids[..|ids| - 1], sweep);
      var id := ids[|ids| - 1];
      if id in before.active
      then End(pow10, before, id, SweepWinner(before.active[id], sweep), SweepReason(sweep))
      else before
  }

  function RunSweep(pow10: real -> real, s: Server, sweep: Sweep): Server
    requires PowerLike(pow10)
  {
    EndEach(pow10, s, Ascending(DueIds(s, sweep)), sweep)
  }

  // ---------------------------------------------------------------- steps

  /** `createMatch` of the database, when a challenge has been accepted. */
  function Register(s: Server, id: nat, player1: nat, player2: nat): Server {
    if id == 0 || id in s.rows || player1 == player2 || player1 == 0 || player2 == 0 ||
       player1 !in s.ratings || player2 !in s.ratings then s
    else s.(rows := s.rows[id := Row(player1, player2, 0, false)])
  }

  datatype Event =
    | MatchRegistered(id: nat, player1: nat, player2: nat)
    | FleetSubmitted(id: nat, user: nat, ships: seq<Ship>, firstIsPlayer1: bool, now: int)
    | MoveMade(id: nat, user: nat, target: Coord, now: int)
    | Resigned(id: nat, user: nat)
    | DrawAnswered(id: nat, user: nat, accepted: bool)
    | Swept(sweep: Sweep)

  function Step(pow10: real -> real, s: Server, e: Event): Server
    requires PowerLike(pow10) && StoredTexts(s) && LiveGrids(s)
  {
    match e
    case MatchRegistered(id, player1, player2) => Register(s, id, player1, player2)
    case FleetSubmitted(id, user, ships, coin, now) => PlaceFleet(s, id, user, ships, coin, now)
    case MoveMade(id, user, target, now) => MakeMove(pow10, s, id, user, target, now)
    case Resigned(id, user) => Resign(pow10, s, id, user)
    case DrawAnswered(id, user, accepted) => AnswerDraw(pow10, s, id, user, accepted)
    case Swept(sweep) => RunSweep(pow10, s, sweep)
  }
}
