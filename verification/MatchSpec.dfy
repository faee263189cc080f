/** One match as a value: two boards, the turn machine, the history and the win rule. */
module MatchSpec {
  import opened Protocol
  import opened BoardSpec

  datatype Move = Move(number: int, player: nat, target: Coord, result: ShotResult, timestamp: int)

  datatype GameResult = ResultWin | ResultLoss | ResultDraw

  datatype MatchValue = MatchValue(
    player1: nat, player2: nat,
    board1: BoardState, board2: BoardState,
    current: nat, turnNumber: int, turnTimeLimit: int, turnStart: int,
    history: seq<Move>,
    startTime: int, endTime: int,
    result: GameResult, winner: nat,
    active: bool, paused: bool)

  datatype MoveOutcome = MoveOutcome(value: MatchValue, result: ShotResult)

  ghost predicate Grids(m: MatchValue) {
    FullGrid(m.board1) && FullGrid(m.board2)
  }

  function NewMatch(player1: nat, player2: nat): MatchValue {
    MatchValue(player1, player2, EmptyBoard(), EmptyBoard(), 0, 0, 60, 0, [], 0, 0, ResultDraw, 0, false, false)
  }

  function StartMatch(m: MatchValue, now: int): MatchValue {
    m.(active := true, startTime := now, turnStart := now, turnNumber := 1)
  }

  function EndMatch(m: MatchValue, winner: nat, now: int): MatchValue {
    m.(active := false, endTime := now, winner := winner,
       result := if winner == m.player1 then ResultWin
                 else if winner == m.player2 then ResultLoss
                 else ResultDraw)
  }

  function SwitchTurn(m: MatchValue, now: int): MatchValue {
    m.(current := if m.current == m.player1 then m.player2 else m.player1,
       turnNumber := m.turnNumber + 1, turnStart := now)
  }

  function Opponent(m: MatchValue, player: nat): nat {
    if player == m.player1 then m.player2 else m.player1
  }

  predicate Accepts(m: MatchValue, player: nat) {
    m.active && !m.paused && player == m.current
  }

  /** The board a player shoots at. */
  function TargetBoard(m: MatchValue, player: nat): BoardState {
    if player == m.player1 then m.board2 else m.board1
  }

  /** The shot is applied to the opponent's board and appended to the history. */
  function Fired(m: MatchValue, player: nat, target: Coord, now: int): MatchValue
    requires FullGrid(m.board1) && FullGrid(m.board2)
  {
    var shot := Shot(TargetBoard(m, player), target);
    var move := Move(m.turnNumber, player, target, shot.result, now);
    if player == m.player1 then m.(board2 := shot.board, history := m.history + [move])
    else m.(board1 := shot.board, history := m.history + [move])
  }

  function ProcessMove(m: MatchValue, player: nat, target: Coord, now: int): MoveOutcome
    requires FullGrid(m.board1) && FullGrid(m.board2)
  {
    if !Accepts(m, player) then MoveOutcome(m, ShotMiss)
    else
      var shot := Shot(TargetBoard(m, player), target);
      var fired := Fired(m, player, target, now);
      var next :=
        if AllShipsSunk(shot.board) then EndMatch(fired, player, now)
        else if shot.result == ShotMiss then SwitchTurn(fired, now)
        else fired;
      MoveOutcome(next, shot.result)
  }

  lemma {:induction false} ProcessMoveGrids(m: MatchValue, player: nat, target: Coord, now: int)
    requires Grids(m)
    ensures Grids(ProcessMove(m, player, target, now).value)
  {
    assert FullGrid(ShotBoard(TargetBoard(m, player), target));
  }

  // ---------------------------------------------------------------- the turn clock

  const TWO_TO_THE_32 := 0x1_0000_0000
  const TWO_TO_THE_64 := 0x1_0000_0000_0000_0000

  /** The clock values are unsigned 64-bit, so the difference wraps around. */
  function Elapsed(m: MatchValue, now: int): nat {
    (now - m.turnStart) % TWO_TO_THE_64
  }

  /** The limit is a signed 32-bit number that is widened to an unsigned 64-bit one. */
  function Limit(m: MatchValue): nat {
    m.turnTimeLimit % TWO_TO_THE_64
  }

  predicate ClockRuns(m: MatchValue) {
    m.active && !m.paused && m.turnStart != 0
  }

  predicate TurnTimedOut(m: MatchValue, now: int) {
    ClockRuns(m) && Elapsed(m, now) >= Limit(m)
  }

  /** The result is cut to an unsigned 32-bit number. */
  function TurnTimeRemaining(m: MatchValue, now: int): nat {
    if !ClockRuns(m) then m.turnTimeLimit % TWO_TO_THE_32
    else if Elapsed(m, now) >= Limit(m) then 0
    else (Limit(m) - Elapsed(m, now)) % TWO_TO_THE_32
  }

  /** A turn is timed out exactly when no time remains, whatever the clock does. */
  lemma {:induction false} TimedOutIffNoTimeRemains(m: MatchValue, now: int)
    requires 0 < m.turnTimeLimit < TWO_TO_THE_32 / 2
    ensures TurnTimedOut(m, now) <==> TurnTimeRemaining(m, now) == 0
    ensures 0 <= TurnTimeRemaining(m, now) <= m.turnTimeLimit
  {
  }

  /** While the match is not running, paused or not started, no turn times out and the full limit remains. */
  lemma {:induction false} ClockStands(m: MatchValue, now: int)
    requires !m.active || m.paused || m.turnStart == 0
    ensures !TurnTimedOut(m, now)
    ensures 0 <= m.turnTimeLimit < TWO_TO_THE_32 ==> TurnTimeRemaining(m, now) == m.turnTimeLimit
  {
  }

  /** With a negative limit a turn times out only when the clock has stepped back, by no more than the limit. */
  lemma {:induction false} NegativeLimit(m: MatchValue, now: int)
    requires -TWO_TO_THE_32 / 2 <= m.turnTimeLimit < 0
    requires 0 <= m.turnStart < TWO_TO_THE_64 && 0 <= now < TWO_TO_THE_64
    ensures var elapsed := now - m.turnStart;
            TurnTimedOut(m, now) <==>
            (ClockRuns(m) && (m.turnTimeLimit <= elapsed < 0 || elapsed >= TWO_TO_THE_64 + m.turnTimeLimit))
  {
  }
}
