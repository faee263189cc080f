/** The match object: turn machine and history over two boards, updated in place. */
module Matches {
  import opened Protocol
  import opened BoardSpec
  import opened Boards
  import opened MatchSpec

  class MatchState {
    var player1Id: nat
    var player2Id: nat
    const player1Board: Board
    const player2Board: Board
    var currentTurnPlayerId: nat
    var turnNumber: int
    var turnTimeLimit: int
    var turnStartTime: int
    var moveHistory: seq<Move>
    var startTime: int
    var endTime: int
    var result: GameResult
    var winnerId: nat
    var isActive: bool
    var isPaused: bool

    /** The match as a value; `Valid` ties it to the fields above. */
    ghost var value: MatchValue

    /** The objects that make up the match; they never change. */
    ghost const Repr: set<object>

    ghost predicate Valid()
      reads this, Repr
    {
      && Repr == {this} + player1Board.Repr() + player2Board.Repr()
      && player1Board.Valid() && player2Board.Valid()
      && player1Board.Repr() !! player2Board.Repr()
      && this !in player1Board.Repr() && this !in player2Board.Repr()
      && value == MatchValue(player1Id, player2Id, player1Board.state, player2Board.state,
                             currentTurnPlayerId, turnNumber, turnTimeLimit, turnStartTime,
                             moveHistory, startTime, endTime, result, winnerId, isActive, isPaused)
    }

    /** Unused ship slots of both boards hold no sunk ship, as on every board that had no removal. */
    ghost predicate SlotsAfloat()
      reads this, Repr
      requires Valid()
    {
      player1Board.SpareSlotsAfloat() && player2Board.SpareSlotsAfloat()
    }

    constructor (player1: nat, player2: nat)
      ensures Valid() && SlotsAfloat() && fresh(Repr)
      ensures value == NewMatch(player1, player2)
    {
      player1Id, player2Id := player1, player2;
      var board1 := new Board();
      var board2 := new Board();
      player1Board, player2Board := board1, board2;
      Repr := {this} + board1.Repr() + board2.Repr();
      currentTurnPlayerId, turnNumber, turnTimeLimit, turnStartTime := 0, 0, 60, 0;
      moveHistory, startTime, endTime := [], 0, 0;
      result, winnerId, isActive, isPaused := ResultDraw, 0, false, false;
      value := NewMatch(player1, player2);
    }

    method StartMatch(now: int)
      requires Valid()
      modifies this
      ensures Valid() && value == MatchSpec.StartMatch(old(value), now)
      ensures old(SlotsAfloat()) ==> SlotsAfloat()
    {
      hide Board.Valid;
      isActive := true;
      startTime := now;
      turnStartTime := now;
      turnNumber := 1;
      value := MatchSpec.StartMatch(value, now);
    }

    method SetCurrentPlayer(player: nat)
      requires Valid()
      modifies this
      ensures Valid() && value == old(value).(current := player)
      ensures old(SlotsAfloat()) ==> SlotsAfloat()
    {
      hide Board.Valid;
      currentTurnPlayerId := player;
      value := value.(current := player);
    }

    method EndMatch(winner: nat, now: int)
      requires Valid()
      modifies this
      ensures Valid() && value == MatchSpec.EndMatch(old(value), winner, now)
      ensures old(SlotsAfloat()) ==> SlotsAfloat()
    {
      hide Board.Valid;
      isActive := false;
      endTime := now;
      winnerId := winner;
      if winner == player1Id {
        result := ResultWin;
      } else if winner == player2Id {
        result := ResultLoss;
      } else {
        result := ResultDraw;
      }
      value := MatchSpec.EndMatch(value, winner, now);
    }

    method SwitchTurn(now: int)
      requires Valid()
      modifies this
      ensures Valid() && value == MatchSpec.SwitchTurn(old(value), now)
      ensures old(SlotsAfloat()) ==> SlotsAfloat()
    {
      hide Board.Valid;
      currentTurnPlayerId := if currentTurnPlayerId == player1Id then player2Id else player1Id;
      turnNumber := turnNumber + 1;
      turnStartTime := now;
      value := MatchSpec.SwitchTurn(value, now);
    }

    /** The source reads the clock several times during a move; one value stands for them all. */
    method ProcessMove(player: nat, target: Coord, now: int) returns (shot: ShotResult)
      requires Valid()
      modifies Repr
      ensures Valid() && MoveOutcome(value, shot) == MatchSpec.ProcessMove(old(value), player, target, now)
      ensures old(SlotsAfloat()) ==> SlotsAfloat()
    {
      if !isActive || isPaused {
        return ShotMiss;
      }
      if player != currentTurnPlayerId {
        return ShotMiss;
      }
      shot := Fire(player, target, now);
      var targetBoard := if player == player1Id then player2Board else player1Board;
      var over := targetBoard.AllShipsSunk();
      if over {
        EndMatch(player, now);
      } else if shot == ShotMiss {
        SwitchTurn(now);
      }
    }

    /** Shoot at the opponent's board and record the move. */
    method Fire(player: nat, target: Coord, now: int) returns (shot: ShotResult)
      requires Valid()
      modifies Repr
      ensures Valid() && value == Fired(old(value), player, target, now)
      ensures shot == Shot(old(TargetBoard(value, player)), target).result
      ensures old(SlotsAfloat()) ==> SlotsAfloat()
    {
      if player == player1Id {
        shot := player2Board.ProcessShot(target);
      } else {
        shot := player1Board.ProcessShot(target);
      }
      moveHistory := moveHistory + [Move(turnNumber, player, target, shot, now)];
      value := Fired(value, player, target, now);
    }

    method IsTurnTimedOut(now: int) returns (b: bool)
      requires Valid()
      ensures b == TurnTimedOut(value, now)
    {
      if !isActive || isPaused || turnStartTime == 0 {
        return false;
      }
      var elapsed := (now - turnStartTime) % TWO_TO_THE_64;
      return elapsed >= turnTimeLimit % TWO_TO_THE_64;
    }

    method GetTurnTimeRemaining(now: int) returns (seconds: nat)
      requires Valid()
      ensures seconds == TurnTimeRemaining(value, now)
    {
      if !isActive || isPaused || turnStartTime == 0 {
        return turnTimeLimit % TWO_TO_THE_32;
      }
      var elapsed := (now - turnStartTime) % TWO_TO_THE_64;
      if elapsed >= turnTimeLimit % TWO_TO_THE_64 {
        return 0;
      }
      return (turnTimeLimit % TWO_TO_THE_64 - elapsed) % TWO_TO_THE_32;
    }
  }
}
