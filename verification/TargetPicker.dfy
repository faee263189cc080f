/** The part of the client's user interface that picks and sends targets, with its fields updated in place. */
module TargetPicking {
  import opened Protocol
  import opened BoardSpec
  import opened Boards
  import opened TargetSpec

  class TargetPicker {
    var isPlayerTurn: bool
    var hasTargetSelected: bool
    var selectedTargetRow: int
    var selectedTargetCol: int
    // Whether the fire button reacts to a click.
    var fireSensitive: bool

    ghost function Shown(): Controls
      reads this
    {
      Controls(isPlayerTurn, hasTargetSelected, Coord(selectedTargetRow, selectedTargetCol), fireSensitive)
    }

    constructor (fireSensitive: bool)
      ensures Shown() == Controls(true, false, Coord(-1, -1), fireSensitive)
    {
      isPlayerTurn, hasTargetSelected, this.fireSensitive := true, false, fireSensitive;
      selectedTargetRow, selectedTargetCol := -1, -1;
    }

    /** A click on a cell of the opponent's board. */
    method OnBoardClicked(opponentBoard: Board, row: int, col: int)
      requires opponentBoard.Valid()
      modifies this
      ensures Shown() == AfterClick(old(Shown()), opponentBoard.state, Coord(row, col))
    {
      if 0 <= row < BOARD_SIZE && 0 <= col < BOARD_SIZE {
        if !isPlayerTurn { return; }
        var cell := opponentBoard.GetCell(row, col);
        if cell == CellEmpty || cell == CellShip {
          SelectTarget(row, col);
        }
      }
    }

    method SelectTarget(row: int, col: int)
      modifies this
      ensures Shown() == old(Shown()).(hasTarget := true, target := Coord(row, col), armed := true)
    {
      selectedTargetRow, selectedTargetCol, hasTargetSelected := row, col, true;
      fireSensitive := true;
    }

    method ClearTargetSelection()
      modifies this
      ensures Shown() == old(Shown()).(hasTarget := false, target := Coord(-1, -1), armed := false)
    {
      selectedTargetRow, selectedTargetCol, hasTargetSelected := -1, -1, false;
      fireSensitive := false;
    }

    /** A click on the fire button while connected to a match. */
    method OnFireClicked() returns (sent: bool, target: Coord)
      modifies this
      ensures sent == Fires(old(Shown())) && Shown() == AfterFire(old(Shown()))
      ensures sent ==> target == old(Shown()).target
    {
      target := Coord(selectedTargetRow, selectedTargetCol);
      if !fireSensitive || !isPlayerTurn || !hasTargetSelected {
        return false, target;
      }
      fireSensitive := false;
      ClearTargetSelection();
      sent := true;
    }

    /** The controls after a result, of an own shot or of the opponent's. */
    method OnMoveResult(isMyShot: bool, result: ShotResult, gameOver: bool)
      modifies this
      ensures Shown() == if isMyShot then AfterResult(old(Shown()), result, gameOver)
                         else AfterFoeResult(old(Shown()), gameOver)
    {
      if isMyShot {
        if result == ShotMiss {
          fireSensitive := false;
        } else {
          fireSensitive := true;
        }
      }
      if gameOver {
        fireSensitive := false;
      }
    }

    method OnTurnTimerExpired()
      modifies this
      ensures Shown() == AfterTimer(old(Shown()))
    {
      ClearTargetSelection();
      SwitchTurn();
    }

    method SwitchTurn()
      modifies this
      ensures Shown() == old(Shown()).(myTurn := !old(Shown()).myTurn)
    {
      isPlayerTurn := !isPlayerTurn;
    }

    method OnTurnUpdate(mine: bool)
      modifies this
      ensures Shown() == AfterTurnUpdate(old(Shown()), mine)
    {
      isPlayerTurn := mine;
      fireSensitive := isPlayerTurn;
    }
  }
}
