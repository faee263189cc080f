/** The shooter's controls and the server's turn: what MOVE_RESULT and TURN_UPDATE together do to them, and what the
    client's own timer does. (server/src/gameplay_handler.cpp, client/src/ui_lobby.cpp, client/src/ui_manager.cpp) */
module TurnControls {
  import opened Protocol
  import opened BoardSpec
  import opened MatchSpec
  import opened MatchLaws
  import opened ServerSpec
  import opened TargetSpec

  /** The turn flag says what the server knows. */
  predicate InTurn(k: Controls, m: MatchValue, p: nat) {
    k.myTurn <==> m.current == p
  }

  /** After a move the server sends its result and, unless the game is over, whose turn it is. */
  function AfterMoveMessages(k: Controls, m: MatchValue, p: nat, target: Coord, now: int): Controls
    requires FullGrid(m.board1) && FullGrid(m.board2)
  {
    var message := MoveMessage(m, m.current, target, now);
    var told := if message.shooter == p then AfterResult(k, message.result, message.gameOver)
                else AfterFoeResult(k, message.gameOver);
    if message.gameOver then told
    else AfterTurnUpdate(told, ProcessMove(m, m.current, target, now).value.current == p)
  }

  /** The result of an own shot alone already sets the fire button as the turn will be. */
  lemma {:induction false} ResultSetsButton(k: Controls, m: MatchValue, target: Coord, now: int)
    requires Grids(m) && m.active && !m.paused && m.player1 != m.player2 && m.current in {m.player1, m.player2}
    requires !AllShipsSunk(TargetBoard(m, m.current))
    ensures var message := MoveMessage(m, m.current, target, now);
            var next := ProcessMove(m, m.current, target, now).value;
            AfterResult(k, message.result, message.gameOver).armed <==> next.active && next.current == m.current
  {
    SinkingShot(TargetBoard(m, m.current), target);
    MoveFacts(m, target, now);
    hide Shot, SunkType;
  }

  /** A player keeps the turn with a hit and loses it with a miss; afterwards flag and fire button agree with the
      server, whatever they said before. The move that ends the game disarms the button of both players. Selections
      stay. */
  lemma {:induction false} MessagesSetTurn(k: Controls, m: MatchValue, p: nat, target: Coord, now: int)
    requires Grids(m) && m.active && !m.paused && m.player1 != m.player2
    requires p in {m.player1, m.player2} && m.current in {m.player1, m.player2}
    requires !AllShipsSunk(TargetBoard(m, m.current))
    ensures var after, next := AfterMoveMessages(k, m, p, target, now), ProcessMove(m, m.current, target, now).value;
            var missed := ProcessMove(m, m.current, target, now).result == ShotMiss;
            && after.hasTarget == k.hasTarget && after.target == k.target
            && (next.active ==>
                 && InTurn(after, next, p) && (after.armed <==> next.current == p)
                 && (next.current == p <==> (m.current == p) != missed))
            && (!next.active ==> !after.armed)
  {
    SinkingShot(TargetBoard(m, m.current), target);
    MoveFacts(m, target, now);
    hide Shot, SunkType;
  }

  /** Neither clicks nor presses touch the flag, the timer turns it around, and an update sets it. */
  lemma {:induction false} ControlsAndTurn(k: Controls, b: BoardState, c: Coord, m: MatchValue, p: nat)
    ensures InTurn(AfterClick(k, b, c), m, p) <==> InTurn(k, m, p)
    ensures InTurn(AfterFire(k), m, p) <==> InTurn(k, m, p)
    ensures InTurn(AfterTimer(k), m, p) <==> !InTurn(k, m, p)
    ensures !Fires(AfterTimer(k)) && !Fires(AfterFire(k))
    ensures InTurn(AfterTurnUpdate(k, m.current == p), m, p)
  {
  }

  /** As long as the flag agrees, the server accepts every shot that the fire button sends; when it does not, none. */
  lemma {:induction false} FiredIsAccepted(k: Controls, m: MatchValue, p: nat)
    requires Fires(k) && m.active && !m.paused
    ensures Accepts(m, p) <==> InTurn(k, m, p)
  {
  }

  /** A click and a press send the clicked cell if it is the own turn and the cell of the grid shows no shot; otherwise
      the click is ignored. */
  lemma {:induction false} ClickThenFire(k: Controls, b: BoardState, c: Coord)
    requires FullGrid(b)
    ensures var clicked := AfterClick(k, b, c);
            var open := InGrid(c) && b.grid[c] !in {CellMiss, CellHit, CellSunk};
            if k.myTurn && open then Fires(clicked) && clicked.target == c else clicked == k
  {
    if InGrid(c) {
      assert b.grid[c] in {CellEmpty, CellShip} <==> b.grid[c] !in {CellMiss, CellHit, CellSunk} by {
        match b.grid[c]
        case CellEmpty =>
        case CellShip =>
        case CellMiss =>
        case CellHit =>
        case CellSunk =>
      }
    }
  }
}
