/** How the client picks its targets: what a click selects, what the fire button sends, and which of the shots
    that were sent have been answered. (client/src/ui_manager.cpp, client/src/ui_lobby.cpp) */
module TargetSpec {
  import opened Protocol
  import opened BoardSpec
  import opened BoardLaws
  import opened ShooterRuns

  /** The selection, the turn flag, and whether the fire button reacts. */
  datatype Controls = Controls(myTurn: bool, hasTarget: bool, target: Coord, armed: bool)

  /** The cells on which a click takes effect. */
  predicate Selectable(b: BoardState, c: Coord) {
    InGrid(c) && GetCell(b, c) in {CellEmpty, CellShip}
  }

  function AfterClick(k: Controls, b: BoardState, c: Coord): Controls {
    if k.myTurn && Selectable(b, c) then k.(hasTarget := true, target := c, armed := true) else k
  }

  predicate Fires(k: Controls) {
    k.armed && k.myTurn && k.hasTarget
  }

  function AfterFire(k: Controls): Controls {
    if Fires(k) then k.(hasTarget := false, target := Coord(-1, -1), armed := false) else k
  }

  /** After the result of an own shot; a result that ends the game disarms the button in the end. */
  function AfterResult(k: Controls, result: ShotResult, gameOver: bool): Controls {
    k.(armed := result != ShotMiss && !gameOver)
  }

  function AfterFoeResult(k: Controls, gameOver: bool): Controls {
    k.(armed := k.armed && !gameOver)
  }

  function AfterTurnUpdate(k: Controls, mine: bool): Controls {
    k.(myTurn := mine, armed := mine)
  }

  /** The client's own turn timer has run down: the selection goes, and the turn flag flips. */
  function AfterTimer(k: Controls): Controls {
    Controls(!k.myTurn, false, Coord(-1, -1), false)
  }

  /** The shots sent so far: those whose results have arrived, and those still under way, each in order. */
  datatype Aim = Aim(controls: Controls, answered: seq<Coord>, waiting: seq<Coord>)

  /** Results of own shots arrive in the order of the shots; a shot sent out of turn is ignored by the server. */
  datatype Act =
    | Clicked(c: Coord)
    | FirePressed
    | ResultArrived
    | FoeResultArrived(gameOver: bool)
    | ShotIgnored
    | TimerExpired
    | TurnUpdated(mine: bool)

  /** Whether the server reports the game as over after these shots. */
  function GameOver(fleet: seq<Ship>, answered: seq<Coord>): bool {
    AllShipsSunk(Shots(View(fleet, {}), answered))
  }

  /** The client's board is the picture that the answered shots have painted. */
  function Do(fleet: seq<Ship>, a: Aim, act: Act): Aim {
    match act
    case Clicked(c) => a.(controls := AfterClick(a.controls, Picture(fleet, a.answered), c))
    case FirePressed =>
      if Fires(a.controls) then a.(controls := AfterFire(a.controls), waiting := a.waiting + [a.controls.target]) else a
    case ResultArrived =>
      if a.waiting == [] then a
      else a.(controls := AfterResult(a.controls, ResultOf(fleet, a.answered, a.waiting[0]),
                                      GameOver(fleet, a.answered + [a.waiting[0]])),
              answered := a.answered + [a.waiting[0]], waiting := a.waiting[1..])
    case FoeResultArrived(gameOver) => a.(controls := AfterFoeResult(a.controls, gameOver))
    case ShotIgnored => if a.waiting == [] then a else a.(waiting := a.waiting[1..])
    case TimerExpired => a.(controls := AfterTimer(a.controls))
    case TurnUpdated(mine) => a.(controls := AfterTurnUpdate(a.controls, mine))
  }

  function DoAll(fleet: seq<Ship>, a: Aim, acts: seq<Act>): Aim
    decreases |acts|
  {
    if acts == [] then a else Do(fleet, DoAll(fleet, a, acts[..|acts| - 1]), acts[|acts| - 1])
  }

  /** A match has started and nothing has been sent; a cell may still be selected from the match before. */
  predicate Fresh(a: Aim) {
    a.answered == [] && a.waiting == []
  }
}
