/** Which selectable cells are new, and which players never repeat a target. */
module TargetLaws {
  import opened Protocol
  import opened BoardSpec
  import opened BoardLaws
  import opened BoardRuns
  import opened Deployment
  import opened ShooterSpec
  import opened ShooterLaws
  import opened ShooterObjects
  import opened ShooterRuns
  import opened TargetSpec

  // ---------------------------------------------------------------- what is drawn after any run

  /** The answered cells of the grid are marked, no ship is drawn, and as long as no ship object has been accepted
      the other cells are empty. */
  ghost predicate Marked(answered: set<Coord>, b: BoardState) {
    && FullGrid(b) && NoShipDrawn(b)
    && (forall c :: c in answered && c in b.grid ==> b.grid[c] != CellEmpty)
    && (b.ships == [] ==> forall c :: c in b.grid && c !in answered ==> b.grid[c] == CellEmpty)
  }

  /** An object is appended exactly when it is accepted, and nothing else changes the list of objects. */
  lemma {:induction false} ObjectsGrow(b: BoardState, target: Coord, typ: int)
    requires FullGrid(b) && InGrid(target)
    ensures |ShowSunk(b, target, typ).ships| == |b.ships| + (if ObjectAccepted(b, target, typ) then 1 else 0)
  {
    MarkOnlySinks(b, target);
    var guess := MarkSunk(b, target);
    assert guess.pos.row < BOARD_SIZE && guess.pos.col < BOARD_SIZE;
    hide MarkSunk;
    PlaceFullGrid(guess.board, typ, guess.pos, guess.orientation);
    var placed := Place(guess.board, typ, guess.pos, guess.orientation);
    if placed.ok {
      ShootCellsKeepsLength(placed.board, NewShip(typ, guess.pos, guess.orientation), GetShipLength(typ));
    }
  }

  lemma {:induction false} ResultKeepsMarked(answered: set<Coord>, b: BoardState, target: Coord, result: ShotResult,
                                             typ: int)
    requires Marked(answered, b) && Answerable(target, result) && KnownType(typ)
    ensures Marked(With(answered, target), OnMyShot(b, target, result, typ))
  {
    hide ShowSunk, ObjectAccepted;
    ResultMarks(b, target, result, typ);
    if result == ShotSunk {
      ObjectsGrow(b, target, typ);
      EmptyStaysIff(b, target, typ);
    }
  }

  /** On every fleet, touching or not, this holds after every run, with repeated and wild targets too. */
  lemma {:induction false} PictureMarked(fleet: seq<Ship>, answered: seq<Coord>)
    requires Regular(fleet)
    ensures Marked(Targets(answered), Picture(fleet, answered))
    decreases |answered|
  {
    hide Regular, OnMyShot, Verdict, Marked;
    if answered == [] {
      NothingMarked();
    } else {
      var front, last := answered[..|answered| - 1], answered[|answered| - 1];
      assert answered == front + [last];
      PictureMarked(fleet, front);
      PictureStep(fleet, front, last);
      TargetsSnoc(front, last);
      var typ :| KnownType(typ) && Answerable(last, Verdict(fleet, Targets(front), last)) && Picture(fleet, answered)
                 == OnMyShot(Picture(fleet, front), last, Verdict(fleet, Targets(front), last), typ);
      ResultKeepsMarked(Targets(front), Picture(fleet, front), last, Verdict(fleet, Targets(front), last), typ);
    }
  }

  lemma {:induction false} NothingMarked()
    ensures Marked(Targets([]), EmptyBoard())
  {
  }

  // ---------------------------------------------------------------- fleets without contact

  /** No object was accepted, and hits and sunk cells lie on ships. */
  ghost predicate OnShips(fleet: seq<Ship>, b: BoardState) {
    && FullGrid(b) && b.ships == []
    && forall c :: c in b.grid && b.grid[c] in {CellHit, CellSunk} ==> Covered(fleet, c)
  }

  /** Hits beside a cell of a ship that touches no other lie on its own axis. */
  lemma {:induction false} HitsOnOneAxis(fleet: seq<Ship>, b: BoardState, target: Coord)
    requires Regular(fleet) && Untouching(fleet) && OnShips(fleet, b) && Covered(fleet, target)
    ensures !(HitBeside(b, target, West, East) && HitBeside(b, target, North, South))
  {
    var i := Owner(fleet, target);
    forall d | HitAt(b, d) && Adjacent(target, d) ensures Covers(fleet[i], d) {
      var j := Owner(fleet, d);
      assert j == i || !Adjacent(target, d);
    }
    assert Straight(fleet[i]);
    forall dir ensures Adjacent(target, Step(target, dir, 1)) {
    }
  }

  lemma {:induction false} SunkKeepsOnShips(fleet: seq<Ship>, b: BoardState, target: Coord, typ: int)
    requires Regular(fleet) && Untouching(fleet) && OnShips(fleet, b) && KnownType(typ)
    requires InGrid(target) && Covered(fleet, target)
    ensures OnShips(fleet, ShowSunk(b, target, typ))
  {
    HitsOnOneAxis(fleet, b, target);
    hide MarkSunk, ShowSunk, Regular, Untouching, Covered, HitBeside, ObjectAccepted;
    OneAxisRefused(b, target, typ);
    MarkOnlySinks(b, target);
  }

  lemma {:induction false} ResultKeepsOnShips(fleet: seq<Ship>, shots: set<Coord>, b: BoardState, target: Coord,
                                              typ: int)
    requires Regular(fleet) && Untouching(fleet) && OnShips(fleet, b) && KnownType(typ)
    requires Answerable(target, Verdict(fleet, shots, target))
    ensures OnShips(fleet, OnMyShot(b, target, Verdict(fleet, shots, target), typ))
  {
    hide ShowSunk, Regular, Untouching;
    if Verdict(fleet, shots, target) == ShotSunk {
      SunkKeepsOnShips(fleet, b, target, typ);
    }
  }

  /** On a fleet without contact no ship object is ever accepted. */
  lemma {:induction false} NoObjects(fleet: seq<Ship>, answered: seq<Coord>)
    requires Regular(fleet) && Untouching(fleet)
    ensures OnShips(fleet, Picture(fleet, answered))
    decreases |answered|
  {
    assert OnShips(fleet, EmptyBoard());
    hide OnShips, OnMyShot, Verdict, Regular, Untouching;
    if answered != [] {
      var front, last := answered[..|answered| - 1], answered[|answered| - 1];
      assert answered == front + [last];
      NoObjects(fleet, front);
      PictureStep(fleet, front, last);
      var typ :| KnownType(typ) && Answerable(last, Verdict(fleet, Targets(front), last)) && Picture(fleet, answered)
                 == OnMyShot(Picture(fleet, front), last, Verdict(fleet, Targets(front), last), typ);
      ResultKeepsOnShips(fleet, Targets(front), Picture(fleet, front), last, typ);
    }
  }

  // ---------------------------------------------------------------- which selectable cells are new

  /** No shot at this cell has been sent. */
  predicate New(a: Aim, c: Coord) {
    c !in a.answered && c !in a.waiting
  }

  /** On every fleet: a selectable cell at which no shot is under way is new. */
  lemma {:induction false} SelectableIsNew(fleet: seq<Ship>, a: Aim, c: Coord)
    requires Regular(fleet)
    ensures Selectable(Picture(fleet, a.answered), c) && c !in a.waiting ==> New(a, c)
  {
    hide Picture, Regular;
    PictureMarked(fleet, a.answered);
  }

  /** As long as no ship object has been accepted, and so always on a fleet without contact, the converse holds too:
      a cell of the grid is new if and only if it is selectable and no shot at it is under way. */
  lemma {:induction false} NewIffNotWaiting(fleet: seq<Ship>, a: Aim, c: Coord)
    requires Regular(fleet) && InGrid(c)
    requires Untouching(fleet) || Picture(fleet, a.answered).ships == []
    ensures New(a, c) <==> Selectable(Picture(fleet, a.answered), c) && c !in a.waiting
  {
    hide Picture, Regular, Untouching;
    PictureMarked(fleet, a.answered);
    if Untouching(fleet) {
      NoObjects(fleet, a.answered);
    }
  }

  lemma {:induction false} ResultSelectableIff(b: BoardState, target: Coord, result: ShotResult, typ: int)
    requires FullGrid(b) && NoShipDrawn(b) && Answerable(target, result) && KnownType(typ)
    ensures (forall c :: c != target && Selectable(b, c) ==> Selectable(OnMyShot(b, target, result, typ), c)) <==>
            !(result == ShotSunk && ObjectAccepted(b, target, typ))
  {
    hide ShowSunk, ObjectAccepted;
    ResultMarks(b, target, result, typ);
    var after := OnMyShot(b, target, result, typ);
    forall c ensures Selectable(b, c) <==> InGrid(c) && b.grid[c] == CellEmpty {
    }
    forall c ensures Selectable(after, c) <==> InGrid(c) && after.grid[c] == CellEmpty {
    }
    if result == ShotSunk {
      EmptyStaysIff(b, target, typ);
    }
  }

  /** The next result leaves every other selectable cell selectable if and only if it is not a SUNK answer whose ship
      object is accepted. */
  lemma {:induction false} StaysSelectableIff(fleet: seq<Ship>, answered: seq<Coord>, target: Coord)
    requires Regular(fleet)
    ensures var before, after := Picture(fleet, answered), Picture(fleet, answered + [target]);
            (forall c :: c != target && Selectable(before, c) ==> Selectable(after, c)) <==>
            !(Verdict(fleet, Targets(answered), target) == ShotSunk && InGrid(target) &&
              ObjectAccepted(before, target, fleet[Owner(fleet, target)].typ))
  {
    PictureMarked(fleet, answered);
    ShotsFromStart(fleet, answered);
    ReplyNamesShip(fleet, Targets(answered), target);
    assert (answered + [target])[..|answered|] == answered;
    var reply := ServerReply(View(fleet, Targets(answered)), target);
    hide View, Regular, ObjectAccepted, Selectable, OnMyShot, Verdict, ServerReply;
    ResultSelectableIff(Picture(fleet, answered), target, reply.result, reply.typ);
  }

  // ---------------------------------------------------------------- runs

  /** No click selects a cell at which a shot is under way. */
  ghost predicate Careful(fleet: seq<Ship>, start: Aim, acts: seq<Act>) {
    forall i :: 0 <= i < |acts| && acts[i].Clicked? ==> acts[i].c !in DoAll(fleet, start, acts[..i]).waiting
  }

  /** No click is made while any shot is under way. */
  ghost predicate Patient(fleet: seq<Ship>, start: Aim, acts: seq<Act>) {
    forall i :: 0 <= i < |acts| && acts[i].Clicked? ==> DoAll(fleet, start, acts[..i]).waiting == []
  }

  /** What careful play keeps: nothing sent twice, and the selected cell is new. */
  ghost predicate Orderly(a: Aim) {
    NoRepeat(a.answered + a.waiting) && (a.controls.hasTarget ==> New(a, a.controls.target))
  }

  lemma {:induction false} NoRepeatWithout(before: seq<Coord>, x: Coord, after: seq<Coord>)
    requires NoRepeat(before + ([x] + after))
    ensures NoRepeat(before + after)
  {
    var whole, rest := before + ([x] + after), before + after;
    forall i, j | 0 <= i < j < |rest| ensures rest[i] != rest[j] {
      assert rest[i] == whole[if i < |before| then i else i + 1];
      assert rest[j] == whole[if j < |before| then j else j + 1];
    }
  }

  lemma {:induction false} ActKeepsOrderly(fleet: seq<Ship>, a: Aim, act: Act)
    requires Regular(fleet) && Orderly(a)
    requires act.Clicked? ==> act.c !in a.waiting
    ensures Orderly(Do(fleet, a, act))
  {
    hide Picture, ResultOf, GameOver, Regular;
    match act
    case Clicked(c) => SelectableIsNew(fleet, a, c);
    case FirePressed =>
      if Fires(a.controls) {
        NoRepeatSnoc(a.answered + a.waiting, a.controls.target);
        assert a.answered + (a.waiting + [a.controls.target]) == (a.answered + a.waiting) + [a.controls.target];
      }
    case ResultArrived =>
      if a.waiting != [] {
        assert a.waiting == [a.waiting[0]] + a.waiting[1..];
        assert (a.answered + [a.waiting[0]]) + a.waiting[1..] == a.answered + a.waiting;
      }
    case ShotIgnored =>
      if a.waiting != [] {
        assert a.waiting == [a.waiting[0]] + a.waiting[1..];
        NoRepeatWithout(a.answered, a.waiting[0], a.waiting[1..]);
      }
    case FoeResultArrived(_) =>
    case TimerExpired =>
    case TurnUpdated(_) =>
  }

  /** On every fleet, touching or not, a player who never selects a cell at which a shot is under way never sends a
      target twice. */
  lemma {:induction false} CarefulPlayNoRepeat(fleet: seq<Ship>, start: Aim, acts: seq<Act>)
    requires Regular(fleet) && Fresh(start) && Careful(fleet, start, acts)
    ensures Orderly(DoAll(fleet, start, acts))
    decreases |acts|
  {
    hide Do, Regular;
    if acts != [] {
      var front := acts[..|acts| - 1];
      forall i | 0 <= i < |front| ensures front[..i] == acts[..i] {
      }
      CarefulPlayNoRepeat(fleet, start, front);
      ActKeepsOrderly(fleet, DoAll(fleet, start, front), acts[|acts| - 1]);
    }
  }

  /** On a fleet without contact such a player has an exact picture at every point of the match. */
  lemma {:induction false} CarefulPlayExact(fleet: seq<Ship>, start: Aim, acts: seq<Act>)
    requires Regular(fleet) && Untouching(fleet) && Fresh(start) && Careful(fleet, start, acts)
    ensures Exact(fleet, DoAll(fleet, start, acts).answered)
  {
    CarefulPlayNoRepeat(fleet, start, acts);
    var a := DoAll(fleet, start, acts);
    NoRepeatFront(a.answered, a.waiting);
    PictureExact(fleet, a.answered);
  }

  lemma {:induction false} NoRepeatFront(front: seq<Coord>, rest: seq<Coord>)
    requires NoRepeat(front + rest)
    ensures NoRepeat(front)
  {
    forall i, j | 0 <= i < j < |front| ensures front[i] != front[j] {
      assert (front + rest)[i] != (front + rest)[j];
    }
  }

  /** In particular a player who selects only when no shot is under way never repeats a target, on any fleet, and has
      an exact picture on a fleet without contact. */
  lemma {:induction false} PatientPlay(fleet: seq<Ship>, start: Aim, acts: seq<Act>)
    requires Regular(fleet) && Fresh(start) && Patient(fleet, start, acts)
    ensures var a := DoAll(fleet, start, acts);
            NoRepeat(a.answered + a.waiting) && (Untouching(fleet) ==> Exact(fleet, a.answered))
  {
    hide Do, DoAll, Regular, Untouching, Exact;
    CarefulPlayNoRepeat(fleet, start, acts);
    if Untouching(fleet) {
      CarefulPlayExact(fleet, start, acts);
    }
  }

  // ---------------------------------------------------------------- a hasty player

  /** Click, fire, click the same cell again before the result arrives, fire, and receive both results. */
  function Hasty(c: Coord): seq<Act> {
    [Clicked(c), FirePressed, Clicked(c), FirePressed, ResultArrived, ResultArrived]
  }

  lemma {:induction false} DoAllNext(fleet: seq<Ship>, a: Aim, acts: seq<Act>, k: nat)
    requires k < |acts|
    ensures DoAll(fleet, a, acts[..k + 1]) == Do(fleet, DoAll(fleet, a, acts[..k]), acts[k])
  {
    assert acts[..k + 1][..k] == acts[..k];
  }

  /** A ship has more than one cell, so the first shot at it is answered HIT and the same shot again MISS. */
  lemma {:induction false} TwiceShotVerdicts(fleet: seq<Ship>, c: Coord)
    requires Regular(fleet) && InGrid(c) && Covered(fleet, c)
    ensures Verdict(fleet, {}, c) == ShotHit && Verdict(fleet, {c}, c) == ShotMiss
    ensures View(fleet, {c}).grid[c] == CellHit && Seen(fleet, {c}).grid[c] == CellHit
  {
    var s := fleet[Owner(fleet, c)];
    CellsSize(s);
    if Down(s, {c}) {
      SubsetSize(Cells(s), {c});
    }
    assert {} + {c} == {c};
  }

  lemma {:induction false} TwiceShot(fleet: seq<Ship>, c: Coord)
    requires Regular(fleet) && InGrid(c) && Covered(fleet, c)
    ensures Targets([c, c]) == {c} && Shots(View(fleet, {}), [c, c]) == View(fleet, {c})
    ensures GetCell(Picture(fleet, [c, c]), c) == CellMiss
  {
    assert Targets([c]) == {c} && Targets([c, c]) == {c} && Targets([]) == {};
    assert [c] + [c] == [c, c];
    ShotsFromStart(fleet, [c, c]);
    TwiceShotVerdicts(fleet, c);
    PictureStep(fleet, [c], c);
    hide Picture, View, Seen, Regular, Shots, Targets, Verdict, FullGrid;
  }

  lemma {:induction false} HastySteps(fleet: seq<Ship>, start: Aim, c: Coord)
    requires Fresh(start) && start.controls.myTurn && InGrid(c)
    ensures var a2 := Do(fleet, Do(fleet, start, Clicked(c)), FirePressed);
            var a4 := Do(fleet, Do(fleet, a2, Clicked(c)), FirePressed);
            var a6 := Do(fleet, Do(fleet, a4, ResultArrived), ResultArrived);
            a6.answered == [c, c] && a6.waiting == []
  {
    assert Selectable(Picture(fleet, []), c);
    hide Picture, ResultOf, Selectable;
    var a2 := Do(fleet, Do(fleet, start, Clicked(c)), FirePressed);
    assert a2.waiting == [c] && a2.answered == [] && a2.controls.myTurn;
    var a4 := Do(fleet, Do(fleet, a2, Clicked(c)), FirePressed);
    assert a4.waiting == [c, c] && a4.answered == [];
  }

  lemma {:induction false} HastyRun(fleet: seq<Ship>, start: Aim, c: Coord)
    requires Fresh(start) && start.controls.myTurn && InGrid(c)
    ensures var a := DoAll(fleet, start, Hasty(c)); a.answered == [c, c] && a.waiting == []
  {
    HastySteps(fleet, start, c);
    var acts := Hasty(c);
    assert acts[..0] == [] && acts[..6] == acts;
    DoAllNext(fleet, start, acts, 0);
    DoAllNext(fleet, start, acts, 1);
    DoAllNext(fleet, start, acts, 2);
    DoAllNext(fleet, start, acts, 3);
    DoAllNext(fleet, start, acts, 4);
    DoAllNext(fleet, start, acts, 5);
    hide Do, Fresh;
  }

  /** Nothing in the client stops this: on every fleet and for every ship cell both shots are sent, and the hit
      that was drawn for the first is overwritten by the miss that answers the second. */
  lemma {:induction false} HastyPlayRepeats(fleet: seq<Ship>, start: Aim, c: Coord)
    requires Regular(fleet) && Fresh(start) && start.controls.myTurn && InGrid(c) && Covered(fleet, c)
    ensures var a := DoAll(fleet, start, Hasty(c));
            && a.answered == [c, c] && a.waiting == []
            && GetCell(Picture(fleet, a.answered), c) == CellMiss
            && GetCell(Shots(View(fleet, {}), a.answered), c) == CellHit
            && !Exact(fleet, a.answered)
  {
    HastyRun(fleet, start, c);
    TwiceShot(fleet, c);
    TwiceShotVerdicts(fleet, c);
    hide DoAll, Hasty, Regular, Picture, View, Seen, Shots, Targets;
  }
}
