/** The board explained: its whole state is determined by the fleet and the set of cells shot at. */
module BoardLaws {
  import opened Protocol
  import opened BoardSpec

  // ---------------------------------------------------------------- fleets

  function Cells(s: Ship): (cells: set<Coord>)
    ensures forall c :: c in cells <==> InGrid(c) && Covers(s, c)
  {
    set c | c in AllCells() && Covers(s, c)
  }

  predicate Straight(s: Ship) {
    s.orientation == HORIZONTAL || s.orientation == VERTICAL
  }

  predicate Unhurt(s: Ship) {
    s.length == GetShipLength(s.typ) && s.hits == 0 && !s.sunk
  }

  predicate Inside(s: Ship) {
    FitsAxis(s) && s.position.row < BOARD_SIZE && s.position.col < BOARD_SIZE
  }

  ghost predicate Apart(s: Ship, t: Ship) {
    forall c :: Covers(s, c) ==> !Covers(t, c)
  }

  ghost predicate PairwiseApart(fleet: seq<Ship>) {
    forall i, j :: 0 <= i < j < |fleet| ==> Apart(fleet[i], fleet[j])
  }

  ghost predicate Deployed(fleet: seq<Ship>) {
    && |fleet| <= NUM_SHIPS
    && (forall i :: 0 <= i < |fleet| ==> Unhurt(fleet[i]) && Inside(fleet[i]))
    && PairwiseApart(fleet)
  }

  predicate Covered(fleet: seq<Ship>, c: Coord) {
    Owner(fleet, c) < |fleet|
  }

  lemma {:induction false} CoveredBy(fleet: seq<Ship>, i: nat, c: Coord)
    requires i < |fleet| && Covers(fleet[i], c)
    ensures Covered(fleet, c)
    ensures PairwiseApart(fleet) ==> Owner(fleet, c) == i
  {
  }

  // ---------------------------------------------------------------- the view of a board

  /** Every cell of `s` has been shot. A ship with a stray orientation occupies one cell only,
      so its hit counter never reaches its length. */
  predicate Down(s: Ship, shots: set<Coord>) {
    s.length > 0 && Straight(s) && Cells(s) <= shots
  }

  function DownCount(fleet: seq<Ship>, shots: set<Coord>): (n: nat)
    ensures n <= |fleet|
  {
    if fleet == [] then 0
    else DownCount(fleet[1..], shots) + (if Down(fleet[0], shots) then 1 else 0)
  }

  function ShipAfter(s: Ship, shots: set<Coord>): Ship {
    s.(hits := |Cells(s) * shots|, sunk := Down(s, shots))
  }

  function ShipsAfter(fleet: seq<Ship>, shots: set<Coord>): seq<Ship> {
    seq(|fleet|, i requires 0 <= i < |fleet| => ShipAfter(fleet[i], shots))
  }

  function CellAfter(fleet: seq<Ship>, shots: set<Coord>, c: Coord): CellState {
    if Covered(fleet, c) then (if c in shots then CellHit else CellShip)
    else (if c in shots then CellMiss else CellEmpty)
  }

  /** The board that results from deploying `fleet` and shooting at `shots`, in any order. */
  function View(fleet: seq<Ship>, shots: set<Coord>): (b: BoardState)
    ensures FullGrid(b)
  {
    BoardState(map c | c in AllCells() :: CellAfter(fleet, shots, c),
               ShipsAfter(fleet, shots),
               NUM_SHIPS - DownCount(fleet, shots))
  }

  function Verdict(fleet: seq<Ship>, shots: set<Coord>, target: Coord): ShotResult {
    if !InGrid(target) || target in shots || !Covered(fleet, target) then ShotMiss
    else if Down(fleet[Owner(fleet, target)], shots + {target}) then ShotSunk
    else ShotHit
  }

  function With(shots: set<Coord>, target: Coord): set<Coord> {
    if InGrid(target) then shots + {target} else shots
  }

  // ---------------------------------------------------------------- counting cells

  function Line(s: Ship, n: nat): set<Coord> {
    set j | 0 <= j < n :: CellAt(s, j)
  }

  lemma {:induction false} LineSize(s: Ship, n: nat)
    requires Straight(s)
    ensures |Line(s, n)| == n
  {
    if n > 0 {
      LineSize(s, n - 1);
      assert Line(s, n) == Line(s, n - 1) + {CellAt(s, n - 1)};
    }
  }

  /** A straight ship occupies as many cells as it is long; any other ship exactly one. */
  lemma {:induction false} CellsSize(s: Ship)
    requires Inside(s) && s.length > 0
    ensures |Cells(s)| == if Straight(s) then s.length else 1
  {
    if Straight(s) {
      LineSize(s, s.length);
      forall c ensures c in Cells(s) <==> c in Line(s, s.length) {
        if c in Cells(s) {
          assert CellAt(s, IndexIn(s, c)) == c;
        }
      }
      assert Cells(s) == Line(s, s.length);
    } else {
      assert Cells(s) == {s.position};
    }
  }

  lemma {:induction false} SubsetSize<T>(a: set<T>, b: set<T>)
    requires a <= b
    ensures |a| <= |b|
    ensures |a| == |b| ==> a == b
  {
    assert b == a + (b - a);
  }

  lemma {:induction false} HitsReachLength(s: Ship, shots: set<Coord>)
    requires Inside(s) && s.length >= 2
    ensures |Cells(s) * shots| >= s.length <==> Down(s, shots)
  {
    CellsSize(s);
    SubsetSize(Cells(s) * shots, Cells(s));
    if Down(s, shots) {
      assert Cells(s) * shots == Cells(s);
    }
  }

  // ---------------------------------------------------------------- one shot

  lemma {:induction false} DownCountStep(fleet: seq<Ship>, shots: set<Coord>, target: Coord, i: nat)
    requires i < |fleet| && Covers(fleet[i], target) && InGrid(target) && target !in shots
    requires forall k :: 0 <= k < |fleet| && k != i ==> !Covers(fleet[k], target)
    ensures DownCount(fleet, shots + {target})
         == DownCount(fleet, shots) + (if Down(fleet[i], shots + {target}) then 1 else 0)
  {
    var s := fleet[0];
    var rest := fleet[1..];
    if i == 0 {
      DownCountMiss(rest, shots, target);
      assert target in Cells(s);
    } else {
      assert rest[i - 1] == fleet[i];
      DownCountStep(rest, shots, target, i - 1);
      assert target !in Cells(s);
    }
  }

  lemma {:induction false} DownCountMiss(fleet: seq<Ship>, shots: set<Coord>, target: Coord)
    requires forall k :: 0 <= k < |fleet| ==> !Covers(fleet[k], target)
    ensures DownCount(fleet, shots + {target}) == DownCount(fleet, shots)
  {
    if fleet != [] {
      assert target !in Cells(fleet[0]);
      DownCountMiss(fleet[1..], shots, target);
    }
  }

  lemma {:induction false} ShipAfterMiss(s: Ship, shots: set<Coord>, target: Coord)
    requires !Covers(s, target) || target in shots
    ensures ShipAfter(s, shots + {target}) == ShipAfter(s, shots)
  {
    assert Cells(s) * (shots + {target}) == Cells(s) * shots;
  }

  lemma {:induction false} ShipAfterHit(s: Ship, shots: set<Coord>, target: Coord)
    requires Unhurt(s) && Inside(s) && Covers(s, target) && target !in shots
    ensures ShipAfter(s, shots + {target}) == Struck(ShipAfter(s, shots))
    ensures Struck(ShipAfter(s, shots)).hits >= s.length <==> Down(s, shots + {target})
  {
    assert Cells(s) * (shots + {target}) == Cells(s) * shots + {target};
    assert target in Cells(s);
    HitsReachLength(s, shots + {target});
    HitsReachLength(s, shots);
  }

  lemma {:induction false} OwnerAfter(fleet: seq<Ship>, shots: set<Coord>, c: Coord)
    ensures Owner(ShipsAfter(fleet, shots), c) == Owner(fleet, c)
  {
    var after := ShipsAfter(fleet, shots);
    assert forall k :: 0 <= k < |fleet| ==> (Covers(after[k], c) <==> Covers(fleet[k], c));
  }

  /** One call of `processShot` adds the target to the set of shots and nothing else, and the
      answer is the verdict on the fleet. */
  lemma {:induction false} ShotView(fleet: seq<Ship>, shots: set<Coord>, target: Coord)
    requires Deployed(fleet)
    ensures Shot(View(fleet, shots), target)
         == ShotOutcome(View(fleet, With(shots, target)), Verdict(fleet, shots, target))
  {
    var b := View(fleet, shots);
    var out := Shot(b, target);
    if InGrid(target) {
      OwnerAfter(fleet, shots, target);
      var i := Owner(fleet, target);
      var w := shots + {target};
      if target in shots {
        assert w == shots;
      } else if i == |fleet| {
        ShotAtWater(fleet, shots, target);
      } else {
        ShotAtShip(fleet, shots, target);
      }
    }
  }

  /** Shooting a new cell repaints that cell only. */
  lemma {:induction false} GridStep(fleet: seq<Ship>, shots: set<Coord>, target: Coord)
    requires InGrid(target) && target !in shots
    ensures View(fleet, shots + {target}).grid
         == View(fleet, shots).grid[target := if Covered(fleet, target) then CellHit else CellMiss]
  {
  }

  lemma {:induction false} ShipsStep(fleet: seq<Ship>, shots: set<Coord>, target: Coord, i: nat)
    requires i <= |fleet|
    requires forall k :: 0 <= k < |fleet| && k != i ==> !Covers(fleet[k], target)
    requires i < |fleet| ==> Unhurt(fleet[i]) && Inside(fleet[i]) && Covers(fleet[i], target) && target !in shots
    ensures ShipsAfter(fleet, shots + {target})
         == if i == |fleet| then ShipsAfter(fleet, shots)
            else ShipsAfter(fleet, shots)[i := Struck(ShipAfter(fleet[i], shots))]
  {
    forall k | 0 <= k < |fleet|
      ensures ShipAfter(fleet[k], shots + {target})
           == if k == i then Struck(ShipAfter(fleet[i], shots)) else ShipAfter(fleet[k], shots)
    {
      if k == i {
        ShipAfterHit(fleet[i], shots, target);
      } else {
        ShipAfterMiss(fleet[k], shots, target);
      }
    }
  }

  lemma {:induction false} ShotAtWater(fleet: seq<Ship>, shots: set<Coord>, target: Coord)
    requires InGrid(target) && target !in shots && !Covered(fleet, target)
    ensures Shot(View(fleet, shots), target) == ShotOutcome(View(fleet, shots + {target}), ShotMiss)
  {
    GridStep(fleet, shots, target);
    ShipsStep(fleet, shots, target, |fleet|);
    DownCountMiss(fleet, shots, target);
  }

  lemma {:induction false} ShotAtShip(fleet: seq<Ship>, shots: set<Coord>, target: Coord)
    requires Deployed(fleet) && InGrid(target) && target !in shots && Covered(fleet, target)
    ensures Shot(View(fleet, shots), target)
         == ShotOutcome(View(fleet, shots + {target}), Verdict(fleet, shots, target))
  {
    var i := Owner(fleet, target);
    forall k | 0 <= k < |fleet| && k != i
      ensures !Covers(fleet[k], target)
    {
      assert k < i || Apart(fleet[i], fleet[k]);
    }
    GridStep(fleet, shots, target);
    ShipsStep(fleet, shots, target, i);
    DownCountStep(fleet, shots, target, i);
    OwnerAfter(fleet, shots, target);
    ShipAfterHit(fleet[i], shots, target);
  }
}
