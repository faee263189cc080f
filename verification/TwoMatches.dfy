/** A user with two live matches: the shots of one are drawn on the board of the other. */
module TwoMatches {
  import opened Protocol
  import opened BoardSpec
  import opened BoardLaws
  import opened BoardRuns
  import opened Deployment
  import opened MatchSpec
  import opened MatchLaws
  import opened FleetText
  import opened FleetLoading
  import opened Elo
  import opened ServerSpec
  import opened ServerLaws
  import opened ServerRuns
  import opened ServerTables
  import opened ServerReplicas
  import opened Replicas

  ghost predicate FullFleet(fleet: seq<Ship>) {
    Deployed(fleet) && AllStraight(fleet) && OneOfEach(fleet)
  }

  // ---------------------------------------------------------------- placing a fleet

  /** The user places the first `n` ships of a fleet. */
  function Arranging(fleet: seq<Ship>, n: nat): seq<Happening>
    requires n <= |fleet|
  {
    if n == 0 then []
    else
      var s := fleet[n - 1];
      Arranging(fleet, n - 1) + [Arranged(PlaceOp(s.typ, s.position, s.orientation))]
  }

  lemma {:induction false} NextShipFree(fleet: seq<Ship>, n: nat)
    requires Deployed(fleet) && n < |fleet|
    ensures Deployed(fleet[..n]) && Deployed(fleet[..n + 1]) && fleet[..n + 1] == fleet[..n] + [fleet[n]]
    ensures Free(Story(fleet[..n], {}), fleet[n]) && Unhurt(fleet[n]) && Inside(fleet[n])
    ensures NewShip(fleet[n].typ, fleet[n].position, fleet[n].orientation) == fleet[n]
  {
    PrefixDeployed(fleet, n);
    PrefixDeployed(fleet, n + 1);
    assert fleet[..n + 1] == fleet[..n] + [fleet[n]];
    LastApart(fleet[..n], fleet[n]);
  }

  lemma {:induction false} PrefixDeployed(fleet: seq<Ship>, n: nat)
    requires Deployed(fleet) && n <= |fleet|
    ensures Deployed(fleet[..n])
  {
  }

  lemma {:induction false} PlaceNext(s: Server, p: nat, fleet: seq<Ship>, n: nat)
    requires Deployed(fleet) && n < |fleet|
    ensures var op := PlaceOp(fleet[n].typ, fleet[n].position, fleet[n].orientation);
            var w := World(s, Client(p, View(fleet[..n], {}), EmptyBoard()), Story(fleet[..n], {}), []);
            && Callable(w.client.own, op)
            && Arrange(w, op) == World(s, Client(p, View(fleet[..n + 1], {}), EmptyBoard()),
                                       Story(fleet[..n + 1], {}), [])
  {
    NextShipFree(fleet, n);
    PlaceView(Story(fleet[..n], {}), fleet[n].typ, fleet[n].position, fleet[n].orientation);
    FreeCells(Story(fleet[..n], {}), fleet[n]);
    assert |View(fleet[..n], {}).ships| == n;
    hide Free, IsValidPlacement, View, Deployed, NewShip;
  }

  lemma {:induction false} Arranges(pow10: real -> real, start: Ratings, s: Server, p: nat, fleet: seq<Ship>, n: nat)
    requires PowerLike(pow10) && Inv(pow10, start, s) && Deployed(fleet) && n <= |fleet|
    ensures Legal(pow10, start, Begun(s, p), Arranging(fleet, n))
    ensures Watch(pow10, start, Begun(s, p), Arranging(fleet, n))
         == World(s, Client(p, View(fleet[..n], {}), EmptyBoard()), Story(fleet[..n], {}), [])
  {
    EmptyView();
    hide Inv, View, Deployed, Callable, Arrange, AfterEvent;
    if n == 0 {
      assert fleet[..0] == [];
    } else {
      Arranges(pow10, start, s, p, fleet, n - 1);
      PlaceNext(s, p, fleet, n - 1);
      var hs, front := Arranging(fleet, n), Arranging(fleet, n - 1);
      assert hs[..|hs| - 1] == front;
    }
  }

  // ---------------------------------------------------------------- starting two games

  lemma {:induction false} ServedNext(pow10: real -> real, start: Ratings, w: World, hs: seq<Happening>, e: Event)
    requires PowerLike(pow10) && InOrder(pow10, start, w) && Legal(pow10, start, w, hs)
    ensures Legal(pow10, start, w, hs + [Served(e)])
    ensures Watch(pow10, start, w, hs + [Served(e)]) == AfterEvent(pow10, start, Watch(pow10, start, w, hs), e)
  {
    hide Inv, AfterEvent, Drawn;
    var longer := hs + [Served(e)];
    assert longer[..|hs|] == hs && longer[|hs|] == Served(e);
  }

  /** A submission does not touch any client. */
  lemma {:induction false} SubmissionQuiet(pow10: real -> real, start: Ratings, w: World, e: Event)
    requires PowerLike(pow10) && InOrder(pow10, start, w) && e.FleetSubmitted?
    ensures StoredTexts(w.server)
    ensures AfterEvent(pow10, start, w, e)
         == w.(server := PlaceFleet(w.server, e.id, e.user, e.ships, e.firstIsPlayer1, e.now))
  {
    hide Inv, PlaceFleet, Drawn;
    InvGrids(pow10, start, w.server);
  }

  /** Both players of a match submit the same fleet. */
  function BothSubmit(id: nat, row: Row, fleet: seq<Ship>): seq<Event> {
    [FleetSubmitted(id, row.player1, fleet, true, 0), FleetSubmitted(id, row.player2, fleet, true, 0)]
  }

  /** The match is then live and new, with player 1 to move. Other live matches and placements stay, and player 2's
      first submission is stored. */
  ghost predicate GameStarted(s: Server, after: Server, id: nat, fleet: seq<Ship>) {
    && id in s.rows && after.rows == s.rows && id in after.active
    && after.active[id].history == [] && after.active[id].current == s.rows[id].player1
    && (forall k :: k in s.active && k != id ==> k in after.active && after.active[k] == s.active[k])
    && (forall k, p :: k != id ==> ((k, p) in after.placements <==> (k, p) in s.placements))
    && ((id, s.rows[id].player2) !in s.placements ==>
          PlacementOf(after, id, s.rows[id].player2) == StoredText(fleet))
  }

  lemma {:induction false} PlaceFleetElse(s: Server, id: nat, user: nat, ships: seq<Ship>, coin: bool, now: int)
    requires StoredTexts(s) && id in s.rows
    ensures var after := PlaceFleet(s, id, user, ships, coin, now);
            && after.rows == s.rows
            && (forall k :: k in s.active && k != id ==> k in after.active && after.active[k] == s.active[k])
            && (forall k, p :: k != id || p != user ==> ((k, p) in after.placements <==> (k, p) in s.placements))
  {
    hide FleetTexts, ValidFleet, ParseFleet, Loadable, NewLiveMatch, StoredText, BothReady;
    if AcceptsPlacement(user, ships) {
      StoreKeepsTexts(s, id, user, ships);
      var stored := Store(s, id, user, ships);
      if BothReady(stored, id) {
        PlacementLoadable(stored, id, stored.rows[id].player1);
        PlacementLoadable(stored, id, stored.rows[id].player2);
      }
    }
  }

  lemma {:induction false} GameStarts(pow10: real -> real, start: Ratings, s: Server, id: nat, fleet: seq<Ship>)
    requires PowerLike(pow10) && Inv(pow10, start, s) && id in s.rows && ValidFleet(fleet)
    ensures StoredTexts(s)
    ensures var half := PlaceFleet(s, id, s.rows[id].player1, fleet, true, 0);
            && Inv(pow10, start, half) && StoredTexts(half)
            && GameStarted(s, PlaceFleet(half, id, s.rows[id].player2, fleet, true, 0), id, fleet)
  {
    hide Inv, ValidFleet, PlaceFleet, StoredText, StoredTexts;
    var row := s.rows[id];
    InvGrids(pow10, start, s);
    RowUsers(pow10, start, s, id);
    PlaceFleetKeepsInv(pow10, start, s, id, row.player1, fleet, true, 0);
    var half := PlaceFleet(s, id, row.player1, fleet, true, 0);
    InvGrids(pow10, start, half);
    PlaceFleetElse(s, id, row.player1, fleet, true, 0);
    PlaceFleetElse(half, id, row.player2, fleet, true, 0);
    FirstPlacement(s, id, fleet, true, 0);
    SecondPlacement(half, id, fleet, true, 0);
    SubmissionStored(half, id, row.player2, fleet, true, 0);
  }

  // ---------------------------------------------------------------- two live matches of one user

  /** Both players of a match submit a fleet while a client's boards stay as they are. */
  lemma {:induction false} BothSubmitted(pow10: real -> real, start: Ratings, w0: World, hs: seq<Happening>, id: nat,
                                         row: Row, fleet: seq<Ship>)
    requires PowerLike(pow10) && InOrder(pow10, start, w0) && Legal(pow10, start, w0, hs) && ValidFleet(fleet)
    requires var s := Watch(pow10, start, w0, hs).server; id in s.rows && s.rows[id] == row
    ensures var events := BothSubmit(id, row, fleet);
            var longer := hs + [Served(events[0]), Served(events[1])];
            var w, after := Watch(pow10, start, w0, hs), Watch(pow10, start, w0, longer);
            && Legal(pow10, start, w0, longer) && after == w.(server := after.server)
            && GameStarted(w.server, after.server, id, fleet)
  {
    hide Inv, AfterEvent, ValidFleet, PlaceFleet, GameStarted, Drawn, Legal, Watch;
    var events := BothSubmit(id, row, fleet);
    var w, one := Watch(pow10, start, w0, hs), hs + [Served(events[0])];
    GameStarts(pow10, start, w.server, id, fleet);
    ServedNext(pow10, start, w0, hs, events[0]);
    SubmissionQuiet(pow10, start, w, events[0]);
    ServedNext(pow10, start, w0, one, events[1]);
    SubmissionQuiet(pow10, start, Watch(pow10, start, w0, one), events[1]);
    assert one + [Served(events[1])] == hs + [Served(events[0]), Served(events[1])];
  }

  /** The user places a fleet; then it is submitted by both players of one match, and by both of another. */
  function TwoGames(k: nat, row1: Row, id: nat, row2: Row, fleet: seq<Ship>): seq<Happening> {
    var one, two := BothSubmit(k, row1, fleet), BothSubmit(id, row2, fleet);
    Arranging(fleet, |fleet|) + [Served(one[0]), Served(one[1])] + [Served(two[0]), Served(two[1])]
  }

  /** What these happenings lead to: both games have just started, and the client shows the fleet and no shot. */
  lemma {:induction false} TwoGamesStart(pow10: real -> real, start: Ratings, s: Server, k: nat, id: nat, p: nat,
                                         fleet: seq<Ship>)
    requires PowerLike(pow10) && Inv(pow10, start, s) && FullFleet(fleet)
    requires k in s.rows && id in s.rows && k != id && p == s.rows[k].player2 == s.rows[id].player2
    requires (id, p) !in s.placements
    ensures var hs := TwoGames(k, s.rows[k], id, s.rows[id], fleet);
            var w := Watch(pow10, start, Begun(s, p), hs);
            && Legal(pow10, start, Begun(s, p), hs)
            && w == World(w.server, Client(p, View(fleet, {}), EmptyBoard()), Story(fleet, {}), [])
            && w.server.rows == s.rows && k in w.server.active && id in w.server.active
            && w.server.active[id].history == [] && w.server.active[k].current == s.rows[k].player1
            && PlacementOf(w.server, id, p) == StoredText(fleet)
  {
    FullFleetValid(fleet);
    assert fleet[..|fleet|] == fleet;
    hide Inv, AfterEvent, ValidFleet, View, Legal, Watch, StoredText, Arranging, Deployed, AllStraight, OneOfEach,
      EmptyBoard, BothSubmit;
    var w0, hs0 := Begun(s, p), Arranging(fleet, |fleet|);
    Arranges(pow10, start, s, p, fleet, |fleet|);
    var one := BothSubmit(k, s.rows[k], fleet);
    BothSubmitted(pow10, start, w0, hs0, k, s.rows[k], fleet);
    var hs1 := hs0 + [Served(one[0]), Served(one[1])];
    BothSubmitted(pow10, start, w0, hs1, id, s.rows[id], fleet);
  }

  /** The client then shows exactly the server's boards of the second match. */
  lemma {:induction false} TwoGamesAgree(pow10: real -> real, start: Ratings, s: Server, k: nat, id: nat, p: nat,
                                         fleet: seq<Ship>)
    requires PowerLike(pow10) && Inv(pow10, start, s) && FullFleet(fleet)
    requires k in s.rows && id in s.rows && k != id && p == s.rows[k].player2 == s.rows[id].player2
    requires (id, p) !in s.placements
    ensures var w := Watch(pow10, start, Begun(s, p), TwoGames(k, s.rows[k], id, s.rows[id], fleet));
            && Watched(pow10, start, p, w, id) && OwnBoardAgrees(w, id) && w.client.enemy == EmptyBoard()
            && w.server.rows == s.rows && k in w.server.active && w.server.active[id].history == []
            && w.server.active[k].current == s.rows[k].player1
  {
    var hs := TwoGames(k, s.rows[k], id, s.rows[id], fleet);
    hide Inv, View, StoredText, EmptyBoard, TwoGames, Legal, Watch, OwnBoardAgrees, TargetsBy, PlacementOf;
    TwoGamesStart(pow10, start, s, k, id, p, fleet);
    var w := Watch(pow10, start, Begun(s, p), hs);
    assert Reached(pow10, start, p, w);
    hide Reached;
    NoTargets(Foe(w.server, id, p));
    assert Targets([]) == {};
    SubmittedBoardAgreesIff(pow10, start, p, w, id);
  }

  lemma {:induction false} RowsStay(pow10: real -> real, start: Ratings, w: World, id: nat, p: nat, e: Event)
    requires PowerLike(pow10) && InOrder(pow10, start, w) && Plays(w.server, id, p)
    ensures Plays(AfterEvent(pow10, start, w, e).server, id, p)
  {
    hide Inv, ServerSpec.Step, AfterMove, Drawn, MatchAfter;
    InvGrids(pow10, start, w.server);
    StepMatch(pow10, w.server, e, id);
  }

  lemma {:induction false} OtherShotSpoils(pow10: real -> real, start: Ratings, p: nat, w: World, k: nat, id: nat,
                                           e: Event)
    requires Watched(pow10, start, p, w, id) && InOrder(pow10, start, w) && OwnBoardAgrees(w, id)
    requires w.server.active[id].history == [] && k != id && Plays(w.server, k, p) && k in w.server.active
    requires e.MoveMade? && e.id == k && e.user !in {0, p} && e.user == w.server.active[k].current && InGrid(e.target)
    ensures var after := AfterEvent(pow10, start, w, e);
            && Watched(pow10, start, p, after, id) && !OwnBoardAgrees(after, id)
            && after.server.active[id] == w.server.active[id]
  {
    hide Inv, AfterEvent, OwnBoardAgrees, Reached, TargetsBy, Drawn;
    NoTargets(Foe(w.server, id, p));
    OtherMatchKeepsIff(pow10, start, p, w, id, e);
    ReachedNext(pow10, start, p, w, e);
    RowsStay(pow10, start, w, id, p, e);
  }

  /** When the opponent in the first match then shoots at any cell of the grid, the boards of the second match no
      longer agree, although nothing has happened in it. */
  lemma {:induction false} TwoMatchesSpoil(pow10: real -> real, start: Ratings, s: Server, k: nat, id: nat, p: nat,
                                           fleet: seq<Ship>, c: Coord, now: int)
    requires PowerLike(pow10) && Inv(pow10, start, s) && FullFleet(fleet) && InGrid(c)
    requires k in s.rows && id in s.rows && k != id && p == s.rows[k].player2 == s.rows[id].player2
    requires (id, p) !in s.placements
    ensures var w := Watch(pow10, start, Begun(s, p), TwoGames(k, s.rows[k], id, s.rows[id], fleet));
            var after := AfterEvent(pow10, start, w, MoveMade(k, s.rows[k].player1, c, now));
            && Watched(pow10, start, p, w, id) && OwnBoardAgrees(w, id) && w.server.active[id].history == []
            && Watched(pow10, start, p, after, id) && !OwnBoardAgrees(after, id)
            && after.server.active[id] == w.server.active[id]
  {
    hide Inv, AfterEvent, TwoGames, Watch, OwnBoardAgrees, Reached, FullFleet;
    RowUsers(pow10, start, s, k);
    TwoGamesAgree(pow10, start, s, k, id, p, fleet);
    OtherShotSpoils(pow10, start, p, Watch(pow10, start, Begun(s, p), TwoGames(k, s.rows[k], id, s.rows[id], fleet)),
      k, id, MoveMade(k, s.rows[k].player1, c, now));
  }

  /** Such servers are reached: users 1 and 3 have each agreed on a match with user 2. */
  lemma {:induction false} TwoMatchesRegistered(pow10: real -> real, ratings: Ratings)
    requires PowerLike(pow10) && 1 in ratings && 2 in ratings && 3 in ratings
    ensures Inv(pow10, ratings, FreshServer(ratings))
    ensures var events := [MatchRegistered(7, 1, 2), MatchRegistered(8, 3, 2)];
            var s := Run(pow10, ratings, FreshServer(ratings), events);
            && s.rows == map[7 := Row(1, 2, 0, false), 8 := Row(3, 2, 0, false)]
            && s.placements == map[] && s.active == map[]
  {
    FreshServerInv(pow10, ratings);
    var events := [MatchRegistered(7, 1, 2), MatchRegistered(8, 3, 2)];
    hide Inv;
    assert events[..1] == [events[0]] && events[..2] == events && events[..0] == [];
    RunNext(pow10, ratings, FreshServer(ratings), events, 0);
    RunNext(pow10, ratings, FreshServer(ratings), events, 1);
    hide Run;
  }
}
