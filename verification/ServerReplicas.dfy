/** The clients' boards over whole runs: a client draws the results of every match its user plays in on the same two
    boards, which only MATCH_START clears. When they agree with the server's boards of a match.
    (server/src/gameplay_handler.cpp, client/src/client_network.cpp, client/src/ui_lobby.cpp) */
module ServerReplicas {
  import opened Protocol
  import opened BoardSpec
  import opened BoardLaws
  import opened BoardRuns
  import opened Deployment
  import opened MatchSpec
  import opened MatchLaws
  import opened FleetText
  import opened FleetLoading
  import opened Elo
  import opened ServerSpec
  import opened ServerLaws
  import opened ServerTables
  import opened ShooterSpec
  import opened ShooterObjects
  import opened ShooterRuns
  import opened Replicas

  // ---------------------------------------------------------------- a client and its server

  /** The event sends MATCH_START to this user. */
  predicate Starts(s: Server, e: Event, p: nat) {
    e.MatchRegistered? && (p == e.player1 || p == e.player2) && Register(s, e.id, e.player1, e.player2) != s
  }

  /** The event sends MOVE_RESULT to this user, whichever match it belongs to. */
  predicate Reports(s: Server, e: Event, p: nat) {
    e.MoveMade? && Moves(s, e, e.id) && Plays(s, e.id, p)
  }

  /** An own shot that was reported, with its match. */
  datatype Aimed = Aimed(id: nat, target: Coord)

  /** The server and one client; the fleet and the shots told on the client's own board; and the client's own shots
      that were reported since its boards were last cleared by MATCH_START. */
  datatype World = World(server: Server, client: Client, story: Story, aims: seq<Aimed>)

  /** What happens: the server handles an event, or the user arranges ships on the own board. */
  datatype Happening = Served(e: Event) | Arranged(op: Op)

  /** A client right after a MATCH_START. */
  function Begun(s: Server, p: nat): World {
    World(s, Client(p, EmptyBoard(), EmptyBoard()), Story([], {}), [])
  }

  ghost predicate InOrder(pow10: real -> real, start: Ratings, w: World)
    requires PowerLike(pow10)
  {
    Inv(pow10, start, w.server) && Drawn(w.client)
  }

  /** A client after the message that reports a move. */
  ghost function AfterMove(m: MatchValue, e: Event, c: Client): (r: Client)
    requires Grids(m) && e.MoveMade? && Accepts(m, e.user) && Drawn(c)
    ensures Drawn(r) && r.user == c.user
  {
    MessageIsReply(m, e.user, e.target, e.now);
    var r := OnMoveResult(c, MoveMessage(m, e.user, e.target, e.now));
    assert FullGrid(r.own) && FullGrid(r.enemy);
    r
  }

  /** MATCH_START clears both boards; a result is drawn without a look at its match; all else leaves the client. */
  ghost function AfterEvent(pow10: real -> real, start: Ratings, w: World, e: Event): (r: World)
    requires PowerLike(pow10) && InOrder(pow10, start, w)
    ensures InOrder(pow10, start, r) && r.client.user == w.client.user
  {
    InvGrids(pow10, start, w.server);
    StepKeepsInv(pow10, start, w.server, e);
    var s, p := w.server, w.client.user;
    var after := ServerSpec.Step(pow10, s, e);
    if Starts(s, e, p) then Begun(after, p)
    else if Reports(s, e, p) then
      LiveFacts(pow10, start, s, e.id);
      var client := AfterMove(s.active[e.id], e, w.client);
      if e.user == p then World(after, client, w.story, w.aims + [Aimed(e.id, e.target)])
      else World(after, client, Continue(w.story, ShotOp(e.target)), w.aims)
    else w.(server := after)
  }

  function Arrange(w: World, op: Op): (r: World)
    requires FullGrid(w.client.own)
    ensures FullGrid(r.client.own)
  {
    if Callable(w.client.own, op)
    then w.(client := w.client.(own := Apply(w.client.own, op)), story := Continue(w.story, op))
    else w
  }

  ghost function After(pow10: real -> real, start: Ratings, w: World, h: Happening): (r: World)
    requires PowerLike(pow10) && InOrder(pow10, start, w)
    ensures InOrder(pow10, start, r) && r.client.user == w.client.user
  {
    match h
    case Served(e) => AfterEvent(pow10, start, w, e)
    case Arranged(op) => Arrange(w, op)
  }

  ghost function Watch(pow10: real -> real, start: Ratings, w: World, hs: seq<Happening>): (r: World)
    requires PowerLike(pow10) && InOrder(pow10, start, w)
    ensures InOrder(pow10, start, r) && r.client.user == w.client.user
    decreases |hs|
  {
    if hs == [] then w else After(pow10, start, Watch(pow10, start, w, hs[..|hs| - 1]), hs[|hs| - 1])
  }

  /** The user places, removes and clears ships only as the board allows. */
  ghost predicate Legal(pow10: real -> real, start: Ratings, w: World, hs: seq<Happening>)
    requires PowerLike(pow10) && InOrder(pow10, start, w)
    decreases |hs|
  {
    hs == [] ||
    var front, last := hs[..|hs| - 1], hs[|hs| - 1];
    && Legal(pow10, start, w, front)
    && (last.Arranged? ==> !last.op.ShotOp? && Callable(Watch(pow10, start, w, front).client.own, last.op))
  }

  /** A world in which the client's user `p` has come some legal happenings after a MATCH_START. */
  ghost predicate Reached(pow10: real -> real, start: Ratings, p: nat, w: World)
    requires PowerLike(pow10)
  {
    exists s, hs ::
      Inv(pow10, start, s) && Legal(pow10, start, Begun(s, p), hs) && w == Watch(pow10, start, Begun(s, p), hs)
  }

  // ---------------------------------------------------------------- what every run keeps

  /** The enemy board shows a mark on every reported own target on the grid, and nothing if there is none. */
  ghost predicate EnemyMarks(aims: seq<Aimed>, enemy: BoardState) {
    && FullGrid(enemy)
    && (forall i :: 0 <= i < |aims| && InGrid(aims[i].target) ==> enemy.grid[aims[i].target] != CellEmpty)
    && ((forall i :: 0 <= i < |aims| ==> !InGrid(aims[i].target)) ==> enemy == EmptyBoard())
  }

  function Aims(id: nat, targets: seq<Coord>): seq<Aimed> {
    seq(|targets|, i requires 0 <= i < |targets| => Aimed(id, targets[i]))
  }

  /** If the own shots reported since the last MATCH_START are those of the live game, the enemy board is the picture
      that they paint. */
  ghost predicate EnemyIsPicture(s: Server, aims: seq<Aimed>, c: Client, id: nat) {
    id in s.active && Plays(s, id, c.user) && aims == Aims(id, TargetsBy(s.active[id].history, c.user)) ==>
      c.enemy == Picture(FleetFrom(PlacementOf(s, id, Foe(s, id, c.user))), TargetsBy(s.active[id].history, c.user))
  }

  /** The own board shows its story, and the enemy board the reported own shots. */
  ghost predicate Follows(w: World) {
    && Told(w.client.own, w.story) && EnemyMarks(w.aims, w.client.enemy)
    && forall id :: EnemyIsPicture(w.server, w.aims, w.client, id)
  }

  lemma {:induction false} AimsSnoc(aims: seq<Aimed>, a: Aimed, id: nat, targets: seq<Coord>)
    requires aims + [a] == Aims(id, targets)
    ensures targets != [] && a.id == id && a.target == targets[|targets| - 1]
    ensures aims == Aims(id, targets[..|targets| - 1])
  {
    assert |aims + [a]| == |targets|;
    assert (aims + [a])[|aims|] == a;
    assert aims == (aims + [a])[..|aims|];
  }

  /** A game without own shots: if nothing was reported since the last MATCH_START either, the enemy board is empty. */
  lemma {:induction false} FreshPicture(s: Server, aims: seq<Aimed>, c: Client, id: nat)
    requires EnemyMarks(aims, c.enemy) && id in s.active && TargetsBy(s.active[id].history, c.user) == []
    ensures EnemyIsPicture(s, aims, c, id)
  {
    hide FleetFrom, PlacementOf;
  }

  /** An event that this client is not told about. */
  lemma {:induction false} QuietPicture(pow10: real -> real, start: Ratings, s: Server, e: Event, aims: seq<Aimed>,
                                        c: Client, id: nat)
    requires PowerLike(pow10) && Inv(pow10, start, s) && StoredTexts(s) && LiveGrids(s)
    requires EnemyMarks(aims, c.enemy) && EnemyIsPicture(s, aims, c, id)
    requires !(Plays(s, id, c.user) && Moves(s, e, id))
    ensures EnemyIsPicture(ServerSpec.Step(pow10, s, e), aims, c, id)
  {
    hide Inv, ServerSpec.Step, FleetFrom, PlacementOf, Picture, EnemyMarks, TargetsBy, Aims, ProcessMove, TablesKept,
      Healthy;
    var after, p := ServerSpec.Step(pow10, s, e), c.user;
    StepMatch(pow10, s, e, id);
    if id in s.active {
      LiveFacts(pow10, start, s, id);
    }
    if id in s.active && Plays(s, id, p) {
      PlayersKept(pow10, start, s, e, id, p);
    } else if id in s.rows && !Plays(s, id, p) {
      StrangerStays(pow10, s, e, id, p);
    }
    if id in after.active && after.active[id].history == [] {
      NoTargets(p);
      FreshPicture(after, aims, c, id);
    }
  }

  lemma {:induction false} StrangerStays(pow10: real -> real, s: Server, e: Event, id: nat, p: nat)
    requires PowerLike(pow10) && StoredTexts(s) && LiveGrids(s) && id in s.rows && !Plays(s, id, p)
    ensures !Plays(ServerSpec.Step(pow10, s, e), id, p)
  {
    hide ServerSpec.Step, MatchAfter;
    StepMatch(pow10, s, e, id);
  }

  lemma {:induction false} NoTargets(p: nat)
    ensures TargetsBy([], p) == []
  {
  }

  /** What a reported move draws: an own shot on the enemy board, any other on the own board. */
  lemma {:induction false} MoveDrawn(m: MatchValue, e: Event, c: Client)
    requires Grids(m) && e.MoveMade? && Accepts(m, e.user) && Drawn(c)
    ensures var reply, r := ServerReply(TargetBoard(m, e.user), e.target), AfterMove(m, e, c);
            && (e.user == c.user ==>
                 r.own == c.own && r.enemy == OnMyShot(c.enemy, e.target, reply.result, reply.typ))
            && (e.user != c.user ==> r.enemy == c.enemy && r.own == ShotBoard(c.own, e.target))
  {
    MessageIsReply(m, e.user, e.target, e.now);
    hide MoveMessage, ServerReply, OnMyShot, ShotBoard, TargetBoard;
  }

  lemma {:induction false} AimMarks(aims: seq<Aimed>, enemy: BoardState, a: Aimed, result: ShotResult, typ: int)
    requires EnemyMarks(aims, enemy) && Answerable(a.target, result)
    ensures EnemyMarks(aims + [a], OnMyShot(enemy, a.target, result, typ))
  {
    hide OnMyShot;
    ResultMarks(enemy, a.target, result, typ);
    var longer := aims + [a];
    assert longer[|aims|] == a;
    forall i | 0 <= i < |aims| ensures longer[i] == aims[i] {
    }
  }

  /** An own shot of another match can never be the last own shot of this one. */
  lemma {:induction false} OwnShotPicture(pow10: real -> real, start: Ratings, s: Server, e: Event, aims: seq<Aimed>,
                                          c: Client, id: nat)
    requires PowerLike(pow10) && Inv(pow10, start, s) && StoredTexts(s) && LiveGrids(s) && Drawn(c)
    requires Reports(s, e, c.user) && e.user == c.user && EnemyIsPicture(s, aims, c, id)
    ensures Grids(s.active[e.id]) && Accepts(s.active[e.id], e.user)
    ensures EnemyIsPicture(ServerSpec.Step(pow10, s, e), aims + [Aimed(e.id, e.target)],
                           AfterMove(s.active[e.id], e, c), id)
  {
    hide Inv, ServerSpec.Step, FleetFrom, PlacementOf, Picture, AfterMove, TargetsBy, Aims, MatchLaws.Entry, Drawn,
      FullGrids, StoredTexts, Accepts, Foe;
    var after, p, m := ServerSpec.Step(pow10, s, e), c.user, s.active[e.id];
    MoveAppends(pow10, start, s, e, e.id);
    if id in after.active && Plays(after, id, p) &&
       aims + [Aimed(e.id, e.target)] == Aims(id, TargetsBy(after.active[id].history, p)) {
      AimsSnoc(aims, Aimed(e.id, e.target), id, TargetsBy(after.active[id].history, p));
      PlayersKept(pow10, start, s, e, id, p);
      LiveBoard(pow10, start, s, id, p);
      EntryFields(m, e.target, e.now);
      HistorySnoc(m.history, MatchLaws.Entry(m, e.target, e.now), p);
      PictureGrows(m, e, FleetFrom(PlacementOf(s, id, Foe(s, id, p))), c);
    }
  }

  lemma {:induction false} PictureGrows(m: MatchValue, e: Event, prey: seq<Ship>, c: Client)
    requires Grids(m) && e.MoveMade? && Accepts(m, e.user) && Drawn(c) && e.user == c.user
    requires TargetBoard(m, c.user) == Shots(View(prey, {}), TargetsBy(m.history, c.user))
    requires c.enemy == Picture(prey, TargetsBy(m.history, c.user))
    ensures AfterMove(m, e, c).enemy == Picture(prey, TargetsBy(m.history, c.user) + [e.target])
  {
    MoveDrawn(m, e, c);
    PictureSnoc(prey, TargetsBy(m.history, c.user), e.target);
    hide Picture, View, Shots, TargetsBy, ServerReply, OnMyShot, AfterMove;
  }

  /** A shot of another player leaves the enemy board and the own shots of every match. */
  lemma {:induction false} FoeShotPicture(pow10: real -> real, start: Ratings, s: Server, e: Event, aims: seq<Aimed>,
                                          c: Client, id: nat)
    requires PowerLike(pow10) && Inv(pow10, start, s) && StoredTexts(s) && LiveGrids(s)
    requires Reports(s, e, c.user) && e.user != c.user && EnemyIsPicture(s, aims, c, id) && EnemyMarks(aims, c.enemy)
    ensures EnemyIsPicture(ServerSpec.Step(pow10, s, e), aims, c, id)
  {
    if id != e.id {
      QuietPicture(pow10, start, s, e, aims, c, id);
    } else {
      LiveFacts(pow10, start, s, id);
      LiveBoard(pow10, start, s, id, c.user);
      StepMatch(pow10, s, e, id);
      var m := s.active[id];
      MoveFacts(m, e.target, e.now);
      HistorySnoc(m.history, MatchLaws.Entry(m, e.target, e.now), c.user);
      hide Inv, ServerSpec.Step, FleetFrom, ProcessMove, Picture, Healthy, TargetsBy, EnemyMarks, MatchLaws.Entry;
    }
  }

  lemma {:induction false} OtherUser(s: Server, aims: seq<Aimed>, c: Client, r: Client, id: nat)
    requires EnemyIsPicture(s, aims, c, id) && c.user == r.user && c.enemy == r.enemy
    ensures EnemyIsPicture(s, aims, r, id)
  {
    hide FleetFrom, PlacementOf, Picture, TargetsBy, Aims;
  }

  lemma {:induction false} BegunFollows(s: Server, p: nat)
    ensures Follows(Begun(s, p))
  {
    EmptyView();
    hide EnemyIsPicture;
    forall id ensures EnemyIsPicture(s, [], Client(p, EmptyBoard(), EmptyBoard()), id) {
      BegunPicture(s, p, id);
    }
  }

  lemma {:induction false} BegunPicture(s: Server, p: nat, id: nat)
    ensures EnemyIsPicture(s, [], Client(p, EmptyBoard(), EmptyBoard()), id)
  {
    hide FleetFrom, PlacementOf, TargetsBy;
    if id in s.active && [] == Aims(id, TargetsBy(s.active[id].history, p)) {
      assert |Aims(id, TargetsBy(s.active[id].history, p))| == 0;
    }
  }

  lemma {:induction false} EventFollows(pow10: real -> real, start: Ratings, w: World, e: Event)
    requires PowerLike(pow10) && InOrder(pow10, start, w) && Follows(w)
    ensures Follows(AfterEvent(pow10, start, w, e))
  {
    var s, c, p := w.server, w.client, w.client.user;
    InvGrids(pow10, start, s);
    StepKeepsInv(pow10, start, s, e);
    var after := ServerSpec.Step(pow10, s, e);
    hide Inv, ServerSpec.Step, EnemyIsPicture, EnemyMarks, Told, AfterMove, Moves, Continue, Drawn, Plays, LiveGrids,
      StoredTexts;
    if Starts(s, e, p) {
      BegunFollows(after, p);
    } else if Reports(s, e, p) {
      ReportFollows(pow10, start, w, e);
    } else {
      forall id ensures EnemyIsPicture(after, w.aims, c, id) {
        NotReported(s, e, p, id);
        QuietPicture(pow10, start, s, e, w.aims, c, id);
      }
    }
  }

  lemma {:induction false} NotReported(s: Server, e: Event, p: nat, id: nat)
    requires !Reports(s, e, p)
    ensures !(Plays(s, id, p) && Moves(s, e, id))
  {
  }

  lemma {:induction false} ReportFollows(pow10: real -> real, start: Ratings, w: World, e: Event)
    requires PowerLike(pow10) && InOrder(pow10, start, w) && Follows(w)
    requires Reports(w.server, e, w.client.user) && !Starts(w.server, e, w.client.user)
    ensures Follows(AfterEvent(pow10, start, w, e))
  {
    hide Inv, ServerSpec.Step, EnemyIsPicture, AfterMove, Healthy, OnMyShot, ServerReply, EnemyMarks, Told, ProcessMove,
      Plays, AfterEvent, Register, FullGrids, StoredTexts, Continue, Apply, ShotBoard;
    var s, c, p := w.server, w.client, w.client.user;
    InvGrids(pow10, start, s);
    LiveFacts(pow10, start, s, e.id);
    ReportWorld(pow10, start, w, e);
    MoveDrawn(s.active[e.id], e, c);
    var after, r := ServerSpec.Step(pow10, s, e), AfterMove(s.active[e.id], e, c);
    if e.user == p {
      var reply := ServerReply(TargetBoard(s.active[e.id], e.user), e.target);
      AimMarks(w.aims, c.enemy, Aimed(e.id, e.target), reply.result, reply.typ);
      forall id ensures EnemyIsPicture(after, w.aims + [Aimed(e.id, e.target)], r, id) {
        OwnShotPicture(pow10, start, s, e, w.aims, c, id);
      }
    } else {
      ShotTold(c.own, w.story, e.target);
      forall id ensures EnemyIsPicture(after, w.aims, r, id) {
        FoeShotPicture(pow10, start, s, e, w.aims, c, id);
        OtherUser(after, w.aims, c, r, id);
      }
    }
  }

  lemma {:induction false} ReportWorld(pow10: real -> real, start: Ratings, w: World, e: Event)
    requires PowerLike(pow10) && InOrder(pow10, start, w)
    requires Reports(w.server, e, w.client.user) && !Starts(w.server, e, w.client.user)
    ensures StoredTexts(w.server) && LiveGrids(w.server)
    ensures Grids(w.server.active[e.id]) && Accepts(w.server.active[e.id], e.user)
    ensures var client := AfterMove(w.server.active[e.id], e, w.client);
            AfterEvent(pow10, start, w, e)
            == if e.user == w.client.user
               then World(ServerSpec.Step(pow10, w.server, e), client, w.story, w.aims + [Aimed(e.id, e.target)])
               else World(ServerSpec.Step(pow10, w.server, e), client, Continue(w.story, ShotOp(e.target)), w.aims)
  {
    hide Inv, ServerSpec.Step, AfterMove, Healthy, Plays, Continue;
    InvGrids(pow10, start, w.server);
    LiveFacts(pow10, start, w.server, e.id);
  }

  lemma {:induction false} ShotTold(b: BoardState, story: Story, target: Coord)
    requires FullGrid(b) && Told(b, story)
    ensures Told(ShotBoard(b, target), Continue(story, ShotOp(target)))
  {
    hide Told;
    ApplyTold(b, story, ShotOp(target));
  }

  lemma {:induction false} ArrangeFollows(w: World, op: Op)
    requires FullGrid(w.client.own) && Follows(w)
    ensures Follows(Arrange(w, op))
  {
    hide EnemyIsPicture, EnemyMarks, Told, Callable, Apply, Continue;
    if Callable(w.client.own, op) {
      ApplyTold(w.client.own, w.story, op);
      forall id ensures EnemyIsPicture(w.server, w.aims, Arrange(w, op).client, id) {
        OtherUser(w.server, w.aims, w.client, Arrange(w, op).client, id);
      }
    }
  }

  /** Over every run of server events and legal arrangements, in any number of matches, the client's boards show the
      story told on the own board and the marks of the reported own shots. */
  lemma {:induction false} RunFollows(pow10: real -> real, start: Ratings, s: Server, p: nat, hs: seq<Happening>)
    requires PowerLike(pow10) && Inv(pow10, start, s) && Legal(pow10, start, Begun(s, p), hs)
    ensures Follows(Watch(pow10, start, Begun(s, p), hs))
    decreases |hs|
  {
    var w0 := Begun(s, p);
    assert InOrder(pow10, start, w0);
    BegunFollows(s, p);
    hide Inv, Follows, AfterEvent, Arrange, Begun;
    if hs != [] {
      var front := hs[..|hs| - 1];
      RunFollows(pow10, start, s, p, front);
      var w := Watch(pow10, start, w0, front);
      match hs[|hs| - 1]
      case Served(e) => EventFollows(pow10, start, w, e);
      case Arranged(op) => ArrangeFollows(w, op);
    }
  }

  lemma {:induction false} ReachedFollows(pow10: real -> real, start: Ratings, p: nat, w: World)
    requires PowerLike(pow10) && Reached(pow10, start, p, w)
    ensures InOrder(pow10, start, w) && w.client.user == p && Follows(w)
  {
    hide Inv, Follows, Watch, Legal;
    var s, hs :| Inv(pow10, start, s) && Legal(pow10, start, Begun(s, p), hs) &&
                 w == Watch(pow10, start, Begun(s, p), hs);
    RunFollows(pow10, start, s, p, hs);
  }

  // ---------------------------------------------------------------- when the boards agree

  /** Two boards are the same only if they show the same fleet and the same shots. */
  lemma {:induction false} SameViewIff(one: Story, two: Story)
    requires Deployed(one.fleet) && Deployed(two.fleet) && one.shots <= AllCells() && two.shots <= AllCells()
    ensures View(one.fleet, one.shots) == View(two.fleet, two.shots) <==> one == two
  {
    if View(one.fleet, one.shots) == View(two.fleet, two.shots) {
      SameFleet(one, two);
      SameShots(one, two);
    }
  }

  lemma {:induction false} SameFleet(one: Story, two: Story)
    requires Deployed(one.fleet) && Deployed(two.fleet)
    requires ShipsAfter(one.fleet, one.shots) == ShipsAfter(two.fleet, two.shots)
    ensures one.fleet == two.fleet
  {
    var ships, others := ShipsAfter(one.fleet, one.shots), ShipsAfter(two.fleet, two.shots);
    assert |ships| == |one.fleet| && |others| == |two.fleet|;
    forall i | 0 <= i < |one.fleet| ensures one.fleet[i] == two.fleet[i] {
      assert ships[i].(hits := 0, sunk := false) == one.fleet[i];
      assert others[i].(hits := 0, sunk := false) == two.fleet[i];
    }
  }

  lemma {:induction false} SameShots(one: Story, two: Story)
    requires one.shots <= AllCells() && two.shots <= AllCells()
    requires View(one.fleet, one.shots).grid == View(two.fleet, two.shots).grid
    ensures one.shots == two.shots
  {
    forall c | c in AllCells() ensures c in one.shots <==> c in two.shots {
      assert c in one.shots <==> View(one.fleet, one.shots).grid[c] in {CellHit, CellMiss};
      assert c in two.shots <==> View(two.fleet, two.shots).grid[c] in {CellHit, CellMiss};
    }
  }

  /** The story of a player's board on the server: the stored fleet, and the foe's shots of the live game. */
  function ServerStory(s: Server, id: nat, p: nat): Story
    requires id in s.active && id in s.rows
  {
    Story(FleetFrom(PlacementOf(s, id, p)), Targets(TargetsBy(s.active[id].history, Foe(s, id, p))))
  }

  lemma {:induction false} ServerTold(pow10: real -> real, start: Ratings, s: Server, id: nat, p: nat)
    requires PowerLike(pow10) && Inv(pow10, start, s) && id in s.active && Plays(s, id, p)
    ensures Told(TargetBoard(s.active[id], Foe(s, id, p)), ServerStory(s, id, p))
  {
    var foe := Foe(s, id, p);
    LiveFacts(pow10, start, s, id);
    LiveBoard(pow10, start, s, id, foe);
    assert Foe(s, id, foe) == p;
    hide Inv, Sound, FleetFrom, View, Deployed, ParseFleet, Loadable, LoadText, Shots;
    assert IsFleetText(PlacementOf(s, id, p));
    FleetFromDeployed(PlacementOf(s, id, p));
    ShotsFromStart(FleetFrom(PlacementOf(s, id, p)), TargetsBy(s.active[id].history, foe));
  }

  /** A live match that the client's user plays in. */
  ghost predicate Watched(pow10: real -> real, start: Ratings, p: nat, w: World, id: nat) {
    PowerLike(pow10) && Reached(pow10, start, p, w) && id in w.server.active && Plays(w.server, id, p)
  }

  ghost predicate OwnBoardAgrees(w: World, id: nat)
    requires id in w.server.active && id in w.server.rows
  {
    w.client.own == TargetBoard(w.server.active[id], Foe(w.server, id, w.client.user))
  }

  /** In every reachable world the own board agrees with the server's board of a live match if and only if it was told
      the fleet stored for that match and, since it was last cleared, shots at exactly the cells of the grid that the
      foe has shot in the live game. */
  lemma {:induction false} OwnBoardAgreesIff(pow10: real -> real, start: Ratings, p: nat, w: World, id: nat)
    requires Watched(pow10, start, p, w, id)
    ensures OwnBoardAgrees(w, id) <==> w.story == ServerStory(w.server, id, p)
  {
    hide Inv, Reached, View, Deployed, EnemyMarks, EnemyIsPicture, ServerStory;
    ReachedFollows(pow10, start, p, w);
    ServerTold(pow10, start, w.server, id, p);
    SameViewIff(w.story, ServerStory(w.server, id, p));
  }

  /** If the own shots reported since the last MATCH_START are those of the live game, the enemy board is the picture
      that they paint of the server's board. */
  lemma {:induction false} EnemyBoardAgrees(pow10: real -> real, start: Ratings, p: nat, w: World, id: nat)
    requires Watched(pow10, start, p, w, id)
    requires w.aims == Aims(id, TargetsBy(w.server.active[id].history, p))
    ensures var m, prey := w.server.active[id], FleetFrom(PlacementOf(w.server, id, Foe(w.server, id, p)));
            && w.client.enemy == Picture(prey, TargetsBy(m.history, p))
            && TargetBoard(m, p) == Shots(View(prey, {}), TargetsBy(m.history, p))
  {
    hide Inv, Reached, View, Picture, Told, EnemyMarks, FleetFrom, Shots, TargetsBy;
    ReachedFollows(pow10, start, p, w);
    LiveBoard(pow10, start, w.server, id, p);
    assert EnemyIsPicture(w.server, w.aims, w.client, id);
  }

  /** When a game has just started, both boards agree with it if and only if the own board was told the stored fleet
      and, since the boards were cleared, neither an own shot at the grid nor one of another player was reported,
      whichever match it belonged to: starting a game does not clear the boards. */
  lemma {:induction false} NewGameAgreesIff(pow10: real -> real, start: Ratings, p: nat, w: World, id: nat)
    requires Watched(pow10, start, p, w, id) && w.server.active[id].history == []
    ensures OwnBoardAgrees(w, id) && w.client.enemy == EmptyBoard() <==>
            (w.story == Story(FleetFrom(PlacementOf(w.server, id, p)), {}) &&
             forall i :: 0 <= i < |w.aims| ==> !InGrid(w.aims[i].target))
  {
    hide Inv, Reached, View, EnemyIsPicture, Told, FleetFrom, PlacementOf;
    OwnBoardAgreesIff(pow10, start, p, w, id);
    ReachedFollows(pow10, start, p, w);
    assert ServerStory(w.server, id, p) == Story(FleetFrom(PlacementOf(w.server, id, p)), {}) by {
      assert TargetsBy([], Foe(w.server, id, p)) == [] && Targets([]) == {};
    }
    hide ServerStory, OwnBoardAgrees;
    assert forall c :: InGrid(c) ==> EmptyBoard().grid[c] == CellEmpty;
  }

  // ---------------------------------------------------------------- the fleet that was submitted

  /** The shown ships of a full fleet pass validation, and their first accepted submission stores the text of the
      fleet that was placed, whatever shots the board shows. */
  lemma {:induction false} ShownFleetStored(w: World, id: nat, coin: bool, now: int)
    requires StoredTexts(w.server) && Told(w.client.own, w.story)
    requires AllStraight(w.story.fleet) && OneOfEach(w.story.fleet)
    requires w.client.user != 0 && (id, w.client.user) !in w.server.placements
    ensures var p, ships := w.client.user, w.client.own.ships;
            var after := PlaceFleet(w.server, id, p, ships, coin, now);
            (id, p) in after.placements && after.placements[(id, p)] == StoredText(w.story.fleet)
  {
    var fleet, ships := w.story.fleet, w.client.own.ships;
    ShownShipsText(fleet, w.story.shots);
    assert ships == ShipsAfter(fleet, w.story.shots);
    hide ValidFleet, StoredText, PlaceFleet, StoredTexts;
    SubmissionStored(w.server, id, w.client.user, ships, coin, now);
  }

  lemma {:induction false} ShownShipsText(fleet: seq<Ship>, shots: set<Coord>)
    requires Deployed(fleet) && AllStraight(fleet) && OneOfEach(fleet)
    ensures ValidFleet(ShipsAfter(fleet, shots)) && StoredText(ShipsAfter(fleet, shots)) == StoredText(fleet)
  {
    FullFleetValid(fleet);
    assert Records(ShipsAfter(fleet, shots)) == Records(fleet);
  }

  /** The stored text of a full fleet is loaded as that fleet. */
  lemma {:induction false} FullFleetLoads(fleet: seq<Ship>)
    requires Deployed(fleet) && AllStraight(fleet) && OneOfEach(fleet)
    ensures FleetFrom(StoredText(fleet)) == fleet
  {
    DefenderReplica(fleet, []);
    hide View, StoredText, Loadable, ParseFleet, LoadText;
  }

  /** A player whose shown full fleet is the stored one sees the server's own board if and only if the shots of others
      reported since the board was cleared, in all the player's matches, went to the same cells of the grid as those of
      the live game. */
  lemma {:induction false} SubmittedBoardAgreesIff(pow10: real -> real, start: Ratings, p: nat, w: World, id: nat)
    requires Watched(pow10, start, p, w, id)
    requires Deployed(w.story.fleet) && AllStraight(w.story.fleet) && OneOfEach(w.story.fleet)
    requires PlacementOf(w.server, id, p) == StoredText(w.story.fleet)
    ensures OwnBoardAgrees(w, id) <==>
            w.story.shots == Targets(TargetsBy(w.server.active[id].history, Foe(w.server, id, p)))
  {
    hide Reached, Deployed, AllStraight, OneOfEach, StoredText, FleetFrom, OwnBoardAgrees;
    FullFleetLoads(w.story.fleet);
    OwnBoardAgreesIff(pow10, start, p, w, id);
  }

  // ---------------------------------------------------------------- shots of other matches

  lemma {:induction false} ReachedNext(pow10: real -> real, start: Ratings, p: nat, w: World, e: Event)
    requires PowerLike(pow10) && Reached(pow10, start, p, w) && InOrder(pow10, start, w)
    ensures Reached(pow10, start, p, AfterEvent(pow10, start, w, e))
  {
    hide Inv, AfterEvent;
    var s, hs :| Inv(pow10, start, s) && Legal(pow10, start, Begun(s, p), hs) &&
                 w == Watch(pow10, start, Begun(s, p), hs);
    var longer := hs + [Served(e)];
    assert longer[..|hs|] == hs && longer[|hs|] == Served(e);
    assert Legal(pow10, start, Begun(s, p), longer);
    assert AfterEvent(pow10, start, w, e) == Watch(pow10, start, Begun(s, p), longer);
  }

  /** A move in another match leaves the live match, the players and the placements of this one. */
  lemma {:induction false} MoveElsewhere(pow10: real -> real, s: Server, e: Event, id: nat)
    requires PowerLike(pow10) && StoredTexts(s) && LiveGrids(s) && id in s.active && e.MoveMade? && e.id != id
    ensures id in ServerSpec.Step(pow10, s, e).active && ServerSpec.Step(pow10, s, e).active[id] == s.active[id]
  {
    hide Rate, ProcessMove, AllShipsSunk;
  }

  lemma {:induction false} SameServerStory(s: Server, after: Server, id: nat, p: nat)
    requires id in s.active && id in after.active && after.active[id] == s.active[id]
    requires id in s.rows && (id, p) in s.placements && TablesKept(s, after)
    ensures ServerStory(after, id, p) == ServerStory(s, id, p)
  {
    hide FleetFrom, Targets, TargetsBy;
  }

  lemma {:induction false} MoveElsewhereWorld(pow10: real -> real, start: Ratings, w: World, id: nat, e: Event)
    requires PowerLike(pow10) && InOrder(pow10, start, w) && id in w.server.active && Plays(w.server, id, w.client.user)
    requires Reports(w.server, e, w.client.user) && e.user != w.client.user && e.id != id
    ensures var after := AfterEvent(pow10, start, w, e);
            && id in after.server.active && after.server.active[id] == w.server.active[id]
            && Plays(after.server, id, w.client.user)
            && ServerStory(after.server, id, w.client.user) == ServerStory(w.server, id, w.client.user)
            && after.story == Continue(w.story, ShotOp(e.target))
  {
    hide Inv, ServerStory, ServerSpec.Step, AfterMove, Healthy, Drawn, Continue, Plays, Moves, Register, Foe;
    MoveElsewhereServer(pow10, start, w.server, id, w.client.user, e);
  }

  lemma {:induction false} MoveElsewhereServer(pow10: real -> real, start: Ratings, s: Server, id: nat, p: nat,
                                               e: Event)
    requires PowerLike(pow10) && Inv(pow10, start, s) && id in s.active && Plays(s, id, p) && e.MoveMade? && e.id != id
    ensures StoredTexts(s) && LiveGrids(s)
    ensures var after := ServerSpec.Step(pow10, s, e);
            && id in after.active && after.active[id] == s.active[id] && Plays(after, id, p)
            && ServerStory(after, id, p) == ServerStory(s, id, p)
  {
    hide Inv, ServerStory, ServerSpec.Step, Healthy, MatchAfter;
    InvGrids(pow10, start, s);
    LiveBoard(pow10, start, s, id, Foe(s, id, p));
    MoveElsewhere(pow10, s, e, id);
    StepMatch(pow10, s, e, id);
    SameServerStory(s, ServerSpec.Step(pow10, s, e), id, p);
  }

  /** A shot that another player makes in another match of this client's user is drawn on the same own board: an
      agreement with a live match survives it if and only if it misses the grid or repeats a shot of the live game. */
  lemma {:induction false} OtherMatchKeepsIff(pow10: real -> real, start: Ratings, p: nat, w: World, id: nat, e: Event)
    requires Watched(pow10, start, p, w, id) && InOrder(pow10, start, w) && OwnBoardAgrees(w, id)
    requires Reports(w.server, e, p) && e.user != p && e.id != id
    ensures var after := AfterEvent(pow10, start, w, e);
            && id in after.server.active && id in after.server.rows
            && after.server.active[id] == w.server.active[id]
            && (OwnBoardAgrees(after, id) <==>
                !InGrid(e.target) || e.target in TargetsBy(w.server.active[id].history, Foe(w.server, id, p)))
  {
    var s, after := w.server, AfterEvent(pow10, start, w, e);
    hide Inv, Reached, OwnBoardAgrees, ServerStory, AfterEvent, Told, EnemyMarks, EnemyIsPicture, Drawn, Continue;
    ReachedFollows(pow10, start, p, w);
    MoveElsewhereWorld(pow10, start, w, id, e);
    ReachedNext(pow10, start, p, w, e);
    OwnBoardAgreesIff(pow10, start, p, w, id);
    OwnBoardAgreesIff(pow10, start, p, after, id);
    ShotKeepsStoryIff(w.story, e.target);
    if InGrid(e.target) {
      ServerShots(s, id, p, e.target);
    }
  }

  lemma {:induction false} ShotKeepsStoryIff(story: Story, target: Coord)
    ensures Continue(story, ShotOp(target)) == story <==> !InGrid(target) || target in story.shots
  {
  }

  lemma {:induction false} ServerShots(s: Server, id: nat, p: nat, target: Coord)
    requires id in s.active && id in s.rows && InGrid(target)
    ensures target in ServerStory(s, id, p).shots <==>
            target in TargetsBy(s.active[id].history, Foe(s, id, p))
  {
    hide FleetFrom, TargetsBy;
  }
}
