/** Both clients' boards during a match, driven only by the MOVE_RESULT messages of the server.
    (server/src/gameplay_handler.cpp, client/src/ui_lobby.cpp) */
module Replicas {
  import opened Protocol
  import opened BoardSpec
  import opened BoardLaws
  import opened BoardRuns
  import opened MatchSpec
  import opened MatchLaws
  import opened ServerSpec
  import opened ShooterSpec
  import opened ShooterLaws
  import opened ShooterRuns
  import opened TargetSpec
  import opened TargetLaws

  /** What one client shows: its own board and what it knows of the opponent's. */
  datatype Client = Client(user: nat, own: BoardState, enemy: BoardState)

  ghost predicate Drawn(c: Client) {
    FullGrid(c.own) && FullGrid(c.enemy)
  }

  function OnMoveResult(c: Client, message: MoveResult): Client
    requires Drawn(c) && Answerable(message.target, message.result)
  {
    if message.shooter == c.user then
      c.(enemy := OnMyShot(c.enemy, message.target, message.result, message.shipSunk))
    else
      c.(own := ShotBoard(c.own, message.target))
  }

  /** The message carries the server's reply to the shot. */
  lemma {:induction false} MessageIsReply(m: MatchValue, user: nat, target: Coord, now: int)
    requires Grids(m) && Accepts(m, user)
    ensures var message, reply := MoveMessage(m, user, target, now), ServerReply(TargetBoard(m, user), target);
            && message.shooter == user && message.target == target
            && message.result == reply.result && message.shipSunk == reply.typ
            && Answerable(target, message.result)
  {
    hide SunkType, Shot, AllShipsSunk, FullGrid;
    var next := ProcessMove(m, user, target, now).value;
    assert TargetBoard(next, user) == Shot(TargetBoard(m, user), target).board;
  }

  /** A client after the messages that the server sends while it handles `calls`; refused calls send none. */
  ghost function ClientAfter(m: MatchValue, c: Client, calls: seq<Call>): (r: Client)
    requires Grids(m) && Drawn(c)
    ensures Drawn(r) && r.user == c.user
    decreases |calls|
  {
    if calls == [] then c
    else
      var front, last := calls[..|calls| - 1], calls[|calls| - 1];
      var before := Play(m, front);
      if !Accepts(before, last.player) then ClientAfter(m, c, front)
      else
        MessageIsReply(before, last.player, last.target, last.now);
        var after := OnMoveResult(ClientAfter(m, c, front), MoveMessage(before, last.player, last.target, last.now));
        assert FullGrid(after.own) && FullGrid(after.enemy);
        after
  }

  /** The client's own board is the server's board of that player, and its other board is the picture that
      the shooter's own targets paint. */
  ghost predicate InStep(s: Setup, m: MatchValue, c: Client) {
    && c.own == TargetBoard(m, Other(s, c.user))
    && c.enemy == Picture(Prey(s, c.user), TargetsBy(m.history, c.user))
  }

  function Joined(s: Setup, p: nat): Client {
    Client(p, View(Prey(s, Other(s, p)), {}), EmptyBoard())
  }

  lemma {:induction false} PictureSnoc(fleet: seq<Ship>, targets: seq<Coord>, target: Coord)
    ensures var reply := ServerReply(Shots(View(fleet, {}), targets), target);
            Picture(fleet, targets + [target]) == OnMyShot(Picture(fleet, targets), target, reply.result, reply.typ)
  {
    assert (targets + [target])[..|targets|] == targets;
  }

  lemma {:induction false} MessageKeepsInStep(s: Setup, m: MatchValue, c: Client, call: Call)
    requires Sound(s, m) && Drawn(c) && InStep(s, m, c) && Accepts(m, call.player)
    requires c.user == s.player1 || c.user == s.player2
    requires var message := MoveMessage(m, call.player, call.target, call.now);
             Answerable(message.target, message.result)
    ensures InStep(s, ProcessMove(m, call.player, call.target, call.now).value,
                   OnMoveResult(c, MoveMessage(m, call.player, call.target, call.now)))
  {
    MessageIsReply(m, call.player, call.target, call.now);
    MoveFacts(m, call.target, call.now);
    HistorySnoc(m.history, MatchLaws.Entry(m, call.target, call.now), c.user);
    assert ExplainedFor(s, m, c.user) && (m.current == s.player1 || m.current == s.player2);
    PictureSnoc(Prey(s, c.user), TargetsBy(m.history, c.user), call.target);
    hide Sound, MoveMessage, ProcessMove, View, OnMyShot, ServerReply, Shots, TargetsBy, FullGrid, Shot, Picture,
      AllShipsSunk;
  }

  /** Both clients stay in step with the server over every run of calls. */
  lemma {:induction false} ClientsInStep(s: Setup, start: int, calls: seq<Call>, p: nat)
    requires Proper(s) && (p == s.player1 || p == s.player2)
    ensures InStep(s, Play(StartedMatch(s, start), calls), ClientAfter(StartedMatch(s, start), Joined(s, p), calls))
    decreases |calls|
  {
    var m, c := StartedMatch(s, start), Joined(s, p);
    if calls != [] {
      var front, last := calls[..|calls| - 1], calls[|calls| - 1];
      ClientsInStep(s, start, front, p);
      PlaySound(s, start, front);
      if Accepts(Play(m, front), last.player) {
        MessageIsReply(Play(m, front), last.player, last.target, last.now);
        MessageKeepsInStep(s, Play(m, front), ClientAfter(m, c, front), last);
      }
    }
  }

  /** A player who never repeats a target, against a fleet whose ships do not touch, sees exactly the misses,
      the hits on floating ships and the sunk ships of the server's board, at every point of the match. */
  lemma {:induction false} ShooterSeesServer(s: Setup, start: int, calls: seq<Call>, p: nat)
    requires Proper(s) && (p == s.player1 || p == s.player2)
    requires Regular(Prey(s, p)) && Untouching(Prey(s, p))
    requires NoRepeat(TargetsBy(Play(StartedMatch(s, start), calls).history, p))
    ensures var m := Play(StartedMatch(s, start), calls);
            var shots := Targets(TargetsBy(m.history, p));
            && ClientAfter(StartedMatch(s, start), Joined(s, p), calls).enemy == Seen(Prey(s, p), shots)
            && TargetBoard(m, p) == View(Prey(s, p), shots)
  {
    ClientsInStep(s, start, calls, p);
    PlaySound(s, start, calls);
    var m := Play(StartedMatch(s, start), calls);
    PictureExact(Prey(s, p), TargetsBy(m.history, p));
    ShotsFromStart(Prey(s, p), TargetsBy(m.history, p));
  }

  /** So does a player whose answered shots come from careful play, whatever else that player's client did. */
  lemma {:induction false} CarefulShooterSeesServer(s: Setup, start: int, calls: seq<Call>, p: nat, aim: Aim,
                                                    acts: seq<Act>)
    requires Proper(s) && (p == s.player1 || p == s.player2)
    requires Regular(Prey(s, p)) && Untouching(Prey(s, p))
    requires Fresh(aim) && Careful(Prey(s, p), aim, acts)
    requires TargetsBy(Play(StartedMatch(s, start), calls).history, p) == DoAll(Prey(s, p), aim, acts).answered
    ensures var m := Play(StartedMatch(s, start), calls);
            var shots := Targets(TargetsBy(m.history, p));
            && ClientAfter(StartedMatch(s, start), Joined(s, p), calls).enemy == Seen(Prey(s, p), shots)
            && TargetBoard(m, p) == View(Prey(s, p), shots)
  {
    hide Play, StartedMatch, ClientAfter, Joined, Regular, Untouching, Careful, DoAll;
    CarefulPlayNoRepeat(Prey(s, p), aim, acts);
    NoRepeatFront(DoAll(Prey(s, p), aim, acts).answered, DoAll(Prey(s, p), aim, acts).waiting);
    ShooterSeesServer(s, start, calls, p);
  }
}
