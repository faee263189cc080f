/** Two kinds of runs seen from one client: a game that nothing disturbs, and two matches of the same user. */
module ClientGames {
  import opened Protocol
  import opened BoardSpec
  import opened BoardLaws
  import opened BoardRuns
  import opened MatchSpec
  import opened MatchLaws
  import opened Elo
  import opened ServerSpec
  import opened ServerLaws
  import opened ServerTables
  import opened ServerReplicas
  import opened ShooterRuns
  import opened Replicas

  // ---------------------------------------------------------------- a game that nothing disturbs

  /** What the client was told about both boards is what happened in the live game. */
  ghost predicate InStepWith(w: World, id: nat)
    requires id in w.server.active && id in w.server.rows
  {
    && w.story == ServerStory(w.server, id, w.client.user)
    && w.aims == Aims(id, TargetsBy(w.server.active[id].history, w.client.user))
  }

  /** The event sends the user no MATCH_START, no result of another match, and submits no fleet for this one. */
  predicate LeavesAlone(s: Server, e: Event, id: nat, p: nat) {
    !Starts(s, e, p) && (Reports(s, e, p) ==> e.id == id) && !Submits(e, id)
  }

  lemma {:induction false} AimsGrow(id: nat, targets: seq<Coord>, target: Coord)
    ensures Aims(id, targets + [target]) == Aims(id, targets) + [Aimed(id, target)]
  {
  }

  /** What a move of the live game adds to both sides of the agreement. */
  lemma {:induction false} MoveStory(pow10: real -> real, start: Ratings, s: Server, id: nat, p: nat, e: Event)
    requires PowerLike(pow10) && Inv(pow10, start, s) && StoredTexts(s) && LiveGrids(s)
    requires id in s.active && Plays(s, id, p) && Moves(s, e, id)
    ensures var after := ServerSpec.Step(pow10, s, e);
            && id in after.rows
            && (id in after.active ==>
                 && ServerStory(after, id, p)
                    == (if e.user == p then ServerStory(s, id, p)
                        else Continue(ServerStory(s, id, p), ShotOp(e.target)))
                 && Aims(id, TargetsBy(after.active[id].history, p))
                    == Aims(id, TargetsBy(s.active[id].history, p))
                       + (if e.user == p then [Aimed(id, e.target)] else []))
  {
    hide Inv, ServerSpec.Step, FleetFrom, TargetsBy, Targets, Aims, MatchLaws.Entry, PlacementOf, Healthy, Accepts,
      FullGrids, StoredTexts;
    MoveAppends(pow10, start, s, e, id);
    PlayersKept(pow10, start, s, e, id, p);
    LiveFacts(pow10, start, s, id);
    var m, foe := s.active[id], Foe(s, id, p);
    HistorySnoc(m.history, MatchLaws.Entry(m, e.target, e.now), p);
    HistorySnoc(m.history, MatchLaws.Entry(m, e.target, e.now), foe);
    EntryFields(m, e.target, e.now);
    AimsGrow(id, TargetsBy(m.history, p), e.target);
    TargetsSnoc(TargetsBy(m.history, foe), e.target);
    assert Aims(id, TargetsBy(m.history, p)) + [] == Aims(id, TargetsBy(m.history, p));
  }

  lemma {:induction false} MoveInStep(pow10: real -> real, start: Ratings, w: World, id: nat, e: Event)
    requires PowerLike(pow10) && InOrder(pow10, start, w) && id in w.server.active && Plays(w.server, id, w.client.user)
    requires InStepWith(w, id) && Reports(w.server, e, w.client.user) && e.id == id
    ensures var after := AfterEvent(pow10, start, w, e);
            id in after.server.rows && (id in after.server.active ==> InStepWith(after, id))
  {
    hide Inv, ServerSpec.Step, ServerStory, AfterMove, TargetsBy, Aims, Continue, Healthy, Plays, Drawn;
    InvGrids(pow10, start, w.server);
    MoveStory(pow10, start, w.server, id, w.client.user, e);
  }

  lemma {:induction false} QuietInStep(pow10: real -> real, start: Ratings, w: World, id: nat, e: Event)
    requires PowerLike(pow10) && InOrder(pow10, start, w) && id in w.server.active && Plays(w.server, id, w.client.user)
    requires InStepWith(w, id) && LeavesAlone(w.server, e, id, w.client.user)
    requires !Reports(w.server, e, w.client.user)
    ensures var after := AfterEvent(pow10, start, w, e);
            id in after.server.rows && (id in after.server.active ==> InStepWith(after, id))
  {
    var s, p := w.server, w.client.user;
    hide Inv, ServerSpec.Step, ProcessMove, FleetFrom, Healthy, AfterMove, TargetsBy, Targets, Aims, Drawn, Submits,
      Starts;
    InvGrids(pow10, start, s);
    LiveFacts(pow10, start, s, id);
    LiveBoard(pow10, start, s, id, Foe(s, id, p));
    StepMatch(pow10, s, e, id);
    NotReported(s, e, p, id);
    NotRestarted(pow10, s, e, id);
  }

  /** Every event of the run leaves the game alone. */
  ghost predicate Undisturbed(pow10: real -> real, start: Ratings, w: World, events: seq<Event>, id: nat)
    requires PowerLike(pow10) && InOrder(pow10, start, w)
    decreases |events|
  {
    events == [] ||
    var front, last := events[..|events| - 1], events[|events| - 1];
    && Undisturbed(pow10, start, w, front, id)
    && LeavesAlone(AfterEvents(pow10, start, w, front).server, last, id, w.client.user)
  }

  /** The world after a list of server events. */
  ghost function AfterEvents(pow10: real -> real, start: Ratings, w: World, events: seq<Event>): (r: World)
    requires PowerLike(pow10) && InOrder(pow10, start, w)
    ensures InOrder(pow10, start, r) && r.client.user == w.client.user
    decreases |events|
  {
    if events == [] then w
    else AfterEvent(pow10, start, AfterEvents(pow10, start, w, events[..|events| - 1]), events[|events| - 1])
  }

  lemma {:induction false} UndisturbedRun(pow10: real -> real, start: Ratings, p: nat, w: World, events: seq<Event>,
                                          id: nat)
    requires Watched(pow10, start, p, w, id) && InOrder(pow10, start, w) && w.client.user == p && InStepWith(w, id)
    requires Undisturbed(pow10, start, w, events, id)
    ensures var after := AfterEvents(pow10, start, w, events);
            && Reached(pow10, start, p, after) && Plays(after.server, id, p)
            && (id in after.server.active ==> InStepWith(after, id))
    decreases |events|
  {
    hide Inv, Reached, InStepWith, AfterEvent, LeavesAlone, Drawn;
    if events != [] {
      var front, last := events[..|events| - 1], events[|events| - 1];
      UndisturbedRun(pow10, start, p, w, front, id);
      var before := AfterEvents(pow10, start, w, front);
      ReachedNext(pow10, start, p, before, last);
      UndisturbedStep(pow10, start, p, before, id, last);
    }
  }

  lemma {:induction false} UndisturbedStep(pow10: real -> real, start: Ratings, p: nat, w: World, id: nat, e: Event)
    requires PowerLike(pow10) && InOrder(pow10, start, w) && w.client.user == p && Plays(w.server, id, p)
    requires id in w.server.active ==> InStepWith(w, id)
    requires LeavesAlone(w.server, e, id, p)
    ensures var after := AfterEvent(pow10, start, w, e);
            Plays(after.server, id, p) && (id in after.server.active ==> InStepWith(after, id))
  {
    var s := w.server;
    InvGrids(pow10, start, s);
    StepMatch(pow10, s, e, id);
    if id in s.active {
      if Reports(s, e, p) {
        MoveInStep(pow10, start, w, id, e);
      } else {
        QuietInStep(pow10, start, w, id, e);
      }
    } else {
      NotRestarted(pow10, s, e, id);
    }
    hide Inv, InStepWith, ServerSpec.Step, MatchAfter, Starts, Submits, AfterMove, Drawn;
  }

  lemma {:induction false} NewGameInStep(w: World, id: nat)
    requires id in w.server.active && id in w.server.rows && w.server.active[id].history == []
    requires w.story == ServerStory(w.server, id, w.client.user) && w.aims == []
    ensures InStepWith(w, id)
  {
    NoTargets(w.client.user);
    assert Aims(id, []) == [];
  }

  /** A game that has just started on boards that agree with it, and that no MATCH_START, result of another match or
      further submission disturbs: at every point both boards agree with it. The own board is the server's, and the
      enemy board is the picture that the own shots paint. */
  lemma {:induction false} UndisturbedGameAgrees(pow10: real -> real, start: Ratings, p: nat, w: World,
                                                 events: seq<Event>, id: nat)
    requires Watched(pow10, start, p, w, id) && InOrder(pow10, start, w) && w.client.user == p
    requires w.server.active[id].history == [] && OwnBoardAgrees(w, id) && w.aims == []
    requires Undisturbed(pow10, start, w, events, id)
    ensures var after := AfterEvents(pow10, start, w, events);
            && id in after.server.rows
            && (id in after.server.active ==>
                 var m, foe := after.server.active[id], Foe(after.server, id, p);
                 var prey := FleetFrom(PlacementOf(after.server, id, foe));
                 && OwnBoardAgrees(after, id)
                 && after.client.enemy == Picture(prey, TargetsBy(m.history, p))
                 && TargetBoard(m, p) == Shots(View(prey, {}), TargetsBy(m.history, p)))
  {
    hide Inv, Reached, Undisturbed, AfterEvents, Drawn, TargetsBy, Aims, OwnBoardAgrees, ServerStory, FleetFrom,
      Picture, View, Shots, TargetBoard, PlacementOf;
    OwnBoardAgreesIff(pow10, start, p, w, id);
    NewGameInStep(w, id);
    UndisturbedRun(pow10, start, p, w, events, id);
    var after := AfterEvents(pow10, start, w, events);
    if id in after.server.active {
      OwnBoardAgreesIff(pow10, start, p, after, id);
      EnemyBoardAgrees(pow10, start, p, after, id);
    }
  }
}
