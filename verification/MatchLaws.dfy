/** What holds in every match reachable by calls of `processMove`. */
module MatchLaws {
  import opened Protocol
  import opened BoardSpec
  import opened BoardLaws
  import opened BoardRuns
  import opened Deployment
  import opened MatchSpec

  // ---------------------------------------------------------------- reading a history

  function Misses(history: seq<Move>): (n: nat)
    ensures n <= |history|
  {
    if history == [] then 0
    else Misses(history[..|history| - 1]) + (if history[|history| - 1].result == ShotMiss then 1 else 0)
  }

  /** The targets of one player, in order. */
  function TargetsBy(history: seq<Move>, player: nat): (targets: seq<Coord>) {
    if history == [] then []
    else
      var last := history[|history| - 1];
      TargetsBy(history[..|history| - 1], player) + (if last.player == player then [last.target] else [])
  }

  /** The results of one player's shots, in order. */
  function ResultsBy(history: seq<Move>, player: nat): (results: seq<ShotResult>) {
    if history == [] then []
    else
      var last := history[|history| - 1];
      ResultsBy(history[..|history| - 1], player) + (if last.player == player then [last.result] else [])
  }

  /** When the running turn began: at the last miss, or at the start of the match when there was none. */
  function TurnBegan(history: seq<Move>, start: int): int {
    if history == [] then start
    else
      var last := history[|history| - 1];
      if last.result == ShotMiss then last.timestamp else TurnBegan(history[..|history| - 1], start)
  }

  datatype Setup = Setup(player1: nat, player2: nat, fleet1: seq<Ship>, fleet2: seq<Ship>, first: nat)

  ghost predicate Proper(s: Setup) {
    && s.player1 != s.player2
    && (s.first == s.player1 || s.first == s.player2)
    && Deployed(s.fleet1) && Deployed(s.fleet2)
  }

  /** Who moves after `n` misses. */
  function Mover(s: Setup, n: nat): nat {
    if n % 2 == 0 then s.first else if s.first == s.player1 then s.player2 else s.player1
  }

  function Other(s: Setup, player: nat): nat {
    if player == s.player1 then s.player2 else s.player1
  }

  /** The fleet a player shoots at. */
  function Prey(s: Setup, player: nat): seq<Ship> {
    if player == s.player1 then s.fleet2 else s.fleet1
  }

  function StartedMatch(s: Setup, now: int): MatchValue {
    StartMatch(NewMatch(s.player1, s.player2).(board1 := View(s.fleet1, {}), board2 := View(s.fleet2, {})), now)
      .(current := s.first)
  }

  // ---------------------------------------------------------------- the invariant

  /** Turn law: every entry carries one plus the number of misses before it, and was made by the
      player whom the parity of that number designates. */
  ghost predicate TurnLaw(s: Setup, history: seq<Move>) {
    forall k :: 0 <= k < |history| ==>
      && history[k].number == 1 + Misses(history[..k])
      && history[k].player == Mover(s, Misses(history[..k]))
  }

  /** The history explains the board a player shoots at and every answer that player got. */
  ghost predicate ExplainedFor(s: Setup, m: MatchValue, p: nat) {
    && TargetBoard(m, p) == Shots(View(Prey(s, p), {}), TargetsBy(m.history, p))
    && ResultsBy(m.history, p) == Answers(View(Prey(s, p), {}), TargetsBy(m.history, p))
  }

  ghost predicate Explained(s: Setup, m: MatchValue) {
    ExplainedFor(s, m, s.player1) && ExplainedFor(s, m, s.player2)
  }

  /** While the match is active neither fleet is sunk; afterwards exactly the winner's opponent is. */
  ghost predicate OneLoser(s: Setup, m: MatchValue) {
    if m.active then !AllShipsSunk(m.board1) && !AllShipsSunk(m.board2)
    else
      && m.history != []
      && m.winner == m.history[|m.history| - 1].player == m.current
      && AllShipsSunk(TargetBoard(m, m.winner))
      && !AllShipsSunk(TargetBoard(m, Other(s, m.winner)))
      && m.result == (if m.winner == s.player1 then ResultWin else ResultLoss)
  }

  /** Clock law: the turn clock has run since the last miss, each turn may take 60 seconds, and the match ended with
      its last move. */
  ghost predicate ClockLaw(m: MatchValue) {
    && m.turnTimeLimit == 60
    && m.turnStart == TurnBegan(m.history, m.startTime)
    && (if m.active then m.endTime == 0 else m.history != [] && m.endTime == m.history[|m.history| - 1].timestamp)
  }

  ghost predicate Sound(s: Setup, m: MatchValue) {
    && Proper(s)
    && m.player1 == s.player1 && m.player2 == s.player2 && !m.paused
    && Grids(m)
    && m.turnNumber == 1 + Misses(m.history)
    && m.current == Mover(s, Misses(m.history))
    && TurnLaw(s, m.history)
    && Explained(s, m)
    && OneLoser(s, m)
    && ClockLaw(m)
  }

  lemma {:induction false} StartedSound(s: Setup, now: int)
    requires Proper(s)
    ensures Sound(s, StartedMatch(s, now)) && StartedMatch(s, now).active
  {
    NothingDown(s.fleet1);
    NothingDown(s.fleet2);
  }

  lemma {:induction false} HistorySnoc(history: seq<Move>, move: Move, player: nat)
    ensures Misses(history + [move]) == Misses(history) + (if move.result == ShotMiss then 1 else 0)
    ensures TargetsBy(history + [move], player)
         == if move.player == player then TargetsBy(history, player) + [move.target] else TargetsBy(history, player)
    ensures ResultsBy(history + [move], player)
         == if move.player == player then ResultsBy(history, player) + [move.result] else ResultsBy(history, player)
  {
    assert (history + [move])[..|history|] == history;
  }

  lemma {:induction false} TurnBeganSnoc(history: seq<Move>, move: Move, start: int)
    ensures TurnBegan(history + [move], start)
         == if move.result == ShotMiss then move.timestamp else TurnBegan(history, start)
  {
    assert (history + [move])[..|history|] == history;
  }

  lemma {:induction false} TurnLawSnoc(s: Setup, history: seq<Move>, move: Move)
    requires TurnLaw(s, history)
    requires move.number == 1 + Misses(history) && move.player == Mover(s, Misses(history))
    ensures TurnLaw(s, history + [move])
  {
    var longer := history + [move];
    forall k | 0 <= k < |longer|
      ensures longer[k].number == 1 + Misses(longer[..k]) && longer[k].player == Mover(s, Misses(longer[..k]))
    {
      assert longer[..k] == history[..k];
      assert history[..|history|] == history;
    }
  }

  /** The entry an accepted move appends to the history. */
  function Entry(m: MatchValue, target: Coord, now: int): Move
    requires FullGrid(m.board1) && FullGrid(m.board2)
  {
    Move(m.turnNumber, m.current, target, Shot(TargetBoard(m, m.current), target).result, now)
  }

  lemma {:induction false} MoveFacts(m: MatchValue, target: Coord, now: int)
    requires Grids(m) && m.active && !m.paused
    ensures var next := ProcessMove(m, m.current, target, now).value;
            var shot := Shot(TargetBoard(m, m.current), target);
            && next.player1 == m.player1 && next.player2 == m.player2 && !next.paused
            && next.history == m.history + [Entry(m, target, now)]
            && TargetBoard(next, m.current) == shot.board
            && (m.current == m.player1 ==> next.board1 == m.board1)
            && (m.current != m.player1 ==> next.board2 == m.board2)
            && next.active == !AllShipsSunk(shot.board)
  {
  }

  lemma {:induction false} MoverExplained(s: Setup, m: MatchValue, target: Coord, now: int)
    requires Grids(m) && m.active && !m.paused
    requires ExplainedFor(s, m, m.current)
    ensures ExplainedFor(s, ProcessMove(m, m.current, target, now).value, m.current)
  {
    MoveFacts(m, target, now);
    AnswersSnoc(View(Prey(s, m.current), {}), TargetsBy(m.history, m.current), target);
    HistorySnoc(m.history, Entry(m, target, now), m.current);
  }

  lemma {:induction false} OtherExplained(s: Setup, m: MatchValue, target: Coord, now: int, p: nat)
    requires Grids(m) && m.active && !m.paused && m.player1 == s.player1
    requires p != m.current && (p == s.player1 || m.current == s.player1)
    requires ExplainedFor(s, m, p)
    ensures ExplainedFor(s, ProcessMove(m, m.current, target, now).value, p)
  {
    MoveFacts(m, target, now);
    HistorySnoc(m.history, Entry(m, target, now), p);
  }

  /** Only a shot that sinks a ship lowers the counter of remaining ships, so the loser is settled
      while it is still the winner's turn. */
  lemma {:induction false} SinkingShot(b: BoardState, target: Coord)
    requires FullGrid(b)
    ensures var shot := Shot(b, target);
            shot.board.remaining == if shot.result == ShotSunk then b.remaining - 1 else b.remaining
  {
  }

  /** What one accepted move does to the turn machine. */
  lemma {:induction false} TurnStep(s: Setup, m: MatchValue, target: Coord, now: int)
    requires m.player1 == s.player1 && m.player2 == s.player2 && Grids(m)
    requires s.player1 != s.player2 && (s.first == s.player1 || s.first == s.player2)
    requires m.active && !m.paused && !AllShipsSunk(TargetBoard(m, m.current))
    requires m.turnNumber == 1 + Misses(m.history) && m.current == Mover(s, Misses(m.history))
    ensures var next := ProcessMove(m, m.current, target, now).value;
            && next.turnNumber == 1 + Misses(next.history)
            && next.current == Mover(s, Misses(next.history))
  {
    var entry := Entry(m, target, now);
    HistorySnoc(m.history, entry, m.current);
    SinkingShot(TargetBoard(m, m.current), target);
    MoveFacts(m, target, now);
    var missed := entry.result == ShotMiss;
    var next := ProcessMove(m, m.current, target, now).value;
    assert next.turnNumber == m.turnNumber + (if missed then 1 else 0);
    assert next.current == if missed then Opponent(m, m.current) else m.current;
  }

  /** A miss restarts the turn clock; a hit lets it run on, and the move that ends the match stamps the end. */
  lemma {:induction false} ClockStep(m: MatchValue, target: Coord, now: int)
    requires Grids(m) && m.active && !m.paused && !AllShipsSunk(TargetBoard(m, m.current)) && ClockLaw(m)
    ensures var next := ProcessMove(m, m.current, target, now).value;
            ClockLaw(next) && next.startTime == m.startTime
  {
    SinkingShot(TargetBoard(m, m.current), target);
    MoveFacts(m, target, now);
    TurnBeganSnoc(m.history, Entry(m, target, now), m.startTime);
    hide Shot;
  }

  lemma {:induction false} OneLoserStep(s: Setup, m: MatchValue, target: Coord, now: int)
    requires Proper(s) && m.player1 == s.player1 && m.player2 == s.player2 && Grids(m)
    requires m.active && !m.paused && (m.current == s.player1 || m.current == s.player2) && OneLoser(s, m)
    ensures OneLoser(s, ProcessMove(m, m.current, target, now).value)
  {
    MoveFacts(m, target, now);
    var next := ProcessMove(m, m.current, target, now).value;
    if !next.active {
      SinkingShot(TargetBoard(m, m.current), target);
      assert next == EndMatch(next, m.current, now);
      assert next.current == m.current;
      assert TargetBoard(next, Other(s, m.current)) == TargetBoard(m, Other(s, m.current));
    }
  }

  /** Every call of `processMove` keeps the match sound. */
  lemma {:induction false} MoveKeepsSound(s: Setup, m: MatchValue, player: nat, target: Coord, now: int)
    requires Sound(s, m)
    ensures Sound(s, ProcessMove(m, player, target, now).value)
  {
    if Accepts(m, player) {
      AcceptedMoveSound(s, m, target, now);
    }
  }

  lemma {:induction false} AcceptedMoveSound(s: Setup, m: MatchValue, target: Coord, now: int)
    requires Sound(s, m) && m.active
    ensures Sound(s, ProcessMove(m, m.current, target, now).value)
  {
    ProcessMoveGrids(m, m.current, target, now);
    MoveFacts(m, target, now);
    MoverExplained(s, m, target, now);
    OtherExplained(s, m, target, now, Other(s, m.current));
    TurnStep(s, m, target, now);
    TurnLawSnoc(s, m.history, Entry(m, target, now));
    OneLoserStep(s, m, target, now);
    ClockStep(m, target, now);
  }

  /** A call changes the match if and only if the match is running, not paused, and the caller is on turn; any other
      call answers MISS. */
  lemma {:induction false} MoveRefusedIff(m: MatchValue, player: nat, target: Coord, now: int)
    requires Grids(m)
    ensures var out := ProcessMove(m, player, target, now);
            && (out.value == m <==> !m.active || m.paused || player != m.current)
            && (out.value == m ==> out.result == ShotMiss)
            && (out.value != m ==>
                 |out.value.history| == |m.history| + 1 && out.value.history[|m.history|].player == player
                 && out.value.history[|m.history|].target == target && out.value.history[|m.history|].timestamp == now
                 && out.value.history[|m.history|].result == out.result
                    == Shot(TargetBoard(m, player), target).result)
  {
    hide Shot;
    if m.active && !m.paused && player == m.current {
      MoveFacts(m, target, now);
    }
  }

  // ---------------------------------------------------------------- runs

  datatype Call = Call(player: nat, target: Coord, now: int)

  function Play(m: MatchValue, calls: seq<Call>): (r: MatchValue)
    requires FullGrid(m.board1) && FullGrid(m.board2)
    ensures FullGrid(r.board1) && FullGrid(r.board2)
    decreases |calls|
  {
    if calls == [] then m
    else
      var before := Play(m, calls[..|calls| - 1]);
      var last := calls[|calls| - 1];
      ProcessMoveGrids(before, last.player, last.target, last.now);
      ProcessMove(before, last.player, last.target, last.now).value
  }

  lemma {:induction false} MoveKeepsStart(m: MatchValue, player: nat, target: Coord, now: int)
    requires Grids(m)
    ensures ProcessMove(m, player, target, now).value.startTime == m.startTime
  {
    hide Shot;
  }

  /** Turn law, history law, win law and clock law hold after every list of calls, rejected ones included; the clock
      counts from the start of the match. */
  lemma {:induction false} PlaySound(s: Setup, start: int, calls: seq<Call>)
    requires Proper(s)
    ensures Sound(s, Play(StartedMatch(s, start), calls))
    ensures Play(StartedMatch(s, start), calls).startTime == start
    decreases |calls|
  {
    hide Sound, ProcessMove;
    StartedSound(s, start);
    if calls != [] {
      var last := calls[|calls| - 1];
      var before := Play(StartedMatch(s, start), calls[..|calls| - 1]);
      PlaySound(s, start, calls[..|calls| - 1]);
      MoveKeepsSound(s, before, last.player, last.target, last.now);
      MoveKeepsStart(before, last.player, last.target, last.now);
    }
  }

  /** The calls of a list that the match accepts when they come. */
  function AcceptedCalls(m: MatchValue, calls: seq<Call>): seq<Call>
    requires FullGrid(m.board1) && FullGrid(m.board2)
    decreases |calls|
  {
    if calls == [] then []
    else
      var front, last := calls[..|calls| - 1], calls[|calls| - 1];
      AcceptedCalls(m, front) + (if Accepts(Play(m, front), last.player) then [last] else [])
  }

  /** The history is exactly the accepted calls: who called, where, and when. Refused calls answer MISS and leave no
      trace. */
  lemma {:induction false} HistoryIsAccepted(m: MatchValue, calls: seq<Call>)
    requires FullGrid(m.board1) && FullGrid(m.board2) && m.history == []
    ensures CallsOf(Play(m, calls).history) == AcceptedCalls(m, calls)
    ensures forall call: Call :: !Accepts(Play(m, calls), call.player) ==>
              ProcessMove(Play(m, calls), call.player, call.target, call.now) == MoveOutcome(Play(m, calls), ShotMiss)
    decreases |calls|
  {
    if calls != [] {
      var front, last := calls[..|calls| - 1], calls[|calls| - 1];
      HistoryIsAccepted(m, front);
      if Accepts(Play(m, front), last.player) {
        CallsOfSnoc(Play(m, front), last);
      }
    }
  }

  /** Over every run of calls, with a clock that has not stepped back and a start that is not 0: the turn is timed out
      if and only if the match runs and at least 60 seconds have passed since the last miss or, without one, since the
      start; and until then the rest of the 60 seconds remains. */
  lemma {:induction false} TimedOutAfter60(s: Setup, start: int, calls: seq<Call>, now: int)
    requires Proper(s)
    ensures var m := Play(StartedMatch(s, start), calls);
            var began := TurnBegan(m.history, start);
            && (began == 0 ==> !TurnTimedOut(m, now))
            && (began != 0 && began <= now < began + TWO_TO_THE_64 ==>
                 && (TurnTimedOut(m, now) <==> m.active && now - began >= 60)
                 && (m.active ==> TurnTimeRemaining(m, now) == if now - began >= 60 then 0 else 60 - (now - began)))
  {
    hide Play, TurnBegan;
    PlaySound(s, start, calls);
    var m := Play(StartedMatch(s, start), calls);
    SoundClock(s, m, now);
  }

  lemma {:induction false} SoundClock(s: Setup, m: MatchValue, now: int)
    requires Sound(s, m)
    ensures var began := TurnBegan(m.history, m.startTime);
            && (began == 0 ==> !TurnTimedOut(m, now))
            && (began != 0 && began <= now < began + TWO_TO_THE_64 ==>
                 && (TurnTimedOut(m, now) <==> m.active && now - began >= 60)
                 && (m.active ==> TurnTimeRemaining(m, now) == if now - began >= 60 then 0 else 60 - (now - began)))
  {
    hide TurnBegan, Explained, OneLoser, TurnLaw, Grids, Proper;
  }

  function CallsOf(history: seq<Move>): seq<Call> {
    seq(|history|, i requires 0 <= i < |history| =>
      Call(history[i].player, history[i].target, history[i].timestamp))
  }

  /** History replay: feeding the recorded moves to a fresh match rebuilds the whole match, boards,
      turn, clock and winner included; calls that were refused left no trace. */
  lemma {:induction false} HistoryReplays(m: MatchValue, calls: seq<Call>)
    requires FullGrid(m.board1) && FullGrid(m.board2) && m.history == []
    ensures var end := Play(m, calls); Play(m, CallsOf(end.history)) == end
    decreases |calls|
  {
    if calls == [] {
    } else {
      var last := calls[|calls| - 1];
      var before := Play(m, calls[..|calls| - 1]);
      HistoryReplays(m, calls[..|calls| - 1]);
      if Accepts(before, last.player) {
        CallsOfSnoc(before, last);
        var recorded := CallsOf(before.history);
        assert (recorded + [last])[..|recorded|] == recorded;
      }
    }
  }

  lemma {:induction false} CallsOfSnoc(m: MatchValue, call: Call)
    requires Grids(m) && Accepts(m, call.player)
    ensures CallsOf(ProcessMove(m, call.player, call.target, call.now).value.history) == CallsOf(m.history) + [call]
  {
    var shot := Shot(TargetBoard(m, call.player), call.target);
    var move := Move(m.turnNumber, call.player, call.target, shot.result, call.now);
    assert ProcessMove(m, call.player, call.target, call.now).value.history == m.history + [move];
  }

  // ---------------------------------------------------------------- consequences of the turn law

  lemma {:induction false} MissesGrow(history: seq<Move>, j: nat, k: nat)
    requires j <= k <= |history|
    ensures Misses(history[..j]) <= Misses(history[..k])
    ensures j < k && history[j].result == ShotMiss ==> Misses(history[..j]) < Misses(history[..k])
  {
    if j < k {
      MissesGrow(history, j, k - 1);
      assert history[..k][..k - 1] == history[..k - 1];
    }
  }

  /** All moves of one turn are made by one player and all but the last of them hit. */
  lemma {:induction false} OneTurnOnePlayer(s: Setup, history: seq<Move>, j: nat, k: nat)
    requires TurnLaw(s, history) && j < k < |history|
    requires history[j].number == history[k].number
    ensures history[j].player == history[k].player && history[j].result != ShotMiss
  {
    MissesGrow(history, j, k);
  }

  // ---------------------------------------------------------------- the end of a full match

  /** With full fleets the winner has hit exactly 17 times, and 5 of these shots sank a ship. */
  lemma {:induction false} WinnerHits17(s: Setup, m: MatchValue)
    requires Sound(s, m) && !m.active
    requires AllStraight(Prey(s, m.winner)) && OneOfEach(Prey(s, m.winner))
    ensures Count(ResultsBy(m.history, m.winner), ShotSunk) == 5
    ensures Count(ResultsBy(m.history, m.winner), ShotHit) == 12
  {
    SunkFleetAnswers(Prey(s, m.winner), TargetsBy(m.history, m.winner));
  }

  lemma {:induction false} SunkFleetAnswers(fleet: seq<Ship>, targets: seq<Coord>)
    requires Deployed(fleet) && AllStraight(fleet) && OneOfEach(fleet)
    requires AllShipsSunk(Shots(View(fleet, {}), targets))
    ensures var answers := Answers(View(fleet, {}), targets);
            Count(answers, ShotSunk) == 5 && Count(answers, ShotHit) == 12
  {
    AnswersCount(fleet, targets);
    ShotsFromStart(fleet, targets);
    SunkMeansCovered(fleet, Targets(targets));
    FullFleetArea(fleet);
  }

  lemma {:induction false} SunkMeansCovered(fleet: seq<Ship>, shots: set<Coord>)
    requires Deployed(fleet) && AllShipsSunk(View(fleet, shots))
    ensures DownCount(fleet, shots) == NUM_SHIPS && FleetCells(fleet) * shots == FleetCells(fleet)
  {
    AllShipsSunkIff(fleet, shots);
  }

  lemma {:induction false} RowsSize(n: nat)
    requires n <= BOARD_SIZE
    ensures |(set c | c in AllCells() && c.row < n)| == BOARD_SIZE * n
  {
    var rows := set c | c in AllCells() && c.row < n;
    if n == 0 {
      assert rows == {};
    } else {
      RowsSize(n - 1);
      var s := Ship(0, HORIZONTAL, Coord(n - 1, 0), BOARD_SIZE, 0, false);
      CellsSize(s);
      var above := set c | c in AllCells() && c.row < n - 1;
      assert rows == above + Cells(s);
    }
  }

  lemma {:induction false} GridHas100Cells()
    ensures |AllCells()| == 100
  {
    RowsSize(BOARD_SIZE);
    assert (set c | c in AllCells() && c.row < BOARD_SIZE) == AllCells();
  }

  predicate NoWaste(targets: seq<Coord>) {
    NoRepeat(targets) && forall i :: 0 <= i < |targets| ==> InGrid(targets[i])
  }

  lemma {:induction false} NoWasteSize(targets: seq<Coord>)
    requires NoWaste(targets)
    ensures |Targets(targets)| == |targets|
    decreases |targets|
  {
    if targets == [] {
      assert Targets(targets) == {};
    } else {
      var front, last := targets[..|targets| - 1], targets[|targets| - 1];
      NoWasteSize(front);
      TargetsSnoc(front, last);
      assert targets == front + [last];
    }
  }

  lemma {:induction false} UnfinishedTargets(fleet: seq<Ship>, targets: seq<Coord>)
    requires Deployed(fleet) && AllStraight(fleet) && OneOfEach(fleet) && NoWaste(targets)
    requires !AllShipsSunk(Shots(View(fleet, {}), targets))
    ensures |targets| <= 99
  {
    NoWasteSize(targets);
    GridHas100Cells();
    SubsetSize(Targets(targets), AllCells());
    ShotsFromStart(fleet, targets);
    AllCellsSinkAll(fleet);
  }

  lemma {:induction false} AllCellsSinkAll(fleet: seq<Ship>)
    requires Deployed(fleet) && AllStraight(fleet) && OneOfEach(fleet)
    ensures AllShipsSunk(View(fleet, AllCells()))
  {
    AllShipsSunkIff(fleet, AllCells());
  }

  lemma {:induction false} MovesAreByPlayers(s: Setup, history: seq<Move>)
    requires TurnLaw(s, history) && Proper(s)
    ensures |history| == |TargetsBy(history, s.player1)| + |TargetsBy(history, s.player2)|
  {
    if history != [] {
      var front := history[..|history| - 1];
      assert TurnLaw(s, front) by {
        assert forall k :: 0 <= k < |front| ==> front[..k] == history[..k];
      }
      MovesAreByPlayers(s, front);
    }
  }

  /** With full fleets and no wasted shots a match is over after at most 199 moves: 198 moves are
      the most an unfinished one can show. */
  lemma {:induction false} MatchEnds(s: Setup, m: MatchValue)
    requires Sound(s, m) && m.active
    requires AllStraight(s.fleet1) && OneOfEach(s.fleet1) && AllStraight(s.fleet2) && OneOfEach(s.fleet2)
    requires NoWaste(TargetsBy(m.history, s.player1)) && NoWaste(TargetsBy(m.history, s.player2))
    ensures |m.history| <= 198
  {
    MovesAreByPlayers(s, m.history);
    assert TargetBoard(m, s.player1) == m.board2 && TargetBoard(m, s.player2) == m.board1;
    UnfinishedTargets(s.fleet2, TargetsBy(m.history, s.player1));
    UnfinishedTargets(s.fleet1, TargetsBy(m.history, s.player2));
  }
}
