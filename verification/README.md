# Battleship server and client: a verified model

This project models the rules and the bookkeeping of an online battleship game and proves what they promise over
whole runs. It covers five parts of the program.

- **The board** (`Protocol`, `BoardSpec`, `BoardLaws`, `BoardRuns`, `Deployment`, class `Boards.Board`): a 10x10 grid,
  a ship table, hit counters, sunk flags and a counter of remaining ships, updated in place. The central law is
  that all of it is determined by the deployed fleet and the set of cells shot at.
- **The match** (`MatchSpec`, `MatchLaws`, class `Matches.MatchState`): the turn machine, its clock, the history and the
  win rule.
- **The server's match lifecycle** (`FleetText`, `FleetStore`, `FleetLoading`, `Elo`, `ServerSpec`, `ServerLaws`,
  `ServerRuns`, `Endings`, class `Gameplay.GameplayHandler`): ship placement with its text format, moves, resignation,
  draw, timeout and disconnect sweeps, and ratings. Every handler is one atomic step. A log that only the proofs see
  records activations, overwrites and endings.
- **The clients' boards** (`ShooterSpec`, `ShooterLaws`, `ShooterObjects`, `ShooterRuns`, `PhantomShip`, `TargetSpec`,
  `TargetLaws`, `TurnControls`, `Replicas`, `ServerTables`, `ServerReplicas`, `ClientGames`, `TwoMatches`, classes
  `ShooterClient.OpponentScreen` and `TargetPicking.TargetPicker`): what the shooter reconstructs from MOVE_RESULT
  messages, which targets the client lets a player send, and the defender's copy, also when a user plays in several
  matches.
- **Challenges and framing** (`ChallengeSpec`, class `Challenges.ChallengeManager`; `FramingSpec`, `FramingLaws`,
  classes `Connections.Socket` and `Connections.ClientConnection`): the table of pending challenges, and messages
  over a byte stream that is cut into arbitrary chunks.

Objects that the program updates in place are classes. Each holds a ghost value (`state`, `value`) that `Valid` ties
to the fields, and each method is proved to do to this value what a specification function says. The laws are proved
about the specification functions. `SortedKeys` supplies the ascending order in which a `std::map` is walked.

Check everything with `dafny verify dfyconfig.toml`.

## What the proofs show about the code

- Validation accepts fleets that overlap and orientations other than 0 and 1. Such a fleet can never be reported as
  sunk, and only such a fleet has this defect (`LoadedFleetSinkableIff`, with two concrete fleets in
  `ValidatedYetUnsinkable`). The comment at server/src/gameplay_handler.cpp:244 says that placements were already
  validated; overlaps were not. A match against such a fleet cannot be won by moves (`NormalEndNeedsSinkableFleet`).
- The scan that guesses a sunk ship's extent is right on every run without repeated targets if and only if no two
  ships touch (`PictureExactIffUntouching`). On every fleet a single result keeps an exact picture exact if and only
  if the target is not a ship cell shot before, whose second answer is MISS, and, when a ship sinks, no hit of another
  ship lies beside the target or just beyond an end of the ship (`NextResultExactIff`).
- The client does not prevent a second shot at the same cell: a cell whose shot has not been answered yet can be
  selected and sent again (`HastyPlayRepeats`). On every fleet a selectable cell is new if no shot at it is under way
  (`SelectableIsNew`), and a player who does not select cells with a shot under way never repeats a target
  (`CarefulPlayNoRepeat`, `PatientPlay`). On fleets without contact such a player has an exact picture as well
  (`CarefulPlayExact`).
- The ship object that the client tries to place on a sunk ship is accepted if and only if the ship that starts as far
  north and west of the target as the hits reach fits along its axis and covers neither the target nor a marked cell
  (`ObjectAcceptedIff`). With hits beside the target on one axis only it is refused (`OneAxisRefused`), so on fleets
  without contact it always is (`NoObjects`). With hits on both axes it may be accepted, and then cells that were
  never shot are drawn as hits (`PhantomObject`) and called already shot at (`PhantomUnselectable`). An accepted object
  is the only way a cell becomes unselectable without a shot at it (`StaysSelectableIff`).
- A resignation or an accepted draw ends a live match whichever signed-in user sends it. After a resignation the
  opponent wins if the user plays in the match, and player 1 otherwise (`ResignationWinner`); a draw needs one user
  only, a player or not, and no offer (`DrawEndsIff`).
- A move ends a live match if and only if it completes the sinking of the opponent's stored fleet, and then for the
  mover in message, log, row and ratings (`MoveEndsIff`, `MessageTellsEnd`). A timeout sweep ends it if and only if 60
  seconds have passed since the last miss or the start (`TimeoutEndsIff`). The client counts 20 seconds on its own
  (server/src/gameplay_handler.cpp:704) and then turns its turn flag around (`ControlsAndTurn`); until the next update
  its flag contradicts the server, which refuses all shots fired meanwhile (`FiredIsAccepted`).
- Removing a ship that was hit leaves its hits on the grid, where the board without it shows misses
  (`RemoveViewIff`, `RemoveExact`).
- A placement for a live match replaces it if and only if the submission is accepted, also from a user who does not
  play in it (`PlacementReplacesIff`, `StrangerReplaces`). The new match starts on the first stored fleets. This is
  the only way a match disappears without an ending (`EndedOnceRatedOnce`).
- A match that is not live gets live in a run if and only if some placement for it is accepted and both its players
  are ready, from before or by placements accepted during the run (`GetsLiveIff`). Every game of a match is played with
  the first accepted submission of each player; a later one with another fleet is acknowledged and never used
  (`SubmissionUsedIff`).
- A client draws the results of all matches of its user on the same two boards, without a look at the match id, and
  only MATCH_START clears them. The own board agrees with the server's board of a live match if and only if it was told
  the stored fleet and shots at the cells of the live game, and no others (`OwnBoardAgreesIff`). It does over every run
  that nothing disturbs (`UndisturbedGameAgrees`). A replaced match or a further game starts on boards that still show
  what was told before (`NewGameAgreesIff`), and a shot in another match of the same user breaks the agreement
  (`OtherMatchKeepsIff`, with the runs of `TwoMatchesSpoil`).
- Framing is exact for messages whose header.length is the payload size and at most 4096, and for no others
  (`SurvivesIffWellFormed`). The replies at server/src/challenge_manager.cpp:36-38,
  server/src/challenge_manager.cpp:108-110 and server/src/challenge_manager.cpp:226-228 leave header.length unset, so
  nothing is promised for them.

## Model

| member | source | states |
|---|---|---|
| Protocol.CoversCellAt | common/src/game_state.cpp:31-33 | every cell that the loops compute from a start and an orientation is covered, and along a straight ship no two indices give the same cell |
| Boards.Board.constructor | common/src/game_state.cpp:8-18 | a new board shows the empty board value |
| Boards.Board.IsValidPlacement | common/src/game_state.cpp:23-41 | answers true exactly when the ship fits along its own axis and every cell it covers is empty |
| Boards.Board.PlaceShip | common/src/game_state.cpp:43-67 | in place: the ship is painted and appended when valid, and nothing changes otherwise |
| Boards.Board.PaintOnGrid | common/src/game_state.cpp:50-55 | the painting loop sets exactly the covered cells to SHIP |
| Boards.Board.ClearBoard | common/src/game_state.cpp:94-105 | every cell, ship slot and counter is reset |
| Boards.Board.Occupies | common/src/game_state.cpp:120-135 | the inner loop finds a cell of the ship exactly when the ship covers it |
| Boards.Board.ProcessShot | common/src/game_state.cpp:107-144 | in place: grid, hit counter, sunk flag, remaining counter and answer are those of the shot function; repeats and wild targets change nothing |
| Boards.Board.StrikeFirst | common/src/game_state.cpp:116-139 | only the first listed ship on the target is struck; the counter drops exactly when that ship sinks |
| Boards.Board.StrikeShip | common/src/game_state.cpp:127-133 | the found ship gets one more hit and is sunk, with one ship fewer remaining, exactly when its hits reach its length |
| Boards.Board.AllShipsSunk | common/src/game_state.cpp:146-148 | reads the counter of remaining ships |
| Boards.Board.GetCell | common/src/game_state.cpp:150-155 | cells outside the grid read as EMPTY |
| Boards.Board.SetCell | common/src/game_state.cpp:157-161 | changes one cell of the grid and nothing outside it |
| Boards.Board.RemoveShip | common/src/game_state.cpp:69-92 | in place: the first ship of the type is erased from grid and table; false and no change if there is none |
| Boards.Board.EraseFromGrid | common/src/game_state.cpp:73-81 | only covered cells that still show SHIP become EMPTY |
| Boards.Board.ShiftDown | common/src/game_state.cpp:83-87 | the table loop closes the gap and keeps the order of the other ships |
| Boards.Board.RandomPlacement | common/src/game_state.cpp:163-186 | for all lists of draws: the board shows the ships of their first valid draws, in type order, and 17 SHIP cells iff each of the five lists holds a valid draw |
| Boards.Board.PlaceAtRandom | common/src/game_state.cpp:168-185 | one loop of up to 1000 draws places the ship of its type at the first draw that is valid on the board, and nothing if none is |
| Boards.Board.FindSunkType | server/src/gameplay_handler.cpp:302-317 | the search over all five table slots finds the type of the last sunk ship on the target |
| BoardLaws.CellsSize | common/src/game_state.cpp:31-33 | a straight ship occupies as many cells as its length, a ship with any other orientation exactly one |
| BoardLaws.HitsReachLength | common/src/game_state.cpp:127-131 | the hit count reaches the length exactly when the ship is straight and all its cells were shot |
| BoardLaws.ShotView | common/src/game_state.cpp:107-144 | one shot turns the board of (fleet, shots) into the board of (fleet, shots plus target) and answers the verdict on the fleet |
| BoardRuns.ShotsView | common/src/game_state.cpp:107-144 | after any list of shots the whole board is a function of the fleet and of the set of in-range targets |
| BoardRuns.ShotsOrderIndependent | common/src/game_state.cpp:107-144 | lists with the same in-range targets, permuted or repeated, give the same grid, counters, flags and remaining ships |
| BoardRuns.AnswersCount | common/src/game_state.cpp:115-143 | SUNK is answered once per fully shot ship; HIT and SUNK together once per shot ship cell |
| BoardRuns.VerdictCount | common/src/game_state.cpp:127-137 | one verdict moves the numbers of sunk ships and of hit cells by exactly what it says |
| BoardRuns.AllShipsSunkIff | common/src/game_state.cpp:146-148 | true if and only if five straight ships are deployed and every cell they occupy was shot |
| BoardRuns.PlaceView | common/src/game_state.cpp:43-67 | placing succeeds exactly on cells with neither ship nor shot, and then extends the fleet by that ship |
| BoardRuns.ReadBack | common/src/game_state.cpp:150-161 | a cell written in the grid reads back and no other changes; outside the grid nothing is written and EMPTY is read |
| BoardRuns.RunTold | common/src/game_state.cpp:43-148 | after every run of place, remove of ships that were not hit, clear and shoot, the board shows a fleet of in-range, disjoint ships and the shots since the last clear |
| BoardRuns.RunAgrees | common/src/game_state.cpp:43-148 | after every such run: SHIP or HIT iff covered, hits is the number of HIT cells, sunk iff hits is the positive length, remaining is 5 minus the sunk ships |
| BoardRuns.RemoveView | common/src/game_state.cpp:69-92 | removing a ship that was not hit gives the board that never had it, after any shots, and the fleet stays deployed |
| BoardRuns.RemoveViewIff | common/src/game_state.cpp:69-92 | the board after a removal is the one that never had the ship iff the ship was not hit |
| BoardRuns.RemoveExact | common/src/game_state.cpp:69-92 | after any shots a removal takes the ship off the table and off the cells that show it unhit; its hits stay drawn and the counter of remaining ships stays |
| Deployment.FleetArea | common/src/game_state.cpp:48-64 | disjoint straight ships cover as many cells as their lengths add up to |
| Deployment.FullFleetArea | common/src/protocol.cpp:36-45 | one ship of each type covers 17 cells, in any order of the types |
| Deployment.RoomForNextShip | common/src/game_state.cpp:163-186 | while fewer than 20 cells are covered every type has a valid position: twenty disjoint slots cannot all be blocked |
| Deployment.RandomPlacementNeverStuck | common/src/game_state.cpp:163-186 | at every point of random placement, whatever was drawn before, some draw is accepted |
| Deployment.PlaceRandomised | common/src/game_state.cpp:173-182 | any draw, accepted or not, keeps the board a rendering of a fleet placed in type order |
| Deployment.PlacedCells | common/src/game_state.cpp:163-186 | five placed ships show exactly 17 SHIP cells |
| Deployment.DrawnIff | common/src/game_state.cpp:168-185 | a type stands on the resulting board iff one of its draws was valid on the board that the types before it had left, and then at the first such draw |
| Deployment.AllDrawnIff | common/src/game_state.cpp:163-186 | all five ships stand, and 17 cells show a ship, iff each of the five lists holds a valid draw |
| Matches.MatchState.constructor | common/src/game_state.cpp:189-193 | a new match is inactive, unpaused, with limit 60 and two empty boards |
| Matches.MatchState.StartMatch | common/src/game_state.cpp:198-203 | starts both clocks and sets turn 1 |
| Matches.MatchState.SetCurrentPlayer | server/src/gameplay_handler.cpp:262 | hands the first turn to the drawn player and changes nothing else |
| Matches.MatchState.EndMatch | common/src/game_state.cpp:205-217 | result and winner follow from the winner id |
| Matches.MatchState.SwitchTurn | common/src/game_state.cpp:219-223 | hands the turn over, counts it and restarts the turn clock |
| Matches.MatchState.ProcessMove | common/src/game_state.cpp:225-261 | in place on both boards, turn machine and history: refused calls answer MISS and change nothing, a win ends the match before a miss could switch the turn |
| Matches.MatchState.Fire | common/src/game_state.cpp:233-248 | the shot goes to the opponent of the mover and is recorded with the current turn number |
| Matches.MatchState.IsTurnTimedOut | common/src/game_state.cpp:267-276 | timed out exactly when running, started and the unsigned time difference reaches the limit, read as unsigned 64-bit |
| Matches.MatchState.GetTurnTimeRemaining | common/src/game_state.cpp:278-291 | limit minus elapsed time as an unsigned 32-bit number, 0 when timed out; the full limit while the clock does not run |
| MatchSpec.TimedOutIffNoTimeRemains | common/src/game_state.cpp:267-291 | for a positive 32-bit limit: timed out iff no time remains, whatever the clock reads; the remaining time stays within 0 and the limit |
| MatchSpec.NegativeLimit | common/src/game_state.cpp:275 | with a negative limit a turn times out iff the clock steps back by at most that much, or after nearly 2^64 seconds |
| MatchSpec.ClockStands | common/src/game_state.cpp:267-284 | while the match is not running, paused or not started no turn times out and the full limit remains |
| MatchLaws.StartedSound | common/src/game_state.cpp:198-203 | a match started on two deployed fleets satisfies turn law, history law, win law and clock law |
| MatchLaws.MoveKeepsSound | common/src/game_state.cpp:225-261 | every call, refused ones included, keeps all four laws |
| MatchLaws.MoveRefusedIff | common/src/game_state.cpp:225-248 | a call changes the match iff it is running, not paused and the caller is on turn, and is then recorded with caller, target, time and answer; any other call answers MISS |
| MatchLaws.ClockStep | common/src/game_state.cpp:219-261 | a miss restarts the turn clock, a hit lets it run on, and the move that ends the match stamps the end |
| MatchLaws.PlaySound | common/src/game_state.cpp:225-265 | the four laws hold after every list of calls: turn number and mover follow from the misses, both boards and all answers from the history, the turn clock counts from the last miss or the start with a limit of 60, exactly one loser |
| MatchLaws.HistoryIsAccepted | common/src/game_state.cpp:225-248 | over every run of calls the history is exactly the accepted calls, in order: who, where and when |
| MatchLaws.TimedOutAfter60 | common/src/game_state.cpp:267-291 | over every run of calls, with a clock that has not stepped back: the turn is timed out iff the match runs and at least 60 seconds have passed since its last miss or its start; until then the rest of the 60 seconds remains |
| MatchLaws.HistoryReplays | common/src/game_state.cpp:225-265 | feeding the recorded moves to the fresh match rebuilds the whole match: boards, turn, clock, winner |
| MatchLaws.OneTurnOnePlayer | common/src/game_state.cpp:219-258 | moves with the same number are by one player and all but the last of them hit |
| MatchLaws.WinnerHits17 | common/src/game_state.cpp:250-258 | with a full enemy fleet the winner got 12 HIT and 5 SUNK answers |
| MatchLaws.GridHas100Cells | common/src/game_state.cpp:8-14 | the grid has 100 cells |
| MatchLaws.MatchEnds | common/src/game_state.cpp:225-261 | with full fleets and neither repeated nor wild targets an unfinished match shows at most 198 moves |
| ShooterClient.OpponentScreen.ScanHits | client/src/ui_lobby.cpp:545-553 | one scanning loop marks the run of hits next to the target and counts it |
| ShooterClient.OpponentScreen.ScanBothWays | client/src/ui_lobby.cpp:544-564 | two opposite loops, run or skipped together by the flags |
| ShooterClient.OpponentScreen.MarkSunkShip | client/src/ui_lobby.cpp:531-596 | flags from the four neighbours, four scans, then first cell and orientation of the guessed ship |
| ShooterClient.OpponentScreen.ScanAround | client/src/ui_lobby.cpp:544-596 | the horizontal scans run before the vertical ones, each under its own flag |
| ShooterClient.OpponentScreen.Extent | client/src/ui_lobby.cpp:589-596 | first cell and orientation from the minima and maxima that the scans reached |
| ShooterClient.OpponentScreen.ShowSunkShip | client/src/ui_lobby.cpp:529-612 | marks the ship, tries to place a ship object on it and shoots its cells if that succeeds |
| ShooterClient.OpponentScreen.ShootShip | client/src/ui_lobby.cpp:601-607 | shoots the cells of the placed object one by one |
| ShooterClient.OpponentScreen.OnMoveResult | client/src/ui_lobby.cpp:517-618 | the whole branch for own shots, including the hit and shot counters |
| ShooterLaws.ScanPaintsRun | client/src/ui_lobby.cpp:545-587 | on every board a scan paints exactly the run of hits next to the target and counts it |
| ShooterLaws.MarkSunkIs | client/src/ui_lobby.cpp:531-596 | on every board marking paints exactly the target and the four runs of hits beside it, and the guessed ship starts as far north and west as they reach, horizontal if there is a run in the row |
| ShooterLaws.RunIsReach | client/src/ui_lobby.cpp:544-587 | the run of hits in a direction covers the part of the sunk ship there, and on a clear board nothing more |
| ShooterLaws.MarkSunkExact | client/src/ui_lobby.cpp:531-596 | when no hit of another ship lies beside the target or just beyond an end of the ship, the guess is exactly that ship and exactly its cells are marked |
| ShooterLaws.PlaceRefused | client/src/ui_lobby.cpp:598-599 | an object whose first cell is marked is refused and changes nothing |
| ShooterLaws.ShowSunkExact | client/src/ui_lobby.cpp:529-612 | under the same condition the SUNK branch marks exactly that ship and the trailing placement changes nothing |
| ShooterLaws.SeenPlainStep | client/src/ui_lobby.cpp:525-528 | for a target not shot before a MISS or HIT result keeps an exact picture exact |
| ShooterLaws.SeenSunkStep | client/src/ui_lobby.cpp:529-612 | under the same condition a SUNK result for a target not shot before keeps an exact picture exact |
| ShooterLaws.UntouchingClear | client/src/ui_lobby.cpp:529-588 | on a fleet without contact the condition always holds |
| ShooterRuns.ReplyNamesShip | server/src/gameplay_handler.cpp:302-317 | with a SUNK answer the server names the type of the ship that the shot completed |
| ShooterRuns.PictureExact | client/src/ui_lobby.cpp:517-612 | for every fleet without contact and every run without repeats: MISS, HIT and SUNK appear exactly on misses, hits on floating ships and sunk ships |
| ShooterRuns.PictureExactBeforeSinking | client/src/ui_lobby.cpp:517-612 | on every fleet the picture is exact as long as no ship is down |
| ShooterRuns.ContactIsSwallowed | client/src/ui_lobby.cpp:544-588 | a hit directly beside the finishing shot is always drawn as sunk |
| ShooterRuns.ContactFools | client/src/ui_lobby.cpp:529-612 | for every fleet with contact there is a run without repeats after which the picture is wrong |
| ShooterRuns.PictureExactIffUntouching | client/src/ui_lobby.cpp:517-612 | the picture is exact after every run without repeats if and only if no two ships touch |
| ShooterRuns.SunkStepExactIff | client/src/ui_lobby.cpp:529-612 | on every fleet a SUNK result for a target not shot before keeps an exact picture exact iff no hit of another ship lies beside the target or just beyond an end of the ship |
| ShooterRuns.NextResultExactIff | client/src/ui_lobby.cpp:517-612 | on every fleet, from an exact picture the next result keeps it exact iff the target is not a ship cell shot before and, for a SUNK answer, no hit of another ship lies beside the target or just beyond an end of the ship |
| ShooterRuns.SunkResultFits | client/src/ui_lobby.cpp:598-599 | the shooter board never holds more ship objects than ships were sunk, so a free slot exists whenever SUNK arrives |
| ShooterObjects.MarkOnlySinks | client/src/ui_lobby.cpp:531-588 | apart from the target, marking turns hits into sunk cells and changes nothing else |
| ShooterObjects.ObjectAcceptedIff | client/src/ui_lobby.cpp:589-599 | on every board the trailing ship object is accepted iff the ship that starts as far north and west of the target as the runs of hits reach fits along its axis and covers neither the target nor a marked cell |
| ShooterObjects.SeenObjectAcceptedIff | client/src/ui_lobby.cpp:589-599 | on an exact picture: iff it fits along its axis and its cells avoid the shot cells and the target |
| ShooterObjects.OneAxisRefused | client/src/ui_lobby.cpp:537-599 | when hits lie beside the target on at most one axis, the object is refused and the SUNK branch only marks |
| ShooterObjects.ResultMarks | client/src/ui_lobby.cpp:525-607 | on every board a result marks its target on the grid, never erases a mark, and leaves no cell drawn as SHIP if there was none |
| ShooterObjects.EmptyStaysIff | client/src/ui_lobby.cpp:529-607 | the cells drawn as EMPTY, apart from the target, stay so through a SUNK result iff the object is refused |
| PhantomShip.PhantomSetting | client/src/ui_lobby.cpp:517-612 | a fleet with contact and a run without repeats: the picture is exact and the next shot sinks a ship |
| PhantomShip.PhantomObject | client/src/ui_lobby.cpp:589-607 | there the object is accepted, and two cells that were never shot are drawn as hits |
| PhantomShip.PhantomUnselectable | client/src/ui_manager.cpp:855-863 | one of them can then not be selected, although no shot at it was sent |
| TargetPicking.TargetPicker.OnBoardClicked | client/src/ui_manager.cpp:835-864 | a click selects a cell of the grid exactly on the own turn and on a cell drawn as EMPTY or SHIP, and then arms the fire button |
| TargetPicking.TargetPicker.SelectTarget | client/src/ui_manager.cpp:947-958 | sets the selection and arms the fire button |
| TargetPicking.TargetPicker.ClearTargetSelection | client/src/ui_manager.cpp:960-969 | drops the selection and disarms the fire button |
| TargetPicking.TargetPicker.OnFireClicked | client/src/ui_manager.cpp:902-1002 | sends the selected cell exactly when armed, on turn and selected, and then drops the selection; the board is not touched |
| TargetPicking.TargetPicker.OnMoveResult | client/src/ui_lobby.cpp:624-667 | after an own MISS the fire button is disarmed and after an own HIT or SUNK armed; the result that ends the game, of either player, disarms it in the end |
| TargetPicking.TargetPicker.OnTurnTimerExpired | client/src/ui_manager.cpp:1142-1149 | the client timer drops the selection, disarms the button and flips the turn flag |
| TargetPicking.TargetPicker.SwitchTurn | client/src/ui_manager.cpp:697-698 | flips the turn flag and nothing else |
| TargetPicking.TargetPicker.OnTurnUpdate | client/src/ui_lobby.cpp:686-703 | turn flag and fire button follow the update |
| TurnControls.MessagesSetTurn | server/src/gameplay_handler.cpp:298-367 | the messages about a move leave turn flag and fire button of both clients as the server has it: the mover keeps the turn exactly with a hit; the move that ends the game disarms both |
| TurnControls.ResultSetsButton | client/src/ui_lobby.cpp:624-641 | the result of an own shot alone already arms the fire button exactly if the player keeps the turn in a match that goes on |
| TurnControls.ControlsAndTurn | client/src/ui_manager.cpp:697-698 | clicks and presses keep the agreement of the turn flag with the server, the client timer turns it around, an update restores it; after a press or the timer nothing can be fired |
| TurnControls.FiredIsAccepted | common/src/game_state.cpp:225-231 | while the turn flag agrees with the server every fired shot is accepted, and while it does not, none is |
| TurnControls.ClickThenFire | client/src/ui_manager.cpp:848-864 | a click arms exactly the clicked cell on the own turn if the cell of the grid shows no shot, and is ignored otherwise |
| ShooterRuns.SelectableMeansNew | client/src/ui_manager.cpp:855-863 | on an exact picture the selectable cells are exactly those whose shots have not been answered |
| TargetLaws.PictureMarked | client/src/ui_lobby.cpp:517-612 | on every fleet, after every run with repeats and wild targets too: answered cells are marked, no SHIP is drawn, and while no object was accepted the other cells are EMPTY |
| TargetLaws.NoObjects | client/src/ui_lobby.cpp:517-612 | on fleets without contact, over every run, no object is ever accepted and hits and sunk cells lie on ships |
| TargetLaws.SelectableIsNew | client/src/ui_manager.cpp:855-863 | on every fleet, after every run: a selectable cell at which no shot is under way is new |
| TargetLaws.NewIffNotWaiting | client/src/ui_manager.cpp:855-863 | while no object was accepted, and so always on fleets without contact: a cell is new iff it is selectable and no shot at it is under way |
| TargetLaws.StaysSelectableIff | client/src/ui_manager.cpp:855-863 | on every fleet, after every run: the next result leaves every other selectable cell selectable iff it is not a SUNK answer whose object is accepted |
| TargetLaws.ActKeepsOrderly | client/src/ui_manager.cpp:835-1002 | on every fleet each act, also the timer and the result that ends the game, keeps: no target sent twice, and the selected cell is new, unless a click is at a cell with a shot under way |
| TargetLaws.CarefulPlayNoRepeat | client/src/ui_manager.cpp:835-1002 | on every fleet, over every run in which no click is at a cell with a shot under way, no target is sent twice, also when a selection is left over from the match before |
| TargetLaws.CarefulPlayExact | client/src/ui_manager.cpp:835-1002 | on fleets without contact the picture is then exact at every point |
| TargetLaws.PatientPlay | client/src/ui_manager.cpp:835-1002 | the same two results for every run in which no click is made while a shot is under way |
| TargetLaws.HastyPlayRepeats | client/src/ui_manager.cpp:971-1002 | for every fleet and ship cell: click, fire, click, fire before the first result sends the cell twice, and the drawn hit is overwritten by a miss |
| Replicas.MessageIsReply | server/src/gameplay_handler.cpp:293-331 | the MOVE_RESULT message carries the answer and ship type of the shot it reports |
| Replicas.ClientsInStep | client/src/ui_lobby.cpp:517-645 | over every run of calls each client, fed only by the messages, has its own board equal to the server board and its other board equal to the picture of its targets |
| Replicas.ShooterSeesServer | client/src/ui_lobby.cpp:517-645 | without repeats and contact a client at every point of the match sees exactly the misses, hits and sunk ships of the server board |
| Replicas.CarefulShooterSeesServer | client/src/ui_lobby.cpp:517-645 | the same when the answered shots come from careful play |
| FleetText.StoiIntText | server/src/gameplay_handler.cpp:145-148 | reading a printed integer gives it back |
| FleetText.GetLineOf | server/src/gameplay_handler.cpp:218-235 | reading up to a delimiter returns the piece before it and leaves the rest |
| FleetText.ParseShipToken | server/src/gameplay_handler.cpp:221-236 | one printed ship parses to its record |
| FleetText.ParseInvertsPrint | server/src/gameplay_handler.cpp:142-247 | parsing the printed text of any list of records gives the list back |
| FleetText.PrintedExample | server/src/gameplay_handler.cpp:142-149 | two ships as they stand in the database: type, orientation, row, column |
| FleetText.OtherEntries | server/src/gameplay_handler.cpp:218-247 | empty and short entries are passed over, and a field that is no number ends the parse |
| FleetText.StoiExamples | server/src/gameplay_handler.cpp:221-236 | leading space and sign are read, what follows the digits is ignored, and a text without a number is refused |
| FleetStore.ValidateShipPlacement | server/src/gameplay_handler.cpp:587-634 | accepts exactly five in-range entries with five different known types and matching lengths |
| FleetStore.AcceptedIff | server/src/gameplay_handler.cpp:587-634 | in full: accepted iff every type occurs, each ship has the length 5, 4, 3, 3 or 2 of its type, starts in the grid, and ends in it, along the column unless it is horizontal |
| FleetStore.PrintShips | server/src/gameplay_handler.cpp:142-149 | the loop builds exactly the stored text of the submission |
| FleetStore.LoadShips | server/src/gameplay_handler.cpp:209-247 | in place: clears the board and places the parsed records in order, up to the first field that is no number |
| FleetLoading.PlaceAllKeeps | server/src/gameplay_handler.cpp:216-246 | placing the records of good entries deploys exactly the ships that overlap none kept before |
| FleetLoading.KeptAllIff | server/src/gameplay_handler.cpp:244-245 | all ships are kept if and only if no two of them overlap |
| FleetLoading.LoadStored | server/src/gameplay_handler.cpp:142-247 | a validated fleet comes out of its stored text as the board of its kept ships |
| FleetLoading.LoadReplaces | server/src/gameplay_handler.cpp:209-247 | whatever the board showed before, it shows the stored fleet afterwards; an empty text changes nothing |
| FleetLoading.ToInt8Is | server/src/gameplay_handler.cpp:238-240 | a coordinate is cut to a signed byte |
| FleetLoading.SinkableIff | common/src/game_state.cpp:146-148 | some shots can clear a board if and only if it holds five straight ships |
| FleetLoading.LoadedFleetSinkableIff | server/src/gameplay_handler.cpp:587-634 | some shots can clear the board loaded from a validated fleet if and only if its ships do not overlap and all orientations are 0 or 1 |
| FleetLoading.ValidatedYetUnsinkable | server/src/gameplay_handler.cpp:587-634 | two submissions that pass validation and can never be sunk: five stacked ships, and one stray orientation |
| FleetLoading.DefenderReplica | client/src/ui_lobby.cpp:642-645 | a client board with one straight ship of each type passes validation, returns from the stored text as the very same board, and under any shots the server board is the board of the client fleet and those shots |
| Gameplay.GameplayHandler.FinishMatch | server/src/gameplay_handler.cpp:731-785 | announce, rate, complete the row and forget: one ending as a single step |
| Gameplay.GameplayHandler.RemoveMatch | server/src/gameplay_handler.cpp:525-535 | the id leaves both maps and nothing else does |
| Gameplay.GameplayHandler.HandleResign | server/src/gameplay_handler.cpp:370-408 | ends the match for the opponent of the resigning user; no change without session or match |
| Gameplay.GameplayHandler.HandleDrawResponse | server/src/gameplay_handler.cpp:442-497 | an accepted draw ends the match without winner; a declined one changes nothing |
| Gameplay.GameplayHandler.HandleMove | server/src/gameplay_handler.cpp:275-368 | only the player to move is served; the match object, the reply and, on a win, the ending are those of the step function |
| Gameplay.GameplayHandler.MoveInMatch | server/src/gameplay_handler.cpp:298-335 | one match object is updated and no other match changes |
| Gameplay.GameplayHandler.PlayMove | server/src/gameplay_handler.cpp:298-331 | the fields of the message are read off the board that was shot at |
| Gameplay.GameplayHandler.HandleShipPlacement | server/src/gameplay_handler.cpp:112-273 | validation, storing, readiness and activation; refused submissions change nothing |
| Gameplay.GameplayHandler.CreateMatch | server/src/gameplay_handler.cpp:201-271 | both fleets are loaded from the stored texts and the new match replaces any live one |
| Gameplay.GameplayHandler.BuildMatch | server/src/gameplay_handler.cpp:206-262 | a fresh match object shows the two loaded boards, started, with the drawn first player |
| Gameplay.GameplayHandler.LoadFleets | server/src/gameplay_handler.cpp:249-255 | each board of the match shows its own stored text and nothing else of the match changes |
| Gameplay.GameplayHandler.CollectDue | server/src/gameplay_handler.cpp:538-552 | the loop collects exactly the ids that are due, in map order |
| Gameplay.GameplayHandler.EndCollected | server/src/gameplay_handler.cpp:555-584 | ends the collected matches that still exist, one after the other |
| Gameplay.GameplayHandler.CheckTurnTimeouts | server/src/gameplay_handler.cpp:537-585 | the whole timeout sweep |
| Gameplay.GameplayHandler.HandlePlayerDisconnect | server/src/gameplay_handler.cpp:832-887 | the whole disconnect sweep |
| Gameplay.GameplayHandler.RegisterMatch | server/src/database.cpp:445-469 | a new row for two different known players |
| ServerLaws.MoveKeepsHealthy | server/src/gameplay_handler.cpp:298-363 | a move that does not end the match keeps it sound with respect to the two stored fleets |
| ServerLaws.NewMatchHealthy | server/src/gameplay_handler.cpp:201-262 | a match activated from stored placements is sound |
| ServerLaws.EndKeepsInv | server/src/gameplay_handler.cpp:731-785 | an ending keeps the invariant and is rated once |
| ServerLaws.MakeMoveKeepsInv | server/src/gameplay_handler.cpp:275-368 | a move keeps the invariant |
| ServerLaws.ActivateKeepsInv | server/src/gameplay_handler.cpp:201-271 | an activation, overwriting or not, keeps the invariant |
| ServerLaws.PlaceFleetKeepsInv | server/src/gameplay_handler.cpp:112-273 | a placement keeps the invariant |
| ServerLaws.EndEachKeepsInv | server/src/gameplay_handler.cpp:554-584 | a sweep keeps the invariant |
| ServerLaws.StepKeepsInv | server/src/gameplay_handler.cpp:112-585 | every handler step keeps: sound live matches, readiness, balanced log, ratings equal to the replayed log |
| ServerRuns.LiveMatchesSafe | server/src/gameplay_handler.cpp:112-408 | in every reachable state a live match is running, belongs to its two players, has one of them to move and shows no sunk fleet; both are ready |
| ServerRuns.EndedOnceRatedOnce | server/src/gameplay_handler.cpp:178-535 | per match: activations are endings plus overwrites plus the live one; the ratings are the initial ones rated once per ending |
| ServerRuns.RatingDrift | server/src/gameplay_handler.cpp:743-785 | after n endings the total of all ratings has moved by at most n |
| ServerRuns.SweepExact | server/src/gameplay_handler.cpp:537-585 | a sweep ends exactly the due matches, in order, leaves all others untouched, and afterwards none is due |
| ServerRuns.SweepWinnerIsOpponent | server/src/gameplay_handler.cpp:559-561 | a sweep names as winner the other player of the late or absent one |
| Endings.MoveEndsIff | server/src/gameplay_handler.cpp:318-363 | every move carried out: the match ends iff the stored fleet of the opponent is sunk by the targets of the mover so far and this one; then for the mover in log, row and ratings, otherwise log, rows and ratings stay |
| Endings.MessageTellsEnd | server/src/gameplay_handler.cpp:318-331 | the message says game over exactly when the match ends, names the mover as winner then and nobody otherwise, and counts the ships of the opponent that are left |
| Endings.AnswerEnds | server/src/gameplay_handler.cpp:370-497 | a resignation ends the match for the opponent of a resigning player and for player 1 when a stranger resigns, an accepted draw for nobody, in log, row and ratings |
| Endings.RequestIgnoredIff | server/src/gameplay_handler.cpp:275-497 | a move, a resignation or an answer to a draw changes the server iff it comes with a session, meets a live match and, for a move, comes from the player on turn, for an answer, says yes |
| Endings.SubmissionIgnored | server/src/gameplay_handler.cpp:112-142 | a submission without session or of an invalid fleet changes nothing |
| Endings.TimeoutEndsIff | server/src/gameplay_handler.cpp:537-585 | with a clock that has not stepped back the timeout sweep ends a live match iff 60 seconds have passed since its last miss or its start, for the opponent of the player to move |
| Endings.DisconnectEndsIff | server/src/gameplay_handler.cpp:832-887 | when a user disconnects a live match ends iff that user plays in it, for the other player |
| Endings.RowsRecordEndings | server/src/gameplay_handler.cpp:347-353 | over every run the row of a match is completed exactly when the match has ended, and names the winner of its last ending |
| Endings.EndingsRateFairly | server/src/gameplay_handler.cpp:731-785 | over every run each ending took no points from its winner, gave none to its loser and touched nobody else |
| ServerRuns.QuietUntilBothPlace | server/src/gameplay_handler.cpp:178-203 | nothing happens to a match that is not live until both its players are ready, from before or by placements accepted meanwhile, and some placement is accepted; exactly the accepted placers become ready |
| ServerRuns.GetsLiveIff | server/src/gameplay_handler.cpp:178-203 | over every run: a match that is not live gets live at some point iff some placement for it is accepted and both its players are ready, from before or by placements accepted during the run |
| ServerRuns.EndedStaysQuiet | server/src/gameplay_handler.cpp:178-203 | after any ending nothing happens to the match until placements of both its players have been accepted again |
| ServerRuns.EndingIsClean | server/src/gameplay_handler.cpp:525-535 | after an ending the match is not live, nobody is ready, its players stay, and one more ending is logged |
| ServerRuns.BothPlacementsActivate | server/src/gameplay_handler.cpp:178-271 | two consecutive accepted placements, one of each player, make the match live, activated by the second one: a new match whose drawn player moves first and whose clocks start then |
| ServerRuns.ResignationWinner | server/src/gameplay_handler.cpp:387-388 | a resignation ends the match, and names the opponent of the resigning user iff that user plays in it; otherwise player 1 wins |
| ServerRuns.DrawEndsIff | server/src/gameplay_handler.cpp:442-497 | an answer to a draw ends a live match, without winner, iff it has a session and accepts; one of the players has agreed iff the user plays in the match, and never both |
| ServerRuns.PlacementReplacesIff | server/src/gameplay_handler.cpp:178-271 | a placement for a live match overwrites and activates it iff the submission is accepted, whoever sends it: empty history, turn 1, the first stored fleets, other matches untouched; otherwise nothing changes |
| ServerRuns.StrangerReplaces | server/src/gameplay_handler.cpp:178-203 | a signed-in user who does not play in a live match replaces it by a valid submission |
| ServerRuns.StrangerRun | server/src/gameplay_handler.cpp:112-271 | a run of four handler steps from a fresh server: users 1 and 2 get a live match and user 3 replaces it |
| ServerRuns.NormalEndNeedsSinkableFleet | server/src/gameplay_handler.cpp:343-363 | a move can end a live match only if the stored fleet of the loser had no overlaps and no stray orientations |
| Elo.ExpectedScoresSumToOne | server/src/gameplay_handler.cpp:755-757 | the expected scores of the two players add up to one |
| Elo.RoundNear | server/src/gameplay_handler.cpp:758 | rounding moves a value by at most one half and keeps integer bounds |
| Elo.RatingLaw | server/src/gameplay_handler.cpp:755-776 | both changes are at most 30, cancel up to one point, the winner never loses and the loser never gains points |
| Elo.RateKeepsTotal | server/src/gameplay_handler.cpp:743-785 | one rated match moves the total of all ratings by at most one |
| Elo.RateLaw | server/src/gameplay_handler.cpp:743-785 | the winner never loses points, the loser never gains any, nobody else is touched, and no rating moves by more than 30; from equal ratings a win moves exactly 15 points and a draw none |
| Elo.FavouriteExpectsMore | server/src/gameplay_handler.cpp:755-757 | the higher rated player is expected to score at least one half |
| Elo.TenToOne | server/src/gameplay_handler.cpp:755-757 | 400 points of difference mean odds of 10 to 1 |
| Elo.UpsetEarnsMore | server/src/gameplay_handler.cpp:755-776 | beating a player rated no lower earns at least 15 points, one rated no higher at most 15; in a draw the higher rated player gains nothing |
| Elo.HalvesAway | server/src/gameplay_handler.cpp:758 | halves are rounded away from zero |
| ServerTables.StepMatch | server/src/gameplay_handler.cpp:112-585 | every handler step carries out a move of the match, leaves the live match alone or starts a new game; players and stored placements stay |
| ServerTables.NotRestarted | server/src/gameplay_handler.cpp:178-203 | a step that is neither a move nor an accepted submission of the match leaves its live match or ends it |
| ServerTables.SubmissionUsedIff | server/src/gameplay_handler.cpp:142-203 | after every further run the stored fleet is the one of an accepted submission iff that was the first one of its user or has the same text: a later one with another fleet is acknowledged and never used |
| ServerTables.LiveBoard | server/src/gameplay_handler.cpp:249-335 | the board a player shoots at in a live match is the other player's stored fleet after the shots of the history |
| ServerReplicas.MoveDrawn | client/src/ui_lobby.cpp:502-645 | a reported move draws an own shot on the enemy board and any other on the own board |
| ServerReplicas.RunFollows | client/src/client_network.cpp:984-997 | over every run of server events and ship arrangements, with results of all matches of the user drawn on the same boards and MATCH_START clearing both: the own board shows the fleet and the shots told since it was cleared, the enemy board a mark per reported own shot, and if these are the own shots of a live game it is the picture that they paint |
| ServerReplicas.OwnBoardAgreesIff | client/src/ui_lobby.cpp:424-645 | in every reachable state, for every live match of the user: the own board is the server's iff it was told the fleet stored for that match and, since it was cleared, shots of others at exactly the cells that the foe has shot in the live game |
| ServerReplicas.SubmittedBoardAgreesIff | client/src/ui_lobby.cpp:424-645 | with the stored fleet on show: iff the shots of others, of all matches, went to the same cells as those of the live game |
| ServerReplicas.EnemyBoardAgrees | client/src/ui_lobby.cpp:424-618 | if the own shots reported since MATCH_START are those of the live game, the enemy board is the picture that they paint of the server's board |
| ServerReplicas.NewGameAgreesIff | client/src/ui_lobby.cpp:467-482 | when a game has just started both boards agree with it iff the own board was told the stored fleet and no shot, and no own shot at the grid was reported since MATCH_START, of whichever match |
| ServerReplicas.ShownFleetStored | client/src/ui_screens.cpp:766-772 | the first accepted submission of the shown ships of a full fleet stores the text of exactly that fleet, whatever shots the board shows |
| ServerReplicas.OtherMatchKeepsIff | client/src/client_network.cpp:984-997 | an agreement with a live match survives a shot of another player in another match of the user iff it misses the grid or repeats a shot of the live game |
| ClientGames.UndisturbedGameAgrees | client/src/ui_lobby.cpp:424-645 | over every run without MATCH_START, result of another match or further submission, a game that started in agreement agrees at every point: the own board is the server's, the enemy board the picture of the own shots |
| TwoMatches.TwoGamesAgree | client/src/ui_lobby.cpp:424-482 | for every server with two registered matches of a user: after the user places a fleet and all players submit it, both games are live and the client shows exactly the boards of the second |
| TwoMatches.TwoMatchesSpoil | client/src/client_network.cpp:984-997 | a shot of the first opponent at any cell of the grid then breaks the agreement with the second match, in which nothing has happened |
| TwoMatches.TwoMatchesRegistered | server/src/challenge_manager.cpp:116-175 | two registrations lead from a fresh server to such a state |
| Challenges.ChallengeManager.SendChallenge | server/src/challenge_manager.cpp:22-70 | a refused challenge changes nothing, an accepted one gets the next id and expires after 60 |
| Challenges.ChallengeManager.ValidateChallenge | server/src/challenge_manager.cpp:256-290 | the first failing test in the order of the source; none fails iff both users are connected, available and different |
| ChallengeSpec.RefusalIs | server/src/challenge_manager.cpp:256-290 | which refusal is given, by the status of the target first and then of the challenger |
| Challenges.ChallengeManager.RespondToChallenge | server/src/challenge_manager.cpp:72-114 | only the target consumes a pending challenge |
| Challenges.ChallengeManager.CancelChallenge | server/src/challenge_manager.cpp:189-193 | consumes a pending challenge, does nothing otherwise |
| Challenges.ChallengeManager.CheckExpiredChallenges | server/src/challenge_manager.cpp:195-211 | the loop that erases while it walks the map consumes exactly the due challenges, in key order |
| Challenges.ChallengeManager.RemovePlayerChallenges | server/src/challenge_manager.cpp:233-248 | collects the challenges of the user and erases exactly these |
| ChallengeSpec.RunConserves | server/src/challenge_manager.cpp:22-254 | over every run each issued id is exactly once pending or consumed, answered only by its target; challenger differs from target; expiry is creation plus 60 |
| ChallengeSpec.SendExact | server/src/challenge_manager.cpp:22-70 | an accepted challenge of a to b is stored under a new id with challenger a, target b and the wishes of the request, only b may answer it, and nothing else changes |
| ChallengeSpec.RunTraced | server/src/challenge_manager.cpp:22-254 | over every run each pending or logged challenge carries the two users and the wishes of the request that issued its id, and each log entry tells of its event: accepted exactly when the target answered yes while it was pending |
| ChallengeSpec.AnswerExact | server/src/challenge_manager.cpp:72-187 | the target alone takes a pending challenge off the table, accepted by yes and declined by no |
| ChallengeSpec.ConsumeAllExact | server/src/challenge_manager.cpp:245-247 | consuming a list of ids removes exactly these and logs each once |
| ChallengeSpec.ExpiryExact | server/src/challenge_manager.cpp:195-211 | the expiry sweep removes exactly the challenges due and keeps the rest |
| ChallengeSpec.RemovePlayerExact | server/src/challenge_manager.cpp:233-254 | removing a player removes exactly the challenges that involve the player |
| FramingLaws.HeaderRoundTrip | common/include/protocol.h:116-121 | packing and unpacking the 77 header bytes are inverse to each other |
| FramingLaws.HeaderLayout | common/include/protocol.h:116-121 | kind, length and timestamp lie at bytes 0, 1 and 5 with the low bytes first, the token at byte 13 |
| FramingLaws.SurvivesIffWellFormed | server/src/client_connection.cpp:21-68 | a message survives the trip, whatever follows it, iff header.length is the payload size and at most 4096 bytes |
| FramingLaws.ReceivedIsFramed | server/src/client_connection.cpp:41-68 | what is delivered is well-formed and its frame is the head of the stream |
| FramingLaws.StreamRoundTrip | server/src/client_connection.cpp:21-68 | the reader delivers exactly the list that was sent and takes exactly the bytes sent |
| FramingLaws.CutStream | server/src/client_connection.cpp:70-140 | a stream cut anywhere delivers exactly the messages that lie wholly before the cut, and all bytes are taken |
| FramingLaws.CutFrame | server/src/client_connection.cpp:109-140 | a partial frame reads as a closed connection |
| FramingLaws.OversizeEnds | server/src/client_connection.cpp:51-56 | an oversized message ends the conversation: the messages before it are delivered and its payload is not taken |
| FramingLaws.DeliversPrefix | server/src/client_connection.cpp:41-68 | on any byte stream the frames of the delivered messages are a prefix of it |
| Connections.Socket.Send | server/src/client_connection.cpp:79-103 | any positive part is accepted, or none, or an error |
| Connections.Socket.Recv | server/src/client_connection.cpp:118-136 | the next bytes of the stream land at the given offset; 0 only at the end of the stream |
| Connections.ClientConnection.Disconnect | server/src/client_connection.cpp:148-156 | closes the descriptor once |
| Connections.ClientConnection.SendData | server/src/client_connection.cpp:70-107 | for every chunking and every finite number of interrupts: all bytes go out in order, or a prefix of them |
| Connections.ClientConnection.ReceiveData | server/src/client_connection.cpp:109-140 | for every chunking the buffer holds the next bytes of the stream, or the connection is closed |
| Connections.ClientConnection.SendMessage | server/src/client_connection.cpp:21-39 | on success exactly the frame was sent |
| Connections.ClientConnection.ReceiveMessage | server/src/client_connection.cpp:41-68 | on success the first message of the stream; otherwise the bytes taken hold none, and only a socket error can hide one |
| Connections.SendAll | server/src/client_connection.cpp:21-39 | sending a list of messages puts exactly their stream on the wire |
| Connections.Transmit | server/src/client_connection.cpp:21-140 | one side sends a list and closes, the other reads: without failure the list arrives and both counters agree, for every chunking; if only the reading fails, the first messages of the list |
| Connections.HandleClient | server/src/server.cpp:288-329 | the delivered list is what the taken bytes say; without stop or socket error it is what the whole stream says; the counter is the number of bytes taken |

## Left out

- Threads and mutexes: handlers are atomic steps, as `Server::routeMessage` serialises them at
  server/src/server.cpp:427; interleavings of the timeout thread with handlers are not modelled.
- Connections.HandleClient: routing of a message and replies sent on the same connection meanwhile are not part of
  the loop; messages are collected in order.
- Connections.Socket.Send: interrupts are finite in number, because the loops of the source would otherwise not end.
- Connections.ClientConnection.SendMessage: requires that a non-empty payload holds header.length bytes, because the
  source would read beyond it otherwise; the byte counters do not wrap around at 64 bits.
- FramingLaws.HeaderRoundTrip: integers are little-endian, since both sides copy the struct as it lies in memory on
  such machines; a value below 256 stands for a byte.
- Boards.Board.IsValidPlacement: requires that a ship which passes the tests along its own axis starts inside the grid;
  beyond that the source reads outside its array (common/src/game_state.cpp:27-34), except for unknown types, whose
  length is 0 and which it accepts anywhere.
- Boards.Board.PlaceShip: requires the same, and a free slot when the placement is valid, because the source would
  write beyond its table (common/src/game_state.cpp:58); its callers keep to both.
- Boards.Board.FindSunkType: requires that unused table slots hold no sunk ship, which is so on every board without
  removals and kept by all operations of a match.
- ShooterClient.OpponentScreen.ShowSunkShip: requires a free ship slot when the object is accepted, as `placeShip`
  does; `SunkResultFits` shows that there is one on every run.
- ShooterClient.OpponentScreen.OnMoveResult: requires the same, and that a SUNK result is for a target on the grid,
  which every answer of the server is (`MessageIsReply`).
- TargetPicking.TargetPicker.OnFireClicked: the mode without a connection, in which the shot is processed locally, and
  the notifications of refused clicks.
- FleetStore.LoadShips: requires at most five records and start cells below the upper bounds, which every stored text
  of a validated fleet satisfies (`LoadStored`).
- BoardRuns.RunTold: `setCell`, which clients use to draw and which bypasses the board's own bookkeeping, and removals
  of ships that were hit are not among the operations of a run; `RemoveExact` says what such a removal leaves.
- FleetText.StoiIntText: numbers outside the range of int, for which the source throws, are unbounded here; a field
  that is no number ends the parse as the exception would.
- Elo.RatingLaw: exact reals and any power function with pow10(x) * pow10(-x) = 1 instead of floating point; ratings
  do not wrap around at 32 bits.
- Gameplay.GameplayHandler.HandleShipPlacement: SQL errors and foreign keys, the acknowledgement's text, and the
  MATCH_READY and TURN_UPDATE messages; the first player is an input instead of a random draw.
- Gameplay.GameplayHandler.HandleMove: the saved move log; its turn number is read after the turn may have switched
  (server/src/gameplay_handler.cpp:341), so it is not claimed to agree with the history.
- Gameplay.GameplayHandler.FinishMatch: the end messages, durations and player status updates.
- Gameplay.GameplayHandler.HandleDrawResponse: forwarding of offers and refusals to the opponent.
- Gameplay.GameplayHandler.RegisterMatch: players are required to exist and to differ, as the foreign keys and the
  challenge table provide; ids come from the database.
- Challenges.ChallengeManager.SendChallenge: ids are unbounded; notifications and the creation of the match row on
  acceptance are not part of the table. Availability is not checked again on acceptance, so nothing is claimed about
  the number of games per player.
- Matches.MatchState.ProcessMove: one clock value stands for the several readings during a move; the fields for the
  ship sunk and the time taken in a history entry, player names and the rating fields of a match are not modelled.
- Boards.Board.RandomPlacement: the draws are an input; that 1000 draws hit a free position is a matter of probability
  and not claimed.
- Authentication and sessions: user 0 stands for an invalid session in every handler.
- Rematch handlers, pause messages, chat, replay and statistics: stubs or plain lookups.
- TargetLaws.CarefulPlayNoRepeat: shots that the server ignores, because they were sent out of turn, leave the queue of
  shots under way without a result; when that happens is not decided here but allowed at any time. Results of another
  match do not arrive meanwhile.
- ServerReplicas.RunFollows: a client that stays connected and draws each message before the next event; the mode
  against the computer, which shoots at the same two boards, is not modelled, and the boards before the first
  MATCH_START (client/src/main.cpp:45) are not looked at. Ships are placed and removed as the board's own operations
  allow (`Legal`).
- TwoMatches.TwoMatchesSpoil: two live matches of one user are not excluded, because a challenge does not look at the
  user's status again when it is accepted (server/src/challenge_manager.cpp:72-114).
- GTK screens, animation, audio and session storage: no state law beyond the boards; serialisation of boards, matches
  and messages other than the fleet text and the message header.
