/** The table of pending challenges as a value, with a log of how each challenge was consumed. */
module ChallengeSpec {
  import opened SortedKeys

  datatype Status = Offline | Online | Available | InGame | Busy

  datatype Challenge = Challenge(id: nat, challenger: nat, target: nat, timeLimit: nat, randomPlacement: bool,
                                 createdAt: int, expiresAt: int)

  const CHALLENGE_TIMEOUT_SECONDS := 60

  datatype Outcome = Accepted(who: nat) | Declined(who: nat) | Cancelled | Expired | Removed

  datatype Consumed = Consumed(challenge: Challenge, outcome: Outcome)

  datatype Table = Table(pending: map<nat, Challenge>, nextId: nat, log: seq<Consumed>)

  datatype Refusal = TargetNotOnline | TargetInGame | TargetBusy | TargetUnavailable | ChallengerUnavailable
    | SelfChallenge | Fine

  /** `players` is the player manager's table of connected users. */
  function Validate(players: map<nat, Status>, challenger: nat, target: nat): Refusal {
    if target !in players then TargetNotOnline
    else if players[target] != Available then
      (if players[target] == InGame then TargetInGame
       else if players[target] == Busy then TargetBusy
       else TargetUnavailable)
    else if challenger !in players || players[challenger] != Available then ChallengerUnavailable
    else if challenger == target then SelfChallenge
    else Fine
  }

  function Send(t: Table, players: map<nat, Status>, challenger: nat, target: nat,
                timeLimit: nat, randomPlacement: bool, now: int): Table {
    if Validate(players, challenger, target) != Fine then t
    else
      var c := Challenge(t.nextId, challenger, target, timeLimit, randomPlacement, now,
                         now + CHALLENGE_TIMEOUT_SECONDS);
      t.(pending := t.pending[t.nextId := c], nextId := t.nextId + 1)
  }

  function Consume(t: Table, id: nat, outcome: Outcome): Table {
    if id !in t.pending then t
    else t.(pending := t.pending - {id}, log := t.log + [Consumed(t.pending[id], outcome)])
  }

  predicate MayAnswer(t: Table, responder: nat, id: nat) {
    id in t.pending && t.pending[id].target == responder
  }

  function Respond(t: Table, responder: nat, id: nat, accepted: bool): Table {
    if MayAnswer(t, responder, id)
    then Consume(t, id, if accepted then Accepted(responder) else Declined(responder))
    else t
  }

  function ConsumeAll(t: Table, ids: seq<nat>, outcome: Outcome): Table
    decreases |ids|
  {
    if ids == [] then t
    else Consume(ConsumeAll(t, ids[..|ids| - 1], outcome), ids[|ids| - 1], outcome)
  }

  lemma {:induction false} ConsumeOneMore(t: Table, ids: seq<nat>, id: nat, outcome: Outcome)
    ensures ConsumeAll(t, ids + [id], outcome) == Consume(ConsumeAll(t, ids, outcome), id, outcome)
  {
    assert (ids + [id])[..|ids|] == ids;
  }

  function DueIds(t: Table, now: int): (ids: set<nat>)
    ensures forall id :: id in ids <==> id in t.pending && t.pending[id].expiresAt <= now
  {
    set id | id in t.pending && t.pending[id].expiresAt <= now
  }

  function InvolvedIds(t: Table, user: nat): (ids: set<nat>)
    ensures forall id :: id in ids <==>
              id in t.pending && (t.pending[id].challenger == user || t.pending[id].target == user)
  {
    set id | id in t.pending && (t.pending[id].challenger == user || t.pending[id].target == user)
  }

  function Expire(t: Table, now: int): Table {
    ConsumeAll(t, Ascending(DueIds(t, now)), Expired)
  }

  function RemovePlayer(t: Table, user: nat): Table {
    ConsumeAll(t, Ascending(InvolvedIds(t, user)), Removed)
  }

  datatype Event =
    | Sent(players: map<nat, Status>, challenger: nat, target: nat, timeLimit: nat, randomPlacement: bool, now: int)
    | Answered(responder: nat, id: nat, accepted: bool)
    | CancelRequested(id: nat)
    | ExpiryChecked(now: int)
    | PlayerRemoved(user: nat)

  function Step(t: Table, e: Event): Table {
    match e
    case Sent(players, challenger, target, limit, random, now) =>
      Send(t, players, challenger, target, limit, random, now)
    case Answered(responder, id, accepted) => Respond(t, responder, id, accepted)
    case CancelRequested(id) => Consume(t, id, Cancelled)
    case ExpiryChecked(now) => Expire(t, now)
    case PlayerRemoved(user) => RemovePlayer(t, user)
  }

  function Run(events: seq<Event>): Table
    decreases |events|
  {
    if events == [] then Table(map[], 1, []) else Step(Run(events[..|events| - 1]), events[|events| - 1])
  }

  // ---------------------------------------------------------------- conservation

  /** How many times a challenge id has been consumed. */
  function TimesConsumed(log: seq<Consumed>, id: nat): nat {
    if log == [] then 0
    else TimesConsumed(log[..|log| - 1], id) + (if log[|log| - 1].challenge.id == id then 1 else 0)
  }

  predicate Proper(c: Challenge) {
    c.challenger != c.target && c.expiresAt == c.createdAt + CHALLENGE_TIMEOUT_SECONDS
  }

  /** Each issued id is pending or consumed, never both and never consumed twice; no other id is
      known; answers come from the target only. */
  ghost predicate Conserved(t: Table) {
    && t.nextId >= 1
    && (forall id :: id in t.pending ==> t.pending[id].id == id && Proper(t.pending[id]))
    && (forall i :: 0 <= i < |t.log| ==> Proper(t.log[i].challenge) && AnsweredByTarget(t.log[i]))
    && forall id :: Once(t, id)
  }

  predicate Once(t: Table, id: nat) {
    TimesConsumed(t.log, id) + (if id in t.pending then 1 else 0) == if 1 <= id < t.nextId then 1 else 0
  }

  predicate AnsweredByTarget(c: Consumed) {
    match c.outcome
    case Accepted(who) => who == c.challenge.target
    case Declined(who) => who == c.challenge.target
    case _ => true
  }

  lemma {:induction false} LogSnoc(log: seq<Consumed>, c: Consumed, id: nat)
    ensures TimesConsumed(log + [c], id) == TimesConsumed(log, id) + (if c.challenge.id == id then 1 else 0)
  {
    assert (log + [c])[..|log|] == log;
  }

  lemma {:induction false} SendConserves(t: Table, players: map<nat, Status>, challenger: nat, target: nat,
                                         timeLimit: nat, randomPlacement: bool, now: int)
    requires Conserved(t)
    ensures Conserved(Send(t, players, challenger, target, timeLimit, randomPlacement, now))
  {
    var after := Send(t, players, challenger, target, timeLimit, randomPlacement, now);
    if after != t {
      forall id ensures Once(after, id) {
        assert Once(t, id);
      }
    }
  }

  lemma {:induction false} ConsumeConserves(t: Table, id: nat, outcome: Outcome)
    requires Conserved(t)
    requires id in t.pending ==> AnsweredByTarget(Consumed(t.pending[id], outcome))
    ensures Conserved(Consume(t, id, outcome))
  {
    if id in t.pending {
      var after, c := Consume(t, id, outcome), Consumed(t.pending[id], outcome);
      forall k ensures Once(after, k) {
        LogSnoc(t.log, c, k);
        assert Once(t, k);
      }
    }
  }

  lemma {:induction false} ConsumeAllConserves(t: Table, ids: seq<nat>, outcome: Outcome)
    requires Conserved(t) && outcome in {Expired, Removed}
    ensures Conserved(ConsumeAll(t, ids, outcome))
    decreases |ids|
  {
    if ids != [] {
      ConsumeAllConserves(t, ids[..|ids| - 1], outcome);
      ConsumeConserves(ConsumeAll(t, ids[..|ids| - 1], outcome), ids[|ids| - 1], outcome);
    }
  }

  /** Over every run each id in [1, nextId) is exactly once pending or consumed, is answered only by
      its target, and every challenge is between two users and expires 60 seconds after creation. */
  lemma {:induction false} RunConserves(events: seq<Event>)
    ensures Conserved(Run(events))
    decreases |events|
  {
    if events != [] {
      var t, e := Run(events[..|events| - 1]), events[|events| - 1];
      RunConserves(events[..|events| - 1]);
      match e
      case Sent(players, challenger, target, limit, random, now) =>
        SendConserves(t, players, challenger, target, limit, random, now);
      case Answered(responder, id, accepted) =>
        if MayAnswer(t, responder, id) {
          ConsumeConserves(t, id, if accepted then Accepted(responder) else Declined(responder));
        }
      case CancelRequested(id) => ConsumeConserves(t, id, Cancelled);
      case ExpiryChecked(now) => ConsumeAllConserves(t, Ascending(DueIds(t, now)), Expired);
      case PlayerRemoved(user) => ConsumeAllConserves(t, Ascending(InvolvedIds(t, user)), Removed);
    }
  }

  /** The log entries of a list of consumed challenges. */
  function Entries(t: Table, ids: seq<nat>, outcome: Outcome): (entries: seq<Consumed>)
    requires forall id :: id in ids ==> id in t.pending
    ensures |entries| == |ids|
    ensures forall i :: 0 <= i < |ids| ==> entries[i] == Consumed(t.pending[ids[i]], outcome)
    decreases |ids|
  {
    if ids == [] then []
    else Entries(t, ids[..|ids| - 1], outcome) + [Consumed(t.pending[ids[|ids| - 1]], outcome)]
  }

  lemma {:induction false} ConsumeAllExact(t: Table, ids: seq<nat>, outcome: Outcome)
    requires Increasing(ids) && forall id :: id in ids ==> id in t.pending
    ensures ConsumeAll(t, ids, outcome) == Table(t.pending - Elements(ids), t.nextId, t.log + Entries(t, ids, outcome))
    decreases |ids|
  {
    if ids == [] {
      assert t.pending - Elements(ids) == t.pending;
    } else {
      hide Elements, Increasing;
      MinusLast(t.pending, ids);
      ConsumeAllExact(t, ids[..|ids| - 1], outcome);
    }
  }

  /** The expiry sweep consumes exactly the challenges that are due, in order, and keeps the rest. */
  lemma {:induction false} ExpiryExact(t: Table, now: int)
    ensures var after, due := Expire(t, now), DueIds(t, now);
            && after == Table(t.pending - due, t.nextId, t.log + Entries(t, Ascending(due), Expired))
            && (forall id :: id in after.pending ==> after.pending[id].expiresAt > now)
  {
    var due := DueIds(t, now);
    ConsumeAllExact(t, Ascending(due), Expired);
    ElementsAscending(due);
  }

  /** Removing a player consumes exactly the challenges that involve that player. */
  lemma {:induction false} RemovePlayerExact(t: Table, user: nat)
    ensures var after, involved := RemovePlayer(t, user), InvolvedIds(t, user);
            && after == Table(t.pending - involved, t.nextId, t.log + Entries(t, Ascending(involved), Removed))
            && (forall id :: id in after.pending ==> user !in {after.pending[id].challenger, after.pending[id].target})
  {
    var involved := InvolvedIds(t, user);
    ConsumeAllExact(t, Ascending(involved), Removed);
    ElementsAscending(involved);
  }

  // ---------------------------------------------------------------- whose challenge it is

  /** Which test a refused challenge has failed: the target's status is looked at first, then the challenger's. */
  lemma {:induction false} RefusalIs(players: map<nat, Status>, challenger: nat, target: nat)
    ensures var refusal := Validate(players, challenger, target);
            var targetFree := target in players && players[target] == Available;
            var challengerFree := challenger in players && players[challenger] == Available;
            && (refusal == TargetNotOnline <==> target !in players)
            && (refusal == TargetInGame <==> target in players && players[target] == InGame)
            && (refusal == TargetBusy <==> target in players && players[target] == Busy)
            && (refusal == TargetUnavailable <==> target in players && players[target] in {Offline, Online})
            && (refusal == ChallengerUnavailable <==> targetFree && !challengerFree)
            && (refusal == SelfChallenge <==> targetFree && challenger == target)
            && (refusal == Fine <==> targetFree && challengerFree && challenger != target)
  {
  }

  /** An accepted challenge of `a` to `b` is stored under a new id with exactly these users and wishes, only `b` may
      answer it, and nothing else changes; a refused one changes nothing. */
  lemma {:induction false} SendExact(t: Table, players: map<nat, Status>, a: nat, b: nat, timeLimit: nat,
                                     randomPlacement: bool, now: int)
    requires Conserved(t)
    ensures var after, id := Send(t, players, a, b, timeLimit, randomPlacement, now), t.nextId;
            if Validate(players, a, b) != Fine then after == t
            else
              && id !in t.pending && after.pending.Keys == t.pending.Keys + {id} && after.nextId == id + 1
              && after.log == t.log
              && (forall k :: k in t.pending ==> after.pending[k] == t.pending[k])
              && after.pending[id].id == id && after.pending[id].challenger == a && after.pending[id].target == b
              && after.pending[id].timeLimit == timeLimit && after.pending[id].randomPlacement == randomPlacement
              && after.pending[id].createdAt == now && after.pending[id].expiresAt == now + 60
              && (forall r :: MayAnswer(after, r, id) <==> r == b)
              && (forall r, k :: k != id ==> (MayAnswer(after, r, k) <==> MayAnswer(t, r, k)))
  {
    assert Once(t, t.nextId);
  }

  /** The challenge that an event issues. */
  predicate Issues(t: Table, e: Event, c: Challenge) {
    && e.Sent? && Validate(e.players, e.challenger, e.target) == Fine && c.id == t.nextId
    && c.challenger == e.challenger && c.target == e.target && c.timeLimit == e.timeLimit
    && c.randomPlacement == e.randomPlacement && c.createdAt == e.now && c.expiresAt == e.now + 60
  }

  /** The event that a log entry tells of: the target's own answer for an accepted or declined challenge. */
  predicate Explains(e: Event, l: Consumed) {
    var c := l.challenge;
    match l.outcome
    case Accepted(who) => who == c.target && e == Answered(c.target, c.id, true)
    case Declined(who) => who == c.target && e == Answered(c.target, c.id, false)
    case Cancelled => e == CancelRequested(c.id)
    case Expired => e.ExpiryChecked? && c.expiresAt <= e.now
    case Removed => e.PlayerRemoved? && e.user in {c.challenger, c.target}
  }

  /** What one event does: pending challenges are old or issued now, and new log entries tell of this event and of
      challenges that were pending. */
  ghost predicate StepTraced(t: Table, e: Event, after: Table) {
    && (forall id :: id in after.pending ==>
          (id in t.pending && after.pending[id] == t.pending[id]) || Issues(t, e, after.pending[id]))
    && |t.log| <= |after.log| && after.log[..|t.log|] == t.log
    && forall k :: |t.log| <= k < |after.log| ==> TakenFrom(t, e, after.log[k])
  }

  predicate TakenFrom(t: Table, e: Event, l: Consumed) {
    l.challenge.id in t.pending && t.pending[l.challenge.id] == l.challenge && Explains(e, l)
  }

  lemma {:induction false} StepIsTraced(t: Table, e: Event)
    requires Conserved(t)
    ensures StepTraced(t, e, Step(t, e))
  {
    hide Conserved, Expire, RemovePlayer, Explains, StepTraced, TakenFrom, Respond, Consume, Send;
    match e
    case Sent(players, challenger, target, limit, random, now) => SendTraced(t, e);
    case Answered(responder, id, accepted) => AnswerTraced(t, e);
    case CancelRequested(id) => CancelTraced(t, e);
    case ExpiryChecked(now) =>
      ExpiryExact(t, now);
      DueExplained(t, now);
      SweepTraced(t, e, DueIds(t, now), Expired);
    case PlayerRemoved(user) =>
      RemovePlayerExact(t, user);
      InvolvedExplained(t, user);
      SweepTraced(t, e, InvolvedIds(t, user), Removed);
  }

  lemma {:induction false} SendTraced(t: Table, e: Event)
    requires e.Sent?
    ensures StepTraced(t, e, Step(t, e))
  {
  }

  lemma {:induction false} AnswerTraced(t: Table, e: Event)
    requires Conserved(t) && e.Answered?
    ensures StepTraced(t, e, Step(t, e))
  {
    if MayAnswer(t, e.responder, e.id) {
      PendingId(t, e.id);
    }
    hide Conserved;
  }

  lemma {:induction false} CancelTraced(t: Table, e: Event)
    requires Conserved(t) && e.CancelRequested?
    ensures StepTraced(t, e, Step(t, e))
  {
    if e.id in t.pending {
      PendingId(t, e.id);
    }
    hide Conserved;
  }

  lemma {:induction false} DueExplained(t: Table, now: int)
    ensures forall id :: id in DueIds(t, now) ==> Explains(ExpiryChecked(now), Consumed(t.pending[id], Expired))
  {
  }

  lemma {:induction false} InvolvedExplained(t: Table, user: nat)
    ensures forall id :: id in InvolvedIds(t, user) ==> Explains(PlayerRemoved(user), Consumed(t.pending[id], Removed))
  {
  }

  lemma {:induction false} SweepTraced(t: Table, e: Event, ids: set<nat>, outcome: Outcome)
    requires Conserved(t)
    requires forall id :: id in ids ==> id in t.pending && Explains(e, Consumed(t.pending[id], outcome))
    ensures StepTraced(t, e, Table(t.pending - ids, t.nextId, t.log + Entries(t, Ascending(ids), outcome)))
  {
    hide Conserved, Explains, TakenFrom, Issues;
    EntriesTraced(t, e, Ascending(ids), outcome);
    var entries := Entries(t, Ascending(ids), outcome);
    assert (t.log + entries)[..|t.log|] == t.log;
    forall k | |t.log| <= k < |t.log + entries| ensures TakenFrom(t, e, (t.log + entries)[k]) {
      assert (t.log + entries)[k] == entries[k - |t.log|];
    }
  }

  lemma {:induction false} EntriesTraced(t: Table, e: Event, ids: seq<nat>, outcome: Outcome)
    requires Conserved(t)
    requires forall id :: id in ids ==> id in t.pending && Explains(e, Consumed(t.pending[id], outcome))
    ensures forall k :: 0 <= k < |ids| ==> TakenFrom(t, e, Entries(t, ids, outcome)[k])
  {
    hide Conserved, Explains;
    forall k | 0 <= k < |ids| ensures TakenFrom(t, e, Entries(t, ids, outcome)[k]) {
      assert ids[k] in ids;
      PendingId(t, ids[k]);
    }
  }

  lemma {:induction false} PendingId(t: Table, id: nat)
    requires Conserved(t) && id in t.pending
    ensures t.pending[id].id == id
  {
  }

  ghost predicate IssuedIn(events: seq<Event>, c: Challenge) {
    exists i :: 0 <= i < |events| && Issues(Run(events[..i]), events[i], c)
  }

  ghost predicate ConsumedIn(events: seq<Event>, l: Consumed) {
    exists i :: 0 <= i < |events| && TakenFrom(Run(events[..i]), events[i], l)
  }

  lemma {:induction false} LongerRun(front: seq<Event>, last: Event, c: Challenge, l: Consumed)
    ensures IssuedIn(front, c) ==> IssuedIn(front + [last], c)
    ensures ConsumedIn(front, l) ==> ConsumedIn(front + [last], l)
    ensures Issues(Run(front), last, c) ==> IssuedIn(front + [last], c)
    ensures TakenFrom(Run(front), last, l) ==> ConsumedIn(front + [last], l)
  {
    var events := front + [last];
    hide Run, Issues, TakenFrom;
    assert events[..|front|] == front && events[|front|] == last;
    forall i | 0 <= i < |front| ensures events[..i] == front[..i] && events[i] == front[i] {
    }
    if IssuedIn(front, c) {
      var i :| 0 <= i < |front| && Issues(Run(front[..i]), front[i], c);
      assert Issues(Run(events[..i]), events[i], c);
    }
    if ConsumedIn(front, l) {
      var i :| 0 <= i < |front| && TakenFrom(Run(front[..i]), front[i], l);
      assert TakenFrom(Run(events[..i]), events[i], l);
    }
  }

  ghost predicate Traced(events: seq<Event>, t: Table) {
    && (forall id :: id in t.pending ==> IssuedIn(events, t.pending[id]))
    && (forall k :: 0 <= k < |t.log| ==> IssuedIn(events, t.log[k].challenge) && ConsumedIn(events, t.log[k]))
  }

  lemma {:induction false} TracedNext(front: seq<Event>, last: Event, after: Table)
    requires Traced(front, Run(front)) && StepTraced(Run(front), last, after)
    ensures Traced(front + [last], after)
  {
    hide IssuedIn, ConsumedIn, Issues, TakenFrom, Run;
    var before, events := Run(front), front + [last];
    forall id | id in after.pending ensures IssuedIn(events, after.pending[id]) {
      LongerRun(front, last, after.pending[id], Consumed(after.pending[id], Expired));
    }
    forall k | 0 <= k < |after.log|
      ensures IssuedIn(events, after.log[k].challenge) && ConsumedIn(events, after.log[k])
    {
      LongerRun(front, last, after.log[k].challenge, after.log[k]);
      if k < |before.log| {
        assert after.log[k] == after.log[..|before.log|][k] == before.log[k];
      } else {
        TakenPending(before, last, after.log[k]);
      }
    }
  }

  /** Over every run, each pending or logged challenge carries the users and wishes of the accepted request that issued
      its id, and each log entry tells of the event that consumed it: it is logged as accepted exactly when its target
      answered yes while it was pending. */
  lemma {:induction false} RunTraced(events: seq<Event>)
    ensures Traced(events, Run(events))
    decreases |events|
  {
    hide Traced, StepTraced, Conserved, Step;
    if events == [] {
      NothingTraced();
    } else {
      var front, last := events[..|events| - 1], events[|events| - 1];
      assert events == front + [last];
      RunTraced(front);
      RunConserves(front);
      StepIsTraced(Run(front), last);
      TracedNext(front, last, Step(Run(front), last));
    }
  }

  lemma {:induction false} NothingTraced()
    ensures Traced([], Run([]))
  {
  }

  lemma {:induction false} TakenPending(t: Table, e: Event, l: Consumed)
    requires TakenFrom(t, e, l)
    ensures l.challenge.id in t.pending && t.pending[l.challenge.id] == l.challenge
  {
  }

  /** The target's answer, and nobody else's, to a pending challenge logs it as accepted if it says yes and as declined
      otherwise, and takes just this challenge off the table. */
  lemma {:induction false} AnswerExact(t: Table, responder: nat, id: nat, accepted: bool)
    ensures var after := Respond(t, responder, id, accepted);
            if id in t.pending && t.pending[id].target == responder then
              && after.pending == t.pending - {id} && after.nextId == t.nextId
              && after.log == t.log + [Consumed(t.pending[id], if accepted then Accepted(responder)
                                                                else Declined(responder))]
            else after == t
  {
  }
}
