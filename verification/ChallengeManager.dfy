/** The challenge manager over its map of pending challenges. */
module Challenges {
  import opened SortedKeys
  import opened ChallengeSpec

  class ChallengeManager {
    var challenges: map<nat, Challenge>
    var nextChallengeId: nat
    /** How every consumed challenge ended. */
    ghost var log: seq<Consumed>

    ghost function State(): Table
      reads this
    {
      Table(challenges, nextChallengeId, log)
    }

    constructor ()
      ensures State() == Table(map[], 1, [])
    {
      challenges, nextChallengeId, log := map[], 1, [];
    }

    method SendChallenge(players: map<nat, Status>, challenger: nat, target: nat,
                         timeLimit: nat, randomPlacement: bool, now: int) returns (sent: bool, refusal: Refusal)
      modifies this
      ensures State() == Send(old(State()), players, challenger, target, timeLimit, randomPlacement, now)
      ensures refusal == Validate(players, challenger, target) && sent == (refusal == Fine)
    {
      refusal := ValidateChallenge(players, challenger, target);
      if refusal != Fine { return false, refusal; }
      var c := Challenge(nextChallengeId, challenger, target, timeLimit, randomPlacement, now,
                         now + CHALLENGE_TIMEOUT_SECONDS);
      nextChallengeId := nextChallengeId + 1;
      challenges := challenges[c.id := c];
      sent := true;
    }

    /** A player unknown to the player manager has status Offline. */
    static method ValidateChallenge(players: map<nat, Status>, challenger: nat, target: nat) returns (refusal: Refusal)
      ensures refusal == Validate(players, challenger, target)
      ensures refusal == Fine <==> challenger != target && forall user :: user in {challenger, target} ==>
                user in players && players[user] == Available
    {
      if target !in players { return TargetNotOnline; }
      var targetStatus := players[target];
      if targetStatus != Available {
        if targetStatus == InGame { return TargetInGame; }
        if targetStatus == Busy { return TargetBusy; }
        return TargetUnavailable;
      }
      var challengerStatus := if challenger in players then players[challenger] else Offline;
      if challengerStatus != Available { return ChallengerUnavailable; }
      if challenger == target { return SelfChallenge; }
      return Fine;
    }

    /** True when the answer consumed the challenge. */
    method RespondToChallenge(responder: nat, id: nat, accepted: bool) returns (answered: bool)
      modifies this
      ensures State() == Respond(old(State()), responder, id, accepted)
      ensures answered == MayAnswer(old(State()), responder, id)
    {
      if id !in challenges { return false; }
      var c := challenges[id];
      if c.target != responder { return false; }
      EraseChallenge(id, if accepted then Accepted(responder) else Declined(responder));
      return true;
    }

    method CancelChallenge(id: nat)
      modifies this
      ensures State() == Consume(old(State()), id, Cancelled)
    {
      EraseChallenge(id, Cancelled);
    }

    /** Erase one entry; erasing an absent key does nothing. */
    method EraseChallenge(id: nat, ghost outcome: Outcome)
      modifies this
      ensures State() == Consume(old(State()), id, outcome)
    {
      if id in challenges {
        log := log + [Consumed(challenges[id], outcome)];
      }
      challenges := challenges - {id};
    }

    /** Walk over the map in key order and erase what has expired on the way. */
    method CheckExpiredChallenges(now: int)
      modifies this
      ensures State() == Expire(old(State()), now)
    {
      ghost var before := State();
      var keys := Ascending(challenges.Keys);
      ghost var erased: seq<nat> := [];
      for i := 0 to |keys|
        invariant Collected(erased, keys, i, DueIds(before, now))
        invariant State() == ConsumeAll(before, erased, Expired)
      {
        hide Collected, Increasing, Consume;
        ErasedSoFar(before, erased, keys, i, DueIds(before, now));
        CollectNext(erased, keys, i, DueIds(before, now));
        if challenges[keys[i]].expiresAt <= now {
          ConsumeOneMore(before, erased, keys[i], Expired);
          EraseChallenge(keys[i], Expired);
          erased := erased + [keys[i]];
        }
      }
      CollectedAll(erased, before.pending.Keys, DueIds(before, now));
    }

    /** The key that the walk has reached is still in the map, unchanged. */
    static lemma {:induction false} ErasedSoFar(before: Table, erased: seq<nat>, keys: seq<nat>, i: nat, due: set<nat>)
      requires i < |keys| && keys == Ascending(before.pending.Keys)
      requires Collected(erased, keys, i, due) && due <= before.pending.Keys
      ensures var now := ConsumeAll(before, erased, Expired);
              keys[i] in now.pending && now.pending[keys[i]] == before.pending[keys[i]]
    {
      assert keys[i] in keys;
      ConsumeAllExact(before, erased, Expired);
      assert keys[i] !in keys[..i] by {
        assert forall k :: 0 <= k < i ==> keys[k] < keys[i];
      }
    }

    /** Collect the ids first and erase them afterwards. */
    method RemovePlayerChallenges(user: nat)
      modifies this
      ensures State() == RemovePlayer(old(State()), user)
    {
      var keys := Ascending(challenges.Keys);
      var toRemove: seq<nat> := [];
      for i := 0 to |keys|
        invariant State() == old(State())
        invariant Collected(toRemove, keys, i, InvolvedIds(State(), user))
      {
        assert keys[i] in keys;
        CollectNext(toRemove, keys, i, InvolvedIds(State(), user));
        if challenges[keys[i]].challenger == user || challenges[keys[i]].target == user {
          toRemove := toRemove + [keys[i]];
        }
      }
      CollectedAll(toRemove, challenges.Keys, InvolvedIds(State(), user));
      EraseAll(toRemove, Removed);
    }

    method EraseAll(ids: seq<nat>, ghost outcome: Outcome)
      modifies this
      ensures State() == ConsumeAll(old(State()), ids, outcome)
    {
      ghost var before := State();
      for i := 0 to |ids|
        invariant State() == ConsumeAll(before, ids[..i], outcome)
      {
        assert ids[..i + 1][..i] == ids[..i];
        EraseChallenge(ids[i], outcome);
      }
      assert ids[..|ids|] == ids;
    }
  }
}
