/** Visiting the keys of an ordered map in ascending order, and picking some of them on the way. */
module SortedKeys {

  function Least(ids: set<nat>): (m: nat)
    requires ids != {}
    ensures m in ids && forall k :: k in ids ==> m <= k
  {
    LeastExists(ids);
    var m :| m in ids && forall k :: k in ids ==> m <= k;
    m
  }

  lemma {:induction false} LeastExists(ids: set<nat>)
    requires ids != {}
    ensures exists m :: m in ids && forall k :: k in ids ==> m <= k
  {
    var m := FindLeast(ids);
  }

  lemma {:induction false} FindLeast(ids: set<nat>) returns (m: nat)
    requires ids != {}
    ensures m in ids && forall k :: k in ids ==> m <= k
  {
    m :| m in ids;
    var x, below := m, set k | k in ids && k < m;
    if below != {} {
      assert below <= ids && x !in below;
      m := FindLeast(below);
      assert m in below;
    }
    forall k | k in ids ensures m <= k {
      assert k in below || x <= k;
    }
  }

  predicate Increasing(s: seq<nat>) {
    forall i, j :: 0 <= i < j < |s| ==> s[i] < s[j]
  }

  lemma {:induction false} LeastFirst(ids: set<nat>, m: nat, rest: seq<nat>)
    requires m in ids && (forall k :: k in ids ==> m <= k)
    requires Increasing(rest) && forall id :: id in rest <==> id in ids - {m}
    ensures Increasing([m] + rest) && forall id :: id in [m] + rest <==> id in ids
  {
    assert forall i :: 0 <= i < |rest| ==> rest[i] in rest;
  }

  /** The keys in the order in which an ordered map is traversed. */
  function Ascending(ids: set<nat>): (s: seq<nat>)
    ensures |s| == |ids| && forall id :: id in s <==> id in ids
    ensures Increasing(s)
  {
    if ids == {} then []
    else
      var m := Least(ids);
      var rest := Ascending(ids - {m});
      LeastFirst(ids, m, rest);
      [m] + rest
  }

  lemma {:induction false} AscendingStep(ids: set<nat>)
    requires ids != {}
    ensures Ascending(ids) == [Least(ids)] + Ascending(ids - {Least(ids)})
  {
  }

  /** An increasing list with the same elements is that traversal. */
  lemma {:induction false} AscendingUnique(s: seq<nat>, ids: set<nat>)
    requires Increasing(s) && forall id :: id in s <==> id in ids
    ensures s == Ascending(ids)
    decreases |s|
  {
    if s == [] {
      assert ids == {};
    } else {
      HeadIsLeast(s, ids);
      TailElements(s, ids);
      AscendingStep(ids);
      var tail := s[1..];
      assert s == [s[0]] + tail && |tail| < |s|;
      hide Increasing, Least, Ascending;
      AscendingUnique(tail, ids - {s[0]});
    }
  }

  lemma {:induction false} HeadIsLeast(s: seq<nat>, ids: set<nat>)
    requires s != [] && Increasing(s) && forall id :: id in s <==> id in ids
    ensures s[0] in ids && Least(ids) == s[0]
  {
    assert s[0] in s;
    assert forall i :: 0 <= i < |s| ==> s[0] <= s[i];
    assert forall id :: id in ids ==> s[0] <= id;
  }

  lemma {:induction false} TailElements(s: seq<nat>, ids: set<nat>)
    requires s != [] && Increasing(s) && forall id :: id in s <==> id in ids
    ensures Increasing(s[1..]) && forall id :: id in s[1..] <==> id in ids - {s[0]}
  {
    forall id | id in s[1..] ensures id in ids - {s[0]} {
      var k :| 0 <= k < |s[1..]| && s[1..][k] == id;
      assert s[k + 1] == id && s[0] < s[k + 1];
    }
    forall id | id in ids - {s[0]} ensures id in s[1..] {
      var k :| 0 <= k < |s| && s[k] == id;
      assert s[1..][k - 1] == id;
    }
  }

  /** `ids` are the members of `due` among the first `i` keys, in order. */
  ghost predicate Collected(ids: seq<nat>, keys: seq<nat>, i: nat, due: set<nat>) {
    && i <= |keys| && Increasing(ids) && (forall id :: id in ids ==> id in due)
    && (forall k :: 0 <= k < i && keys[k] in due ==> keys[k] in ids)
    && (forall id :: id in ids ==> id in keys[..i])
  }

  lemma {:induction false} CollectNext(ids: seq<nat>, keys: seq<nat>, i: nat, due: set<nat>)
    requires Increasing(keys) && i < |keys| && Collected(ids, keys, i, due)
    ensures if keys[i] in due then Collected(ids + [keys[i]], keys, i + 1, due) else Collected(ids, keys, i + 1, due)
  {
    assert keys[..i + 1] == keys[..i] + [keys[i]];
    forall p | 0 <= p < |ids| ensures ids[p] < keys[i] {
      assert ids[p] in keys[..i];
      var k :| 0 <= k < i && keys[..i][k] == ids[p];
      assert keys[k] < keys[i];
    }
    assert keys[i] in due ==> Increasing(ids + [keys[i]]);
    assert forall k :: 0 <= k < i + 1 && keys[k] in due ==> k < i || keys[k] == keys[i];
  }

  /** Having passed all keys, the list holds the chosen ones in ascending order. */
  lemma {:induction false} CollectedAll(ids: seq<nat>, all: set<nat>, due: set<nat>)
    requires due <= all && Collected(ids, Ascending(all), |Ascending(all)|, due)
    ensures ids == Ascending(due)
  {
    var keys := Ascending(all);
    forall id | id in due ensures id in ids {
      assert id in keys;
    }
    AscendingUnique(ids, due);
  }

  function Elements(ids: seq<nat>): set<nat> {
    set id | id in ids
  }

  lemma {:induction false} ElementsAscending(ids: set<nat>)
    ensures Elements(Ascending(ids)) == ids
  {
  }

  /** Removing a list of keys is removing its front and then its last key, which is still there. */
  lemma {:induction false} MinusLast<V>(m: map<nat, V>, ids: seq<nat>)
    requires ids != [] && Increasing(ids) && forall id :: id in ids ==> id in m
    ensures var front, last := ids[..|ids| - 1], ids[|ids| - 1];
            && Increasing(front) && (forall id :: id in front ==> id in m)
            && last in m - Elements(front) && (m - Elements(front))[last] == m[last]
            && m - Elements(ids) == (m - Elements(front)) - {last}
  {
    var front, last := ids[..|ids| - 1], ids[|ids| - 1];
    assert ids == front + [last];
    assert forall i :: 0 <= i < |front| ==> front[i] == ids[i];
    assert last !in front;
    assert Elements(ids) == Elements(front) + {last};
  }
}
