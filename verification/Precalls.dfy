/** Selection of stored precalls against the on-chain nonces, one contiguous run per sequence key. */
module Precalls {
  import opened Common

  /** Nonces are a sequence key followed by a 64-bit counter. */
  const SEQUENCE_SIZE := 0x1_0000_0000_0000_0000

  datatype Call = Call(nonce: nat, payload: nat)

  function SeqKey(nonce: nat): nat {
    nonce / SEQUENCE_SIZE
  }

  /** Next expected nonce per sequence key; a key never used starts at its counter zero. */
  function NonceOf(nonces: map<nat, nat>, key: nat): nat {
    if key in nonces then nonces[key] else key * SEQUENCE_SIZE
  }

  /** The key is what stands above the lower 64 bits; a nonce never seen for a key has its counter at zero. */
  lemma KeyAndCounter(key: nat, counter: nat, nonces: map<nat, nat>)
    requires counter < 18446744073709551616
    ensures SeqKey(key * 18446744073709551616 + counter) == key
    ensures key !in nonces ==> NonceOf(nonces, key) == key * 18446744073709551616
    ensures key in nonces ==> NonceOf(nonces, key) == nonces[key]
  {
  }

  /** Sorted by nonce, nonces distinct: they are part of the storage key. */
  predicate Sorted(calls: seq<Call>) {
    forall i, j | 0 <= i < j < |calls| :: calls[i].nonce < calls[j].nonce
  }

  function Group(calls: seq<Call>, key: nat): seq<Call> {
    if calls == [] then []
    else if SeqKey(calls[0].nonce) == key then [calls[0]] + Group(calls[1..], key)
    else Group(calls[1..], key)
  }

  /** Consecutive nonces from `nonce` on. */
  ghost predicate RunFrom(calls: seq<Call>, nonce: nat) {
    forall i | 0 <= i < |calls| :: calls[i].nonce == nonce + i
  }

  lemma {:induction false} GroupMember(calls: seq<Call>, key: nat, c: Call)
    ensures c in Group(calls, key) <==> c in calls && SeqKey(c.nonce) == key
  {
    if calls != [] {
      GroupMember(calls[1..], key, c);
    }
  }

  lemma {:induction false} GroupSorted(calls: seq<Call>, key: nat)
    requires Sorted(calls)
    ensures Sorted(Group(calls, key))
  {
    if calls != [] {
      GroupSorted(calls[1..], key);
      forall c <- Group(calls[1..], key) ensures calls[0].nonce < c.nonce {
        GroupMember(calls[1..], key, c);
      }
    }
  }

  lemma {:induction false} GroupAppend(a: seq<Call>, b: seq<Call>, key: nat)
    ensures Group(a + b, key) == Group(a, key) + Group(b, key)
  {
    if a == [] {
      assert a + b == b;
    } else {
      assert (a + b)[1..] == a[1..] + b;
      GroupAppend(a[1..], b, key);
    }
  }

  lemma {:induction false} GroupUniform(calls: seq<Call>, key: nat, k: nat)
    requires forall c <- calls :: SeqKey(c.nonce) == k
    ensures Group(calls, key) == if key == k then calls else []
  {
    if calls != [] {
      GroupUniform(calls[1..], key, k);
    }
  }

  /** What the loop over one sequence picks and finds stale. */
  ghost predicate Picks(calls: seq<Call>, nonce: nat, picked: seq<Call>, stale: set<Call>) {
    && RunFrom(picked, nonce) && (forall c <- picked :: c in calls)
    && (forall c <- calls :: c.nonce != nonce + |picked|)
    && (forall c :: c in stale <==> c in calls && c.nonce < nonce)
  }

  /** In a sorted list, what follows the picked calls is not below the running nonce. */
  lemma PickedBelow(calls: seq<Call>, i: nat, start: nat, picked: seq<Call>)
    requires Sorted(calls) && i < |calls| && RunFrom(picked, start) && forall c <- picked :: c in calls[..i]
    ensures picked == [] || calls[i].nonce >= start + |picked|
  {
    if picked != [] {
      var last := picked[|picked| - 1];
      assert last in calls[..i];
    }
  }

  /** Stopping at a gap loses nothing: all later nonces are beyond it too. */
  lemma GapEnds(calls: seq<Call>, i: nat, nonce: nat)
    requires Sorted(calls) && i <= |calls| && (i < |calls| ==> calls[i].nonce > nonce)
    ensures forall c <- calls :: c in calls[..i] || c.nonce > nonce
  {
    forall c <- calls ensures c in calls[..i] || c.nonce > nonce {
      var j :| 0 <= j < |calls| && calls[j] == c;
      if j < i {
        assert calls[..i][j] == c;
      }
    }
  }

  /** The loop over the sorted calls of one sequence: continue, skip stale, stop at the first gap. */
  method PickSequence(calls: seq<Call>, start: nat) returns (picked: seq<Call>, stale: set<Call>)
    requires Sorted(calls)
    ensures Picks(calls, start, picked, stale)
  {
    picked, stale := [], {};
    var nonce := start;
    var i := 0;
    while i < |calls|
      invariant 0 <= i <= |calls| && nonce == start + |picked| && RunFrom(picked, start)
      invariant forall c <- picked :: c in calls[..i]
      invariant forall c :: c in stale <==> c in calls[..i] && c.nonce < start
      invariant forall c <- calls[..i] :: c.nonce < nonce
    {
      var call := calls[i];
      assert calls[..i + 1] == calls[..i] + [call];
      PickedBelow(calls, i, start, picked);
      if call.nonce == nonce {
        picked := picked + [call];
        nonce := nonce + 1;
      } else if call.nonce < nonce {
        stale := stale + {call};
      } else {
        break;
      }
      i := i + 1;
    }
    GapEnds(calls, i, nonce);
  }

  /** For one key the selection is the longest stored run from the on-chain nonce. */
  ghost predicate Maximal(stored: seq<Call>, selected: seq<Call>, nonces: map<nat, nat>, key: nat) {
    var run := Group(selected, key);
    && RunFrom(run, NonceOf(nonces, key))
    && forall c <- stored | SeqKey(c.nonce) == key :: c.nonce != NonceOf(nonces, key) + |run|
  }

  lemma SelectKey(stored: seq<Call>, selected: seq<Call>, nonces: map<nat, nat>, key: nat, picked: seq<Call>,
                  stale: set<Call>)
    requires Picks(Group(stored, key), NonceOf(nonces, key), picked, stale) && Group(selected, key) == []
    ensures Maximal(stored, selected + picked, nonces, key)
    ensures forall k | k != key :: Group(selected + picked, k) == Group(selected, k)
    ensures (forall c <- picked :: c in stored)
         && forall c :: c in stale <==> c in stored && SeqKey(c.nonce) == key && c.nonce < NonceOf(nonces, key)
  {
    forall c ensures c in Group(stored, key) <==> c in stored && SeqKey(c.nonce) == key {
      GroupMember(stored, key, c);
    }
    forall k ensures Group(selected + picked, k) == if k == key then picked else Group(selected, k) {
      GroupAppend(selected, picked, k);
      GroupUniform(picked, k, key);
    }
  }

  /** All sequence keys of the stored calls, in whatever order the hash map yields them. Stale
      calls leave storage; the rest stays until it was executed. */
  method SelectPrecalls(stored: seq<Call>, nonces: map<nat, nat>) returns (executable: seq<Call>, stale: set<Call>)
    requires Sorted(stored)
    ensures forall key :: Maximal(stored, executable, nonces, key)
    ensures forall c <- executable :: c in stored
    ensures forall c :: c in stale <==> c in stored && c.nonce < NonceOf(nonces, SeqKey(c.nonce))
  {
    executable, stale := [], {};
    var todo := set c | c in stored :: SeqKey(c.nonce);
    var keys := todo;
    while todo != {}
      invariant todo <= keys
      invariant forall key :: key !in todo ==> Maximal(stored, executable, nonces, key)
      invariant forall key <- todo :: Group(executable, key) == []
      invariant forall c <- executable :: c in stored
      invariant forall c :: c in stale <==>
                  c in stored && SeqKey(c.nonce) !in todo && c.nonce < NonceOf(nonces, SeqKey(c.nonce))
      decreases todo
    {
      var key :| key in todo;
      var calls := Group(stored, key);
      GroupSorted(stored, key);
      var picked, expired := PickSequence(calls, NonceOf(nonces, key));
      SelectKey(stored, executable, nonces, key, picked, expired);
      forall k | k !in todo ensures Maximal(stored, executable + picked, nonces, k) {
        assert Maximal(stored, executable, nonces, k);
      }
      executable := executable + picked;
      stale := stale + expired;
      todo := todo - {key};
    }
  }

  // ---------------------------------------------------------------- replay on the account

  /** The account takes a call exactly when it carries the next nonce of its sequence. */
  function Replay(calls: seq<Call>, nonces: map<nat, nat>): Option<map<nat, nat>> {
    if calls == [] then Some(nonces)
    else
      var key := SeqKey(calls[0].nonce);
      if calls[0].nonce == NonceOf(nonces, key)
      then Replay(calls[1..], nonces[key := calls[0].nonce + 1])
      else None
  }

  lemma RunFromCons(c: Call, rest: seq<Call>, nonce: nat)
    ensures RunFrom([c] + rest, nonce) <==> c.nonce == nonce && RunFrom(rest, nonce + 1)
  {
    var all := [c] + rest;
    if RunFrom(all, nonce) {
      assert all[0] == c;
      forall i | 0 <= i < |rest| ensures rest[i].nonce == nonce + 1 + i {
        assert all[i + 1] == rest[i];
      }
    }
  }

  /** A list of calls is accepted exactly when each sequence in it runs on from its nonce, and then
      each nonce has moved by the length of its run. */
  lemma {:induction false} ReplayExactly(calls: seq<Call>, nonces: map<nat, nat>)
    ensures Replay(calls, nonces).Some? <==> forall key :: RunFrom(Group(calls, key), NonceOf(nonces, key))
    ensures Replay(calls, nonces).Some? ==>
              forall key :: NonceOf(Replay(calls, nonces).value, key) == NonceOf(nonces, key) + |Group(calls, key)|
  {
    if calls != [] {
      var c, rest := calls[0], calls[1..];
      var key := SeqKey(c.nonce);
      var next := nonces[key := c.nonce + 1];
      ReplayExactly(rest, next);
      RunFromCons(c, Group(rest, key), NonceOf(nonces, key));
      assert forall k :: k != key ==> Group(calls, k) == Group(rest, k) && NonceOf(next, k) == NonceOf(nonces, k);
      if Replay(calls, nonces).Some? {
        forall k ensures RunFrom(Group(calls, k), NonceOf(nonces, k)) {
          assert RunFrom(Group(rest, k), NonceOf(next, k));
        }
      } else if c.nonce == NonceOf(nonces, key) {
        var k :| !RunFrom(Group(rest, k), NonceOf(next, k));
        assert !RunFrom(Group(calls, k), NonceOf(nonces, k));
      } else {
        assert !RunFrom(Group(calls, key), NonceOf(nonces, key));
      }
    }
  }

  /** The selection is accepted in any order that keeps each sequence in order; afterwards what
      remains in storage, neither stale nor executed, waits behind a gap. */
  lemma SelectionExecutes(stored: seq<Call>, nonces: map<nat, nat>, selected: seq<Call>, order: seq<Call>)
    requires Sorted(stored) && (forall key :: Maximal(stored, selected, nonces, key))
    requires (forall c <- selected :: c in stored) && forall key :: Group(order, key) == Group(selected, key)
    ensures Replay(order, nonces).Some?
    ensures var after := Replay(order, nonces).value;
            forall c <- stored | c !in selected && c.nonce >= NonceOf(nonces, SeqKey(c.nonce)) ::
              c.nonce > NonceOf(after, SeqKey(c.nonce))
  {
    forall key ensures RunFrom(Group(order, key), NonceOf(nonces, key)) {
      assert Maximal(stored, selected, nonces, key);
    }
    ReplayExactly(order, nonces);
    var after := Replay(order, nonces).value;
    forall c <- stored | c !in selected && c.nonce >= NonceOf(nonces, SeqKey(c.nonce))
      ensures c.nonce > NonceOf(after, SeqKey(c.nonce))
    {
      var key := SeqKey(c.nonce);
      var run := Group(selected, key);
      assert Maximal(stored, selected, nonces, key);
      if c.nonce < NonceOf(nonces, key) + |run| {
        var picked := run[c.nonce - NonceOf(nonces, key)];
        GroupMember(selected, key, picked);
        assert false;
      }
    }
  }
}
