/** The in-memory and the SQL ledger, each proved to compute the operations of `LiquidityLedger`. */
module LedgerStores {
  import opened Common
  import opened LiquidityLedger

  /** Sum of the amounts at blocks below `c` in a block-indexed map. */
  function BlockSum(m: map<nat, nat>, c: nat): nat {
    if c == 0 then 0 else BlockSum(m, c - 1) + if c - 1 in m then m[c - 1] else 0
  }

  lemma {:induction false} BlockSumAdd(m: map<nat, nat>, block: nat, amount: nat, c: nat)
    ensures var was := if block in m then m[block] else 0;
            BlockSum(m[block := was + amount], c) == BlockSum(m, c) + if block < c then amount else 0
  {
    if c != 0 {
      BlockSumAdd(m, block, amount, c - 1);
    }
  }

  lemma {:induction false} BlockSumDrop(m: map<nat, nat>, block: nat, c: nat)
    requires block in m && block < c
    ensures BlockSum(m, c) == BlockSum(m - {block}, c) + m[block]
  {
    BlockSumSame(m, m - {block}, block);
    if block < c - 1 {
      BlockSumDrop(m, block, c - 1);
    }
  }

  lemma {:induction false} BlockSumSame(m: map<nat, nat>, n: map<nat, nat>, c: nat)
    requires forall b | b < c :: (b in m <==> b in n) && (b in m ==> m[b] == n[b])
    ensures BlockSum(m, c) == BlockSum(n, c)
  {
    if c != 0 {
      BlockSumSame(m, n, c - 1);
    }
  }

  function From(m: map<nat, nat>, until: nat): map<nat, nat> {
    map b | b in m && b >= until :: m[b]
  }

  function Before(m: map<nat, nat>, until: nat): map<nat, nat> {
    map b | b in m && b < until :: m[b]
  }

  /** `split_off(until)` cuts the sum at `until`. */
  lemma {:induction false} BlockSumSplit(m: map<nat, nat>, until: nat, c: nat)
    ensures c <= until ==> BlockSum(From(m, until), c) == 0 && BlockSum(m, c) <= BlockSum(m, until)
    ensures c >= until ==> BlockSum(m, c) == BlockSum(From(m, until), c) + BlockSum(m, until)
    decreases c + until
  {
    if c == 0 {
    } else if c <= until {
      BlockSumSplit(m, until, c - 1);
      if c < until {
        BlockSumUpTo(m, c, until);
      }
    } else {
      BlockSumSplit(m, until, c - 1);
    }
  }

  lemma {:induction false} BlockSumUpTo(m: map<nat, nat>, c: nat, d: nat)
    requires c <= d
    ensures BlockSum(m, c) <= BlockSum(m, d)
  {
    if c < d {
      BlockSumUpTo(m, c, d - 1);
    }
  }

  function PendingOf(pending: map<Asset, map<nat, nat>>, a: Asset): map<nat, nat> {
    if a in pending then pending[a] else map[]
  }

  /** Takes the entries before `until` off a locked total one by one, saturating each time. */
  method Drain(amount: nat, unlocks: map<nat, nat>, until: nat) returns (left: nat)
    ensures left == Monus(amount, BlockSum(unlocks, until))
  {
    left := amount;
    var rest := Before(unlocks, until);
    BlockSumSame(rest, unlocks, until);
    while rest.Keys != {}
      invariant forall b <- rest :: b < until
      invariant Monus(left, BlockSum(rest, until)) == Monus(amount, BlockSum(unlocks, until))
      decreases rest.Keys
    {
      var b :| b in rest.Keys;
      BlockSumDrop(rest, b, until);
      left := Monus(left, rest[b]);
      rest := rest - {b};
    }
    BlockSumSame(rest, map[], until);
    BlockSumEmpty(until);
  }

  lemma {:induction false} BlockSumEmpty(c: nat)
    ensures BlockSum(map[], c) == 0
  {
    if c != 0 {
      BlockSumEmpty(c - 1);
    }
  }

  /** A locked table that grew by the requested amounts, asset by asset, is the locked one. */
  lemma LockIs(l: Ledger, inputs: map<Asset, LockInput>, updated: map<Asset, nat>)
    requires updated.Keys == l.locked.Keys + inputs.Keys
    requires forall a <- updated ::
               updated[a] == LockedTotal(l.locked, a) + if a in inputs then inputs[a].amount else 0
    ensures updated == Lock(l, inputs).locked
  {
  }

  /** The update loop of the in-memory lock. */
  method AddLocks(l: Ledger, inputs: map<Asset, LockInput>) returns (locked: map<Asset, nat>)
    ensures locked == Lock(l, inputs).locked
  {
    locked := l.locked;
    var todo := inputs.Keys;
    while todo != {}
      invariant todo <= inputs.Keys && locked.Keys == l.locked.Keys + (inputs.Keys - todo)
      invariant forall a <- locked ::
                  locked[a] == LockedTotal(l.locked, a) + if a in inputs && a !in todo then inputs[a].amount else 0
      decreases todo
    {
      var a :| a in todo;
      locked := locked[a := LockedTotal(locked, a) + inputs[a].amount];
      todo := todo - {a};
    }
    LockIs(l, inputs, locked);
  }

  /** The check-and-update loop of the SQL lock; `None` rolls the transaction back. */
  method LockRows(l: Ledger, inputs: map<Asset, LockInput>) returns (committed: Option<map<Asset, nat>>)
    ensures committed.Some? == CanLock(Postgres, l, inputs)
    ensures committed.Some? ==> committed.value == Lock(l, inputs).locked
  {
    var locked := l.locked;
    var todo := inputs.Keys;
    while todo != {}
      invariant todo <= inputs.Keys && locked.Keys == l.locked.Keys + (inputs.Keys - todo)
      invariant forall a | a in inputs && a !in todo :: Accepts(Postgres, l, a, inputs[a])
      invariant forall a <- locked ::
                  locked[a] == LockedTotal(l.locked, a) + if a in inputs && a !in todo then inputs[a].amount else 0
      decreases todo
    {
      var a :| a in todo;
      var total, unlocked := LockedTotal(l.locked, a), Below(l.unlocks, a, inputs[a].block + 1);
      if inputs[a].balance + unlocked >= total + inputs[a].amount {
        locked := locked[a := total + inputs[a].amount];
      } else {
        return None;
      }
      todo := todo - {a};
    }
    LockIs(l, inputs, locked);
    return Some(locked);
  }

  /** The locked table after pruning the unlocks of the assets in `done`. */
  function DrainedTable(locked: map<Asset, nat>, pending: map<Asset, map<nat, nat>>, chain: nat, until: nat,
                        done: set<Asset>): map<Asset, nat> {
    map a | a in locked ::
      if a.chain == chain && a in done then Monus(locked[a], BlockSum(PendingOf(pending, a), until)) else locked[a]
  }

  function CutTable(pending: map<Asset, map<nat, nat>>, chain: nat, until: nat, done: set<Asset>)
    : map<Asset, map<nat, nat>> {
    map a | a in pending :: if a.chain == chain && a in done then From(pending[a], until) else pending[a]
  }

  /** The prune loop over the pending maps. */
  method CutAndDrain(locked0: map<Asset, nat>, pending0: map<Asset, map<nat, nat>>, chain: nat, until: nat)
    returns (locked: map<Asset, nat>, pending: map<Asset, map<nat, nat>>)
    ensures locked == DrainedTable(locked0, pending0, chain, until, pending0.Keys)
    ensures pending == CutTable(pending0, chain, until, pending0.Keys)
  {
    locked, pending := locked0, pending0;
    var todo := pending0.Keys;
    while todo != {}
      invariant todo <= pending0.Keys == pending.Keys && locked.Keys == locked0.Keys
      invariant forall a <- pending ::
                  pending[a] == if a.chain == chain && a !in todo then From(pending0[a], until) else pending0[a]
      invariant forall a <- locked ::
                  locked[a] == if a.chain == chain && a in pending && a !in todo
                               then Monus(locked0[a], BlockSum(PendingOf(pending0, a), until)) else locked0[a]
      decreases todo
    {
      var a :| a in todo;
      if a.chain == chain {
        if a in locked {
          var left := Drain(locked[a], pending[a], until);
          locked := locked[a := left];
        }
        pending := pending[a := From(pending[a], until)];
      }
      todo := todo - {a};
    }
  }

  class MemoryLedger {
    var locked: map<Asset, nat>
    var pending: map<Asset, map<nat, nat>>
    ghost var view: Ledger

    ghost predicate Valid()
      reads this
    {
      && view.locked == locked
      && forall a, c :: BlockSum(PendingOf(pending, a), c) == Below(view.unlocks, a, c)
    }

    constructor ()
      ensures Valid() && view == Ledger(map[], [])
    {
      locked, pending, view := map[], map[], Ledger(map[], []);
      new;
      forall c ensures BlockSum(map[], c) == 0 {
        BlockSumEmpty(c);
      }
    }

    method GetTotalLockedAt(a: Asset, at: nat) returns (total: nat)
      requires Valid()
      ensures total == LockedAt(view, a, at)
    {
      total := Monus(LockedTotal(locked, a), BlockSum(PendingOf(pending, a), at + 1));
    }

    method TryLockLiquidity(inputs: map<Asset, LockInput>) returns (ok: bool)
      requires Valid()
      modifies this
      ensures Valid()
      ensures ok == CanLock(Memory, old(view), inputs)
      ensures view == if ok then Lock(old(view), inputs) else old(view)
    {
      ok := forall a <- inputs ::
              inputs[a].amount
              + Monus(LockedTotal(locked, a), BlockSum(PendingOf(pending, a), inputs[a].block + 1))
              <= inputs[a].balance;
      assert ok == CanLock(Memory, view, inputs);
      if ok {
        locked := AddLocks(Ledger(locked, []), inputs);
        view := Lock(view, inputs);
      }
    }

    method UnlockLiquidity(a: Asset, amount: nat, at: nat)
      requires Valid()
      modifies this
      ensures Valid() && view == Release(old(view), Unlock(a, at, amount))
    {
      var unlocks := PendingOf(pending, a);
      var was: nat := if at in unlocks then unlocks[at] else 0;
      var bumped: map<nat, nat> := unlocks[at := was + amount];
      pending := pending[a := bumped];
      view := Release(view, Unlock(a, at, amount));
      forall x, c ensures BlockSum(PendingOf(pending, x), c) == Below(view.unlocks, x, c) {
        BlockSumAdd(unlocks, at, amount, c);
        assert BlockSum(PendingOf(old(pending), x), c) == Below(old(view).unlocks, x, c);
      }
    }

    method PruneUnlockedEntries(chain: nat, until: nat)
      requires Valid()
      modifies this
      ensures Valid() && view == Prune(old(view), chain, PruneCut(Memory, until))
    {
      locked, pending := CutAndDrain(locked, pending, chain, until);
      view := Prune(view, chain, until);
      PruneTables(old(view), old(locked), old(pending), chain, until);
    }
  }

  /** Cutting every pending map and draining every locked total is the prune of the ledger. */
  lemma PruneTables(l: Ledger, locked: map<Asset, nat>, pending: map<Asset, map<nat, nat>>, chain: nat, until: nat)
    requires locked == l.locked && forall a, c :: BlockSum(PendingOf(pending, a), c) == Below(l.unlocks, a, c)
    ensures Prune(l, chain, until).locked == DrainedTable(locked, pending, chain, until, pending.Keys)
    ensures forall a, c :: BlockSum(PendingOf(CutTable(pending, chain, until, pending.Keys), a), c)
                        == Below(Prune(l, chain, until).unlocks, a, c)
  {
    BlockSumEmpty(until);
    forall a <- locked
      ensures Prune(l, chain, until).locked[a] == DrainedTable(locked, pending, chain, until, pending.Keys)[a]
    {
      assert BlockSum(PendingOf(pending, a), until) == Below(l.unlocks, a, until);
    }
    forall a, c
      ensures BlockSum(PendingOf(CutTable(pending, chain, until, pending.Keys), a), c)
           == Below(Prune(l, chain, until).unlocks, a, c)
    {
      assert BlockSum(PendingOf(pending, a), until) == Below(l.unlocks, a, until);
      assert BlockSum(PendingOf(pending, a), c) == Below(l.unlocks, a, c);
      BelowKeep(l.unlocks, chain, until, a, c);
      BlockSumSplit(PendingOf(pending, a), until, c);
      BlockSumEmpty(c);
    }
  }

  function Gone(us: seq<Unlock>, chain: nat, cut: nat): seq<Unlock> {
    if us == [] then []
    else
      var u := us[|us| - 1];
      Gone(us[..|us| - 1], chain, cut) + if Pruned(u, chain, cut) then [u] else []
  }

  /** The deleted rows carry exactly the amounts below the cut on the pruned chain. */
  lemma {:induction false} BelowGone(us: seq<Unlock>, chain: nat, cut: nat, a: Asset, c: nat)
    requires c >= cut
    ensures Below(Gone(us, chain, cut), a, c) == if a.chain == chain then Below(us, a, cut) else 0
  {
    if us != [] {
      var init, u := us[..|us| - 1], us[|us| - 1];
      BelowGone(init, chain, cut, a, c);
      if Pruned(u, chain, cut) {
        assert Gone(us, chain, cut)[..|Gone(init, chain, cut)|] == Gone(init, chain, cut);
      } else {
        assert Gone(us, chain, cut) == Gone(init, chain, cut);
      }
    }
  }

  lemma {:induction false} GoneOnChain(us: seq<Unlock>, chain: nat, cut: nat)
    ensures forall u <- Gone(us, chain, cut) :: Pruned(u, chain, cut)
  {
    if us != [] {
      GoneOnChain(us[..|us| - 1], chain, cut);
    }
  }

  /** One `GREATEST(amount - deleted, 0)` update per deleted row. */
  method TakeOff(start: map<Asset, nat>, deleted: seq<Unlock>, cut: nat) returns (locked: map<Asset, nat>)
    requires forall u <- deleted :: u.block < cut
    ensures locked.Keys == start.Keys
    ensures forall a <- locked :: locked[a] == Monus(start[a], Below(deleted, a, cut))
  {
    locked := start;
    for i := 0 to |deleted|
      invariant locked.Keys == start.Keys
      invariant forall a <- locked :: locked[a] == Monus(start[a], Below(deleted[..i], a, cut))
    {
      var a := deleted[i].asset;
      assert deleted[i] in deleted;
      assert deleted[..i + 1][..i] == deleted[..i];
      if a in locked {
        locked := locked[a := Monus(locked[a], deleted[i].amount)];
      }
    }
    assert deleted[..|deleted|] == deleted;
  }

  /** The Postgres tables: one row per locked asset, one row per recorded unlock. */
  class SqlLedger {
    var locked: map<Asset, nat>
    var rows: seq<Unlock>

    ghost function View(): Ledger
      reads this
    {
      Ledger(locked, rows)
    }

    constructor ()
      ensures View() == Ledger(map[], [])
    {
      locked, rows := map[], [];
    }

    /** Runs inside a database transaction: on refusal the partial updates are rolled back. */
    method TryLockLiquidity(inputs: map<Asset, LockInput>) returns (ok: bool)
      modifies this
      ensures ok == CanLock(Postgres, old(View()), inputs)
      ensures View() == if ok then Lock(old(View()), inputs) else old(View())
    {
      var committed := LockRows(Ledger(locked, rows), inputs);
      ok := committed.Some?;
      if ok {
        locked := committed.value;
      }
    }

    method UnlockLiquidity(a: Asset, amount: nat, at: nat)
      modifies this
      ensures View() == Release(old(View()), Unlock(a, at, amount))
    {
      rows := rows + [Unlock(a, at, amount)];
    }

    /** Deletes the rows, then subtracts each returned row, floored at zero. */
    method PruneUnlockedEntries(chain: nat, until: nat)
      modifies this
      ensures View() == Prune(old(View()), chain, PruneCut(Postgres, until))
    {
      var cut := until + 1;
      var deleted := Gone(rows, chain, cut);
      GoneOnChain(rows, chain, cut);
      locked := TakeOff(locked, deleted, cut);
      rows := Keep(rows, chain, cut);
      forall a <- locked ensures locked[a] == Prune(old(View()), chain, cut).locked[a] {
        BelowGone(old(rows), chain, cut, a, cut);
      }
    }
  }
}
