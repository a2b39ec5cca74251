/** The liquidity ledger: locked totals, block-indexed pending unlocks, pruning.
    `Ledger` is the value both storage backends are proved against. */
module LiquidityLedger {
  import opened Common

  datatype Asset = Asset(chain: nat, address: nat)

  /** An amount that stops being locked from `block` on. */
  datatype Unlock = Unlock(asset: Asset, block: nat, amount: nat)

  datatype LockInput = LockInput(balance: nat, block: nat, amount: nat)

  datatype Ledger = Ledger(locked: map<Asset, nat>, unlocks: seq<Unlock>)

  /** The two storage implementations differ in the lock test and in the prune bound. */
  datatype Backend = Memory | Postgres

  function LockedTotal(locked: map<Asset, nat>, a: Asset): nat {
    if a in locked then locked[a] else 0
  }

  /** Unlocks of `a` recorded for blocks strictly below `c`. */
  function Below(us: seq<Unlock>, a: Asset, c: nat): nat {
    if us == [] then 0
    else
      var u := us[|us| - 1];
      Below(us[..|us| - 1], a, c) + if u.asset == a && u.block < c then u.amount else 0
  }

  /** Pessimistic locked amount seen by a reader at block `at`. */
  function LockedAt(l: Ledger, a: Asset, at: nat): nat {
    Monus(LockedTotal(l.locked, a), Below(l.unlocks, a, at + 1))
  }

  /** The lock test: Postgres adds the unlocks to the balance, memory saturates. */
  predicate Accepts(b: Backend, l: Ledger, a: Asset, input: LockInput) {
    match b
    case Memory => input.amount + LockedAt(l, a, input.block) <= input.balance
    case Postgres =>
      LockedTotal(l.locked, a) + input.amount <= input.balance + Below(l.unlocks, a, input.block + 1)
  }

  predicate CanLock(b: Backend, l: Ledger, inputs: map<Asset, LockInput>) {
    forall a <- inputs :: Accepts(b, l, a, inputs[a])
  }

  function Lock(l: Ledger, inputs: map<Asset, LockInput>): Ledger {
    l.(locked := l.locked + map a | a in inputs :: LockedTotal(l.locked, a) + inputs[a].amount)
  }

  function Release(l: Ledger, u: Unlock): Ledger {
    l.(unlocks := l.unlocks + [u])
  }

  predicate Pruned(u: Unlock, chain: nat, cut: nat) {
    u.asset.chain == chain && u.block < cut
  }

  function Keep(us: seq<Unlock>, chain: nat, cut: nat): seq<Unlock> {
    if us == [] then []
    else
      var u := us[|us| - 1];
      Keep(us[..|us| - 1], chain, cut) + if Pruned(u, chain, cut) then [] else [u]
  }

  /** Memory prunes blocks `< until`, Postgres `<= until`. */
  function PruneCut(b: Backend, until: nat): nat {
    match b
    case Memory => until
    case Postgres => until + 1
  }

  /** Drops unlocks of `chain` below `cut` and takes them off the locked totals, floored at zero. */
  function Prune(l: Ledger, chain: nat, cut: nat): Ledger {
    Ledger(
      map a | a in l.locked ::
        if a.chain == chain then Monus(l.locked[a], Below(l.unlocks, a, cut)) else l.locked[a],
      Keep(l.unlocks, chain, cut))
  }

  // ---------------------------------------------------------------- what readers and locks see

  /** Nothing released yet: everything locked counts, for readers and for the lock test. */
  lemma FreshCounts(b: Backend, l: Ledger, a: Asset, input: LockInput, at: nat)
    requires forall u <- l.unlocks :: u.asset != a
    ensures LockedAt(l, a, at) == LockedTotal(l.locked, a)
    ensures Accepts(b, l, a, input) <==> LockedTotal(l.locked, a) + input.amount <= input.balance
  {
    NoneBelow(l.unlocks, a, at + 1);
    NoneBelow(l.unlocks, a, input.block + 1);
  }

  lemma {:induction false} NoneBelow(us: seq<Unlock>, a: Asset, c: nat)
    requires forall u <- us :: u.asset != a
    ensures Below(us, a, c) == 0
  {
    if us != [] {
      assert us[|us| - 1] in us;
      NoneBelow(us[..|us| - 1], a, c);
    }
  }

  /** A release counts for readers at its block or later, and for locks checked there: as if the balance
      were larger by its amount, as long as the ledger has that much locked. */
  lemma ReleaseCounts(b: Backend, l: Ledger, u: Unlock, a: Asset, input: LockInput, at: nat)
    ensures LockedAt(Release(l, u), a, at) == Monus(LockedAt(l, a, at), if u.asset == a && u.block <= at then u.amount else 0)
    ensures b == Postgres || (u.asset == a && u.block <= input.block ==> u.amount <= LockedAt(l, a, input.block)) ==>
              (Accepts(b, Release(l, u), a, input)
               <==> Accepts(b, l, a, input.(balance := input.balance
                                                       + if u.asset == a && u.block <= input.block then u.amount else 0)))
  {
    assert (l.unlocks + [u])[..|l.unlocks|] == l.unlocks;
  }

  /** The unlocks a prune takes out: memory prunes below the bound, Postgres up to it. */
  predicate Removed(b: Backend, u: Unlock, chain: nat, until: nat) {
    u.asset.chain == chain && match b case Memory => u.block < until case Postgres => u.block <= until
  }

  function RemovedAmount(b: Backend, a: Asset, until: nat): Unlock -> nat {
    (u: Unlock) => if u.asset == a && Removed(b, u, a.chain, until) then u.amount else 0
  }

  /** It takes out all of them and nothing else, and their amounts off the locked totals. */
  lemma PruneRemoves(b: Backend, l: Ledger, chain: nat, until: nat, u: Unlock, a: Asset)
    ensures var p := Prune(l, chain, PruneCut(b, until));
            && multiset(p.unlocks)[u] == (if Removed(b, u, chain, until) then 0 else multiset(l.unlocks)[u])
            && LockedTotal(p.locked, a)
               == (if a.chain == chain then Monus(LockedTotal(l.locked, a), Sum(l.unlocks, RemovedAmount(b, a, until)))
                   else LockedTotal(l.locked, a))
  {
    KeepRemoves(b, l.unlocks, chain, until, u);
    BelowIsRemoved(b, l.unlocks, a, until);
  }

  lemma {:induction false} KeepRemoves(b: Backend, us: seq<Unlock>, chain: nat, until: nat, u: Unlock)
    ensures multiset(Keep(us, chain, PruneCut(b, until)))[u] == if Removed(b, u, chain, until) then 0 else multiset(us)[u]
  {
    if us != [] {
      var init, last := us[..|us| - 1], us[|us| - 1];
      KeepRemoves(b, init, chain, until, u);
      assert us == init + [last];
    }
  }

  lemma {:induction false} BelowIsRemoved(b: Backend, us: seq<Unlock>, a: Asset, until: nat)
    ensures Below(us, a, PruneCut(b, until)) == Sum(us, RemovedAmount(b, a, until))
  {
    if us != [] {
      BelowIsRemoved(b, us[..|us| - 1], a, until);
    }
  }

  // ---------------------------------------------------------------- reads across a prune

  lemma {:induction false} BelowMonotone(us: seq<Unlock>, a: Asset, c: nat, d: nat)
    requires c <= d
    ensures Below(us, a, c) <= Below(us, a, d)
  {
    if us != [] {
      BelowMonotone(us[..|us| - 1], a, c, d);
    }
  }

  /** What a prune keeps and what lies below its cut make up what there was. */
  lemma {:induction false} KeptAndCut(us: seq<Unlock>, chain: nat, cut: nat, a: Asset, c: nat)
    ensures Below(Keep(us, chain, cut), a, c) + (if a.chain == chain then Below(us, a, Min(c, cut)) else 0) == Below(us, a, c)
  {
    if us != [] {
      var init, u := us[..|us| - 1], us[|us| - 1];
      var kept := Keep(init, chain, cut);
      KeptAndCut(init, chain, cut, a, c);
      assert kept + [] == kept && (kept + [u])[..|kept|] == kept;
    }
  }

  /** Pruning removes exactly the unlocks below the cut, for the pruned chain only. */
  lemma BelowKeep(us: seq<Unlock>, chain: nat, cut: nat, a: Asset, c: nat)
    ensures Below(Keep(us, chain, cut), a, c)
         == if a.chain == chain then Monus(Below(us, a, c), Below(us, a, cut)) else Below(us, a, c)
  {
    KeptAndCut(us, chain, cut, a, c);
    if c < cut {
      BelowMonotone(us, a, c, cut);
    }
  }

  /** A single prune never changes what a reader at or after the prune bound sees. */
  lemma PruneKeepsReads(b: Backend, l: Ledger, chain: nat, until: nat, a: Asset, at: nat)
    requires a.chain == chain ==> at >= until
    ensures LockedAt(Prune(l, chain, PruneCut(b, until)), a, at) == LockedAt(l, a, at)
  {
    var cut := PruneCut(b, until);
    BelowKeep(l.unlocks, chain, cut, a, at + 1);
    if a.chain == chain {
      BelowMonotone(l.unlocks, a, cut, at + 1);
    }
  }

  /** The two lock tests agree on every request exactly when unlocks do not exceed locks. */
  lemma BackendsAgree(l: Ledger, a: Asset, at: nat)
    ensures (forall balance, amount :: var i := LockInput(balance, at, amount);
               Accepts(Memory, l, a, i) == Accepts(Postgres, l, a, i))
       <==> Below(l.unlocks, a, at + 1) <= LockedTotal(l.locked, a)
  {
    var surplus := LockInput(0, at, 1);
    if Below(l.unlocks, a, at + 1) > LockedTotal(l.locked, a) {
      assert Accepts(Memory, l, a, surplus) != Accepts(Postgres, l, a, surplus);
    }
  }

  lemma LockTotal(l: Ledger, inputs: map<Asset, LockInput>, x: Asset)
    ensures LockedTotal(Lock(l, inputs).locked, x)
         == LockedTotal(l.locked, x) + if x in inputs then inputs[x].amount else 0
  {
  }

  /** Locking several assets at once has the effect of locking one of them, then the rest. */
  lemma LockSplits(l: Ledger, a: Asset, inputs: map<Asset, LockInput>)
    requires a in inputs
    ensures Lock(l, inputs) == Lock(Lock(l, map[a := inputs[a]]), inputs - {a})
  {
    var next := Lock(l, map[a := inputs[a]]);
    var whole, split := Lock(l, inputs).locked, Lock(next, inputs - {a}).locked;
    assert whole.Keys == l.locked.Keys + inputs.Keys;
    assert split.Keys == next.locked.Keys + (inputs - {a}).Keys;
    assert next.locked.Keys == l.locked.Keys + {a};
    forall x | x in whole ensures whole[x] == split[x] {
      LockTotal(l, inputs, x);
      LockTotal(l, map[a := inputs[a]], x);
      LockTotal(next, inputs - {a}, x);
    }
  }

  /** ... and it is accepted when each of the two is. */
  lemma CanLockSplits(b: Backend, l: Ledger, a: Asset, inputs: map<Asset, LockInput>)
    requires a in inputs
    ensures var first := map[a := inputs[a]];
            CanLock(b, l, inputs) <==> CanLock(b, l, first) && CanLock(b, Lock(l, first), inputs - {a})
  {
    var first := map[a := inputs[a]];
    var next := Lock(l, first);
    forall x | x in inputs && x != a ensures Accepts(b, l, x, inputs[x]) == Accepts(b, next, x, inputs[x]) {
      LockTotal(l, first, x);
    }
    if CanLock(b, l, first) && CanLock(b, next, inputs - {a}) {
      forall x | x in inputs ensures Accepts(b, l, x, inputs[x]) {
        if x == a {
          assert x in first;
        } else {
          assert x in inputs - {a};
        }
      }
    }
  }

  // ---------------------------------------------------------------- whole runs

  datatype Op =
    | TryLock(inputs: map<Asset, LockInput>)
    | Unlocking(unlock: Unlock)
    | Read(asset: Asset, at: nat)
    | Pruning(chain: nat, until: nat)

  datatype Answer = Accepted | Refused | Amount(locked: nat) | Silent

  function Apply(b: Backend, l: Ledger, op: Op): (Ledger, Answer) {
    match op
    case TryLock(inputs) => if CanLock(b, l, inputs) then (Lock(l, inputs), Accepted) else (l, Refused)
    case Unlocking(u) => (Release(l, u), Silent)
    case Read(a, at) => (l, Amount(LockedAt(l, a, at)))
    case Pruning(chain, until) => (Prune(l, chain, PruneCut(b, until)), Silent)
  }

  function Answers(b: Backend, l: Ledger, ops: seq<Op>): seq<Answer>
    decreases |ops|
  {
    if ops == [] then []
    else var (next, answer) := Apply(b, l, ops[0]); [answer] + Answers(b, next, ops[1..])
  }

  function Cut(cuts: map<nat, nat>, chain: nat): nat {
    if chain in cuts then cuts[chain] else 0
  }

  /** Every block the operation looks at is at or after the prune bounds in force. */
  predicate Recent(op: Op, cuts: map<nat, nat>) {
    match op
    case TryLock(inputs) => forall a <- inputs :: inputs[a].block + 1 >= Cut(cuts, a.chain)
    case Unlocking(_) => true
    case Read(a, at) => at + 1 >= Cut(cuts, a.chain)
    case Pruning(_, _) => true
  }

  /** `p` is `l` minus unlocks below the cuts that were already taken off the locked totals. */
  ghost predicate Offset(l: Ledger, p: Ledger, cuts: map<nat, nat>, a: Asset) {
    && LockedTotal(p.locked, a) <= LockedTotal(l.locked, a)
    && forall c | c >= Cut(cuts, a.chain) ::
         Below(l.unlocks, a, c)
         == Below(p.unlocks, a, c) + (LockedTotal(l.locked, a) - LockedTotal(p.locked, a))
  }

  ghost predicate Simulates(l: Ledger, p: Ledger, cuts: map<nat, nat>) {
    forall a :: Offset(l, p, cuts, a)
  }

  lemma SimulatesLock(b: Backend, l: Ledger, p: Ledger, cuts: map<nat, nat>, inputs: map<Asset, LockInput>)
    requires Simulates(l, p, cuts) && Recent(TryLock(inputs), cuts)
    ensures CanLock(b, l, inputs) == CanLock(b, p, inputs)
    ensures Simulates(Lock(l, inputs), Lock(p, inputs), cuts)
  {
    forall a | a in inputs
      ensures Accepts(b, l, a, inputs[a]) == Accepts(b, p, a, inputs[a])
    {
      assert Offset(l, p, cuts, a);
    }
    forall a ensures Offset(Lock(l, inputs), Lock(p, inputs), cuts, a) {
      assert Offset(l, p, cuts, a);
    }
  }

  lemma SimulatesRelease(l: Ledger, p: Ledger, cuts: map<nat, nat>, u: Unlock)
    requires Simulates(l, p, cuts)
    ensures Simulates(Release(l, u), Release(p, u), cuts)
  {
    forall a ensures Offset(Release(l, u), Release(p, u), cuts, a) {
      assert Offset(l, p, cuts, a);
    }
  }

  lemma SimulatesRead(l: Ledger, p: Ledger, cuts: map<nat, nat>, a: Asset, at: nat)
    requires Simulates(l, p, cuts) && Recent(Read(a, at), cuts)
    ensures LockedAt(l, a, at) == LockedAt(p, a, at)
  {
    assert Offset(l, p, cuts, a);
  }

  lemma PrunedTotal(l: Ledger, chain: nat, cut: nat, a: Asset)
    ensures LockedTotal(Prune(l, chain, cut).locked, a)
         == if a.chain == chain then Monus(LockedTotal(l.locked, a), Below(l.unlocks, a, cut))
            else LockedTotal(l.locked, a)
  {
  }

  /** Pruning only one side keeps the simulation while its unlocks do not exceed its locks. */
  lemma SimulatesPruneOne(l: Ledger, p: Ledger, cuts: map<nat, nat>, chain: nat, cut: nat)
    requires Simulates(l, p, cuts)
    requires forall a: Asset :: a.chain == chain ==> Below(p.unlocks, a, cut) <= LockedTotal(p.locked, a)
    ensures Simulates(l, Prune(p, chain, cut), cuts[chain := Max(Cut(cuts, chain), cut)])
  {
    var q, cuts' := Prune(p, chain, cut), cuts[chain := Max(Cut(cuts, chain), cut)];
    forall a ensures Offset(l, q, cuts', a) {
      assert Offset(l, p, cuts, a);
      PrunedTotal(p, chain, cut, a);
      forall c | c >= Cut(cuts', a.chain)
        ensures Below(l.unlocks, a, c)
             == Below(q.unlocks, a, c) + (LockedTotal(l.locked, a) - LockedTotal(q.locked, a))
      {
        BelowKeep(p.unlocks, chain, cut, a, c);
        if a.chain == chain {
          BelowMonotone(p.unlocks, a, cut, c);
        }
      }
    }
  }

  /** Pruning both sides at or after the bound in force always keeps the simulation. */
  lemma SimulatesPruneBoth(l: Ledger, p: Ledger, cuts: map<nat, nat>, chain: nat, cut: nat)
    requires Simulates(l, p, cuts) && cut >= Cut(cuts, chain)
    ensures Simulates(Prune(l, chain, cut), Prune(p, chain, cut), cuts)
  {
    var l', p' := Prune(l, chain, cut), Prune(p, chain, cut);
    forall a ensures Offset(l', p', cuts, a) {
      assert Offset(l, p, cuts, a);
      PrunedTotal(l, chain, cut, a);
      PrunedTotal(p, chain, cut, a);
      forall c | c >= Cut(cuts, a.chain)
        ensures Below(l'.unlocks, a, c)
             == Below(p'.unlocks, a, c) + (LockedTotal(l'.locked, a) - LockedTotal(p'.locked, a))
      {
        BelowKeep(l.unlocks, chain, cut, a, c);
        BelowKeep(p.unlocks, chain, cut, a, c);
      }
    }
  }

  /** Later operations on the ledger and on its pruned copy: nothing older than the prune is
      looked at, and later prunes move the bound forward. */
  predicate Later(op: Op, b: Backend, cuts: map<nat, nat>) {
    Recent(op, cuts) && (op.Pruning? ==> PruneCut(b, op.until) >= Cut(cuts, op.chain))
  }

  lemma {:induction false} SimulatesRun(b: Backend, l: Ledger, p: Ledger, cuts: map<nat, nat>, ops: seq<Op>)
    requires Simulates(l, p, cuts)
    requires forall op <- ops :: Later(op, b, cuts)
    ensures Answers(b, l, ops) == Answers(b, p, ops)
    decreases |ops|
  {
    if ops != [] {
      var op := ops[0];
      assert Later(op, b, cuts);
      match op {
        case TryLock(inputs) => SimulatesLock(b, l, p, cuts, inputs);
        case Unlocking(u) => SimulatesRelease(l, p, cuts, u);
        case Read(a, at) => SimulatesRead(l, p, cuts, a, at);
        case Pruning(chain, until) => SimulatesPruneBoth(l, p, cuts, chain, PruneCut(b, until));
      }
      SimulatesRun(b, Apply(b, l, op).0, Apply(b, p, op).0, cuts, ops[1..]);
    }
  }

  /** No later sequence of locks, unlocks, reads and prunes tells the two ledgers apart. */
  ghost predicate Indistinguishable(b: Backend, l: Ledger, p: Ledger, cuts: map<nat, nat>) {
    forall ops: seq<Op> | (forall op <- ops :: Later(op, b, cuts)) :: Answers(b, l, ops) == Answers(b, p, ops)
  }

  ghost predicate WithinLocks(l: Ledger, chain: nat, cut: nat) {
    forall a: Asset | a.chain == chain :: Below(l.unlocks, a, cut) <= LockedTotal(l.locked, a)
  }

  lemma SimulatesSelf(l: Ledger)
    ensures Simulates(l, l, map[])
  {
    forall a ensures Offset(l, l, map[], a) {}
  }

  /** What a lock followed by a read answers. */
  lemma LockThenRead(b: Backend, l: Ledger, a: Asset, input: LockInput, at: nat)
    requires Accepts(b, l, a, input)
    ensures Answers(b, l, [TryLock(map[a := input]), Read(a, at)])
         == [Accepted, Amount(Monus(LockedTotal(l.locked, a) + input.amount, Below(l.unlocks, a, at + 1)))]
  {
    var inputs := map[a := input];
    var ops := [TryLock(inputs), Read(a, at)];
    assert CanLock(b, l, inputs);
    LockTotal(l, inputs, a);
    assert ops[1..] == [Read(a, at)];
    assert ops[1..][1..] == [];
    assert Answers(b, Lock(l, inputs), ops[1..]) == [Amount(LockedAt(Lock(l, inputs), a, at))];
  }

  /** A surplus of pruned unlocks empties the lock, and the ledger forgets them. */
  lemma SurplusPruned(l: Ledger, chain: nat, cut: nat, a: Asset)
    requires a.chain == chain && Below(l.unlocks, a, cut) > LockedTotal(l.locked, a)
    ensures var p := Prune(l, chain, cut);
            && LockedTotal(p.locked, a) == 0
            && Below(p.unlocks, a, cut + 1) + Below(l.unlocks, a, cut) == Below(l.unlocks, a, cut + 1)
  {
    PrunedTotal(l, chain, cut, a);
    BelowKeep(l.unlocks, chain, cut, a, cut + 1);
    BelowMonotone(l.unlocks, a, cut, cut + 1);
  }

  lemma AmpleAccepted(b: Backend, l: Ledger, a: Asset, input: LockInput)
    requires LockedTotal(l.locked, a) + input.amount <= input.balance
    ensures Accepts(b, l, a, input)
  {
  }

  /** It shows up in a read after the next lock. */
  lemma SurplusShows(b: Backend, l: Ledger, chain: nat, cut: nat, a: Asset) returns (input: LockInput)
    requires a.chain == chain && Below(l.unlocks, a, cut) > LockedTotal(l.locked, a)
    ensures input.block == cut
    ensures var ops := [TryLock(map[a := input]), Read(a, cut)];
            Answers(b, l, ops) != Answers(b, Prune(l, chain, cut), ops)
  {
    var p := Prune(l, chain, cut);
    var unlocked := Below(l.unlocks, a, cut + 1);
    input := LockInput(unlocked + LockedTotal(l.locked, a), cut, unlocked);
    SurplusPruned(l, chain, cut, a);
    AmpleAccepted(b, l, a, input);
    AmpleAccepted(b, p, a, input);
    LockThenRead(b, l, a, input, cut);
    LockThenRead(b, p, a, input, cut);
  }

  lemma SurplusDistinguishes(b: Backend, l: Ledger, chain: nat, until: nat, a: Asset)
    requires a.chain == chain
    requires Below(l.unlocks, a, PruneCut(b, until)) > LockedTotal(l.locked, a)
    ensures !Indistinguishable(b, l, Prune(l, chain, PruneCut(b, until)), map[chain := PruneCut(b, until)])
  {
    var cut := PruneCut(b, until);
    var cuts := map[chain := cut];
    var input := SurplusShows(b, l, chain, cut, a);
    var lock, read := TryLock(map[a := input]), Read(a, cut);
    assert Later(lock, b, cuts) && Later(read, b, cuts);
    assert forall op <- [lock, read] :: Later(op, b, cuts);
  }

  /** Pruning is unobservable exactly while the pruned unlocks do not exceed the locks. */
  lemma PruneUnobservable(b: Backend, l: Ledger, chain: nat, until: nat)
    ensures var cut := PruneCut(b, until);
            Indistinguishable(b, l, Prune(l, chain, cut), map[chain := cut]) <==> WithinLocks(l, chain, cut)
  {
    var cut := PruneCut(b, until);
    if WithinLocks(l, chain, cut) {
      SimulatesSelf(l);
      SimulatesPruneOne(l, l, map[], chain, cut);
      forall ops: seq<Op> | forall op <- ops :: Later(op, b, map[chain := cut])
        ensures Answers(b, l, ops) == Answers(b, Prune(l, chain, cut), ops)
      {
        SimulatesRun(b, l, Prune(l, chain, cut), map[chain := cut], ops);
      }
    } else {
      var a: Asset :| a.chain == chain && Below(l.unlocks, a, cut) > LockedTotal(l.locked, a);
      SurplusDistinguishes(b, l, chain, until, a);
    }
  }

  // ---------------------------------------------------------------- a run that prunes at will

  /** The same run on a ledger nobody ever prunes. */
  function Unpruned(b: Backend, l: Ledger, ops: seq<Op>): seq<Answer>
    decreases |ops|
  {
    if ops == [] then []
    else if ops[0].Pruning? then [Silent] + Unpruned(b, l, ops[1..])
    else var (next, answer) := Apply(b, l, ops[0]); [answer] + Unpruned(b, next, ops[1..])
  }

  /** Along the run of the unpruned ledger `l`, operations look only at blocks at or after the
      bounds pruned so far, and at every prune all recorded unlocks are covered by locks. */
  ghost predicate Disciplined(b: Backend, l: Ledger, cuts: map<nat, nat>, ops: seq<Op>)
    decreases |ops|
  {
    ops == [] ||
    (var op := ops[0];
     && Recent(op, cuts)
     && if op.Pruning? then
          var cut := PruneCut(b, op.until);
          && (forall c :: WithinLocks(l, op.chain, c))
          && Disciplined(b, l, cuts[op.chain := Max(Cut(cuts, op.chain), cut)], ops[1..])
        else
          Disciplined(b, Apply(b, l, op).0, cuts, ops[1..]))
  }

  lemma {:induction false} PrunedRunAnswers(b: Backend, l: Ledger, p: Ledger, cuts: map<nat, nat>, ops: seq<Op>)
    requires Simulates(l, p, cuts) && Disciplined(b, l, cuts, ops)
    ensures Answers(b, p, ops) == Unpruned(b, l, ops)
    decreases |ops|
  {
    if ops != [] {
      match ops[0] {
        case TryLock(inputs) =>
          SimulatesLock(b, l, p, cuts, inputs);
          PrunedRunAnswers(b, Apply(b, l, ops[0]).0, Apply(b, p, ops[0]).0, cuts, ops[1..]);
        case Unlocking(u) =>
          SimulatesRelease(l, p, cuts, u);
          PrunedRunAnswers(b, Release(l, u), Release(p, u), cuts, ops[1..]);
        case Read(a, at) =>
          SimulatesRead(l, p, cuts, a, at);
          PrunedRunAnswers(b, l, p, cuts, ops[1..]);
        case Pruning(chain, until) =>
          var cut := PruneCut(b, until);
          var cut' := Max(Cut(cuts, chain), cut);
          forall a: Asset | a.chain == chain
            ensures Below(p.unlocks, a, cut) <= LockedTotal(p.locked, a)
          {
            assert Offset(l, p, cuts, a);
            assert WithinLocks(l, chain, cut');
            BelowMonotone(p.unlocks, a, cut, cut');
          }
          SimulatesPruneOne(l, p, cuts, chain, cut);
          PrunedRunAnswers(b, l, Prune(p, chain, cut), cuts[chain := cut'], ops[1..]);
      }
    }
  }

  /** Over any disciplined run, pruning at arbitrary points changes no answer. */
  lemma PruningNeverObserved(b: Backend, l: Ledger, ops: seq<Op>)
    requires Disciplined(b, l, map[], ops)
    ensures Answers(b, l, ops) == Unpruned(b, l, ops)
  {
    SimulatesSelf(l);
    PrunedRunAnswers(b, l, l, map[], ops);
  }
}
