/** The transaction queue: five coupled tables that together are one FIFO per sender. */
module TxQueues {
  import opened Common

  /** Intents carry the sender they are serialised by, internal transactions carry none. */
  datatype Tx = Tx(id: nat, eoa: Option<nat>)

  datatype Queue = Queue(eoaToPending: map<nat, set<nat>>, pendingToEoa: map<nat, nat>, ready: seq<Tx>,
                         readyPerEoa: map<nat, nat>, blocked: map<nat, seq<Tx>>, cap: nat)

  function Empty(cap: nat): Queue {
    Queue(map[], map[], [], map[], map[], cap)
  }

  function PendingOf(eoaToPending: map<nat, set<nat>>, e: nat): set<nat> {
    if e in eoaToPending then eoaToPending[e] else {}
  }

  function ReadyCount(readyPerEoa: map<nat, nat>, e: nat): nat {
    if e in readyPerEoa then readyPerEoa[e] else 0
  }

  function BlockedOf(blocked: map<nat, seq<Tx>>, e: nat): seq<Tx> {
    if e in blocked then blocked[e] else []
  }

  function CountQueued(q: Queue, e: nat): nat {
    ReadyCount(q.readyPerEoa, e) + |BlockedOf(q.blocked, e)|
  }

  predicate Refuses(q: Queue, tx: Tx) {
    tx.eoa.Some? && CountQueued(q, tx.eoa.value) >= q.cap
  }

  function Block(q: Queue, e: nat, tx: Tx): Queue {
    q.(blocked := q.blocked[e := BlockedOf(q.blocked, e) + [tx]])
  }

  function MakeReady(q: Queue, e: nat, tx: Tx): Queue {
    q.(ready := q.ready + [tx], readyPerEoa := q.readyPerEoa[e := ReadyCount(q.readyPerEoa, e) + 1])
  }

  function Push(q: Queue, tx: Tx): Queue
    requires !Refuses(q, tx)
  {
    if tx.eoa.None? then q.(ready := q.ready + [tx])
    else
      var e := tx.eoa.value;
      if PendingOf(q.eoaToPending, e) == {} && ReadyCount(q.readyPerEoa, e) == 0 then MakeReady(q, e, tx) else Block(q, e, tx)
  }

  function Sent(q: Queue, tx: Tx): Queue {
    if tx.eoa.None? then q
    else
      var e := tx.eoa.value;
      q.(eoaToPending := q.eoaToPending[e := PendingOf(q.eoaToPending, e) + {tx.id}],
         pendingToEoa := q.pendingToEoa[tx.id := e])
  }

  function Uncount(ready: map<nat, nat>, e: nat): map<nat, nat> {
    if e !in ready then ready else if ready[e] <= 1 then ready - {e} else ready[e := ready[e] - 1]
  }

  function Pop(q: Queue): Queue
    requires q.ready != []
  {
    var tx := q.ready[0];
    var popped := q.(ready := q.ready[1..]);
    Sent(if tx.eoa.Some? then popped.(readyPerEoa := Uncount(q.readyPerEoa, tx.eoa.value)) else popped, tx)
  }

  function Promote(q: Queue, e: nat): Queue {
    if BlockedOf(q.blocked, e) == [] then q.(blocked := q.blocked - {e})
    else
      var rest := q.blocked[e][1..];
      MakeReady(q, e, q.blocked[e][0])
      .(blocked := if rest == [] then q.blocked - {e} else q.blocked[e := rest])
  }

  function Finish(q: Queue, id: nat): Queue {
    if id !in q.pendingToEoa then q
    else
      var e := q.pendingToEoa[id];
      Promote(q.(pendingToEoa := q.pendingToEoa - {id},
                 eoaToPending := if e in q.eoaToPending
                                 then q.eoaToPending[e := q.eoaToPending[e] - {id}] else q.eoaToPending), e)
  }

  class TxQueue {
    var eoaToPending: map<nat, set<nat>>
    var pendingToEoa: map<nat, nat>
    var ready: seq<Tx>
    var readyPerEoa: map<nat, nat>
    var blocked: map<nat, seq<Tx>>
    const maxQueuedPerEoa: nat

    ghost function View(): Queue
      reads this
    {
      Queue(eoaToPending, pendingToEoa, ready, readyPerEoa, blocked, maxQueuedPerEoa)
    }

    constructor (cap: nat)
      ensures View() == Empty(cap)
    {
      eoaToPending, pendingToEoa, ready, readyPerEoa, blocked := map[], map[], [], map[], map[];
      maxQueuedPerEoa := cap;
    }

    method CountQueuedFor(e: nat) returns (n: nat)
      ensures n == CountQueued(View(), e)
    {
      n := (if e in readyPerEoa then readyPerEoa[e] else 0) + if e in blocked then |blocked[e]| else 0;
    }

    method PushTransaction(tx: Tx) returns (ok: bool)
      modifies this
      ensures ok == !Refuses(old(View()), tx)
      ensures View() == if ok then Push(old(View()), tx) else old(View())
    {
      if tx.eoa.None? {
        ready := ready + [tx];
        return true;
      }
      var e := tx.eoa.value;
      var queued := CountQueuedFor(e);
      if queued >= maxQueuedPerEoa {
        return false;
      }
      var waiting := if e in blocked then blocked[e] else [];
      var count: nat := if e in readyPerEoa then readyPerEoa[e] else 0;
      if e in eoaToPending && eoaToPending[e] != {} {
        blocked := blocked[e := waiting + [tx]];
      } else if count == 0 {
        readyPerEoa := readyPerEoa[e := 1];
        ready := ready + [tx];
      } else {
        blocked := blocked[e := waiting + [tx]];
      }
      return true;
    }

    method OnSentTransaction(tx: Tx)
      modifies this
      ensures View() == Sent(old(View()), tx)
    {
      if tx.eoa.Some? {
        var e := tx.eoa.value;
        eoaToPending := eoaToPending[e := (if e in eoaToPending then eoaToPending[e] else {}) + {tx.id}];
        pendingToEoa := pendingToEoa[tx.id := e];
      }
    }

    method PopReady() returns (popped: Option<Tx>)
      modifies this
      ensures popped == if old(ready) == [] then None else Some(old(ready)[0])
      ensures View() == if old(ready) == [] then old(View()) else Pop(old(View()))
    {
      if ready == [] {
        return None;
      }
      var tx := ready[0];
      ready := ready[1..];
      if tx.eoa.Some? && tx.eoa.value in readyPerEoa {
        var left := Monus(readyPerEoa[tx.eoa.value], 1);
        readyPerEoa := readyPerEoa[tx.eoa.value := left];
        if left == 0 {
          readyPerEoa := readyPerEoa - {tx.eoa.value};
        }
      }
      OnSentTransaction(tx);
      return Some(tx);
    }

    method OnFinishedPending(id: nat)
      modifies this
      ensures View() == Finish(old(View()), id)
    {
      if id !in pendingToEoa {
        return;
      }
      var e := pendingToEoa[id];
      pendingToEoa := pendingToEoa - {id};
      if e in eoaToPending {
        eoaToPending := eoaToPending[e := eoaToPending[e] - {id}];
      }
      PromoteBlocked(e);
    }

    /** The second half of a finish: the oldest blocked transaction becomes ready. */
    method PromoteBlocked(e: nat)
      modifies this`ready, this`readyPerEoa, this`blocked
      ensures View() == Promote(old(View()), e)
    {
      if e !in blocked {
        assert blocked - {e} == blocked;
        return;
      }
      var waiting := blocked[e];
      if waiting != [] {
        var count: nat := if e in readyPerEoa then readyPerEoa[e] else 0;
        readyPerEoa := readyPerEoa[e := count + 1];
        ready := ready + [waiting[0]];
        waiting := waiting[1..];
        blocked := blocked[e := waiting];
      }
      if waiting == [] {
        blocked := blocked - {e};
        assert blocked == old(blocked) - {e};
      }
    }
  }

  // ---------------------------------------------------------------- histories

  /** What happened so far: pending transactions recovered at start, accepted pushes, pops in
      order, and the sent transactions whose final status was seen. */
  datatype History = History(recovered: seq<Tx>, accepted: seq<Tx>, popped: seq<Tx>, finished: set<nat>)

  datatype State = State(queue: Queue, history: History)

  function Start(cap: nat): State {
    State(Empty(cap), History([], [], [], {}))
  }

  datatype Op =
    | Recovering(tx: Tx)
    | Pushing(tx: Tx)
    | Popping
    | Finishing(id: nat)

  predicate Fresh(h: History, id: nat) {
    (forall t <- h.recovered :: t.id != id) && (forall t <- h.accepted :: t.id != id)
  }

  predicate WasSent(h: History, id: nat) {
    (exists t <- h.recovered :: t.id == id) || (exists t <- h.popped :: t.id == id)
  }

  /** Recovery comes first and ids are never reused; any id may be reported finished. */
  predicate Enabled(s: State, op: Op) {
    match op
    case Recovering(tx) => s.history.accepted == [] && Fresh(s.history, tx.id)
    case Pushing(tx) => Fresh(s.history, tx.id)
    case _ => true
  }

  function Next(s: State, op: Op): State {
    var State(q, h) := s;
    match op
    case Recovering(tx) => State(Sent(q, tx), h.(recovered := h.recovered + [tx]))
    case Pushing(tx) =>
      if Refuses(q, tx) then s else State(Push(q, tx), h.(accepted := h.accepted + [tx]))
    case Popping =>
      if q.ready == [] then s else State(Pop(q), h.(popped := h.popped + [q.ready[0]]))
    case Finishing(id) =>
      State(Finish(q, id), if WasSent(h, id) then h.(finished := h.finished + {id}) else h)
  }

  ghost predicate Legal(s: State, ops: seq<Op>)
    decreases |ops|
  {
    ops == [] || (Enabled(s, ops[0]) && Legal(Next(s, ops[0]), ops[1..]))
  }

  function Exec(s: State, ops: seq<Op>): State
    decreases |ops|
  {
    if ops == [] then s else Exec(Next(s, ops[0]), ops[1..])
  }

  /** The transactions of one sender (or the internal ones), in order. */
  function Of(txs: seq<Tx>, k: Option<nat>): seq<Tx> {
    if txs == [] then []
    else
      var tx := txs[|txs| - 1];
      Of(txs[..|txs| - 1], k) + if tx.eoa == k then [tx] else []
  }

  lemma {:induction false} OfAppend(s: seq<Tx>, t: seq<Tx>, k: Option<nat>)
    ensures Of(s + t, k) == Of(s, k) + Of(t, k)
  {
    if t == [] {
      assert s + t == s;
    } else {
      assert (s + t)[..|s + t| - 1] == s + t[..|t| - 1];
      OfAppend(s, t[..|t| - 1], k);
    }
  }

  lemma OfOne(tx: Tx, k: Option<nat>)
    ensures Of([tx], k) == if tx.eoa == k then [tx] else []
  {
    assert [tx][..0] == [];
  }

  lemma {:induction false} OfMember(txs: seq<Tx>, tx: Tx, k: Option<nat>)
    ensures tx in Of(txs, k) <==> tx in txs && tx.eoa == k
  {
    if txs != [] {
      var last := txs[|txs| - 1];
      OfMember(txs[..|txs| - 1], tx, k);
      assert txs == txs[..|txs| - 1] + [last];
    }
  }

  function Waiting(q: Queue, k: Option<nat>): seq<Tx> {
    if k.Some? then BlockedOf(q.blocked, k.value) else []
  }

  /** Accepted order is popped order, then ready order, then blocked order. */
  ghost predicate Ordered(s: State, k: Option<nat>) {
    Of(s.history.accepted, k) == Of(s.history.popped, k) + Of(s.queue.ready, k) + Waiting(s.queue, k)
  }

  ghost predicate Counted(q: Queue, e: nat) {
    && ReadyCount(q.readyPerEoa, e) == |Of(q.ready, Some(e))|
    && (e in q.readyPerEoa ==> q.readyPerEoa[e] > 0)
    && CountQueued(q, e) <= q.cap
  }

  /** A blocked queue has something ahead of it that will promote it. */
  ghost predicate Unstuck(q: Queue, e: nat) {
    && (e in q.blocked ==> q.blocked[e] != [] && forall t <- q.blocked[e] :: t.eoa == Some(e))
    && (BlockedOf(q.blocked, e) != [] ==> PendingOf(q.eoaToPending, e) != {} || ReadyCount(q.readyPerEoa, e) > 0)
  }

  /** The two pending tables are inverse. */
  ghost predicate Inverse(eoaToPending: map<nat, set<nat>>, pendingToEoa: map<nat, nat>) {
    forall e, id :: id in PendingOf(eoaToPending, e) <==> id in pendingToEoa && pendingToEoa[id] == e
  }

  /** A sender's transactions that are in flight or about to be. */
  function InFlight(q: Queue, e: nat): nat {
    |PendingOf(q.eoaToPending, e)| + ReadyCount(q.readyPerEoa, e)
  }

  /** The most of them there may be: the recovered ones, else one if the queue takes any at all. */
  function MostInFlight(recovered: seq<Tx>, cap: nat, e: nat): nat {
    Max(Min(1, cap), |Of(recovered, Some(e))|)
  }

  ghost predicate Bounded(s: State, e: nat) {
    InFlight(s.queue, e) <= MostInFlight(s.history.recovered, s.queue.cap, e)
  }

  /** Pending is exactly what was sent for some sender and not yet finished. */
  ghost predicate Tracked(s: State) {
    && (forall t <- s.history.recovered + s.history.popped | t.eoa.Some? ::
          (t.id in s.queue.pendingToEoa <==> t.id !in s.history.finished)
          && (t.id in s.queue.pendingToEoa ==> s.queue.pendingToEoa[t.id] == t.eoa.value))
    && (forall id <- s.queue.pendingToEoa ::
          exists t <- s.history.recovered + s.history.popped :: t.id == id && t.eoa == Some(s.queue.pendingToEoa[id]))
    && (forall id <- s.history.finished :: WasSent(s.history, id))
  }

  ghost predicate Distinct(s: State) {
    var h := s.history;
    && (forall i, j | 0 <= i < j < |h.accepted| :: h.accepted[i].id != h.accepted[j].id)
    && (forall i, j | 0 <= i < j < |h.recovered| :: h.recovered[i].id != h.recovered[j].id)
    && (forall t <- h.recovered, u <- h.accepted :: t.id != u.id)
    && (h.accepted == [] ==> h.popped == [] && s.queue.ready == [] && s.queue.blocked == map[])
  }

  ghost predicate Tables(s: State) {
    && (forall k :: Ordered(s, k))
    && (forall e :: Counted(s.queue, e) && Unstuck(s.queue, e) && Bounded(s, e))
    && Inverse(s.queue.eoaToPending, s.queue.pendingToEoa)
  }

  ghost predicate Inv(s: State) {
    Tables(s) && Tracked(s) && Distinct(s)
  }

  lemma SentKeepsInverse(q: Queue, tx: Tx)
    requires Inverse(q.eoaToPending, q.pendingToEoa) && tx.id !in q.pendingToEoa
    ensures Inverse(Sent(q, tx).eoaToPending, Sent(q, tx).pendingToEoa)
  {
    var q' := Sent(q, tx);
    forall e, id
      ensures id in PendingOf(q'.eoaToPending, e) <==> id in q'.pendingToEoa && q'.pendingToEoa[id] == e
    {
      assert id in PendingOf(q.eoaToPending, e) <==> id in q.pendingToEoa && q.pendingToEoa[id] == e;
    }
  }

  lemma FinishKeepsInverse(q: Queue, id: nat)
    requires Inverse(q.eoaToPending, q.pendingToEoa)
    ensures Inverse(Finish(q, id).eoaToPending, Finish(q, id).pendingToEoa)
  {
    if id in q.pendingToEoa {
      var q' := Finish(q, id);
      assert id in PendingOf(q.eoaToPending, q.pendingToEoa[id]);
      forall e, x
        ensures x in PendingOf(q'.eoaToPending, e) <==> x in q'.pendingToEoa && q'.pendingToEoa[x] == e
      {
        assert x in PendingOf(q.eoaToPending, e) <==> x in q.pendingToEoa && q.pendingToEoa[x] == e;
      }
    }
  }

  /** Every popped, ready and blocked transaction was accepted. */
  lemma Accepted(s: State, tx: Tx)
    requires Ordered(s, tx.eoa)
    requires tx in s.history.popped || tx in s.queue.ready || tx in Waiting(s.queue, tx.eoa)
    ensures tx in s.history.accepted
  {
    OfMember(s.history.accepted, tx, tx.eoa);
    OfMember(s.history.popped, tx, tx.eoa);
    OfMember(s.queue.ready, tx, tx.eoa);
  }

  lemma {:induction false} OfCount(txs: seq<Tx>, tx: Tx)
    ensures multiset(Of(txs, tx.eoa))[tx] == multiset(txs)[tx]
  {
    if txs != [] {
      OfCount(txs[..|txs| - 1], tx);
      assert txs == txs[..|txs| - 1] + [txs[|txs| - 1]];
    }
  }

  lemma {:induction false} DistinctCount(txs: seq<Tx>, tx: Tx)
    requires forall i, j | 0 <= i < j < |txs| :: txs[i].id != txs[j].id
    ensures multiset(txs)[tx] <= 1
  {
    if txs != [] {
      var init, last := txs[..|txs| - 1], txs[|txs| - 1];
      DistinctCount(init, tx);
      assert txs == init + [last];
      assert last !in init;
    }
  }

  /** Counting copies: acceptance is shared out over popped, ready and blocked. */
  lemma CopiesAddUp(s: State, tx: Tx)
    requires Ordered(s, tx.eoa) && Distinct(s)
    ensures multiset(s.history.popped)[tx] + multiset(s.queue.ready)[tx] + multiset(Waiting(s.queue, tx.eoa))[tx]
         == multiset(s.history.accepted)[tx] <= 1
  {
    OfCount(s.history.accepted, tx);
    OfCount(s.history.popped, tx);
    OfCount(s.queue.ready, tx);
    DistinctCount(s.history.accepted, tx);
    CountParts(Of(s.history.popped, tx.eoa), Of(s.queue.ready, tx.eoa), Waiting(s.queue, tx.eoa), tx);
  }

  lemma CountParts(a: seq<Tx>, b: seq<Tx>, c: seq<Tx>, tx: Tx)
    ensures multiset(a + b + c)[tx] == multiset(a)[tx] + multiset(b)[tx] + multiset(c)[tx]
  {
  }

  /** A ready transaction was not sent before. */
  lemma ReadyUnsent(s: State)
    requires Inv(s) && s.queue.ready != []
    ensures s.queue.ready[0] in s.history.accepted && !WasSent(s.history, s.queue.ready[0].id)
  {
    var tx := s.queue.ready[0];
    assert Ordered(s, tx.eoa);
    Accepted(s, tx);
    forall t <- s.history.popped ensures t.id != tx.id {
      assert Ordered(s, t.eoa);
      Accepted(s, t);
      if t.id == tx.id {
        assert t == tx;
        CopiesAddUp(s, tx);
      }
    }
  }

  lemma FreshUnsent(s: State, id: nat)
    requires Inv(s) && Fresh(s.history, id)
    ensures !WasSent(s.history, id)
  {
    forall t <- s.history.popped ensures t.id != id {
      assert Ordered(s, t.eoa);
      Accepted(s, t);
    }
  }

  lemma RecoveringKeepsTables(s: State, tx: Tx)
    requires Inv(s) && Enabled(s, Recovering(tx))
    ensures Tables(Next(s, Recovering(tx)))
  {
    var s' := Next(s, Recovering(tx));
    FreshUnsent(s, tx.id);
    SentKeepsInverse(s.queue, tx);
    forall k ensures Ordered(s', k) {
      assert Ordered(s, k);
    }
    forall e ensures Counted(s'.queue, e) && Unstuck(s'.queue, e) && Bounded(s', e) {
      assert Counted(s.queue, e) && Unstuck(s.queue, e) && Bounded(s, e);
      OfAppend(s.history.recovered, [tx], Some(e));
      OfOne(tx, Some(e));
      RecoveredFits(s, e);
    }
  }

  /** During recovery every pending transaction is a recovered one. */
  lemma RecoveredFits(s: State, e: nat)
    requires Inv(s) && s.history.accepted == []
    ensures ReadyCount(s.queue.readyPerEoa, e) == 0 && BlockedOf(s.queue.blocked, e) == []
    ensures |PendingOf(s.queue.eoaToPending, e)| <= |Of(s.history.recovered, Some(e))|
  {
    assert Counted(s.queue, e) && Bounded(s, e);
    if PendingOf(s.queue.eoaToPending, e) != {} {
      var id :| id in PendingOf(s.queue.eoaToPending, e);
      assert id in s.queue.pendingToEoa && s.queue.pendingToEoa[id] == e;
      var t :| t in s.history.recovered + s.history.popped && t.id == id && t.eoa == Some(e);
      OfMember(s.history.recovered, t, Some(e));
    }
  }

  /** Re-bracketings of popped + ready + blocked. */
  lemma HeadToLeft(a: seq<Tx>, b: seq<Tx>, c: seq<Tx>, d: seq<Tx>)
    ensures a + (b + c) + d == (a + b) + c + d
  {
  }

  lemma ToBlocked(a: seq<Tx>, b: seq<Tx>, c: seq<Tx>, d: seq<Tx>)
    ensures a + b + c + d == a + b + (c + d)
  {
  }

  lemma ToReady(a: seq<Tx>, b: seq<Tx>, c: seq<Tx>, d: seq<Tx>)
    requires c == [] || d == []
    ensures a + b + c + d == a + (b + d) + c
  {
  }

  lemma PushShape(q: Queue, tx: Tx, k: Option<nat>)
    requires !Refuses(q, tx) && (tx.eoa.Some? ==> Unstuck(q, tx.eoa.value))
    ensures var q', x := Push(q, tx), if tx.eoa == k then [tx] else [];
            || (q'.ready == q.ready && Waiting(q', k) == Waiting(q, k) + x)
            || (q'.ready == q.ready + [tx] && Waiting(q', k) == Waiting(q, k) && (Waiting(q, k) == [] || x == []))
  {
  }

  lemma PushingKeepsOrder(s: State, tx: Tx, k: Option<nat>)
    requires Ordered(s, k) && !Refuses(s.queue, tx)
    requires tx.eoa.Some? ==> Unstuck(s.queue, tx.eoa.value)
    ensures Ordered(Next(s, Pushing(tx)), k)
  {
    var x := if tx.eoa == k then [tx] else [];
    OfOne(tx, k);
    OfAppend(s.history.accepted, [tx], k);
    OfAppend(s.queue.ready, [tx], k);
    PushShape(s.queue, tx, k);
    ToBlocked(Of(s.history.popped, k), Of(s.queue.ready, k), Waiting(s.queue, k), x);
    if Waiting(s.queue, k) == [] || x == [] {
      ToReady(Of(s.history.popped, k), Of(s.queue.ready, k), Waiting(s.queue, k), x);
    }
  }

  lemma PushElsewhere(q: Queue, tx: Tx, e: nat)
    requires !Refuses(q, tx) && tx.eoa != Some(e)
    ensures var q' := Push(q, tx);
            && (e in q'.readyPerEoa <==> e in q.readyPerEoa)
            && ReadyCount(q'.readyPerEoa, e) == ReadyCount(q.readyPerEoa, e)
            && (e in q'.blocked <==> e in q.blocked) && BlockedOf(q'.blocked, e) == BlockedOf(q.blocked, e)
            && PendingOf(q'.eoaToPending, e) == PendingOf(q.eoaToPending, e)
            && q'.cap == q.cap && (q'.ready == q.ready || q'.ready == q.ready + [tx])
  {
  }

  lemma OfElsewhere(ready: seq<Tx>, tx: Tx, e: nat)
    requires tx.eoa != Some(e)
    ensures Of(ready + [tx], Some(e)) == Of(ready, Some(e))
  {
    OfAppend(ready, [tx], Some(e));
    OfOne(tx, Some(e));
  }

  lemma OfPush(ready: seq<Tx>, tx: Tx, e: nat)
    requires tx.eoa == Some(e)
    ensures |Of(ready + [tx], Some(e))| == |Of(ready, Some(e))| + 1
  {
    OfAppend(ready, [tx], Some(e));
    OfOne(tx, Some(e));
  }

  /** The branch of a push that finds nothing ahead. */
  lemma PushReadies(q: Queue, tx: Tx, e: nat)
    requires Counted(q, e) && Unstuck(q, e) && tx.eoa == Some(e) && CountQueued(q, e) < q.cap
    requires PendingOf(q.eoaToPending, e) == {} && ReadyCount(q.readyPerEoa, e) == 0
    ensures Counted(MakeReady(q, e, tx), e) && Unstuck(MakeReady(q, e, tx), e)
    ensures ReadyCount(MakeReady(q, e, tx).readyPerEoa, e) == 1
  {
    OfPush(q.ready, tx, e);
  }

  /** The branch of a push that finds something ahead. */
  lemma PushBlocks(q: Queue, tx: Tx, e: nat)
    requires Counted(q, e) && Unstuck(q, e) && tx.eoa == Some(e) && CountQueued(q, e) < q.cap
    requires PendingOf(q.eoaToPending, e) != {} || ReadyCount(q.readyPerEoa, e) > 0
    ensures Counted(Block(q, e, tx), e) && Unstuck(Block(q, e, tx), e)
  {
    assert BlockedOf(Block(q, e, tx).blocked, e) == BlockedOf(q.blocked, e) + [tx];
  }

  lemma PushHere(q: Queue, tx: Tx, e: nat)
    requires Counted(q, e) && Unstuck(q, e) && !Refuses(q, tx) && tx.eoa == Some(e)
    ensures Counted(Push(q, tx), e) && Unstuck(Push(q, tx), e)
    ensures PendingOf(Push(q, tx).eoaToPending, e) == PendingOf(q.eoaToPending, e)
    ensures ReadyCount(Push(q, tx).readyPerEoa, e) == ReadyCount(q.readyPerEoa, e)
         || (ReadyCount(Push(q, tx).readyPerEoa, e) == 1 && PendingOf(q.eoaToPending, e) == {})
  {
    if PendingOf(q.eoaToPending, e) == {} && ReadyCount(q.readyPerEoa, e) == 0 {
      PushReadies(q, tx, e);
    } else {
      PushBlocks(q, tx, e);
    }
  }

  lemma PushingKeepsCounts(s: State, tx: Tx, e: nat)
    requires Counted(s.queue, e) && Unstuck(s.queue, e) && Bounded(s, e) && !Refuses(s.queue, tx)
    ensures var s' := Next(s, Pushing(tx)); Counted(s'.queue, e) && Unstuck(s'.queue, e) && Bounded(s', e)
  {
    if tx.eoa == Some(e) {
      PushHere(s.queue, tx, e);
    } else {
      PushElsewhere(s.queue, tx, e);
      OfElsewhere(s.queue.ready, tx, e);
    }
  }

  lemma PushingKeepsTables(s: State, tx: Tx)
    requires Tables(s) && !Refuses(s.queue, tx)
    ensures Tables(Next(s, Pushing(tx)))
  {
    var s' := Next(s, Pushing(tx));
    forall k ensures Ordered(s', k) {
      assert Ordered(s, k);
      if tx.eoa.Some? {
        assert Unstuck(s.queue, tx.eoa.value);
      }
      PushingKeepsOrder(s, tx, k);
    }
    forall e ensures Counted(s'.queue, e) && Unstuck(s'.queue, e) && Bounded(s', e) {
      assert Counted(s.queue, e) && Unstuck(s.queue, e) && Bounded(s, e);
      PushingKeepsCounts(s, tx, e);
    }
  }

  lemma PopShape(q: Queue)
    requires q.ready != []
    ensures var tx, q' := q.ready[0], Pop(q);
            && q'.ready == q.ready[1..] && q'.blocked == q.blocked && q'.cap == q.cap
            && q'.eoaToPending == Sent(q, tx).eoaToPending && q'.pendingToEoa == Sent(q, tx).pendingToEoa
            && q'.readyPerEoa == if tx.eoa.Some? then Uncount(q.readyPerEoa, tx.eoa.value) else q.readyPerEoa
  {
  }

  lemma PoppingKeepsOrder(s: State, k: Option<nat>)
    requires Ordered(s, k) && s.queue.ready != []
    ensures Ordered(Next(s, Popping), k)
  {
    var tx, rest := s.queue.ready[0], s.queue.ready[1..];
    var s' := Next(s, Popping);
    assert Of(s.queue.ready, k) == Of([tx], k) + Of(rest, k) by {
      assert s.queue.ready == [tx] + rest;
      OfAppend([tx], rest, k);
    }
    assert Of(s'.history.popped, k) == Of(s.history.popped, k) + Of([tx], k) by {
      OfAppend(s.history.popped, [tx], k);
    }
    PopShape(s.queue);
    HeadToLeft(Of(s.history.popped, k), Of([tx], k), Of(rest, k), Waiting(s.queue, k));
  }

  /** What a pop does to the tables of one sender. */
  lemma PopSender(q: Queue, e: nat)
    requires q.ready != [] && Counted(q, e) && q.ready[0].id !in PendingOf(q.eoaToPending, e)
    ensures var q', one := Pop(q), if q.ready[0].eoa == Some(e) then 1 else 0;
            && |Of(q'.ready, Some(e))| + one == |Of(q.ready, Some(e))|
            && ReadyCount(q'.readyPerEoa, e) + one == ReadyCount(q.readyPerEoa, e)
            && (e in q'.readyPerEoa ==> q'.readyPerEoa[e] > 0)
            && |PendingOf(q'.eoaToPending, e)| == |PendingOf(q.eoaToPending, e)| + one
  {
    var tx, rest := q.ready[0], q.ready[1..];
    PopShape(q);
    assert |Of(rest, Some(e))| + (if tx.eoa == Some(e) then 1 else 0) == |Of(q.ready, Some(e))| by {
      assert q.ready == [tx] + rest;
      OfAppend([tx], rest, Some(e));
      OfOne(tx, Some(e));
    }
  }

  lemma PoppingKeepsSender(s: State, e: nat)
    requires s.queue.ready != [] && s.queue.ready[0].id !in PendingOf(s.queue.eoaToPending, e)
    requires Counted(s.queue, e) && Unstuck(s.queue, e) && Bounded(s, e)
    ensures var s' := Next(s, Popping); Counted(s'.queue, e) && Unstuck(s'.queue, e) && Bounded(s', e)
  {
    PopSender(s.queue, e);
    PopShape(s.queue);
  }

  lemma PoppingKeepsTables(s: State)
    requires Inv(s) && s.queue.ready != []
    ensures Tables(Next(s, Popping))
  {
    var s' := Next(s, Popping);
    ReadyUnsent(s);
    SentKeepsInverse(s.queue, s.queue.ready[0]);
    PopShape(s.queue);
    forall k ensures Ordered(s', k) {
      assert Ordered(s, k);
      PoppingKeepsOrder(s, k);
    }
    forall e ensures Counted(s'.queue, e) && Unstuck(s'.queue, e) && Bounded(s', e) {
      assert Counted(s.queue, e) && Unstuck(s.queue, e) && Bounded(s, e);
      PoppingKeepsSender(s, e);
    }
  }

  /** What finishing promotes: the head of the sender's blocked queue, if any. */
  function Head(q: Queue, e: nat): seq<Tx> {
    if BlockedOf(q.blocked, e) == [] then [] else [q.blocked[e][0]]
  }

  lemma FinishShape(q: Queue, id: nat)
    requires id in q.pendingToEoa
    ensures var e, q' := q.pendingToEoa[id], Finish(q, id);
            && q'.ready == q.ready + Head(q, e) && q'.cap == q.cap
            && BlockedOf(q.blocked, e) == Head(q, e) + BlockedOf(q'.blocked, e)
            && (e in q'.blocked ==> q'.blocked[e] != [])
            && ReadyCount(q'.readyPerEoa, e) == ReadyCount(q.readyPerEoa, e) + |Head(q, e)|
            && (e in q'.readyPerEoa ==> e in q.readyPerEoa || q'.readyPerEoa[e] > 0)
            && PendingOf(q'.eoaToPending, e) == PendingOf(q.eoaToPending, e) - {id}
            && forall x | x != e ::
                 && (x in q'.blocked <==> x in q.blocked) && BlockedOf(q'.blocked, x) == BlockedOf(q.blocked, x)
                 && (x in q'.readyPerEoa <==> x in q.readyPerEoa)
                 && ReadyCount(q'.readyPerEoa, x) == ReadyCount(q.readyPerEoa, x)
                 && PendingOf(q'.eoaToPending, x) == PendingOf(q.eoaToPending, x)
  {
  }

  lemma FinishingReady(q: Queue, id: nat, k: Option<nat>)
    requires id in q.pendingToEoa && Unstuck(q, q.pendingToEoa[id])
    ensures var e := q.pendingToEoa[id];
            Of(Finish(q, id).ready, k) == Of(q.ready, k) + if k == Some(e) then Head(q, e) else []
  {
    var head := Head(q, q.pendingToEoa[id]);
    FinishShape(q, id);
    OfAppend(q.ready, head, k);
    if head != [] {
      OfOne(head[0], k);
    }
  }

  lemma FinishingWaits(q: Queue, id: nat, k: Option<nat>)
    requires id in q.pendingToEoa
    ensures var e := q.pendingToEoa[id];
            Waiting(q, k) == (if k == Some(e) then Head(q, e) else []) + Waiting(Finish(q, id), k)
  {
    FinishShape(q, id);
  }

  lemma MovedAlong(all: seq<Tx>, popped: seq<Tx>, ready: seq<Tx>, moved: seq<Tx>, waiting: seq<Tx>)
    requires all == popped + ready + (moved + waiting)
    ensures all == popped + (ready + moved) + waiting
  {
  }

  lemma FinishMoves(q: Queue, id: nat, k: Option<nat>, all: seq<Tx>, popped: seq<Tx>)
    requires id in q.pendingToEoa && Unstuck(q, q.pendingToEoa[id])
    requires all == popped + Of(q.ready, k) + Waiting(q, k)
    ensures all == popped + Of(Finish(q, id).ready, k) + Waiting(Finish(q, id), k)
  {
    var moved := if k == Some(q.pendingToEoa[id]) then Head(q, q.pendingToEoa[id]) else [];
    FinishingReady(q, id, k);
    FinishingWaits(q, id, k);
    MovedAlong(all, popped, Of(q.ready, k), moved, Waiting(Finish(q, id), k));
  }

  lemma FinishingKeepsOrder(s: State, id: nat, k: Option<nat>)
    requires Ordered(s, k) && id in s.queue.pendingToEoa && Unstuck(s.queue, s.queue.pendingToEoa[id])
    ensures Ordered(Next(s, Finishing(id)), k)
  {
    FinishMoves(s.queue, id, k, Of(s.history.accepted, k), Of(s.history.popped, k));
  }

  lemma FinishingKeepsTables(s: State, id: nat)
    requires Tables(s) && id in s.queue.pendingToEoa
    ensures Tables(Next(s, Finishing(id)))
  {
    var s', e := Next(s, Finishing(id)), s.queue.pendingToEoa[id];
    FinishKeepsInverse(s.queue, id);
    FinishShape(s.queue, id);
    assert Unstuck(s.queue, e) && id in PendingOf(s.queue.eoaToPending, e);
    forall k ensures Ordered(s', k) {
      assert Ordered(s, k);
      FinishingKeepsOrder(s, id, k);
    }
    forall x ensures Counted(s'.queue, x) && Unstuck(s'.queue, x) && Bounded(s', x) {
      assert Counted(s.queue, x) && Unstuck(s.queue, x) && Bounded(s, x);
      FinishingReady(s.queue, id, Some(x));
    }
  }

  /** Sending an unsent transaction adds it to the pending table. */
  lemma SendingKeepsTracked(s: State, tx: Tx, s': State)
    requires Tracked(s) && !WasSent(s.history, tx.id)
    requires s'.queue.pendingToEoa == Sent(s.queue, tx).pendingToEoa
    requires s'.history.finished == s.history.finished
    requires || (s'.history.recovered == s.history.recovered + [tx] && s'.history.popped == s.history.popped)
             || (s'.history.recovered == s.history.recovered && s'.history.popped == s.history.popped + [tx])
    ensures Tracked(s')
  {
    forall id ensures WasSent(s'.history, id) <==> WasSent(s.history, id) || id == tx.id {
      if WasSent(s.history, id) {
        if t :| t in s.history.recovered && t.id == id {
          assert t in s'.history.recovered;
        } else {
          var t :| t in s.history.popped && t.id == id;
          assert t in s'.history.popped;
        }
      }
      assert tx in s'.history.recovered + s'.history.popped;
    }
    forall t <- s'.history.recovered + s'.history.popped | t.eoa.Some?
      ensures (t.id in s'.queue.pendingToEoa <==> t.id !in s'.history.finished)
           && (t.id in s'.queue.pendingToEoa ==> s'.queue.pendingToEoa[t.id] == t.eoa.value)
    {
      if t != tx {
        assert t in s.history.recovered + s.history.popped;
        assert WasSent(s.history, t.id);
      }
    }
  }

  lemma FinishingKeepsTracked(s: State, id: nat)
    requires Tracked(s)
    ensures Tracked(Next(s, Finishing(id)))
  {
    var s' := Next(s, Finishing(id));
    assert s'.queue.pendingToEoa == s.queue.pendingToEoa - {id};
    forall t <- s'.history.recovered + s'.history.popped | t.eoa.Some?
      ensures (t.id in s'.queue.pendingToEoa <==> t.id !in s'.history.finished)
           && (t.id in s'.queue.pendingToEoa ==> s'.queue.pendingToEoa[t.id] == t.eoa.value)
    {
      assert t in s.history.recovered + s.history.popped;
      assert WasSent(s.history, t.id);
    }
  }

  lemma StepKeepsDistinct(s: State, op: Op)
    requires Inv(s) && Enabled(s, op)
    ensures Distinct(Next(s, op))
  {
  }

  lemma StepKeepsTracked(s: State, op: Op)
    requires Inv(s) && Enabled(s, op)
    ensures Tracked(Next(s, op))
  {
    match op {
      case Recovering(tx) =>
        FreshUnsent(s, tx.id);
        SendingKeepsTracked(s, tx, Next(s, op));
      case Pushing(tx) =>
      case Popping =>
        if s.queue.ready != [] {
          ReadyUnsent(s);
          PopShape(s.queue);
          SendingKeepsTracked(s, s.queue.ready[0], Next(s, op));
        }
      case Finishing(id) => FinishingKeepsTracked(s, id);
    }
  }

  lemma StepKeepsTables(s: State, op: Op)
    requires Inv(s) && Enabled(s, op)
    ensures Tables(Next(s, op))
  {
    match op {
      case Recovering(tx) => RecoveringKeepsTables(s, tx);
      case Pushing(tx) => if !Refuses(s.queue, tx) { PushingKeepsTables(s, tx); }
      case Popping => if s.queue.ready != [] { PoppingKeepsTables(s); }
      case Finishing(id) =>
        if id in s.queue.pendingToEoa {
          FinishingKeepsTables(s, id);
        } else {
          forall k ensures Ordered(Next(s, op), k) {
            assert Ordered(s, k);
          }
          forall e ensures Bounded(Next(s, op), e) {
            assert Bounded(s, e);
          }
        }
    }
  }

  lemma {:induction false} RunKeepsInv(s: State, ops: seq<Op>)
    requires Inv(s) && Legal(s, ops)
    ensures Inv(Exec(s, ops))
    decreases |ops|
  {
    if ops != [] {
      StepKeepsTables(s, ops[0]);
      StepKeepsTracked(s, ops[0]);
      StepKeepsDistinct(s, ops[0]);
      RunKeepsInv(Next(s, ops[0]), ops[1..]);
    }
  }

  lemma StartInv(cap: nat)
    ensures Inv(Start(cap))
  {
    forall k ensures Ordered(Start(cap), k) {}
  }

  // ---------------------------------------------------------------- main results

  /** The table invariants hold in every reachable state. */
  lemma TablesConsistent(cap: nat, ops: seq<Op>, e: nat)
    requires Legal(Start(cap), ops)
    ensures var s := Exec(Start(cap), ops);
            && Counted(s.queue, e) && Unstuck(s.queue, e) && Inverse(s.queue.eoaToPending, s.queue.pendingToEoa) && Bounded(s, e)
  {
    StartInv(cap);
    RunKeepsInv(Start(cap), ops);
    var s := Exec(Start(cap), ops);
    assert Counted(s.queue, e) && Unstuck(s.queue, e) && Bounded(s, e);
  }

  predicate NoRecovery(ops: seq<Op>) {
    forall op <- ops :: !op.Recovering?
  }

  /** Recovery aside, nothing lifts the number in flight above one. */
  lemma InFlightStep(s: State, op: Op, e: nat)
    requires Inv(s) && Enabled(s, op) && !op.Recovering?
    ensures InFlight(Next(s, op).queue, e) <= Max(1, InFlight(s.queue, e))
  {
    assert Counted(s.queue, e) && Unstuck(s.queue, e);
    match op {
      case Pushing(tx) =>
        if !Refuses(s.queue, tx) {
          if tx.eoa == Some(e) {
            PushHere(s.queue, tx, e);
          } else {
            PushElsewhere(s.queue, tx, e);
          }
        }
      case Popping =>
        if s.queue.ready != [] {
          ReadyUnsent(s);
          var head := s.queue.ready[0].id;
          assert head in PendingOf(s.queue.eoaToPending, e) ==> head in s.queue.pendingToEoa;
          PopSender(s.queue, e);
        }
      case Finishing(id) =>
        if id in s.queue.pendingToEoa {
          FinishShape(s.queue, id);
          assert id in PendingOf(s.queue.eoaToPending, s.queue.pendingToEoa[id]);
        }
    }
  }

  lemma {:induction false} InFlightRun(s: State, ops: seq<Op>, e: nat)
    requires Inv(s) && Legal(s, ops) && NoRecovery(ops)
    ensures InFlight(Exec(s, ops).queue, e) <= Max(1, InFlight(s.queue, e))
    decreases |ops|
  {
    if ops != [] {
      assert ops[0] in ops && forall op <- ops[1..] :: op in ops;
      InFlightStep(s, ops[0], e);
      StepKeepsTables(s, ops[0]);
      StepKeepsTracked(s, ops[0]);
      StepKeepsDistinct(s, ops[0]);
      InFlightRun(Next(s, ops[0]), ops[1..], e);
    }
  }

  /** From any reachable state, whatever happens short of another recovery, a sender has at most one
      transaction in flight exactly when it has at most one now. */
  lemma OneInFlightExactly(cap: nat, ops: seq<Op>, e: nat)
    requires Legal(Start(cap), ops)
    ensures var s := Exec(Start(cap), ops);
            (forall more | Legal(s, more) && NoRecovery(more) :: InFlight(Exec(s, more).queue, e) <= 1)
            <==> InFlight(s.queue, e) <= 1
  {
    StartInv(cap);
    RunKeepsInv(Start(cap), ops);
    var s := Exec(Start(cap), ops);
    forall more | Legal(s, more) && NoRecovery(more)
      ensures InFlight(Exec(s, more).queue, e) <= Max(1, InFlight(s.queue, e))
    {
      InFlightRun(s, more, e);
    }
    assert Legal(s, []) && NoRecovery([]) && Exec(s, []) == s;
  }

  function Recovery(txs: seq<Tx>): seq<Op> {
    seq(|txs|, i requires 0 <= i < |txs| => Recovering(txs[i]))
  }

  predicate DistinctIds(txs: seq<Tx>) {
    forall i, j | 0 <= i < j < |txs| :: txs[i].id != txs[j].id
  }

  /** What recovery needs of transactions still to come: their ids are new. */
  ghost predicate Unseen(s: State, txs: seq<Tx>, e: nat) {
    forall tx <- txs :: Fresh(s.history, tx.id) && tx.id !in PendingOf(s.queue.eoaToPending, e)
  }

  lemma UnseenRest(s: State, txs: seq<Tx>, e: nat)
    requires txs != [] && DistinctIds(txs) && Unseen(s, txs, e)
    ensures DistinctIds(txs[1..]) && Unseen(Next(s, Recovering(txs[0])), txs[1..], e)
  {
    var next := Next(s, Recovering(txs[0]));
    forall i | 1 <= i < |txs| ensures Fresh(next.history, txs[i].id) && txs[i].id !in PendingOf(next.queue.eoaToPending, e) {
      assert txs[i] in txs && txs[0].id != txs[i].id;
    }
  }

  /** `after` follows `s` by recovering `txs`: they are pending, and nothing else changed. */
  ghost predicate Recovers(s: State, txs: seq<Tx>, after: State, e: nat) {
    && after.history.accepted == s.history.accepted && after.history.recovered == s.history.recovered + txs
    && after.queue.cap == s.queue.cap && after.queue.readyPerEoa == s.queue.readyPerEoa
    && after.queue.blocked == s.queue.blocked
    && |PendingOf(after.queue.eoaToPending, e)| == |PendingOf(s.queue.eoaToPending, e)| + |Of(txs, Some(e))|
  }

  lemma RecoversThen(s: State, tx: Tx, rest: seq<Tx>, mid: State, after: State, e: nat)
    requires Recovers(s, [tx], mid, e) && Recovers(mid, rest, after, e)
    ensures Recovers(s, [tx] + rest, after, e)
  {
    assert s.history.recovered + [tx] + rest == s.history.recovered + ([tx] + rest);
    OfAppend([tx], rest, Some(e));
  }

  lemma RecoverOne(s: State, tx: Tx, e: nat)
    requires tx.id !in PendingOf(s.queue.eoaToPending, e)
    ensures Recovers(s, [tx], Next(s, Recovering(tx)), e)
  {
    OfOne(tx, Some(e));
  }

  lemma RunsFirst(s: State, txs: seq<Tx>)
    requires txs != [] && Enabled(s, Recovering(txs[0])) && Legal(Next(s, Recovering(txs[0])), Recovery(txs[1..]))
    ensures Legal(s, Recovery(txs))
    ensures Exec(s, Recovery(txs)) == Exec(Next(s, Recovering(txs[0])), Recovery(txs[1..]))
  {
    assert Recovery(txs)[0] == Recovering(txs[0]) && Recovery(txs)[1..] == Recovery(txs[1..]);
  }

  /** Recovering a list of transactions makes them all pending. */
  lemma {:induction false} RecoveryRuns(s: State, txs: seq<Tx>, e: nat)
    requires s.history.accepted == [] && DistinctIds(txs) && Unseen(s, txs, e)
    ensures Legal(s, Recovery(txs)) && Recovers(s, txs, Exec(s, Recovery(txs)), e)
    decreases |txs|
  {
    if txs != [] {
      var next := Next(s, Recovering(txs[0]));
      assert txs[0] in txs && txs == [txs[0]] + txs[1..];
      UnseenRest(s, txs, e);
      RecoverOne(s, txs[0], e);
      RecoveryRuns(next, txs[1..], e);
      RunsFirst(s, txs);
      RecoversThen(s, txs[0], txs[1..], next, Exec(next, Recovery(txs[1..])), e);
    }
  }

  lemma {:induction false} FreshId(txs: seq<Tx>) returns (id: nat)
    ensures forall tx <- txs :: tx.id < id
  {
    if txs == [] {
      id := 0;
    } else {
      id := FreshId(txs[..|txs| - 1]);
      id := Max(id, txs[|txs| - 1].id + 1);
      assert txs == txs[..|txs| - 1] + [txs[|txs| - 1]];
    }
  }

  /** Whatever was recovered, the bound is attained, and from then on a sender has at most one transaction
      in flight exactly when at most one of its transactions was recovered. */
  lemma RecoveredExactly(cap: nat, txs: seq<Tx>, e: nat)
    requires DistinctIds(txs)
    ensures Legal(Start(cap), Recovery(txs))
    ensures var s := Exec(Start(cap), Recovery(txs));
            && s.history.recovered == txs
            && (exists more | Legal(s, more) && NoRecovery(more) ::
                  InFlight(Exec(s, more).queue, e) == MostInFlight(txs, cap, e))
            && ((forall more | Legal(s, more) && NoRecovery(more) :: InFlight(Exec(s, more).queue, e) <= 1)
                <==> |Of(txs, Some(e))| <= 1)
  {
    RecoveryRuns(Start(cap), txs, e);
    OneInFlightExactly(cap, Recovery(txs), e);
    var s := Exec(Start(cap), Recovery(txs));
    if Of(txs, Some(e)) == [] && cap > 0 {
      var id := FreshId(txs);
      var push := Pushing(Tx(id, Some(e)));
      assert [push][1..] == [] && Legal(s, [push]) && NoRecovery([push]);
      assert PendingOf(s.queue.eoaToPending, e) == {};
      assert InFlight(Exec(s, [push]).queue, e) == 1;
    } else {
      assert Legal(s, []) && NoRecovery([]) && InFlight(Exec(s, []).queue, e) == MostInFlight(txs, cap, e);
    }
  }

  /** A push of a new transaction is accepted exactly when fewer of its sender's are accepted and not
      popped yet than the queue may hold; an internal one always is. A refused one leaves no trace. */
  lemma AcceptedExactly(cap: nat, ops: seq<Op>, tx: Tx)
    requires Legal(Start(cap), ops)
    ensures var s := Exec(Start(cap), ops);
            var room := tx.eoa.None? || |Of(s.history.accepted, tx.eoa)| - |Of(s.history.popped, tx.eoa)| < cap;
            && Next(s, Pushing(tx)).history.accepted == (if room then s.history.accepted + [tx] else s.history.accepted)
            && (!room ==> Next(s, Pushing(tx)) == s)
  {
    StartInv(cap);
    RunKeepsInv(Start(cap), ops);
    CapKept(Start(cap), ops);
    var s := Exec(Start(cap), ops);
    assert Ordered(s, tx.eoa);
    if tx.eoa.Some? {
      assert Counted(s.queue, tx.eoa.value);
    }
  }

  lemma {:induction false} CapKept(s: State, ops: seq<Op>)
    ensures Exec(s, ops).queue.cap == s.queue.cap
    decreases |ops|
  {
    if ops != [] {
      CapKept(Next(s, ops[0]), ops[1..]);
    }
  }

  /** For each sender, and for internal transactions, pops come in the order of acceptance. */
  lemma PopsInAcceptedOrder(cap: nat, ops: seq<Op>, k: Option<nat>)
    requires Legal(Start(cap), ops)
    ensures var h := Exec(Start(cap), ops).history;
            Of(h.popped, k) <= Of(h.accepted, k)
  {
    StartInv(cap);
    RunKeepsInv(Start(cap), ops);
    assert Ordered(Exec(Start(cap), ops), k);
  }

  /** Every accepted transaction is in exactly one place: ready, blocked, popped and pending, or
      finished; nothing else is in any of them; and pending intents are the tracked ones. */
  lemma AcceptedPartition(cap: nat, ops: seq<Op>, tx: Tx)
    requires Legal(Start(cap), ops)
    ensures var State(q, h) := Exec(Start(cap), ops);
            && multiset(q.ready)[tx] + multiset(Waiting(q, tx.eoa))[tx] + multiset(h.popped)[tx]
               == (if tx in h.accepted then 1 else 0)
            && (tx in h.popped && tx.eoa.Some? ==> (tx.id in h.finished <==> tx.id !in q.pendingToEoa))
            && (forall id <- h.finished :: WasSent(h, id))
  {
    StartInv(cap);
    RunKeepsInv(Start(cap), ops);
    var s := Exec(Start(cap), ops);
    assert Ordered(s, tx.eoa);
    CopiesAddUp(s, tx);
    assert tx in s.history.popped ==> tx in s.history.recovered + s.history.popped;
  }
}
