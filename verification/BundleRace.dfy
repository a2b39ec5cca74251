/** A bundle handed to more than one task: the refund monitor resumes it, and the resume loop, reading the
    same row, resumes it again. How often its refunds are then queued. */
module BundleRace {
  import opened Common
  import opened Bundles
  import opened BundleRuns
  import opened BundleGuarantees

  /** The store, every running task of the bundle, and the rows the store has held since startup. */
  datatype Race = Race(store: Store, tasks: seq<Live>, seen: seq<Live>)

  /** `Resume` is the startup loop handing over a row it read at some time since startup: it does not look
      at running tasks. */
  datatype RaceEvent = StepTask(i: nat, answers: Answers) | StopTask(i: nat) | Resume(row: Live) | Monitor

  /** Startup: nothing runs yet. */
  function Startup(store: Store): Race {
    Race(store, [], RowsOf(store))
  }

  function RowsOf(store: Store): seq<Live> {
    if store.pending.Some? then [store.pending.value] else []
  }

  predicate CanHappen(r: Race, e: RaceEvent) {
    match e
    case StepTask(i, _) => i < |r.tasks|
    case StopTask(i) => i < |r.tasks|
    case Resume(row) => row in r.seen && row.status != RefundsScheduled
    case Monitor => r.store.refundDue && r.store.pending.Some?
  }

  function Without(tasks: seq<Live>, i: nat): seq<Live>
    requires i < |tasks|
  {
    tasks[..i] + tasks[i + 1..]
  }

  function After(r: Race, e: RaceEvent, fates: Fates): Race
    requires CanHappen(r, e)
  {
    match e
    case StepTask(i, answers) =>
      var w := Handle(r.tasks[i], r.store, fates, answers);
      Race(w.store, if w.task.Some? then r.tasks[i := w.task.value] else Without(r.tasks, i), r.seen + RowsOf(w.store))
    case StopTask(i) => r.(tasks := Without(r.tasks, i))
    case Resume(row) => r.(tasks := r.tasks + [row])
    case Monitor =>
      var ready := r.store.MarkRefundReady(RefundsReady);
      Race(ready, r.tasks + [r.store.pending.value.(status := RefundsReady)], r.seen + RowsOf(ready))
  }

  function RefundsQueuedIn(journal: seq<Entry>): nat {
    if journal == [] then 0
    else
      var e := journal[|journal| - 1];
      RefundsQueuedIn(journal[..|journal| - 1]) + if e.Queued? && e.batch.Refund? then 1 else 0
  }

  function ReadyCount(): Live -> nat {
    (t: Live) => if t.status == RefundsReady then 1 else 0
  }

  /** Refund batches queued so far, and those that tasks at RefundsReady stand to queue. */
  ghost function Owed(r: Race): nat {
    RefundsQueuedIn(r.store.journal) + Sum(r.tasks, ReadyCount())
  }

  predicate Refunding(s: Status) {
    s == RefundsReady || s == RefundsQueued || s == Failed
  }

  /** The refund is due no more, and everybody is past it. */
  predicate InRefund(r: Race) {
    && !r.store.refundDue && (r.store.pending.Some? ==> Refunding(r.store.pending.value.status))
    && (forall t <- r.tasks :: Refunding(t.status))
    && forall row <- r.seen :: row.status == RefundsScheduled || Refunding(row.status)
  }

  /** A task resumed from a row at RefundsReady, and a stopped one that had yet to queue. */
  function Joins(r: Race, e: RaceEvent): nat
    requires CanHappen(r, e)
  {
    if e.Resume? then ReadyCount()(e.row) else 0
  }

  function Leaves(r: Race, e: RaceEvent): nat
    requires CanHappen(r, e)
  {
    if e.StopTask? then ReadyCount()(r.tasks[e.i]) else 0
  }

  // ---------------------------------------------------------------- one event

  lemma SumWithout(tasks: seq<Live>, i: nat)
    requires i < |tasks|
    ensures Sum(Without(tasks, i), ReadyCount()) + ReadyCount()(tasks[i]) == Sum(tasks, ReadyCount())
  {
    var one := [tasks[i]];
    assert tasks == tasks[..i] + (one + tasks[i + 1..]);
    SumAppend(tasks[..i], one + tasks[i + 1..], ReadyCount());
    SumAppend(one, tasks[i + 1..], ReadyCount());
    SumAppend(tasks[..i], tasks[i + 1..], ReadyCount());
    assert one[..0] == [];
  }

  lemma OneMoreTask(tasks: seq<Live>, t: Live)
    ensures Sum(tasks + [t], ReadyCount()) == Sum(tasks, ReadyCount()) + ReadyCount()(t)
  {
    assert (tasks + [t])[..|tasks|] == tasks;
  }

  /** What a handler past the refund's schedule does: queue once, or queue nothing. */
  lemma RefundStep(t: Live, store: Store, answers: Answers, fates: Fates)
    requires Refunding(t.status) && !store.refundDue
    requires store.pending.Some? ==> Refunding(store.pending.value.status)
    ensures var w := Handle(t, store, fates, answers);
            && !w.store.refundDue && (w.store.pending.Some? ==> Refunding(w.store.pending.value.status))
            && (w.task.Some? ==> Refunding(w.task.value.status) && ReadyCount()(w.task.value) == 0)
            && (w.task.None? ==> ReadyCount()(t) == 0)
            && RefundsQueuedIn(w.store.journal) == RefundsQueuedIn(store.journal) + ReadyCount()(t)
  {
    var w := Handle(t, store, fates, answers);
    if t.status == RefundsReady {
      assert w.store.journal[..|store.journal|] == store.journal;
    }
  }

  lemma StepKeepsOwed(r: Race, i: nat, answers: Answers, fates: Fates)
    requires InRefund(r) && i < |r.tasks|
    ensures InRefund(After(r, StepTask(i, answers), fates)) && Owed(After(r, StepTask(i, answers), fates)) == Owed(r)
  {
    var w := Handle(r.tasks[i], r.store, fates, answers);
    RefundStep(r.tasks[i], r.store, answers, fates);
    if w.task.Some? {
      SumUpdate(r.tasks, i, w.task.value, ReadyCount());
    } else {
      SumWithout(r.tasks, i);
    }
  }

  lemma OwedKept(r: Race, e: RaceEvent, fates: Fates)
    requires InRefund(r) && CanHappen(r, e)
    ensures InRefund(After(r, e, fates)) && Owed(After(r, e, fates)) + Leaves(r, e) == Owed(r) + Joins(r, e)
  {
    match e {
      case StepTask(i, answers) => StepKeepsOwed(r, i, answers, fates);
      case StopTask(i) => SumWithout(r.tasks, i);
      case Resume(row) => OneMoreTask(r.tasks, row);
      case Monitor =>
    }
  }

  // ---------------------------------------------------------------- runs

  predicate Happens(r: Race, es: seq<RaceEvent>, fates: Fates)
    decreases |es|
  {
    es == [] || (CanHappen(r, es[0]) && Happens(After(r, es[0], fates), es[1..], fates))
  }

  function Outcome(r: Race, es: seq<RaceEvent>, fates: Fates): Race
    requires Happens(r, es, fates)
    decreases |es|
  {
    if es == [] then r else Outcome(After(r, es[0], fates), es[1..], fates)
  }

  function Joined(r: Race, es: seq<RaceEvent>, fates: Fates): nat
    requires Happens(r, es, fates)
    decreases |es|
  {
    if es == [] then 0 else Joins(r, es[0]) + Joined(After(r, es[0], fates), es[1..], fates)
  }

  function Left(r: Race, es: seq<RaceEvent>, fates: Fates): nat
    requires Happens(r, es, fates)
    decreases |es|
  {
    if es == [] then 0 else Leaves(r, es[0]) + Left(After(r, es[0], fates), es[1..], fates)
  }

  /** Over any run, what is queued or stands to be queued changes by who joined and who left. */
  lemma {:induction false} OwedOverRun(r: Race, es: seq<RaceEvent>, fates: Fates)
    requires InRefund(r) && Happens(r, es, fates)
    ensures var end := Outcome(r, es, fates);
            InRefund(end) && Owed(end) + Left(r, es, fates) == Owed(r) + Joined(r, es, fates)
    decreases |es|
  {
    if es != [] {
      OwedKept(r, es[0], fates);
      OwedOverRun(After(r, es[0], fates), es[1..], fates);
    }
  }

  predicate NobodyResumes(es: seq<RaceEvent>) {
    forall e <- es :: !e.Resume?
  }

  lemma {:induction false} NobodyJoins(r: Race, es: seq<RaceEvent>, fates: Fates)
    requires Happens(r, es, fates) && NobodyResumes(es)
    ensures Joined(r, es, fates) == 0
    decreases |es|
  {
    if es != [] {
      assert es[0] in es && forall e <- es[1..] :: e in es;
      NobodyJoins(After(r, es[0], fates), es[1..], fates);
    }
  }

  lemma {:induction false} SomeoneReady(tasks: seq<Live>) returns (i: nat)
    requires Sum(tasks, ReadyCount()) > 0
    ensures i < |tasks| && tasks[i].status == RefundsReady
  {
    i := |tasks| - 1;
    if tasks[i].status != RefundsReady {
      i := SomeoneReady(tasks[..i]);
    }
  }

  /** The tasks that stand to queue may all do so. */
  lemma {:induction false} AllQueue(r: Race, fates: Fates, answers: Answers) returns (es: seq<RaceEvent>)
    requires InRefund(r)
    ensures Happens(r, es, fates) && NobodyResumes(es)
    ensures RefundsQueuedIn(Outcome(r, es, fates).store.journal) == Owed(r)
    decreases Sum(r.tasks, ReadyCount())
  {
    es := [];
    if Sum(r.tasks, ReadyCount()) > 0 {
      var i := SomeoneReady(r.tasks);
      var e := StepTask(i, answers);
      var next := After(r, e, fates);
      StepKeepsOwed(r, i, answers, fates);
      SumUpdate(r.tasks, i, next.tasks[i], ReadyCount());
      var rest := AllQueue(next, fates, answers);
      es := [e] + rest;
      assert es[1..] == rest;
    }
  }

  // ---------------------------------------------------------------- main results

  /** With one task per bundle the refunds are queued at most once over every run. */
  lemma OneTaskRefundsOnce(w: World, b: Bundle, fates: Fates)
    requires Reachable(w, b, fates)
    ensures RefundsQueuedIn(w.store.journal) <= 1
  {
    QueuedOnceWhenWarranted(w, b, fates);
    AtMostOnce(w.store.journal, Row(w).bundle, fates);
  }

  lemma {:induction false} AtMostOnce(journal: seq<Entry>, b: Bundle, fates: Fates)
    requires QueuesWarranted(journal, b, fates)
    ensures RefundsQueuedIn(journal) <= 1
    ensures RefundsQueuedIn(journal) == 1 ==> exists i | 0 <= i < |journal| :: journal[i].Queued? && journal[i].batch.Refund?
  {
    if journal != [] {
      AtMostOnce(journal[..|journal| - 1], b, fates);
    }
  }

  /** Once the monitor has resumed a bundle, then after any run of the race no continuation without
      another resume queues more than 1 + `joined` - `left` refund batches, and some continuation queues
      that many: at most once exactly when no more tasks joined at RefundsReady than were stopped there. */
  lemma RefundedOnceExactly(w: World, b: Bundle, es: seq<RaceEvent>, fates: Fates, answers: Answers)
    requires Reachable(w, b, fates) && w.task.None? && w.store.refundDue && w.store.pending.Some?
    requires CanHappen(Startup(w.store), Monitor) && Happens(After(Startup(w.store), Monitor, fates), es, fates)
    ensures var ready := After(Startup(w.store), Monitor, fates);
            var end := Outcome(ready, es, fates);
            && (forall more | Happens(end, more, fates) && NobodyResumes(more) ::
                  RefundsQueuedIn(Outcome(end, more, fates).store.journal) + Left(ready, es, fates)
                  <= 1 + Joined(ready, es, fates))
            && (exists more | Happens(end, more, fates) && NobodyResumes(more) ::
                  RefundsQueuedIn(Outcome(end, more, fates).store.journal) + Left(ready, es, fates)
                  == 1 + Joined(ready, es, fates))
            && ((forall more | Happens(end, more, fates) && NobodyResumes(more) ::
                   RefundsQueuedIn(Outcome(end, more, fates).store.journal) <= 1)
                <==> Joined(ready, es, fates) <= Left(ready, es, fates))
  {
    var ready := After(Startup(w.store), Monitor, fates);
    var end := Outcome(ready, es, fates);
    MonitorOwesOne(w, b, fates);
    OwedOverRun(ready, es, fates);
    forall more | Happens(end, more, fates) && NobodyResumes(more)
      ensures RefundsQueuedIn(Outcome(end, more, fates).store.journal) <= Owed(end)
    {
      OwedOverRun(end, more, fates);
      NobodyJoins(end, more, fates);
    }
    var most := AllQueue(end, fates, answers);
    assert RefundsQueuedIn(Outcome(end, most, fates).store.journal) == Owed(end);
  }

  lemma MonitorOwesOne(w: World, b: Bundle, fates: Fates)
    requires Reachable(w, b, fates) && w.store.refundDue && w.store.pending.Some?
    ensures CanHappen(Startup(w.store), Monitor)
    ensures var ready := After(Startup(w.store), Monitor, fates);
            InRefund(ready) && Owed(ready) == 1 && ready.store.pending.Some?
            && CanHappen(ready, Resume(ready.store.pending.value)) && Joins(ready, Resume(ready.store.pending.value)) == 1
  {
    DueMeansScheduled(w, b, fates);
    NoneYet(Row(w).bundle, fates);
    OneMoreTask([], w.store.pending.value.(status := RefundsReady));
  }

  lemma DueMeansScheduled(w: World, b: Bundle, fates: Fates)
    requires Reachable(w, b, fates) && w.store.refundDue && w.store.pending.Some?
    ensures Row(w).status == RefundsScheduled && Means(Row(w).bundle, RefundsScheduled, fates)
    ensures w.store.journal == Story(Row(w).bundle, RefundsScheduled, fates)
  {
    ReachableInv(w, b, fates);
  }

  lemma NoneYet(b: Bundle, fates: Fates)
    requires Means(b, RefundsScheduled, fates)
    ensures RefundsQueuedIn(Story(b, RefundsScheduled, fates)) == 0
  {
    StoryHasNoRefund(Story(b, RefundsScheduled, fates));
  }

  lemma {:induction false} StoryHasNoRefund(journal: seq<Entry>)
    requires forall e <- journal :: e.Queued? ==> !e.batch.Refund?
    ensures RefundsQueuedIn(journal) == 0
  {
    if journal != [] {
      assert forall e <- journal[..|journal| - 1] :: e in journal;
      StoryHasNoRefund(journal[..|journal| - 1]);
    }
  }

  const ESCROWED := Tx(1, 1, None, [9])
  const REVERTING := Tx(2, 1, None, [])
  const REFUNDED := NEW.(sources := [ESCROWED, REVERTING])

  function HalfFates(): Fates {
    (id: nat) => if id == 1 then Confirmed(Some(1), Some(false)) else Reverted
  }

  /** Such a state is reached: one source makes an escrow, another reverts. */
  lemma RefundGetsScheduled(answers: Answers) returns (w: World)
    ensures Reachable(w, REFUNDED, HalfFates()) && w.task.None? && w.store.refundDue && w.store.pending.Some?
  {
    var fates := HalfFates();
    var s0 := Sent(REFUNDED);
    SentReachable(REFUNDED, fates);
    var s1 := StepReached(s0, REFUNDED, fates, answers);
    var s2 := StepReached(s1, REFUNDED, fates, answers);
    assert REFUNDED.sources[0] == ESCROWED && REFUNDED.sources[1] == REVERTING;
    var s3 := StepReached(s2, REFUNDED, fates, answers);
    var s4 := StepReached(s3, REFUNDED, fates, answers);
    w := StepReached(s4, REFUNDED, fates, answers);
  }

  /** So one read by the resume loop after the monitor's leads to a refund queued twice. */
  lemma RefundsTwice(answers: Answers) returns (w: World, es: seq<RaceEvent>)
    ensures Reachable(w, REFUNDED, HalfFates()) && CanHappen(Startup(w.store), Monitor)
    ensures var ready := After(Startup(w.store), Monitor, HalfFates());
            Happens(ready, es, HalfFates()) && RefundsQueuedIn(Outcome(ready, es, HalfFates()).store.journal) == 2
  {
    var fates := HalfFates();
    w := RefundGetsScheduled(answers);
    MonitorOwesOne(w, REFUNDED, fates);
    var ready := After(Startup(w.store), Monitor, fates);
    var resume := Resume(ready.store.pending.value);
    OwedKept(ready, resume, fates);
    var more := AllQueue(After(ready, resume, fates), fates, answers);
    es := [resume] + more;
    assert es[1..] == more;
  }

  lemma StepReached(w: World, b: Bundle, fates: Fates, answers: Answers) returns (next: World)
    requires Reachable(w, b, fates) && w.task.Some?
    ensures next == Handle(w.task.value, w.store, fates, answers) && Reachable(next, b, fates)
  {
    next := Next(w, Step(answers), fates);
    ReachableNext(w, b, Step(answers), fates);
  }
}
