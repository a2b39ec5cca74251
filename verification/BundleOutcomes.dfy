/** How runs progress: restarts rejoin the run they interrupted, statuses only climb, every run can
    finish, and crashes do not change how it ends. */
module BundleOutcomes {
  import opened Common
  import opened Bundles
  import opened BundleRuns

  // ---------------------------------------------------------------- restarts

  /** Stopping a task and restarting it from its row leads back to the same state: at once, after
      watching one already successful batch again, or at a task that was waiting for refunds. */
  lemma RestartRejoins(w: World, b: Bundle, fates: Fates, answers: Answers)
    requires Reachable(w, b, fates) && w.task.Some?
    ensures w.store.pending.Some?
    ensures var row, task := w.store.pending.value, w.task.value;
            if row.status == RefundsScheduled then
              Next(w, Stop, fates) == Next(w, Step(answers), fates)
            else if row.status == task.status then
              Legal(w, [Stop, Restart], fates) && Exec(w, [Stop, Restart], fates) == w
            else
              && Legal(w, [Stop, Restart, Step(answers)], fates)
              && Exec(w, [Stop, Restart, Step(answers)], fates) == w
  {
    ReachableInv(w, b, fates);
    var stopped := Next(w, Stop, fates);
    if w.store.pending.value.status != RefundsScheduled {
      var restarted := Next(stopped, Restart, fates);
      ExecTwo(w, Stop, Restart, fates);
      if w.store.pending.value.status != w.task.value.status {
        LaggingStep(w, b, fates, answers);
        ExecThree(w, Stop, Restart, Step(answers), fates);
      }
    }
  }

  lemma ExecTwo(w: World, d: Event, e: Event, fates: Fates)
    requires Enabled(w, d) && Enabled(Next(w, d, fates), e)
    ensures Legal(w, [d, e], fates) && Exec(w, [d, e], fates) == Next(Next(w, d, fates), e, fates)
  {
    var next := Next(w, d, fates);
    assert [d, e][1..] == [e];
    assert [e][1..] == [];
    assert Legal(next, [e], fates);
    assert Exec(Next(next, e, fates), [], fates) == Next(next, e, fates);
  }

  lemma ExecThree(w: World, c: Event, d: Event, e: Event, fates: Fates)
    requires Enabled(w, c) && Enabled(Next(w, c, fates), d) && Enabled(Next(Next(w, c, fates), d, fates), e)
    ensures Legal(w, [c, d, e], fates)
    ensures Exec(w, [c, d, e], fates) == Next(Next(Next(w, c, fates), d, fates), e, fates)
  {
    ExecTwo(Next(w, c, fates), d, e, fates);
    assert [c, d, e][1..] == [d, e];
  }

  /** Where the row lags, watching the batch again succeeds again and changes nothing else. */
  lemma LaggingStep(w: World, b: Bundle, fates: Fates, answers: Answers)
    requires Inv(w, b, fates) && w.task.Some? && w.store.pending.value.status != w.task.value.status
    ensures Handle(w.store.pending.value, w.store, fates, answers) == w
  {
  }

  // ---------------------------------------------------------------- progress

  predicate HasRow(w: World) {
    w.store.pending.Some? || w.store.finished.Some?
  }

  /** Where the bundle stands: the status of its task, or of its row when no task runs. */
  function At(w: World): Status
    requires HasRow(w)
  {
    if w.task.Some? then w.task.value.status else Row(w).status
  }

  /** Position of a row's status among the statuses rows can have. */
  function RowRank(s: Status): nat {
    match s
    case Init => 0
    case LiquidityLocked => 1
    case FeePayerQueued => 2
    case FeePayerCompleted => 2
    case SourceQueued => 3
    case SourceConfirmed => 3
    case SourceFailures => 4
    case DestinationQueued => 4
    case DestinationFailures => 5
    case DestinationConfirmed => 5
    case SettlementsQueued => 6
    case RefundsScheduled => 6
    case SettlementsProcessing => 7
    case RefundsReady => 7
    case SettlementCompletionQueued => 8
    case RefundsQueued => 8
    case Done => 9
    case Failed => 9
  }

  /** A handler neither fails nor ends its task before the bundle waits for refunds or is over. */
  lemma StepGoesOn(live: Live, store: Store, fates: Fates, answers: Answers)
    requires Means(live.bundle, live.status, fates) && live.status != RefundsScheduled && Rank(live.status) < 11
    ensures Handle(live, store, fates, answers).task.Some?
  {
  }

  /** Where a handler ends its task, the row has the task's status: waiting for refunds, or finished. */
  lemma StepEnds(w: World, b: Bundle, fates: Fates, answers: Answers)
    requires Inv(w, b, fates) && w.task.Some?
    ensures var next := Handle(w.task.value, w.store, fates, answers);
            next.task.None? ==>
              && HasRow(next)
              && Row(next).status == w.task.value.status
              && (w.task.value.status == RefundsScheduled || next.store.finished.Some?)
  {
    if w.task.value.status != RefundsScheduled && Rank(w.task.value.status) < 11 {
      StepGoesOn(w.task.value, w.store, fates, answers);
    }
  }

  lemma RowClimbs(row: Status, task: Status, next: Status, nextTask: Status)
    requires Lags(row, task) && CanTransition(task, nextTask) && Lags(next, nextTask)
    requires next != FeePayerCompleted && next != SourceConfirmed
    ensures next == row || RowRank(row) < RowRank(next)
  {
  }

  /** Every status change of a row moves it up, and every status change of a task is an allowed
      transition; a stop moves the bundle back by one status, and only if the row lagged. */
  lemma EventClimbs(w: World, b: Bundle, e: Event, fates: Fates)
    requires Inv(w, b, fates) && Enabled(w, e)
    ensures var next := Next(w, e, fates);
            && HasRow(next)
            && (Row(next).status == Row(w).status || RowRank(Row(w).status) < RowRank(Row(next).status))
            && (if e.Stop? then Rank(At(w)) <= Rank(At(next)) + (if At(next) == At(w) then 0 else 1)
                else At(next) == At(w) || CanTransition(At(w), At(next)))
  {
    var next := Next(w, e, fates);
    if e.Step? {
      StepEnds(w, b, fates, e.answers);
      StepIsTransition(w.task.value, w.store, fates, e.answers);
      EventKeepsInv(w, b, e, fates);
      if next.task.Some? {
        RowClimbs(Row(w).status, At(w), Row(next).status, At(next));
      }
    }
  }

  /** Status changes of the row, and of the bundle as the service sees it, along a run. */
  function RowChanges(w: World, es: seq<Event>, fates: Fates): nat
    requires Legal(w, es, fates)
    decreases |es|
  {
    if es == [] then 0
    else
      var next := Next(w, es[0], fates);
      (if HasRow(w) && HasRow(next) && Row(next).status != Row(w).status then 1 else 0) + RowChanges(next, es[1..], fates)
  }

  function Changes(w: World, es: seq<Event>, fates: Fates): nat
    requires Legal(w, es, fates)
    decreases |es|
  {
    if es == [] then 0
    else
      var next := Next(w, es[0], fates);
      (if !es[0].Stop? && HasRow(w) && HasRow(next) && At(next) != At(w) then 1 else 0) + Changes(next, es[1..], fates)
  }

  /** Stops that hit a task ahead of its row. */
  function Setbacks(w: World, es: seq<Event>, fates: Fates): nat
    requires Legal(w, es, fates)
    decreases |es|
  {
    if es == [] then 0
    else
      var next := Next(w, es[0], fates);
      (if es[0].Stop? && HasRow(w) && HasRow(next) && At(next) != At(w) then 1 else 0) + Setbacks(next, es[1..], fates)
  }

  lemma {:induction false} RunClimbs(w: World, b: Bundle, es: seq<Event>, fates: Fates)
    requires Inv(w, b, fates) && Legal(w, es, fates)
    ensures RowRank(Row(w).status) + RowChanges(w, es, fates) <= 9
    ensures Rank(At(w)) + Changes(w, es, fates) <= 11 + Setbacks(w, es, fates)
    decreases |es|
  {
    if es != [] {
      var next := Next(w, es[0], fates);
      EventKeepsInv(w, b, es[0], fates);
      EventClimbs(w, b, es[0], fates);
      TransitionsClimb(At(w), At(next));
      RunClimbs(next, b, es[1..], fates);
    }
  }

  /** A bundle's row changes status at most 9 times over any run; the bundle itself at most 11 times,
      plus one repeated change for every stop that hit it between a watched success and the next write. */
  lemma StatusChangesBounded(b: Bundle, es: seq<Event>, fates: Fates)
    requires IsNew(b) && Legal(Sent(b), es, fates)
    ensures RowChanges(Sent(b), es, fates) <= 9
    ensures Changes(Sent(b), es, fates) <= 11 + Setbacks(Sent(b), es, fates)
  {
    SentInv(b, fates);
    RunClimbs(Sent(b), b, es, fates);
  }

  // ---------------------------------------------------------------- every run can finish

  function Distance(w: World): nat
    requires HasRow(w)
  {
    3 * (11 - Rank(At(w)))
    + if w.task.Some? then (if At(w) == RefundsScheduled then 2 else 1)
      else if w.store.finished.Some? then 0 else if At(w) == RefundsScheduled then 1 else 2
  }

  /** What brings an unfinished bundle forward: its task, its refund coming due, or a restart. */
  function Forward(w: World, answers: Answers): Event {
    if w.task.Some? then Step(answers) else if w.store.refundDue then RefundDue else Restart
  }

  lemma ForwardAdvances(w: World, b: Bundle, fates: Fates, answers: Answers)
    requires Inv(w, b, fates) && w.store.finished.None?
    ensures Enabled(w, Forward(w, answers))
    ensures var next := Next(w, Forward(w, answers), fates);
            Inv(next, b, fates) && Distance(next) < Distance(w)
  {
    var e := Forward(w, answers);
    EventKeepsInv(w, b, e, fates);
    if w.task.Some? {
      StepEnds(w, b, fates, answers);
      StepIsTransition(w.task.value, w.store, fates, answers);
      TransitionsClimb(At(w), At(Next(w, e, fates)));
    }
  }

  /** From every reachable state the bundle can still be brought to an end. */
  lemma {:induction false} CanFinish(w: World, b: Bundle, fates: Fates, answers: Answers) returns (es: seq<Event>)
    requires Inv(w, b, fates)
    ensures Legal(w, es, fates) && Exec(w, es, fates).store.finished.Some?
    decreases Distance(w)
  {
    if w.store.finished.Some? {
      es := [];
    } else {
      var e := Forward(w, answers);
      ForwardAdvances(w, b, fates, answers);
      var rest := CanFinish(Next(w, e, fates), b, fates, answers);
      es := [e] + rest;
      assert es[1..] == rest;
    }
  }

  // ---------------------------------------------------------------- crashes do not change the end

  predicate Settling(s: Status, b: Bundle, fates: Fates) {
    Delivered(b, fates) && b.sources != [] && Rank(s) >= 8
  }

  predicate Receiving(s: Status, b: Bundle, fates: Fates, answers: Answers) {
    Settling(s, b, fates) && Rank(s) >= 10 && AllConfirmed(answers.settlements, fates)
  }

  predicate Refunding(s: Status, b: Bundle, fates: Fates) {
    FeeOk(b, fates) && !Delivered(b, fates) && AnyEscrow(b.sources, fates) && Rank(s) >= 10
  }

  /** The bundle as its row holds it at status `s`, given what the settler and the refund builder return. */
  function Filled(b: Bundle, s: Status, fates: Fates, answers: Answers): Bundle {
    b.(settlements := if Settling(s, b, fates) then answers.settlements else [],
       receives := if Receiving(s, b, fates, answers) then answers.receives else [],
       unverified := if Receiving(s, b, fates, answers) then answers.unverified else [],
       refunds := if Refunding(s, b, fates) then answers.refunds else [])
  }

  /** How the bundle ends: a function of its request, the fates and the answers alone. */
  function Ending(b: Bundle, fates: Fates, answers: Answers): Live {
    var last := Filled(b, Done, fates, answers);
    Live(last, if Delivered(last, fates) && Settled(last, fates) then Done else Failed)
  }

  lemma EarlyStepFills(row: Live, live: Live, store: Store, b: Bundle, fates: Fates, answers: Answers)
    requires store.pending == Some(row) && store.finished.None? && TaskOk(row, live, fates) && Rank(live.status) <= 5
    requires row.bundle == Filled(b, row.status, fates, answers)
    ensures var next := Handle(live, store, fates, answers);
            HasRow(next) && Row(next).bundle == Filled(b, Row(next).status, fates, answers)
  {
  }

  lemma DestinationStepFills(row: Live, live: Live, store: Store, b: Bundle, fates: Fates, answers: Answers)
    requires store.pending == Some(row) && store.finished.None? && TaskOk(row, live, fates) && 6 <= Rank(live.status) <= 7
    requires row.bundle == Filled(b, row.status, fates, answers)
    ensures var next := Handle(live, store, fates, answers);
            HasRow(next) && Row(next).bundle == Filled(b, Row(next).status, fates, answers)
  {
  }

  lemma QueuedStepFills(row: Live, live: Live, store: Store, b: Bundle, fates: Fates, answers: Answers)
    requires store.pending == Some(row) && store.finished.None? && TaskOk(row, live, fates) && 8 <= Rank(live.status) <= 9
    requires row.bundle == Filled(b, row.status, fates, answers)
    ensures var next := Handle(live, store, fates, answers);
            HasRow(next) && Row(next).bundle == Filled(b, Row(next).status, fates, answers)
  {
  }

  lemma LateStepFills(row: Live, live: Live, store: Store, b: Bundle, fates: Fates, answers: Answers)
    requires store.pending == Some(row) && store.finished.None? && TaskOk(row, live, fates) && Rank(live.status) >= 10
    requires row.bundle == Filled(b, row.status, fates, answers)
    ensures var next := Handle(live, store, fates, answers);
            HasRow(next) && Row(next).bundle == Filled(b, Row(next).status, fates, answers)
  {
  }

  lemma StepFills(w: World, b: Bundle, fates: Fates, answers: Answers)
    requires Inv(w, b, fates) && w.task.Some?
    requires Row(w).bundle == Filled(b, Row(w).status, fates, answers)
    ensures var next := Handle(w.task.value, w.store, fates, answers);
            HasRow(next) && Row(next).bundle == Filled(b, Row(next).status, fates, answers)
  {
    var row, live := Row(w), w.task.value;
    var rank := Rank(live.status);
    if rank <= 5 {
      EarlyStepFills(row, live, w.store, b, fates, answers);
    } else if rank <= 7 {
      DestinationStepFills(row, live, w.store, b, fates, answers);
    } else if rank <= 9 {
      QueuedStepFills(row, live, w.store, b, fates, answers);
    } else {
      LateStepFills(row, live, w.store, b, fates, answers);
    }
  }

  /** The settler and the refund builder return the same whenever they are asked. */
  predicate SameAnswers(es: seq<Event>, answers: Answers) {
    forall e <- es :: e.Step? ==> e.answers == answers
  }

  lemma {:induction false} RunFills(w: World, b: Bundle, es: seq<Event>, fates: Fates, answers: Answers)
    requires Inv(w, b, fates) && Legal(w, es, fates) && SameAnswers(es, answers)
    requires Row(w).bundle == Filled(b, Row(w).status, fates, answers)
    ensures var end := Exec(w, es, fates);
            HasRow(end) && Row(end).bundle == Filled(b, Row(end).status, fates, answers)
    decreases |es|
  {
    if es != [] {
      var next := Next(w, es[0], fates);
      EventKeepsInv(w, b, es[0], fates);
      assert es[0] in es;
      if es[0].Step? {
        StepFills(w, b, fates, answers);
      }
      RunFills(next, b, es[1..], fates, answers);
    }
  }

  /** However often and wherever a run is stopped, a bundle that finishes finishes with the same
      status, the same transactions and the same journal. */
  lemma CrashesDoNotMatter(b: Bundle, es: seq<Event>, fates: Fates, answers: Answers)
    requires IsNew(b) && Legal(Sent(b), es, fates) && SameAnswers(es, answers)
    requires Exec(Sent(b), es, fates).store.finished.Some?
    ensures var store, end := Exec(Sent(b), es, fates).store, Ending(b, fates, answers);
            store.finished.value == end && store.journal == Story(end.bundle, end.status, fates)
  {
    SentInv(b, fates);
    ExecKeepsInv(Sent(b), b, es, fates);
    RunFills(Sent(b), b, es, fates, answers);
  }
}
