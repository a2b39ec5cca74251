/** The subscribe-then-read protocol behind `wait_for_tx`, interleaved with status writers and the
    service's two channels, one atomic step at a time. */
module StatusWatch {
  import opened Common

  datatype Status = Status(code: nat, final: bool)

  /** A broadcast receiver: what it has not read yet, and whether the sender still exists. */
  datatype Receiver = Receiver(buffer: seq<Status>, open: bool)

  /** Where a `wait_for_tx` call stands. */
  datatype Phase =
    | Asking
    | Replied(rx: Option<Receiver>)
    | Listening(receiver: Receiver)
    | Returned(status: Status)
    | Errored

  datatype Waiter = Waiter(tx: nat, phase: Phase)

  datatype Command = SendTransaction(tx: nat) | Subscribe(tx: nat, waiter: nat)

  datatype Event = Event(tx: nat, status: Status)

  /** `stored` is the status table; `writing` holds statuses stored but not yet sent as events;
      `subscribed` are the transactions with a broadcast sender. The other sets are history:
      where each transaction came from, which reached the service, whose final event was taken. */
  datatype State = State(stored: map<nat, Status>, writing: map<nat, Status>, events: seq<Event>,
                         commands: seq<Command>, subscribed: set<nat>, waiters: seq<Waiter>,
                         submitted: set<nat>, recovered: set<nat>, reloaded: set<nat>,
                         reached: set<nat>, done: set<nat>)

  /** A starting service finds the status table earlier ones left behind. */
  function Start(before: map<nat, Status>): State {
    State(before, map[], [], [], {}, [], {}, {}, {}, {}, {})
  }

  datatype Step =
    | Submit(tx: nat)
    | Recover(tx: nat)
    | Reload(tx: nat)
    | Wait(tx: nat)
    | Write(tx: nat, status: Status)
    | Emit(tx: nat)
    | TakeEvent
    | TakeCommand
    | ReadStore(waiter: nat)
    | Receive(waiter: nat)

  predicate Known(s: State, tx: nat) {
    tx in s.submitted || tx in s.recovered || tx in s.reloaded
  }

  /** Transactions with a subscription of their own: submitted ones and recovered pending ones. */
  predicate Tracked(s: State, tx: nat) {
    tx in s.submitted || tx in s.recovered
  }

  predicate Settled(s: State, tx: nat) {
    tx in s.stored && s.stored[tx].final
  }

  /** A submitted id is new; a recovered one has no final status and is recovered before anybody waits
      for it. A status is stored before its event is sent, and nothing is stored after a final one. */
  predicate Enabled(s: State, step: Step) {
    match step
    case Submit(tx) => !Known(s, tx) && tx !in s.stored
    case Recover(tx) => !Known(s, tx) && !Settled(s, tx) && forall w <- s.waiters :: w.tx != tx
    case Reload(tx) => !Known(s, tx)
    case Wait(tx) => Known(s, tx) || tx in s.stored
    case Write(tx, _) => tx in s.reached && tx !in s.writing && !Settled(s, tx)
    case Emit(tx) => tx in s.writing
    case TakeEvent => s.events != []
    case TakeCommand => s.commands != []
    case ReadStore(w) => w < |s.waiters| && s.waiters[w].phase.Replied?
    case Receive(w) =>
      && w < |s.waiters| && s.waiters[w].phase.Listening?
      && (s.waiters[w].phase.receiver.buffer != [] || !s.waiters[w].phase.receiver.open)
  }

  function Deliver(rx: Receiver, status: Status): Receiver {
    Receiver(rx.buffer + [status], !status.final)
  }

  /** Broadcasts to the receivers of `e.tx`; a final status drops the sender. */
  function Hear(w: Waiter, e: Event): Waiter {
    if w.tx != e.tx then w
    else
      match w.phase
      case Replied(Some(rx)) => if rx.open then w.(phase := Replied(Some(Deliver(rx, e.status)))) else w
      case Listening(rx) => if rx.open then w.(phase := Listening(Deliver(rx, e.status))) else w
      case _ => w
  }

  function Broadcast(ws: seq<Waiter>, e: Event): seq<Waiter> {
    seq(|ws|, i requires 0 <= i < |ws| => Hear(ws[i], e))
  }

  function Take(s: State): State
    requires s.events != []
  {
    var e := s.events[0];
    s.(events := s.events[1..],
       waiters := if e.tx in s.subscribed then Broadcast(s.waiters, e) else s.waiters,
       subscribed := if e.status.final then s.subscribed - {e.tx} else s.subscribed,
       done := if e.status.final then s.done + {e.tx} else s.done)
  }

  function SetPhase(s: State, w: nat, phase: Phase): State
    requires w < |s.waiters|
  {
    s.(waiters := s.waiters[w := s.waiters[w].(phase := phase)])
  }

  function Obey(s: State): State
    requires s.commands != []
  {
    var rest := s.(commands := s.commands[1..]);
    match s.commands[0]
    case SendTransaction(tx) => rest.(subscribed := s.subscribed + {tx}, reached := s.reached + {tx})
    case Subscribe(tx, w) =>
      if w < |s.waiters|
      then SetPhase(rest, w, Replied(if tx in s.subscribed then Some(Receiver([], true)) else None))
      else rest
  }

  function AfterRead(s: State, w: Waiter): Phase
    requires w.phase.Replied?
  {
    if Settled(s, w.tx) then Returned(s.stored[w.tx])
    else if w.phase.rx.Some? then Listening(w.phase.rx.value) else Errored
  }

  function AfterReceive(rx: Receiver): Phase {
    if rx.buffer == [] then Errored
    else if rx.buffer[0].final then Returned(rx.buffer[0])
    else Listening(rx.(buffer := rx.buffer[1..]))
  }

  function Next(s: State, step: Step): State
    requires Enabled(s, step)
  {
    match step
    case Submit(tx) => s.(submitted := s.submitted + {tx}, commands := s.commands + [SendTransaction(tx)])
    case Recover(tx) =>
      s.(recovered := s.recovered + {tx}, subscribed := s.subscribed + {tx}, reached := s.reached + {tx})
    case Reload(tx) => s.(reloaded := s.reloaded + {tx}, reached := s.reached + {tx})
    case Wait(tx) =>
      s.(waiters := s.waiters + [Waiter(tx, Asking)], commands := s.commands + [Subscribe(tx, |s.waiters|)])
    case Write(tx, status) => s.(stored := s.stored[tx := status], writing := s.writing[tx := status])
    case Emit(tx) => s.(writing := s.writing - {tx}, events := s.events + [Event(tx, s.writing[tx])])
    case TakeEvent => Take(s)
    case TakeCommand => Obey(s)
    case ReadStore(w) => SetPhase(s, w, AfterRead(s, s.waiters[w]))
    case Receive(w) => SetPhase(s, w, AfterReceive(s.waiters[w].phase.receiver))
  }

  ghost predicate Legal(s: State, steps: seq<Step>)
    decreases |steps|
  {
    steps == [] || (Enabled(s, steps[0]) && Legal(Next(s, steps[0]), steps[1..]))
  }

  function Exec(s: State, steps: seq<Step>): State
    requires Legal(s, steps)
    decreases |steps|
  {
    if steps == [] then s else Exec(Next(s, steps[0]), steps[1..])
  }

  // ---------------------------------------------------------------- invariant

  /** A submission still queued is queued once and ahead of every subscription to it. */
  ghost predicate SubmissionsFirst(s: State) {
    && (forall tx :: tx in s.submitted && tx !in s.reached <==> SendTransaction(tx) in s.commands)
    && (forall i, j | 0 <= i < j < |s.commands| :: s.commands[j] != SendTransaction(s.commands[i].tx))
  }

  /** Waiting calls and queued subscriptions correspond. */
  ghost predicate Asked(s: State) {
    && (forall c <- s.commands | c.Subscribe? ::
          c.waiter < |s.waiters| && s.waiters[c.waiter] == Waiter(c.tx, Asking))
    && (forall i, j | 0 <= i < j < |s.commands| && s.commands[i].Subscribe? :: s.commands[i] != s.commands[j])
    && (forall w | 0 <= w < |s.waiters| && s.waiters[w].phase.Asking? ::
          Subscribe(s.waiters[w].tx, w) in s.commands)
    && (forall w <- s.waiters :: Known(s, w.tx) || w.tx in s.stored)
  }

  /** A stored final status is on its way to the service or was already taken. */
  ghost predicate FinalsTravel(s: State) {
    && (forall tx :: Settled(s, tx) && Tracked(s, tx) ==>
          || (tx in s.writing && s.writing[tx] == s.stored[tx])
          || Event(tx, s.stored[tx]) in s.events
          || tx in s.done)
    && (forall e <- s.events | e.status.final :: e.tx in s.stored && s.stored[e.tx] == e.status && e.tx !in s.writing)
    && (forall tx <- s.writing :: tx in s.stored && s.stored[tx] == s.writing[tx])
    && (forall tx <- s.done :: Settled(s, tx) && tx !in s.writing && forall e <- s.events :: e.tx != tx)
    && (forall i, j | 0 <= i < j < |s.events| && s.events[i].status.final :: s.events[j].tx != s.events[i].tx)
  }

  ghost predicate SubscriptionsLive(s: State) {
    && (forall tx :: tx in s.subscribed <==> Tracked(s, tx) && tx in s.reached && tx !in s.done)
    && (forall tx | Tracked(s, tx) && tx !in s.reached :: tx in s.submitted)
    && (forall tx <- s.reached :: Known(s, tx))
    && (forall tx | tx in s.submitted && tx !in s.reached :: tx !in s.stored)
    && (forall tx <- s.writing :: tx in s.reached)
    && (forall e <- s.events :: e.tx in s.reached)
    && (forall tx <- s.reloaded :: !Tracked(s, tx))
  }

  /** The receiver is open while the final event is outstanding and has heard it otherwise. */
  ghost predicate Attached(s: State, tx: nat, rx: Receiver) {
    && (rx.open <==> tx in s.subscribed)
    && (tx in s.done ==> exists st <- rx.buffer :: st.final)
    && (forall st <- rx.buffer | st.final :: Settled(s, tx) && s.stored[tx] == st)
    && Tracked(s, tx) && tx in s.reached
  }

  ghost predicate WaiterFine(s: State, w: Waiter) {
    match w.phase
    case Asking => true
    case Replied(None) => Tracked(s, w.tx) ==> Settled(s, w.tx)
    case Replied(Some(rx)) => Attached(s, w.tx, rx)
    case Listening(rx) => Attached(s, w.tx, rx)
    case Returned(st) => Settled(s, w.tx) && s.stored[w.tx] == st
    case Errored => !Tracked(s, w.tx)
  }

  ghost predicate Inv(s: State) {
    && SubmissionsFirst(s) && Asked(s) && FinalsTravel(s) && SubscriptionsLive(s)
    && forall w <- s.waiters :: WaiterFine(s, w)
  }

  lemma SubmissionsKeptByObey(s: State)
    requires SubmissionsFirst(s) && s.commands != []
    ensures SubmissionsFirst(Obey(s))
  {
    assert s.commands == [s.commands[0]] + Obey(s).commands;
  }

  lemma SubmissionsKept(s: State, step: Step)
    requires SubmissionsFirst(s) && Asked(s) && SubscriptionsLive(s) && Enabled(s, step) && !step.TakeCommand?
    ensures SubmissionsFirst(Next(s, step))
  {
    if step.Wait? {
      assert step.tx in s.submitted && step.tx !in s.reached <==> SendTransaction(step.tx) in s.commands;
    }
  }

  lemma AskedKeptByTake(s: State)
    requires Asked(s) && s.events != []
    ensures Asked(Take(s))
  {
    var s' := Take(s);
    forall w | 0 <= w < |s'.waiters|
      ensures s'.waiters[w].tx == s.waiters[w].tx && (s'.waiters[w].phase.Asking? <==> s.waiters[w].phase.Asking?)
    {
    }
  }

  lemma AskedKeptByWait(s: State, tx: nat)
    requires Asked(s) && Enabled(s, Wait(tx))
    ensures Asked(Next(s, Wait(tx)))
  {
  }

  lemma AskedKept(s: State, step: Step)
    requires Asked(s) && Enabled(s, step) && !step.TakeCommand? && !step.TakeEvent?
    ensures Asked(Next(s, step))
  {
    if step.Wait? {
      AskedKeptByWait(s, step.tx);
    }
  }

  /** The subscriptions behind the first command still name waiters that are asking. */
  lemma SubscribersKeptByObey(s: State, i: nat)
    requires Asked(s) && s.commands != [] && i < |Obey(s).commands| && Obey(s).commands[i].Subscribe?
    ensures var c, s' := Obey(s).commands[i], Obey(s);
            c.waiter < |s'.waiters| && s'.waiters[c.waiter] == Waiter(c.tx, Asking)
  {
    assert Obey(s).commands[i] == s.commands[i + 1] && s.commands[i + 1] in s.commands;
    assert s.commands[0].Subscribe? ==> s.commands[0] in s.commands && s.commands[0] != s.commands[i + 1];
  }

  lemma AskedKeptByObey(s: State)
    requires Asked(s) && s.commands != []
    ensures Asked(Obey(s))
  {
    var c, s' := s.commands[0], Obey(s);
    assert s.commands == [c] + s'.commands;
    forall i | 0 <= i < |s'.commands| && s'.commands[i].Subscribe?
      ensures s'.commands[i].waiter < |s'.waiters|
           && s'.waiters[s'.commands[i].waiter] == Waiter(s'.commands[i].tx, Asking)
    {
      SubscribersKeptByObey(s, i);
    }
    forall w | 0 <= w < |s'.waiters| && s'.waiters[w].phase.Asking?
      ensures Subscribe(s'.waiters[w].tx, w) in s'.commands
    {
      assert Subscribe(s.waiters[w].tx, w) in s.commands;
    }
  }

  lemma FinalsKeptByWrite(s: State, tx: nat, status: Status)
    requires FinalsTravel(s) && SubscriptionsLive(s) && Enabled(s, Write(tx, status))
    ensures FinalsTravel(Next(s, Write(tx, status)))
  {
  }

  lemma FinalsKeptByEmit(s: State, tx: nat)
    requires FinalsTravel(s) && SubscriptionsLive(s) && Enabled(s, Emit(tx))
    ensures FinalsTravel(Next(s, Emit(tx)))
  {
    var s' := Next(s, Emit(tx));
    assert Event(tx, s.writing[tx]) in s'.events;
  }

  lemma FinalsKeptByTake(s: State)
    requires FinalsTravel(s) && s.events != []
    ensures FinalsTravel(Take(s))
  {
    assert s.events == [s.events[0]] + Take(s).events;
  }

  lemma FinalsKeptOtherwise(s: State, step: Step)
    requires FinalsTravel(s) && Enabled(s, step) && !step.Write? && !step.TakeEvent? && !step.Emit?
    ensures FinalsTravel(Next(s, step))
  {
  }

  lemma FinalsKept(s: State, step: Step)
    requires FinalsTravel(s) && SubscriptionsLive(s) && Enabled(s, step)
    ensures FinalsTravel(Next(s, step))
  {
    match step {
      case Write(tx, status) => FinalsKeptByWrite(s, tx, status);
      case TakeEvent => FinalsKeptByTake(s);
      case Emit(tx) => FinalsKeptByEmit(s, tx);
      case _ => FinalsKeptOtherwise(s, step);
    }
  }

  lemma SubscriptionsKeptByObey(s: State)
    requires SubmissionsFirst(s) && FinalsTravel(s) && SubscriptionsLive(s) && s.commands != []
    ensures SubscriptionsLive(Obey(s))
  {
  }

  lemma SubscriptionsKeptByTake(s: State)
    requires SubscriptionsLive(s) && s.events != []
    ensures SubscriptionsLive(Take(s))
  {
  }

  lemma SubscriptionsKept(s: State, step: Step)
    requires FinalsTravel(s) && SubscriptionsLive(s) && Enabled(s, step) && !step.TakeCommand? && !step.TakeEvent?
    ensures SubscriptionsLive(Next(s, step))
  {
  }

  /** Taking an event delivers it to every attached receiver before the sender is dropped. */
  lemma WaiterHears(s: State, w: Waiter)
    requires Inv(s) && w in s.waiters && s.events != []
    ensures WaiterFine(Take(s), if s.events[0].tx in s.subscribed then Hear(w, s.events[0]) else w)
  {
    assert WaiterFine(s, w) && s.events[0] in s.events;
    if w.phase.Replied? && w.phase.rx.Some? {
      ReceiverHears(s, w.tx, w.phase.rx.value);
    } else if w.phase.Listening? {
      ReceiverHears(s, w.tx, w.phase.receiver);
    }
  }

  lemma ReceiverHears(s: State, tx: nat, rx: Receiver)
    requires Inv(s) && s.events != [] && Attached(s, tx, rx)
    ensures Attached(Take(s), tx, if s.events[0].tx == tx && rx.open then Deliver(rx, s.events[0].status) else rx)
  {
    var e := s.events[0];
    assert e in s.events;
    if e.tx == tx && rx.open {
      assert e.status in Deliver(rx, e.status).buffer;
    }
  }

  /** A subscription to a tracked transaction is answered with a receiver unless its final status
      is already stored. */
  lemma WaiterAnswered(s: State, w: Waiter)
    requires Inv(s) && s.commands != [] && w in s.waiters
    ensures WaiterFine(Obey(s), w)
    ensures var c := s.commands[0];
            c.Subscribe? && c.waiter < |s.waiters| ==> WaiterFine(Obey(s), Obey(s).waiters[c.waiter])
  {
    var c := s.commands[0];
    assert c in s.commands && WaiterFine(s, w);
    if c.Subscribe? {
      assert SendTransaction(c.tx) !in s.commands;
    }
  }

  /** Skipping a non-final status keeps the receiver attached. */
  lemma WaiterReceives(s: State, tx: nat, rx: Receiver)
    requires Inv(s) && Attached(s, tx, rx) && (rx.buffer != [] || !rx.open)
    ensures WaiterFine(s, Waiter(tx, AfterReceive(rx)))
  {
    if !rx.open {
      assert tx in s.done;
    }
    assert rx.buffer == [rx.buffer[0]] + rx.buffer[1..];
  }

  /** The read after the subscription never misses a final status. */
  lemma WaiterReads(s: State, w: Waiter)
    requires Inv(s) && w in s.waiters && w.phase.Replied?
    ensures WaiterFine(s, Waiter(w.tx, AfterRead(s, w)))
  {
    assert WaiterFine(s, w);
    if w.phase.rx.Some? {
      assert Attached(s, w.tx, w.phase.rx.value);
    }
  }

  lemma PhaseKept(s: State, i: nat, phase: Phase)
    requires Inv(s) && i < |s.waiters| && WaiterFine(s, Waiter(s.waiters[i].tx, phase))
    ensures forall w <- SetPhase(s, i, phase).waiters :: WaiterFine(SetPhase(s, i, phase), w)
  {
    var s' := SetPhase(s, i, phase);
    forall w <- s'.waiters ensures WaiterFine(s', w) {
      assert WaiterFine(s, w);
    }
  }

  lemma WaitersKeptByTake(s: State)
    requires Inv(s) && s.events != []
    ensures forall w <- Take(s).waiters :: WaiterFine(Take(s), w)
  {
    forall w | w in s.waiters ensures WaiterFine(Take(s), if s.events[0].tx in s.subscribed then Hear(w, s.events[0]) else w) {
      WaiterHears(s, w);
    }
  }

  lemma WaitersKeptByObey(s: State)
    requires Inv(s) && s.commands != []
    ensures forall w <- Obey(s).waiters :: WaiterFine(Obey(s), w)
  {
    forall w <- s.waiters ensures WaiterFine(Obey(s), w) {
      WaiterAnswered(s, w);
    }
    if s.commands[0].Subscribe? && s.commands[0].waiter < |s.waiters| {
      WaiterAnswered(s, s.waiters[s.commands[0].waiter]);
    }
  }

  lemma WaitersKept(s: State, step: Step)
    requires Inv(s) && Enabled(s, step)
    ensures forall w <- Next(s, step).waiters :: WaiterFine(Next(s, step), w)
  {
    match step {
      case TakeEvent => WaitersKeptByTake(s);
      case TakeCommand => WaitersKeptByObey(s);
      case ReadStore(w) =>
        WaiterReads(s, s.waiters[w]);
        PhaseKept(s, w, AfterRead(s, s.waiters[w]));
      case Receive(w) =>
        assert WaiterFine(s, s.waiters[w]);
        WaiterReceives(s, s.waiters[w].tx, s.waiters[w].phase.receiver);
        PhaseKept(s, w, AfterReceive(s.waiters[w].phase.receiver));
      case Write(tx, status) => WaitersKeptByWrite(s, tx, status);
      case _ =>
    }
  }

  lemma WaitersKeptByWrite(s: State, tx: nat, status: Status)
    requires Inv(s) && Enabled(s, Write(tx, status))
    ensures var s' := Next(s, Write(tx, status)); forall w <- s'.waiters :: WaiterFine(s', w)
  {
  }

  lemma StepKeepsInv(s: State, step: Step)
    requires Inv(s) && Enabled(s, step)
    ensures Inv(Next(s, step))
  {
    if step.TakeCommand? {
      SubmissionsKeptByObey(s);
      AskedKeptByObey(s);
      SubscriptionsKeptByObey(s);
    } else if step.TakeEvent? {
      SubmissionsKept(s, step);
      AskedKeptByTake(s);
      SubscriptionsKeptByTake(s);
    } else {
      SubmissionsKept(s, step);
      AskedKept(s, step);
      SubscriptionsKept(s, step);
    }
    FinalsKept(s, step);
    WaitersKept(s, step);
  }

  lemma {:induction false} RunKeepsInv(s: State, steps: seq<Step>)
    requires Inv(s) && Legal(s, steps)
    ensures Inv(Exec(s, steps))
    decreases |steps|
  {
    if steps != [] {
      StepKeepsInv(s, steps[0]);
      RunKeepsInv(Next(s, steps[0]), steps[1..]);
    }
  }

  lemma ReachableInv(before: map<nat, Status>, steps: seq<Step>)
    requires Legal(Start(before), steps)
    ensures Inv(Exec(Start(before), steps))
  {
    RunKeepsInv(Start(before), steps);
  }

  // ---------------------------------------------------------------- main results

  /** No interleaving makes a wait on a tracked transaction fail, and what it returns is the final
      status in storage. */
  lemma WaitNeverFails(before: map<nat, Status>, steps: seq<Step>, w: nat)
    requires Legal(Start(before), steps) && w < |Exec(Start(before), steps).waiters|
    ensures var s := Exec(Start(before), steps); var waiter := s.waiters[w];
            && (Tracked(s, waiter.tx) ==> !waiter.phase.Errored?)
            && (waiter.phase.Returned? ==> Settled(s, waiter.tx) && waiter.phase.status == s.stored[waiter.tx])
  {
    ReachableInv(before, steps);
    assert WaiterFine(Exec(Start(before), steps), Exec(Start(before), steps).waiters[w]);
  }

  /** Exactly when a wait fails at its read: no final status is stored yet and the transaction
      came from neither a submission nor the recovered pending ones. */
  lemma ReadFailsExactlyWhenUntracked(before: map<nat, Status>, steps: seq<Step>, w: nat)
    requires Legal(Start(before), steps) && Enabled(Exec(Start(before), steps), ReadStore(w))
    ensures var s := Exec(Start(before), steps); var tx := s.waiters[w].tx;
            Next(s, ReadStore(w)).waiters[w].phase.Errored? <==> !Settled(s, tx) && !Tracked(s, tx)
  {
    ReachableInv(before, steps);
    var s := Exec(Start(before), steps);
    assert WaiterFine(s, s.waiters[w]);
  }

  /** A transaction reloaded from the stored queue does lose its waiter, although its final status
      is stored later. */
  lemma ReloadedWaiterFails()
    ensures var steps := [Reload(7), Wait(7), TakeCommand, ReadStore(0), Write(7, Status(1, true))];
            && Legal(Start(map[]), steps)
            && Settled(Exec(Start(map[]), steps), 7) && Exec(Start(map[]), steps).waiters[0].phase.Errored?
  {
    var s1 := Next(Start(map[]), Reload(7));
    var s2 := Next(s1, Wait(7));
    var s3 := Next(s2, TakeCommand);
    var s4 := Next(s3, ReadStore(0));
    var steps := [Reload(7), Wait(7), TakeCommand, ReadStore(0), Write(7, Status(1, true))];
    assert s3.waiters == [Waiter(7, Replied(None))];
    assert s4.waiters == [Waiter(7, Errored)];
    assert steps[1..] == [Wait(7), TakeCommand, ReadStore(0), Write(7, Status(1, true))];
    assert steps[1..][1..] == [TakeCommand, ReadStore(0), Write(7, Status(1, true))];
    assert steps[1..][1..][1..] == [ReadStore(0), Write(7, Status(1, true))];
    assert steps[1..][1..][1..][1..] == [Write(7, Status(1, true))];
    assert steps[1..][1..][1..][1..][1..] == [];
    assert Legal(s4, [Write(7, Status(1, true))]);
    assert Legal(s2, steps[1..][1..]);
    assert Exec(s2, steps[1..][1..]) == Exec(s4, [Write(7, Status(1, true))]);
  }

  /** Steps the system owes: sending stored statuses, draining both channels, and the waiters' own. */
  predicate Internal(step: Step) {
    step.Emit? || step.TakeEvent? || step.TakeCommand? || step.ReadStore? || step.Receive?
  }

  ghost predicate Quiet(s: State) {
    forall step | Internal(step) :: !Enabled(s, step)
  }

  function Cost(): Waiter -> nat {
    (w: Waiter) =>
      match w.phase
      case Asking => 3
      case Replied(None) => 2
      case Replied(Some(rx)) => 2 + |rx.buffer|
      case Listening(rx) => 1 + |rx.buffer|
      case _ => 0
  }

  /** An event in flight may still lengthen every waiter's buffer. */
  ghost function Work(s: State): nat {
    var n := |s.waiters|;
    |s.writing| * (n + 2) + |s.events| * (n + 1) + |s.commands| + Sum(s.waiters, Cost())
  }

  lemma {:induction false} BroadcastCost(ws: seq<Waiter>, e: Event)
    ensures Sum(Broadcast(ws, e), Cost()) <= Sum(ws, Cost()) + |ws|
  {
    if ws != [] {
      BroadcastCost(ws[..|ws| - 1], e);
      assert Broadcast(ws, e)[..|ws| - 1] == Broadcast(ws[..|ws| - 1], e);
    }
  }

  lemma PhaseCost(s: State, w: nat, phase: Phase)
    requires w < |s.waiters| && Cost()(Waiter(s.waiters[w].tx, phase)) < Cost()(s.waiters[w])
    ensures Sum(SetPhase(s, w, phase).waiters, Cost()) < Sum(s.waiters, Cost())
  {
    SumUpdate(s.waiters, w, s.waiters[w].(phase := phase), Cost());
  }

  lemma EmitWorks(s: State, tx: nat)
    requires tx in s.writing
    ensures Work(Next(s, Emit(tx))) < Work(s)
  {
    var n, m := |s.waiters|, |s.writing|;
    assert (s.writing - {tx}).Keys == s.writing.Keys - {tx};
    assert |s.writing - {tx}| == m - 1;
    assert (m - 1) * (n + 2) + (|s.events| + 1) * (n + 1) + 1 == m * (n + 2) + |s.events| * (n + 1);
  }

  lemma TakeWorks(s: State)
    requires s.events != []
    ensures Work(Take(s)) < Work(s)
  {
    var n, m := |s.waiters|, |s.events|;
    BroadcastCost(s.waiters, s.events[0]);
    assert (m - 1) * (n + 1) + n + 1 == m * (n + 1);
  }

  lemma ObeyWorks(s: State)
    requires Asked(s) && s.commands != []
    ensures Work(Obey(s)) < Work(s)
  {
    var c, s' := s.commands[0], Obey(s);
    if c.Subscribe? {
      assert c in s.commands;
      PhaseCost(s, c.waiter, s'.waiters[c.waiter].phase);
    }
    LessWork(s, s');
  }

  lemma LessWork(s: State, s': State)
    requires s'.writing == s.writing && s'.events == s.events && |s'.waiters| == |s.waiters|
    requires |s'.commands| < |s.commands| && Sum(s'.waiters, Cost()) <= Sum(s.waiters, Cost())
    ensures Work(s') < Work(s)
  {
  }

  lemma PhaseWorks(s: State, w: nat, phase: Phase)
    requires w < |s.waiters| && Cost()(Waiter(s.waiters[w].tx, phase)) < Cost()(s.waiters[w])
    ensures Work(SetPhase(s, w, phase)) < Work(s)
  {
    PhaseCost(s, w, phase);
  }

  /** Every step the system owes brings it closer to quiet. */
  lemma InternalStepsEnd(s: State, step: Step)
    requires Asked(s) && Enabled(s, step) && Internal(step)
    ensures Work(Next(s, step)) < Work(s)
  {
    match step {
      case Emit(tx) => EmitWorks(s, tx);
      case TakeEvent => TakeWorks(s);
      case TakeCommand => ObeyWorks(s);
      case ReadStore(w) => PhaseWorks(s, w, AfterRead(s, s.waiters[w]));
      case Receive(w) => PhaseWorks(s, w, AfterReceive(s.waiters[w].phase.receiver));
    }
  }

  /** Once quiet, every wait on a tracked transaction with a stored final status has returned it. */
  lemma QuietReturned(s: State, w: nat)
    requires Inv(s) && Quiet(s) && w < |s.waiters|
    requires Tracked(s, s.waiters[w].tx) && Settled(s, s.waiters[w].tx)
    ensures s.waiters[w].phase == Returned(s.stored[s.waiters[w].tx])
  {
    var waiter := s.waiters[w];
    var tx := waiter.tx;
    assert WaiterFine(s, waiter);
    assert !Enabled(s, TakeCommand) && !Enabled(s, TakeEvent) && !Enabled(s, Emit(tx));
    assert !Enabled(s, ReadStore(w)) && !Enabled(s, Receive(w));
    assert tx in s.done;
  }

  lemma InternalStepFrame(s: State, step: Step, w: nat)
    requires Enabled(s, step) && Internal(step) && w < |s.waiters|
    ensures var s' := Next(s, step);
            && s'.stored == s.stored && s'.submitted == s.submitted && s'.recovered == s.recovered
            && |s'.waiters| == |s.waiters| && s'.waiters[w].tx == s.waiters[w].tx
  {
  }

  lemma {:induction false} OwedStepsReturn(s: State, owed: seq<Step>, w: nat)
    requires Inv(s) && Legal(s, owed) && (forall step <- owed :: Internal(step)) && w < |s.waiters|
    requires Tracked(s, s.waiters[w].tx) && Settled(s, s.waiters[w].tx)
    ensures |owed| <= Work(s) && w < |Exec(s, owed).waiters|
    ensures Quiet(Exec(s, owed)) ==>
              Exec(s, owed).waiters[w].phase == Returned(s.stored[s.waiters[w].tx])
    decreases |owed|
  {
    if owed == [] {
      if Quiet(s) {
        QuietReturned(s, w);
      }
    } else {
      var s' := Next(s, owed[0]);
      InternalStepsEnd(s, owed[0]);
      StepKeepsInv(s, owed[0]);
      InternalStepFrame(s, owed[0], w);
      OwedStepsReturn(s', owed[1..], w);
    }
  }

  /** A wait on a tracked transaction whose final status is stored cannot block forever: from any
      reachable state the owed steps run out after at most `Work` of them, and then the wait has
      returned that status. */
  lemma NoLostFinalStatus(before: map<nat, Status>, steps: seq<Step>, owed: seq<Step>, w: nat)
    requires Legal(Start(before), steps) && Legal(Exec(Start(before), steps), owed) && forall step <- owed :: Internal(step)
    requires var s := Exec(Start(before), steps);
             w < |s.waiters| && Tracked(s, s.waiters[w].tx) && Settled(s, s.waiters[w].tx)
    ensures var s := Exec(Start(before), steps); var s' := Exec(s, owed);
            && |owed| <= Work(s) && w < |s'.waiters|
            && (Quiet(s') ==> s'.waiters[w].phase == Returned(s.stored[s.waiters[w].tx]))
  {
    ReachableInv(before, steps);
    OwedStepsReturn(Exec(Start(before), steps), owed, w);
  }

  /** `i` is the first final status in `buffer`. */
  predicate FirstFinal(buffer: seq<Status>, i: nat) {
    i < |buffer| && buffer[i].final && forall j | 0 <= j < i :: !buffer[j].final
  }

  /** The reading half of `wait_for_tx`: a stored final status wins; otherwise the first final status
      heard on the subscription before its sender is dropped, and an error only if there is none. */
  method WaitForTx(stored: Option<Status>, reply: Option<seq<Status>>) returns (result: Phase)
    ensures stored.Some? && stored.value.final ==> result == Returned(stored.value)
    ensures !(stored.Some? && stored.value.final) && reply.Some? ==>
              forall i: nat | FirstFinal(reply.value, i) :: result == Returned(reply.value[i])
    ensures result.Errored? <==>
              && !(stored.Some? && stored.value.final)
              && (reply.Some? ==> forall status <- reply.value :: !status.final)
    ensures result.Errored? || result.Returned?
  {
    if stored.Some? && stored.value.final {
      return Returned(stored.value);
    }
    if reply.Some? {
      var events := reply.value;
      for i := 0 to |events|
        invariant forall j | 0 <= j < i :: !events[j].final
      {
        if events[i].final {
          return Returned(events[i]);
        }
      }
    }
    return Errored;
  }

  /** A listening waiter of the protocol that reads on until its receiver closes ends the same way. */
  function ReadAll(rx: Receiver): Phase
    decreases |rx.buffer|
  {
    match AfterReceive(rx)
    case Listening(rest) => ReadAll(rest)
    case phase => phase
  }

  lemma {:induction false} ReadAllIsFirstFinal(rx: Receiver, i: nat)
    requires FirstFinal(rx.buffer, i)
    ensures ReadAll(rx) == Returned(rx.buffer[i])
    decreases |rx.buffer|
  {
    if i > 0 {
      assert !rx.buffer[0].final;
      assert forall j | 0 <= j < i - 1 :: !rx.buffer[1..][j].final;
      ReadAllIsFirstFinal(rx.(buffer := rx.buffer[1..]), i - 1);
    }
  }
}
