/** Gas sponsorship: the decision, the quota it reports, and the spend both bound over any window. */
module Sponsorship {
  import opened Common

  /** Who usage is counted against: an account address or a verified user. */
  datatype Subject = Account(address: nat) | User(id: nat)

  datatype QuotaKey = ByAddress | ByUser

  datatype Config = Config(sponsorAll: bool, sponsored: bool, verifiedSkipsTargets: bool, windowHours: nat,
                           breaker: nat, perUser: nat, overrides: map<Subject, nat>, key: QuotaKey)

  datatype Usage = Usage(subject: Subject, chain: nat, spent: nat, at: int)

  datatype Caller = Caller(eoa: nat, user: Option<nat>)

  function WindowSeconds(cfg: Config): nat {
    cfg.windowHours * 3600
  }

  function QuotaSubject(cfg: Config, caller: Caller): Option<Subject> {
    match cfg.key
    case ByAddress => Some(Account(caller.eoa))
    case ByUser => if caller.user.Some? then Some(User(caller.user.value)) else None
  }

  function CapOf(cfg: Config, subject: Subject): nat {
    if subject in cfg.overrides then cfg.overrides[subject] else cfg.perUser
  }

  /** What a window sum counts: one subject on a chain, or everybody on it. */
  datatype Scope = OfSubject(subject: Subject, chain: nat) | OfChain(chain: nat)

  predicate InScope(scope: Scope, subject: Subject, chain: nat) {
    chain == scope.chain && (scope.OfSubject? ==> subject == scope.subject)
  }

  /** Spend recorded in scope at `cutoff` or later. */
  function SpentSince(log: seq<Usage>, scope: Scope, cutoff: int): nat {
    if log == [] then 0
    else
      var u := log[|log| - 1];
      SpentSince(log[..|log| - 1], scope, cutoff)
      + if InScope(scope, u.subject, u.chain) && u.at >= cutoff then u.spent else 0
  }

  /** Time of the oldest usage in scope at `cutoff` or later. */
  function OldestSince(log: seq<Usage>, scope: Scope, cutoff: int): (oldest: Option<int>) {
    if log == [] then None
    else
      var u, rest := log[|log| - 1], OldestSince(log[..|log| - 1], scope, cutoff);
      if InScope(scope, u.subject, u.chain) && u.at >= cutoff && (rest.None? || u.at < rest.value) then Some(u.at)
      else rest
  }

  /** The decision, guard by guard. `targetsAllowed` says whether every call lands on the sponsored set. */
  predicate IsSponsored(cfg: Config, log: seq<Usage>, now: int, caller: Caller, targetsAllowed: bool, chain: nat) {
    if cfg.sponsorAll then true
    else if !cfg.sponsored then false
    else if !(cfg.verifiedSkipsTargets && caller.user.Some?) && !targetsAllowed then false
    else if SpentSince(log, OfChain(chain), now - WindowSeconds(cfg)) >= cfg.breaker then false
    else
      var subject := QuotaSubject(cfg, caller);
      if subject.None? then false
      else SpentSince(log, OfSubject(subject.value, chain), now - WindowSeconds(cfg)) < CapOf(cfg, subject.value)
  }

  datatype Quota = Quota(sponsored: bool, cap: nat, spent: nat, remaining: nat, resetsAt: Option<int>,
                         breakerSpent: nat, tripped: bool)

  /** What the quota endpoint reports; `eoa` is absent when the caller gave no account. */
  function QuotaStatus(cfg: Config, log: seq<Usage>, now: int, eoa: Option<nat>, user: Option<nat>, chain: nat): Option<Quota> {
    var subject :=
      match cfg.key
      case ByAddress => if eoa.Some? then Some(Account(eoa.value)) else None
      case ByUser => if user.Some? then Some(User(user.value)) else None;
    if subject.None? then None
    else
      var cutoff := now - WindowSeconds(cfg);
      var cap, spent := CapOf(cfg, subject.value), SpentSince(log, OfSubject(subject.value, chain), cutoff);
      var global := SpentSince(log, OfChain(chain), cutoff);
      var oldest := OldestSince(log, OfSubject(subject.value, chain), cutoff);
      Some(Quota(cfg.sponsorAll || cfg.sponsored, cap, spent, Monus(cap, spent),
                 if oldest.Some? then Some(oldest.value + WindowSeconds(cfg)) else None,
                 global, global >= cfg.breaker))
  }

  /** The reported quota is the one enforced. */
  lemma QuotaIsEnforced(cfg: Config, log: seq<Usage>, now: int, caller: Caller, targetsAllowed: bool, chain: nat)
    ensures var quota := QuotaStatus(cfg, log, now, Some(caller.eoa), caller.user, chain);
            IsSponsored(cfg, log, now, caller, targetsAllowed, chain)
            <==> cfg.sponsorAll
                 || (&& quota.Some? && quota.value.sponsored && quota.value.remaining > 0 && !quota.value.tripped
                     && (targetsAllowed || (cfg.verifiedSkipsTargets && caller.user.Some?)))
  {
  }

  // ---------------------------------------------------------------- the decision in full

  /** Gas spent on a chain, by anybody or by one subject, at `cutoff` or later. */
  function GasOn(chain: nat, cutoff: int): Usage -> nat {
    (u: Usage) => if u.chain == chain && u.at >= cutoff then u.spent else 0
  }

  function GasOf(subject: Subject, chain: nat, cutoff: int): Usage -> nat {
    (u: Usage) => if u.subject == subject && u.chain == chain && u.at >= cutoff then u.spent else 0
  }

  lemma {:induction false} SpentIsGas(log: seq<Usage>, subject: Subject, chain: nat, cutoff: int)
    ensures SpentSince(log, OfChain(chain), cutoff) == Sum(log, GasOn(chain, cutoff))
    ensures SpentSince(log, OfSubject(subject, chain), cutoff) == Sum(log, GasOf(subject, chain, cutoff))
  {
    if log != [] {
      SpentIsGas(log[..|log| - 1], subject, chain, cutoff);
    }
  }

  /** A call is sponsored when everything is, or when sponsoring is on, its targets are allowed or waived for
      a verified user, there is a subject to count against, and over the last hours of the window the chain
      has spent less than the breaker and the subject less than its own cap or the common one. */
  lemma SponsoredExactly(cfg: Config, log: seq<Usage>, now: int, caller: Caller, targetsAllowed: bool, chain: nat)
    ensures IsSponsored(cfg, log, now, caller, targetsAllowed, chain)
       <==> cfg.sponsorAll
            || (&& cfg.sponsored && (targetsAllowed || (cfg.verifiedSkipsTargets && caller.user.Some?))
                && (cfg.key == ByUser ==> caller.user.Some?)
                && var since := now - cfg.windowHours * 60 * 60;
                   var subject := if cfg.key == ByUser then User(caller.user.value) else Account(caller.eoa);
                   && Sum(log, GasOn(chain, since)) < cfg.breaker
                   && Sum(log, GasOf(subject, chain, since))
                      < if subject in cfg.overrides then cfg.overrides[subject] else cfg.perUser)
  {
    var since := now - cfg.windowHours * 60 * 60;
    if cfg.key == ByUser && caller.user.Some? {
      SpentIsGas(log, User(caller.user.value), chain, since);
    } else {
      SpentIsGas(log, Account(caller.eoa), chain, since);
    }
  }

  /** The reported numbers are those sums and caps; there is no report without a subject. */
  lemma QuotaExactly(cfg: Config, log: seq<Usage>, now: int, eoa: Option<nat>, user: Option<nat>, chain: nat)
    ensures var quota := QuotaStatus(cfg, log, now, eoa, user, chain);
            if cfg.key == ByUser then quota.Some? == user.Some? else quota.Some? == eoa.Some?
    ensures var quota := QuotaStatus(cfg, log, now, eoa, user, chain);
            quota.Some? ==>
              var Quota(sponsored, cap, spent, remaining, _, breakerSpent, tripped) := quota.value;
              var since := now - cfg.windowHours * 60 * 60;
              var subject := if cfg.key == ByUser then User(user.value) else Account(eoa.value);
              && (sponsored <==> cfg.sponsorAll || cfg.sponsored)
              && cap == (if subject in cfg.overrides then cfg.overrides[subject] else cfg.perUser)
              && spent == Sum(log, GasOf(subject, chain, since))
              && (if spent < cap then spent + remaining == cap else remaining == 0)
              && breakerSpent == Sum(log, GasOn(chain, since))
              && (tripped <==> cfg.breaker <= breakerSpent)
  {
    var since := now - cfg.windowHours * 60 * 60;
    if cfg.key == ByUser && user.Some? {
      SpentIsGas(log, User(user.value), chain, since);
    } else if cfg.key != ByUser && eoa.Some? {
      SpentIsGas(log, Account(eoa.value), chain, since);
    }
  }

  // ---------------------------------------------------------------- when the quota resets

  lemma {:induction false} SpentMonotone(log: seq<Usage>, scope: Scope, c: int, d: int)
    requires c <= d
    ensures SpentSince(log, scope, d) <= SpentSince(log, scope, c)
  {
    if log != [] {
      SpentMonotone(log[..|log| - 1], scope, c, d);
    }
  }

  lemma {:induction false} OldestBounds(log: seq<Usage>, scope: Scope, cutoff: int, d: int)
    requires d >= cutoff
    ensures var oldest := OldestSince(log, scope, cutoff);
            if oldest.None? || d <= oldest.value then SpentSince(log, scope, d) == SpentSince(log, scope, cutoff)
            else exists u <- log ::
                   && InScope(scope, u.subject, u.chain) && u.at == oldest.value
                   && SpentSince(log, scope, d) + u.spent <= SpentSince(log, scope, cutoff)
  {
    if log != [] {
      var init, last := log[..|log| - 1], log[|log| - 1];
      assert log == init + [last];
      OldestBounds(init, scope, cutoff, d);
      SpentMonotone(init, scope, cutoff, d);
    }
  }

  /** With nothing recorded in between, the spend stays as reported up to and including the reported
      reset time, and only after it loses a usage. */
  lemma QuotaResets(cfg: Config, log: seq<Usage>, now: int, later: int, caller: Caller, chain: nat)
    requires later >= now
    ensures var before := QuotaStatus(cfg, log, now, Some(caller.eoa), caller.user, chain);
            var after := QuotaStatus(cfg, log, later, Some(caller.eoa), caller.user, chain);
            && before.Some? == after.Some?
            && (before.Some? ==>
                  if before.value.resetsAt.None? || later <= before.value.resetsAt.value
                  then after.value.spent == before.value.spent
                  else exists u <- log :: u.at + WindowSeconds(cfg) == before.value.resetsAt.value
                                          && after.value.spent + u.spent <= before.value.spent)
  {
    var subject := QuotaSubject(cfg, caller);
    if subject.Some? {
      OldestBounds(log, OfSubject(subject.value, chain), now - WindowSeconds(cfg), later - WindowSeconds(cfg));
    }
  }

  // ---------------------------------------------------------------- runs

  /** A sponsored send that has not been recorded yet. */
  datatype Send = Send(caller: Caller, chain: nat)

  /** `outside` is the part of the log that came from sends nobody approved, `unrecorded` the gas of
      approved sends that never reached the log. */
  datatype State = State(now: int, log: seq<Usage>, pending: seq<Send>, outside: seq<Usage>, unrecorded: seq<Usage>)

  function Start(now: int): State {
    State(now, [], [], [], [])
  }

  /** `Record` and `Forget` end a pending send: its gas is recorded, or it is not, because the send never
      landed (and cost nothing), failed on chain, or could not be stored. `RecordOutside` records a
      zero-payment send that was not approved here. */
  datatype Event =
    | Decide(caller: Caller, targetsAllowed: bool, chain: nat)
    | Record(i: nat, spent: nat)
    | Forget(i: nat, gas: nat)
    | RecordOutside(subject: Subject, chain: nat, spent: nat)
    | Tick(seconds: nat)

  /** The effective policy of every chain. */
  type Policy = nat -> Config

  predicate SendInScope(policy: Policy, scope: Scope, s: Send) {
    var subject := QuotaSubject(policy(s.chain), s.caller);
    subject.Some? && InScope(scope, subject.value, s.chain)
  }

  function Waiting(policy: Policy, scope: Scope, pending: seq<Send>): nat {
    if pending == [] then 0
    else Waiting(policy, scope, pending[..|pending| - 1])
         + if SendInScope(policy, scope, pending[|pending| - 1]) then 1 else 0
  }

  function Without(pending: seq<Send>, i: nat): seq<Send>
    requires i < |pending|
  {
    pending[..i] + pending[i + 1..]
  }

  /** A send is recorded against the subject its chain's policy resolves to, if any. */
  function Next(policy: Policy, s: State, e: Event): State
    requires (e.Record? || e.Forget?) ==> e.i < |s.pending|
  {
    match e
    case Decide(caller, targetsAllowed, chain) =>
      if IsSponsored(policy(chain), s.log, s.now, caller, targetsAllowed, chain)
      then s.(pending := s.pending + [Send(caller, chain)]) else s
    case Record(i, spent) =>
      var send := s.pending[i];
      var subject := QuotaSubject(policy(send.chain), send.caller);
      s.(pending := Without(s.pending, i),
         log := if subject.Some? then s.log + [Usage(subject.value, send.chain, spent, s.now)] else s.log)
    case Forget(i, gas) =>
      var send := s.pending[i];
      var subject := QuotaSubject(policy(send.chain), send.caller);
      s.(pending := Without(s.pending, i),
         unrecorded := if subject.Some? then s.unrecorded + [Usage(subject.value, send.chain, gas, s.now)] else s.unrecorded)
    case RecordOutside(subject, chain, spent) =>
      var u := Usage(subject, chain, spent, s.now);
      s.(log := s.log + [u], outside := s.outside + [u])
    case Tick(seconds) => s.(now := s.now + seconds)
  }

  /** At most `k` sends in scope wait to be recorded, and each costs at most `w`. */
  predicate Legal(policy: Policy, scope: Scope, k: nat, w: nat, s: State, es: seq<Event>)
    decreases |es|
  {
    es == []
    || (&& ((es[0].Record? || es[0].Forget?) ==> es[0].i < |s.pending|)
        && (es[0].Record? ==> es[0].spent <= w) && (es[0].Forget? ==> es[0].gas <= w)
        && Waiting(policy, scope, Next(policy, s, es[0]).pending) <= k
        && Legal(policy, scope, k, w, Next(policy, s, es[0]), es[1..]))
  }

  function Exec(policy: Policy, scope: Scope, k: nat, w: nat, s: State, es: seq<Event>): State
    requires Legal(policy, scope, k, w, s, es)
    decreases |es|
  {
    if es == [] then s else Exec(policy, scope, k, w, Next(policy, s, es[0]), es[1..])
  }

  /** Spend recorded in scope from `from` up to and including `to`. */
  function SpentBetween(log: seq<Usage>, scope: Scope, from: int, to: int): nat {
    if log == [] then 0
    else
      var u := log[|log| - 1];
      SpentBetween(log[..|log| - 1], scope, from, to)
      + if InScope(scope, u.subject, u.chain) && from <= u.at <= to then u.spent else 0
  }

  /** The limit a scope is held to. */
  function Limit(policy: Policy, scope: Scope): nat {
    match scope
    case OfSubject(subject, chain) => CapOf(policy(chain), subject)
    case OfChain(chain) => policy(chain).breaker
  }

  lemma {:induction false} BetweenSince(log: seq<Usage>, scope: Scope, from: int, to: int)
    requires forall u <- log :: u.at <= to
    ensures SpentBetween(log, scope, from, to) == SpentSince(log, scope, from)
  {
    if log != [] {
      assert forall u <- log[..|log| - 1] :: u in log;
      assert log[|log| - 1] in log;
      BetweenSince(log[..|log| - 1], scope, from, to);
    }
  }

  lemma WaitingPush(policy: Policy, scope: Scope, pending: seq<Send>, s: Send)
    ensures Waiting(policy, scope, pending + [s])
         == Waiting(policy, scope, pending) + if SendInScope(policy, scope, s) then 1 else 0
  {
    assert (pending + [s])[..|pending|] == pending;
  }

  lemma {:induction false} WaitingConcat(policy: Policy, scope: Scope, p: seq<Send>, q: seq<Send>)
    ensures Waiting(policy, scope, p + q) == Waiting(policy, scope, p) + Waiting(policy, scope, q)
  {
    if q == [] {
      assert p + q == p;
    } else {
      assert (p + q)[..|p + q| - 1] == p + q[..|q| - 1];
      WaitingConcat(policy, scope, p, q[..|q| - 1]);
    }
  }

  lemma WaitingWithout(policy: Policy, scope: Scope, pending: seq<Send>, i: nat)
    requires i < |pending|
    ensures Waiting(policy, scope, Without(pending, i)) + (if SendInScope(policy, scope, pending[i]) then 1 else 0)
         == Waiting(policy, scope, pending)
  {
    assert pending == pending[..i] + [pending[i]] + pending[i + 1..];
    WaitingConcat(policy, scope, pending[..i] + [pending[i]], pending[i + 1..]);
    WaitingPush(policy, scope, pending[..i], pending[i]);
    WaitingConcat(policy, scope, pending[..i], pending[i + 1..]);
  }

  /** What approved sends cost from `from` on, and all they may still cost, stays below the bound. */
  predicate Bounded(policy: Policy, scope: Scope, k: nat, w: nat, s: State, from: int) {
    var spent, other := SpentSince(s.log, scope, from), SpentSince(s.outside, scope, from);
    var waiting := Waiting(policy, scope, s.pending);
    (spent == other && waiting == 0) || spent + Up(waiting, w) < Limit(policy, scope) + Up(k, w) + other
  }

  predicate Within(policy: Policy, scope: Scope, k: nat, w: nat, log: seq<Usage>, outside: seq<Usage>, from: int) {
    var to := from + WindowSeconds(policy(scope.chain));
    var spent, other := SpentBetween(log, scope, from, to), SpentBetween(outside, scope, from, to);
    spent == other || spent < Limit(policy, scope) + Up(k, w) + other
  }

  ghost predicate Inv(policy: Policy, scope: Scope, k: nat, w: nat, s: State) {
    && (forall u <- s.log :: u.at <= s.now)
    && (forall u <- s.outside :: u.at <= s.now)
    && (forall from | from >= s.now - WindowSeconds(policy(scope.chain)) :: Bounded(policy, scope, k, w, s, from))
    && (forall from :: Within(policy, scope, k, w, s.log, s.outside, from))
  }

  /** An approved send in scope found its scope below the limit. */
  lemma ApprovedBelowLimit(policy: Policy, scope: Scope, s: State, caller: Caller, targetsAllowed: bool, chain: nat)
    requires !policy(scope.chain).sponsorAll && SendInScope(policy, scope, Send(caller, chain))
    requires IsSponsored(policy(chain), s.log, s.now, caller, targetsAllowed, chain)
    ensures SpentSince(s.log, scope, s.now - WindowSeconds(policy(scope.chain))) < Limit(policy, scope)
  {
  }

  lemma DecideKeepsInv(policy: Policy, scope: Scope, k: nat, w: nat, s: State, e: Event)
    requires Inv(policy, scope, k, w, s) && e.Decide? && !policy(scope.chain).sponsorAll
    requires Waiting(policy, scope, Next(policy, s, e).pending) <= k
    ensures Inv(policy, scope, k, w, Next(policy, s, e))
  {
    var next, send := Next(policy, s, e), Send(e.caller, e.chain);
    if next != s {
      WaitingPush(policy, scope, s.pending, send);
      var cutoff := s.now - WindowSeconds(policy(scope.chain));
      forall from | from >= cutoff ensures Bounded(policy, scope, k, w, next, from) {
        assert Bounded(policy, scope, k, w, s, from);
        if SendInScope(policy, scope, send) {
          ApprovedBelowLimit(policy, scope, s, e.caller, e.targetsAllowed, e.chain);
          SpentMonotone(s.log, scope, cutoff, from);
          MulMono(Waiting(policy, scope, next.pending), k, w);
        }
      }
    }
  }

  lemma RecordKeepsBound(policy: Policy, scope: Scope, k: nat, w: nat, s: State, e: Event, from: int)
    requires Bounded(policy, scope, k, w, s, from) && e.Record? && e.i < |s.pending| && e.spent <= w
    ensures Bounded(policy, scope, k, w, Next(policy, s, e), from)
  {
    var next := Next(policy, s, e);
    WaitingWithout(policy, scope, s.pending, e.i);
    var subject := QuotaSubject(policy(s.pending[e.i].chain), s.pending[e.i].caller);
    if subject.Some? {
      assert next.log[..|s.log|] == s.log;
    }
    OneLess(Waiting(policy, scope, next.pending), w);
  }

  lemma OneLess(n: nat, w: nat)
    ensures Up(n + 1, w) == Up(n, w) + w
  {
  }

  lemma RecordKeepsInv(policy: Policy, scope: Scope, k: nat, w: nat, s: State, e: Event)
    requires Inv(policy, scope, k, w, s) && e.Record? && e.i < |s.pending| && e.spent <= w
    ensures Inv(policy, scope, k, w, Next(policy, s, e))
  {
    var next, window := Next(policy, s, e), WindowSeconds(policy(scope.chain));
    forall from | from >= s.now - window ensures Bounded(policy, scope, k, w, next, from) {
      RecordKeepsBound(policy, scope, k, w, s, e, from);
    }
    forall from ensures Within(policy, scope, k, w, next.log, next.outside, from) {
      assert Within(policy, scope, k, w, s.log, s.outside, from);
      if from >= s.now - window {
        assert Bounded(policy, scope, k, w, next, from);
        BetweenSince(next.log, scope, from, from + window);
        BetweenSince(next.outside, scope, from, from + window);
      } else if next.log != s.log {
        assert next.log[..|s.log|] == s.log;
      }
    }
  }

  lemma SincePush(log: seq<Usage>, u: Usage, scope: Scope, from: int, to: int)
    ensures SpentSince(log + [u], scope, from)
         == SpentSince(log, scope, from) + if InScope(scope, u.subject, u.chain) && u.at >= from then u.spent else 0
    ensures SpentBetween(log + [u], scope, from, to)
         == SpentBetween(log, scope, from, to) + if InScope(scope, u.subject, u.chain) && from <= u.at <= to then u.spent else 0
  {
    assert (log + [u])[..|log|] == log;
  }

  lemma OutsideKeepsBound(policy: Policy, scope: Scope, k: nat, w: nat, s: State, e: Event, from: int)
    requires Bounded(policy, scope, k, w, s, from) && e.RecordOutside?
    ensures Bounded(policy, scope, k, w, Next(policy, s, e), from)
  {
    var u := Usage(e.subject, e.chain, e.spent, s.now);
    SincePush(s.log, u, scope, from, from);
    SincePush(s.outside, u, scope, from, from);
  }

  lemma OutsideKeepsWithin(policy: Policy, scope: Scope, k: nat, w: nat, s: State, u: Usage, from: int)
    requires Within(policy, scope, k, w, s.log, s.outside, from)
    ensures Within(policy, scope, k, w, s.log + [u], s.outside + [u], from)
  {
    var to := from + WindowSeconds(policy(scope.chain));
    SincePush(s.log, u, scope, from, to);
    SincePush(s.outside, u, scope, from, to);
  }

  /** An outside record counts the same on both sides of every bound. */
  lemma OutsideKeepsInv(policy: Policy, scope: Scope, k: nat, w: nat, s: State, e: Event)
    requires Inv(policy, scope, k, w, s) && e.RecordOutside?
    ensures Inv(policy, scope, k, w, Next(policy, s, e))
  {
    var next, u := Next(policy, s, e), Usage(e.subject, e.chain, e.spent, s.now);
    forall from | from >= s.now - WindowSeconds(policy(scope.chain)) ensures Bounded(policy, scope, k, w, next, from) {
      OutsideKeepsBound(policy, scope, k, w, s, e, from);
    }
    forall from ensures Within(policy, scope, k, w, next.log, next.outside, from) {
      OutsideKeepsWithin(policy, scope, k, w, s, u, from);
    }
  }

  lemma EventKeepsInv(policy: Policy, scope: Scope, k: nat, w: nat, s: State, e: Event)
    requires Inv(policy, scope, k, w, s) && !policy(scope.chain).sponsorAll
    requires (e.Record? || e.Forget?) ==> e.i < |s.pending|
    requires e.Record? ==> e.spent <= w
    requires Waiting(policy, scope, Next(policy, s, e).pending) <= k
    ensures Inv(policy, scope, k, w, Next(policy, s, e))
  {
    match e
    case Decide(_, _, _) => DecideKeepsInv(policy, scope, k, w, s, e);
    case Record(_, _) => RecordKeepsInv(policy, scope, k, w, s, e);
    case Forget(i, _) =>
      var next := Next(policy, s, e);
      WaitingWithout(policy, scope, s.pending, i);
      MulMono(Waiting(policy, scope, next.pending), Waiting(policy, scope, s.pending), w);
      forall from | from >= s.now - WindowSeconds(policy(scope.chain)) ensures Bounded(policy, scope, k, w, next, from) {
        assert Bounded(policy, scope, k, w, s, from);
      }
    case RecordOutside(_, _, _) => OutsideKeepsInv(policy, scope, k, w, s, e);
    case Tick(_) =>
      forall from | from >= Next(policy, s, e).now - WindowSeconds(policy(scope.chain))
        ensures Bounded(policy, scope, k, w, Next(policy, s, e), from)
      {
        assert Bounded(policy, scope, k, w, s, from);
      }
  }

  lemma {:induction false} ExecKeepsInv(policy: Policy, scope: Scope, k: nat, w: nat, s: State, es: seq<Event>)
    requires Inv(policy, scope, k, w, s) && !policy(scope.chain).sponsorAll
    requires Legal(policy, scope, k, w, s, es)
    ensures Inv(policy, scope, k, w, Exec(policy, scope, k, w, s, es))
    decreases |es|
  {
    if es != [] {
      EventKeepsInv(policy, scope, k, w, s, es[0]);
      ExecKeepsInv(policy, scope, k, w, Next(policy, s, es[0]), es[1..]);
    }
  }

  lemma EndsWithin(policy: Policy, scope: Scope, k: nat, w: nat, now: int, es: seq<Event>, from: int)
    requires !policy(scope.chain).sponsorAll && Legal(policy, scope, k, w, Start(now), es)
    ensures var end := Exec(policy, scope, k, w, Start(now), es);
            Within(policy, scope, k, w, end.log, end.outside, from)
  {
    ExecKeepsInv(policy, scope, k, w, Start(now), es);
  }

  lemma WithinBound(policy: Policy, scope: Scope, k: nat, w: nat, log: seq<Usage>, outside: seq<Usage>, from: int)
    requires Within(policy, scope, k, w, log, outside, from)
    ensures var to := from + WindowSeconds(policy(scope.chain));
            var spent, other := SpentBetween(log, scope, from, to), SpentBetween(outside, scope, from, to);
            spent == other || spent < Limit(policy, scope) + k * w + other
  {
  }

  /** Over every run, what one subject (or a whole chain) spends in any window of the configured
      length is only what came from outside, or less than that plus its cap (or the breaker) plus
      the `k` sends that may be under way. */
  lemma SpendBounded(policy: Policy, scope: Scope, k: nat, w: nat, now: int, es: seq<Event>, from: int)
    requires !policy(scope.chain).sponsorAll
    requires Legal(policy, scope, k, w, Start(now), es)
    ensures var end, to := Exec(policy, scope, k, w, Start(now), es), from + WindowSeconds(policy(scope.chain));
            var spent, other := SpentBetween(end.log, scope, from, to), SpentBetween(end.outside, scope, from, to);
            spent == other || spent < Limit(policy, scope) + k * w + other
  {
    EndsWithin(policy, scope, k, w, now, es, from);
    var end := Exec(policy, scope, k, w, Start(now), es);
    WithinBound(policy, scope, k, w, end.log, end.outside, from);
  }

  predicate NobodyOutside(es: seq<Event>) {
    forall e <- es :: !e.RecordOutside?
  }

  /** Without outside records the bound is on everything recorded. */
  lemma SpendBoundedWithin(policy: Policy, scope: Scope, k: nat, w: nat, now: int, es: seq<Event>, from: int)
    requires !policy(scope.chain).sponsorAll && NobodyOutside(es)
    requires Legal(policy, scope, k, w, Start(now), es)
    ensures var end := Exec(policy, scope, k, w, Start(now), es);
            var spent := SpentBetween(end.log, scope, from, from + WindowSeconds(policy(scope.chain)));
            spent == 0 || spent < Limit(policy, scope) + k * w
  {
    SpendBounded(policy, scope, k, w, now, es, from);
    NothingOutside(policy, scope, k, w, Start(now), es);
  }

  lemma {:induction false} NothingOutside(policy: Policy, scope: Scope, k: nat, w: nat, s: State, es: seq<Event>)
    requires Legal(policy, scope, k, w, s, es) && NobodyOutside(es)
    ensures Exec(policy, scope, k, w, s, es).outside == s.outside
    decreases |es|
  {
    if es != [] {
      assert es[0] in es;
      NothingOutside(policy, scope, k, w, Next(policy, s, es[0]), es[1..]);
    }
  }

  // ---------------------------------------------------------------- what was really spent

  /** Gas the funder paid for approved sends, recorded or not. */
  function ActualBetween(s: State, scope: Scope, from: int, to: int): nat {
    SpentBetween(s.log, scope, from, to) + SpentBetween(s.unrecorded, scope, from, to)
  }

  predicate ForgetsAtMost(es: seq<Event>, most: nat) {
    forall e <- es :: e.Forget? ==> e.gas <= most
  }

  ghost predicate ActualBound(policy: Policy, scope: Scope, k: nat, w: nat, s: State, from: int) {
    var spent := ActualBetween(s, scope, from, from + WindowSeconds(policy(scope.chain)));
    spent == 0 || spent < Limit(policy, scope) + Up(k, w)
  }

  lemma {:induction false} NothingForgotten(policy: Policy, scope: Scope, k: nat, w: nat, s: State, es: seq<Event>,
                                            from: int, to: int)
    requires Legal(policy, scope, k, w, s, es) && ForgetsAtMost(es, 0)
    ensures SpentBetween(Exec(policy, scope, k, w, s, es).unrecorded, scope, from, to) == SpentBetween(s.unrecorded, scope, from, to)
    decreases |es|
  {
    if es != [] {
      var next := Next(policy, s, es[0]);
      assert es[0] in es && forall e <- es[1..] :: e in es;
      if next.unrecorded != s.unrecorded {
        assert next.unrecorded[..|s.unrecorded|] == s.unrecorded;
      }
      NothingForgotten(policy, scope, k, w, next, es[1..], from, to);
    }
  }

  /** One approved send after the other, `n` in all, none of them recorded. */
  function Burns(caller: Caller, chain: nat, gas: nat, n: nat): seq<Event> {
    if n == 0 then [] else [Decide(caller, true, chain)] + ([Forget(0, gas)] + Burns(caller, chain, gas, n - 1))
  }

  lemma {:induction false} BurnsForget(caller: Caller, chain: nat, gas: nat, n: nat)
    ensures ForgetsAtMost(Burns(caller, chain, gas, n), gas) && NobodyOutside(Burns(caller, chain, gas, n))
  {
    if n > 0 {
      BurnsForget(caller, chain, gas, n - 1);
    }
  }

  /** The caller's sends are in scope and sponsored as long as nothing is recorded. */
  predicate Sponsors(policy: Policy, scope: Scope, caller: Caller) {
    && SendInScope(policy, scope, Send(caller, scope.chain))
    && IsSponsored(policy(scope.chain), [], 0, caller, true, scope.chain)
  }

  function AfterBurn(policy: Policy, chain: nat, s: State, caller: Caller, gas: nat): State
    requires |Next(policy, s, Decide(caller, true, chain)).pending| > 0
  {
    Next(policy, Next(policy, s, Decide(caller, true, chain)), Forget(0, gas))
  }

  lemma OneBurn(policy: Policy, scope: Scope, k: nat, w: nat, s: State, caller: Caller, gas: nat)
    requires Sponsors(policy, scope, caller) && s.log == [] && s.pending == [] && k > 0
    ensures var one := Next(policy, s, Decide(caller, true, scope.chain));
            && Waiting(policy, scope, one.pending) <= k && |one.pending| == 1
            && var two := AfterBurn(policy, scope.chain, s, caller, gas);
               && two.log == [] && two.pending == [] && two.now == s.now && Waiting(policy, scope, two.pending) <= k
               && SpentBetween(two.unrecorded, scope, s.now, s.now + WindowSeconds(policy(scope.chain)))
                  == SpentBetween(s.unrecorded, scope, s.now, s.now + WindowSeconds(policy(scope.chain))) + gas
  {
    var one := Next(policy, s, Decide(caller, true, scope.chain));
    assert one.pending == [Send(caller, scope.chain)] && one.pending[..0] == [];
    assert AfterBurn(policy, scope.chain, s, caller, gas).unrecorded[..|s.unrecorded|] == s.unrecorded;
  }

  lemma LegalFirst(policy: Policy, scope: Scope, k: nat, w: nat, s: State, e: Event, rest: seq<Event>)
    requires (e.Record? || e.Forget?) ==> e.i < |s.pending|
    requires (e.Record? ==> e.spent <= w) && (e.Forget? ==> e.gas <= w)
    requires Waiting(policy, scope, Next(policy, s, e).pending) <= k && Legal(policy, scope, k, w, Next(policy, s, e), rest)
    ensures Legal(policy, scope, k, w, s, [e] + rest)
    ensures Exec(policy, scope, k, w, s, [e] + rest) == Exec(policy, scope, k, w, Next(policy, s, e), rest)
  {
    assert ([e] + rest)[1..] == rest;
  }

  lemma BurnThen(policy: Policy, scope: Scope, k: nat, w: nat, s: State, caller: Caller, gas: nat, rest: seq<Event>)
    requires Sponsors(policy, scope, caller) && s.log == [] && s.pending == [] && k > 0 && gas <= w
    requires |Next(policy, s, Decide(caller, true, scope.chain)).pending| > 0
    requires Legal(policy, scope, k, w, AfterBurn(policy, scope.chain, s, caller, gas), rest)
    ensures var es := [Decide(caller, true, scope.chain)] + ([Forget(0, gas)] + rest);
            && Legal(policy, scope, k, w, s, es)
            && Exec(policy, scope, k, w, s, es) == Exec(policy, scope, k, w, AfterBurn(policy, scope.chain, s, caller, gas), rest)
  {
    var decide, forget := Decide(caller, true, scope.chain), Forget(0, gas);
    OneBurn(policy, scope, k, w, s, caller, gas);
    LegalFirst(policy, scope, k, w, Next(policy, s, decide), forget, rest);
    LegalFirst(policy, scope, k, w, s, decide, [forget] + rest);
  }

  lemma {:induction false} BurnsUp(policy: Policy, scope: Scope, k: nat, w: nat, s: State, caller: Caller, gas: nat, n: nat)
    requires Sponsors(policy, scope, caller) && s.log == [] && s.pending == [] && k > 0 && 0 < gas <= w
    ensures var es, to := Burns(caller, scope.chain, gas, n), s.now + WindowSeconds(policy(scope.chain));
            && Legal(policy, scope, k, w, s, es)
            && SpentBetween(Exec(policy, scope, k, w, s, es).unrecorded, scope, s.now, to)
               >= SpentBetween(s.unrecorded, scope, s.now, to) + n
    decreases n
  {
    if n > 0 {
      var rest := Burns(caller, scope.chain, gas, n - 1);
      OneBurn(policy, scope, k, w, s, caller, gas);
      BurnsUp(policy, scope, k, w, AfterBurn(policy, scope.chain, s, caller, gas), caller, gas, n - 1);
      BurnThen(policy, scope, k, w, s, caller, gas, rest);
      assert Burns(caller, scope.chain, gas, n) == [Decide(caller, true, scope.chain)] + ([Forget(0, gas)] + rest);
    }
  }

  /** What the funder really spends on approved sends stays within the bound over every run exactly when
      no approved send that costs gas goes unrecorded. */
  lemma ActualBoundedExactly(policy: Policy, scope: Scope, k: nat, w: nat, most: nat, caller: Caller)
    requires !policy(scope.chain).sponsorAll && Sponsors(policy, scope, caller) && k > 0 && most <= w
    ensures (forall now, es, from
               | Legal(policy, scope, k, w, Start(now), es) && NobodyOutside(es) && ForgetsAtMost(es, most) ::
               ActualBound(policy, scope, k, w, Exec(policy, scope, k, w, Start(now), es), from))
       <==> most == 0
  {
    if most == 0 {
      forall now, es, from | Legal(policy, scope, k, w, Start(now), es) && NobodyOutside(es) && ForgetsAtMost(es, most)
        ensures ActualBound(policy, scope, k, w, Exec(policy, scope, k, w, Start(now), es), from)
      {
        SpendBoundedWithin(policy, scope, k, w, now, es, from);
        NothingForgotten(policy, scope, k, w, Start(now), es, from, from + WindowSeconds(policy(scope.chain)));
      }
    } else {
      ForgottenOverruns(policy, scope, k, w, 0, most, caller);
    }
  }

  lemma BurnsPast(policy: Policy, scope: Scope, k: nat, w: nat, now: int, gas: nat, caller: Caller, n: nat)
    returns (es: seq<Event>)
    requires Sponsors(policy, scope, caller) && k > 0 && 0 < gas <= w
    ensures Legal(policy, scope, k, w, Start(now), es) && NobodyOutside(es) && ForgetsAtMost(es, gas)
    ensures ActualBetween(Exec(policy, scope, k, w, Start(now), es), scope, now, now + WindowSeconds(policy(scope.chain))) >= n
  {
    es := Burns(caller, scope.chain, gas, n);
    BurnsUp(policy, scope, k, w, Start(now), caller, gas, n);
    BurnsForget(caller, scope.chain, gas, n);
  }

  /** However much it is: enough forgotten sends exceed any bound while nothing is recorded at all. */
  lemma ForgottenOverruns(policy: Policy, scope: Scope, k: nat, w: nat, now: int, gas: nat, caller: Caller)
    requires Sponsors(policy, scope, caller) && k > 0 && 0 < gas <= w
    ensures exists es ::
              && Legal(policy, scope, k, w, Start(now), es) && NobodyOutside(es) && ForgetsAtMost(es, gas)
              && !ActualBound(policy, scope, k, w, Exec(policy, scope, k, w, Start(now), es), now)
  {
    var es := BurnsPast(policy, scope, k, w, now, gas, caller, Limit(policy, scope) + Up(k, w) + 1);
    assert !ActualBound(policy, scope, k, w, Exec(policy, scope, k, w, Start(now), es), now);
  }
}
