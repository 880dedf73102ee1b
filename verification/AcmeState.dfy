/**
 * The certificate renewal machine: up to four futures and a timer, polled in a fixed order. What a
 * future answers when it is polled is decided by the surroundings (`Env`).
 */
module AcmeState {
  import opened Common

  type Key = nat
  type Pem = nat

  const MAX_BACKOFF := 16

  /** A future or timer in flight; `id` tells any two of them apart. A timer was armed at an instant for a duration. */
  datatype Future = Storing(id: nat) | Ordering(id: nat, key: Key) | Waiting(id: nat, armedAt: int, nanos: nat)

  datatype Validity = Validity(notBefore: int, notAfter: int)

  datatype Load = NotYet | Failed | Loaded(found: Option<nat>)
  datatype Ordered = OrderPending | OrderFailed | Issued(pem: Pem)

  /**
   * The answers of one poll. A future is polled at most once per poll, so one answer each will do. Timers go by
   * `clock`, the validity of certificates by `now`, the time of day, which need not agree with it.
   */
  datatype Env = Env(
    stored: Option<bool>,              // the pending store: not yet, or whether it worked
    waitOver: bool,
    certLoad: Load,
    accountLoad: Load,
    ordered: Ordered,
    parse: Pem -> Option<Validity>,
    now: int,
    clock: int,
    newKey: Key)

  datatype Event =
    | DeployedCachedCert | DeployedNewCert | Stored | StoreFailed
    | CertCacheLoadFailed | AccountCacheLoadFailed | CachedCertParse | NewCertParse | OrderError

  /** The order in which a pass polls. */
  datatype Polled = PolledStore | PolledWait | PolledCert | PolledAccount | PolledOrder

  datatype Acme = Acme(
    accountKey: Option<Key>,
    early: Option<Future>,
    loadCert: bool,
    loadAccount: bool,
    order: Option<Future>,
    backoff: nat,
    wait: Option<Future>,
    cert: Option<Pem>,
    nextId: nat)

  const NEW := Acme(None, None, true, true, None, 0, None, None, 0)

  /** How a pass of the loop ends. */
  datatype Out = Pending | Ready(event: Event) | Again

  datatype Passed = Passed(s: Acme, out: Out, polled: seq<Polled>)

  // ---------------------------------------------------------------------
  // One pass
  // ---------------------------------------------------------------------

  /** Rust and chrono divide towards zero. */
  function TruncDiv(a: int, b: int): int
    requires b > 0
  {
    if a >= 0 then a / b else -(-a / b)
  }

  /** Renewal is due when a third of the validity is left; never in the past. */
  function RenewIn(v: Validity, now: int): nat {
    var d := v.notAfter * NANOS - TruncDiv((v.notAfter - v.notBefore) * NANOS, 3) - now;
    if d < 0 then 0 else d
  }

  /** At renewal at most a third of the validity is left, and, unless that is already so, no less, to the nanosecond. */
  lemma RenewsForTheLastThird(v: Validity, now: int)
    requires v.notBefore <= v.notAfter
    ensures var life, left := (v.notAfter - v.notBefore) * NANOS, v.notAfter * NANOS - (now + RenewIn(v, now));
            3 * left <= life && (RenewIn(v, now) > 0 ==> life < 3 * left + 3)
    ensures RenewIn(v, now) > 0 <==> 3 * (v.notAfter * NANOS - now) > (v.notAfter - v.notBefore) * NANOS
  {
  }

  function ProcessCert(s: Acme, pem: Pem, cached: bool, env: Env): (Acme, Event) {
    match env.parse(pem)
    case None => (s, if cached then CachedCertParse else NewCertParse)
    case Some(v) =>
      var s := s.(cert := Some(pem), wait := Some(Waiting(s.nextId, env.clock, RenewIn(v, env.now))),
                  nextId := s.nextId + 1);
      if cached then (s, DeployedCachedCert)
      else (s.(early := Some(Storing(s.nextId)), nextId := s.nextId + 1), DeployedNewCert)
  }

  /** Start an order, generating and storing an account key first if there is none. */
  function ScheduleOrder(s: Acme, env: Env): Acme {
    var s := if s.accountKey.Some? then s
             else s.(accountKey := Some(env.newKey), early := Some(Storing(s.nextId)), nextId := s.nextId + 1);
    s.(order := Some(Ordering(s.nextId, s.accountKey.value)), nextId := s.nextId + 1)
  }

  function FinishOrder(s: Acme, env: Env): Passed
    requires env.ordered != OrderPending
  {
    var s := s.(order := None);
    if env.ordered.Issued? then
      var (s', e) := ProcessCert(s.(backoff := 0), env.ordered.pem, false, env);
      Passed(s', Ready(e), [PolledOrder])
    else
      Passed(s.(wait := Some(Waiting(s.nextId, env.clock, Pow2(s.backoff) * NANOS)), nextId := s.nextId + 1,
                backoff := Min(s.backoff + 1, MAX_BACKOFF)),
             Ready(OrderError), [PolledOrder])
  }

  function OrderPart(s: Acme, env: Env): Passed {
    if s.order.Some? then
      if env.ordered == OrderPending then Passed(s, Pending, [PolledOrder]) else FinishOrder(s, env)
    else Passed(ScheduleOrder(s, env), Again, [])
  }

  function AccountPart(s: Acme, env: Env): Passed {
    if !s.loadAccount then OrderPart(s, env)
    else
      match env.accountLoad
      case NotYet => Passed(s, Pending, [PolledAccount])
      case Failed => Passed(s.(loadAccount := false), Ready(AccountCacheLoadFailed), [PolledAccount])
      case Loaded(found) =>
        var s := s.(loadAccount := false, accountKey := if found.Some? then found else s.accountKey);
        var p := OrderPart(s, env);
        p.(polled := [PolledAccount] + p.polled)
  }

  function CertPart(s: Acme, env: Env): Passed {
    if !s.loadCert then AccountPart(s, env)
    else
      match env.certLoad
      case NotYet => Passed(s, Pending, [PolledCert])
      case Failed => Passed(s.(loadCert := false), Ready(CertCacheLoadFailed), [PolledCert])
      case Loaded(Some(pem)) =>
        var (s', e) := ProcessCert(s.(loadCert := false), pem, true, env);
        Passed(s', Ready(e), [PolledCert])
      case Loaded(None) =>
        var p := AccountPart(s.(loadCert := false), env);
        p.(polled := [PolledCert] + p.polled)
  }

  function Pass(s: Acme, env: Env): Passed {
    if s.early.Some? then
      match env.stored
      case None => Passed(s, Pending, [PolledStore])
      case Some(ok) => Passed(s.(early := None), Ready(if ok then Stored else StoreFailed), [PolledStore])
    else if s.wait.Some? then
      if !env.waitOver then Passed(s, Pending, [PolledWait])
      else
        var p := CertPart(s.(wait := None), env);
        p.(polled := [PolledWait] + p.polled)
    else CertPart(s, env)
  }

  /** A poll: passes until one of them returns. */
  function Poll(s: Acme, env: Env): (p: Passed)
    ensures p.out != Again
  {
    var p := Pass(s, env);
    if p.out == Again then
      TwoPassesAtMost(s, env);
      var q := Pass(p.s, env);
      q.(polled := p.polled + q.polled)
    else p
  }

  /** A pass that schedules an order is followed by one that returns. */
  lemma TwoPassesAtMost(s: Acme, env: Env)
    requires Pass(s, env).out == Again
    ensures Pass(Pass(s, env).s, env).out != Again
  {
  }

  class Machine {
    var accountKey: Option<Key>
    var early: Option<Future>
    var loadCert: bool
    var loadAccount: bool
    var order: Option<Future>
    var backoff: nat
    var wait: Option<Future>
    var cert: Option<Pem>
    var nextId: nat        // numbers the futures

    constructor ()
      ensures State() == NEW
    {
      accountKey, early, loadCert, loadAccount, order := None, None, true, true, None;
      backoff, wait, cert, nextId := 0, None, None, 0;
    }

    function State(): Acme
      reads this
    {
      Acme(accountKey, early, loadCert, loadAccount, order, backoff, wait, cert, nextId)
    }
  
    method ProcessPem(pem: Pem, cached: bool, env: Env) returns (e: Event)
      modifies this
      ensures (State(), e) == ProcessCert(old(State()), pem, cached, env)
    {
      var parsed := env.parse(pem);
      if parsed == None {
        return if cached then CachedCertParse else NewCertParse;
      }
      cert := Some(pem);
      wait, nextId := Some(Waiting(nextId, env.clock, RenewIn(parsed.value, env.now))), nextId + 1;
      if cached {
        return DeployedCachedCert;
      }
      early, nextId := Some(Storing(nextId)), nextId + 1;
      return DeployedNewCert;
    }

    method PollNext(env: Env) returns (out: Out)
      modifies this
      ensures State() == Poll(old(State()), env).s && out == Poll(old(State()), env).out
    {
      hide Pass;
      out := OnePass(env);
      while out == Again
        invariant out == Again ==> Pass(old(State()), env).out == Again && State() == Pass(old(State()), env).s
        invariant out != Again ==> State() == Poll(old(State()), env).s && out == Poll(old(State()), env).out
        decreases out == Again
      {
        TwoPassesAtMost(old(State()), env);
        out := OnePass(env);
      }
    }

    /** The body of the poll loop. */
    method OnePass(env: Env) returns (out: Out)
      modifies this
      ensures State() == Pass(old(State()), env).s && out == Pass(old(State()), env).out
    {
      if early.Some? {
        if env.stored == None {
          return Pending;
        }
        early := None;
        return Ready(if env.stored.value then Stored else StoreFailed);
      }
      if wait.Some? {
        if !env.waitOver {
          return Pending;
        }
        wait := None;
      }
      out := PollCert(env);
    }

    method PollCert(env: Env) returns (out: Out)
      modifies this
      ensures State() == CertPart(old(State()), env).s && out == CertPart(old(State()), env).out
    {
      if loadCert {
        if env.certLoad == NotYet {
          return Pending;
        }
        loadCert := false;
        if env.certLoad == Failed {
          return Ready(CertCacheLoadFailed);
        }
        if env.certLoad.found.Some? {
          var e := ProcessPem(env.certLoad.found.value, true, env);
          return Ready(e);
        }
      }
      if loadAccount {
        if env.accountLoad == NotYet {
          return Pending;
        }
        loadAccount := false;
        if env.accountLoad == Failed {
          return Ready(AccountCacheLoadFailed);
        }
        if env.accountLoad.found.Some? {
          accountKey := env.accountLoad.found;
        }
      }
      if order.Some? {
        out := PollOrder(env);
        return;
      }
      if accountKey == None {
        accountKey := Some(env.newKey);
        early, nextId := Some(Storing(nextId)), nextId + 1;
      }
      order, nextId := Some(Ordering(nextId, accountKey.value)), nextId + 1;
      return Again;
    }

    method PollOrder(env: Env) returns (out: Out)
      requires order.Some?
      modifies this
      ensures State() == OrderPart(old(State()), env).s && out == OrderPart(old(State()), env).out
    {
      if env.ordered == OrderPending {
        return Pending;
      }
      order := None;
      if env.ordered.Issued? {
        backoff := 0;
        var e := ProcessPem(env.ordered.pem, false, env);
        return Ready(e);
      }
      wait, nextId := Some(Waiting(nextId, env.clock, Pow2(backoff) * NANOS)), nextId + 1;
      backoff := Min(backoff + 1, MAX_BACKOFF);
      return Ready(OrderError);
    }
  }

  // ---------------------------------------------------------------------
  // What every poll keeps
  // ---------------------------------------------------------------------

  predicate Numbered(f: Option<Future>, nextId: nat) {
    f.Some? ==> f.value.id < nextId
  }

  predicate Sound(s: Acme) {
    && Numbered(s.early, s.nextId) && Numbered(s.order, s.nextId) && Numbered(s.wait, s.nextId)
    && (s.loadAccount ==> s.accountKey == None)
    && (s.order.Some? ==>
          s.order.value.Ordering? && s.accountKey == Some(s.order.value.key) && !s.loadCert && !s.loadAccount)
    && (s.wait.Some? ==> s.wait.value.Waiting?)
    && s.backoff <= MAX_BACKOFF
  }

  /** A future leaves its place only by completing, so none is overwritten or dropped. */
  predicate NothingDropped(s: Acme, env: Env, s': Acme) {
    && (s.early.Some? && s'.early != s.early ==> env.stored.Some?)
    && (s.wait.Some? && s'.wait != s.wait ==> s.early == None && env.waitOver)
    && (s.order.Some? && s'.order != s.order ==>
          s.early == None && (s.wait.Some? ==> env.waitOver) && env.ordered != OrderPending)
    && s.nextId <= s'.nextId
  }

  /** Before a pass starts anything new: what the parts behind the wait assume and give. */
  lemma PartsKeep(s: Acme, env: Env)
    requires Sound(s) && s.early == None && s.wait == None
    ensures var p := CertPart(s, env);
            && Sound(p.s) && NothingDropped(s, env, p.s)
            && (s.accountKey.Some? ==> p.s.accountKey == s.accountKey)
            && (p.out == Again ==>
                  s.order == None && p.s.order.Some? && p.s.wait == None && p.s.order.value.id >= s.nextId)
            && (p.s.order.Some? && p.s.order != s.order ==> p.out == Again)
            && PolledStore !in p.polled
  {
  }

  lemma PassKeeps(s: Acme, env: Env)
    requires Sound(s)
    ensures var p := Pass(s, env);
            && Sound(p.s) && NothingDropped(s, env, p.s)
            && (s.accountKey.Some? ==> p.s.accountKey == s.accountKey)
            && (p.out == Again ==>
                  && s.early == None && s.order == None
                  && p.s.order.Some? && p.s.wait == None && p.s.order.value.id >= s.nextId)
            && (p.s.order.Some? && p.s.order != s.order ==>
                  p.out == Again && s.early == None && (s.wait.Some? ==> env.waitOver))
            && (PolledStore in p.polled ==> p.polled == [PolledStore])
  {
    if s.early == None && (s.wait == None || env.waitOver) {
      PartsKeep(s.(wait := None), env);
    }
  }

  /** The poll starts an order. */
  predicate Starts(s: Acme, env: Env) {
    Pass(s, env).out == Again
  }

  /** The poll reports the end of an order, well or badly. */
  predicate Finishes(s: Acme, env: Env) {
    var out := Poll(s, env).out;
    out == Ready(OrderError) || out == Ready(DeployedNewCert) || out == Ready(NewCertParse)
  }

  lemma PollKeeps(s: Acme, env: Env)
    requires Sound(s)
    ensures var p := Poll(s, env);
            && Sound(p.s) && NothingDropped(s, env, p.s)
            && (s.accountKey.Some? ==> p.s.accountKey == s.accountKey)
            && !(PolledStore in p.polled && PolledOrder in p.polled)
            && (s.early.Some? ==> p.polled == [PolledStore])
            && (Starts(s, env) ==> s.early == None && s.order == None && (s.wait.Some? ==> env.waitOver))
  {
    PassKeeps(s, env);
    var p := Pass(s, env);
    if p.out == Again {
      PassKeeps(p.s, env);
      AgainPolls(s, env);
    } else {
      NotBoth(s, env);
    }
    hide Pass;
  }

  lemma NotBoth(s: Acme, env: Env)
    ensures var polled := Pass(s, env).polled;
            PolledStore in polled ==> PolledOrder !in polled
    ensures s.early.Some? ==> Pass(s, env).polled == [PolledStore]
  {
    if s.early == None {
      PartsPollNoStore(s.(wait := None), env);
    }
  }

  lemma PartsPollNoStore(s: Acme, env: Env)
    ensures PolledStore !in CertPart(s, env).polled
  {
  }

  lemma AgainPolls(s: Acme, env: Env)
    requires Pass(s, env).out == Again
    ensures PolledStore !in Pass(s, env).polled && PolledOrder !in Pass(s, env).polled
    ensures var q := Pass(Pass(s, env).s, env).polled; PolledStore in q ==> PolledOrder !in q
  {
    NotBoth(Pass(s, env).s, env);
    PartsAgainPolls(s, env);
    PartsAgainPolls(s.(wait := None), env);
    hide CertPart;
  }

  lemma PartsAgainPolls(s: Acme, env: Env)
    ensures var p := CertPart(s, env); p.out == Again ==> PolledStore !in p.polled && PolledOrder !in p.polled
  {
    hide Pow2, RenewIn;
  }

  /** The instant at which a timer runs out. */
  function Until(f: Future): int
    requires f.Waiting?
  {
    f.armedAt + f.nanos
  }

  /** Timers may be reported late, but not before they have run out. */
  predicate NotEarly(s: Acme, env: Env) {
    s.wait.Some? && s.wait.value.Waiting? && env.waitOver ==> Until(s.wait.value) <= env.clock
  }

  /** A poll before the timer has run out does nothing but wait: no order starts, none is polled. */
  lemma WaitHolds(s: Acme, env: Env)
    requires Sound(s) && NotEarly(s, env) && s.wait.Some? && env.clock < Until(s.wait.value)
    ensures var p := Poll(s, env);
            p.s.wait == s.wait && p.s.order == s.order && p.s.backoff == s.backoff &&
            !Starts(s, env) && !Finishes(s, env) && PolledOrder !in p.polled
  {
  }

  // ---------------------------------------------------------------------
  // What an order leaves behind
  // ---------------------------------------------------------------------

  /** Only the part of a pass that polls the order reports its end. */
  lemma PassFinishes(s: Acme, env: Env)
    requires Sound(s) && Pass(s, env).out in {Ready(OrderError), Ready(DeployedNewCert), Ready(NewCertParse)}
    ensures s.order.Some? && s.early == None && env.ordered != OrderPending
    ensures var p, q := Pass(s, env), FinishOrder(s.(wait := None), env); p.s == q.s && p.out == q.out
  {
    hide Pow2, RenewIn, FinishOrder;
  }

  /** The state in which the order was when its end was found. */
  lemma PollFinishes(s: Acme, env: Env) returns (b: Acme)
    requires Sound(s) && Finishes(s, env)
    ensures Sound(b) && b.order.Some? && b.early == None && b.wait == None && b.backoff == s.backoff
    ensures env.ordered != OrderPending
    ensures var p, q := Poll(s, env), FinishOrder(b, env); p.s == q.s && p.out == q.out
  {
    PassKeeps(s, env);
    PassCounts(s, env);
    var p := Pass(s, env);
    if p.out == Again { PassFinishes(p.s, env); } else { PassFinishes(s, env); }
    hide Pass, FinishOrder, Pow2;
    b := (if p.out == Again then p.s else s).(wait := None);
  }

  /** How an order ends, in terms of the answers the poll gets. */
  lemma FinishedBy(s: Acme, env: Env)
    requires Sound(s) && Finishes(s, env)
    ensures env.ordered != OrderPending
    ensures var s', parsed := Poll(s, env).s, if env.ordered.Issued? then env.parse(env.ordered.pem) else None;
            && s'.order == None && !s'.loadCert && !s'.loadAccount && s'.accountKey.Some?
            && (s'.early.Some? <==> parsed.Some?)
            && (Poll(s, env).out == Ready(OrderError) <==> env.ordered == OrderFailed)
            && (Poll(s, env).out == Ready(DeployedNewCert) <==> parsed.Some?)
            && s'.wait.Some? == (env.ordered == OrderFailed || parsed.Some?)
            && (s'.wait.Some? ==>
                  && s'.wait.value.Waiting? && s'.wait.value.armedAt == env.clock
                  && s'.wait.value.nanos ==
                     if parsed.Some? then RenewIn(parsed.value, env.now) else Pow2(s.backoff) * NANOS)
  {
    var b := PollFinishes(s, env);
    hide Poll, Finishes, Pow2, RenewIn;
  }

  /** The end of an order arms a timer exactly when the order failed or its certificate parses. */
  lemma FinishArmsTimerIff(s: Acme, env: Env)
    requires Sound(s) && Finishes(s, env)
    ensures Poll(s, env).s.wait.Some? <==> (env.ordered.Issued? ==> env.parse(env.ordered.pem).Some?)
  {
    FinishedBy(s, env);
    hide Poll;
  }

  lemma {:induction false} Pow2Positive(n: nat)
    ensures Pow2(n) > 0
  {
    if n > 0 { Pow2Positive(n - 1); }
  }

  /**
   * The timer armed is one that takes time exactly when the order failed, or its certificate parses and has more than
   * the part of its validity left at which it would be renewed.
   */
  lemma FinishDelaysIff(s: Acme, env: Env)
    requires Sound(s) && Finishes(s, env)
    ensures var w := Poll(s, env).s.wait;
            (w.Some? && w.value.Waiting? && w.value.nanos > 0) <==>
            (env.ordered.Issued? ==>
               env.parse(env.ordered.pem).Some? && RenewIn(env.parse(env.ordered.pem).value, env.now) > 0)
  {
    FinishedBy(s, env);
    Pow2Positive(s.backoff);
    hide Poll, Pow2, RenewIn;
  }

  /** After an order has failed, a poll starts the next one exactly when it finds the timer run out. */
  lemma RestartsIff(s: Acme, env: Env, next: Env)
    requires Sound(s) && Finishes(s, env) && env.ordered == OrderFailed
    ensures Starts(Poll(s, env).s, next) <==> next.waitOver
  {
    FinishedBy(s, env);
    hide Poll, Finishes;
  }

  // ---------------------------------------------------------------------
  // Whole runs
  // ---------------------------------------------------------------------

  /** A state with its past: orders started and finished, and how many failed since the last that did not. */
  datatype Trace = Trace(s: Acme, started: nat, finished: nat, failures: nat)

  function After(tr: Trace, env: Env): Trace {
    var p := Poll(tr.s, env);
    Trace(p.s,
          tr.started + if Starts(tr.s, env) then 1 else 0,
          tr.finished + if Finishes(tr.s, env) then 1 else 0,
          if p.out == Ready(OrderError) then tr.failures + 1
          else if Finishes(tr.s, env) then 0 else tr.failures)
  }

  predicate TraceSound(tr: Trace) {
    && Sound(tr.s)
    && tr.started == tr.finished + (if tr.s.order.Some? then 1 else 0)
    && tr.s.backoff == Min(tr.failures, MAX_BACKOFF)
  }

  /** Orders and the backoff counter through one pass. */
  lemma PassCounts(s: Acme, env: Env)
    requires Sound(s)
    ensures var p := Pass(s, env);
            var finished := p.out in {Ready(OrderError), Ready(DeployedNewCert), Ready(NewCertParse)};
            && (finished <==> s.order.Some? && p.s.order == None)
            && (p.out == Again ==> s.order == None && p.s.order.Some? && p.s.backoff == s.backoff)
            && (!finished && p.out != Again ==> p.s.order == s.order && p.s.backoff == s.backoff)
            && (finished ==> p.s.backoff == if p.out == Ready(OrderError) then Min(s.backoff + 1, MAX_BACKOFF) else 0)
            && (p.out == Ready(OrderError) ==>
                  p.s.wait.Some? && p.s.wait.value.Waiting? && p.s.wait.value.nanos == Pow2(s.backoff) * NANOS)
  {
    hide Pow2, RenewIn;
  }

  /** Every poll keeps the trace sound, and the k-th failure in a row arms a timer of 2^min(k - 1, 16) seconds. */
  lemma AfterKeeps(tr: Trace, env: Env)
    requires TraceSound(tr)
    ensures TraceSound(After(tr, env))
    ensures Poll(tr.s, env).out == Ready(OrderError) ==>
              var k, w := After(tr, env).failures, After(tr, env).s.wait;
              k > 0 && w.Some? && w.value.Waiting? && w.value.nanos == Pow2(Min(k - 1, MAX_BACKOFF)) * NANOS
  {
    PollKeeps(tr.s, env);
    PassCounts(tr.s, env);
    PassKeeps(tr.s, env);
    if Pass(tr.s, env).out == Again {
      PassCounts(Pass(tr.s, env).s, env);
    }
    hide Pass, Pow2, Sound, NothingDropped;
  }

  /** The machine after a sequence of polls. */
  function Run(envs: seq<Env>): (tr: Trace)
    ensures TraceSound(tr)
  {
    if envs == [] then Trace(NEW, 0, 0, 0)
    else
      AfterKeeps(Run(envs[..|envs| - 1]), envs[|envs| - 1]);
      After(Run(envs[..|envs| - 1]), envs[|envs| - 1])
  }

  /** Once there is an account key, every later state has the same one, and so has every order. */
  lemma {:induction false} AccountKeyStays(envs: seq<Env>, more: seq<Env>)
    requires Run(envs).s.accountKey.Some?
    ensures Run(envs + more).s.accountKey == Run(envs).s.accountKey
    ensures var o := Run(envs + more).s.order;
            o.Some? ==> o.value.Ordering? && Some(o.value.key) == Run(envs).s.accountKey
    decreases |more|
  {
    hide Poll, Starts, Finishes;
    if more == [] {
      assert envs + more == envs;
    } else {
      var all, front := envs + more, more[..|more| - 1];
      assert all[..|all| - 1] == envs + front;
      AccountKeyStays(envs, front);
      PollKeeps(Run(envs + front).s, all[|all| - 1]);
    }
    assert TraceSound(Run(envs + more));
  }

  /** The clock does not run backwards, and no timer is reported early. */
  predicate Timely(envs: seq<Env>) {
    && (forall i, j :: 0 <= i < j < |envs| ==> envs[i].clock <= envs[j].clock)
    && (forall i :: 0 <= i < |envs| ==> NotEarly(Run(envs[..i]).s, envs[i]))
  }

  /** One poll more. */
  lemma RunStep(envs: seq<Env>, j: nat)
    requires 0 < j <= |envs|
    ensures Run(envs[..j]) == After(Run(envs[..j - 1]), envs[j - 1])
  {
    assert envs[..j][..j - 1] == envs[..j - 1];
    hide After;
  }

  lemma RunIsSound(envs: seq<Env>)
    ensures Sound(Run(envs).s)
  {
    assert TraceSound(Run(envs));
    hide Run;
  }

  /** The timer is the same, and no order has started or finished. */
  predicate StandStill(tr: Trace, tr': Trace) {
    && tr'.s.wait == tr.s.wait && tr'.started == tr.started
    && tr'.finished == tr.finished && tr'.failures == tr.failures
  }

  lemma WaitHoldsTrace(tr: Trace, env: Env)
    requires Sound(tr.s) && NotEarly(tr.s, env) && tr.s.wait.Some? && env.clock < Until(tr.s.wait.value)
    ensures StandStill(tr, After(tr, env))
  {
    WaitHolds(tr.s, env);
    hide Poll, Starts, Sound;
  }

  /** While a timer has not run out, no poll starts or finishes an order. */
  lemma {:induction false} BackoffHolds(envs: seq<Env>, i: nat, j: nat)
    requires Timely(envs) && i <= j <= |envs| && Run(envs[..i]).s.wait.Some?
    requires i < j ==> envs[j - 1].clock < Until(Run(envs[..i]).s.wait.value)
    ensures StandStill(Run(envs[..i]), Run(envs[..j]))
    decreases j
  {
    hide Run, NotEarly, After;
    if i < j {
      BackoffHolds(envs, i, j - 1);
      RunIsSound(envs[..j - 1]);
      WaitHoldsTrace(Run(envs[..j - 1]), envs[j - 1]);
      RunStep(envs, j);
    }
  }

  lemma TimerStep(tr: Trace, env: Env)
    requires Sound(tr.s) && NotEarly(tr.s, env) && tr.s.wait.Some?
    ensures After(tr, env).s.wait == tr.s.wait || Until(tr.s.wait.value) <= env.clock
    ensures Starts(tr.s, env) ==> Until(tr.s.wait.value) <= env.clock
  {
    PollKeeps(tr.s, env);
    hide Poll, Starts, Finishes;
  }

  /** A timer stays until the clock has reached the instant at which it runs out. */
  lemma {:induction false} TimerStays(envs: seq<Env>, i: nat, j: nat)
    requires Timely(envs) && i < j <= |envs| && Run(envs[..i]).s.wait.Some?
    ensures Run(envs[..j]).s.wait == Run(envs[..i]).s.wait || Until(Run(envs[..i]).s.wait.value) <= envs[j - 1].clock
    decreases j
  {
    hide Run, NotEarly, After;
    RunStep(envs, j);
    RunIsSound(envs[..j - 1]);
    if i < j - 1 { TimerStays(envs, i, j - 1); }
    if Run(envs[..j - 1]).s.wait == Run(envs[..i]).s.wait {
      TimerStep(Run(envs[..j - 1]), envs[j - 1]);
    }
  }

  /** Over every run, no order starts before a timer that was armed earlier has run out. */
  lemma NoStartBefore(envs: seq<Env>, i: nat, j: nat)
    requires Timely(envs) && i <= j < |envs| && Run(envs[..i]).s.wait.Some?
    requires Starts(Run(envs[..j]).s, envs[j])
    ensures Until(Run(envs[..i]).s.wait.value) <= envs[j].clock
  {
    hide Run, NotEarly, Starts;
    if i < j { TimerStays(envs, i, j); }
    if Run(envs[..j]).s.wait == Run(envs[..i]).s.wait {
      RunIsSound(envs[..j]);
      TimerStep(Run(envs[..j]), envs[j]);
    }
  }

  /**
   * Over every run: when the poll at `i` reports the k-th failure in a row, an order starting later starts no earlier
   * than 2^min(k - 1, 16) seconds after it.
   */
  lemma BackoffElapses(envs: seq<Env>, i: nat, j: nat)
    requires Timely(envs) && i < j < |envs|
    requires Poll(Run(envs[..i]).s, envs[i]).out == Ready(OrderError) && Starts(Run(envs[..j]).s, envs[j])
    ensures var k := Run(envs[..i + 1]).failures;
            k > 0 && envs[i].clock + Pow2(Min(k - 1, 16)) * NANOS <= envs[j].clock
  {
    hide Run, Poll, Pow2, Timely, Starts, After, TraceSound, Until;
    RunStep(envs, i + 1);
    ErrorArms(Run(envs[..i]), envs[i]);
    NoStartBefore(envs, i + 1, j);
  }

  lemma ErrorArms(tr: Trace, env: Env)
    requires TraceSound(tr) && Poll(tr.s, env).out == Ready(OrderError)
    ensures var tr' := After(tr, env);
            && tr'.failures > 0 && tr'.s.wait.Some? && tr'.s.wait.value.Waiting?
            && Until(tr'.s.wait.value) == env.clock + Pow2(Min(tr'.failures - 1, MAX_BACKOFF)) * NANOS
  {
    AfterKeeps(tr, env);
    FinishedBy(tr.s, env);
    hide Poll, Pow2, Sound;
  }

  /** Over every run: after a certificate is deployed, no order starts before its renewal is due. */
  lemma RenewalElapses(envs: seq<Env>, i: nat, j: nat)
    requires Timely(envs) && i < j < |envs|
    requires Poll(Run(envs[..i]).s, envs[i]).out == Ready(DeployedNewCert) && Starts(Run(envs[..j]).s, envs[j])
    ensures envs[i].ordered.Issued? && envs[i].parse(envs[i].ordered.pem).Some?
    ensures envs[i].clock + RenewIn(envs[i].parse(envs[i].ordered.pem).value, envs[i].now) <= envs[j].clock
  {
    var tr := Run(envs[..i]);
    assert TraceSound(tr);
    hide Run, Poll, RenewIn, Timely, Sound, Starts;
    RunStep(envs, i + 1);
    FinishedBy(tr.s, envs[i]);
    NoStartBefore(envs, i + 1, j);
  }

  /** A certificate that does not parse arms no timer: the next poll starts another order at once. */
  lemma BadCertificateArmsNoTimer(envs: seq<Env>, env: Env)
    requires Run(envs).s.order.Some? && Run(envs).s.early == None && Run(envs).s.wait == None
    requires env.ordered.Issued? && env.parse(env.ordered.pem) == None
    ensures var s' := After(Run(envs), env).s;
            s'.wait == None && s'.order == None && s'.early == None && forall next :: Starts(s', next)
  {
    assert TraceSound(Run(envs));
    hide Run;
  }

  /** The account key is in the cache, and every order is answered at once by a certificate that does not parse. */
  const BAD_CERTIFICATE := Env(None, false, Loaded(None), Loaded(Some(0)), Issued(0), _ => None, 0, 0, 0)

  function Times<T>(x: T, n: nat): (xs: seq<T>)
    ensures |xs| == n && forall i :: 0 <= i < n ==> xs[i] == x
  {
    if n == 0 then [] else Times(x, n - 1) + [x]
  }

  predicate OrdersAtOnce(s: Acme) {
    s.early == None && s.wait == None && s.order == None && (!s.loadAccount ==> s.accountKey.Some? && !s.loadCert)
  }

  /** One poll places an order, gets a certificate that does not parse, and is as ready for the next. */
  lemma BadCertificateAgain(tr: Trace)
    requires OrdersAtOnce(tr.s)
    ensures var tr' := After(tr, BAD_CERTIFICATE);
            OrdersAtOnce(tr'.s) && tr'.started == tr.started + 1 && tr'.finished == tr.finished + 1
  {
    var env := BAD_CERTIFICATE;
    var p := Pass(tr.s, env);
    assert p.out == Again && p.s.order.Some? && p.s.early == None && p.s.wait == None;
    assert !p.s.loadCert && !p.s.loadAccount;
    assert Pass(p.s, env).out == Ready(NewCertParse);
  }

  /** No timer is ever reported, and no time passes. */
  lemma StandstillIsTimely(envs: seq<Env>)
    requires forall i :: 0 <= i < |envs| ==> !envs[i].waitOver && envs[i].clock == 0
    ensures Timely(envs)
  {
    hide Run;
  }

  /** With such answers any number of orders is placed at one instant, the timers being reported as they should. */
  lemma {:induction false} BadCertificatesOrderWithoutPause(n: nat)
    ensures var envs := Times(BAD_CERTIFICATE, n);
            Run(envs).started == Run(envs).finished == n && OrdersAtOnce(Run(envs).s) && Timely(envs)
    decreases n
  {
    var envs := Times(BAD_CERTIFICATE, n);
    StandstillIsTimely(envs);
    if n > 0 {
      assert envs[..n - 1] == Times(BAD_CERTIFICATE, n - 1) && envs[..n] == envs;
      hide Run, After, Times, OrdersAtOnce, Timely;
      BadCertificatesOrderWithoutPause(n - 1);
      BadCertificateAgain(Run(envs[..n - 1]));
      RunStep(envs, n);
    }
  }

  // ---------------------------------------------------------------------
  // What the machine reports
  // ---------------------------------------------------------------------

  /**
   * Each report says what has happened, a load that has answered is over, and the certificate shown changes with the
   * reports of a deployment only.
   */
  predicate ReportsTrue(s: Acme, env: Env, s': Acme, out: Out) {
    match out
    case Pending => s'.cert == s.cert
    case Again => s'.cert == s.cert
    case Ready(event) =>
      match event
      case DeployedCachedCert =>
        env.certLoad.Loaded? && env.certLoad.found.Some? && s'.cert == env.certLoad.found && s'.wait.Some? &&
        !s'.loadCert
      case DeployedNewCert =>
        env.ordered.Issued? && s'.cert == Some(env.ordered.pem) && s'.wait.Some? && s'.early.Some?
      case Stored => env.stored == Some(true) && s'.early == None && s'.cert == s.cert
      case StoreFailed => env.stored == Some(false) && s'.early == None && s'.cert == s.cert
      case CertCacheLoadFailed => env.certLoad == Failed && s'.cert == s.cert && !s'.loadCert
      case AccountCacheLoadFailed => env.accountLoad == Failed && s'.cert == s.cert && !s'.loadAccount
      case CachedCertParse =>
        env.certLoad.Loaded? && env.certLoad.found.Some? && env.parse(env.certLoad.found.value) == None &&
        s'.cert == s.cert && !s'.loadCert
      case NewCertParse => env.ordered.Issued? && env.parse(env.ordered.pem) == None && s'.cert == s.cert
      case OrderError => env.ordered == OrderFailed && s'.cert == s.cert
  }

  lemma PartsReportTrue(s: Acme, env: Env)
    ensures ReportsTrue(s, env, CertPart(s, env).s, CertPart(s, env).out)
  {
    hide Pow2, RenewIn;
  }

  lemma PassReportsTrue(s: Acme, env: Env)
    ensures ReportsTrue(s, env, Pass(s, env).s, Pass(s, env).out)
  {
    hide CertPart;
    PartsReportTrue(s, env);
    PartsReportTrue(s.(wait := None), env);
  }

  lemma PollReportsTrue(s: Acme, env: Env)
    ensures ReportsTrue(s, env, Poll(s, env).s, Poll(s, env).out)
  {
    PassReportsTrue(s, env);
    PassReportsTrue(Pass(s, env).s, env);
    hide Pass;
  }

  /** Where the account key comes from: the cache if it has one; otherwise it is made, and is being stored. */
  predicate KeyComesFrom(s: Acme, env: Env, s': Acme) {
    s.accountKey == None && s'.accountKey.Some? ==>
      if s.loadAccount && env.accountLoad.Loaded? && env.accountLoad.found.Some?
      then s'.accountKey == env.accountLoad.found
      else s'.accountKey == Some(env.newKey) && s'.early.Some? && s'.early.value.Storing?
  }

  lemma PassKeyComesFrom(s: Acme, env: Env)
    ensures KeyComesFrom(s, env, Pass(s, env).s)
  {
    hide Pow2, RenewIn;
  }
}
