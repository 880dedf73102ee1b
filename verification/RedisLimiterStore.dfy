/**
 * Creation of the Redis limiter for a connection URL: a look at the known failures, a look at the
 * known limiters, a lock per URL, a second look under the lock, then one connection attempt. Any
 * number of callers run this at once; each access to shared state is one step.
 */
module RedisLimiterStore {
  import opened Common

  type Url = nat      // URLs are only ever compared
  type Limiter = nat

  datatype Outcome = Ok(limiter: Limiter) | ConnectionTimeout | LockError | ConnectionFailed

  /** Where a caller is in `get_redis_limiter`. */
  datatype At =
    | CheckFailed
    | CheckLimiters
    | AwaitLock
    | Recheck
    | Connecting
    | Connected(limiter: Limiter)
    | Refused
    | Returning(result: Outcome)      // still holding the URL's lock
    | Returned(outcome: Outcome)

  /** `late`: the URL was already known to fail when the call started. */
  datatype Call = Call(url: Url, late: bool, at: At)

  datatype Store = Store(
    limiters: map<Url, Limiter>,
    failed: set<Url>,
    locked: map<Url, nat>,        // which caller holds the lock of a URL
    calls: map<nat, Call>,
    connections: seq<Url>)        // URLs for which a limiter was created

  const START := Store(map[], {}, map[], map[], [])

  datatype Step =
    | Start(c: nat, url: Url)
    | Go(c: nat)
    | LockTimesOut(c: nat)
    | ConnectSucceeds(c: nat, limiter: Limiter)
    | ConnectFails(c: nat)

  predicate Possible(s: Store, step: Step) {
    if step.Start? then step.c !in s.calls
    else
      step.c in s.calls &&
      var call := s.calls[step.c];
      match step
      case Start(_, _) => true
      case Go(c) =>
        && !call.at.Connecting? && !call.at.Returned?
        && (call.at.AwaitLock? ==> call.url !in s.locked)
      case LockTimesOut(c) => call.at.AwaitLock?
      case ConnectSucceeds(c, _) => call.at.Connecting?
      case ConnectFails(c) => call.at.Connecting?
  }

  function Move(s: Store, c: nat, at: At): Store
    requires c in s.calls
  {
    s.(calls := s.calls[c := s.calls[c].(at := at)])
  }

  function GoOn(s: Store, c: nat): Store
    requires Possible(s, Go(c))
  {
    var url := s.calls[c].url;
    match s.calls[c].at
    case CheckFailed => Move(s, c, if url in s.failed then Returned(ConnectionTimeout) else CheckLimiters)
    case CheckLimiters => Move(s, c, if url in s.limiters then Returned(Ok(s.limiters[url])) else AwaitLock)
    case AwaitLock => Move(s.(locked := s.locked[url := c]), c, Recheck)
    case Recheck => Move(s, c, if url in s.limiters then Returning(Ok(s.limiters[url])) else Connecting)
    case Connected(l) =>
      Move(s.(limiters := s.limiters[url := l], connections := s.connections + [url]), c, Returning(Ok(l)))
    case Refused => Move(s.(failed := s.failed + {url}), c, Returning(ConnectionFailed))
    case Returning(r) => Move(s.(locked := s.locked - {url}), c, Returned(r))
    case _ => s
  }

  function After(s: Store, step: Step): Store
    requires Possible(s, step)
  {
    match step
    case Start(c, url) => s.(calls := s.calls[c := Call(url, url in s.failed, CheckFailed)])
    case Go(c) => GoOn(s, c)
    case LockTimesOut(c) => Move(s, c, Returned(LockError))
    case ConnectSucceeds(c, l) => Move(s, c, Connected(l))
    case ConnectFails(c) => Move(s, c, Refused)
  }

  // ---------------------------------------------------------------------
  // Invariant
  // ---------------------------------------------------------------------

  predicate Holding(at: At) {
    at.Recheck? || at.Connecting? || at.Connected? || at.Refused? || at.Returning?
  }

  predicate CallSound(s: Store, c: nat)
    requires c in s.calls
  {
    var call := s.calls[c];
    var url, at := call.url, call.at;
    && (Holding(at) ==> url in s.locked && s.locked[url] == c)
    && (at.Connecting? || at.Connected? ==> url !in s.limiters)
    && (at.Returning? && at.result.Ok? ==> url in s.limiters && s.limiters[url] == at.result.limiter)
    && (at.Returned? && at.outcome.Ok? ==> url in s.limiters && s.limiters[url] == at.outcome.limiter)
    && (call.late ==> url in s.failed && (at.CheckFailed? || at == Returned(ConnectionTimeout)))
  }

  ghost predicate Sound(s: Store) {
    && (forall c :: c in s.calls ==> CallSound(s, c))
    && (forall i :: 0 <= i < |s.connections| ==> s.connections[i] in s.limiters)
    && (forall i, j :: 0 <= i < j < |s.connections| ==> s.connections[i] != s.connections[j])
  }

  /** The caller that moves. */
  lemma MoverKept(s: Store, step: Step)
    requires Possible(s, step) && (step.c in s.calls ==> CallSound(s, step.c))
    ensures step.c in After(s, step).calls && CallSound(After(s, step), step.c)
  {
  }

  /** The callers that do not. */
  lemma BystanderKept(s: Store, step: Step, c: nat)
    requires Possible(s, step) && c in s.calls && c != step.c && CallSound(s, c)
    requires step.c in s.calls ==> CallSound(s, step.c)
    ensures c in After(s, step).calls && CallSound(After(s, step), c)
  {
  }

  lemma ConnectionsKept(s: Store, step: Step)
    requires Sound(s) && Possible(s, step)
    ensures var s' := After(s, step);
            && (forall i :: 0 <= i < |s'.connections| ==> s'.connections[i] in s'.limiters)
            && (forall i, j :: 0 <= i < j < |s'.connections| ==> s'.connections[i] != s'.connections[j])
    ensures forall url :: url in s.limiters ==>
              url in After(s, step).limiters && After(s, step).limiters[url] == s.limiters[url]
  {
    if !step.Start? { assert CallSound(s, step.c); }
  }

  /** Every step keeps the callers consistent, and a limiter once stored stays. */
  lemma AfterKeeps(s: Store, step: Step)
    requires Sound(s) && Possible(s, step)
    ensures Sound(After(s, step))
    ensures forall url :: url in s.limiters ==>
              url in After(s, step).limiters && After(s, step).limiters[url] == s.limiters[url]
  {
    ConnectionsKept(s, step);
    assert After(s, step).calls.Keys <= s.calls.Keys + {step.c};
    hide CallSound, After, Possible;
    forall c | c in After(s, step).calls
      ensures CallSound(After(s, step), c)
    {
      if c == step.c { MoverKept(s, step); } else { BystanderKept(s, step, c); }
    }
  }

  /** The state after a run, if each of its steps is possible when it comes. */
  ghost function Run(steps: seq<Step>): (r: Option<Store>)
    ensures r.Some? ==> Sound(r.value)
  {
    if steps == [] then Some(START)
    else
      match Run(steps[..|steps| - 1])
      case None => None
      case Some(s) =>
        if Possible(s, steps[|steps| - 1]) then
          AfterKeeps(s, steps[|steps| - 1]);
          Some(After(s, steps[|steps| - 1]))
        else None
  }

  /**
   * In every interleaving: all successful calls for a URL got the same limiter, at most one caller is
   * connecting to a URL, a limiter is created at most once per URL, and a call started after a failure
   * was recorded never gets as far as the lock.
   */
  lemma EveryInterleaving(steps: seq<Step>, c: nat, d: nat)
    requires Run(steps).Some?
    requires var s := Run(steps).value; c in s.calls && d in s.calls && s.calls[c].url == s.calls[d].url
    ensures var a, b := Run(steps).value.calls[c].at, Run(steps).value.calls[d].at;
            && (a.Returned? && b.Returned? && a.outcome.Ok? && b.outcome.Ok? ==> a == b)
            && ((a.Connecting? || a.Connected? || a.Refused?) && (b.Connecting? || b.Connected? || b.Refused?) ==>
                  c == d)
    ensures var call := Run(steps).value.calls[c];
            call.late && call.at.Returned? ==> call.at.outcome == ConnectionTimeout
    ensures var log := Run(steps).value.connections;
            forall i, j :: 0 <= i < j < |log| ==> log[i] != log[j]
  {
    var s := Run(steps).value;
    assert Sound(s);
    assert CallSound(s, c) && CallSound(s, d);
  }

  // ---------------------------------------------------------------------
  // Where limiters and failures come from
  // ---------------------------------------------------------------------

  /** A caller for the URL made this limiter by connecting. */
  ghost predicate MadeBy(steps: seq<Step>, s: Store, url: Url, limiter: Limiter) {
    exists a :: ConnectSucceeds(a, limiter) in steps && a in s.calls && s.calls[a].url == url
  }

  predicate Reported(at: At) {
    at == Returning(ConnectionFailed) || at == Returned(ConnectionFailed)
  }

  /** Limiters stored or about to be stored were made for their URL, and failures reported are noted. */
  ghost predicate Earned(steps: seq<Step>, s: Store) {
    && (forall url :: url in s.limiters ==> MadeBy(steps, s, url, s.limiters[url]))
    && (forall c :: c in s.calls && s.calls[c].at.Connected? ==>
          ConnectSucceeds(c, s.calls[c].at.limiter) in steps)
    && (forall c :: c in s.calls && Reported(s.calls[c].at) ==> s.calls[c].url in s.failed)
  }

  lemma CallsKeepUrls(s: Store, step: Step)
    requires Possible(s, step)
    ensures var s' := After(s, step);
            && s.failed <= s'.failed
            && (forall c :: c in s.calls ==> c in s'.calls && s'.calls[c].url == s.calls[c].url)
            && (forall c :: c in s.calls ==> s'.calls[c].late == s.calls[c].late)
            && (forall c :: c in s'.calls && c !in s.calls ==> s'.calls[c].late == (s'.calls[c].url in s.failed))
            && (forall c :: c in s.calls && c != step.c ==> s'.calls[c] == s.calls[c])
  {
  }

  lemma MadeByStays(steps: seq<Step>, s: Store, step: Step, url: Url, limiter: Limiter)
    requires Possible(s, step) && MadeBy(steps, s, url, limiter)
    ensures MadeBy(steps + [step], After(s, step), url, limiter)
  {
    CallsKeepUrls(s, step);
    hide After;
  }

  lemma StoredIsMade(steps: seq<Step>, s: Store, step: Step, url: Url)
    requires Possible(s, step) && Earned(steps, s) && url in After(s, step).limiters
    requires url in s.limiters ==> After(s, step).limiters[url] != s.limiters[url]
    ensures MadeBy(steps + [step], After(s, step), url, After(s, step).limiters[url])
  {
    var l := s.calls[step.c].at.limiter;
    assert ConnectSucceeds(step.c, l) in steps + [step] && After(s, step).calls[step.c].url == url;
  }

  lemma EarnedStep(steps: seq<Step>, s: Store, step: Step)
    requires Possible(s, step) && Earned(steps, s)
    ensures Earned(steps + [step], After(s, step))
  {
    var s', all := After(s, step), steps + [step];
    hide MadeBy;
    forall url | url in s'.limiters
      ensures MadeBy(all, s', url, s'.limiters[url])
    {
      if url in s.limiters && s'.limiters[url] == s.limiters[url] {
        MadeByStays(steps, s, step, url, s.limiters[url]);
      } else {
        StoredIsMade(steps, s, step, url);
      }
    }
  }

  lemma {:induction false} RunEarned(steps: seq<Step>)
    requires Run(steps).Some?
    ensures Earned(steps, Run(steps).value)
    decreases |steps|
  {
    if steps != [] {
      var front, last := steps[..|steps| - 1], steps[|steps| - 1];
      assert front + [last] == steps;
      hide Earned, After, Sound, Possible;
      RunEarned(front);
      EarnedStep(front, Run(front).value, last);
    }
  }

  /** Over every interleaving, a successful call returns a limiter that a caller for the same URL made by connecting. */
  lemma LimiterIsForTheUrl(steps: seq<Step>, c: nat)
    requires Run(steps).Some? && c in Run(steps).value.calls && Run(steps).value.calls[c].at.Returned?
    requires Run(steps).value.calls[c].at.outcome.Ok?
    ensures var s := Run(steps).value; MadeBy(steps, s, s.calls[c].url, s.calls[c].at.outcome.limiter)
  {
    RunEarned(steps);
    assert CallSound(Run(steps).value, c);
    hide Run, MadeBy;
  }

  /** The call started when its URL was known to fail, or not at all yet. */
  predicate LateFor(s: Store, c: nat, url: Url) {
    url in s.failed && (c in s.calls && s.calls[c].url == url ==> s.calls[c].late)
  }

  lemma {:induction false} StaysLate(steps: seq<Step>, more: seq<Step>, c: nat, url: Url)
    requires Run(steps).Some? && Run(steps + more).Some? && LateFor(Run(steps).value, c, url)
    ensures LateFor(Run(steps + more).value, c, url)
    decreases |more|
  {
    if more == [] {
      assert steps + more == steps;
    } else {
      var all, front := steps + more, more[..|more| - 1];
      assert all[..|all| - 1] == steps + front;
      hide After, Sound, Possible;
      StaysLate(steps, front, c, url);
      CallsKeepUrls(Run(steps + front).value, all[|all| - 1]);
    }
  }

  /**
   * Over every interleaving: once a caller has reported that it could not connect to a URL, every call for that URL
   * that starts later fails.
   */
  lemma FailureIsRemembered(steps: seq<Step>, more: seq<Step>, a: nat, c: nat)
    requires Run(steps).Some? && Run(steps + more).Some?
    requires var s := Run(steps).value; a in s.calls && s.calls[a].at == Returned(ConnectionFailed) && c !in s.calls
    requires var s' := Run(steps + more).value;
             c in s'.calls && s'.calls[c].url == Run(steps).value.calls[a].url && s'.calls[c].at.Returned?
    ensures Run(steps + more).value.calls[c].at.outcome == ConnectionTimeout
  {
    RunEarned(steps);
    StaysLate(steps, more, c, Run(steps).value.calls[a].url);
    assert CallSound(Run(steps + more).value, c);
    hide Run, Earned;
  }
}
