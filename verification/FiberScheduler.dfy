/**
 * The Ruby half of the fiber scheduler: resume tokens for blocked fibers and the
 * double-buffered list of fibers to unblock.
 *
 * Fibers run one at a time; `unblock` may come from any thread at any moment. A
 * fiber inside `block` is parked between the step `Block` (up to `Fiber.yield`)
 * and the clean-up of `Leave` (the `ensure` part).
 */
module FiberScheduler {
  import opened Common
  import IoScheduler
  import NativeScheduler
  import opened Timers

  type Fiber = nat

  /** Where the scheduler loop is: between ticks, or at position `pos` of the batch it took. */
  datatype Phase = Idle | Handing(pos: nat)

  /**
   * `frames` holds the local variable `token` of each fiber parked in `block`;
   * `active` and `inactive` are the two unblock lists, the one written to first.
   */
  datatype Sched = Sched(
    lastToken: nat,
    joinWaiters: set<Fiber>,
    tokenMap: map<Fiber, nat>,
    resumeTokens: map<nat, Fiber>,
    frames: map<Fiber, nat>,
    active: seq<Fiber>,
    inactive: seq<Fiber>,
    phase: Phase)

  const START := Sched(0, {}, map[], map[], map[], [], [], Idle)

  // ---------------------------------------------------------------------
  // Operations
  // ---------------------------------------------------------------------

  /** `block` up to its yield. The counter that issues tokens is shared with other schedulers. */
  function Block(s: Sched, f: Fiber, token: nat): Sched {
    s.(lastToken := token,
       joinWaiters := s.joinWaiters + {f},
       resumeTokens := s.resumeTokens[token := f],
       tokenMap := s.tokenMap[f := token],
       frames := s.frames[f := token])
  }

  /** A parked fiber runs on, for whatever reason: the clean-up of `block`. */
  function Leave(s: Sched, f: Fiber): Sched
    requires f in s.frames
  {
    s.(resumeTokens := s.resumeTokens - {s.frames[f]},
       tokenMap := s.tokenMap - {f},
       joinWaiters := s.joinWaiters - {f},
       frames := s.frames - {f})
  }

  /** The fiber resumed for a token, if any. */
  function Wakes(s: Sched, token: nat): Option<Fiber> {
    if token in s.resumeTokens then Some(s.resumeTokens[token]) else None
  }

  /** `resume_fiber`, with or without readiness. A resumed fiber first leaves `block`. */
  function Resume(s: Sched, token: nat): Sched {
    match Wakes(s, token)
    case None => s
    case Some(f) =>
      var s' := s.(resumeTokens := s.resumeTokens - {token});
      if f in s'.frames then Leave(s', f) else s'
  }

  /** `resume_blocked`: through the fiber's token, or directly if it is not parked. */
  function ResumeBlocked(s: Sched, f: Fiber): Sched {
    if f in s.tokenMap then Resume(s, s.tokenMap[f]) else s
  }

  function Unblock(s: Sched, f: Fiber): Sched {
    s.(active := s.active + [f])
  }

  function SwitchBatch(s: Sched): Sched {
    s.(active := s.inactive, inactive := s.active, phase := Handing(0))
  }

  /** Hand the next fiber of the batch to `resume_blocked`. */
  function HandNext(s: Sched): Sched
    requires s.phase.Handing? && s.phase.pos < |s.inactive|
  {
    ResumeBlocked(s, s.inactive[s.phase.pos]).(phase := Handing(s.phase.pos + 1))
  }

  function ClearBatch(s: Sched): Sched {
    s.(inactive := [], phase := Idle)
  }

  /** There is work for the loop, in this half or in the native one. */
  predicate Work(s: Sched, timers: multiset<Timer>, io: IoScheduler.Io) {
    s.active != [] || s.joinWaiters != {} || IoScheduler.PendingIo(timers, io)
  }

  // ---------------------------------------------------------------------
  // Whole runs
  // ---------------------------------------------------------------------

  /**
   * `Enter`: the running fiber blocks. `Interrupted`: a parked fiber is made to run on by
   * something other than its token. `Token`: an event or a timer names a token.
   */
  datatype Step =
    | Enter(f: Fiber, token: nat)
    | Interrupted(f: Fiber)
    | Token(token: nat)
    | CallUnblock(f: Fiber)
    | Switch
    | Hand
    | Clear

  /** A state with its past: calls of `unblock`, fibers handed on, waits ended, tokens that woke a fiber. */
  datatype Trace = Trace(
    s: Sched, unblocks: seq<Fiber>, handed: seq<Fiber>, ended: set<nat>, woken: seq<nat>)

  predicate Possible(s: Sched, step: Step) {
    match step
    case Enter(f, token) => f !in s.frames && token > s.lastToken
    case Interrupted(f) => f in s.frames
    case Token(_) => true
    case CallUnblock(_) => true
    case Switch => s.phase.Idle?
    case Hand => s.phase.Handing? && s.phase.pos < |s.inactive|
    case Clear => s.phase.Handing? && s.phase.pos == |s.inactive|
  }

  function Woken(s: Sched, token: nat): seq<nat> {
    if Wakes(s, token).Some? then [token] else []
  }

  /** The token through which handing `f` on resumes it, if it does. */
  function HandWoken(s: Sched, f: Fiber): seq<nat> {
    if f in s.tokenMap then Woken(s, s.tokenMap[f]) else []
  }

  function Set(ts: seq<nat>): set<nat> {
    set t | t in ts
  }

  function After(tr: Trace, step: Step): Trace
    requires Possible(tr.s, step)
  {
    var s := tr.s;
    match step
    case Enter(f, token) => tr.(s := Block(s, f, token))
    case Interrupted(f) => tr.(s := Leave(s, f), ended := tr.ended + {s.frames[f]})
    case Token(t) =>
      tr.(s := Resume(s, t), ended := tr.ended + Set(Woken(s, t)), woken := tr.woken + Woken(s, t))
    case CallUnblock(f) => tr.(s := Unblock(s, f), unblocks := tr.unblocks + [f])
    case Switch => tr.(s := SwitchBatch(s))
    case Hand =>
      var f := s.inactive[s.phase.pos];
      tr.(s := HandNext(s), handed := tr.handed + [f],
          ended := tr.ended + Set(HandWoken(s, f)), woken := tr.woken + HandWoken(s, f))
    case Clear => tr.(s := ClearBatch(s))
  }

  /** The two maps are inverses, over exactly the parked fibers. */
  ghost predicate Inverse(s: Sched) {
    && s.tokenMap == s.frames
    && s.joinWaiters == s.frames.Keys
    && (forall f :: f in s.tokenMap ==> s.tokenMap[f] in s.resumeTokens && s.resumeTokens[s.tokenMap[f]] == f)
    && (forall t :: t in s.resumeTokens ==> s.resumeTokens[t] in s.tokenMap && s.tokenMap[s.resumeTokens[t]] == t)
  }

  /** The part of the current batch not handed on yet. */
  function Remaining(s: Sched): seq<Fiber>
    requires s.phase.Handing? ==> s.phase.pos <= |s.inactive|
  {
    match s.phase
    case Idle => s.inactive
    case Handing(pos) => s.inactive[pos..]
  }

  ghost predicate TokensSpent(tr: Trace) {
    && (forall t :: t in tr.s.resumeTokens ==> 0 < t <= tr.s.lastToken && t !in tr.ended)
    && (forall t :: t in tr.ended ==> 0 < t <= tr.s.lastToken)
    && (forall i :: 0 <= i < |tr.woken| ==> tr.woken[i] in tr.ended)
    && (forall i, j :: 0 <= i < j < |tr.woken| ==> tr.woken[i] != tr.woken[j])
  }

  ghost predicate UnblocksInOrder(tr: Trace) {
    && (tr.s.phase.Handing? ==> tr.s.phase.pos <= |tr.s.inactive|)
    && (tr.s.phase.Idle? ==> tr.s.inactive == [])
    && tr.unblocks == tr.handed + Remaining(tr.s) + tr.s.active
  }

  ghost predicate Sound(tr: Trace) {
    Inverse(tr.s) && TokensSpent(tr) && UnblocksInOrder(tr)
  }

  lemma ResumeKeeps(tr: Trace, token: nat, s': Sched, tr': Trace)
    requires Inverse(tr.s) && TokensSpent(tr)
    requires s' == Resume(tr.s, token)
    requires tr'.s.(active := s'.active, inactive := s'.inactive, phase := s'.phase) == s'
    requires tr'.ended == tr.ended + Set(Woken(tr.s, token)) && tr'.woken == tr.woken + Woken(tr.s, token)
    ensures Inverse(tr'.s) && TokensSpent(tr')
  {
  }

  lemma EnterKeeps(tr: Trace, f: Fiber, token: nat)
    requires Inverse(tr.s) && TokensSpent(tr) && f !in tr.s.frames && token > tr.s.lastToken
    ensures var tr' := tr.(s := Block(tr.s, f, token)); Inverse(tr'.s) && TokensSpent(tr')
  {
    var s' := Block(tr.s, f, token);
    assert s'.frames.Keys == tr.s.frames.Keys + {f};
  }

  lemma LeaveKeeps(tr: Trace, f: Fiber)
    requires Inverse(tr.s) && TokensSpent(tr) && f in tr.s.frames
    ensures var tr' := tr.(s := Leave(tr.s, f), ended := tr.ended + {tr.s.frames[f]});
            Inverse(tr'.s) && TokensSpent(tr')
  {
  }

  /** Every step keeps the maps inverse, tokens spent once, and unblocked fibers in order. */
  lemma AfterKeeps(tr: Trace, step: Step)
    requires Sound(tr) && Possible(tr.s, step)
    ensures Sound(After(tr, step))
  {
    var s, tr' := tr.s, After(tr, step);
    if step.Enter? || step.Interrupted? || step.Token? {
      assert UnblocksInOrder(tr');
    }
    hide Inverse, TokensSpent;
    match step
    case Enter(f, token) => EnterKeeps(tr, f, token);
    case Interrupted(f) => LeaveKeeps(tr, f);
    case Token(t) => ResumeKeeps(tr, t, Resume(s, t), tr');
    case CallUnblock(f) =>
      ConcatAssoc(tr.handed + Remaining(s), s.active, [f]);
      SameWaits(tr, tr');
    case Switch =>
      assert Remaining(tr'.s) == s.active;
      SameWaits(tr, tr');
    case Hand =>
      var f := s.inactive[s.phase.pos];
      if f in s.tokenMap {
        ResumeKeeps(tr, s.tokenMap[f], Resume(s, s.tokenMap[f]), tr');
      } else {
        SameWaits(tr, tr');
      }
      assert Remaining(s) == [f] + Remaining(tr'.s);
    case Clear => SameWaits(tr, tr');
  }

  lemma SameWaits(tr: Trace, tr': Trace)
    requires Inverse(tr.s) && TokensSpent(tr)
    requires tr'.s == tr.s.(active := tr'.s.active, inactive := tr'.s.inactive, phase := tr'.s.phase)
    requires tr'.ended == tr.ended && tr'.woken == tr.woken
    ensures Inverse(tr'.s) && TokensSpent(tr')
  {
  }

  /** The state after a run, if each of its steps is possible when it comes. */
  ghost function Run(steps: seq<Step>): (r: Option<Trace>)
    ensures r.Some? ==> Sound(r.value)
  {
    if steps == [] then Some(Trace(START, [], [], {}, []))
    else
      match Run(steps[..|steps| - 1])
      case None => None
      case Some(tr) =>
        if Possible(tr.s, steps[|steps| - 1]) then
          AfterKeeps(tr, steps[|steps| - 1]);
          Some(After(tr, steps[|steps| - 1]))
        else None
  }

  lemma EndedGrows(tr: Trace, step: Step)
    requires Possible(tr.s, step)
    ensures tr.ended <= After(tr, step).ended
  {
  }

  lemma {:induction false} EndedStays(steps: seq<Step>, more: seq<Step>, token: nat)
    requires Run(steps).Some? && Run(steps + more).Some?
    requires token in Run(steps).value.ended
    ensures token in Run(steps + more).value.ended
    decreases |more|
  {
    hide Sound, After, Possible;
    if more == [] {
      assert steps + more == steps;
    } else {
      var all, front := steps + more, more[..|more| - 1];
      assert all[..|all| - 1] == steps + front;
      EndedStays(steps, front, token);
      EndedGrows(Run(steps + front).value, all[|all| - 1]);
    }
  }

  /** However a run goes on, the token of a wait that is over wakes nobody again. */
  lemma StaleTokenIsHarmless(steps: seq<Step>, more: seq<Step>, token: nat)
    requires Run(steps).Some? && Run(steps + more).Some?
    requires token in Run(steps).value.ended
    ensures var s := Run(steps + more).value.s; Wakes(s, token) == None && Resume(s, token) == s
  {
    EndedStays(steps, more, token);
  }

  /**
   * When the scheduler loop stops, after any run of this half and any run of the native half, nothing is left: no
   * fiber parked or waiting to be unblocked, no timer, no waiter in the map or in a queue.
   */
  lemma LoopStopsClean(
      steps: seq<Step>, timers: multiset<Timer>, overwrites: bool, ops: seq<IoScheduler.Op>)
    requires Run(steps).Some? && IoScheduler.Registers(overwrites, ops)
    requires Run(steps).value.s.phase.Idle?
    requires !Work(Run(steps).value.s, timers, IoScheduler.Run(overwrites, ops).io)
    ensures var tr := Run(steps).value;
            && tr.s.active == tr.s.inactive == [] && tr.handed == tr.unblocks
            && tr.s.frames == map[] && tr.s.resumeTokens == map[]
    ensures var io := IoScheduler.Run(overwrites, ops).io;
            timers == multiset{} && io.waiters == map[] && io.queues == map[]
  {
    IoScheduler.QueueAlwaysThere(overwrites, ops, 0);
    IoScheduler.NothingPendingNothingQueued(timers, IoScheduler.Run(overwrites, ops).io);
    var tr := Run(steps).value;
    assert tr.s.tokenMap.Keys == {};
    assert tr.s.resumeTokens.Keys == {};
  }

  /** Between ticks of any run, there is work exactly while something is left. */
  lemma WorkIff(steps: seq<Step>, timers: multiset<Timer>, io: IoScheduler.Io)
    requires Run(steps).Some? && Run(steps).value.s.phase.Idle?
    ensures var tr := Run(steps).value;
            Work(tr.s, timers, io) <==>
            tr.handed != tr.unblocks || tr.s.frames != map[] || timers != multiset{} || io.waiters != map[]
  {
    assert Sound(Run(steps).value);
    hide Run, Sound, Work;
    WorkIffLeft(Run(steps).value, timers, io);
  }

  lemma WorkIffLeft(tr: Trace, timers: multiset<Timer>, io: IoScheduler.Io)
    requires Sound(tr) && tr.s.phase.Idle?
    ensures Work(tr.s, timers, io) <==>
            tr.handed != tr.unblocks || tr.s.frames != map[] || timers != multiset{} || io.waiters != map[]
  {
    assert tr.s.joinWaiters == tr.s.frames.Keys && tr.unblocks == tr.handed + Remaining(tr.s) + tr.s.active;
    assert Remaining(tr.s) == [];
    hide Inverse, TokensSpent, UnblocksInOrder;
    assert |tr.unblocks| == |tr.handed| + |tr.s.active|;
    assert tr.s.active == [] ==> tr.handed + [] + [] == tr.handed;
    assert tr.s.frames == map[] <==> tr.s.frames.Keys == {};
  }

  // ---------------------------------------------------------------------
  // The scheduler object
  // ---------------------------------------------------------------------

  class Scheduler {
    var lastToken: nat
    var joinWaiters: set<Fiber>
    var tokenMap: map<Fiber, nat>
    var resumeTokens: map<nat, Fiber>
    var unblocked: seq<seq<Fiber>>
    var unblockIdx: nat
    ghost var frames: map<Fiber, nat>
    ghost var phase: Phase

    constructor ()
      ensures TwoLists() && State() == START
    {
      lastToken, joinWaiters, tokenMap, resumeTokens := 0, {}, map[], map[];
      unblocked, unblockIdx := [[], []], 0;
      frames, phase := map[], Idle;
    }

    predicate TwoLists()
      reads this
    {
      |unblocked| == 2 && unblockIdx < 2
    }

    ghost function State(): Sched
      reads this
      requires TwoLists()
    {
      Sched(lastToken, joinWaiters, tokenMap, resumeTokens, frames,
            unblocked[unblockIdx], unblocked[1 - unblockIdx], phase)
    }

    method ResumeToken() returns (token: nat)
      requires TwoLists()
      modifies this`lastToken
      ensures token == old(lastToken) + 1 && State() == old(State()).(lastToken := token)
    {
      lastToken := lastToken + 1;
      token := lastToken;
    }

    method BlockUntilYield(f: Fiber, token: nat)
      requires TwoLists()
      modifies this`lastToken, this`joinWaiters, this`tokenMap, this`resumeTokens, this`frames
      ensures TwoLists() && State() == Block(old(State()), f, token)
    {
      lastToken := token;
      joinWaiters := joinWaiters + {f};
      resumeTokens := resumeTokens[token := f];
      tokenMap := tokenMap[f := token];
      frames := frames[f := token];
    }

    method LeaveBlock(f: Fiber, token: nat)
      requires TwoLists() && f in frames && frames[f] == token
      modifies this`joinWaiters, this`tokenMap, this`resumeTokens, this`frames
      ensures TwoLists() && State() == Leave(old(State()), f)
    {
      resumeTokens := resumeTokens - {token};
      tokenMap := tokenMap - {f};
      joinWaiters := joinWaiters - {f};
      frames := frames - {f};
    }

    /** The resumed fiber cleans up with the token of its own frame, which is this one. */
    method ResumeFiber(token: nat) returns (woken: Option<Fiber>)
      requires TwoLists() && Inverse(State())
      modifies this`joinWaiters, this`tokenMap, this`resumeTokens, this`frames
      ensures TwoLists() && State() == Resume(old(State()), token) && woken == Wakes(old(State()), token)
    {
      woken := None;
      if token in resumeTokens {
        var f := resumeTokens[token];
        resumeTokens := resumeTokens - {token};
        woken := Some(f);
        LeaveBlock(f, token);
      }
    }

    method UnblockFiber(f: Fiber)
      requires TwoLists()
      modifies this`unblocked
      ensures TwoLists() && State() == Unblock(old(State()), f)
    {
      unblocked := unblocked[unblockIdx := unblocked[unblockIdx] + [f]];
    }

    method SwitchUnblockBatch() returns (batch: seq<Fiber>)
      requires TwoLists()
      modifies this`unblockIdx, this`phase
      ensures TwoLists() && State() == SwitchBatch(old(State())) && batch == State().inactive
    {
      batch := unblocked[unblockIdx];
      unblockIdx := (unblockIdx + 1) % 2;
      phase := Handing(0);
    }

    method HasWork(native: NativeScheduler.Scheduler) returns (work: bool)
      requires TwoLists()
      ensures work <==> Work(State(), native.timers, native.State())
    {
      var pending := native.HasPendingIo();
      work := unblocked[unblockIdx] != [] || joinWaiters != {} || pending;
    }
  }
}
