/**
 * The hand-over of jobs to a worker that runs a fiber scheduler. Two parties share a job
 * channel, a one-slot `leader` and a watch channel: the scheduler fiber, which takes and
 * dispatches jobs, and the waker thread, which waits for a job while the scheduler fiber is
 * parked. Other workers take jobs from the same channel. Every atomic action is one step, and
 * steps come in any order.
 *
 * Assumed: only the waker unblocks the scheduler fiber, and `block` and `yield` do not raise.
 */
module WorkerHandoff {
  import opened Common

  datatype Job = Request(id: nat) | Shutdown

  const MAX_BATCH_SIZE := 25

  /** Program points of the scheduler loop. */
  datatype SchedulerAt =
    | TakeLeader
    | Fill(taken: nat)
    | Dispatch
    | CheckStop(shutdown: bool)
    | CheckEmpty
    | Signalled          // told the waker, about to park
    | Parked
    | Exited

  /** Program points of the waker loop. */
  datatype WakerAt =
    | AwaitSignal
    | ReadSignal
    | Select
    | ReadSelect
    | Store(msg: Option<Job>)
    | Unblock
    | Stopped

  /**
   * The watch channel holds the last value sent and counts sends; the waker remembers how many it
   * has seen. `wakeups` counts calls of `unblock` that have not resumed the fiber yet.
   */
  datatype State = State(
    channel: seq<Job>,
    leader: Option<Job>,
    batch: seq<Job>,
    scheduler: SchedulerAt,
    waker: WakerAt,
    signal: bool,
    sends: nat,
    seen: nat,
    wakeups: nat,
    terminated: bool)

  const START := State([], None, [], TakeLeader, AwaitSignal, false, 0, 0, 0, false)

  /** A state with its past: jobs sent, taken by this worker, taken by others, and finished with here. */
  datatype Trace = Trace(s: State, sent: seq<Job>, taken: seq<Job>, others: seq<Job>, done: seq<Job>)

  datatype Step =
    | Send(job: Job)          // a listener puts a job into the channel
    | OtherTakes              // another worker takes one
    | Terminate               // the shutdown deadline sets the flag
    | SchedulerStep
    | SignalSeen              // the waker's first `changed()` completes
    | SelectSeen              // the `changed()` branch of the select completes
    | SelectJob               // the `recv()` branch of the select completes
    | SelectClosed            // ... because the channel is closed
    | WakerStep               // any other action of the waker

  predicate Possible(s: State, step: Step) {
    match step
    case Send(_) => true
    case OtherTakes => s.channel != []
    case Terminate => true
    case SchedulerStep => !s.scheduler.Exited? && (s.scheduler.Parked? ==> s.wakeups > 0)
    case SignalSeen => s.waker.AwaitSignal? && s.seen < s.sends
    case SelectSeen => s.waker.Select? && s.seen < s.sends
    case SelectJob => s.waker.Select? && s.channel != []
    case SelectClosed => s.waker.Select? && s.channel == []
    case WakerStep => s.waker.ReadSignal? || s.waker.ReadSelect? || s.waker.Store? || s.waker.Unblock?
  }

  function Tell(s: State, stop: bool): State {
    s.(signal := stop, sends := s.sends + 1)
  }

  /** One action of the scheduler fiber. */
  function SchedulerNext(tr: Trace): Trace
    requires Possible(tr.s, SchedulerStep)
  {
    var s := tr.s;
    match s.scheduler
    case TakeLeader =>
      (match s.leader
       case None => tr.(s := s.(scheduler := Fill(0)))
       case Some(Request(id)) =>
         tr.(s := s.(leader := None, batch := s.batch + [Request(id)], scheduler := Fill(0)))
       case Some(Shutdown) =>
         tr.(s := Tell(s.(leader := None, scheduler := Exited), true), done := tr.done + [Shutdown]))
    case Fill(n) =>
      if n == MAX_BATCH_SIZE || s.channel == [] then tr.(s := s.(scheduler := Dispatch))
      else
        var job := s.channel[0];
        tr.(s := s.(channel := s.channel[1..], batch := s.batch + [job],
                    scheduler := if job == Shutdown then Dispatch else Fill(n + 1)),
            taken := tr.taken + [job])
    case Dispatch =>
      if s.batch == [] then tr.(s := s.(scheduler := CheckStop(false)))
      else if s.batch[0] == Shutdown then
        // returning from the drain drops whatever is left of the batch
        tr.(s := s.(batch := [], scheduler := CheckStop(true)), done := tr.done + [Shutdown])
      else tr.(s := s.(batch := s.batch[1..]), done := tr.done + [s.batch[0]])
    case CheckStop(shutdown) =>
      if shutdown || s.terminated then tr.(s := Tell(s.(scheduler := Exited), true))
      else tr.(s := s.(scheduler := CheckEmpty))
    case CheckEmpty =>
      if s.channel == [] then tr.(s := Tell(s.(scheduler := Signalled), false))
      else tr.(s := s.(scheduler := TakeLeader))          // yield, then round again
    case Signalled => tr.(s := s.(scheduler := Parked))
    case Parked => tr.(s := s.(scheduler := TakeLeader, wakeups := s.wakeups - 1))
    case Exited => tr
  }

  /** One action of the waker other than waiting. */
  function WakerNext(tr: Trace): Trace
    requires Possible(tr.s, WakerStep)
  {
    var s := tr.s;
    match s.waker
    case ReadSignal => tr.(s := s.(waker := if s.signal then Stopped else Select))
    case ReadSelect => tr.(s := s.(waker := if s.signal then Stopped else AwaitSignal))
    case Store(msg) => tr.(s := s.(leader := msg, waker := Unblock))
    case Unblock => tr.(s := s.(wakeups := s.wakeups + 1, waker := AwaitSignal))
    case _ => tr
  }

  function After(tr: Trace, step: Step): Trace
    requires Possible(tr.s, step)
  {
    var s := tr.s;
    match step
    case Send(job) => tr.(s := s.(channel := s.channel + [job]), sent := tr.sent + [job])
    case OtherTakes => tr.(s := s.(channel := s.channel[1..]), others := tr.others + [s.channel[0]])
    case Terminate => tr.(s := s.(terminated := true))
    case SchedulerStep => SchedulerNext(tr)
    case SignalSeen => tr.(s := s.(seen := s.sends, waker := ReadSignal))
    case SelectSeen => tr.(s := s.(seen := s.sends, waker := ReadSelect))
    case SelectJob =>
      tr.(s := s.(channel := s.channel[1..], waker := Store(Some(s.channel[0]))), taken := tr.taken + [s.channel[0]])
    case SelectClosed => tr.(s := s.(waker := Store(None)))
    case WakerStep => WakerNext(tr)
  }

  // ---------------------------------------------------------------------
  // Invariant
  // ---------------------------------------------------------------------

  function InHand(s: State): seq<Job> {
    if s.waker.Store? then Opt(s.waker.msg) else []
  }

  /** The scheduler loop has the floor: it is neither parked, about to park, nor gone. */
  predicate Running(s: State) {
    !s.scheduler.Signalled? && !s.scheduler.Parked? && !s.scheduler.Exited?
  }

  /** Who may do what when: the two parties alternate. */
  predicate Alternate(s: State) {
    && s.seen <= s.sends
    && (Running(s) ==> s.waker.AwaitSignal? && s.seen == s.sends && s.wakeups == 0 && !s.signal)
    && (s.scheduler.Signalled? || s.scheduler.Parked? ==>
          && !s.signal && s.wakeups <= 1 && s.batch == []
          && (s.wakeups == 1 ==> s.waker.AwaitSignal? && s.seen == s.sends)
          && (s.wakeups == 0 ==>
                if s.waker.AwaitSignal? then s.seen < s.sends
                else s.seen == s.sends && !s.waker.Stopped? && !s.waker.ReadSelect?))
    && (s.scheduler.Exited? ==>
          && s.signal && s.wakeups == 0 && s.batch == [] && s.leader == None
          && (if s.waker.AwaitSignal? then s.seen < s.sends else s.waker.ReadSignal? || s.waker.Stopped?))
  }

  /** Which slots can be full at which program points. */
  predicate Slots(s: State) {
    && (s.leader.Some? ==>
          || s.scheduler.TakeLeader?
          || ((s.scheduler.Signalled? || s.scheduler.Parked?) && (s.waker.Unblock? || s.wakeups == 1)))
    && (s.scheduler.TakeLeader? || s.scheduler.CheckStop? || s.scheduler.CheckEmpty? ==> s.batch == [])
    && (s.scheduler.Fill? ==> s.scheduler.taken <= MAX_BATCH_SIZE && |s.batch| <= s.scheduler.taken + 1 &&
                              Shutdown !in s.batch)
    && |s.batch| <= MAX_BATCH_SIZE + 1
    && (forall i :: 0 <= i < |s.batch| - 1 ==> s.batch[i] != Shutdown)
  }

  /** Jobs taken are, in the order taken: finished with, in the batch, in the slot, in the waker's hand. */
  predicate Accounted(tr: Trace) {
    tr.taken == tr.done + tr.s.batch + Opt(tr.s.leader) + InHand(tr.s)
  }

  /** Every job sent is still in the channel or was taken by exactly one worker. */
  predicate Shared(sent: seq<Job>, channel: seq<Job>, taken: seq<Job>, others: seq<Job>) {
    multiset(sent) == multiset(channel) + multiset(taken) + multiset(others)
  }

  predicate Conserved(tr: Trace) {
    Shared(tr.sent, tr.s.channel, tr.taken, tr.others)
  }

  /** Nothing is finished with behind a shutdown job, and the loop stops at it. */
  predicate StopsAtShutdown(tr: Trace) {
    forall i :: 0 <= i < |tr.done| && tr.done[i] == Shutdown ==>
      i == |tr.done| - 1 && (tr.s.scheduler.Exited? || tr.s.scheduler == CheckStop(true))
  }

  ghost predicate Sound(tr: Trace) {
    Alternate(tr.s) && Slots(tr.s) && Accounted(tr) && Conserved(tr) && StopsAtShutdown(tr)
  }

  lemma AlternateKept(tr: Trace, step: Step)
    requires Alternate(tr.s) && Slots(tr.s) && Possible(tr.s, step)
    ensures Alternate(After(tr, step).s)
  {
  }

  lemma SlotsKept(tr: Trace, step: Step)
    requires Alternate(tr.s) && Slots(tr.s) && Possible(tr.s, step)
    ensures Slots(After(tr, step).s)
  {
  }

  lemma SchedulerAccounted(tr: Trace)
    requires Alternate(tr.s) && Slots(tr.s) && Accounted(tr) && Possible(tr.s, SchedulerStep)
    ensures Accounted(SchedulerNext(tr))
  {
    var s := tr.s;
    if s.scheduler.Dispatch? && s.batch != [] {
      assert s.batch == [s.batch[0]] + s.batch[1..];
      ConcatAssoc(tr.done, [s.batch[0]], s.batch[1..]);
    }
  }

  lemma AccountedKept(tr: Trace, step: Step)
    requires Alternate(tr.s) && Slots(tr.s) && Accounted(tr) && Possible(tr.s, step)
    ensures Accounted(After(tr, step))
  {
    if step.SchedulerStep? {
      hide SchedulerNext, Alternate, Slots, Accounted;
      SchedulerAccounted(tr);
    }
  }

  lemma TakeConserves(sent: seq<Job>, channel: seq<Job>, a: seq<Job>, b: seq<Job>)
    requires Shared(sent, channel, a, b) && channel != []
    ensures Shared(sent, channel[1..], a + [channel[0]], b) && Shared(sent, channel[1..], a, b + [channel[0]])
  {
    assert channel == [channel[0]] + channel[1..];
  }

  lemma SendConserves(sent: seq<Job>, channel: seq<Job>, a: seq<Job>, b: seq<Job>, job: Job)
    requires Shared(sent, channel, a, b)
    ensures Shared(sent + [job], channel + [job], a, b)
  {
  }

  lemma ConservedKept(tr: Trace, step: Step)
    requires Conserved(tr) && Possible(tr.s, step)
    ensures Conserved(After(tr, step))
  {
    hide Shared;
    if step.Send? {
      SendConserves(tr.sent, tr.s.channel, tr.taken, tr.others, step.job);
    } else if tr.s.channel != [] {
      TakeConserves(tr.sent, tr.s.channel, tr.taken, tr.others);
    }
  }

  lemma ShutdownKept(tr: Trace, step: Step)
    requires StopsAtShutdown(tr) && Possible(tr.s, step)
    ensures StopsAtShutdown(After(tr, step))
  {
  }

  lemma AfterKeeps(tr: Trace, step: Step)
    requires Sound(tr) && Possible(tr.s, step)
    ensures Sound(After(tr, step))
  {
    hide Alternate, Slots, Accounted, Conserved, StopsAtShutdown, After, Possible;
    AlternateKept(tr, step);
    SlotsKept(tr, step);
    AccountedKept(tr, step);
    ConservedKept(tr, step);
    ShutdownKept(tr, step);
  }

  // ---------------------------------------------------------------------
  // Every interleaving
  // ---------------------------------------------------------------------

  /** The state after a run, if each of its steps is possible when it comes. */
  ghost function Run(steps: seq<Step>): (r: Option<Trace>)
    ensures r.Some? ==> Sound(r.value)
  {
    if steps == [] then Some(Trace(START, [], [], [], []))
    else
      match Run(steps[..|steps| - 1])
      case None => None
      case Some(tr) =>
        if Possible(tr.s, steps[|steps| - 1]) then
          AfterKeeps(tr, steps[|steps| - 1]);
          Some(After(tr, steps[|steps| - 1]))
        else None
  }

  /** The waker never writes into a full slot. */
  lemma LeaderNeverOverwritten(steps: seq<Step>)
    requires Run(steps).Some?
    ensures var s := Run(steps).value.s; s.waker.Store? ==> s.leader == None
  {
    hide Accounted, Conserved, StopsAtShutdown;
    var tr := Run(steps).value;
    assert Sound(tr);
  }

  /**
   * Jobs are dispatched in the order in which they were taken off the channel, each once; when the
   * loop ends, every job this worker ever took has been dispatched.
   */
  lemma NoJobLost(steps: seq<Step>)
    requires Run(steps).Some?
    ensures var tr := Run(steps).value;
            && tr.done <= tr.taken
            && (tr.s.scheduler.Exited? || (tr.s.scheduler.Parked? && tr.s.wakeups == 0 && tr.s.waker.Select?) ==>
                  tr.done == tr.taken)
  {
    hide Conserved, StopsAtShutdown;
    var tr := Run(steps).value;
    assert Sound(tr);
  }

  /** Waker actions still needed before the parked scheduler fiber is unblocked. */
  function Distance(s: State): nat {
    if s.wakeups > 0 then 0
    else
      match s.waker
      case AwaitSignal => 5
      case ReadSignal => 4
      case Select => 3
      case Store(_) => 2
      case Unblock => 1
      case _ => 6
  }

  /**
   * While the scheduler fiber is parked and not yet unblocked, the waker is never stuck except for want of
   * a job, no step sets the unblocking back, and each action of the waker brings it nearer.
   */
  lemma ParkedGetsUnblocked(steps: seq<Step>)
    requires Run(steps).Some?
    requires var s := Run(steps).value.s; s.scheduler.Parked? && s.wakeups == 0
    ensures var s := Run(steps).value.s;
            && (Possible(s, SignalSeen) || Possible(s, WakerStep) || s.waker.Select?)
            && (s.waker.Select? && s.channel != [] ==> Possible(s, SelectJob))
    ensures var tr := Run(steps).value;
            forall step | Possible(tr.s, step) ::
              var s' := After(tr, step).s;
              && Distance(s') <= Distance(tr.s)
              && (step.SignalSeen? || step.WakerStep? || step.SelectJob? || step.SelectClosed? ==>
                    Distance(s') < Distance(tr.s))
  {
    hide Accounted, Conserved, StopsAtShutdown, Slots;
    var tr := Run(steps).value;
    assert Sound(tr);
    forall step | Possible(tr.s, step)
      ensures var s' := After(tr, step).s;
              && Distance(s') <= Distance(tr.s)
              && (step.SignalSeen? || step.WakerStep? || step.SelectJob? || step.SelectClosed? ==>
                    Distance(s') < Distance(tr.s))
    {
      DistanceShrinks(tr, step);
    }
  }

  lemma DistanceShrinks(tr: Trace, step: Step)
    requires Alternate(tr.s) && tr.s.scheduler.Parked? && tr.s.wakeups == 0 && Possible(tr.s, step)
    ensures var s' := After(tr, step).s;
            && Distance(s') <= Distance(tr.s)
            && (step.SignalSeen? || step.WakerStep? || step.SelectJob? || step.SelectClosed? ==>
                  Distance(s') < Distance(tr.s))
  {
  }

  /** Once the scheduler loop has ended, this worker takes no further job, whatever happens. */
  lemma {:induction false} NothingTakenAfterExit(steps: seq<Step>, more: seq<Step>)
    requires Run(steps).Some? && Run(steps + more).Some?
    requires Run(steps).value.s.scheduler.Exited?
    ensures var tr, tr' := Run(steps).value, Run(steps + more).value;
            tr'.s.scheduler.Exited? && tr'.taken == tr.taken && tr'.done == tr.done
    decreases |more|
  {
    hide Sound, Possible, After;
    if more == [] {
      assert steps + more == steps;
    } else {
      var all, front := steps + more, more[..|more| - 1];
      assert all[..|all| - 1] == steps + front;
      NothingTakenAfterExit(steps, front);
      ExitedStays(Run(steps + front).value, all[|all| - 1]);
    }
  }

  lemma ExitedStays(tr: Trace, step: Step)
    requires Sound(tr) && tr.s.scheduler.Exited? && Possible(tr.s, step)
    ensures var tr' := After(tr, step);
            tr'.s.scheduler.Exited? && tr'.taken == tr.taken && tr'.done == tr.done
  {
    hide Accounted, Conserved, StopsAtShutdown, Slots;
  }

  // ---------------------------------------------------------------------
  // Jobs are taken, and after termination only a few
  // ---------------------------------------------------------------------

  /** A job that waits is taken into the batch until the batch has its size. */
  lemma FillTakesWhatWaits(tr: Trace)
    requires Slots(tr.s) && tr.s.scheduler.Fill? && Possible(tr.s, SchedulerStep)
    ensures var tr' := After(tr, SchedulerStep);
            if tr.s.scheduler.taken < 25 && tr.s.channel != []
            then tr'.taken == tr.taken + [tr.s.channel[0]] && tr'.s.batch == tr.s.batch + [tr.s.channel[0]]
            else tr'.taken == tr.taken && tr'.s.scheduler == Dispatch
  {
  }

  /** How many jobs this worker may still take once it is told to terminate. */
  function Allowance(s: State): nat
    requires s.scheduler.Fill? ==> s.scheduler.taken <= MAX_BATCH_SIZE
  {
    match s.scheduler
    case TakeLeader => MAX_BATCH_SIZE
    case Fill(n) => MAX_BATCH_SIZE - n
    case Dispatch => 0
    case CheckStop(_) => 0
    case Exited => 0
    case _ =>
      if s.wakeups == 0 && (s.waker.AwaitSignal? || s.waker.ReadSignal? || s.waker.Select? || s.waker.ReadSelect?)
      then MAX_BATCH_SIZE + 1 else MAX_BATCH_SIZE
  }

  lemma AllowanceStep(tr: Trace, step: Step)
    requires Alternate(tr.s) && Slots(tr.s) && Possible(tr.s, step) && tr.s.terminated
    ensures var tr' := After(tr, step);
            && tr'.s.terminated && (tr'.s.scheduler.Fill? ==> tr'.s.scheduler.taken <= MAX_BATCH_SIZE)
            && |tr'.taken| + Allowance(tr'.s) <= |tr.taken| + Allowance(tr.s)
  {
  }

  lemma {:induction false} AllowanceHolds(steps: seq<Step>, more: seq<Step>)
    requires Run(steps).Some? && Run(steps + more).Some? && Run(steps).value.s.terminated
    ensures var tr, tr' := Run(steps).value, Run(steps + more).value;
            && Slots(tr.s) && Slots(tr'.s) && tr'.s.terminated
            && |tr'.taken| + Allowance(tr'.s) <= |tr.taken| + Allowance(tr.s)
    decreases |more|
  {
    assert Sound(Run(steps).value) && Sound(Run(steps + more).value);
    if more == [] {
      assert steps + more == steps;
    } else {
      var all, front := steps + more, more[..|more| - 1];
      assert all[..|all| - 1] == steps + front;
      AllowanceHolds(steps, front);
      assert Sound(Run(steps + front).value);
      hide After, Possible, Allowance, Accounted, Conserved, StopsAtShutdown;
      AllowanceStep(Run(steps + front).value, all[|all| - 1]);
    }
  }

  /** Over every interleaving: once told to terminate, this worker takes at most one batch and one job more. */
  lemma TerminatedTakesFew(steps: seq<Step>, more: seq<Step>)
    requires Run(steps).Some? && Run(steps + more).Some? && Run(steps).value.s.terminated
    ensures |Run(steps + more).value.taken| <= |Run(steps).value.taken| + 26
  {
    AllowanceHolds(steps, more);
    hide Run;
  }

  /** The fiber parks exactly if it finds no job waiting; otherwise it lets other fibers run and comes back. */
  lemma ParksIffIdle(tr: Trace)
    requires tr.s.scheduler.CheckEmpty?
    ensures var s' := After(tr, SchedulerStep).s;
            && (s'.scheduler.Signalled? <==> tr.s.channel == [])
            && (s'.scheduler.TakeLeader? <==> tr.s.channel != [])
  {
  }
}
