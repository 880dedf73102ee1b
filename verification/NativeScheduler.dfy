/**
 * The object that holds the native half of the fiber scheduler: the timer heap beside the waiter map, the queues and
 * the poller.
 */
module NativeScheduler {
  import opened Common
  import opened Timers
  import opened IoScheduler

  /** `Rejected`: an error before anything was done. `Unwatched`: queued, but the poller refused the descriptor. */
  datatype Registered = Ready(events: bv16) | Waiting | Rejected | Unwatched

  /** The tokens of the due timers, or an error of the poller in between. */
  datatype Due = DueTokens(tokens: seq<nat>) | RegisterError

  /** Whether the poller was asked, and for how long at most (`None`: until an event comes). */
  datatype Wait = NotPolled | Polled(timeout: Option<nat>)

  function Tokens(ts: seq<Timer>): (tokens: seq<nat>)
    ensures |tokens| == |ts| && forall i :: 0 <= i < |ts| ==> tokens[i] == ts[i].token
  {
    if ts == [] then [] else [ts[0].token] + Tokens(ts[1..])
  }

  /** The poller refuses the waiter that moves up when this token's timer fires. */
  predicate Refuses(io: Io, token: nat) {
    token in io.waiters && |io.Queue(io.waiters[token].fd)| > 1 && Refused(io, io.waiters[token].fd)
  }

  /** How many of the due timers are done with before the poller refuses something. */
  function Completed(io: Io, tokens: seq<nat>): (n: nat)
    ensures n <= |tokens|
    decreases |tokens|
  {
    if tokens == [] || Refuses(io, tokens[0]) then 0 else 1 + Completed(Expire(io, tokens[0]), tokens[1..])
  }

  lemma CompletedStep(io: Io, tokens: seq<nat>, i: nat)
    requires i < |tokens|
    ensures Completed(io, tokens[i..]) ==
            if Refuses(io, tokens[i]) then 0 else 1 + Completed(Expire(io, tokens[i]), tokens[i + 1..])
  {
    assert tokens[i..][1..] == tokens[i + 1..];
  }

  lemma {:induction false} ExpireAllSnoc(io: Io, tokens: seq<nat>, i: nat)
    requires i < |tokens|
    ensures ExpireAll(io, tokens[..i + 1]) == Expire(ExpireAll(io, tokens[..i]), tokens[i])
    decreases i
  {
    hide Expire;
    var one := ExpireAll(Expire(io, tokens[0]), []);
    if i > 0 {
      assert tokens[..i + 1][1..] == tokens[1..][..i] && tokens[..i][1..] == tokens[1..][..i - 1];
      ExpireAllSnoc(Expire(io, tokens[0]), tokens[1..], i - 1);
    } else {
      assert tokens[..1][1..] == [];
    }
  }

  /** The call to fetch due timers is through with the first `k` of them. */
  ghost predicate Progress(ts0: multiset<Timer>, io0: Io, now: int, ts: multiset<Timer>, io: Io, k: nat) {
    var all := DueInOrder(ts0, now);
    && k <= |all| && DueInOrder(ts, now) == all[k..] && ts0 == ts + multiset(all[..k])
    && io == ExpireAll(io0, Tokens(all)[..k])
    && Completed(io0, Tokens(all)) == k + Completed(io, Tokens(all)[k..])
  }

  /**
   * What a call has done when it returns: all due timers in order, or those before the first at which the poller
   * refused a waiter that moved up; that one's waiter is gone too, but its timer is still there.
   */
  ghost predicate Fetched(
      ts0: multiset<Timer>, io0: Io, now: int, ts: multiset<Timer>, io: Io, r: Due)
  {
    var all := DueInOrder(ts0, now);
    var n := Completed(io0, Tokens(all));
    && r == (if n == |all| then DueTokens(Tokens(all)) else RegisterError)
    && ts0 == ts + multiset(all[..n])
    && io == ExpireAll(io0, Tokens(all)[..Min(n + 1, |all|)])
    && (r.DueTokens? ==> forall t :: ts[t] == if IsDue(t, now) then 0 else ts0[t])
  }

  lemma ProgressStart(ts: multiset<Timer>, io: Io, now: int)
    ensures Progress(ts, io, now, ts, io, 0)
  {
    var all := DueInOrder(ts, now);
    assert all[..0] == [] && Tokens(all)[..0] == [] && all[0..] == all && Tokens(all)[0..] == Tokens(all);
    hide DueInOrder, Tokens, Completed;
  }

  lemma PopConserves(ts0: multiset<Timer>, ts: multiset<Timer>, all: seq<Timer>, k: nat)
    requires k < |all| && ts0 == ts + multiset(all[..k]) && all[k] in ts
    ensures ts0 == (ts - multiset{all[k]}) + multiset(all[..k + 1])
  {
    assert all[..k + 1] == all[..k] + [all[k]];
  }

  lemma ProgressStep(ts0: multiset<Timer>, io0: Io, now: int, ts: multiset<Timer>, io: Io, k: nat)
    requires Progress(ts0, io0, now, ts, io, k) && ts != multiset{} && IsDue(Earliest(ts), now)
    ensures var t, all := Earliest(ts), DueInOrder(ts0, now);
            && k < |all| && all[k] == t && ts0 == ts + multiset(all[..k])
            && (if Refuses(io, t.token)
                then Completed(io0, Tokens(all)) == k && Expire(io, t.token) == ExpireAll(io0, Tokens(all)[..k + 1])
                else Progress(ts0, io0, now, ts - multiset{t}, Expire(io, t.token), k + 1))
  {
    var t, all := Earliest(ts), DueInOrder(ts0, now);
    DueStep(ts, now);
    assert Earliest(ts) in ts;
    hide DueInOrder, Tokens, Completed, Refuses, Expire, ExpireAll, IsEarliest, Before, Earliest, IsDue;
    assert all[k] == all[k..][0] == t && all[k..][1..] == all[k + 1..];
    PopConserves(ts0, ts, all, k);
    CompletedStep(io, Tokens(all), k);
    ExpireAllSnoc(io0, Tokens(all), k);
  }

  lemma FetchFails(ts0: multiset<Timer>, io0: Io, now: int, ts: multiset<Timer>, io: Io, k: nat)
    requires Progress(ts0, io0, now, ts, io, k) && ts != multiset{} && IsDue(Earliest(ts), now)
    requires Refuses(io, Earliest(ts).token)
    ensures Fetched(ts0, io0, now, ts, Expire(io, Earliest(ts).token), RegisterError)
  {
    ProgressStep(ts0, io0, now, ts, io, k);
    hide Progress, DueInOrder, Tokens, Completed, Refuses, Expire, ExpireAll, IsEarliest, Before, Earliest, IsDue;
  }

  lemma OnlyNotDueLeft(ts0: multiset<Timer>, now: int, ts: multiset<Timer>)
    requires ts == multiset{} || !IsDue(Earliest(ts), now)
    requires ts0 == ts + multiset(DueInOrder(ts0, now))
    ensures forall t :: ts[t] == if IsDue(t, now) then 0 else ts0[t]
  {
    NothingDue(ts, now);
    DueInOrderExact(ts0, now);
    hide DueInOrder, Earliest;
  }

  lemma ProgressEnd(ts0: multiset<Timer>, io0: Io, now: int, ts: multiset<Timer>, io: Io, k: nat)
    requires Progress(ts0, io0, now, ts, io, k) && (ts == multiset{} || !IsDue(Earliest(ts), now))
    ensures var all := DueInOrder(ts0, now);
            && k == |all| == Completed(io0, Tokens(all)) && ts0 == ts + multiset(all)
            && io == ExpireAll(io0, Tokens(all))
  {
    NothingDue(ts, now);
    hide DueInOrder, Earliest, IsDue, Tokens, ExpireAll;
    var all := DueInOrder(ts0, now);
    assert all[k..] == [] && all[..k] == all;
    assert Tokens(all)[k..] == [] && Tokens(all)[..k] == Tokens(all);
  }

  lemma FetchEnds(ts0: multiset<Timer>, io0: Io, now: int, ts: multiset<Timer>, io: Io, k: nat)
    requires Progress(ts0, io0, now, ts, io, k) && (ts == multiset{} || !IsDue(Earliest(ts), now))
    ensures k == |DueInOrder(ts0, now)| && Fetched(ts0, io0, now, ts, io, DueTokens(Tokens(DueInOrder(ts0, now))))
  {
    hide DueInOrder, Tokens, Earliest, Completed, ExpireAll, IsDue, Progress;
    ProgressEnd(ts0, io0, now, ts, io, k);
    OnlyNotDueLeft(ts0, now, ts);
    var all := DueInOrder(ts0, now);
    assert all[..k] == all && Tokens(all)[..k] == Tokens(all);
  }

  /** A poller that overwrites never makes the call fail; one that refuses does so exactly on a refused waiter. */
  lemma {:induction false} AllCompletedIff(io: Io, tokens: seq<nat>)
    ensures Completed(io, tokens) == |tokens| <==>
            forall i :: 0 <= i < |tokens| ==> !Refuses(ExpireAll(io, tokens[..i]), tokens[i])
    ensures io.overwrites ==> Completed(io, tokens) == |tokens|
    decreases |tokens|
  {
    if tokens != [] {
      var io', rest := Expire(io, tokens[0]), tokens[1..];
      AllCompletedIff(io', rest);
      assert tokens[..0] == [];
      forall i | 0 <= i < |rest|
        ensures ExpireAll(io', rest[..i]) == ExpireAll(io, tokens[..i + 1]) && rest[i] == tokens[i + 1]
      {
        assert tokens[..i + 1][1..] == rest[..i];
        hide Expire;
      }
      hide Expire, Refuses;
      if Completed(io', rest) < |rest| && !Refuses(io, tokens[0]) {
        var i :| 0 <= i < |rest| && Refuses(ExpireAll(io', rest[..i]), rest[i]);
        assert Refuses(ExpireAll(io, tokens[..i + 1]), tokens[i + 1]);
      }
    }
  }

  lemma DueStep(ts: multiset<Timer>, now: int)
    requires ts != multiset{} && IsDue(Earliest(ts), now)
    ensures DueInOrder(ts, now) == [Earliest(ts)] + DueInOrder(ts - multiset{Earliest(ts)}, now)
  {
  }

  lemma NothingDue(ts: multiset<Timer>, now: int)
    requires ts == multiset{} || !IsDue(Earliest(ts), now)
    ensures DueInOrder(ts, now) == []
    ensures forall t :: t in ts ==> !IsDue(t, now)
  {
    forall t | t in ts
      ensures !IsDue(t, now)
    {
      assert !Before(t, Earliest(ts));
    }
  }

  class Scheduler {
    const overwrites: bool
    var timers: multiset<Timer>
    var waiters: map<nat, IoWaiter>
    var queues: map<int, seq<IoWaiter>>
    var poller: map<int, Registration>

    constructor (overwrites: bool)
      ensures Valid() && timers == multiset{} && State() == NoIo(overwrites)
    {
      this.overwrites := overwrites;
      timers, waiters, queues, poller := multiset{}, map[], map[], map[];
    }

    function State(): Io
      reads this
    {
      Io(waiters, queues, poller, overwrites)
    }

    /** Enough for no call to go wrong, whatever events and timers come. */
    ghost predicate Valid()
      reads this
    {
      Counted(State())
    }

    /** `polled` is the answer of a zero-timeout poll, `nonblocking` whether the descriptor could be set so. */
    method RegisterIoWait(fd: int, events: bv16, polled: Option<bv16>, nonblocking: bool, token: nat)
      returns (r: Registered)
      requires Valid() && token !in waiters
      modifies this`waiters, this`queues, this`poller
      ensures Valid()
      ensures r.Ready? <==> (if polled.Some? then polled.value else 0) == events
      ensures r.Ready? ==> r.events == events
      ensures r.Rejected? <==> !r.Ready? && !(nonblocking && (events & 1 != 0 || events & 4 != 0))
      ensures r.Unwatched? <==>
                !r.Ready? && !r.Rejected? && old(State()).Queue(fd) == [] && Refused(old(State()), fd)
      ensures State() == if r.Waiting? || r.Unwatched? then AddWaiter(old(State()), IoWaiter(fd, events, token))
                         else old(State())
    {
      hide Counted;
      var readiness := if polled.Some? then polled.value else 0;
      if readiness == events {
        return Ready(readiness);
      }
      if !nonblocking || !HasInterest(events) {
        return Rejected;
      }
      var waiter := IoWaiter(fd, events, token);
      RegisterKeepsCount(State(), waiter);
      waiters := waiters[token := waiter];
      var queue := if fd in queues then queues[fd] else [];
      queue := queue + [waiter];
      queues := queues[fd := queue];
      if |queue| == 1 {
        var ok := TryRegister(waiter);
        if !ok {
          return Unwatched;
        }
      }
      return Waiting;
    }

    method StartTimer(timeout: Option<int>, token: nat, now: int)
      modifies this`timers
      ensures timers == old(timers) +
                        if timeout.Some? && timeout.value >= 0 then multiset{Timer(now + timeout.value, token)}
                        else multiset{}
    {
      if timeout.Some? && timeout.value >= 0 {
        timers := timers + multiset{Timer(now + timeout.value, token)};
      }
    }

    method ClearTimer(token: nat)
      modifies this`timers
      ensures forall t :: timers[t] == if t.token == token then 0 else old(timers)[t]
    {
      var left := timers;
      timers := multiset{};
      while left != multiset{}
        invariant forall t :: timers[t] + (if t.token == token then 0 else left[t]) ==
                              if t.token == token then 0 else old(timers)[t]
        decreases |left|
      {
        var t :| t in left;
        left := left - multiset{t};
        if t.token != token {
          timers := timers + multiset{t};
        }
      }
    }

    method HasPendingIo() returns (pending: bool)
      ensures pending <==> PendingIo(timers, State())
    {
      pending := timers != multiset{} || waiters != map[];
    }

    /** `polled` is what the poller reports if it is asked; `None` when polling fails. */
    method FetchDueEvents(now: int, polled: Option<seq<Event>>) returns (wait: Wait, due: seq<(nat, bv16)>)
      requires Valid()
      modifies this`waiters, this`queues, this`poller
      ensures Valid()
      ensures wait.NotPolled? <==> waiters == old(waiters) == map[] && timers != multiset{}
      ensures wait.Polled? ==>
                && (wait.timeout == None <==> timers == multiset{})
                && (wait.timeout.Some? ==>
                      && (forall t :: t in timers && !IsDue(t, now) ==> now + wait.timeout.value <= t.wakeTime)
                      && ((exists t :: t in timers && IsDue(t, now)) ==> wait.timeout == Some(0))
                      && (exists t :: t in timers && (IsDue(t, now) || now + wait.timeout.value == t.wakeTime)))
      ensures wait.Polled? && polled.Some? ==>
                && State() == DeliverAll(old(State()), polled.value).io
                && due == DeliverAll(old(State()), polled.value).due
      ensures wait.NotPolled? || polled == None ==> State() == old(State()) && due == []
    {
      var timeout: Option<nat> := None;
      if timers != multiset{} {
        var t := PeekTimer();
        var left := Duration(t, now);
        timeout := if left == None then Some(0) else left;
        assert forall u :: u in timers ==> !Before(u, t);
        assert t in timers && (IsDue(t, now) || now + timeout.value == t.wakeTime);
      }
      due := [];
      if waiters == map[] && timeout.Some? {
        return NotPolled, due;
      }
      wait := Polled(timeout);
      if polled == None {
        return;
      }
      due := ServeEvents(polled.value);
    }

    method ServeEvents(events: seq<Event>) returns (due: seq<(nat, bv16)>)
      requires Valid()
      modifies this`waiters, this`queues, this`poller
      ensures Valid()
      ensures State() == DeliverAll(old(State()), events).io && due == DeliverAll(old(State()), events).due
      ensures var served := DeliverAll(old(State()), events).served;
              |due| == |served| && forall i :: 0 <= i < |due| ==> DueTells(old(State()), events, due[i], served[i])
    {
      DueIsServed(State(), events);
      hide Counted, Deliver, EventReadiness, DeliverAll, DueTells;
      ghost var all := DeliverAll(State(), events);
      due := [];
      var i := 0;
      assert events[i..] == events;
      while i < |events|
        invariant 0 <= i <= |events|
        invariant Counted(State())
        invariant DeliverAll(State(), events[i..]).io == all.io
        invariant due + DeliverAll(State(), events[i..]).due == all.due
      {
        DeliverStep(State(), events[i..]);
        assert events[i..][0] == events[i] && events[i..][1..] == events[i + 1..];
        var served := ServeEvent(events[i].token);
        if served {
          due := due + [(events[i].token, EventReadiness(events[i]))];
        }
        i := i + 1;
      }
      assert events[i..] == [];
      DeliverNothing(State());
    }

    method ServeEvent(token: nat) returns (served: bool)
      requires Valid()
      modifies this`waiters, this`queues, this`poller
      ensures Valid()
      ensures served <==> Served(old(State()), token) != []
      ensures State() == Deliver(old(State()), token)
    {
      hide Counted;
      TakeKeepsCount(State(), token);
      if token == WAKE_TOKEN || token !in waiters {
        return false;
      }
      CountedQueueExists(State(), token);
      var waiter := waiters[token];
      waiters := waiters - {token};
      poller := poller - {waiter.fd};
      var ok := PopQueue(waiter.fd);
      assert ok;
      return true;
    }

    method PeekTimer() returns (t: Timer)
      requires timers != multiset{}
      ensures t == Earliest(timers) && t in timers
    {
      EarliestExists(timers);
      t :| t in timers && IsEarliest(t, timers);
      EarliestUnique(t, timers);
    }

    method TryRegister(waiter: IoWaiter) returns (ok: bool)
      modifies this`poller
      ensures ok <==> !Refused(old(State()), waiter.fd)
      ensures State() == Attach(old(State()), waiter)
    {
      ok := overwrites || waiter.fd !in poller;
      if ok {
        poller := poller[waiter.fd := Registration(waiter.token, waiter.events)];
      }
    }

    /** The queue must be there, and the poller must know the interest of the waiter moving up. */
    method PopQueue(fd: int) returns (ok: bool)
      requires fd in queues && QueueFits(queues[fd], fd)
      modifies this`queues, this`poller
      ensures ok <==> !(|old(queues)[fd]| > 1 && Refused(old(State()), fd))
      ensures State() == PopFront(old(State()), fd)
    {
      var queue := queues[fd][1..];
      ok := true;
      if queue != [] {
        assert HasInterest(queue[0].events);
        queues := queues[fd := queue];
        ok := TryRegister(queue[0]);
      } else {
        queues := queues - {fd};
      }
    }

    /**
     * The clock stands still during the call. If the poller refuses a waiter that moves up, the call fails: the timers
     * before it are gone and their tokens with them, its own timer is still there.
     */
    method FetchDueTimers(now: int) returns (r: Due)
      requires Valid()
      modifies this
      ensures Valid()
      ensures Fetched(old(timers), old(State()), now, timers, State(), r)
    {
      hide Fetched, Counted, Expire, ExpireAll, DueInOrder, Tokens, Completed, Refuses, Progress, Earliest, IsEarliest;
      ghost var ts0, io0 := timers, State();
      ProgressStart(ts0, io0, now);
      var due := [];
      while timers != multiset{}
        invariant Counted(State()) && Progress(ts0, io0, now, timers, State(), |due|)
        invariant due <= Tokens(DueInOrder(ts0, now))
        decreases |timers|
      {
        var t := PeekTimer();
        if !IsDue(t, now) {
          break;
        }
        if Refuses(State(), t.token) {
          FetchFails(ts0, io0, now, timers, State(), |due|);
        } else {
          ProgressStep(ts0, io0, now, timers, State(), |due|);
        }
        due := due + [t.token];
        var ok := ExpireWaiter(t.token);
        if !ok {
          return RegisterError;
        }
        timers := timers - multiset{t};
      }
      FetchEnds(ts0, io0, now, timers, State(), |due|);
      assert due == Tokens(DueInOrder(ts0, now));
      return DueTokens(due);
    }

    method ExpireWaiter(token: nat) returns (ok: bool)
      requires Valid()
      modifies this`waiters, this`queues, this`poller
      ensures Valid()
      ensures ok <==> !Refuses(old(State()), token)
      ensures State() == Expire(old(State()), token)
    {
      hide Counted;
      TakeKeepsCount(State(), token);
      ok := true;
      if token in waiters {
        CountedQueueExists(State(), token);
        var waiter := waiters[token];
        waiters := waiters - {token};
        ok := PopQueue(waiter.fd);
      }
    }
  }
}
