/**
 * The waiters of the native half of the fiber scheduler: a map from tokens to waiters, one queue of
 * waiters per descriptor, and a poller that holds one registration per descriptor.
 */
module IoScheduler {
  import opened Common
  import opened Timers

  datatype IoWaiter = IoWaiter(fd: int, events: bv16, token: nat)

  /** What the poller knows of a descriptor: under which token, and for which events. */
  datatype Registration = Registration(token: nat, events: bv16)

  datatype Event = Event(token: nat, readable: bool, priority: bool, writable: bool)

  const WAKE_TOKEN := 0

  /** The events name at least one of the interests the poller knows. */
  predicate HasInterest(events: bv16) {
    events & 1 != 0 || events & 4 != 0
  }

  function EventReadiness(e: Event): bv16 {
    (if e.readable then 1 else 0) | (if e.priority then 2 else 0) | (if e.writable then 4 else 0)
  }

  // ---------------------------------------------------------------------
  // The waiter map, the queues and the poller, as a value
  // ---------------------------------------------------------------------

  /**
   * `overwrites` tells what the poller of the system does with a descriptor that is registered already: put the new
   * registration in place of the old one, or refuse it and leave the old one.
   */
  datatype Io = Io(
    waiters: map<nat, IoWaiter>, queues: map<int, seq<IoWaiter>>, poller: map<int, Registration>, overwrites: bool) {

    function Queue(fd: int): seq<IoWaiter> {
      if fd in queues then queues[fd] else []
    }

    predicate Heads(token: nat) {
      token in waiters && waiters[token].fd in queues &&
      var q := queues[waiters[token].fd];
      q != [] && q[0].token == token
    }
  }

  function NoIo(overwrites: bool): Io {
    Io(map[], map[], map[], overwrites)
  }

  predicate QueueAgrees(io: Io, fd: int, q: seq<IoWaiter>) {
    && q != []
    && (forall i :: 0 <= i < |q| ==>
          q[i].fd == fd && q[i].token in io.waiters && io.waiters[q[i].token] == q[i])
    && (forall i, j :: 0 <= i < j < |q| ==> q[i].token != q[j].token)
  }

  predicate WaiterAgrees(io: Io, token: nat) {
    token in io.waiters &&
    var w := io.waiters[token];
    w.token == token && HasInterest(w.events) && w.fd in io.queues && w in io.queues[w.fd]
  }

  /** The waiter map is the disjoint union of the queues, and no queue is empty. */
  ghost predicate Agree(io: Io) {
    && (forall fd :: fd in io.queues ==> QueueAgrees(io, fd, io.queues[fd]))
    && (forall t :: t in io.waiters ==> WaiterAgrees(io, t))
  }

  predicate PollsHead(io: Io, fd: int) {
    fd in io.poller && fd in io.queues && io.queues[fd] != [] &&
    io.poller[fd] == Registration(io.queues[fd][0].token, io.queues[fd][0].events)
  }

  /** Each queued descriptor is registered under its head. */
  ghost predicate PollerServes(io: Io) {
    forall fd :: fd in io.queues ==> PollsHead(io, fd)
  }

  /** A registration under the token of a waiter is that of its descriptor, and the waiter heads its queue. */
  ghost predicate PollerHonest(io: Io) {
    forall fd :: fd in io.poller && io.poller[fd].token in io.waiters ==>
      io.Heads(io.poller[fd].token) && io.waiters[io.poller[fd].token].fd == fd
  }

  /** There are no registrations beside those of the queued descriptors. */
  predicate PollerExact(io: Io) {
    io.poller.Keys == io.queues.Keys
  }

  predicate Refused(io: Io, fd: int) {
    fd in io.poller && !io.overwrites
  }

  /** Ask the poller to watch the descriptor of this waiter. */
  function Attach(io: Io, w: IoWaiter): Io {
    if Refused(io, w.fd) then io else io.(poller := io.poller[w.fd := Registration(w.token, w.events)])
  }

  function AddWaiter(io: Io, w: IoWaiter): Io {
    var q := io.Queue(w.fd) + [w];
    var io' := io.(waiters := io.waiters[w.token := w], queues := io.queues[w.fd := q]);
    if |q| == 1 then Attach(io', w) else io'
  }

  /** Drop the front of a queue and register the next waiter, or drop the queue. */
  function PopFront(io: Io, fd: int): Io {
    var q := io.Queue(fd);
    if |q| <= 1 then io.(queues := io.queues - {fd}) else Attach(io.(queues := io.queues[fd := q[1..]]), q[1])
  }

  /** Serve one reported token. */
  function Deliver(io: Io, token: nat): Io {
    if token == WAKE_TOKEN || token !in io.waiters then io
    else
      var fd := io.waiters[token].fd;
      PopFront(io.(waiters := io.waiters - {token}, poller := io.poller - {fd}), fd)
  }

  /** A timer with this token fires. */
  function Expire(io: Io, token: nat): Io {
    if token !in io.waiters then io
    else
      var fd := io.waiters[token].fd;
      PopFront(io.(waiters := io.waiters - {token}), fd)
  }

  // ---------------------------------------------------------------------
  // What each operation keeps
  // ---------------------------------------------------------------------

  /** Removing the head of a queue from map and queue keeps them in agreement. */
  lemma RemoveHeadAgrees(io: Io, io': Io, token: nat)
    requires Agree(io) && io.Heads(token)
    requires io'.waiters == io.waiters - {token}
    requires var fd := io.waiters[token].fd;
             var q := io.queues[fd][1..];
             io'.queues == if q == [] then io.queues - {fd} else io.queues[fd := q]
    ensures Agree(io')
  {
    var fd := io.waiters[token].fd;
    var q := io.queues[fd];
    assert QueueAgrees(io, fd, q);
    assert q[0] == io.waiters[token];
    forall g | g in io'.queues
      ensures QueueAgrees(io', g, io'.queues[g])
    {
      assert QueueAgrees(io, g, io.queues[g]);
      var p := io'.queues[g];
      if g == fd {
        forall i | 0 <= i < |p|
          ensures p[i].token in io'.waiters
        {
          assert p[i] == q[i + 1];
        }
      } else {
        forall i | 0 <= i < |p|
          ensures p[i].token != token
        {
          assert io.waiters[p[i].token] == p[i];
        }
      }
    }
    forall t | t in io'.waiters
      ensures WaiterAgrees(io', t)
    {
      assert WaiterAgrees(io, t);
      var w := io.waiters[t];
      if w.fd == fd {
        var i :| 0 <= i < |q| && q[i] == w;
        assert i > 0 && w == q[1..][i - 1];
      }
    }
  }

  lemma AddedParts(io: Io, w: IoWaiter)
    ensures var io', q := AddWaiter(io, w), io.Queue(w.fd) + [w];
            io'.waiters == io.waiters[w.token := w] && io'.queues == io.queues[w.fd := q]
  {
  }

  lemma AddedQueuesAgree(io: Io, w: IoWaiter, g: int)
    requires Agree(io) && w.token !in io.waiters && g in AddWaiter(io, w).queues
    ensures QueueAgrees(AddWaiter(io, w), g, AddWaiter(io, w).queues[g])
  {
    AddedParts(io, w);
    if g in io.queues { assert QueueAgrees(io, g, io.queues[g]); }
    hide AddWaiter, Agree, WaiterAgrees;
  }

  lemma AddedWaitersAgree(io: Io, w: IoWaiter, t: nat)
    requires Agree(io) && HasInterest(w.events) && w.token !in io.waiters && t in AddWaiter(io, w).waiters
    ensures WaiterAgrees(AddWaiter(io, w), t)
  {
    AddedParts(io, w);
    var q := AddWaiter(io, w).queues[w.fd];
    assert q[|q| - 1] == w;
    if t != w.token {
      assert WaiterAgrees(io, t);
      var v := io.waiters[t];
      if v.fd == w.fd {
        var i :| 0 <= i < |io.queues[w.fd]| && io.queues[w.fd][i] == v;
        assert q[i] == v;
      }
    }
    hide AddWaiter, Agree, HasInterest, QueueAgrees;
  }

  lemma RegisterKeeps(io: Io, w: IoWaiter)
    requires Agree(io) && HasInterest(w.events) && w.token !in io.waiters
    ensures Agree(AddWaiter(io, w))
    ensures PollerExact(io) ==> PollerExact(AddWaiter(io, w))
  {
    hide QueueAgrees, WaiterAgrees, HasInterest;
    var io' := AddWaiter(io, w);
    forall g | g in io'.queues
      ensures QueueAgrees(io', g, io'.queues[g])
    {
      AddedQueuesAgree(io, w, g);
    }
    forall t | t in io'.waiters
      ensures WaiterAgrees(io', t)
    {
      AddedWaitersAgree(io, w, t);
    }
  }

  predicate Fresh(io: Io, token: nat) {
    token != WAKE_TOKEN && token !in io.waiters && forall fd :: fd in io.poller ==> io.poller[fd].token != token
  }

  lemma RegisterHonest(io: Io, w: IoWaiter)
    requires Agree(io) && PollerHonest(io) && Fresh(io, w.token)
    ensures PollerHonest(AddWaiter(io, w))
  {
    var io' := AddWaiter(io, w);
    forall fd | fd in io'.poller && io'.poller[fd].token in io'.waiters
      ensures io'.Heads(io'.poller[fd].token) && io'.waiters[io'.poller[fd].token].fd == fd
    {
      if io'.poller[fd].token != w.token { assert fd in io.poller && io.poller[fd].token in io.waiters; }
    }
  }

  /**
   * After a registration the heads are served exactly if the descriptor has a queue already, or the poller does not
   * refuse it for an old registration.
   */
  lemma RegisterServesIff(io: Io, w: IoWaiter)
    requires Agree(io) && PollerServes(io) && Fresh(io, w.token)
    ensures PollerServes(AddWaiter(io, w)) <==> w.fd in io.queues || !Refused(io, w.fd)
  {
    var io' := AddWaiter(io, w);
    if w.fd in io.queues || !Refused(io, w.fd) {
      forall g | g in io'.queues
        ensures PollsHead(io', g)
      {
        if g in io.queues { assert PollsHead(io, g) && QueueAgrees(io, g, io.queues[g]); }
      }
    } else {
      assert !PollsHead(io', w.fd);
    }
  }

  /** Delivering a token of the wake-up kind, an unknown one, or a queue head keeps everything. */
  lemma DeliverKeeps(io: Io, token: nat)
    requires Agree(io) && (token in io.waiters ==> io.Heads(token))
    ensures Agree(Deliver(io, token))
    ensures PollerExact(io) ==> PollerExact(Deliver(io, token))
    ensures PollerServes(io) ==> PollerServes(Deliver(io, token))
    ensures PollerHonest(io) ==> PollerHonest(Deliver(io, token))
  {
    if token != WAKE_TOKEN && token in io.waiters {
      var io' := Deliver(io, token);
      RemoveHeadAgrees(io, io', token);
      if PollerServes(io) { DeliverServes(io, token); }
      if PollerHonest(io) { PopHonest(io, io', token); }
    }
  }

  lemma DeliverServes(io: Io, token: nat)
    requires Agree(io) && io.Heads(token) && PollerServes(io)
    ensures PollerServes(Deliver(io, token))
  {
    var fd, io' := io.waiters[token].fd, Deliver(io, token);
    assert QueueAgrees(io, fd, io.queues[fd]);
    forall g | g in io'.queues
      ensures PollsHead(io', g)
    {
      assert PollsHead(io, g);
    }
  }

  lemma PopHonest(io: Io, io': Io, token: nat)
    requires Agree(io) && io.Heads(token) && PollerHonest(io)
    requires io' == Expire(io, token) || (token != WAKE_TOKEN && io' == Deliver(io, token))
    ensures PollerHonest(io')
  {
    var fd := io.waiters[token].fd;
    assert QueueAgrees(io, fd, io.queues[fd]);
    forall g | g in io'.poller && io'.poller[g].token in io'.waiters
      ensures io'.Heads(io'.poller[g].token) && io'.waiters[io'.poller[g].token].fd == g
    {
      if g != fd { assert g in io.poller && io'.poller[g] == io.poller[g]; }
    }
  }

  /** A timer keeps map and queues in agreement exactly when its waiter, if any, heads its queue. */
  lemma ExpireKeepsAgreementIff(io: Io, token: nat)
    requires Agree(io)
    ensures Agree(Expire(io, token)) <==> (token in io.waiters ==> io.Heads(token))
  {
    if token in io.waiters {
      var io' := Expire(io, token);
      if io.Heads(token) {
        RemoveHeadAgrees(io, io', token);
      } else {
        assert WaiterAgrees(io, token);
        var fd := io.waiters[token].fd;
        var q := io.queues[fd];
        assert QueueAgrees(io, fd, q);
        var front := q[0].token;          // popped, but not the waiter whose timer fired
        assert front in io'.waiters;
        assert !WaiterAgrees(io', front);
      }
    }
  }

  /**
   * A timer on the head of a queue never deregisters. So the next head is served exactly if there is none or the
   * poller overwrites registrations, and no registration is left over exactly if there is a next head.
   */
  lemma ExpirePoller(io: Io, token: nat)
    requires Agree(io) && PollerServes(io) && io.Heads(token)
    ensures PollerServes(Expire(io, token)) <==> io.overwrites || |io.queues[io.waiters[token].fd]| == 1
    ensures PollerExact(io) ==> (PollerExact(Expire(io, token)) <==> |io.queues[io.waiters[token].fd]| > 1)
  {
    var io' := Expire(io, token);
    var fd := io.waiters[token].fd;
    var q := io.queues[fd];
    assert QueueAgrees(io, fd, q) && PollsHead(io, fd);
    if io.overwrites || |q| == 1 {
      forall g | g in io'.queues
        ensures PollsHead(io', g)
      {
        assert PollsHead(io, g);
      }
    } else {
      assert !PollsHead(io', fd);
    }
    if |q| == 1 {
      assert fd in io'.poller.Keys && fd !in io'.queues.Keys;
    }
  }

  /** Two waiters on one descriptor, the second one timing out first: the first is dropped from its queue. */
  lemma ExpiryBehindHeadBreaksAgreement(overwrites: bool)
    ensures var io := AddWaiter(AddWaiter(NoIo(overwrites), IoWaiter(7, 1, 1)), IoWaiter(7, 1, 2));
            Agree(io) && !Agree(Expire(io, 2)) && Expire(io, 2).Queue(7) == [IoWaiter(7, 1, 2)]
  {
    var a, b := IoWaiter(7, 1, 1), IoWaiter(7, 1, 2);
    RegisterKeeps(NoIo(overwrites), a);
    RegisterKeeps(AddWaiter(NoIo(overwrites), a), b);
    ExpireKeepsAgreementIff(AddWaiter(AddWaiter(NoIo(overwrites), a), b), 2);
  }

  // ---------------------------------------------------------------------
  // What holds even when a timer fires behind the head of a queue
  // ---------------------------------------------------------------------

  function WaitersOn(io: Io, fd: int): set<nat> {
    set t | t in io.waiters && io.waiters[t].fd == fd
  }

  predicate QueueFits(q: seq<IoWaiter>, fd: int) {
    q != [] && forall i :: 0 <= i < |q| ==> q[i].fd == fd && HasInterest(q[i].events)
  }

  /** Each descriptor has as many queued entries as waiters; no queue is empty. */
  ghost predicate Counted(io: Io) {
    && (forall fd :: fd in io.queues ==> QueueFits(io.queues[fd], fd))
    && (forall fd :: |io.Queue(fd)| == |WaitersOn(io, fd)|)
  }

  /** The queue of a waiter is there to be popped. */
  lemma CountedQueueExists(io: Io, token: nat)
    requires Counted(io) && token in io.waiters
    ensures io.waiters[token].fd in io.queues && QueueFits(io.queues[io.waiters[token].fd], io.waiters[token].fd)
  {
    var fd := io.waiters[token].fd;
    assert token in WaitersOn(io, fd);
    assert |io.Queue(fd)| == |WaitersOn(io, fd)| > 0;
  }

  lemma PopKeepsCount(io: Io, io': Io, token: nat)
    requires Counted(io) && token in io.waiters && io'.waiters == io.waiters - {token}
    requires io'.queues == PopFront(io, io.waiters[token].fd).queues
    ensures Counted(io')
  {
    CountedQueueExists(io, token);
    var f := io.waiters[token].fd;
    forall fd: int
      ensures |io'.Queue(fd)| == |WaitersOn(io', fd)|
    {
      assert WaitersOn(io', fd) == if fd == f then WaitersOn(io, fd) - {token} else WaitersOn(io, fd);
      assert |io.Queue(fd)| == |WaitersOn(io, fd)|;
    }
  }

  lemma QueuedIffWaiting(io: Io, fd: int)
    requires Counted(io)
    ensures fd in io.queues <==> exists t :: t in io.waiters && io.waiters[t].fd == fd
  {
    assert |io.Queue(fd)| == |WaitersOn(io, fd)|;
    if fd in io.queues {
      var t :| t in WaitersOn(io, fd);
    } else {
      assert WaitersOn(io, fd) == {};
      assert forall t :: t in io.waiters && io.waiters[t].fd == fd ==> t in WaitersOn(io, fd);
    }
  }

  lemma AddedQueueFits(io: Io, w: IoWaiter, fd: int)
    requires Counted(io) && HasInterest(w.events) && fd in AddWaiter(io, w).queues
    ensures QueueFits(AddWaiter(io, w).queues[fd], fd)
  {
    AddedParts(io, w);
    hide AddWaiter, HasInterest;
  }

  lemma AddedCount(io: Io, w: IoWaiter, fd: int)
    requires Counted(io) && w.token !in io.waiters
    ensures |AddWaiter(io, w).Queue(fd)| == |WaitersOn(AddWaiter(io, w), fd)|
  {
    AddedParts(io, w);
    assert |io.Queue(fd)| == |WaitersOn(io, fd)|;
    hide AddWaiter, Counted;
    assert WaitersOn(AddWaiter(io, w), fd) ==
           if fd == w.fd then WaitersOn(io, fd) + {w.token} else WaitersOn(io, fd);
  }

  lemma RegisterKeepsCount(io: Io, w: IoWaiter)
    requires Counted(io) && HasInterest(w.events) && w.token !in io.waiters
    ensures Counted(AddWaiter(io, w))
  {
    hide AddWaiter, QueueFits, WaitersOn, HasInterest;
    var io' := AddWaiter(io, w);
    forall fd | fd in io'.queues
      ensures QueueFits(io'.queues[fd], fd)
    {
      AddedQueueFits(io, w, fd);
    }
    forall fd: int
      ensures |io'.Queue(fd)| == |WaitersOn(io', fd)|
    {
      AddedCount(io, w, fd);
    }
  }

  lemma TakeKeepsCount(io: Io, token: nat)
    requires Counted(io)
    ensures Counted(Deliver(io, token)) && Counted(Expire(io, token))
  {
    if token in io.waiters {
      if token != WAKE_TOKEN { PopKeepsCount(io, Deliver(io, token), token); }
      PopKeepsCount(io, Expire(io, token), token);
    }
  }

  // ---------------------------------------------------------------------
  // Batches of events and of timers
  // ---------------------------------------------------------------------

  /** Tokens of waiters in the batch are tokens of queue heads. */
  predicate Reported(io: Io, events: seq<Event>) {
    forall i :: 0 <= i < |events| ==> events[i].token in io.waiters ==> io.Heads(events[i].token)
  }

  /** The poller reports tokens under which it holds a registration, old or new. */
  predicate FromPoller(io: Io, events: seq<Event>) {
    forall i :: 0 <= i < |events| ==> events[i].token in io.waiters ==>
      exists fd :: fd in io.poller && io.poller[fd].token == events[i].token
  }

  lemma PollerReportsHeads(io: Io, events: seq<Event>)
    requires PollerHonest(io) && FromPoller(io, events)
    ensures Reported(io, events)
  {
    forall i | 0 <= i < |events| && events[i].token in io.waiters
      ensures io.Heads(events[i].token)
    {
      var fd :| fd in io.poller && io.poller[fd].token == events[i].token;
    }
  }

  lemma ReportedAfter(io: Io, events: seq<Event>)
    requires Agree(io) && events != [] && Reported(io, events)
    ensures Agree(Deliver(io, events[0].token)) && Reported(Deliver(io, events[0].token), events[1..])
  {
    var token := events[0].token;
    DeliverKeeps(io, token);
    var io' := Deliver(io, token);
    forall i | 0 <= i < |events[1..]| && events[1..][i].token in io'.waiters
      ensures io'.Heads(events[1..][i].token)
    {
      assert events[1..][i] == events[i + 1];
      assert io.Heads(events[i + 1].token);
    }
  }

  datatype Batch = Batch(io: Io, served: seq<IoWaiter>, due: seq<(nat, bv16)>)

  function Served(io: Io, token: nat): seq<IoWaiter> {
    if token == WAKE_TOKEN || token !in io.waiters then [] else [io.waiters[token]]
  }

  /** All events of one poll, in the order reported. */
  function DeliverAll(io: Io, events: seq<Event>): Batch
    decreases |events|
  {
    if events == [] then Batch(io, [], [])
    else
      var e := events[0];
      var rest := DeliverAll(Deliver(io, e.token), events[1..]);
      var now := Served(io, e.token);
      Batch(rest.io, now + rest.served, (if now == [] then [] else [(e.token, EventReadiness(e))]) + rest.due)
  }

  lemma DeliverNothing(io: Io)
    ensures DeliverAll(io, []) == Batch(io, [], [])
  {
  }

  lemma DeliverStep(io: Io, events: seq<Event>)
    requires events != []
    ensures var io', now := Deliver(io, events[0].token), Served(io, events[0].token);
            && DeliverAll(io', events[1..]).io == DeliverAll(io, events).io
            && now + DeliverAll(io', events[1..]).served == DeliverAll(io, events).served
            && (if now == [] then [] else [(events[0].token, EventReadiness(events[0]))]) +
               DeliverAll(io', events[1..]).due == DeliverAll(io, events).due
  {
  }

  /** Bit 1 for readable, 2 for priority, 4 for writable, and no other. */
  predicate Tells(readiness: bv16, e: Event) {
    && (readiness & 1 != 0 <==> e.readable) && (readiness & 2 != 0 <==> e.priority)
    && (readiness & 4 != 0 <==> e.writable) && readiness & 0xFFF8 == 0
  }

  lemma ReadinessTells(e: Event)
    ensures Tells(EventReadiness(e), e)
  {
  }

  /** The first event of the batch with this token. */
  predicate FirstWith(events: seq<Event>, token: nat, j: nat) {
    j < |events| && events[j].token == token && forall k :: 0 <= k < j ==> events[k].token != token
  }

  /** The report is about a waiter, and tells what the first event for it says. */
  ghost predicate DueTells(io: Io, events: seq<Event>, due: (nat, bv16), served: IoWaiter) {
    && due.0 != WAKE_TOKEN && due.0 in io.waiters && served == io.waiters[due.0]
    && exists j: nat :: FirstWith(events, due.0, j) && Tells(due.1, events[j])
  }

  lemma DeliverTakesOut(io: Io, token: nat)
    ensures Deliver(io, token).waiters == if token == WAKE_TOKEN then io.waiters else io.waiters - {token}
  {
  }

  lemma DueTellsLater(io: Io, events: seq<Event>, due: (nat, bv16), served: IoWaiter)
    requires events != [] && DueTells(Deliver(io, events[0].token), events[1..], due, served)
    ensures DueTells(io, events, due, served)
  {
    DeliverTakesOut(io, events[0].token);
    hide Deliver, Tells;
    var j: nat :| FirstWith(events[1..], due.0, j) && Tells(due.1, events[1..][j]);
    assert events[0].token != due.0;
    assert forall k :: 0 < k <= j + 1 ==> events[k] == events[1..][k - 1];
    assert FirstWith(events, due.0, j + 1);
  }

  /**
   * In every state and for every batch of events, repeated and unknown tokens included: what is reported are the
   * waiters served, in order, each with the readiness of the first event for it.
   */
  lemma {:induction false} DueIsServed(io: Io, events: seq<Event>)
    ensures var b := DeliverAll(io, events);
            |b.due| == |b.served| && forall i :: 0 <= i < |b.due| ==> DueTells(io, events, b.due[i], b.served[i])
    decreases |events|
  {
    if events != [] {
      var e := events[0];
      var b, rest, now := DeliverAll(io, events), DeliverAll(Deliver(io, e.token), events[1..]), Served(io, e.token);
      DueIsServed(Deliver(io, e.token), events[1..]);
      ReadinessTells(e);
      assert FirstWith(events, e.token, 0);
      hide Deliver, EventReadiness, Tells, FirstWith;
      forall i | 0 <= i < |b.due|
        ensures DueTells(io, events, b.due[i], b.served[i])
      {
        if i >= |now| {
          assert b.due[i] == rest.due[i - |now|] && b.served[i] == rest.served[i - |now|];
          DueTellsLater(io, events, b.due[i], b.served[i]);
        }
      }
    }
  }

  /** And every waiter for whose token there is an event is among them. */
  lemma {:induction false} EveryEventServed(io: Io, events: seq<Event>, j: nat)
    requires j < |events| && events[j].token != WAKE_TOKEN && events[j].token in io.waiters
    ensures io.waiters[events[j].token] in DeliverAll(io, events).served
    decreases |events|
  {
    var token := events[0].token;
    if events[j].token != token {
      DeliverTakesOut(io, token);
      hide Deliver;
      EveryEventServed(Deliver(io, token), events[1..], j - 1);
    }
  }

  /** Each timer popped finds its waiter, if any, at the head of its queue. */
  predicate HeadsInOrder(io: Io, tokens: seq<nat>)
    decreases |tokens|
  {
    tokens == [] ||
    ((tokens[0] in io.waiters ==> io.Heads(tokens[0])) && HeadsInOrder(Expire(io, tokens[0]), tokens[1..]))
  }

  function ExpireAll(io: Io, tokens: seq<nat>): Io
    decreases |tokens|
  {
    if tokens == [] then io else ExpireAll(Expire(io, tokens[0]), tokens[1..])
  }

  function ExpireLog(io: Io, tokens: seq<nat>): seq<IoWaiter>
    decreases |tokens|
  {
    if tokens == [] then []
    else
      (if tokens[0] in io.waiters then [io.waiters[tokens[0]]] else []) +
      ExpireLog(Expire(io, tokens[0]), tokens[1..])
  }

  lemma {:induction false} DeliverAllKeepsCount(io: Io, events: seq<Event>)
    requires Counted(io)
    ensures Counted(DeliverAll(io, events).io)
    decreases |events|
  {
    if events != [] {
      hide Counted, Deliver;
      TakeKeepsCount(io, events[0].token);
      DeliverAllKeepsCount(Deliver(io, events[0].token), events[1..]);
    }
  }

  lemma {:induction false} ExpireAllKeepsCount(io: Io, tokens: seq<nat>)
    requires Counted(io)
    ensures Counted(ExpireAll(io, tokens))
    decreases |tokens|
  {
    if tokens != [] {
      hide Counted, Expire;
      TakeKeepsCount(io, tokens[0]);
      ExpireAllKeepsCount(Expire(io, tokens[0]), tokens[1..]);
    }
  }

  function OnFd(ws: seq<IoWaiter>, fd: int): seq<IoWaiter> {
    if ws == [] then [] else (if ws[0].fd == fd then [ws[0]] else []) + OnFd(ws[1..], fd)
  }

  lemma {:induction false} OnFdConcat(a: seq<IoWaiter>, b: seq<IoWaiter>, fd: int)
    ensures OnFd(a + b, fd) == OnFd(a, fd) + OnFd(b, fd)
  {
    if a == [] {
      assert a + b == b;
    } else {
      OnFdConcat(a[1..], b, fd);
      assert (a + b)[0] == a[0] && (a + b)[1..] == a[1..] + b;
      var first := if a[0].fd == fd then [a[0]] else [];
      assert OnFd(a + b, fd) == first + (OnFd(a[1..], fd) + OnFd(b, fd));
    }
  }

  /** Taking the head out of a queue leaves the rest of the queue, and other queues alone. */
  lemma PopTakesFront(io: Io, io': Io, token: nat, fd: int)
    requires Agree(io) && io.Heads(token)
    requires io' == Expire(io, token) || (token != WAKE_TOKEN && io' == Deliver(io, token))
    ensures OnFd([io.waiters[token]], fd) + io'.Queue(fd) == io.Queue(fd)
  {
    var f := io.waiters[token].fd;
    var q := io.queues[f];
    assert q[0] == io.waiters[token] by { assert QueueAgrees(io, f, q); }
    hide Agree, QueueAgrees;
    assert OnFd([io.waiters[token]], fd) == if f == fd then [q[0]] else [];
    if f == fd {
      assert io'.Queue(fd) == q[1..];
      assert q == [q[0]] + q[1..];
    } else {
      assert io'.Queue(fd) == io.Queue(fd);
    }
  }

  lemma {:induction false} DeliverAllKeeps(io: Io, events: seq<Event>)
    requires Agree(io) && Reported(io, events)
    ensures var io' := DeliverAll(io, events).io;
            && Agree(io')
            && (PollerExact(io) ==> PollerExact(io'))
            && (PollerServes(io) ==> PollerServes(io'))
            && (PollerHonest(io) ==> PollerHonest(io'))
    decreases |events|
  {
    hide Agree, PollerExact, PollerServes, PollerHonest, Deliver, Reported, EventReadiness;
    if events != [] {
      var token := events[0].token;
      ReportedAfter(io, events);
      assert token in io.waiters ==> io.Heads(token) by { HeadOfReport(io, events); }
      DeliverKeeps(io, token);
      DeliverAllKeeps(Deliver(io, token), events[1..]);
    }
  }

  lemma HeadOfReport(io: Io, events: seq<Event>)
    requires events != [] && Reported(io, events)
    ensures events[0].token in io.waiters ==> io.Heads(events[0].token)
  {
  }

  /** What an event batch delivers on a descriptor is the front part of its queue, in order. */
  lemma {:induction false} DeliverAllInOrder(io: Io, events: seq<Event>, fd: int)
    requires Agree(io) && Reported(io, events)
    ensures var b := DeliverAll(io, events);
            OnFd(b.served, fd) + b.io.Queue(fd) == io.Queue(fd)
    decreases |events|
  {
    assert OnFd([], fd) == [];
    if events != [] {
      var token := events[0].token;
      var io' := Deliver(io, token);
      var now := Served(io, token);
      HeadOfReport(io, events);
      if now != [] { PopTakesFront(io, io', token, fd); }
      assert OnFd(now, fd) + io'.Queue(fd) == io.Queue(fd);
      hide Agree, Deliver, DeliverAll, Reported, OnFd, EventReadiness;
      DeliverStep(io, events);
      ReportedAfter(io, events);
      DeliverAllInOrder(io', events[1..], fd);
      var rest := DeliverAll(io', events[1..]);
      OnFdConcat(now, rest.served, fd);
      ConcatAssoc(OnFd(now, fd), OnFd(rest.served, fd), rest.io.Queue(fd));
    }
  }

  /** One timer that finds its waiter at the head, or has none. */
  lemma ExpireKeeps(io: Io, token: nat, fd: int)
    requires Agree(io) && (token in io.waiters ==> io.Heads(token)) && WAKE_TOKEN !in io.waiters
    ensures var io' := Expire(io, token);
            && Agree(io') && WAKE_TOKEN !in io'.waiters && (PollerHonest(io) ==> PollerHonest(io'))
            && OnFd(if token in io.waiters then [io.waiters[token]] else [], fd) + io'.Queue(fd) == io.Queue(fd)
  {
    var io' := Expire(io, token);
    ExpireKeepsAgreementIff(io, token);
    if token in io.waiters {
      hide Agree, OnFd;
      PopTakesFront(io, io', token, fd);
      if PollerHonest(io) { PopHonest(io, io', token); }
    }
  }

  lemma {:induction false} ExpireAllKeeps(io: Io, tokens: seq<nat>, fd: int)
    requires Agree(io) && HeadsInOrder(io, tokens)
    requires WAKE_TOKEN !in io.waiters
    ensures Agree(ExpireAll(io, tokens)) && (PollerHonest(io) ==> PollerHonest(ExpireAll(io, tokens)))
    ensures OnFd(ExpireLog(io, tokens), fd) + ExpireAll(io, tokens).Queue(fd) == io.Queue(fd)
    decreases |tokens|
  {
    if tokens != [] {
      hide Agree, PollerHonest, Expire, OnFd;
      var io' := Expire(io, tokens[0]);
      var now := if tokens[0] in io.waiters then [io.waiters[tokens[0]]] else [];
      ExpireKeeps(io, tokens[0], fd);
      ExpireAllKeeps(io', tokens[1..], fd);
      OnFdConcat(now, ExpireLog(io', tokens[1..]), fd);
      ConcatAssoc(OnFd(now, fd), OnFd(ExpireLog(io', tokens[1..]), fd), ExpireAll(io, tokens).Queue(fd));
    }
  }

  /** Each timer either leaves no one waiting for the descriptor, or the poller overwrites registrations. */
  predicate ServedThrough(io: Io, tokens: seq<nat>)
    decreases |tokens|
  {
    tokens == [] ||
    ((tokens[0] in io.waiters ==> io.overwrites || |io.Queue(io.waiters[tokens[0]].fd)| == 1) &&
     ServedThrough(Expire(io, tokens[0]), tokens[1..]))
  }

  lemma {:induction false} ExpireAllServes(io: Io, tokens: seq<nat>)
    requires Agree(io) && PollerServes(io) && HeadsInOrder(io, tokens) && ServedThrough(io, tokens)
    ensures PollerServes(ExpireAll(io, tokens))
    decreases |tokens|
  {
    if tokens != [] {
      hide Agree, PollerServes, Expire;
      ExpireKeepsAgreementIff(io, tokens[0]);
      if tokens[0] in io.waiters { ExpirePoller(io, tokens[0]); } else { NoWaiterNoChange(io, tokens[0]); }
      ExpireAllServes(Expire(io, tokens[0]), tokens[1..]);
    }
  }

  lemma NoWaiterNoChange(io: Io, token: nat)
    requires token !in io.waiters
    ensures Expire(io, token) == io
  {
  }

  lemma {:induction false} OverwritingServes(io: Io, tokens: seq<nat>)
    requires io.overwrites
    ensures ServedThrough(io, tokens)
    decreases |tokens|
  {
    if tokens != [] { OverwritingServes(Expire(io, tokens[0]), tokens[1..]); }
  }

  // ---------------------------------------------------------------------
  // Whole runs
  // ---------------------------------------------------------------------

  datatype Op = Register(w: IoWaiter) | Events(events: seq<Event>) | DueTimers(tokens: seq<nat>)

  /** A state together with the waiters registered and the waiters served so far. */
  datatype Trace = Trace(io: Io, registered: seq<IoWaiter>, served: seq<IoWaiter>)

  ghost predicate Possible(io: Io, op: Op) {
    match op
    case Register(w) => Fresh(io, w.token) && HasInterest(w.events)
    case Events(events) => FromPoller(io, events)
    case DueTimers(tokens) => HeadsInOrder(io, tokens)
  }

  ghost predicate Sound(tr: Trace) {
    && Agree(tr.io) && PollerHonest(tr.io) && WAKE_TOKEN !in tr.io.waiters
    && forall fd :: OnFd(tr.registered, fd) == OnFd(tr.served, fd) + tr.io.Queue(fd)
  }

  function After(tr: Trace, op: Op): Trace {
    match op
    case Register(w) => Trace(AddWaiter(tr.io, w), tr.registered + [w], tr.served)
    case Events(events) =>
      var b := DeliverAll(tr.io, events);
      Trace(b.io, tr.registered, tr.served + b.served)
    case DueTimers(tokens) =>
      Trace(ExpireAll(tr.io, tokens), tr.registered, tr.served + ExpireLog(tr.io, tokens))
  }

  lemma RegisterInOrder(tr: Trace, w: IoWaiter, fd: int)
    requires OnFd(tr.registered, fd) == OnFd(tr.served, fd) + tr.io.Queue(fd)
    ensures OnFd(tr.registered + [w], fd) == OnFd(tr.served, fd) + AddWaiter(tr.io, w).Queue(fd)
  {
    OnFdConcat(tr.registered, [w], fd);
    assert OnFd([w], fd) == if w.fd == fd then [w] else [];
  }

  lemma SubsetWaiters(io: Io, events: seq<Event>)
    ensures DeliverAll(io, events).io.waiters.Keys <= io.waiters.Keys
    decreases |events|
  {
    if events != [] {
      SubsetWaiters(Deliver(io, events[0].token), events[1..]);
    }
  }

  lemma SubsetWaitersExpired(io: Io, tokens: seq<nat>)
    ensures ExpireAll(io, tokens).waiters.Keys <= io.waiters.Keys
    decreases |tokens|
  {
    if tokens != [] {
      SubsetWaitersExpired(Expire(io, tokens[0]), tokens[1..]);
    }
  }

  /** The poller does not refuse anything in this operation. */
  predicate Accepted(io: Io, op: Op) {
    match op
    case Register(w) => w.fd in io.queues || !Refused(io, w.fd)
    case Events(_) => true
    case DueTimers(tokens) => ServedThrough(io, tokens)
  }

  /** Every operation keeps map and queues in agreement and each descriptor's waiters in order. */
  lemma AfterKeeps(tr: Trace, op: Op)
    requires Sound(tr) && Possible(tr.io, op)
    ensures Sound(After(tr, op))
    ensures !op.DueTimers? && PollerExact(tr.io) ==> PollerExact(After(tr, op).io)
  {
    hide Agree, PollerHonest, OnFd, DeliverAll, ExpireAll, ExpireLog, HeadsInOrder, Reported, FromPoller;
    var tr' := After(tr, op);
    match op
    case Register(w) =>
      RegisterKeeps(tr.io, w);
      RegisterHonest(tr.io, w);
      forall fd: int
        ensures OnFd(tr'.registered, fd) == OnFd(tr'.served, fd) + tr'.io.Queue(fd)
      {
        RegisterInOrder(tr, w, fd);
      }
    case Events(events) =>
      PollerReportsHeads(tr.io, events);
      DeliverAllKeeps(tr.io, events);
      SubsetWaiters(tr.io, events);
      var b := DeliverAll(tr.io, events);
      forall fd: int
        ensures OnFd(tr'.registered, fd) == OnFd(tr'.served, fd) + tr'.io.Queue(fd)
      {
        DeliverAllInOrder(tr.io, events, fd);
        OnFdConcat(tr.served, b.served, fd);
      }
    case DueTimers(tokens) =>
      SubsetWaitersExpired(tr.io, tokens);
      ExpireAllKeeps(tr.io, tokens, 0);
      forall fd: int
        ensures OnFd(tr'.registered, fd) == OnFd(tr'.served, fd) + tr'.io.Queue(fd)
      {
        ExpireAllKeeps(tr.io, tokens, fd);
        OnFdConcat(tr.served, ExpireLog(tr.io, tokens), fd);
      }
  }

  /** An operation in which the poller refuses nothing keeps all heads served. */
  lemma AfterServes(tr: Trace, op: Op)
    requires Sound(tr) && Possible(tr.io, op) && PollerServes(tr.io) && Accepted(tr.io, op)
    ensures PollerServes(After(tr, op).io)
  {
    hide Agree, PollerHonest, PollerServes, OnFd, DeliverAll, ExpireAll, ExpireLog, HeadsInOrder, Reported, FromPoller;
    match op
    case Register(w) => RegisterServesIff(tr.io, w);
    case Events(events) =>
      PollerReportsHeads(tr.io, events);
      DeliverAllKeeps(tr.io, events);
    case DueTimers(tokens) => ExpireAllServes(tr.io, tokens);
  }

  function Run(overwrites: bool, ops: seq<Op>): Trace {
    if ops == [] then Trace(NoIo(overwrites), [], [])
    else After(Run(overwrites, ops[..|ops| - 1]), ops[|ops| - 1])
  }

  /** Each operation of the run is possible when it comes. */
  ghost predicate Allowed(overwrites: bool, ops: seq<Op>) {
    forall i :: 0 <= i < |ops| ==> Possible(Run(overwrites, ops[..i]).io, ops[i])
  }

  lemma AllowedPrefix(overwrites: bool, ops: seq<Op>)
    requires Allowed(overwrites, ops) && ops != []
    ensures Allowed(overwrites, ops[..|ops| - 1])
  {
    var before := ops[..|ops| - 1];
    forall i | 0 <= i < |before|
      ensures Possible(Run(overwrites, before[..i]).io, before[i])
    {
      assert before[..i] == ops[..i];
      hide Possible, Run;
    }
  }

  predicate NoTimers(ops: seq<Op>) {
    forall i :: 0 <= i < |ops| ==> !ops[i].DueTimers?
  }

  /**
   * Over every run of registrations, event batches and timers that find their waiters at the head, with either kind
   * of poller: map and queues agree, registrations under tokens of waiters are those of heads, and each descriptor's
   * waiters were served in the order they were registered. Without timers there is no other registration.
   */
  lemma {:induction false} RunSound(overwrites: bool, ops: seq<Op>)
    requires Allowed(overwrites, ops)
    ensures Sound(Run(overwrites, ops))
    ensures NoTimers(ops) ==> PollerExact(Run(overwrites, ops).io)
    decreases |ops|
  {
    if ops != [] {
      AllowedPrefix(overwrites, ops);
      assert Possible(Run(overwrites, ops[..|ops| - 1]).io, ops[|ops| - 1]);
      hide Possible, Sound, PollerExact, Allowed;
      RunSound(overwrites, ops[..|ops| - 1]);
      AfterKeeps(Run(overwrites, ops[..|ops| - 1]), ops[|ops| - 1]);
    }
  }

  lemma {:induction false} ExpireAllSamePoller(io: Io, tokens: seq<nat>)
    ensures ExpireAll(io, tokens).overwrites == io.overwrites
    decreases |tokens|
  {
    if tokens != [] { ExpireAllSamePoller(Expire(io, tokens[0]), tokens[1..]); }
  }

  lemma {:induction false} DeliverAllSamePoller(io: Io, events: seq<Event>)
    ensures DeliverAll(io, events).io.overwrites == io.overwrites
    decreases |events|
  {
    if events != [] { DeliverAllSamePoller(Deliver(io, events[0].token), events[1..]); }
  }

  lemma SamePoller(tr: Trace, op: Op)
    ensures After(tr, op).io.overwrites == tr.io.overwrites
  {
    match op
    case Register(w) =>
    case Events(events) => DeliverAllSamePoller(tr.io, events);
    case DueTimers(tokens) => ExpireAllSamePoller(tr.io, tokens);
  }

  /** With a poller that overwrites, or as long as no timer fires, nothing is refused. */
  lemma NothingRefused(io: Io, op: Op)
    requires io.overwrites || (!op.DueTimers? && PollerExact(io))
    ensures Accepted(io, op)
  {
    if op.DueTimers? { OverwritingServes(io, op.tokens); }
  }

  /** Then, over every run, each queued descriptor is registered under its head. */
  lemma {:induction false} RunServes(overwrites: bool, ops: seq<Op>)
    requires Allowed(overwrites, ops) && (overwrites || NoTimers(ops))
    ensures PollerServes(Run(overwrites, ops).io) && Run(overwrites, ops).io.overwrites == overwrites
    decreases |ops|
  {
    if ops != [] {
      var front, last := ops[..|ops| - 1], ops[|ops| - 1];
      AllowedPrefix(overwrites, ops);
      assert Possible(Run(overwrites, front).io, last);
      hide Possible, Sound, PollerExact, Allowed, PollerServes, After, Accepted;
      RunServes(overwrites, front);
      RunSound(overwrites, front);
      NothingRefused(Run(overwrites, front).io, last);
      AfterServes(Run(overwrites, front), last);
      SamePoller(Run(overwrites, front), last);
    }
  }

  /** Only registrations are restricted: a new token, and an interest the poller knows. */
  predicate Registers(overwrites: bool, ops: seq<Op>) {
    forall i :: 0 <= i < |ops| && ops[i].Register? ==>
      ops[i].w.token !in Run(overwrites, ops[..i]).io.waiters && HasInterest(ops[i].w.events)
  }

  lemma AfterKeepsCount(tr: Trace, op: Op)
    requires Counted(tr.io)
    requires op.Register? ==> op.w.token !in tr.io.waiters && HasInterest(op.w.events)
    ensures Counted(After(tr, op).io)
  {
    hide Counted;
    match op
    case Register(w) => RegisterKeepsCount(tr.io, w);
    case Events(events) => DeliverAllKeepsCount(tr.io, events);
    case DueTimers(tokens) => ExpireAllKeepsCount(tr.io, tokens);
  }

  /** With any tokens reported and any timers firing, each waiter still has a queue to be popped. */
  lemma {:induction false} QueueAlwaysThere(overwrites: bool, ops: seq<Op>, token: nat)
    requires Registers(overwrites, ops)
    ensures var io := Run(overwrites, ops).io;
            Counted(io) && (token in io.waiters ==> io.Queue(io.waiters[token].fd) != [])
    decreases |ops|
  {
    if ops == [] {
      assert forall fd :: WaitersOn(NoIo(overwrites), fd) == {};
    } else {
      var before := ops[..|ops| - 1];
      assert forall i :: 0 <= i < |before| ==> before[..i] == ops[..i];
      QueueAlwaysThere(overwrites, before, token);
      AfterKeepsCount(Run(overwrites, before), ops[|ops| - 1]);
      var io := Run(overwrites, ops).io;
      if token in io.waiters { CountedQueueExists(io, token); }
    }
  }

  // ---------------------------------------------------------------------
  // A descriptor that is lost
  // ---------------------------------------------------------------------

  /** The poller watches the descriptor under the token of no waiter, and refuses to do otherwise. */
  predicate Lost(io: Io, fd: int) {
    !io.overwrites && fd in io.poller && io.poller[fd].token !in io.waiters
  }

  /** With a poller that refuses, the timeout of a waiter that is served loses its descriptor. */
  lemma ExpiryLoses(io: Io, token: nat)
    requires Agree(io) && PollerServes(io) && io.Heads(token) && !io.overwrites
    ensures Lost(Expire(io, token), io.waiters[token].fd)
  {
    var fd := io.waiters[token].fd;
    assert QueueAgrees(io, fd, io.queues[fd]) && PollsHead(io, fd);
  }

  lemma AddLeavesLost(io: Io, w: IoWaiter, fd: int)
    requires Lost(io, fd) && Fresh(io, w.token)
    ensures Lost(AddWaiter(io, w), fd)
  {
  }

  lemma DeliverLeavesLost(io: Io, token: nat, fd: int)
    requires Agree(io) && Lost(io, fd) && (token in io.waiters ==> io.waiters[token].fd != fd)
    ensures var io' := Deliver(io, token); Lost(io', fd) && io'.Queue(fd) == io.Queue(fd)
  {
    if token != WAKE_TOKEN && token in io.waiters {
      assert WaiterAgrees(io, token);
      var g := io.waiters[token].fd;
      assert QueueAgrees(io, g, io.queues[g]);
    }
  }

  lemma ExpireLeavesLost(io: Io, token: nat, fd: int)
    requires Agree(io) && Lost(io, fd)
    ensures Lost(Expire(io, token), fd)
  {
    if token in io.waiters {
      assert WaiterAgrees(io, token);
      var g := io.waiters[token].fd;
      assert QueueAgrees(io, g, io.queues[g]);
    }
  }

  lemma {:induction false} DeliverAllLeavesLost(io: Io, events: seq<Event>, fd: int)
    requires Agree(io) && Lost(io, fd) && Reported(io, events)
    requires forall i :: 0 <= i < |events| && events[i].token in io.waiters ==> io.waiters[events[i].token].fd != fd
    ensures var io' := DeliverAll(io, events).io; Lost(io', fd) && io'.Queue(fd) == io.Queue(fd)
    decreases |events|
  {
    if events != [] {
      DeliverLeavesLost(io, events[0].token, fd);
      ReportedAfter(io, events);
      hide Agree, Reported, Lost;
      DeliverAllLeavesLost(Deliver(io, events[0].token), events[1..], fd);
    }
  }

  /** Whatever the poller reports, the queue of a lost descriptor stays as it is. */
  lemma EventsLeaveLost(io: Io, events: seq<Event>, fd: int)
    requires Agree(io) && PollerHonest(io) && Lost(io, fd) && FromPoller(io, events)
    ensures var io' := DeliverAll(io, events).io; Lost(io', fd) && io'.Queue(fd) == io.Queue(fd)
  {
    PollerReportsHeads(io, events);
    forall i | 0 <= i < |events| && events[i].token in io.waiters
      ensures io.waiters[events[i].token].fd != fd
    {
      var g :| g in io.poller && io.poller[g].token == events[i].token;
    }
    DeliverAllLeavesLost(io, events, fd);
  }

  lemma {:induction false} ExpireAllLeavesLost(io: Io, tokens: seq<nat>, fd: int)
    requires Agree(io) && Lost(io, fd) && HeadsInOrder(io, tokens)
    ensures Lost(ExpireAll(io, tokens), fd)
    decreases |tokens|
  {
    if tokens != [] {
      ExpireKeepsAgreementIff(io, tokens[0]);
      ExpireLeavesLost(io, tokens[0], fd);
      hide Agree, Expire, Lost;
      ExpireAllLeavesLost(Expire(io, tokens[0]), tokens[1..], fd);
    }
  }

  lemma AfterLeavesLost(tr: Trace, op: Op, fd: int)
    requires Sound(tr) && Possible(tr.io, op) && Lost(tr.io, fd)
    ensures Lost(After(tr, op).io, fd)
    ensures op.Events? ==> After(tr, op).io.Queue(fd) == tr.io.Queue(fd)
  {
    hide Agree, PollerHonest, Lost, OnFd, DeliverAll, ExpireAll, HeadsInOrder, FromPoller;
    match op
    case Register(w) => AddLeavesLost(tr.io, w, fd);
    case Events(events) => EventsLeaveLost(tr.io, events, fd);
    case DueTimers(tokens) => ExpireAllLeavesLost(tr.io, tokens, fd);
  }

  /**
   * However a run goes on, a lost descriptor stays lost: from then on no event serves a waiter for it, only timers end
   * their waits.
   */
  lemma {:induction false} LostForever(ops: seq<Op>, i: nat, j: nat, fd: int)
    requires Allowed(false, ops) && i <= j <= |ops| && Lost(Run(false, ops[..i]).io, fd)
    ensures Lost(Run(false, ops[..j]).io, fd)
    ensures j < |ops| && ops[j].Events? ==>
              Run(false, ops[..j + 1]).io.Queue(fd) == Run(false, ops[..j]).io.Queue(fd)
    decreases j
  {
    hide Lost, Sound, Possible, After;
    if i < j {
      LostForever(ops, i, j - 1, fd);
      RunStep(ops, j - 1);
      AfterLeavesLost(Run(false, ops[..j - 1]), ops[j - 1], fd);
    }
    if j < |ops| {
      RunStep(ops, j);
      AfterLeavesLost(Run(false, ops[..j]), ops[j], fd);
    }
  }

  lemma RunStep(ops: seq<Op>, j: nat)
    requires Allowed(false, ops) && j < |ops|
    ensures Sound(Run(false, ops[..j])) && Possible(Run(false, ops[..j]).io, ops[j])
    ensures Run(false, ops[..j + 1]) == After(Run(false, ops[..j]), ops[j])
  {
    assert ops[..j + 1][..j] == ops[..j];
    assert forall i :: 0 <= i < j ==> ops[..j][..i] == ops[..i];
    hide Possible, After, Sound;
    RunSound(false, ops[..j]);
  }

  // ---------------------------------------------------------------------
  // Nothing left to do
  // ---------------------------------------------------------------------

  predicate PendingIo(timers: multiset<Timer>, io: Io) {
    timers != multiset{} || io.waiters != map[]
  }

  /** When nothing is pending, no queue is left either. */
  lemma NothingPendingNothingQueued(timers: multiset<Timer>, io: Io)
    requires Counted(io) && !PendingIo(timers, io)
    ensures timers == multiset{} && io.waiters == map[] && io.queues == map[]
  {
    forall fd: int
      ensures fd !in io.queues
    {
      QueuedIffWaiting(io, fd);
    }
    assert io.queues.Keys == {};
  }
}
