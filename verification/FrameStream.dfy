/**
 * The body of a streamed response: frames travel through a channel (`FrameStream`) and are
 * coalesced into larger blocks (`BufferedStream`).
 */
module FrameStream {
  import opened Common

  /** How the frame stream stands: running, at the end of a closed channel, or cut off by a shutdown. */
  datatype Drain = Open | AtEnd | CutOff

  datatype Polled = Pending | Ready(item: Option<Bytes>)

  /**
   * What the surroundings do during one pass of the poll loop: whether the deadline is found to have
   * passed (first and second look), whether the receiver answers "pending" regardless of what is
   * queued, whether a shutdown is pending, and which frames arrive behind the receiver's answer.
   */
  datatype Tick = Tick(passed: bool, exhausted: bool, shutdown: bool, late: seq<Bytes>, passedNow: bool)

  /** The channel, the frame stream's state and the coalescing buffer. */
  datatype Pipe = Pipe(queue: seq<Bytes>, closed: bool, drain: Drain, buffer: Bytes, armed: bool)

  const EMPTY := Pipe([], false, Open, [], false)

  // ---------------------------------------------------------------------
  // The frame stream
  // ---------------------------------------------------------------------

  datatype Inner = Inner(p: Pipe, r: Polled, arrived: seq<Bytes>)

  /** `FrameStream::poll_next`. */
  function PollFrame(p: Pipe, t: Tick): Inner {
    if p.drain != Open then Inner(p, Ready(None), [])
    else if !t.exhausted && p.queue != [] then Inner(p.(queue := p.queue[1..]), Ready(Some(p.queue[0])), [])
    else if !t.exhausted && p.closed then Inner(p.(drain := AtEnd), Ready(None), [])
    else
      var late := if p.closed then [] else t.late;
      var q := p.queue + late;
      if !t.shutdown then Inner(p.(queue := q), Pending, late)
      else if q != [] then Inner(p.(queue := q[1..]), Ready(Some(q[0])), late)
      else Inner(p.(drain := CutOff), Ready(None), late)
  }

  // ---------------------------------------------------------------------
  // The coalescing stream
  // ---------------------------------------------------------------------

  /** The outcome of a poll, with the frames that arrived meanwhile. */
  datatype Outer = Outer(p: Pipe, r: Polled, arrived: seq<Bytes>)

  function Flush(p: Pipe, arrived: seq<Bytes>): Outer {
    Outer(p.(buffer := [], armed := false), Ready(Some(p.buffer)), arrived)
  }

  /** What a pass makes of the frame stream's answer; `None` if the loop goes round again. */
  function Pass(i: Inner, t: Tick, max: nat): Option<Outer> {
    var p := i.p;
    match i.r
    case Pending =>
      if p.armed && t.passedNow && p.buffer != [] then Some(Flush(p, i.arrived)) else Some(Outer(p, Pending, i.arrived))
    case Ready(None) =>
      if p.buffer == [] then Some(Outer(p, Ready(None), i.arrived)) else Some(Flush(p, i.arrived))
    case Ready(Some(bytes)) =>
      var p' := p.(buffer := p.buffer + bytes);
      if bytes == [] || |p'.buffer| >= max then Some(Flush(p', i.arrived)) else None
  }

  /** The state in which the loop goes round again. */
  function Grown(i: Inner): Pipe
    requires i.r.Ready? && i.r.item.Some?
  {
    i.p.(buffer := i.p.buffer + i.r.item.value, armed := true)
  }

  /** `BufferedStream::poll_next`, from pass `n` of its loop on. */
  function Poll(p: Pipe, max: nat, env: nat -> Tick, n: nat): Outer
    decreases max - |p.buffer|
  {
    if p.armed && env(n).passed && p.buffer != [] then Flush(p, [])
    else
      var i := PollFrame(p, env(n));
      match Pass(i, env(n), max)
      case Some(o) => o
      case None =>
        var o := Poll(Grown(i), max, env, n + 1);
        o.(arrived := i.arrived + o.arrived)
  }

  class BufferedStream {
    const max: nat
    var queue: seq<Bytes>
    var closed: bool
    var drain: Drain
    var buffer: Bytes
    var armed: bool

    constructor (max: nat)
      ensures this.max == max && State() == EMPTY
    {
      this.max := max;
      queue, closed, drain, buffer, armed := [], false, Open, [], false;
    }

    function State(): Pipe
      reads this
    {
      Pipe(queue, closed, drain, buffer, armed)
    }

    method PollFrameStream(t: Tick) returns (r: Polled, ghost arrived: seq<Bytes>)
      modifies this`queue, this`drain
      ensures Inner(State(), r, arrived) == PollFrame(old(State()), t)
    {
      arrived := [];
      if drain != Open {
        return Ready(None), arrived;
      }
      if !t.exhausted {
        if queue != [] {
          r := Ready(Some(queue[0]));
          queue := queue[1..];
          return;
        }
        if closed {
          drain := AtEnd;
          return Ready(None), arrived;
        }
      }
      if !closed {
        queue, arrived := queue + t.late, t.late;
      }
      if t.shutdown {
        if queue != [] {
          r := Ready(Some(queue[0]));
          queue := queue[1..];
          return;
        }
        drain := CutOff;
        return Ready(None), arrived;
      }
      return Pending, arrived;
    }

    method Split() returns (flushed: Bytes)
      modifies this`buffer, this`armed
      ensures flushed == old(buffer) && buffer == [] && !armed
    {
      flushed := buffer;
      buffer, armed := [], false;
    }

    method PollNext(env: nat -> Tick) returns (r: Polled, ghost arrived: seq<Bytes>)
      modifies this`queue, this`drain, this`buffer, this`armed
      ensures Outer(State(), r, arrived) == Poll(old(State()), max, env, 0)
    {
      arrived := [];
      var n := 0;
      while true
        invariant Poll(old(State()), max, env, 0) ==
                  (var o := Poll(State(), max, env, n); o.(arrived := arrived + o.arrived))
        decreases max - |buffer|
      {
        var t := env(n);
        if armed && t.passed && buffer != [] {
          var flushed := Split();
          return Ready(Some(flushed)), arrived;
        }
        ghost var more;
        r, more := PollFrameStream(t);
        ghost var before := arrived;
        arrived := arrived + more;
        match r
        case Pending =>
          if armed && t.passedNow && buffer != [] {
            var flushed := Split();
            return Ready(Some(flushed)), arrived;
          }
          return;
        case Ready(None) =>
          if buffer == [] {
            return;
          }
          var flushed := Split();
          return Ready(Some(flushed)), arrived;
        case Ready(Some(bytes)) =>
          buffer := buffer + bytes;
          if bytes == [] || |buffer| >= max {
            var flushed := Split();
            return Ready(Some(flushed)), arrived;
          }
          armed := true;
          n := n + 1;
          ConcatAssoc(before, more, Poll(State(), max, env, n).arrived);
      }
    }
  }

  // ---------------------------------------------------------------------
  // What a poll keeps
  // ---------------------------------------------------------------------

  /** A deadline is armed exactly when bytes are waiting, and then fewer than `max` are. */
  predicate Tidy(p: Pipe, max: nat) {
    && (p.armed <==> p.buffer != [])
    && (p.buffer != [] ==> |p.buffer| < max)
    && (p.drain == AtEnd ==> p.closed && p.queue == [])
  }

  function Emitted(r: Polled): seq<Bytes> {
    if r.Ready? then Opt(r.item) else []
  }

  /** Bytes are neither lost, invented nor reordered on their way through one poll of the channel. */
  lemma PollFrameConserves(p: Pipe, t: Tick)
    ensures var i := PollFrame(p, t);
            && Emitted(i.r) + i.p.queue == p.queue + i.arrived
            && i.p.buffer == p.buffer && i.p.armed == p.armed && i.p.closed == p.closed
            && (p.closed ==> i.arrived == [])
  {
  }

  lemma {:induction false} FlattenConcat(a: seq<Bytes>, b: seq<Bytes>)
    ensures Flatten(a + b) == Flatten(a) + Flatten(b)
  {
    if a == [] {
      assert a + b == b;
    } else {
      assert (a + b)[1..] == a[1..] + b;
      FlattenConcat(a[1..], b);
      ConcatAssoc(a[0], Flatten(a[1..]), Flatten(b));
    }
  }

  /** The bytes inside the pipe: those waiting to be flushed, then those still in the channel. */
  function Inside(p: Pipe): Bytes {
    p.buffer + Flatten(p.queue)
  }

  lemma FlattenOne(b: Bytes)
    ensures Flatten([b]) == b && Flatten<bv8>([]) == []
  {
    assert [b][1..] == [];
  }

  /** Bytes through one pass of the loop. */
  lemma PassConserves(p: Pipe, t: Tick, max: nat)
    ensures var i := PollFrame(p, t);
            match Pass(i, t, max)
            case Some(o) =>
              o.arrived == i.arrived && Flatten(Emitted(o.r)) + Inside(o.p) == Inside(p) + Flatten(i.arrived)
            case None => Inside(Grown(i)) == Inside(p) + Flatten(i.arrived)
  {
    hide PollFrame, Flatten;
    var i := PollFrame(p, t);
    PollFrameConserves(p, t);
    FlattenConcat(p.queue, i.arrived);
    FlattenConcat(Emitted(i.r), i.p.queue);
    ConcatAssoc(p.buffer, Flatten(p.queue), Flatten(i.arrived));
    assert Inside(p) + Flatten(i.arrived) == p.buffer + (Flatten(Emitted(i.r)) + Flatten(i.p.queue));
    FlattenOne(i.p.buffer);
    if i.r.Ready? && i.r.item.Some? {
      var bytes := i.r.item.value;
      FlattenOne(bytes);
      FlattenOne(i.p.buffer + bytes);
      ConcatAssoc(p.buffer, bytes, Flatten(i.p.queue));
    }
  }

  /**
   * One poll of the coalescing stream: bytes are neither lost, invented nor reordered.
   */
  lemma {:induction false} PollConserves(p: Pipe, max: nat, env: nat -> Tick, n: nat)
    ensures var o := Poll(p, max, env, n);
            Flatten(Emitted(o.r)) + Inside(o.p) == Inside(p) + Flatten(o.arrived)
    decreases max - |p.buffer|
  {
    var t := env(n);
    FlattenOne(p.buffer);
    if !(p.armed && t.passed && p.buffer != []) {
      var i := PollFrame(p, t);
      PassConserves(p, t, max);
      if Pass(i, t, max) == None {
        var o := Poll(Grown(i), max, env, n + 1);
        PollConserves(Grown(i), max, env, n + 1);
        FlattenConcat(i.arrived, o.arrived);
        ConcatAssoc(Inside(p), Flatten(i.arrived), Flatten(o.arrived));
      }
      hide Flatten, Inside, PollFrame;
    }
  }

  /**
   * The deadline stays in step with the buffer. The stream ends only with an empty buffer and a drained
   * channel, and a drained channel stays drained.
   */
  predicate KeptTidy(p: Pipe, o: Outer, max: nat) {
    && Tidy(o.p, max)
    && o.p.closed == p.closed
    && (o.r == Ready(None) ==> o.p.drain != Open && o.p.buffer == [])
    && (p.closed ==> o.arrived == [])
    && (p.drain != Open ==> o.p.drain == p.drain && !o.r.Pending?)
  }

  lemma PollFrameTidy(p: Pipe, t: Tick, max: nat)
    requires Tidy(p, max)
    ensures var i := PollFrame(p, t);
            && Tidy(i.p, max) && i.p.closed == p.closed && (p.closed ==> i.arrived == [])
            && (p.drain != Open ==> i == Inner(p, Ready(None), []))
            && (i.r == Ready(None) ==> i.p.drain != Open)
            && (i.r.Ready? && i.r.item.Some? ==> p.drain == i.p.drain == Open)
  {
  }

  lemma PassKeepsTidy(p: Pipe, t: Tick, max: nat)
    requires Tidy(p, max)
    ensures var i := PollFrame(p, t);
            match Pass(i, t, max)
            case Some(o) => KeptTidy(p, o, max)
            case None =>
              && p.drain == Open && Tidy(Grown(i), max)
              && Grown(i).closed == p.closed && (p.closed ==> i.arrived == [])
  {
    PollFrameTidy(p, t, max);
    hide PollFrame;
  }

  /** One poll, whatever the pattern of pending answers and deadlines, keeps the stream tidy. */
  lemma {:induction false} PollKeepsTidy(p: Pipe, max: nat, env: nat -> Tick, n: nat)
    requires Tidy(p, max)
    ensures KeptTidy(p, Poll(p, max, env, n), max)
    decreases max - |p.buffer|
  {
    if !(p.armed && env(n).passed && p.buffer != []) {
      var i := PollFrame(p, env(n));
      PassKeepsTidy(p, env(n), max);
      hide PollFrame, Tidy;
      if Pass(i, env(n), max) == None {
        PollKeepsTidy(Grown(i), max, env, n + 1);
      }
    }
  }

  /** Bytes whose deadline has passed are handed out at once. */
  lemma DeadlineFlushes(p: Pipe, max: nat, env: nat -> Tick)
    requires Tidy(p, max) && p.buffer != [] && env(0).passed
    ensures Poll(p, max, env, 0).r == Ready(Some(p.buffer))
  {
  }

  /** An empty frame asks for a flush and gets one, however little is buffered. */
  lemma EmptyFrameFlushes(p: Pipe, max: nat, env: nat -> Tick, n: nat)
    requires p.drain == Open && p.queue != [] && p.queue[0] == [] && !env(n).exhausted
    ensures Poll(p, max, env, n).r == Ready(Some(p.buffer))
  {
    assert p.buffer + [] == p.buffer;
  }

  // ---------------------------------------------------------------------
  // A closed stream ends
  // ---------------------------------------------------------------------

  ghost predicate NeverExhausted(env: nat -> Tick) {
    forall k :: !env(k).exhausted
  }

  /** At most this many polls yield something before the end of a closed stream. */
  function Left(p: Pipe): nat {
    |p.queue| + (if p.buffer != [] then 1 else 0) + (if p.drain == Open then 1 else 0)
  }

  /** Once the writer is gone, a poll is never pending: it reports the end, or yields something and leaves less. */
  lemma {:induction false} ClosedPollProgress(p: Pipe, max: nat, env: nat -> Tick, n: nat)
    requires p.closed && p.drain != CutOff && NeverExhausted(env)
    ensures var o := Poll(p, max, env, n);
            && o.r.Ready? && o.p.closed && o.p.drain != CutOff && o.arrived == []
            && (o.r.item.Some? ==> Left(o.p) < Left(p))
    decreases max - |p.buffer|
  {
    assert !env(n).exhausted;
    if !(p.armed && env(n).passed && p.buffer != []) {
      var i := PollFrame(p, env(n));
      if Pass(i, env(n), max) == None {
        ClosedPollProgress(Grown(i), max, env, n + 1);
      }
    }
  }

  // ---------------------------------------------------------------------
  // What is held back, and what a shutdown does
  // ---------------------------------------------------------------------

  ghost predicate NoDeadline(env: nat -> Tick) {
    forall k :: !env(k).passed && !env(k).passedNow
  }

  /** As long as no deadline passes, no frame is empty and the stream goes on, only whole blocks are yielded. */
  lemma {:induction false} YieldsWholeBlocks(p: Pipe, max: nat, env: nat -> Tick, n: nat)
    requires NoDeadline(env)
    ensures var o := Poll(p, max, env, n);
            o.r.Ready? && o.r.item.Some? && o.p.drain == Open && [] !in p.queue + o.arrived ==> |o.r.item.value| >= max
    decreases max - |p.buffer|
  {
    assert !env(n).passed && !env(n).passedNow;
    var i := PollFrame(p, env(n));
    PollFrameConserves(p, env(n));
    if Pass(i, env(n), max) == None {
      YieldsWholeBlocks(Grown(i), max, env, n + 1);
      var rest := Poll(Grown(i), max, env, n + 1);
      assert forall b :: b in i.p.queue + rest.arrived ==> b in p.queue + (i.arrived + rest.arrived) by {
        assert forall b :: b in i.p.queue ==> b in Emitted(i.r) + i.p.queue;
      }
    } else {
      assert forall b :: b in Emitted(i.r) ==> b in Emitted(i.r) + i.p.queue;
    }
    hide PollFrame;
  }

  /** A shutdown found at an empty channel cuts the stream off; what is buffered is still yielded. */
  lemma ShutdownCutsOff(p: Pipe, max: nat, env: nat -> Tick, n: nat)
    requires p.drain == Open && p.queue == [] && !p.closed && env(n).shutdown && env(n).late == []
    requires !(p.armed && env(n).passed && p.buffer != [])
    ensures var o := Poll(p, max, env, n);
            o.p.drain == CutOff && o.r == Ready(if p.buffer == [] then None else Some(p.buffer))
  {
  }

  /** Nothing else cuts it off. */
  lemma {:induction false} OnlyShutdownCutsOff(p: Pipe, max: nat, env: nat -> Tick, n: nat)
    requires p.drain != CutOff && forall k :: !env(k).shutdown
    ensures Poll(p, max, env, n).p.drain != CutOff
    decreases max - |p.buffer|
  {
    assert !env(n).shutdown;
    if !(p.armed && env(n).passed && p.buffer != []) {
      var i := PollFrame(p, env(n));
      if Pass(i, env(n), max) == None { OnlyShutdownCutsOff(Grown(i), max, env, n + 1); }
    }
  }

  /** A poll that finds the deadline passed leaves nothing buffered behind. */
  lemma {:induction false} NothingWaitsPastTheDeadline(p: Pipe, max: nat, env: nat -> Tick, n: nat)
    requires Tidy(p, max) && forall k :: env(k).passedNow
    ensures Poll(p, max, env, n).r == Pending ==> Poll(p, max, env, n).p.buffer == []
    decreases max - |p.buffer|
  {
    assert env(n).passedNow;
    if !(p.armed && env(n).passed && p.buffer != []) {
      var i := PollFrame(p, env(n));
      PassKeepsTidy(p, env(n), max);
      PollFrameTidy(p, env(n), max);
      if Pass(i, env(n), max) == None { NothingWaitsPastTheDeadline(Grown(i), max, env, n + 1); }
    }
  }
}
