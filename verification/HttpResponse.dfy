/**
 * The response object handed to the application: a one-shot sender for the response itself and, once
 * frames are sent, a streamed body. Calls may come in any order; the body is polled in between.
 */
module HttpResponse {
  import opened Common
  import opened FrameStream

  const MAX_FLUSH_BYTES := 32 * 1024

  datatype Body = NoBody | Whole(bytes: Bytes) | Streamed

  /** What the server receives from the one-shot channel. */
  datatype Frame = Http(status: nat, body: Body) | Hijacked

  /** A streamed body with its past: frames the channel accepted and blocks polled out of it. */
  datatype Stream = Stream(pipe: Pipe, connected: bool, accepted: seq<Bytes>, emitted: seq<Bytes>, ended: bool)

  /** `response` is the status of the response still held back. */
  datatype Response = Response(
    response: Option<nat>, writer: bool, sender: bool, hijacked: bool, stream: Option<Stream>, delivered: seq<Frame>)

  const FRESH := Response(Some(200), false, true, false, None, [])

  datatype Result = Ok | ClientConnectionClosed | InvalidInput

  // ---------------------------------------------------------------------
  // Calls
  // ---------------------------------------------------------------------

  function Deliver(r: Response, f: Frame): Response {
    if r.sender then r.(sender := false, delivered := r.delivered + [f]) else r
  }

  /** The first frame sends the response on its way, with a fresh stream for a body. */
  function StartStream(r: Response): Response
    requires r.response.Some?
  {
    Deliver(r.(response := None, writer := true, stream := Some(Stream(EMPTY, r.sender, [], [], false))),
            Http(r.response.value, Streamed))
  }

  function Push(st: Stream, bytes: Bytes): Stream {
    st.(pipe := st.pipe.(queue := st.pipe.queue + [bytes]), accepted := st.accepted + [bytes])
  }

  predicate Reachable(r: Response) {
    r.writer && r.stream.Some? && r.stream.value.connected
  }

  function FrameSent(r: Response, bytes: Bytes): Response {
    var r := if !r.writer && r.response.Some? then StartStream(r) else r;
    if Reachable(r) then r.(stream := Some(Push(r.stream.value, bytes))) else r
  }

  /** Whether the frame is refused because nobody is left to read it. */
  predicate SendFails(r: Response) {
    if r.writer then !Reachable(r) else r.response.Some? && !r.sender
  }

  function WriteClosed(r: Response): Response {
    r.(writer := false,
       stream := if r.writer && r.stream.Some?
                 then Some(r.stream.value.(pipe := r.stream.value.pipe.(closed := true))) else r.stream)
  }

  function SentAndClosed(r: Response, bytes: Bytes): Response {
    if r.writer then (if SendFails(r) then r else WriteClosed(FrameSent(r, bytes)))
    else if r.response.Some? then
      Deliver(r.(response := None), Http(r.response.value, if bytes == [] then NoBody else Whole(bytes)))
    else r
  }

  function HijackDone(r: Response): Response {
    WriteClosed(Deliver(r.(hijacked := true), Hijacked))
  }

  /** The senders of "500 internal server error" and "503 service unavailable". */
  function Failed(r: Response, status: nat): Response {
    var r := WriteClosed(r);
    if r.response.Some? then Deliver(r.(response := None), Http(status, NoBody)) else r
  }

  function StatusSet(r: Response, status: nat): Response {
    if r.response.Some? && 100 <= status <= 999 then r.(response := Some(status)) else r
  }

  predicate IsClosed(r: Response) {
    r.response == None && !r.writer
  }

  class ItsiHttpResponse {
    var response: Option<nat>
    var frameWriter: bool
    var responseSender: bool
    var hijackedSocket: bool
    var stream: Option<Stream>
    ghost var delivered: seq<Frame>

    constructor ()
      ensures State() == FRESH
    {
      response, frameWriter, responseSender, hijackedSocket, stream := Some(200), false, true, false, None;
      delivered := [];
    }

    ghost function State(): Response
      reads this
    {
      Response(response, frameWriter, responseSender, hijackedSocket, stream, delivered)
    }

    method TrySend(f: Frame)
      modifies this`responseSender, this`delivered
      ensures State() == Deliver(old(State()), f)
    {
      if responseSender {
        responseSender, delivered := false, delivered + [f];
      }
    }

    method SendFrame(bytes: Bytes) returns (r: Result)
      requires frameWriter ==> stream.Some?
      modifies this
      ensures State() == FrameSent(old(State()), bytes)
      ensures r == if SendFails(old(State())) then ClientConnectionClosed else Ok
    {
      if !frameWriter && response.Some? {
        var status := response.value;
        response := None;
        stream := Some(Stream(EMPTY, responseSender, [], [], false));
        frameWriter := true;
        TrySend(Http(status, Streamed));
      }
      if frameWriter {
        if !stream.value.connected {
          return ClientConnectionClosed;
        }
        stream := Some(Push(stream.value, bytes));
      }
      return Ok;
    }

    method SendAndClose(bytes: Bytes) returns (r: Result)
      requires frameWriter ==> stream.Some?
      modifies this
      ensures State() == SentAndClosed(old(State()), bytes)
      ensures r == if old(frameWriter) && SendFails(old(State())) then ClientConnectionClosed else Ok
    {
      if frameWriter {
        r := SendFrame(bytes);
        if r == Ok {
          CloseWrite();
        }
        return;
      }
      if response.Some? {
        var status := response.value;
        response := None;
        TrySend(Http(status, if bytes == [] then NoBody else Whole(bytes)));
      }
      return Ok;
    }

    method CloseWrite()
      modifies this`frameWriter, this`stream
      ensures State() == WriteClosed(old(State()))
    {
      if frameWriter && stream.Some? {
        stream := Some(stream.value.(pipe := stream.value.pipe.(closed := true)));
      }
      frameWriter := false;
    }

    method Hijack()
      modifies this
      ensures State() == HijackDone(old(State()))
    {
      hijackedSocket := true;
      TrySend(Hijacked);
      CloseWrite();
    }

    method Fail(status: nat)
      modifies this
      ensures State() == Failed(old(State()), status)
    {
      CloseWrite();
      if response.Some? {
        response := None;
        TrySend(Http(status, NoBody));
      }
    }

    method SetStatus(status: nat) returns (r: Result)
      modifies this`response
      ensures State() == StatusSet(old(State()), status)
      ensures r == InvalidInput <==> response.Some? && !(100 <= status <= 999)
    {
      if response.Some? {
        if !(100 <= status <= 999) {
          return InvalidInput;
        }
        response := Some(status);
      }
      return Ok;
    }
  }

  // ---------------------------------------------------------------------
  // Every sequence of calls and polls
  // ---------------------------------------------------------------------

  datatype Step =
    | CallSendFrame(bytes: Bytes)
    | CallSendAndClose(bytes: Bytes)
    | CallCloseWrite
    | CallHijack
    | CallFail(status: nat)
    | CallSetStatus(status: nat)
    | Disconnect                     // the client goes away and the body is dropped
    | PollBody(env: nat -> Tick)     // frames arriving meanwhile count as accepted

  function PollStream(st: Stream, env: nat -> Tick): Stream {
    var o := Poll(st.pipe, MAX_FLUSH_BYTES, env, 0);
    Stream(o.p, st.connected, st.accepted + o.arrived, st.emitted + Emitted(o.r), o.r == Ready(None))
  }

  function After(r: Response, step: Step): Response {
    match step
    case CallSendFrame(bytes) => FrameSent(r, bytes)
    case CallSendAndClose(bytes) => SentAndClosed(r, bytes)
    case CallCloseWrite => WriteClosed(r)
    case CallHijack => HijackDone(r)
    case CallFail(status) => Failed(r, status)
    case CallSetStatus(status) => StatusSet(r, status)
    case Disconnect =>
      if r.stream.Some? then r.(stream := Some(r.stream.value.(connected := false))) else r
    case PollBody(env) =>
      if r.stream.Some? && r.stream.value.connected then r.(stream := Some(PollStream(r.stream.value, env))) else r
  }

  predicate StreamSound(st: Stream) {
    && Tidy(st.pipe, MAX_FLUSH_BYTES)
    && Flatten(st.emitted) + Inside(st.pipe) == Flatten(st.accepted)
    && (st.ended ==> st.pipe.drain != Open && st.pipe.buffer == [])
  }

  predicate StreamFits(r: Response, st: Stream) {
    && r.response == None
    && (r.writer <==> !st.pipe.closed)
    && (st.connected ==> |r.delivered| == 1 && r.delivered[0].Http? && r.delivered[0].body == Streamed)
  }

  /** Who can still be in place when. */
  predicate Consistent(r: Response) {
    && |r.delivered| <= 1
    && (r.sender <==> r.delivered == [])
    && (r.sender ==> r.response.Some?)
    && (r.writer ==> r.stream.Some?)
    && (r.stream.Some? ==> StreamFits(r, r.stream.value))
    && (r.delivered != [] && r.delivered[0].Http? ==>
          r.response == None && (r.delivered[0].body != Streamed ==> r.stream == None))
  }

  predicate Sound(r: Response) {
    Consistent(r) && (r.stream.Some? ==> StreamSound(r.stream.value))
  }

  lemma PushKeeps(st: Stream, bytes: Bytes)
    requires StreamSound(st) && !st.pipe.closed
    ensures StreamSound(Push(st, bytes))
  {
    FlattenAppend(st.pipe.queue, bytes);
    FlattenAppend(st.accepted, bytes);
    hide Flatten;
    ConcatAssoc(st.pipe.buffer, Flatten(st.pipe.queue), bytes);
    ConcatAssoc(Flatten(st.emitted), Inside(st.pipe), bytes);
  }

  lemma PollKeeps(st: Stream, env: nat -> Tick)
    requires StreamSound(st)
    ensures StreamSound(PollStream(st, env)) && PollStream(st, env).pipe.closed == st.pipe.closed
    ensures st.pipe.closed ==> PollStream(st, env).accepted == st.accepted
  {
    var o := Poll(st.pipe, MAX_FLUSH_BYTES, env, 0);
    PollKeepsTidy(st.pipe, MAX_FLUSH_BYTES, env, 0);
    PollConserves(st.pipe, MAX_FLUSH_BYTES, env, 0);
    FlattenConcat(st.emitted, Emitted(o.r));
    FlattenConcat(st.accepted, o.arrived);
    hide Flatten, Poll, Inside;
    ConcatAssoc(Flatten(st.emitted), Flatten(Emitted(o.r)), Inside(o.p));
    ConcatAssoc(Flatten(st.emitted), Inside(st.pipe), Flatten(o.arrived));
  }

  lemma SendFrameKeeps(r: Response, bytes: Bytes)
    requires Sound(r)
    ensures Sound(FrameSent(r, bytes))
  {
    var r1 := if !r.writer && r.response.Some? then StartStream(r) else r;
    assert Flatten<bv8>([]) == [];
    assert Sound(r1);
    if Reachable(r1) { PushKeeps(r1.stream.value, bytes); }
  }

  /** Every call and every poll keeps the response sound. */
  lemma AfterKeeps(r: Response, step: Step)
    requires Sound(r)
    ensures Sound(After(r, step))
  {
    match step
    case CallSendFrame(bytes) => SendFrameKeeps(r, bytes);
    case CallSendAndClose(bytes) =>
      hide Flatten, FrameSent;
      if r.writer { SendFrameKeeps(r, bytes); }
    case PollBody(env) =>
      hide Flatten, Poll;
      if r.stream.Some? { PollKeeps(r.stream.value, env); }
    case _ =>
      hide Flatten;
  }

  /** The response after a sequence of calls and polls. */
  function Run(steps: seq<Step>): (r: Response)
    ensures Sound(r)
  {
    if steps == [] then FRESH
    else
      AfterKeeps(Run(steps[..|steps| - 1]), steps[|steps| - 1]);
      After(Run(steps[..|steps| - 1]), steps[|steps| - 1])
  }

  /**
   * At most one response is ever delivered; the bytes polled out of its body are a prefix of the frames
   * accepted, in order, and all of them when the stream ended without being cut off by a shutdown.
   */
  lemma BodyIsWhatWasSent(steps: seq<Step>)
    ensures |Run(steps).delivered| <= 1
    ensures var st := Run(steps).stream;
            st.Some? ==>
              && Flatten(st.value.emitted) <= Flatten(st.value.accepted)
              && (st.value.ended && st.value.pipe.drain != CutOff ==>
                    Flatten(st.value.emitted) == Flatten(st.value.accepted))
  {
    var r := Run(steps);
    assert Sound(r);
    if r.stream.Some? && r.stream.value.pipe.queue == [] {
      assert Flatten(r.stream.value.pipe.queue) == [];
    }
    hide Run;
  }

  /** A closed response stays closed: no later call delivers a response or gets a frame accepted. */
  lemma ClosedIsFinal(steps: seq<Step>, step: Step)
    requires IsClosed(Run(steps))
    ensures var r, r' := Run(steps), After(Run(steps), step);
            && IsClosed(r') && r'.delivered == r.delivered
            && r'.stream.Some? == r.stream.Some?
            && (r.stream.Some? ==> r'.stream.value.accepted == r.stream.value.accepted)
  {
    var r := Run(steps);
    assert Sound(r);
    hide Run, Flatten, Poll;
    if step.PollBody? && r.stream.Some? { PollKeeps(r.stream.value, step.env); }
  }

  // ---------------------------------------------------------------------
  // A closed body is delivered
  // ---------------------------------------------------------------------

  function PollMany(st: Stream, envs: seq<nat -> Tick>): Stream
    decreases |envs|
  {
    if envs == [] then st else PollMany(PollStream(st, envs[0]), envs[1..])
  }

  function Polls(envs: seq<nat -> Tick>): (steps: seq<Step>)
    ensures |steps| == |envs| && forall i :: 0 <= i < |envs| ==> steps[i] == PollBody(envs[i])
  {
    if envs == [] then [] else [PollBody(envs[0])] + Polls(envs[1..])
  }

  ghost predicate AllUnexhausted(envs: seq<nat -> Tick>) {
    forall i :: 0 <= i < |envs| ==> NeverExhausted(envs[i])
  }

  /** One poll of a closed body. */
  lemma ClosedPoll(st: Stream, env: nat -> Tick)
    requires st.pipe.closed && st.pipe.drain != CutOff && NeverExhausted(env)
    ensures var st' := PollStream(st, env);
            && st'.pipe.closed && st'.pipe.drain != CutOff && st'.accepted == st.accepted
            && (st'.ended || Left(st'.pipe) < Left(st.pipe))
  {
    ClosedPollProgress(st.pipe, MAX_FLUSH_BYTES, env, 0);
    hide Poll, Left, NeverExhausted;
  }

  /** The end is reported again and again. */
  lemma EndStays(st: Stream, env: nat -> Tick)
    requires StreamSound(st) && st.ended
    ensures PollStream(st, env).ended
  {
    hide Flatten;
  }

  /** More polls than there is left to yield reach the end. */
  lemma {:induction false} ClosedStreamEnds(st: Stream, envs: seq<nat -> Tick>)
    requires StreamSound(st) && st.pipe.closed && st.pipe.drain != CutOff && AllUnexhausted(envs)
    requires st.ended || |envs| > Left(st.pipe)
    ensures var st' := PollMany(st, envs);
            && StreamSound(st') && st'.ended && st'.pipe.drain != CutOff && st'.accepted == st.accepted
    decreases |envs|
  {
    if envs != [] {
      assert NeverExhausted(envs[0]);
      assert AllUnexhausted(envs[1..]);
      hide PollStream, StreamSound, NeverExhausted;
      PollKeeps(st, envs[0]);
      ClosedPoll(st, envs[0]);
      if st.ended { EndStays(st, envs[0]); }
      ClosedStreamEnds(PollStream(st, envs[0]), envs[1..]);
    }
  }

  lemma RunOnePoll(steps: seq<Step>, env: nat -> Tick)
    requires Run(steps).stream.Some? && Run(steps).stream.value.connected
    ensures Run(steps + [PollBody(env)]) == Run(steps).(stream := Some(PollStream(Run(steps).stream.value, env)))
  {
    var one := steps + [PollBody(env)];
    assert one[..|one| - 1] == steps;
    assert Run(one) == After(Run(steps), PollBody(env));
    hide Run, PollStream;
  }

  lemma {:induction false} RunPolls(steps: seq<Step>, envs: seq<nat -> Tick>)
    requires Run(steps).stream.Some? && Run(steps).stream.value.connected
    ensures Run(steps + Polls(envs)) == Run(steps).(stream := Some(PollMany(Run(steps).stream.value, envs)))
    decreases |envs|
  {
    if envs == [] {
      assert steps + Polls(envs) == steps;
    } else {
      var one := steps + [PollBody(envs[0])];
      assert steps + Polls(envs) == one + Polls(envs[1..]);
      hide Run, PollStream, Polls;
      RunOnePoll(steps, envs[0]);
      RunPolls(one, envs[1..]);
    }
  }

  /**
   * After any sequence of calls and polls that leaves the writer closed, the client connected and no shutdown in
   * between: enough further polls emit every byte accepted, and report the end.
   */
  lemma ClosedBodyIsDelivered(steps: seq<Step>, envs: seq<nat -> Tick>)
    requires var r := Run(steps);
             && r.stream.Some? && r.stream.value.connected && !r.writer && r.stream.value.pipe.drain != CutOff
             && |envs| > Left(r.stream.value.pipe)
    requires AllUnexhausted(envs)
    ensures var st, r' := Run(steps).stream.value, Run(steps + Polls(envs));
            && r'.stream.Some? && r'.stream.value.ended
            && Flatten(r'.stream.value.emitted) == Flatten(st.accepted)
  {
    var r := Run(steps);
    assert Sound(r);
    RunPolls(steps, envs);
    ClosedStreamEnds(r.stream.value, envs);
    BodyIsWhatWasSent(steps + Polls(envs));
    hide Run, PollMany, Flatten;
  }
}
