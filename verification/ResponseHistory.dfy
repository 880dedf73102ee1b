/**
 * What a response delivers, told from the calls alone: which call delivers it, with which status and body, and which
 * frames the body is made of.
 */
module ResponseHistory {
  import opened Common
  import opened FrameStream
  import opened HttpResponse

  /** The calls that deliver something if nothing was delivered before. */
  predicate Delivers(step: Step) {
    step.CallSendFrame? || step.CallSendAndClose? || step.CallHijack? || step.CallFail?
  }

  predicate Silent(steps: seq<Step>) {
    forall i :: 0 <= i < |steps| ==> !Delivers(steps[i])
  }

  /** The last status of three digits that was set, 200 if there was none. */
  function StatusAfter(steps: seq<Step>): nat {
    if steps == [] then 200
    else
      var last := steps[|steps| - 1];
      if last.CallSetStatus? && 100 <= last.status <= 999 then last.status else StatusAfter(steps[..|steps| - 1])
  }

  /** What such a call delivers. */
  function FrameFor(step: Step, status: nat): Frame
    requires Delivers(step)
  {
    match step
    case CallSendFrame(_) => Http(status, Streamed)
    case CallSendAndClose(bytes) => Http(status, if bytes == [] then NoBody else Whole(bytes))
    case CallFail(failure) => Http(failure, NoBody)
    case CallHijack => Hijacked
  }

  /** The calls after which no frame gets into the body any more. */
  predicate Ends(step: Step) {
    step.CallCloseWrite? || step.CallSendAndClose? || step.CallHijack? || step.CallFail? || step.Disconnect?
  }

  /** A frame delivered the response, and nothing has ended its body since. */
  predicate StreamOpen(steps: seq<Step>) {
    steps != [] &&
    var front, last := steps[..|steps| - 1], steps[|steps| - 1];
    (last.CallSendFrame? && Silent(front)) || (StreamOpen(front) && !Ends(last))
  }

  /** The frames that arrive while the body is polled, from calls on other threads. */
  function ArrivedIn(r: Response, env: nat -> Tick): seq<Bytes> {
    if r.stream.Some? && r.stream.value.connected then Poll(r.stream.value.pipe, MAX_FLUSH_BYTES, env, 0).arrived
    else []
  }

  /** The frames passed by calls while the body is open, and those that arrive during polls. */
  function Frames(steps: seq<Step>): seq<Bytes> {
    if steps == [] then []
    else
      var front, last := steps[..|steps| - 1], steps[|steps| - 1];
      Frames(front) +
      match last
      case CallSendFrame(bytes) => if Silent(front) || StreamOpen(front) then [bytes] else []
      case CallSendAndClose(bytes) => if StreamOpen(front) then [bytes] else []
      case PollBody(env) => ArrivedIn(Run(front), env)
      case _ => []
  }

  /** The response is as the calls say. */
  predicate Told(steps: seq<Step>, r: Response) {
    && (r.sender <==> Silent(steps))
    && (r.sender ==> r.response == Some(StatusAfter(steps)) && r.stream == None && r.delivered == [])
    && (Reachable(r) <==> StreamOpen(steps))
    && Frames(steps) == AcceptedBy(r)
  }

  /** One call more. */
  lemma SilentThen(front: seq<Step>, step: Step)
    ensures Silent(front + [step]) <==> Silent(front) && !Delivers(step)
  {
    var all := front + [step];
    assert all[|front|] == step && forall i :: 0 <= i < |front| ==> all[i] == front[i];
  }

  /** What a step does to the sender, to the way into the body, and to the frames in it. */
  lemma SenderAfter(r: Response, step: Step)
    requires Sound(r)
    ensures var r' := After(r, step);
            && (r'.sender <==> r.sender && !Delivers(step))
            && (r'.sender ==>
                  && r'.stream == None && r'.delivered == []
                  && r'.response == (if step.CallSetStatus? && 100 <= step.status <= 999 then Some(step.status)
                                     else r.response))
  {
    hide StreamSound, Poll;
  }

  lemma OpenAfter(r: Response, step: Step)
    requires Sound(r)
    ensures Reachable(After(r, step)) <==> (step.CallSendFrame? && r.sender) || (Reachable(r) && !Ends(step))
  {
    hide StreamSound, Poll;
  }

  function AcceptedBy(r: Response): seq<Bytes> {
    if r.stream.Some? then r.stream.value.accepted else []
  }

  lemma FramesAfter(r: Response, step: Step)
    requires Sound(r)
    ensures AcceptedBy(After(r, step)) == AcceptedBy(r) +
            match step
            case CallSendFrame(bytes) => if r.sender || Reachable(r) then [bytes] else []
            case CallSendAndClose(bytes) => if Reachable(r) then [bytes] else []
            case PollBody(env) => ArrivedIn(r, env)
            case _ => []
  {
    hide StreamSound, Poll;
  }

  lemma ToldAfter(front: seq<Step>, step: Step)
    requires Told(front, Run(front))
    ensures Told(front + [step], After(Run(front), step))
  {
    var r := Run(front);
    assert Sound(r);
    hide Sound, Silent, Run, After, Frames, StreamOpen, StatusAfter, ArrivedIn, Reachable, Delivers, Ends;
    SilentThen(front, step);
    OneMore(front, step);
    SenderAfter(r, step);
    OpenAfter(r, step);
    FramesAfter(r, step);
  }

  lemma OneMore(front: seq<Step>, step: Step)
    ensures var all := front + [step];
            && StreamOpen(all) == ((step.CallSendFrame? && Silent(front)) || (StreamOpen(front) && !Ends(step)))
            && StatusAfter(all) == (if step.CallSetStatus? && 100 <= step.status <= 999 then step.status
                                    else StatusAfter(front))
            && Frames(all) == Frames(front) +
                              match step
                              case CallSendFrame(bytes) =>
                                if Silent(front) || StreamOpen(front) then [bytes] else []
                              case CallSendAndClose(bytes) => if StreamOpen(front) then [bytes] else []
                              case PollBody(env) => ArrivedIn(Run(front), env)
                              case _ => []
  {
    var all := front + [step];
    assert all[..|all| - 1] == front && all[|all| - 1] == step;
    hide Silent, Run, ArrivedIn;
  }

  lemma RunLast(steps: seq<Step>)
    requires steps != []
    ensures Run(steps) == After(Run(steps[..|steps| - 1]), steps[|steps| - 1])
    ensures Sound(Run(steps[..|steps| - 1]))
  {
    hide After, Sound;
  }

  lemma FreshIsTold()
    ensures Told([], FRESH) && Run([]) == FRESH
  {
  }

  lemma {:induction false} RunIsTold(steps: seq<Step>)
    ensures Told(steps, Run(steps))
    decreases |steps|
  {
    hide Told, After, Run;
    if steps == [] {
      FreshIsTold();
    } else {
      var front, last := steps[..|steps| - 1], steps[|steps| - 1];
      RunIsTold(front);
      assert front + [last] == steps;
      ToldAfter(front, last);
      RunLast(steps);
    }
  }

  /** A delivered response is not delivered again, and the first call that can deliver it does. */
  lemma DeliversOnce(r: Response, step: Step)
    requires Sound(r)
    ensures After(r, step).delivered ==
            if r.sender && Delivers(step) && r.response.Some? then [FrameFor(step, r.response.value)] else r.delivered
  {
    hide StreamSound, Poll;
  }

  lemma SenderTells(steps: seq<Step>)
    ensures var r := Run(steps);
            && (r.sender <==> Silent(steps))
            && (r.sender ==> r.response == Some(StatusAfter(steps)) && r.delivered == [])
  {
    RunIsTold(steps);
    hide Run, Silent, StatusAfter, Frames, StreamOpen;
  }

  /**
   * Over every sequence of calls and polls: nothing is delivered before the first call that can deliver, and what is
   * delivered from then on is what that call stands for, with the status set by then.
   */
  lemma {:induction false} DeliveredIs(steps: seq<Step>, i: nat)
    requires i < |steps| && Delivers(steps[i]) && Silent(steps[..i])
    ensures Run(steps[..i]).delivered == []
    ensures Run(steps).delivered == [FrameFor(steps[i], StatusAfter(steps[..i]))]
    decreases |steps|
  {
    var front, last := steps[..|steps| - 1], steps[|steps| - 1];
    hide Sound, After, Silent, Run, StatusAfter, FrameFor, Delivers;
    RunLast(steps);
    SenderTells(front);
    DeliversOnce(Run(front), last);
    SenderTells(steps[..i]);
    if i < |front| {
      assert front[..i] == steps[..i];
      DeliveredIs(front, i);
      NoLongerSilent(front, i);
    } else {
      assert front == steps[..i];
    }
  }

  lemma NoLongerSilent(steps: seq<Step>, i: nat)
    requires i < |steps| && Delivers(steps[i])
    ensures !Silent(steps)
  {
  }

  /** And the body holds the frames the calls passed, in order, with those that arrived during polls. */
  lemma AcceptedIs(steps: seq<Step>)
    requires Run(steps).stream.Some?
    ensures Run(steps).stream.value.accepted == Frames(steps)
  {
    RunIsTold(steps);
    hide Run, Frames;
  }

  /** The client gets exactly those frames once the body has ended without a shutdown. */
  lemma ClientGetsTheFrames(steps: seq<Step>)
    requires Run(steps).stream.Some?
    ensures var st := Run(steps).stream.value;
            && Flatten(st.emitted) <= Flatten(Frames(steps))
            && (st.ended && st.pipe.drain != CutOff ==> Flatten(st.emitted) == Flatten(Frames(steps)))
  {
    AcceptedIs(steps);
    BodyIsWhatWasSent(steps);
    hide Run, Frames, Flatten;
  }

  /** The response counts as hijacked exactly if it was. */
  lemma {:induction false} HijackedIff(steps: seq<Step>)
    ensures Run(steps).hijacked <==> CallHijack in steps
    decreases |steps|
  {
    if steps != [] {
      var front, last := steps[..|steps| - 1], steps[|steps| - 1];
      assert steps == front + [last];
      HijackedIff(front);
      RunLast(steps);
      HijackedAfter(Run(front), last);
      hide After, Run;
    }
  }

  lemma HijackedAfter(r: Response, step: Step)
    ensures After(r, step).hijacked <==> r.hijacked || step == CallHijack
  {
    hide Poll;
  }

  /** A frame sent is refused, or it gets into the body, or the response was closed before. */
  lemma FrameAcceptedOrRefused(steps: seq<Step>, bytes: Bytes)
    ensures var r, r' := Run(steps), After(Run(steps), CallSendFrame(bytes));
            && (SendFails(r) ==> !IsClosed(r) && (r'.stream.Some? ==> r'.stream.value.accepted == Frames(steps)))
            && (!SendFails(r) && !IsClosed(r) ==>
                  r'.stream.Some? && r'.stream.value.accepted == Frames(steps) + [bytes])
            && (IsClosed(r) ==> r' == r)
  {
    RunIsTold(steps);
    assert Sound(Run(steps));
    hide Run, Frames, StreamSound, Silent, StreamOpen;
  }
}
