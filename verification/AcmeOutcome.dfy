/**
 * What one certificate order does and when it succeeds, told from the answers alone: the statuses it comes to see, what
 * it does about each, and where it stops.
 */
module AcmeOutcome {
  import opened Common
  import opened AcmeOrder

  // ---------------------------------------------------------------------
  // One authorization
  // ---------------------------------------------------------------------

  predicate IsPending(reply: AuthReply) {
    reply.Auth? && reply.status == AuthPending
  }

  predicate IsValid(reply: AuthReply) {
    reply.Auth? && reply.status == AuthValid
  }

  /** Answer `k` finds the domain authorized; up to then it was pending and each challenge was posted. */
  predicate ValidAfter(replies: seq<AuthReply>, posts: seq<bool>, k: nat) {
    && k <= 5 && IsValid(At(replies, k, NoAuth))
    && (forall j :: 0 <= j < k ==> IsPending(At(replies, j, NoAuth)) && At(posts, j, false))
    && (k > 0 ==> At(replies, 0, NoAuth).offersAlpn)
  }

  ghost predicate Succeeds(replies: seq<AuthReply>, posts: seq<bool>) {
    exists k: nat :: ValidAfter(replies, posts, k)
  }

  /** The retries succeed exactly at a valid answer that only pending ones precede. */
  lemma {:induction false} RetrySucceedsIff(
      domain: Domain, auth: nat, replies: seq<AuthReply>, posts: seq<bool>, i: nat)
    requires i <= AUTH_RETRIES
    ensures Retry(domain, auth, replies, posts, i).ok <==>
            exists k :: RetryValid(replies, posts, i, k)
    decreases AUTH_RETRIES - i
  {
    if i < AUTH_RETRIES {
      RetrySucceedsIff(domain, auth, replies, posts, i + 1);
      var reply := At(replies, i + 1, NoAuth);
      if IsPending(reply) && At(posts, i + 1, false) {
        if Retry(domain, auth, replies, posts, i + 1).ok {
          var k :| RetryValid(replies, posts, i + 1, k);
          assert RetryValid(replies, posts, i, k);
        }
        if k :| RetryValid(replies, posts, i, k) {
          assert RetryValid(replies, posts, i + 1, k);
        }
      } else if IsValid(reply) {
        assert RetryValid(replies, posts, i, i + 1);
      }
    }
  }

  predicate RetryValid(replies: seq<AuthReply>, posts: seq<bool>, i: nat, k: int) {
    && i < k <= AUTH_RETRIES && IsValid(At(replies, k, NoAuth))
    && forall j :: i < j < k ==> IsPending(At(replies, j, NoAuth)) && At(posts, j, false)
  }

  /** An authorization succeeds exactly if some answer finds it valid after nothing but pending ones, all posted. */
  lemma AuthorizeSucceedsIff(auth: nat, replies: seq<AuthReply>, posts: seq<bool>)
    ensures Authorized(auth, replies, posts).ok <==> Succeeds(replies, posts)
  {
    var reply := At(replies, 0, NoAuth);
    hide Retry;
    if IsValid(reply) { assert ValidAfter(replies, posts, 0); }
    if IsPending(reply) && reply.offersAlpn && At(posts, 0, false) {
      RetrySucceedsIff(reply.domain, auth, replies, posts, 0);
      if k :| RetryValid(replies, posts, 0, k) { assert ValidAfter(replies, posts, k); }
      if k: nat :| ValidAfter(replies, posts, k) { assert RetryValid(replies, posts, 0, k); }
    }
  }

  /** What is done, action by action: the key, then posts, with sleeps of 1, 2, 4, ... seconds between them. */
  lemma {:induction false} RetryActs(
      domain: Domain, auth: nat, replies: seq<AuthReply>, posts: seq<bool>, i: nat, p: nat)
    requires i <= AUTH_RETRIES && p < |Retry(domain, auth, replies, posts, i).log|
    ensures Retry(domain, auth, replies, posts, i).log[p] ==
            if p % 2 == 0 then Slept(Pow2(i + p / 2)) else Posted(domain, auth)
    decreases AUTH_RETRIES - i
  {
    hide Pow2;
    if p >= 2 {
      RetryActs(domain, auth, replies, posts, i + 1, p - 2);
      assert p / 2 == 1 + (p - 2) / 2;
    }
  }

  lemma AuthorizeActs(auth: nat, replies: seq<AuthReply>, posts: seq<bool>, p: nat)
    requires p < |Authorized(auth, replies, posts).log|
    ensures At(replies, 0, NoAuth).Auth?
    ensures Authorized(auth, replies, posts).log[p] ==
            if p == 0 then Installed(At(replies, 0, NoAuth).domain, auth)
            else if p % 2 == 1 then Posted(At(replies, 0, NoAuth).domain, auth)
            else Slept(Pow2(p / 2 - 1))
  {
    hide Retry, Pow2;
    if p >= 2 {
      RetryActs(At(replies, 0, NoAuth).domain, auth, replies, posts, 0, p - 2);
      assert (p - 2) / 2 == p / 2 - 1;
    }
  }

  // ---------------------------------------------------------------------
  // The order
  // ---------------------------------------------------------------------

  function PendingIn(seen: seq<OrderStatus>): nat {
    if seen == [] then 0 else PendingIn(seen[..|seen| - 1]) + if seen[|seen| - 1] == OrderPending then 1 else 0
  }

  /** How many times in a row the order was last seen processing. */
  function ProcessingRun(seen: seq<OrderStatus>): nat {
    if seen != [] && seen[|seen| - 1] == Processing then 1 + ProcessingRun(seen[..|seen| - 1]) else 0
  }

  ghost predicate RoundSucceeds(round: Round) {
    forall i :: 0 <= i < |round.parts| ==> Succeeds(round.parts[i].0, round.parts[i].1)
  }

  /**
   * Having seen these statuses, the order is at its end: it is decided, its round of authorizations did not succeed,
   * or it was processing once more than is waited for.
   */
  ghost predicate StopsAt(seen: seq<OrderStatus>, rounds: seq<Round>) {
    seen != [] &&
    match seen[|seen| - 1]
    case OrderValid => true
    case OrderInvalid => true
    case OrderReady => false
    case OrderPending => PendingIn(seen) > |rounds| || !RoundSucceeds(rounds[PendingIn(seen) - 1])
    case Processing => ProcessingRun(seen) > 10
  }

  /** The statuses the order comes to see: the server's answers up to the first at which it stops. */
  ghost function Heard(seen: seq<OrderStatus>, replies: seq<OrderReply>, rounds: seq<Round>): seq<OrderStatus>
    decreases replies
  {
    if StopsAt(seen, rounds) || replies == [] || replies[0] == NoOrder then []
    else [replies[0].status] + Heard(seen + [replies[0].status], replies[1..], rounds)
  }

  /** What is done about the last status seen. */
  function Reaction(seen: seq<OrderStatus>, rounds: seq<Round>): seq<Action> {
    if seen == [] then []
    else
      match seen[|seen| - 1]
      case OrderReady => [CsrSent]
      case OrderValid => [CertFetched]
      case OrderInvalid => []
      case OrderPending => if 0 < PendingIn(seen) <= |rounds| then Joint(rounds[PendingIn(seen) - 1]) else []
      case Processing =>
        if 0 < ProcessingRun(seen) <= 10 then [Slept(Pow2(ProcessingRun(seen) - 1))] else []
  }

  /** What is done about one status after the other. */
  function Told(seen: seq<OrderStatus>, more: seq<OrderStatus>, rounds: seq<Round>): seq<Action>
    decreases more
  {
    if more == [] then []
    else
      var seen' := seen + [more[0]];
      [Seen(more[0])] + (Reaction(seen', rounds) + Told(seen', more[1..], rounds))
  }

  predicate EndsValid(seen: seq<OrderStatus>) {
    seen != [] && seen[|seen| - 1] == OrderValid
  }

  /** What is to come once these statuses are seen, and how it ends. */
  ghost function Expected(
      seen: seq<OrderStatus>, replies: seq<OrderReply>, rounds: seq<Round>, certificate: bool): Outcome
  {
    var more := Heard(seen, replies, rounds);
    Outcome(Reaction(seen, rounds) + Told(seen, more, rounds), EndsValid(seen + more) && certificate)
  }

  lemma ExpectedEnd(seen: seq<OrderStatus>, replies: seq<OrderReply>, rounds: seq<Round>, certificate: bool)
    requires StopsAt(seen, rounds) || replies == [] || replies[0] == NoOrder
    ensures Expected(seen, replies, rounds, certificate) ==
            Outcome(Reaction(seen, rounds), EndsValid(seen) && certificate)
  {
    hide Reaction, StopsAt;
    assert Told(seen, [], rounds) == [];
    assert seen + [] == seen;
  }

  lemma ExpectedStep(seen: seq<OrderStatus>, replies: seq<OrderReply>, rounds: seq<Round>, certificate: bool)
    requires !StopsAt(seen, rounds) && replies != [] && replies[0].Order?
    ensures var e := Expected(seen + [replies[0].status], replies[1..], rounds, certificate);
            Expected(seen, replies, rounds, certificate) ==
            Outcome(Reaction(seen, rounds) + ([Seen(replies[0].status)] + e.log), e.ok)
  {
    hide Reaction, StopsAt;
    var st := replies[0].status;
    var more := Heard(seen, replies, rounds);
    assert more == [st] + Heard(seen + [st], replies[1..], rounds);
    assert more[1..] == Heard(seen + [st], replies[1..], rounds);
    assert seen + more == (seen + [st]) + more[1..];
  }

  lemma AllAuthorizedIff(round: Round)
    ensures AllAuthorized(round.parts) <==> RoundSucceeds(round)
  {
    hide Authorized, Succeeds;
    forall i | 0 <= i < |round.parts|
      ensures Authorized(i, round.parts[i].0, round.parts[i].1).ok <==> Succeeds(round.parts[i].0, round.parts[i].1)
    {
      AuthorizeSucceedsIff(i, round.parts[i].0, round.parts[i].1);
    }
  }

  /** The rounds left and the count of processing answers fit what was seen. */
  predicate Fits(seen: seq<OrderStatus>, rounds: seq<Round>, left: seq<Round>) {
    && seen != [] && PendingIn(seen[..|seen| - 1]) <= |rounds| && left == rounds[PendingIn(seen[..|seen| - 1])..]
    && (seen[|seen| - 1] == Processing ==> ProcessingRun(seen[..|seen| - 1]) == 0)
  }

  lemma FitsNext(seen: seq<OrderStatus>, st: OrderStatus, rounds: seq<Round>)
    requires seen != [] && PendingIn(seen) <= |rounds| && (st == Processing ==> seen[|seen| - 1] != Processing)
    ensures Fits(seen + [st], rounds, rounds[PendingIn(seen)..])
  {
    assert (seen + [st])[..|seen|] == seen;
  }

  /** Having acted on the last status, take the next answer: the order's loop goes on as expected. */
  lemma {:induction false} GoOnIs(
      seen: seq<OrderStatus>, log: seq<Action>, replies: seq<OrderReply>, rounds: seq<Round>, certificate: bool)
    requires seen == [] || seen[|seen| - 1] != Processing
    requires PendingIn(seen) <= |rounds| && !StopsAt(seen, rounds) && log == Reaction(seen, rounds)
    ensures GoOn(log, replies, rounds[PendingIn(seen)..], certificate) == Expected(seen, replies, rounds, certificate)
    decreases |replies|, 1
  {
    hide Reaction, StopsAt, Expected, Ordered, Joint;
    if replies == [] || replies[0] == NoOrder {
      ExpectedEnd(seen, replies, rounds, certificate);
      assert !EndsValid(seen) by { NotDecided(seen, rounds); }
    } else {
      var st := replies[0].status;
      ExpectedStep(seen, replies, rounds, certificate);
      if seen == [] { assert [st][..0] == []; } else { FitsNext(seen, st, rounds); }
      OrderedIs(seen + [st], replies[1..], rounds, rounds[PendingIn(seen)..], certificate);
      ConcatAssoc(log, [Seen(st)], Ordered(st, replies[1..], rounds[PendingIn(seen)..], certificate).log);
    }
  }

  lemma NotDecided(seen: seq<OrderStatus>, rounds: seq<Round>)
    requires !StopsAt(seen, rounds)
    ensures !EndsValid(seen)
  {
  }

  lemma {:induction false} OrderedIs(
      seen: seq<OrderStatus>, replies: seq<OrderReply>, rounds: seq<Round>, left: seq<Round>, certificate: bool)
    requires Fits(seen, rounds, left)
    ensures Ordered(seen[|seen| - 1], replies, left, certificate) == Expected(seen, replies, rounds, certificate)
    decreases |replies|, 2
  {
    hide Expected, Joint, GoOn, WaitProcessing, RoundSucceeds, AllAuthorized, Pow2;
    var status := seen[|seen| - 1];
    if status == OrderPending && left != [] { AllAuthorizedIff(left[0]); }
    if StopsAt(seen, rounds) && status != Processing {
      ExpectedEnd(seen, replies, rounds, certificate);
    } else if status == Processing {
      WaitIs(seen, replies, rounds, 0, certificate);
    } else {
      GoOnIs(seen, Reaction(seen, rounds), replies, rounds, certificate);
    }
  }

  lemma JoinFour<T>(a: seq<T>, b: seq<T>, c: seq<T>, d: seq<T>)
    ensures a + (b + (c + d)) == (a + b + c) + d
  {
  }

  /** A phase of processing, and what follows it. */
  lemma {:induction false} WaitIs(
      seen: seq<OrderStatus>, replies: seq<OrderReply>, rounds: seq<Round>, i: nat, certificate: bool)
    requires seen != [] && seen[|seen| - 1] == Processing && ProcessingRun(seen) == i + 1 && i <= PROCESSING_RETRIES
    requires PendingIn(seen) <= |rounds|
    ensures var w := WaitProcessing(replies, i);
            Expected(seen, replies, rounds, certificate) ==
            if w.next == None then Outcome(w.log, false)
            else
              var o := Ordered(w.next.value, w.replies, rounds[PendingIn(seen)..], certificate);
              Outcome(w.log + o.log, o.ok)
    decreases |replies|, 1
  {
    WaitUnfolds(replies, i);
    var sleep := [Slept(Pow2(i))];
    assert Reaction(seen, rounds) == if i == PROCESSING_RETRIES then [] else sleep;
    assert StopsAt(seen, rounds) <==> i == PROCESSING_RETRIES;
    hide Expected, Joint, GoOn, WaitProcessing, Ordered, Pow2, Reaction, StopsAt;
    if i == PROCESSING_RETRIES || replies == [] || replies[0] == NoOrder {
      ExpectedEnd(seen, replies, rounds, certificate);
    } else {
      var st := replies[0].status;
      assert (seen + [st])[..|seen|] == seen;
      ExpectedStep(seen, replies, rounds, certificate);
      if st == Processing {
        assert PendingIn(seen + [st]) == PendingIn(seen) && ProcessingRun(seen + [st]) == i + 2;
        hide PendingIn, ProcessingRun;
        WaitIs(seen + [st], replies[1..], rounds, i + 1, certificate);
        var w := WaitProcessing(replies[1..], i + 1);
        if w.next == None {
          ConcatAssoc(sleep, [Seen(st)], w.log);
        } else {
          JoinFour(sleep, [Seen(st)], w.log,
                   Ordered(w.next.value, w.replies, rounds[PendingIn(seen)..], certificate).log);
        }
      } else {
        FitsNext(seen, st, rounds);
        hide PendingIn, ProcessingRun, Fits;
        OrderedIs(seen + [st], replies[1..], rounds, rounds[PendingIn(seen)..], certificate);
        ConcatAssoc(sleep, [Seen(st)], Expected(seen + [st], replies[1..], rounds, certificate).log);
      }
    }
  }

  /**
   * For any answers: the order sees the server's statuses up to the first at which it stops, does about each of them
   * just what belongs to it, and succeeds exactly if it stops at a valid order and gets the certificate.
   */
  lemma OrderIsToldByItsAnswers(replies: seq<OrderReply>, rounds: seq<Round>, certificate: bool)
    ensures var seen := Heard([], replies, rounds);
            WholeOrder(replies, rounds, certificate) == Outcome(Told([], seen, rounds), EndsValid(seen) && certificate)
  {
    GoOnIs([], [], replies, rounds, certificate);
    assert rounds[0..] == rounds;
    var seen := Heard([], replies, rounds);
    assert [] + seen == seen && [] + Told([], seen, rounds) == Told([], seen, rounds);
  }

  /** `n` answers in a row, none of the earlier ones a reason to stop. */
  ghost predicate Goes(seen: seq<OrderStatus>, replies: seq<OrderReply>, rounds: seq<Round>) {
    && |seen| <= |replies|
    && forall i :: 0 <= i < |seen| ==> replies[i] == Order(seen[i]) && !StopsAt(seen[..i], rounds)
  }

  lemma {:induction false} HeardGoes(
      before: seq<OrderStatus>, all: seq<OrderReply>, replies: seq<OrderReply>, rounds: seq<Round>)
    requires |before| <= |all| && replies == all[|before|..] && Goes(before, all, rounds)
    ensures var seen := before + Heard(before, replies, rounds);
            && Goes(seen, all, rounds)
            && (StopsAt(seen, rounds) || |seen| == |all| || all[|seen|] == NoOrder)
    decreases replies
  {
    hide StopsAt;
    if StopsAt(before, rounds) || replies == [] || replies[0] == NoOrder {
      assert before + [] == before;
    } else {
      var before' := before + [replies[0].status];
      assert forall i :: 0 <= i <= |before| ==> before'[..i] == before[..i];
      assert before[..|before|] == before;
      HeardGoes(before', all, replies[1..], rounds);
      assert before' + Heard(before', replies[1..], rounds) == before + Heard(before, replies, rounds);
    }
  }

  /**
   * The order succeeds exactly if the download works and the server's answers lead, without a reason to stop before,
   * to a valid order.
   */
  lemma OrderSucceedsIff(replies: seq<OrderReply>, rounds: seq<Round>, certificate: bool)
    ensures WholeOrder(replies, rounds, certificate).ok <==>
            certificate && exists seen :: Goes(seen, replies, rounds) && EndsValid(seen)
  {
    OrderIsToldByItsAnswers(replies, rounds, certificate);
    HeardGoes([], replies, replies, rounds);
    var heard := Heard([], replies, rounds);
    assert [] + heard == heard;
    if seen :| Goes(seen, replies, rounds) && EndsValid(seen) {
      SameSeen(heard, seen, replies, rounds);
    }
  }

  lemma SameSeen(heard: seq<OrderStatus>, seen: seq<OrderStatus>, replies: seq<OrderReply>, rounds: seq<Round>)
    requires Goes(heard, replies, rounds) && Goes(seen, replies, rounds) && EndsValid(seen)
    requires StopsAt(heard, rounds) || |heard| == |replies| || replies[|heard|] == NoOrder
    ensures heard == seen
  {
    assert StopsAt(seen, rounds);
    hide StopsAt;
    var k := Min(|heard|, |seen|);
    assert heard[..k] == seen[..k];
    assert heard[..|heard|] == heard && seen[..|seen|] == seen;
  }
}
