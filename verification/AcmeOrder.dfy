/**
 * One certificate order: the authorization of each domain, the wait for the order to become
 * ready, the certificate request and the download. Server answers are arbitrary; where the list of
 * answers runs out, the connection fails. What is done towards the outside is logged.
 */
module AcmeOrder {
  import opened Common

  type Domain = string

  datatype OrderStatus = OrderPending | Processing | OrderReady | OrderValid | OrderInvalid
  datatype AuthStatus = AuthPending | AuthValid | AuthOther

  /** An authorization as the server describes it, or no usable answer. */
  datatype AuthReply = NoAuth | Auth(status: AuthStatus, domain: Domain, offersAlpn: bool)

  datatype Action =
    | Installed(domain: Domain, auth: nat)   // this authorization puts its challenge certificate into the resolver
    | Posted(domain: Domain, auth: nat)      // the server is told to validate for this authorization
    | Slept(seconds: nat)
    | Seen(status: OrderStatus)       // an order object arrived
    | CsrSent
    | CertFetched

  const AUTH_RETRIES := 5
  const PROCESSING_RETRIES := 10

  function At<T>(s: seq<T>, i: nat, default: T): T {
    if i < |s| then s[i] else default
  }

  // ---------------------------------------------------------------------
  // Authorizing one domain
  // ---------------------------------------------------------------------

  /** `replies[i]` answers the i-th look at the authorization, `posts[i]` the i-th challenge post. */
  datatype Outcome = Outcome(log: seq<Action>, ok: bool)

  function Retry(domain: Domain, auth: nat, replies: seq<AuthReply>, posts: seq<bool>, i: nat): Outcome
    requires i <= AUTH_RETRIES
    decreases AUTH_RETRIES - i
  {
    if i == AUTH_RETRIES then Outcome([], false)
    else
      var sleep := [Slept(Pow2(i))];
      var reply := At(replies, i + 1, NoAuth);
      if reply.Auth? && reply.status == AuthPending then
        if At(posts, i + 1, false) then
          var rest := Retry(domain, auth, replies, posts, i + 1);
          Outcome(sleep + [Posted(domain, auth)] + rest.log, rest.ok)
        else Outcome(sleep + [Posted(domain, auth)], false)
      else Outcome(sleep, reply.Auth? && reply.status == AuthValid)
  }

  function Authorized(auth: nat, replies: seq<AuthReply>, posts: seq<bool>): Outcome {
    var reply := At(replies, 0, NoAuth);
    if reply == NoAuth then Outcome([], false)
    else if reply.status != AuthPending then Outcome([], reply.status == AuthValid)
    else if !reply.offersAlpn then Outcome([], false)
    else
      var first := [Installed(reply.domain, auth), Posted(reply.domain, auth)];
      if At(posts, 0, false) then
        var rest := Retry(reply.domain, auth, replies, posts, 0);
        Outcome(first + rest.log, rest.ok)
      else Outcome(first, false)
  }

  lemma RetryUnfolds(domain: Domain, auth: nat, replies: seq<AuthReply>, posts: seq<bool>, i: nat)
    requires i < AUTH_RETRIES
    ensures var all := Retry(domain, auth, replies, posts, i);
            var sleep, reply := [Slept(Pow2(i))], At(replies, i + 1, NoAuth);
            if reply.Auth? && reply.status == AuthPending then
              if At(posts, i + 1, false) then
                var rest := Retry(domain, auth, replies, posts, i + 1);
                all.log == sleep + [Posted(domain, auth)] + rest.log && all.ok == rest.ok
              else all == Outcome(sleep + [Posted(domain, auth)], false)
            else all == Outcome(sleep, reply.Auth? && reply.status == AuthValid)
  {
  }

  lemma RetryEnds(domain: Domain, auth: nat, replies: seq<AuthReply>, posts: seq<bool>)
    ensures Retry(domain, auth, replies, posts, AUTH_RETRIES) == Outcome([], false)
  {
  }

  method Authorize(auth: nat, replies: seq<AuthReply>, posts: seq<bool>) returns (log: seq<Action>, ok: bool)
    ensures Outcome(log, ok) == Authorized(auth, replies, posts)
  {
    hide Retry, Pow2;
    var reply := At(replies, 0, NoAuth);
    log := [];
    if reply == NoAuth {
      return log, false;
    }
    if reply.status != AuthPending {
      return log, reply.status == AuthValid;
    }
    if !reply.offersAlpn {
      return log, false;
    }
    var domain := reply.domain;
    log := log + [Installed(domain, auth), Posted(domain, auth)];
    if !At(posts, 0, false) {
      return log, false;
    }
    ghost var all := Authorized(auth, replies, posts);
    for i := 0 to AUTH_RETRIES
      invariant log + Retry(domain, auth, replies, posts, i).log == all.log
      invariant Retry(domain, auth, replies, posts, i).ok == all.ok
    {
      RetryUnfolds(domain, auth, replies, posts, i);
      ghost var before := log;
      log := log + [Slept(Pow2(i))];
      reply := At(replies, i + 1, NoAuth);
      if !(reply.Auth? && reply.status == AuthPending) {
        return log, reply.Auth? && reply.status == AuthValid;
      }
      log := log + [Posted(domain, auth)];
      ConcatAssoc(before, [Slept(Pow2(i))], [Posted(domain, auth)]);
      if !At(posts, i + 1, false) {
        return log, false;
      }
      ConcatAssoc(before, [Slept(Pow2(i))] + [Posted(domain, auth)], Retry(domain, auth, replies, posts, i + 1).log);
    }
    RetryEnds(domain, auth, replies, posts);
    return log, false;
  }

  // ---------------------------------------------------------------------
  // Time spent asleep, and keys before posts
  // ---------------------------------------------------------------------

  function Asleep(log: seq<Action>): nat {
    if log == [] then 0 else (if log[0].Slept? then log[0].seconds else 0) + Asleep(log[1..])
  }

  lemma {:induction false} AsleepConcat(a: seq<Action>, b: seq<Action>)
    ensures Asleep(a + b) == Asleep(a) + Asleep(b)
  {
    if a == [] {
      assert a + b == b;
    } else {
      assert (a + b)[1..] == a[1..] + b;
      AsleepConcat(a[1..], b);
    }
  }

  lemma {:induction false} RetryAsleep(domain: Domain, auth: nat, replies: seq<AuthReply>, posts: seq<bool>, i: nat)
    requires i <= AUTH_RETRIES
    ensures Asleep(Retry(domain, auth, replies, posts, i).log) <= Pow2(AUTH_RETRIES) - Pow2(i)
    decreases AUTH_RETRIES - i
  {
    if i < AUTH_RETRIES {
      var sleep, post := [Slept(Pow2(i))], [Posted(domain, auth)];
      RetryAsleep(domain, auth, replies, posts, i + 1);
      var rest := Retry(domain, auth, replies, posts, i + 1);
      AsleepConcat(sleep + post, rest.log);
      AsleepConcat(sleep, post);
      assert Asleep(sleep) == Pow2(i) && Asleep(post) == 0;
      Pow2Grows(i + 1, AUTH_RETRIES);
    }
  }

  lemma {:induction false} Pow2Grows(a: nat, b: nat)
    requires a <= b
    ensures Pow2(a) <= Pow2(b)
    decreases b - a
  {
    if a < b { Pow2Grows(a, b - 1); }
  }

  /** An authorization sleeps for at most 1 + 2 + 4 + 8 + 16 seconds. */
  lemma AuthorizeSleepsAtMost31(auth: nat, replies: seq<AuthReply>, posts: seq<bool>)
    ensures Asleep(Authorized(auth, replies, posts).log) <= 31
  {
    var reply := At(replies, 0, NoAuth);
    if reply.Auth? {
      var first := [Installed(reply.domain, auth), Posted(reply.domain, auth)];
      RetryAsleep(reply.domain, auth, replies, posts, 0);
      AsleepConcat(first, Retry(reply.domain, auth, replies, posts, 0).log);
      assert first[1..] == [Posted(reply.domain, auth)] && first[1..][1..] == [];
      assert Pow2(5) == 32 by { assert Pow2(2) == 4; assert Pow2(4) == 16; }
    }
  }

  /** The domains whose keys the resolver holds after these actions. */
  function Keys(log: seq<Action>): set<Domain> {
    set i | 0 <= i < |log| && log[i].Installed? :: log[i].domain
  }

  /** Whenever the server is told to validate a domain, the resolver already answers for it. */
  predicate KeyBeforePost(log: seq<Action>) {
    forall p :: 0 <= p < |log| && log[p].Posted? ==> log[p].domain in Keys(log[..p])
  }

  lemma {:induction false} RetryPostsOnly(
      domain: Domain, auth: nat, replies: seq<AuthReply>, posts: seq<bool>, i: nat, p: nat)
    requires i <= AUTH_RETRIES && p < |Retry(domain, auth, replies, posts, i).log|
    ensures var a := Retry(domain, auth, replies, posts, i).log[p]; a == Posted(domain, auth) || a.Slept?
    decreases AUTH_RETRIES - i
  {
    if p >= 2 {
      RetryPostsOnly(domain, auth, replies, posts, i + 1, p - 2);
    }
  }

  lemma AuthorizeInstallsFirst(auth: nat, replies: seq<AuthReply>, posts: seq<bool>)
    ensures KeyBeforePost(Authorized(auth, replies, posts).log)
  {
    var log := Authorized(auth, replies, posts).log;
    forall p | 0 <= p < |log| && log[p].Posted?
      ensures log[p].domain in Keys(log[..p])
    {
      var domain := At(replies, 0, NoAuth).domain;
      assert log[0] == Installed(domain, auth);
      if p >= 2 { RetryPostsOnly(domain, auth, replies, posts, 0, p - 2); }
      assert log[..p][0] == Installed(domain, auth);
    }
  }

  // ---------------------------------------------------------------------
  // Authorizations side by side
  // ---------------------------------------------------------------------

  /**
   * The joint log of several authorizations: `schedule` says, action by action, whose turn it is. When one of
   * them fails the others are dropped, so a schedule may stop anywhere.
   */
  function Interleave(logs: seq<seq<Action>>, schedule: seq<nat>): seq<Action>
    decreases schedule
  {
    if schedule == [] then []
    else
      var who := schedule[0];
      if who < |logs| && logs[who] != [] then
        [logs[who][0]] + Interleave(logs[who := logs[who][1..]], schedule[1..])
      else Interleave(logs, schedule[1..])
  }

  /** The keys are in place given that those of `have` already are. */
  predicate KeyBeforePostFrom(have: set<Domain>, log: seq<Action>) {
    forall p :: 0 <= p < |log| && log[p].Posted? ==> log[p].domain in have + Keys(log[..p])
  }

  lemma KeysOfFront(have: set<Domain>, log: seq<Action>, p: nat)
    requires 0 < p <= |log|
    ensures have + Keys(log[..p]) ==
            (have + if log[0].Installed? then {log[0].domain} else {}) + Keys(log[1..][..p - 1])
  {
    var front, rest := log[..p], log[1..][..p - 1];
    assert forall i :: 0 <= i < |rest| ==> rest[i] == front[i + 1];
    assert forall i :: 0 < i < |front| ==> front[i] == rest[i - 1];
    assert front[0] == log[0];
  }

  lemma TailKeys(have: set<Domain>, more: set<Domain>, log: seq<Action>)
    requires log != [] && KeyBeforePostFrom(have, log)
    requires have + (if log[0].Installed? then {log[0].domain} else {}) <= more
    ensures KeyBeforePostFrom(more, log[1..])
  {
    var rest := log[1..];
    forall p | 0 <= p < |rest| && rest[p].Posted?
      ensures rest[p].domain in more + Keys(rest[..p])
    {
      assert rest[p] == log[p + 1];
      KeysOfFront(have, log, p + 1);
    }
  }

  lemma {:induction false} InterleaveKeepsKeys(have: set<Domain>, logs: seq<seq<Action>>, schedule: seq<nat>)
    requires forall i :: 0 <= i < |logs| ==> KeyBeforePostFrom(have, logs[i])
    ensures KeyBeforePostFrom(have, Interleave(logs, schedule))
    decreases schedule
  {
    if schedule != [] {
      var who := schedule[0];
      if who < |logs| && logs[who] != [] {
        var a, logs' := logs[who][0], logs[who := logs[who][1..]];
        var more := have + if a.Installed? then {a.domain} else {};
        forall i | 0 <= i < |logs'|
          ensures KeyBeforePostFrom(more, logs'[i])
        {
          if i == who { TailKeys(have, more, logs[who]); }
        }
        InterleaveKeepsKeys(more, logs', schedule[1..]);
        var rest := Interleave(logs', schedule[1..]);
        var log := [a] + rest;
        assert log[1..] == rest;
        forall p | 0 <= p < |log| && log[p].Posted?
          ensures log[p].domain in have + Keys(log[..p])
        {
          if p == 0 {
            assert logs[who][..0] == log[..0];
            assert KeyBeforePostFrom(have, logs[who]);
          } else {
            assert rest[p - 1] == log[p];
            KeysOfFront(have, log, p);
          }
        }
      } else {
        InterleaveKeepsKeys(have, logs, schedule[1..]);
      }
    }
  }

  // ---------------------------------------------------------------------
  // The order
  // ---------------------------------------------------------------------

  datatype OrderReply = NoOrder | Order(status: OrderStatus)

  /** The answers to the authorizations of one round, and how the authorizations interleave. */
  datatype Round = Round(parts: seq<(seq<AuthReply>, seq<bool>)>, schedule: seq<nat>)

  function Logs(parts: seq<(seq<AuthReply>, seq<bool>)>): (logs: seq<seq<Action>>)
    ensures |logs| == |parts|
    ensures forall i :: 0 <= i < |parts| ==> logs[i] == Authorized(i, parts[i].0, parts[i].1).log
  {
    seq(|parts|, i requires 0 <= i < |parts| => Authorized(i, parts[i].0, parts[i].1).log)
  }

  predicate AllAuthorized(parts: seq<(seq<AuthReply>, seq<bool>)>) {
    forall i :: 0 <= i < |parts| ==> Authorized(i, parts[i].0, parts[i].1).ok
  }

  function Joint(round: Round): seq<Action> {
    Interleave(Logs(round.parts), round.schedule)
  }

  /** Waiting for the server to process the order; `next` is the order's new status, if it got one. */
  datatype Waited = Waited(log: seq<Action>, next: Option<OrderStatus>, replies: seq<OrderReply>)

  function WaitProcessing(replies: seq<OrderReply>, i: nat): (w: Waited)
    requires i <= PROCESSING_RETRIES
    ensures w.next.Some? ==> |w.replies| < |replies|
    decreases PROCESSING_RETRIES - i
  {
    if i == PROCESSING_RETRIES then Waited([], None, replies)
    else
      var sleep := [Slept(Pow2(i))];
      if replies == [] || replies[0] == NoOrder then Waited(sleep, None, replies)
      else
        var status := replies[0].status;
        if status == Processing then
          var w := WaitProcessing(replies[1..], i + 1);
          w.(log := sleep + [Seen(Processing)] + w.log)
        else Waited(sleep + [Seen(status)], Some(status), replies[1..])
  }

  /** The order loop from a status on: the rest of the log, and whether a certificate came out. */
  function Ordered(status: OrderStatus, replies: seq<OrderReply>, rounds: seq<Round>, certificate: bool): Outcome
    decreases |replies|, 1
  {
    match status
    case OrderPending =>
      if rounds == [] then Outcome([], false)
      else if !AllAuthorized(rounds[0].parts) then Outcome(Joint(rounds[0]), false)
      else GoOn(Joint(rounds[0]), replies, rounds[1..], certificate)
    case Processing =>
      var w := WaitProcessing(replies, 0);
      if w.next == None then Outcome(w.log, false)
      else
        var rest := Ordered(w.next.value, w.replies, rounds, certificate);
        Outcome(w.log + rest.log, rest.ok)
    case OrderReady => GoOn([CsrSent], replies, rounds, certificate)
    case OrderValid => Outcome([CertFetched], certificate)
    case OrderInvalid => Outcome([], false)
  }

  /** After some actions, take the server's next answer and go on with it. */
  function GoOn(log: seq<Action>, replies: seq<OrderReply>, rounds: seq<Round>, certificate: bool): Outcome
    decreases |replies|, 0
  {
    if replies == [] || replies[0] == NoOrder then Outcome(log, false)
    else
      var rest := Ordered(replies[0].status, replies[1..], rounds, certificate);
      Outcome(log + [Seen(replies[0].status)] + rest.log, rest.ok)
  }

  /** The whole order: the server's answer to its creation, then the loop. */
  function WholeOrder(replies: seq<OrderReply>, rounds: seq<Round>, certificate: bool): Outcome {
    GoOn([], replies, rounds, certificate)
  }

  lemma WaitUnfolds(replies: seq<OrderReply>, i: nat)
    requires i <= PROCESSING_RETRIES
    ensures var w, sleep := WaitProcessing(replies, i), [Slept(Pow2(i))];
            if i == PROCESSING_RETRIES then w == Waited([], None, replies)
            else if replies == [] || replies[0] == NoOrder then w == Waited(sleep, None, replies)
            else if replies[0].status == Processing then
              var v := WaitProcessing(replies[1..], i + 1); w == v.(log := sleep + [Seen(Processing)] + v.log)
            else w == Waited(sleep + [Seen(replies[0].status)], Some(replies[0].status), replies[1..])
  {
  }

  method AwaitProcessed(replies: seq<OrderReply>)
    returns (log: seq<Action>, next: Option<OrderStatus>, rest: seq<OrderReply>)
    ensures Waited(log, next, rest) == WaitProcessing(replies, 0)
  {
    hide WaitProcessing, Pow2;
    log, rest := [], replies;
    for i := 0 to PROCESSING_RETRIES
      invariant WaitProcessing(replies, 0) ==
                (var w := WaitProcessing(rest, i); w.(log := log + w.log))
    {
      WaitUnfolds(rest, i);
      ghost var before, sleep := log, [Slept(Pow2(i))];
      log := log + [Slept(Pow2(i))];
      if rest == [] || rest[0] == NoOrder {
        return log, None, rest;
      }
      var status := rest[0].status;
      log, rest := log + [Seen(status)], rest[1..];
      ConcatAssoc(before, sleep, [Seen(status)]);
      if status != Processing {
        return log, Some(status), rest;
      }
      ConcatAssoc(before, sleep + [Seen(status)], WaitProcessing(rest, i + 1).log);
    }
    WaitUnfolds(rest, PROCESSING_RETRIES);
    return log, None, rest;
  }

  /** The order loop; `rounds` tells how each round of authorizations goes. */
  method PlaceOrder(replies: seq<OrderReply>, rounds: seq<Round>, certificate: bool)
    returns (log: seq<Action>, ok: bool)
    ensures Outcome(log, ok) == WholeOrder(replies, rounds, certificate)
  {
    hide WaitProcessing, Joint;
    if replies == [] || replies[0] == NoOrder {
      return [], false;
    }
    var status, left, later := replies[0].status, replies[1..], rounds;
    log := [Seen(status)];
    while true
      invariant WholeOrder(replies, rounds, certificate) ==
                (var o := Ordered(status, left, later, certificate); o.(log := log + o.log))
      decreases |left|
    {
      ghost var before, o := log, Ordered(status, left, later, certificate);
      match status {
        case OrderInvalid =>
          return log, false;
        case OrderValid =>
          return log + [CertFetched], certificate;
        case Processing =>
          var more, next, rest := AwaitProcessed(left);
          log := log + more;
          if next == None {
            return log, false;
          }
          status, left := next.value, rest;
          ConcatAssoc(before, more, Ordered(status, left, later, certificate).log);
          continue;
        case OrderPending =>
          if later == [] {
            return log, false;
          }
          log := log + Joint(later[0]);
          if !AllAuthorized(later[0].parts) {
            return log, false;
          }
          later := later[1..];
        case OrderReady =>
          log := log + [CsrSent];
      }
      if left == [] || left[0] == NoOrder {
        return log, false;
      }
      ghost var acted := log[|before|..];
      status, left := left[0].status, left[1..];
      assert log == before + acted;
      log := log + [Seen(status)];
      ghost var rest := Ordered(status, left, later, certificate).log;
      assert o.log == acted + [Seen(status)] + rest;
      assert log + rest == before + o.log;
    }
  }

  // --- A request only when ready, a download only when valid -------------

  function Previous(before: Action, log: seq<Action>, p: nat): Action
    requires p < |log|
  {
    if p == 0 then before else log[p - 1]
  }

  /** Requests and downloads directly follow the status that allows them. */
  predicate Guarded(before: Action, log: seq<Action>) {
    forall p :: 0 <= p < |log| ==>
      && (log[p] == CsrSent ==> Previous(before, log, p) == Seen(OrderReady))
      && (log[p] == CertFetched ==> Previous(before, log, p) == Seen(OrderValid))
  }

  predicate Harmless(log: seq<Action>) {
    CsrSent !in log && CertFetched !in log
  }

  lemma GuardedConcat(before: Action, a: seq<Action>, s: Action, b: seq<Action>)
    requires Guarded(before, a) && Guarded(s, b) && s.Seen?
    ensures Guarded(before, a + [s] + b)
  {
    var all := a + [s] + b;
    forall p | 0 <= p < |all|
      ensures (all[p] == CsrSent ==> Previous(before, all, p) == Seen(OrderReady)) &&
              (all[p] == CertFetched ==> Previous(before, all, p) == Seen(OrderValid))
    {
      if p < |a| {
        assert all[p] == a[p] && Previous(before, all, p) == Previous(before, a, p);
      } else if p > |a| {
        assert all[p] == b[p - |a| - 1] && Previous(before, all, p) == Previous(s, b, p - |a| - 1);
      }
    }
  }

  lemma {:induction false} InterleaveFrom(logs: seq<seq<Action>>, schedule: seq<nat>, p: nat)
    requires p < |Interleave(logs, schedule)|
    ensures exists i :: 0 <= i < |logs| && Interleave(logs, schedule)[p] in logs[i]
    decreases schedule
  {
    var who := schedule[0];
    if who < |logs| && logs[who] != [] {
      var logs' := logs[who := logs[who][1..]];
      if p > 0 {
        InterleaveFrom(logs', schedule[1..], p - 1);
        var i :| 0 <= i < |logs'| && Interleave(logs', schedule[1..])[p - 1] in logs'[i];
        assert Interleave(logs, schedule)[p] in logs[i];
      } else {
        assert logs[who][0] in logs[who];
      }
    } else {
      InterleaveFrom(logs, schedule[1..], p);
    }
  }

  lemma AuthorizeHarmless(auth: nat, replies: seq<AuthReply>, posts: seq<bool>)
    ensures Harmless(Authorized(auth, replies, posts).log)
  {
    var log := Authorized(auth, replies, posts).log;
    forall p | 0 <= p < |log|
      ensures log[p] != CsrSent && log[p] != CertFetched
    {
      if p >= 2 { RetryPostsOnly(At(replies, 0, NoAuth).domain, auth, replies, posts, 0, p - 2); }
    }
  }

  lemma JointHarmless(round: Round)
    ensures Harmless(Joint(round))
  {
    forall p | 0 <= p < |Joint(round)|
      ensures Joint(round)[p] != CsrSent && Joint(round)[p] != CertFetched
    {
      InterleaveFrom(Logs(round.parts), round.schedule, p);
      var i :| 0 <= i < |round.parts| && Joint(round)[p] in Logs(round.parts)[i];
      AuthorizeHarmless(i, round.parts[i].0, round.parts[i].1);
    }
  }

  lemma {:induction false} WaitHarmless(replies: seq<OrderReply>, i: nat)
    requires i <= PROCESSING_RETRIES
    ensures var w := WaitProcessing(replies, i);
            && Harmless(w.log)
            && (w.next.Some? ==> w.log != [] && w.log[|w.log| - 1] == Seen(w.next.value))
    decreases PROCESSING_RETRIES - i
  {
    hide Pow2;
    if i < PROCESSING_RETRIES && replies != [] && replies[0] == Order(Processing) {
      WaitHarmless(replies[1..], i + 1);
    }
  }

  /** A processing phase sleeps for at most 1 + 2 + ... + 512 seconds. */
  lemma {:induction false} ProcessingSleepsAtMost(replies: seq<OrderReply>, i: nat)
    requires i <= PROCESSING_RETRIES
    ensures Asleep(WaitProcessing(replies, i).log) <= Pow2(PROCESSING_RETRIES) - Pow2(i)
    decreases PROCESSING_RETRIES - i
  {
    if i < PROCESSING_RETRIES {
      var sleep := [Slept(Pow2(i))];
      assert Asleep(sleep) == Pow2(i);
      Pow2Grows(i + 1, PROCESSING_RETRIES);
      if replies != [] && replies[0].Order? {
        var seen := [Seen(replies[0].status)];
        assert Asleep(seen) == 0;
        AsleepConcat(sleep, seen);
        if replies[0].status == Processing {
          ProcessingSleepsAtMost(replies[1..], i + 1);
          AsleepConcat(sleep + seen, WaitProcessing(replies[1..], i + 1).log);
        }
      }
    }
  }

  lemma ProcessingSleepsAtMost1023(replies: seq<OrderReply>)
    ensures Asleep(WaitProcessing(replies, 0).log) <= 1023
  {
    ProcessingSleepsAtMost(replies, 0);
    assert Pow2(10) == 1024 by { assert Pow2(3) == 8; assert Pow2(6) == 64; assert Pow2(8) == 256; }
  }

  lemma {:induction false} OrderedGuarded(
      status: OrderStatus, replies: seq<OrderReply>, rounds: seq<Round>, certificate: bool)
    ensures Guarded(Seen(status), Ordered(status, replies, rounds, certificate).log)
    decreases |replies|, 1
  {
    hide WaitProcessing, Joint, GoOn;
    match status
    case OrderPending =>
      if rounds != [] {
        JointHarmless(rounds[0]);
        GoOnGuarded(Seen(status), Joint(rounds[0]), replies, rounds[1..], certificate);
      }
    case Processing =>
      WaitHarmless(replies, 0);
      var w := WaitProcessing(replies, 0);
      if w.next.Some? {
        OrderedGuarded(w.next.value, w.replies, rounds, certificate);
        var front, rest := w.log[..|w.log| - 1], Ordered(w.next.value, w.replies, rounds, certificate);
        assert w.log == front + [Seen(w.next.value)];
        GuardedConcat(Seen(status), front, Seen(w.next.value), rest.log);
      }
    case OrderReady => GoOnGuarded(Seen(status), [CsrSent], replies, rounds, certificate);
    case OrderValid =>
    case OrderInvalid =>
  }

  lemma {:induction false} GoOnGuarded(
      before: Action, log: seq<Action>, replies: seq<OrderReply>, rounds: seq<Round>, certificate: bool)
    requires Guarded(before, log)
    ensures Guarded(before, GoOn(log, replies, rounds, certificate).log)
    decreases |replies|, 0
  {
    if replies != [] && replies[0].Order? {
      OrderedGuarded(replies[0].status, replies[1..], rounds, certificate);
      GuardedConcat(before, log, Seen(replies[0].status),
                    Ordered(replies[0].status, replies[1..], rounds, certificate).log);
    }
  }

  /**
   * Whatever the server answers, a certificate request is sent only in answer to an order that is ready, and
   * the certificate is fetched only in answer to one that is valid.
   */
  lemma CsrOnlyWhenReady(replies: seq<OrderReply>, rounds: seq<Round>, certificate: bool, p: nat)
    requires p < |WholeOrder(replies, rounds, certificate).log|
    ensures var log := WholeOrder(replies, rounds, certificate).log;
            && (log[p] == CsrSent ==> p > 0 && log[p - 1] == Seen(OrderReady))
            && (log[p] == CertFetched ==> p > 0 && log[p - 1] == Seen(OrderValid))
  {
    var log := WholeOrder(replies, rounds, certificate).log;
    GoOnGuarded(Slept(0), [], replies, rounds, certificate);
    assert log[p] == CsrSent ==> Previous(Slept(0), log, p) == Seen(OrderReady);
    assert log[p] == CertFetched ==> Previous(Slept(0), log, p) == Seen(OrderValid);
  }

  // --- Keys before posts, over the whole order ----------------------------

  lemma KeysConcat(have: set<Domain>, a: seq<Action>, b: seq<Action>)
    requires KeyBeforePostFrom(have, a) && KeyBeforePostFrom(have, b)
    ensures KeyBeforePostFrom(have, a + b)
  {
    var all := a + b;
    forall p | 0 <= p < |all| && all[p].Posted?
      ensures all[p].domain in have + Keys(all[..p])
    {
      if p < |a| {
        assert all[..p] == a[..p];
      } else {
        assert b[p - |a|] == all[p];
        var front := b[..p - |a|];
        assert forall i :: 0 <= i < |front| ==> front[i] == all[..p][|a| + i];
        assert Keys(front) <= Keys(all[..p]);
      }
    }
  }

  lemma JointKeys(round: Round)
    ensures KeyBeforePostFrom({}, Joint(round))
  {
    forall i | 0 <= i < |Logs(round.parts)|
      ensures KeyBeforePostFrom({}, Logs(round.parts)[i])
    {
      AuthorizeInstallsFirst(i, round.parts[i].0, round.parts[i].1);
    }
    InterleaveKeepsKeys({}, Logs(round.parts), round.schedule);
  }

  lemma {:induction false} WaitKeys(replies: seq<OrderReply>, i: nat)
    requires i <= PROCESSING_RETRIES
    ensures KeyBeforePostFrom({}, WaitProcessing(replies, i).log)
    decreases PROCESSING_RETRIES - i
  {
    if i < PROCESSING_RETRIES && replies != [] && replies[0] == Order(Processing) {
      WaitKeys(replies[1..], i + 1);
      KeysConcat({}, [Slept(Pow2(i))] + [Seen(Processing)], WaitProcessing(replies[1..], i + 1).log);
    }
  }

  lemma {:induction false} OrderedKeys(
      status: OrderStatus, replies: seq<OrderReply>, rounds: seq<Round>, certificate: bool)
    ensures KeyBeforePostFrom({}, Ordered(status, replies, rounds, certificate).log)
    decreases |replies|, 1
  {
    hide WaitProcessing, Joint, GoOn, Keys;
    match status
    case OrderPending =>
      if rounds != [] {
        JointKeys(rounds[0]);
        GoOnKeys(Joint(rounds[0]), replies, rounds[1..], certificate);
      }
    case Processing =>
      WaitKeys(replies, 0);
      var w := WaitProcessing(replies, 0);
      if w.next.Some? {
        OrderedKeys(w.next.value, w.replies, rounds, certificate);
        KeysConcat({}, w.log, Ordered(w.next.value, w.replies, rounds, certificate).log);
      }
    case OrderReady => GoOnKeys([CsrSent], replies, rounds, certificate);
    case OrderValid =>
    case OrderInvalid =>
  }

  lemma {:induction false} GoOnKeys(
      log: seq<Action>, replies: seq<OrderReply>, rounds: seq<Round>, certificate: bool)
    requires KeyBeforePostFrom({}, log)
    ensures KeyBeforePostFrom({}, GoOn(log, replies, rounds, certificate).log)
    decreases |replies|, 0
  {
    if replies != [] && replies[0].Order? {
      var rest := Ordered(replies[0].status, replies[1..], rounds, certificate).log;
      OrderedKeys(replies[0].status, replies[1..], rounds, certificate);
      KeysConcat({}, log, [Seen(replies[0].status)]);
      KeysConcat({}, log + [Seen(replies[0].status)], rest);
    }
  }

  /** However the authorizations interleave, each challenge post follows the installation of its domain's key. */
  lemma KeyInstalledBeforeEveryPost(replies: seq<OrderReply>, rounds: seq<Round>, certificate: bool)
    ensures KeyBeforePost(WholeOrder(replies, rounds, certificate).log)
  {
    GoOnKeys([], replies, rounds, certificate);
    var log := WholeOrder(replies, rounds, certificate).log;
    assert forall p :: 0 <= p < |log| ==> {} + Keys(log[..p]) == Keys(log[..p]);
  }
}
