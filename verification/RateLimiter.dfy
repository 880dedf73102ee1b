/**
 * The in-memory rate limiter: one fixed-window counter per key, created on first use, reopened
 * once expired, and dropped by occasional clean-ups. Bans live in the same map.
 */
module RateLimiter {
  import opened Common

  type Instant = int      // nanoseconds

  datatype Entry = Entry(count: nat, expiresAt: Instant)
  type Entries = map<string, Entry>

  datatype Counted = Counted(count: nat, ttl: nat)
  datatype Verdict = Admitted(c: Counted) | RateLimitExceeded(limit: nat, c: Counted)

  // ---------------------------------------------------------------------
  // Operations
  // ---------------------------------------------------------------------

  function Cleaned(es: Entries, now: Instant): Entries {
    map k | k in es && es[k].expiresAt > now :: es[k]
  }

  /** The entry of `key` after one more request. */
  function Bumped(es: Entries, key: string, window: nat, now: Instant): Entry {
    var e := if key in es then es[key] else Entry(0, now + window);
    if e.expiresAt < now then Entry(1, now + window) else e.(count := e.count + 1)
  }

  function Report(e: Entry, now: Instant): Counted {
    Counted(e.count, if e.expiresAt > now then (e.expiresAt - now) / NANOS else 0)
  }

  /** The time to live is what is left in whole seconds; nothing once the entry has expired. */
  lemma TimeToLive(e: Entry, now: Instant)
    ensures var c := Report(e, now);
            && c.count == e.count
            && (if e.expiresAt > now then now + c.ttl * NANOS <= e.expiresAt < now + (c.ttl + 1) * NANOS
                else c.ttl == 0)
  {
  }

  function Judge(c: Counted, limit: nat): Verdict {
    if c.count <= limit then Admitted(c) else RateLimitExceeded(limit, c)
  }

  function BanKey(ip: string): string {
    "ban:ip:" + ip
  }

  predicate Banned(es: Entries, ip: string, now: Instant) {
    BanKey(ip) in es && es[BanKey(ip)].expiresAt > now
  }

  /** `cleanup` is the instant at which the random clean-up runs, if it does. */
  class InMemoryRateLimiter {
    var entries: Entries

    constructor ()
      ensures entries == map[]
    {
      entries := map[];
    }

    method Cleanup(now: Instant)
      modifies this
      ensures entries == Cleaned(old(entries), now) == Next(old(entries), Clean(now))
    {
      var kept: Entries := map[];
      var keys := entries.Keys;
      while keys != {}
        invariant keys <= entries.Keys
        invariant forall k :: k in kept <==> k in entries.Keys - keys && entries[k].expiresAt > now
        invariant forall k :: k in kept ==> kept[k] == entries[k]
        invariant entries == old(entries)
        decreases |keys|
      {
        var k :| k in keys;
        keys := keys - {k};
        if entries[k].expiresAt > now {
          kept := kept[k := entries[k]];
        }
      }
      entries := kept;
    }

    method Increment(key: string, window: nat, cleanup: Option<Instant>, now: Instant) returns (c: Counted)
      modifies this
      ensures var es := if cleanup.Some? then Cleaned(old(entries), cleanup.value) else old(entries);
              && entries == es[key := Bumped(es, key, window, now)]
              && c == Report(Bumped(es, key, window, now), now)
    {
      if cleanup.Some? {
        Cleanup(cleanup.value);
      }
      var entry := if key in entries then entries[key] else Entry(0, now + window);
      if entry.expiresAt < now {
        entry := entry.(expiresAt := now + window);
        entry := entry.(count := 1);
      } else {
        entry := entry.(count := entry.count + 1);
      }
      entries := entries[key := entry];
      var ttl := if entry.expiresAt > now then (entry.expiresAt - now) / NANOS else 0;
      c := Counted(entry.count, ttl);
    }

    method CheckLimit(key: string, limit: nat, window: nat, cleanup: Option<Instant>, now: Instant)
      returns (v: Verdict)
      modifies this
      ensures var es := if cleanup.Some? then Cleaned(old(entries), cleanup.value) else old(entries);
              && entries == es[key := Bumped(es, key, window, now)]
              && v == Judge(Report(Bumped(es, key, window, now), now), limit)
              && entries == Next(es, Check(key, limit, window, now))
              && Judged(v) == Reply(es, Check(key, limit, window, now))
    {
      var c := Increment(key, window, cleanup, now);
      if c.count <= limit {
        v := Admitted(c);
      } else {
        v := RateLimitExceeded(limit, c);
      }
    }

    method BanIp(ip: string, duration: nat, now: Instant)
      modifies this
      ensures entries == old(entries)["ban:ip:" + ip := Entry(1, now + duration)]
      ensures entries == Next(old(entries), Ban(ip, duration, now))
      ensures forall other, t :: now <= t ==>
                Banned(entries, other, t) == if other == ip then t < now + duration else Banned(old(entries), other, t)
    {
      entries := entries[BanKey(ip) := Entry(1, now + duration)];
      assert forall other :: BanKey(other)[7..] == other;
    }

    method IsBanned(ip: string, now: Instant) returns (banned: bool)
      ensures banned == Banned(entries, ip, now) && Answer.IsBanned(banned) == Reply(entries, AskBanned(ip, now))
    {
      banned := false;
      if BanKey(ip) in entries && entries[BanKey(ip)].expiresAt > now {
        banned := true;
      }
    }
  }

  // ---------------------------------------------------------------------
  // Histories
  // ---------------------------------------------------------------------

  datatype Op =
    | Check(key: string, limit: nat, window: nat, at: Instant)
    | Ban(ip: string, duration: nat, at: Instant)
    | AskBanned(ip: string, at: Instant)
    | Clean(at: Instant)

  datatype Answer = Judged(v: Verdict) | IsBanned(banned: bool) | Done

  function Next(es: Entries, op: Op): Entries {
    match op
    case Check(key, _, window, at) => es[key := Bumped(es, key, window, at)]
    case Ban(ip, duration, at) => es[BanKey(ip) := Entry(1, at + duration)]
    case AskBanned(_, _) => es
    case Clean(at) => Cleaned(es, at)
  }

  function Reply(es: Entries, op: Op): Answer {
    match op
    case Check(key, limit, window, at) => Judged(Judge(Report(Bumped(es, key, window, at), at), limit))
    case AskBanned(ip, at) => IsBanned(Banned(es, ip, at))
    case _ => Done
  }

  predicate Chronological(ops: seq<Op>, from: Instant) {
    ops == [] || (from <= ops[0].at && Chronological(ops[1..], ops[0].at))
  }

  /** Every request for `key` uses this limit and window, and no ban is stored under `key`. */
  predicate UsesOnly(ops: seq<Op>, key: string, limit: nat, window: nat) {
    forall i :: 0 <= i < |ops| ==>
      && (ops[i].Check? && ops[i].key == key ==> ops[i].limit == limit && ops[i].window == window)
      && (ops[i].Ban? ==> BanKey(ops[i].ip) != key)
  }

  predicate Admits(es: Entries, op: Op, key: string, lo: Instant, hi: Instant) {
    op.Check? && op.key == key && lo <= op.at < hi && Reply(es, op).v.Admitted?
  }

  /** How many requests for `key` are admitted within [lo, hi). */
  function AdmittedIn(es: Entries, ops: seq<Op>, key: string, lo: Instant, hi: Instant): nat
    decreases ops
  {
    if ops == [] then 0
    else (if Admits(es, ops[0], key, lo, hi) then 1 else 0) + AdmittedIn(Next(es, ops[0]), ops[1..], key, lo, hi)
  }

  // --- How much a limit lets through -----------------------------------

  function Room(limit: nat, count: nat): nat {
    if count <= limit then limit - count else 0
  }

  /** Admissions still possible within [lo, lo + window), seen from a state at instant `now`. */
  function Bound(es: Entries, key: string, limit: nat, window: nat, lo: Instant, now: Instant): nat
    requires limit > 0
  {
    if now >= lo + window then 0
    else if key !in es then (if now >= lo then limit else 2 * limit - 1)
    else
      var e := es[key];
      if e.expiresAt - window >= lo then Room(limit, e.count)
      else if e.expiresAt >= lo || now >= lo then Room(limit, e.count) + limit
      else 2 * limit - 1
  }

  predicate Counting(es: Entries, key: string) {
    key in es ==> es[key].count > 0
  }

  lemma BoundStep(es: Entries, op: Op, key: string, limit: nat, window: nat, lo: Instant, now: Instant)
    requires limit > 0 && now <= op.at && Counting(es, key) && UsesOnly([op], key, limit, window)
    ensures Counting(Next(es, op), key)
    ensures (if Admits(es, op, key, lo, lo + window) then 1 else 0) +
            Bound(Next(es, op), key, limit, window, lo, op.at) <= Bound(es, key, limit, window, lo, now)
  {
    assert op == [op][0];
  }

  lemma {:induction false} BoundHolds(
      es: Entries, ops: seq<Op>, key: string, limit: nat, window: nat, lo: Instant, now: Instant)
    requires limit > 0 && Chronological(ops, now) && Counting(es, key) && UsesOnly(ops, key, limit, window)
    ensures AdmittedIn(es, ops, key, lo, lo + window) <= Bound(es, key, limit, window, lo, now)
    decreases ops
  {
    if ops != [] {
      BoundStep(es, ops[0], key, limit, window, lo, now);
      BoundHolds(Next(es, ops[0]), ops[1..], key, limit, window, lo, ops[0].at);
    }
  }

  /**
   * Whatever the request times, the other keys and the clean-ups, a limit of L per window admits at
   * most 2L - 1 requests for a key within any half-open interval as long as the window.
   */
  lemma AtMostTwoWindows(ops: seq<Op>, key: string, limit: nat, window: nat, lo: Instant, from: Instant)
    requires Chronological(ops, from) && UsesOnly(ops, key, limit, window)
    ensures AdmittedIn(map[], ops, key, lo, lo + window) <= if limit == 0 then 0 else 2 * limit - 1
  {
    if limit == 0 {
      NothingAdmitted(map[], ops, key, lo, lo + window);
    } else {
      BoundHolds(map[], ops, key, limit, window, lo, from);
    }
  }

  lemma {:induction false} NothingAdmitted(es: Entries, ops: seq<Op>, key: string, lo: Instant, hi: Instant)
    requires forall i :: 0 <= i < |ops| && ops[i].Check? && ops[i].key == key ==> ops[i].limit == 0
    ensures AdmittedIn(es, ops, key, lo, hi) == 0
    decreases ops
  {
    if ops != [] {
      NothingAdmitted(Next(es, ops[0]), ops[1..], key, lo, hi);
    }
  }

  function Repeat(op: Op, n: nat): seq<Op> {
    if n == 0 then [] else [op] + Repeat(op, n - 1)
  }

  lemma {:induction false} RepeatAdmits(
      es: Entries, op: Op, n: nat, rest: seq<Op>, lo: Instant, hi: Instant)
    requires op.Check? && lo <= op.at < hi && op.key in es
    requires op.at <= es[op.key].expiresAt && es[op.key].count + n <= op.limit
    ensures var e := es[op.key];
            AdmittedIn(es, Repeat(op, n) + rest, op.key, lo, hi) ==
            n + AdmittedIn(es[op.key := e.(count := e.count + n)], rest, op.key, lo, hi)
    decreases n
  {
    hide AdmittedIn;
    var e := es[op.key];
    if n == 0 {
      assert Repeat(op, n) + rest == rest && es[op.key := e.(count := e.count + n)] == es;
    } else {
      var es', later := Next(es, op), Repeat(op, n - 1) + rest;
      assert Repeat(op, n) + rest == [op] + later;
      AdmittedCons(es, op, later, op.key, lo, hi);
      RepeatAdmits(es', op, n - 1, rest, lo, hi);
      assert es'[op.key := e.(count := e.count + n)] == es[op.key := e.(count := e.count + n)];
    }
  }

  lemma AdmittedCons(es: Entries, op: Op, ops: seq<Op>, key: string, lo: Instant, hi: Instant)
    ensures AdmittedIn(es, [op] + ops, key, lo, hi) ==
            (if Admits(es, op, key, lo, hi) then 1 else 0) + AdmittedIn(Next(es, op), ops, key, lo, hi)
  {
    assert ([op] + ops)[1..] == ops;
  }

  /** A clean-up at the instant of expiry, then L requests. */
  function SecondHalf(key: string, limit: nat, window: nat): seq<Op>
    requires limit > 0
  {
    var atT := Check(key, limit, window, window);
    [Clean(window)] + ([atT] + (Repeat(atT, limit - 1) + []))
  }

  /** One request at 0, L - 1 at the instant of expiry, a clean-up, then L more. */
  function Burst(key: string, limit: nat, window: nat): seq<Op>
    requires limit > 0
  {
    [Check(key, limit, window, 0)] +
    (Repeat(Check(key, limit, window, window), limit - 1) + SecondHalf(key, limit, window))
  }

  lemma SecondHalfAdmits(key: string, limit: nat, window: nat, es: Entries)
    requires limit > 0 && window > 0 && es == map[key := Entry(limit, window)]
    ensures AdmittedIn(es, SecondHalf(key, limit, window), key, window, 2 * window) == limit
  {
    var atT := Check(key, limit, window, window);
    var es3: Entries := map[key := Entry(1, 2 * window)];
    AdmittedCons(es, Clean(window), [atT] + (Repeat(atT, limit - 1) + []), key, window, 2 * window);
    assert Cleaned(es, window) == map[];
    AdmittedCons(map[], atT, Repeat(atT, limit - 1) + [], key, window, 2 * window);
    assert Next(map[], atT) == es3;
    RepeatAdmits(es3, atT, limit - 1, [], window, 2 * window);
  }

  lemma {:induction false} RepeatChronological(op: Op, n: nat, rest: seq<Op>, from: Instant)
    requires from <= op.at && Chronological(rest, op.at)
    ensures Chronological(Repeat(op, n) + rest, from)
    decreases n
  {
    if n == 0 {
      assert Repeat(op, n) + rest == rest;
    } else {
      RepeatChronological(op, n - 1, rest, op.at);
      assert (Repeat(op, n) + rest)[1..] == Repeat(op, n - 1) + rest;
    }
  }

  lemma {:induction false} RepeatUsesOnly(op: Op, n: nat, key: string, limit: nat, window: nat)
    requires UsesOnly([op], key, limit, window)
    ensures UsesOnly(Repeat(op, n), key, limit, window)
    decreases n
  {
    assert op == [op][0];
    if n > 0 { RepeatUsesOnly(op, n - 1, key, limit, window); }
  }

  lemma BurstChronological(key: string, limit: nat, window: nat)
    requires limit > 0
    ensures Chronological(Burst(key, limit, window), 0)
  {
    var atT := Check(key, limit, window, window);
    var end, second := [atT] + (Repeat(atT, limit - 1) + []), SecondHalf(key, limit, window);
    RepeatChronological(atT, limit - 1, [], window);
    hide Repeat;
    assert end[1..] == Repeat(atT, limit - 1) + [];
    assert Chronological(second, window) by { assert second[1..] == end; }
    RepeatChronological(atT, limit - 1, second, 0);
    assert Burst(key, limit, window)[1..] == Repeat(atT, limit - 1) + second;
  }

  lemma BurstUsesOnly(key: string, limit: nat, window: nat)
    requires limit > 0
    ensures UsesOnly(Burst(key, limit, window), key, limit, window)
  {
    RepeatUsesOnly(Check(key, limit, window, window), limit - 1, key, limit, window);
    hide Repeat;
    assert UsesOnly(SecondHalf(key, limit, window), key, limit, window);
    hide SecondHalf;
  }

  /** The bound of 2L - 1 is reached. */
  lemma BoundIsTight(key: string, limit: nat, window: nat)
    requires limit > 0 && window > 0
    ensures Chronological(Burst(key, limit, window), 0) && UsesOnly(Burst(key, limit, window), key, limit, window)
    ensures AdmittedIn(map[], Burst(key, limit, window), key, window, 2 * window) == 2 * limit - 1
  {
    BurstChronological(key, limit, window);
    BurstUsesOnly(key, limit, window);
    hide Repeat, AdmittedIn, SecondHalf, Chronological, UsesOnly;
    var at0, atT := Check(key, limit, window, 0), Check(key, limit, window, window);
    var second := SecondHalf(key, limit, window);
    var es: Entries := map[key := Entry(1, window)];
    AdmittedCons(map[], at0, Repeat(atT, limit - 1) + second, key, window, 2 * window);
    assert Next(map[], at0) == es;
    RepeatAdmits(es, atT, limit - 1, second, window, 2 * window);
    SecondHalfAdmits(key, limit, window, es[key := Entry(limit, window)]);
  }

  // --- Clean-ups cannot be noticed --------------------------------------

  function Answers(es: Entries, ops: seq<Op>): seq<Answer>
    decreases ops
  {
    if ops == [] then []
    else (if ops[0].Clean? then [] else [Reply(es, ops[0])]) + Answers(Next(es, ops[0]), ops[1..])
  }

  function WithoutCleans(ops: seq<Op>): seq<Op> {
    if ops == [] then []
    else (if ops[0].Clean? then [] else [ops[0]]) + WithoutCleans(ops[1..])
  }

  /** A request that comes at the very instant at which its counter expires. */
  predicate OnExpiry(es: Entries, op: Op) {
    op.Check? && op.key in es && es[op.key].expiresAt == op.at
  }

  predicate AvoidsExpiry(es: Entries, ops: seq<Op>)
    decreases ops
  {
    ops == [] || (!OnExpiry(es, ops[0]) && AvoidsExpiry(Next(es, ops[0]), ops[1..]))
  }

  /** `small` is `full` without some entries that have expired by `now`. */
  predicate Pruned(full: Entries, small: Entries, now: Instant) {
    && (forall k :: k in small ==> k in full && small[k] == full[k])
    && (forall k :: k in full && k !in small ==> full[k].expiresAt <= now)
  }

  lemma {:induction false} PrunedAnswersAlike(full: Entries, small: Entries, ops: seq<Op>, now: Instant)
    requires Pruned(full, small, now) && Chronological(ops, now)
    requires AvoidsExpiry(full, WithoutCleans(ops))
    ensures Answers(small, ops) == Answers(full, WithoutCleans(ops))
    decreases ops
  {
    if ops != [] {
      var op, rest := ops[0], WithoutCleans(ops[1..]);
      if op.Clean? {
        assert WithoutCleans(ops) == rest;
        PrunedAnswersAlike(full, Cleaned(small, op.at), ops[1..], op.at);
      } else {
        assert WithoutCleans(ops)[0] == op && WithoutCleans(ops)[1..] == rest;
        StepAlike(full, small, op, now);
        PrunedAnswersAlike(Next(full, op), Next(small, op), ops[1..], op.at);
      }
    }
  }

  lemma StepAlike(full: Entries, small: Entries, op: Op, now: Instant)
    requires Pruned(full, small, now) && now <= op.at && !op.Clean? && !OnExpiry(full, op)
    ensures Reply(small, op) == Reply(full, op) && Pruned(Next(full, op), Next(small, op), op.at)
  {
  }

  /**
   * Clean-ups at any points of a history change no answer, as long as no request comes at the very
   * instant at which its counter expires.
   */
  lemma CleanupsUnnoticed(ops: seq<Op>, from: Instant)
    requires Chronological(ops, from) && AvoidsExpiry(map[], WithoutCleans(ops))
    ensures Answers(map[], ops) == Answers(map[], WithoutCleans(ops))
  {
    PrunedAnswersAlike(map[], map[], ops, from);
  }

  /** Every counter in the map has counted something. */
  predicate AllCounting(es: Entries) {
    forall k :: k in es ==> Counting(es, k)
  }

  /** A request on the instant of expiry is answered differently if a clean-up comes right before it. */
  lemma CleanupNoticed(es: Entries, op: Op)
    requires AllCounting(es) && OnExpiry(es, op)
    ensures Reply(Cleaned(es, op.at), op) != Reply(es, op)
  {
    assert Counting(es, op.key);
  }

  predicate NoCleans(ops: seq<Op>) {
    forall i :: 0 <= i < |ops| ==> !ops[i].Clean?
  }

  lemma {:induction false} NothingToLeaveOut(ops: seq<Op>)
    requires NoCleans(ops)
    ensures WithoutCleans(ops) == ops
    decreases ops
  {
    if ops != [] { NothingToLeaveOut(ops[1..]); }
  }

  /** Where a request falls on an expiry, the clean-up that is noticed. */
  lemma {:induction false} NoticedSomewhere(es: Entries, ops: seq<Op>, from: Instant) returns (ops': seq<Op>)
    requires AllCounting(es) && Chronological(ops, from) && NoCleans(ops) && !AvoidsExpiry(es, ops)
    ensures Chronological(ops', from) && WithoutCleans(ops') == ops && Answers(es, ops') != Answers(es, ops)
    decreases ops
  {
    var op, rest := ops[0], ops[1..];
    NothingToLeaveOut(ops);
    if OnExpiry(es, op) {
      ops' := [Clean(op.at)] + ops;
      assert ops'[1..] == ops;
      CleanupNoticed(es, op);
      assert Answers(Cleaned(es, op.at), ops)[0] != Answers(es, ops)[0];
    } else {
      var rest' := NoticedSomewhere(Next(es, op), rest, op.at);
      ops' := [op] + rest';
      assert ops'[1..] == rest';
      assert Answers(es, ops')[1..] == Answers(Next(es, op), rest');
      assert Answers(es, ops)[1..] == Answers(Next(es, op), rest);
    }
  }

  /** No way of inserting clean-ups into the history changes an answer. */
  ghost predicate CleanupsInvisible(ops: seq<Op>, from: Instant) {
    forall ops' :: Chronological(ops', from) && WithoutCleans(ops') == ops ==>
      Answers(map[], ops') == Answers(map[], ops)
  }

  /** Clean-ups cannot be noticed in a history exactly if no request in it falls on the expiry of its counter. */
  lemma CleanupsInvisibleIff(ops: seq<Op>, from: Instant)
    requires Chronological(ops, from) && NoCleans(ops)
    ensures CleanupsInvisible(ops, from) <==> AvoidsExpiry(map[], ops)
  {
    if AvoidsExpiry(map[], ops) {
      forall ops' | Chronological(ops', from) && WithoutCleans(ops') == ops
        ensures Answers(map[], ops') == Answers(map[], ops)
      {
        CleanupsUnnoticed(ops', from);
      }
    } else {
      var ops' := NoticedSomewhere(map[], ops, from);
    }
  }

  /** A clean-up changes the next answer for a key exactly if both fall on the instant of expiry. */
  lemma CleanupNoticedIff(es: Entries, key: string, limit: nat, window: nat, cleaned: Instant, at: Instant)
    requires key in es && es[key].count > 0 && cleaned <= at
    ensures Reply(Cleaned(es, cleaned), Check(key, limit, window, at)) == Reply(es, Check(key, limit, window, at)) <==>
            !(cleaned == at == es[key].expiresAt)
  {
  }
}
