/** The scheduler's timers and the order in which its heap gives them out. */
module Timers {
  import opened Common

  datatype Timer = Timer(wakeTime: int, token: nat)

  /** `a` is given out before `b`: the reversed comparison of the heap. */
  predicate Before(a: Timer, b: Timer) {
    a.wakeTime < b.wakeTime || (a.wakeTime == b.wakeTime && a.token < b.token)
  }

  predicate IsDue(t: Timer, now: int) {
    t.wakeTime <= now
  }

  /** Time left; `None` once the wake time has passed. */
  function Duration(t: Timer, now: int): Option<nat> {
    if now <= t.wakeTime then Some(t.wakeTime - now) else None
  }

  /** A timer is due exactly when no time is left, so a wait for the time left is a wait until it is due. */
  lemma DueIffNoTimeLeft(t: Timer, now: int)
    ensures IsDue(t, now) <==> Duration(t, now) == None || Duration(t, now) == Some(0)
    ensures Duration(t, now).Some? ==>
              forall at :: now <= at ==> (IsDue(t, at) <==> now + Duration(t, now).value <= at)
  {
  }

  predicate IsEarliest(t: Timer, ts: multiset<Timer>) {
    t in ts && forall u :: u in ts ==> !Before(u, t)
  }

  lemma {:induction false} EarliestExists(ts: multiset<Timer>)
    requires ts != multiset{}
    ensures exists t :: IsEarliest(t, ts)
    decreases |ts|
  {
    var x :| x in ts;
    var rest := ts - multiset{x};
    if rest == multiset{} {
      assert ts == multiset{x};
      assert IsEarliest(x, ts);
    } else {
      EarliestExists(rest);
      var y :| IsEarliest(y, rest);
      var z := if Before(x, y) then x else y;
      forall u | u in ts
        ensures !Before(u, z)
      {
        assert u == x || u in rest;
      }
      assert IsEarliest(z, ts);
    }
  }

  /** The timer the heap shows first; the order is total, so there is only one. */
  ghost function Earliest(ts: multiset<Timer>): (t: Timer)
    requires ts != multiset{}
    ensures IsEarliest(t, ts)
  {
    EarliestExists(ts);
    var t :| IsEarliest(t, ts);
    t
  }

  lemma EarliestUnique(t: Timer, ts: multiset<Timer>)
    requires IsEarliest(t, ts)
    ensures t == Earliest(ts)
  {
    assert !Before(t, Earliest(ts)) && !Before(Earliest(ts), t);
  }

  /** The timers popped while the first one is due. */
  ghost function DueInOrder(ts: multiset<Timer>, now: int): seq<Timer>
    decreases |ts|
  {
    if ts == multiset{} || !IsDue(Earliest(ts), now) then []
    else [Earliest(ts)] + DueInOrder(ts - multiset{Earliest(ts)}, now)
  }

  /** By wake time, and by token where that is the same. */
  predicate InOrder(a: Timer, b: Timer) {
    a.wakeTime <= b.wakeTime && (a.wakeTime == b.wakeTime ==> a.token <= b.token)
  }

  predicate Ordered(ts: seq<Timer>) {
    forall i, j :: 0 <= i < j < |ts| ==> InOrder(ts[i], ts[j])
  }

  lemma NotBeforeIsInOrder(a: Timer, b: Timer)
    requires !Before(b, a)
    ensures InOrder(a, b)
  {
  }

  /** Each timer is popped as often as it is due. */
  lemma {:induction false} DueCount(ts: multiset<Timer>, now: int, t: Timer)
    ensures multiset(DueInOrder(ts, now))[t] == if IsDue(t, now) then ts[t] else 0
    decreases |ts|
  {
    if ts != multiset{} {
      var first := Earliest(ts);
      if IsDue(first, now) {
        DueCount(ts - multiset{first}, now, t);
        assert multiset(DueInOrder(ts, now)) ==
               multiset{first} + multiset(DueInOrder(ts - multiset{first}, now));
      } else if t in ts {
        assert !Before(t, first);
      }
    }
  }

  lemma {:induction false} DueOrdered(ts: multiset<Timer>, now: int)
    ensures Ordered(DueInOrder(ts, now))
    decreases |ts|
  {
    if ts != multiset{} && IsDue(Earliest(ts), now) {
      var rest := ts - multiset{Earliest(ts)};
      var later := DueInOrder(rest, now);
      DueOrdered(rest, now);
      forall i | 0 <= i < |later|
        ensures InOrder(Earliest(ts), later[i])
      {
        DueCount(rest, now, later[i]);
        assert later[i] in multiset(later);
        assert later[i] in ts;
        NotBeforeIsInOrder(Earliest(ts), later[i]);
      }
      assert DueInOrder(ts, now) == [Earliest(ts)] + later;
      hide InOrder, Before, DueInOrder, Earliest;
    }
  }

  /** What popping takes is exactly what is due, and it comes out by wake time, then token. */
  lemma DueInOrderExact(ts: multiset<Timer>, now: int)
    ensures Ordered(DueInOrder(ts, now))
    ensures forall t :: multiset(DueInOrder(ts, now))[t] == if IsDue(t, now) then ts[t] else 0
  {
    DueOrdered(ts, now);
    forall t: Timer
      ensures multiset(DueInOrder(ts, now))[t] == if IsDue(t, now) then ts[t] else 0
    {
      DueCount(ts, now, t);
    }
  }
}
