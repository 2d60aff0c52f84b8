/** The list of parked long-poll readers: each is released once, by a wake or by its own timer. */
module Waiters {
  import opened Sequences

  /** Parked waiters in order, the timers still running, and every `resolve()` call so far. */
  datatype Parking = Parking(waiters: seq<nat>, timers: set<nat>, resolved: seq<nat>, next: nat)

  ghost predicate NoRepeats(s: seq<nat>) {
    forall i, j :: 0 <= i < j < |s| ==> s[i] != s[j]
  }

  /** Every waiter ever made is either parked with a running timer, or was resolved once; never both. */
  ghost predicate Ok(p: Parking) {
    && NoRepeats(p.waiters) && NoRepeats(p.resolved)
    && p.timers == (set w | w in p.waiters)
    && (forall w: nat :: w < p.next <==> w in p.waiters || w in p.resolved)
    && (forall w <- p.waiters :: w !in p.resolved)
  }

  function Without(s: seq<nat>, x: nat): (r: seq<nat>)
    ensures forall y :: y in r ==> y in s
    ensures forall y :: y in s && y != x ==> y in r
  {
    var i := IndexOf(s, x);
    assert s == s[..i] + s[i..];
    assert i < |s| ==> s == s[..i] + [s[i]] + s[i + 1..];
    if i < |s| then s[..i] + s[i + 1..] else s
  }

  function Parked(p: Parking): Parking {
    Parking(p.waiters + [p.next], p.timers + {p.next}, p.resolved, p.next + 1)
  }

  function Woken(p: Parking): Parking {
    Parking([], p.timers - (set w | w in p.waiters), p.resolved + p.waiters, p.next)
  }

  function TimedOut(p: Parking, id: nat): Parking {
    Parking(Without(p.waiters, id), p.timers - {id}, p.resolved + [id], p.next)
  }

  lemma ParkedOk(p: Parking)
    requires Ok(p)
    ensures Ok(Parked(p))
  {
  }

  /** A wake resolves everyone parked, each for the first time, and stops their timers. */
  lemma WokenOk(p: Parking)
    requires Ok(p)
    ensures Ok(Woken(p)) && Woken(p).timers == {}
  {
    var r := Woken(p).resolved;
    forall i, j | 0 <= i < j < |r| ensures r[i] != r[j] {
      if |p.resolved| <= j {
        assert r[j] == p.waiters[j - |p.resolved|] && r[j] in p.waiters;
      }
    }
  }

  /** A timer only runs for a parked waiter, so firing it resolves that waiter for the first time and delists it. */
  lemma TimedOutOk(p: Parking, id: nat)
    requires Ok(p) && id in p.timers
    ensures Ok(TimedOut(p, id)) && id !in TimedOut(p, id).waiters
  {
    var i := IndexOf(p.waiters, id);
    assert i < |p.waiters|;
    var rest := Without(p.waiters, id);
    assert rest == p.waiters[..i] + p.waiters[i + 1..];
    assert forall j :: 0 <= j < |rest| ==> rest[j] == p.waiters[if j < i then j else j + 1];
  }

  class WaiterList {
    var waiters: seq<nat>
    var timers: set<nat>
    var resolved: seq<nat>
    var next: nat

    function State(): Parking
      reads this
    {
      Parking(waiters, timers, resolved, next)
    }

    constructor ()
      ensures State() == Parking([], {}, [], 0) && Ok(State())
    {
      waiters, timers, resolved, next := [], {}, [], 0;
    }

    /** Park one reader; the result names it. */
    method Wait() returns (id: nat)
      requires Ok(State())
      modifies this
      ensures State() == Parked(old(State())) && Ok(State())
      ensures id == old(next) && id !in old(waiters) && id !in resolved
    {
      ParkedOk(State());
      id := next;
      next := next + 1;
      timers := timers + {id};
      waiters := waiters + [id];
    }

    /** Called from a waiter's entry: stop its timer and resolve it. */
    method Release(id: nat)
      modifies this`timers, this`resolved
      ensures timers == old(timers) - {id} && resolved == old(resolved) + [id]
    {
      timers := timers - {id};
      resolved := resolved + [id];
    }

    method WakeAll()
      requires Ok(State())
      modifies this
      ensures State() == Woken(old(State())) && Ok(State())
    {
      WokenOk(State());
      ghost var before := State();
      var pending := waiters;
      waiters := [];
      for i := 0 to |pending|
        invariant waiters == [] && next == before.next
        invariant timers == before.timers - (set w | w in pending[..i])
        invariant resolved == before.resolved + pending[..i]
      {
        PrefixStep(pending, i);
        Release(pending[i]);
      }
      assert pending[..|pending|] == pending;
    }

    /** A timer fires only while it runs. */
    method TimerFires(id: nat)
      requires Ok(State()) && id in timers
      modifies this
      ensures State() == TimedOut(old(State()), id) && Ok(State())
    {
      TimedOutOk(State(), id);
      timers := timers - {id};
      var i := IndexOf(waiters, id);
      if i < |waiters| {
        waiters := waiters[..i] + waiters[i + 1..];
      }
      resolved := resolved + [id];
    }
  }
}
