/** When a long poll answers, told by the events alone: what it was asked, the clock, and the posts it read. */
module PollTiming {
  import opened LongPoll
  import opened Waiters

  /** The time that has passed. */
  function Elapsed(events: seq<Event>): int {
    if events == [] then 0
    else
      var e := events[|events| - 1];
      Elapsed(events[..|events| - 1]) + if e.Tick? then e.elapsed else 0
  }

  function Starts(events: seq<Event>): nat {
    if events == [] then 0 else Starts(events[..|events| - 1]) + if events[|events| - 1].Start? then 1 else 0
  }

  function Stores(events: seq<Event>): nat {
    if events == [] then 0 else Stores(events[..|events| - 1]) + if events[|events| - 1].Store? then 1 else 0
  }

  lemma StepCounts(w: World, e: Event)
    ensures Step(w, e).clock == w.clock + if e.Tick? then e.elapsed else 0
    ensures |Step(w, e).polls| == |w.polls| + if e.Start? then 1 else 0
    ensures Step(w, e).logged == w.logged + if e.Store? then 1 else 0
    ensures e.Start? ==> Step(w, e).polls[|w.polls|].after == e.after
                         && Step(w, e).polls[|w.polls|].deadline == w.clock + e.timeout
  {
    hide Woken, Parked, TimedOut, Behind;
  }

  /** Clock, polls and log are what the events say. */
  lemma {:induction false} Counts(events: seq<Event>)
    ensures Run(events).clock == Elapsed(events)
    ensures |Run(events).polls| == Starts(events)
    ensures Run(events).logged == Stores(events)
  {
    hide Step;
    if events != [] {
      var before := events[..|events| - 1];
      Counts(before);
      StepCounts(Run(before), events[|events| - 1]);
    }
  }

  /** Poll `i` was started by event `n`. */
  predicate StartedBy(events: seq<Event>, n: nat, i: nat) {
    n < |events| && events[n].Start? && Starts(events[..n]) == i
  }

  lemma StepKeepsTerms(w: World, e: Event, i: nat)
    requires i < |w.polls|
    ensures i < |Step(w, e).polls|
    ensures Step(w, e).polls[i].after == w.polls[i].after && Step(w, e).polls[i].deadline == w.polls[i].deadline
  {
    hide Woken, Parked, TimedOut, Behind;
  }

  /** A poll keeps the cursor it was started with, and its deadline is its timeout past the clock at its start. */
  lemma {:induction false} Terms(events: seq<Event>, n: nat, i: nat)
    requires StartedBy(events, n, i)
    ensures i < |Run(events).polls| && Run(events).polls[i].after == events[n].after
    ensures Run(events).polls[i].deadline == Elapsed(events[..n]) + events[n].timeout
  {
    hide Step;
    var m := |events| - 1;
    Counts(events[..m]);
    StepCounts(Run(events[..m]), events[m]);
    if n < m {
      assert events[..m][..n] == events[..n];
      Terms(events[..m], n, i);
      StepKeepsTerms(Run(events[..m]), events[m], i);
    }
  }

  /** Every poll was started. */
  lemma {:induction false} StartOf(events: seq<Event>, i: nat) returns (n: nat)
    requires i < |Run(events).polls|
    ensures StartedBy(events, n, i)
  {
    hide Step;
    Counts(events);
    var m := |events| - 1;
    if events[m].Start? && Starts(events[..m]) == i {
      n := m;
    } else {
      Counts(events[..m]);
      n := StartOf(events[..m], i);
      assert events[..m][..n] == events[..n];
    }
  }

  lemma StepKeepsAnswers(w: World, e: Event, i: nat)
    requires i < |w.polls|
    ensures i < |Step(w, e).polls|
    ensures w.polls[i].phase.Returned? ==> Step(w, e).polls[i].phase == w.polls[i].phase
    ensures !w.polls[i].phase.Returned? && Step(w, e).polls[i].phase.Returned? ==> e == Decide(i) && w.polls[i].phase.Seen?
    ensures Step(w, e).polls[i].phase.Seen? && Step(w, e).polls[i].phase != w.polls[i].phase ==>
              e == Read(i) && w.polls[i].phase.Reading? && Step(w, e).polls[i].phase == Seen(w.logged)
    ensures w.polls[i].phase.Seen? && e != Decide(i) ==> Step(w, e).polls[i].phase == w.polls[i].phase
  {
    hide Woken, Parked, TimedOut, Behind;
  }

  /**
   * What a poll decides when its turn comes after a read that saw the log `l` long: it returns with messages exactly if
   * there were some past the cursor it was asked for; otherwise it times out exactly if its timeout has passed since
   * its start, and parks until then.
   */
  lemma DecidesByTheClock(events: seq<Event>, n: nat, i: nat, l: nat)
    requires StartedBy(events, n, i) && i < |Run(events).polls| && Run(events).polls[i].phase == Seen(l)
    ensures i < |Run(events + [Decide(i)]).polls|
    ensures
      var phase := Run(events + [Decide(i)]).polls[i].phase;
      && (phase == Returned(true) <==> events[n].after < l && 0 < l)
      && (phase == Returned(false) <==>
            !(events[n].after < l && 0 < l) && Elapsed(events[..n]) + events[n].timeout <= Elapsed(events))
      && (phase.Waiting? <==>
            !(events[n].after < l && 0 < l) && Elapsed(events) < Elapsed(events[..n]) + events[n].timeout)
  {
    hide Woken, Parked, TimedOut;
    Terms(events, n, i);
    Counts(events);
    assert (events + [Decide(i)])[..|events|] == events;
  }

  /** What a waiting decision saw: the log as it was when the poll last read, and it has not moved since. */
  lemma {:induction false} SeenAtItsRead(events: seq<Event>, i: nat) returns (r: nat)
    requires i < |Run(events).polls| && Run(events).polls[i].phase.Seen?
    ensures r < |events| && events[r] == Read(i) && Run(events).polls[i].phase == Seen(Stores(events[..r]))
    ensures forall k :: r < k < |events| ==> events[k] != Decide(i)
  {
    hide Step;
    var m := |events| - 1;
    Counts(events[..m]);
    SeenBefore(events, i);
    StepKeepsAnswers(Run(events[..m]), events[m], i);
    if events[m] == Read(i) && Run(events[..m]).polls[i].phase.Reading? {
      r := m;
    } else {
      r := SeenAtItsRead(events[..m], i);
      assert events[..m][..r] == events[..r];
    }
  }

  lemma SeenBefore(events: seq<Event>, i: nat)
    requires events != [] && i < |Run(events).polls| && Run(events).polls[i].phase.Seen?
    ensures i < |Run(events[..|events| - 1]).polls|
    ensures events[|events| - 1] == Decide(i) ==> !Run(events[..|events| - 1]).polls[i].phase.Seen?
  {
    hide Step;
    StepSeen(Run(events[..|events| - 1]), events[|events| - 1], i);
  }

  lemma StepSeen(w: World, e: Event, i: nat)
    requires i < |Step(w, e).polls| && Step(w, e).polls[i].phase.Seen?
    ensures i < |w.polls| && (e == Decide(i) ==> !w.polls[i].phase.Seen?)
  {
    hide Woken, Parked, TimedOut, Behind;
  }

  /**
   * No poll times out early, and none answers from anything but what it read: if poll `i`, started by event `n`, answers
   * at event `m`, that event is its decision; without messages, its timeout has passed since event `n` and its last read
   * found nothing past its cursor; with messages, its last read found some.
   */
  lemma AnswersInTime(events: seq<Event>, n: nat, i: nat, m: nat) returns (r: nat)
    requires m < |events| && StartedBy(events[..m], n, i)
    requires i < |Run(events[..m]).polls| && !Run(events[..m]).polls[i].phase.Returned?
    requires i < |Run(events[..m + 1]).polls| && Run(events[..m + 1]).polls[i].phase.Returned?
    ensures events[m] == Decide(i) && r < m && events[r] == Read(i) && forall k :: r < k < m ==> events[k] != Decide(i)
    ensures Run(events[..m + 1]).polls[i].phase.withMessages <==> events[n].after < Stores(events[..r]) && 0 < Stores(events[..r])
    ensures !Run(events[..m + 1]).polls[i].phase.withMessages ==> Elapsed(events[..n]) + events[n].timeout <= Elapsed(events[..m])
  {
    hide Step;
    RunStep(events, m);
    StepKeepsAnswers(Run(events[..m]), events[m], i);
    r := SeenAtItsRead(events[..m], i);
    DecidesByTheClock(events[..m], n, i, Stores(events[..m][..r]));
    assert events[..m] + [Decide(i)] == events[..m + 1];
    assert events[..m][..r] == events[..r] && events[..m][..n] == events[..n];
  }

  lemma ParkedTimer(w: World, i: nat)
    requires Inv(w) && i < |w.polls| && w.polls[i].phase.Waiting?
    ensures w.polls[i].phase.waiter in w.parking.timers && w.polls[i].phase.waiter in w.parking.waiters
  {
    assert PollOk(w, w.polls[i]);
    assert w.polls[i].phase.waiter in (set x | x in w.parking.waiters);
  }

  /** A parked poll reads again on the next wake, and on its timer exactly once its timeout has passed since its start. */
  lemma ParkedIsReleased(events: seq<Event>, n: nat, i: nat)
    requires StartedBy(events, n, i) && i < |Run(events).polls| && Run(events).polls[i].phase.Waiting?
    ensures |Step(Run(events), Wake).polls| == |Step(Run(events), Timer(i)).polls| == |Run(events).polls|
    ensures Run(events).owed > 0 ==> Step(Run(events), Wake).polls[i].phase == Reading
    ensures Step(Run(events), Timer(i)).polls[i].phase == Reading <==>
            Elapsed(events[..n]) + events[n].timeout <= Elapsed(events)
  {
    hide Run, Woken, Parked, TimedOut, Inv;
    EveryRunKeepsInv(events);
    ParkedTimer(Run(events), i);
    Terms(events, n, i);
    Counts(events);
  }
}
