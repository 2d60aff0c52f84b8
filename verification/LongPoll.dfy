/**
 * Long polls, posts and timers interleaving over one session. A poll reads and then, in a separate step, decides:
 * return, time out, or park. A post stores and then, in a separate step, wakes everyone parked.
 */
module LongPoll {
  import opened Waiters

  datatype Phase =
    | Reading
    | Seen(logged: nat)
    | Waiting(waiter: nat)
    | Returned(withMessages: bool)

  /** `parks`, `wakes` and `expiries` are history: how often the poll parked and what released it. */
  datatype Poll = Poll(after: int, deadline: int, phase: Phase, parks: nat, wakes: nat, expiries: nat)

  /** `owed` counts the posts that have stored their message but not woken yet. */
  datatype World = World(clock: int, logged: nat, owed: nat, parking: Parking, polls: seq<Poll>)

  datatype Event =
    | Start(after: int, timeout: int)
    | Read(poll: nat)
    | Decide(poll: nat)
    | Store
    | Wake
    | Timer(poll: nat)
    | Tick(elapsed: nat)

  /** Does a log of this length hold a message past the cursor? */
  predicate Behind(after: int, logged: nat) { after < logged && 0 < logged }

  function Idle(): World { World(0, 0, 0, Parking([], {}, [], 0), []) }

  /** A wake sends every parked poll back to its read. */
  function Released(polls: seq<Poll>, waiters: seq<nat>): (r: seq<Poll>)
    ensures |r| == |polls|
    ensures forall i :: 0 <= i < |r| ==> r[i] == ReleasedOne(polls[i], waiters)
  {
    seq(|polls|, i requires 0 <= i < |polls| => ReleasedOne(polls[i], waiters))
  }

  function ReleasedOne(p: Poll, waiters: seq<nat>): Poll {
    if p.phase.Waiting? && p.phase.waiter in waiters then p.(phase := Reading, wakes := p.wakes + 1) else p
  }

  function StepDecide(w: World, i: nat): World
    requires i < |w.polls| && w.polls[i].phase.Seen?
  {
    var p := w.polls[i];
    if Behind(p.after, p.phase.logged) then w.(polls := w.polls[i := p.(phase := Returned(true))])
    else if p.deadline <= w.clock then w.(polls := w.polls[i := p.(phase := Returned(false))])
    else w.(parking := Parked(w.parking),
            polls := w.polls[i := p.(phase := Waiting(w.parking.next), parks := p.parks + 1)])
  }

  /** A step that is not enabled leaves the world alone. */
  function Step(w: World, e: Event): World {
    match e
    case Start(after, timeout) => w.(polls := w.polls + [Poll(after, w.clock + timeout, Reading, 0, 0, 0)])
    case Read(i) =>
      if i < |w.polls| && w.polls[i].phase.Reading? then w.(polls := w.polls[i := w.polls[i].(phase := Seen(w.logged))]) else w
    case Decide(i) =>
      if i < |w.polls| && w.polls[i].phase.Seen? then StepDecide(w, i) else w
    case Store => w.(logged := w.logged + 1, owed := w.owed + 1)
    case Wake =>
      if w.owed == 0 then w
      else w.(owed := w.owed - 1, parking := Woken(w.parking), polls := Released(w.polls, w.parking.waiters))
    case Timer(i) =>
      if i < |w.polls| && w.polls[i].phase.Waiting? && w.polls[i].phase.waiter in w.parking.timers && w.polls[i].deadline <= w.clock
      then
        var p := w.polls[i];
        w.(parking := TimedOut(w.parking, p.phase.waiter), polls := w.polls[i := p.(phase := Reading, expiries := p.expiries + 1)])
      else w
    case Tick(elapsed) => w.(clock := w.clock + elapsed)
  }

  function Run(events: seq<Event>): World {
    if events == [] then Idle() else Step(Run(events[..|events| - 1]), events[|events| - 1])
  }

  // ---- What every interleaving keeps ----

  ghost predicate PollOk(w: World, p: Poll) {
    && p.parks == p.wakes + p.expiries + (if p.phase.Waiting? then 1 else 0)
    && p.expiries <= 1
    && (p.expiries == 1 ==> p.deadline <= w.clock && !p.phase.Waiting?)
    && (p.phase.Waiting? ==> p.phase.waiter in w.parking.waiters)
    && (p.phase.Seen? ==> p.phase.logged <= w.logged)
  }

  /** The list holds exactly the parked polls, each once: no closure outlives its poll's wait. */
  ghost predicate Inv(w: World) {
    && Ok(w.parking)
    && (forall i :: 0 <= i < |w.polls| ==> PollOk(w, w.polls[i]))
    && (forall i, j :: 0 <= i < j < |w.polls| && w.polls[i].phase.Waiting? && w.polls[j].phase.Waiting? ==>
          w.polls[i].phase.waiter != w.polls[j].phase.waiter)
    && (forall id <- w.parking.waiters :: exists i :: 0 <= i < |w.polls| && w.polls[i].phase == Waiting(id))
  }

  lemma DecideKeepsInv(w: World, i: nat)
    requires Inv(w) && i < |w.polls| && w.polls[i].phase.Seen?
    ensures Inv(StepDecide(w, i))
  {
    ParkedOk(w.parking);
    var v := StepDecide(w, i);
    forall id | id in v.parking.waiters ensures exists j :: 0 <= j < |v.polls| && v.polls[j].phase == Waiting(id) {
      if id in w.parking.waiters {
        var j :| 0 <= j < |w.polls| && w.polls[j].phase == Waiting(id);
        assert v.polls[j].phase == Waiting(id);
      } else {
        assert v.polls[i].phase == Waiting(id);
      }
    }
  }

  lemma TimerKeepsInv(w: World, i: nat)
    requires Inv(w) && i < |w.polls| && w.polls[i].phase.Waiting? && w.polls[i].deadline <= w.clock
    ensures Inv(Step(w, Timer(i)))
  {
    var id := w.polls[i].phase.waiter;
    if id in w.parking.timers {
      TimedOutOk(w.parking, id);
      var v := Step(w, Timer(i));
      forall other | other in v.parking.waiters ensures exists j :: 0 <= j < |v.polls| && v.polls[j].phase == Waiting(other) {
        var j :| 0 <= j < |w.polls| && w.polls[j].phase == Waiting(other);
        assert v.polls[j].phase == Waiting(other);
      }
    }
  }

  lemma StepKeepsInv(w: World, e: Event)
    requires Inv(w)
    ensures Inv(Step(w, e))
  {
    hide Inv, StepDecide, Woken, Released, TimedOut;
    match e
    case Decide(i) => if i < |w.polls| && w.polls[i].phase.Seen? { DecideKeepsInv(w, i); }
    case Timer(i) => if i < |w.polls| && w.polls[i].phase.Waiting? && w.polls[i].deadline <= w.clock { TimerKeepsInv(w, i); }
    case Wake => WakeKeepsInv(w);
    case _ => QuietKeepsInv(w, e);
  }

  lemma WakeKeepsInv(w: World)
    requires Inv(w)
    ensures Inv(Step(w, Wake))
  {
    hide StepDecide, TimedOut;
    WokenOk(w.parking);
  }

  /** Starting, reading, storing and the clock leave the parked polls alone. */
  lemma QuietKeepsInv(w: World, e: Event)
    requires Inv(w) && (e.Start? || e.Read? || e.Store? || e.Tick?)
    ensures Inv(Step(w, e))
  {
    hide StepDecide, Woken, Released, TimedOut, Ok;
    KeepsWaiting(w, Step(w, e));
  }

  lemma KeepsWaiting(w: World, v: World)
    requires Inv(w) && v.parking == w.parking && |w.polls| <= |v.polls|
    requires forall i :: 0 <= i < |w.polls| ==> w.polls[i].phase.Waiting? ==> v.polls[i].phase == w.polls[i].phase
    ensures forall id <- v.parking.waiters :: exists i :: 0 <= i < |v.polls| && v.polls[i].phase == Waiting(id)
  {
    forall id | id in v.parking.waiters ensures exists i :: 0 <= i < |v.polls| && v.polls[i].phase == Waiting(id) {
      var i :| 0 <= i < |w.polls| && w.polls[i].phase == Waiting(id);
      assert v.polls[i].phase == Waiting(id);
    }
  }

  /** In every interleaving each poll parks at most once more often than it was woken, and the list holds just the parked. */
  lemma {:induction false} EveryRunKeepsInv(events: seq<Event>)
    ensures Inv(Run(events))
    ensures forall p <- Run(events).polls :: p.parks <= p.wakes + 1
  {
    if events != [] {
      EveryRunKeepsInv(events[..|events| - 1]);
      StepKeepsInv(Run(events[..|events| - 1]), events[|events| - 1]);
    }
    forall p | p in Run(events).polls ensures p.parks <= p.wakes + 1 {
      var i :| 0 <= i < |Run(events).polls| && Run(events).polls[i] == p;
      assert PollOk(Run(events), p);
    }
  }

  /** A poll answers from the read it just made: a timeout straight after an empty one, at or past its deadline. */
  lemma AnswersFromItsLastRead(events: seq<Event>, e: Event, i: nat)
    requires i < |Run(events).polls| && !Run(events).polls[i].phase.Returned? && Step(Run(events), e).polls[i].phase.Returned?
    ensures
      var w, before, after := Run(events), Run(events).polls[i], Step(Run(events), e).polls[i];
      && before.phase.Seen? && before.phase.logged <= w.logged
      && (after.phase.withMessages <==> Behind(before.after, before.phase.logged))
      && (!after.phase.withMessages ==> before.deadline <= w.clock)
  {
    EveryRunKeepsInv(events);
    assert PollOk(Run(events), Run(events).polls[i]);
  }

  // ---- No lost wake-up ----

  /** An empty read that has gone stale before its deadline: decided now, the poll parks with a message to fetch. */
  predicate Stale(w: World, p: Poll) {
    p.phase.Seen? && !Behind(p.after, p.phase.logged) && Behind(p.after, w.logged) && w.clock < p.deadline
  }

  /** A poll that is parked with a message to fetch, or about to park so, has some post that still owes its wake. */
  predicate Covered(w: World, p: Poll) {
    (p.phase.Waiting? && Behind(p.after, w.logged)) || Stale(w, p) ==> w.owed > 0
  }

  predicate AllCovered(w: World) { forall p <- w.polls :: Covered(w, p) }

  /** The last owed wake does not meet a stale read. */
  predicate Safe(w: World, e: Event) {
    e.Wake? && w.owed == 1 ==> forall p <- w.polls :: !Stale(w, p)
  }

  lemma WakeCovers(w: World)
    requires Inv(w) && AllCovered(w)
    ensures AllCovered(Step(w, Wake)) <==> Safe(w, Wake)
  {
    var v := Step(w, Wake);
    forall i | 0 <= i < |w.polls| && w.owed == 1 ensures Covered(v, v.polls[i]) <==> !Stale(w, w.polls[i]) {
      assert PollOk(w, w.polls[i]);
    }
    if w.owed == 1 {
      assert AllCovered(v) <==> forall i :: 0 <= i < |v.polls| ==> Covered(v, v.polls[i]);
      assert Safe(w, Wake) <==> forall i :: 0 <= i < |w.polls| ==> !Stale(w, w.polls[i]);
    }
  }

  lemma OtherStepCovers(w: World, e: Event)
    requires Inv(w) && AllCovered(w) && !e.Wake?
    ensures AllCovered(Step(w, e))
  {
    var v := Step(w, e);
    forall p | p in v.polls ensures Covered(v, p) {
      var i :| 0 <= i < |v.polls| && v.polls[i] == p;
      if i < |w.polls| {
        assert w.polls[i] in w.polls && Covered(w, w.polls[i]);
      }
    }
  }

  /** One step keeps every poll covered exactly if it is safe. */
  lemma StepCoversIffSafe(w: World, e: Event)
    requires Inv(w) && AllCovered(w)
    ensures AllCovered(Step(w, e)) <==> Safe(w, e)
  {
    if e.Wake? {
      WakeCovers(w);
    } else {
      OtherStepCovers(w, e);
    }
  }

  ghost predicate AlwaysCovered(events: seq<Event>) {
    forall n :: 0 <= n <= |events| ==> AllCovered(Run(events[..n]))
  }

  ghost predicate SafeRun(events: seq<Event>) {
    forall n :: 0 <= n < |events| ==> Safe(Run(events[..n]), events[n])
  }

  lemma RunStep(events: seq<Event>, n: nat)
    requires n < |events|
    ensures Run(events[..n + 1]) == Step(Run(events[..n]), events[n])
  {
    assert events[..n + 1][..n] == events[..n];
  }

  lemma {:induction false} SafePrefixCovered(events: seq<Event>, n: nat)
    requires SafeRun(events) && n <= |events|
    ensures AllCovered(Run(events[..n]))
  {
    if n > 0 {
      SafePrefixCovered(events, n - 1);
      RunStep(events, n - 1);
      EveryRunKeepsInv(events[..n - 1]);
      assert Safe(Run(events[..n - 1]), events[n - 1]);
      hide Run, Step, AllCovered, Safe;
      StepCoversIffSafe(Run(events[..n - 1]), events[n - 1]);
    }
  }

  /**
   * Exactly when no wake-up is lost: every poll is covered throughout a run if and only if the last owed wake never
   * meets a stale read, however posts, reads, decisions, parks and timers interleave.
   */
  lemma NoLostWakeUp(events: seq<Event>)
    ensures AlwaysCovered(events) <==> SafeRun(events)
  {
    if SafeRun(events) {
      forall n | 0 <= n <= |events| ensures AllCovered(Run(events[..n])) {
        SafePrefixCovered(events, n);
      }
    }
    if AlwaysCovered(events) {
      forall n | 0 <= n < |events| ensures Safe(Run(events[..n]), events[n]) {
        assert AllCovered(Run(events[..n])) && AllCovered(Run(events[..n + 1]));
        RunStep(events, n);
        EveryRunKeepsInv(events[..n]);
        hide Run, Step, AllCovered, Safe;
        StepCoversIffSafe(Run(events[..n]), events[n]);
      }
    }
  }

  /** The host's promise: polls decide right after their reads, before any wake gets its turn. */
  ghost predicate PromptRun(events: seq<Event>) {
    forall n :: 0 <= n < |events| && events[n].Wake? ==> forall p <- Run(events[..n]).polls :: !p.phase.Seen?
  }

  /** Under that promise a parked poll behind the log always has a post that stored and still owes its wake. */
  lemma PromptRunsLoseNothing(events: seq<Event>)
    requires PromptRun(events)
    ensures forall p <- Run(events).polls :: p.phase.Waiting? && Behind(p.after, Run(events).logged) ==> Run(events).owed > 0
  {
    assert SafeRun(events);
    SafePrefixCovered(events, |events|);
    assert events[..|events|] == events;
  }

  /** An unsafe wake loses a wake-up: the stale poll, deciding next, parks on a message nobody will announce. */
  lemma UnsafeWakeLosesWakeUp(w: World) returns (i: nat)
    requires Inv(w) && !Safe(w, Wake)
    ensures i < |w.polls|
    ensures
      var v := Step(Step(w, Wake), Decide(i));
      v.polls[i].phase.Waiting? && Behind(v.polls[i].after, v.logged) && v.owed == 0
  {
    var p :| p in w.polls && Stale(w, p);
    i :| 0 <= i < |w.polls| && w.polls[i] == p;
  }

  /** Such a run exists. */
  lemma LostWakeUpRun()
    ensures
      var w := Run([Start(0, 25000), Read(0), Store, Wake, Decide(0)]);
      |w.polls| == 1 && w.polls[0].phase.Waiting? && Behind(w.polls[0].after, w.logged) && w.owed == 0
  {
    var events := [Start(0, 25000), Read(0), Store, Wake, Decide(0)];
    assert events[..4] == [Start(0, 25000), Read(0), Store, Wake];
    assert events[..4][..3] == [Start(0, 25000), Read(0), Store];
    assert events[..4][..3][..2] == [Start(0, 25000), Read(0)];
    assert events[..4][..3][..2][..1] == [Start(0, 25000)];
    assert events[..4][..3][..2][..1][..0] == [];
    assert Run([]) == Idle();
    var w1 := World(0, 0, 0, Parking([], {}, [], 0), [Poll(0, 25000, Reading, 0, 0, 0)]);
    assert Run([Start(0, 25000)]) == w1;
    var w2 := w1.(polls := [Poll(0, 25000, Seen(0), 0, 0, 0)]);
    assert Run([Start(0, 25000), Read(0)]) == w2;
    var w3 := w2.(logged := 1, owed := 1);
    assert Run([Start(0, 25000), Read(0), Store]) == w3;
    var w4 := Step(w3, Wake);
    assert w4.polls == w3.polls && w4.owed == 0 && w4.logged == 1;
    assert Run([Start(0, 25000), Read(0), Store, Wake]) == w4;
  }

  /** A wake that meets a read of the very message it announces is harmless, and such a run is safe though not prompt. */
  lemma FreshReadIsSafe()
    ensures SafeRun([Start(0, 10), Store, Read(0), Wake]) && !PromptRun([Start(0, 10), Store, Read(0), Wake])
  {
    var events := [Start(0, 10), Store, Read(0), Wake];
    assert events[..3] == [Start(0, 10), Store, Read(0)];
    assert events[..3][..2] == [Start(0, 10), Store];
    assert events[..3][..2][..1] == [Start(0, 10)];
    assert events[..3][..2][..1][..0] == [];
    assert Run([]) == Idle();
    var w1 := World(0, 0, 0, Parking([], {}, [], 0), [Poll(0, 10, Reading, 0, 0, 0)]);
    assert Run([Start(0, 10)]) == w1;
    var w2 := w1.(logged := 1, owed := 1);
    assert Run([Start(0, 10), Store]) == w2;
    var w3 := w2.(polls := [Poll(0, 10, Seen(1), 0, 0, 0)]);
    assert Run([Start(0, 10), Store, Read(0)]) == w3;
    assert Run(events[..3]).polls[0] in Run(events[..3]).polls;
    assert forall n :: 0 <= n < 4 && events[n].Wake? ==> n == 3;
  }
}
