/**
 * Per-session serialization on a promise chain. A request is a program of single store operations; the event loop
 * may run one operation of any started request at a time, and requests of one session start in arrival order.
 */
module NodeRelay {
  import opened Prelude
  import opened Store

  /** How a promise settles. */
  datatype Outcome<+R> = Fulfilled(value: R) | Rejected(reason: string)

  /** A task expanded into its store operations, ending in a result or a throw. */
  datatype Program<!V, +R> =
    | Finish(result: R)
    | Throw(reason: string)
    | GetOp(key: string, onValue: Option<V> -> Program<V, R>)
    | PutOp(key: string, value: V, next: Program<V, R>)
    | ListOp(prefix: string, start: Option<string>, onListed: JsMap<string, V> -> Program<V, R>)

  predicate Ended<V, R>(p: Program<V, R>) { p.Finish? || p.Throw? }

  function OutcomeOf<V, R>(p: Program<V, R>): Outcome<R>
    requires Ended(p)
  {
    if p.Finish? then Fulfilled(p.result) else Rejected(p.reason)
  }

  /** One store operation: the store after it and what is left to do. An ended program stays ended. */
  ghost function Operation<V, R>(p: Program<V, R>, store: map<string, V>): (map<string, V>, Program<V, R>) {
    match p
    case Finish(_) => (store, p)
    case Throw(_) => (store, p)
    case GetOp(key, onValue) => (store, onValue(Read(store, key)))
    case PutOp(key, value, next) => (store[key := value], next)
    case ListOp(prefix, start, onListed) => (store, onListed(Listed(store, prefix, start)))
  }

  /** `n` operations of a program with nothing in between. */
  ghost function RunFor<V, R>(p: Program<V, R>, store: map<string, V>, n: nat): (map<string, V>, Program<V, R>) {
    if n == 0 then (store, p)
    else
      var (s, rest) := RunFor(p, store, n - 1);
      Operation(rest, s)
  }

  /** The program has ended after `n` operations, in this store and with this outcome. */
  ghost predicate EndsAt<V, R>(p: Program<V, R>, store: map<string, V>, n: nat, after: map<string, V>, outcome: Outcome<R>) {
    var (s, rest) := RunFor(p, store, n);
    s == after && rest == match outcome case Fulfilled(value) => Finish(value) case Rejected(reason) => Throw(reason)
  }

  /** Run alone, the program ends with this outcome and leaves this store. */
  ghost predicate Alone<V(!new), R>(p: Program<V, R>, store: map<string, V>, after: map<string, V>, outcome: Outcome<R>) {
    exists n: nat :: EndsAt(p, store, n, after, outcome)
  }

  lemma {:induction false} EndedStays<V, R>(p: Program<V, R>, store: map<string, V>, n: nat, m: nat)
    requires n <= m && Ended(RunFor(p, store, n).1)
    ensures RunFor(p, store, m) == RunFor(p, store, n)
  {
    if n < m {
      EndedStays(p, store, n, m - 1);
    }
  }

  /** There is one way to run alone. */
  lemma AloneUnique<V(!new), R>(p: Program<V, R>, store: map<string, V>, a: map<string, V>, x: Outcome<R>,
                                    b: map<string, V>, y: Outcome<R>)
    requires Alone(p, store, a, x) && Alone(p, store, b, y)
    ensures a == b && x == y
  {
    var n: nat :| EndsAt(p, store, n, a, x);
    var m: nat :| EndsAt(p, store, m, b, y);
    EndedStays(p, store, if n <= m then n else m, if n <= m then m else n);
  }

  lemma {:induction false} OperationFirst<V, R>(p: Program<V, R>, store: map<string, V>, n: nat)
    ensures RunFor(p, store, n + 1) == RunFor(Operation(p, store).1, Operation(p, store).0, n)
  {
    if n > 0 {
      OperationFirst(p, store, n - 1);
    } else {
      assert RunFor(p, store, 0) == (store, p);
    }
  }

  /** Doing one operation and then the rest is doing it all. */
  lemma AloneStep<V(!new), R>(p: Program<V, R>, store: map<string, V>, after: map<string, V>, outcome: Outcome<R>)
    requires Alone(Operation(p, store).1, Operation(p, store).0, after, outcome)
    ensures Alone(p, store, after, outcome)
  {
    var n: nat :| EndsAt(Operation(p, store).1, Operation(p, store).0, n, after, outcome);
    OperationFirst(p, store, n);
    assert EndsAt(p, store, n + 1, after, outcome);
  }

  lemma AloneEnded<V(!new), R>(p: Program<V, R>, store: map<string, V>)
    requires Ended(p)
    ensures Alone(p, store, store, OutcomeOf(p))
  {
    assert EndsAt(p, store, 0, store, OutcomeOf(p));
  }

  ghost function Listed<V>(store: map<string, V>, prefix: string, start: Option<string>): JsMap<string, V> {
    Entries(store, Listing(store, prefix, start))
  }

  datatype Phase<!V, +R> = Pending | Running(rest: Program<V, R>) | Settled(outcome: Outcome<R>)

  /**
   * One serialized task: its session id, the store of the session object it was made for, the tail it was chained
   * after and its program; and how often it was started and has operated.
   */
  datatype Job<!V, +R> = Job(id: string, place: nat, prev: Option<nat>, task: Program<V, R>, phase: Phase<V, R>, starts: nat, ops: nat)

  /** All stores ever made, the session object of each id, the tail of each id's chain, and all tasks in arrival order. */
  datatype World<!V, +R> = World(
    stores: seq<map<string, V>>,
    sessions: map<string, nat>,
    tails: map<string, nat>,
    jobs: seq<Job<V, R>>)

  datatype Event<!V, +R> =
    | Create(id: string, task: Program<V, R>)
    | Request(id: string, task: Program<V, R>)
    | Begin(job: nat)
    | Operate(job: nat)

  /** `tails.set` with `run.then(undefined, undefined)`: the new tail fulfils however the task settles. */
  function Enqueue<V, R>(w: World<V, R>, id: string, task: Program<V, R>): World<V, R>
    requires id in w.sessions
  {
    w.(jobs := w.jobs + [Job(id, w.sessions[id], Read(w.tails, id), task, Pending, 0, 0)], tails := w.tails[id := |w.jobs|])
  }

  /** `/sessions`: a new session object under the id, in place of an earlier one if the id is taken. */
  function Opened<V, R>(w: World<V, R>, id: string): World<V, R> {
    w.(stores := w.stores + [map[]], sessions := w.sessions[id := |w.stores|])
  }

  /** `prev.then(task, task)`: a task starts once the tail before it has settled, fulfilled or rejected. */
  predicate MayBegin<V, R>(w: World<V, R>, i: nat)
    requires i < |w.jobs|
  {
    var job := w.jobs[i];
    job.phase.Pending? && (job.prev.Some? ==> job.prev.value < |w.jobs| && w.jobs[job.prev.value].phase.Settled?)
  }

  predicate MayOperate<V, R>(w: World<V, R>, i: nat)
    requires i < |w.jobs|
  {
    w.jobs[i].phase.Running? && w.jobs[i].place < |w.stores|
  }

  /** Settle a finished task, or perform its next store operation. */
  ghost function OperateOn<V, R>(w: World<V, R>, i: nat): World<V, R>
    requires i < |w.jobs| && MayOperate(w, i)
  {
    var job := w.jobs[i];
    if Ended(job.phase.rest) then w.(jobs := w.jobs[i := job.(phase := Settled(OutcomeOf(job.phase.rest)))])
    else
      var (store, rest) := Operation(job.phase.rest, w.stores[job.place]);
      w.(stores := w.stores[job.place := store], jobs := w.jobs[i := job.(phase := Running(rest), ops := job.ops + 1)])
  }

  /** A step that is not enabled leaves the world alone; a request for an unknown session is answered without a task. */
  ghost function Step<V, R>(w: World<V, R>, e: Event<V, R>): World<V, R> {
    match e
    case Create(id, task) => Enqueue(Opened(w, id), id, task)
    case Request(id, task) =>
      if id in w.sessions then Enqueue(w, id, task) else w
    case Begin(i) =>
      if i < |w.jobs| && MayBegin(w, i)
      then w.(jobs := w.jobs[i := w.jobs[i].(phase := Running(w.jobs[i].task), starts := w.jobs[i].starts + 1)])
      else w
    case Operate(i) =>
      if i < |w.jobs| && MayOperate(w, i) then OperateOn(w, i) else w
  }

  ghost function Run<V, R>(events: seq<Event<V, R>>): World<V, R> {
    if events == [] then World([], map[], map[], []) else Step(Run(events[..|events| - 1]), events[|events| - 1])
  }

  // ---- The sequential reference ----

  /** Store `at` after running its first tasks, among the first `n` of all, one after the other. */
  ghost function Sequential<V, R>(jobs: seq<Job<V, R>>, n: nat, at: nat): map<string, V>
    requires n <= |jobs|
  {
    if n == 0 then map[]
    else if jobs[n - 1].place == at then RunFor(jobs[n - 1].task, Sequential(jobs, n - 1, at), jobs[n - 1].ops).0
    else Sequential(jobs, n - 1, at)
  }

  lemma {:induction false} SequentialSame<V, R>(a: seq<Job<V, R>>, b: seq<Job<V, R>>, n: nat, at: nat)
    requires n <= |a| && n <= |b|
    requires forall i :: 0 <= i < n ==> a[i].place == b[i].place
    requires forall i :: 0 <= i < n && a[i].place == at ==> a[i].task == b[i].task && a[i].ops == b[i].ops
    ensures Sequential(a, n, at) == Sequential(b, n, at)
  {
    if n > 0 {
      SequentialSame(a, b, n - 1, at);
    }
  }

  lemma {:induction false} SequentialSkips<V, R>(jobs: seq<Job<V, R>>, m: nat, n: nat, at: nat)
    requires m <= n <= |jobs| && forall i :: m <= i < n ==> jobs[i].place != at
    ensures Sequential(jobs, n, at) == Sequential(jobs, m, at)
  {
    if m < n {
      SequentialSkips(jobs, m, n - 1, at);
    }
  }

  /** The last task of `id` among the first `n`. */
  function Last<V, R>(jobs: seq<Job<V, R>>, n: nat, id: string): Option<nat>
    requires n <= |jobs|
  {
    if n == 0 then None
    else if jobs[n - 1].id == id then Some(n - 1)
    else Last(jobs, n - 1, id)
  }

  lemma {:induction false} LastIsLast<V, R>(jobs: seq<Job<V, R>>, n: nat, id: string)
    requires n <= |jobs|
    ensures
      match Last(jobs, n, id)
      case None => forall i :: 0 <= i < n ==> jobs[i].id != id
      case Some(last) => last < n && jobs[last].id == id && forall i :: last < i < n ==> jobs[i].id != id
  {
    if n > 0 && jobs[n - 1].id != id {
      LastIsLast(jobs, n - 1, id);
    }
  }

  lemma {:induction false} LastSame<V, R>(a: seq<Job<V, R>>, b: seq<Job<V, R>>, n: nat, id: string)
    requires n <= |a| && n <= |b| && forall i :: 0 <= i < n ==> a[i].id == b[i].id
    ensures Last(a, n, id) == Last(b, n, id)
  {
    if n > 0 {
      LastSame(a, b, n - 1, id);
    }
  }

  // ---- The invariant ----

  ghost predicate Chained<V, R>(w: World<V, R>) {
    && (forall i :: 0 <= i < |w.jobs| ==> w.jobs[i].prev == Last(w.jobs, i, w.jobs[i].id))
    && (forall id: string :: Read(w.tails, id) == Last(w.jobs, |w.jobs|, id))
  }

  /** Every session object and its tasks belong to one id. */
  ghost predicate Owned<V, R>(w: World<V, R>) {
    && (forall id <- w.sessions :: w.sessions[id] < |w.stores|)
    && (forall id <- w.sessions, other <- w.sessions :: w.sessions[id] == w.sessions[other] ==> id == other)
    && (forall i, id :: 0 <= i < |w.jobs| && id in w.sessions && w.sessions[id] == w.jobs[i].place ==> w.jobs[i].id == id)
    && (forall i, j :: 0 <= i < j < |w.jobs| && w.jobs[i].place == w.jobs[j].place ==> w.jobs[i].id == w.jobs[j].id)
  }

  /** First in, first out: while a task is unsettled, everything behind it under its id waits. */
  ghost predicate InTurn<V, R>(w: World<V, R>) {
    forall i, j :: 0 <= i < j < |w.jobs| && w.jobs[i].id == w.jobs[j].id && !w.jobs[i].phase.Settled? ==> w.jobs[j].phase.Pending?
  }

  /** What a task has done so far, or how it ended, is what it does when run alone after all its predecessors. */
  ghost predicate JobOk<V, R>(w: World<V, R>, i: nat)
    requires i < |w.jobs|
  {
    var job := w.jobs[i];
    && job.starts == (if job.phase.Pending? then 0 else 1)
    && (job.phase.Pending? ==> job.ops == 0)
    && job.place < |w.stores|
    && var alone := RunFor(job.task, Sequential(w.jobs, i, job.place), job.ops);
    && (job.phase.Settled? ==> Ended(alone.1) && OutcomeOf(alone.1) == job.phase.outcome)
    && (job.phase.Running? ==> alone == (w.stores[job.place], job.phase.rest))
  }

  /** `n` separates the settled tasks on store `at` from the untouched ones. */
  ghost predicate Quiet<V, R>(jobs: seq<Job<V, R>>, n: nat, at: nat) {
    && n <= |jobs|
    && (forall i :: 0 <= i < n && jobs[i].place == at ==> jobs[i].phase.Settled?)
    && (forall i :: n <= i < |jobs| && jobs[i].place == at ==> jobs[i].phase.Pending?)
  }

  ghost predicate StoreOk<V, R>(w: World<V, R>, at: nat)
    requires at < |w.stores|
  {
    forall n: nat :: Quiet(w.jobs, n, at) ==> w.stores[at] == Sequential(w.jobs, n, at)
  }

  ghost predicate Inv<V, R>(w: World<V, R>) {
    && Chained(w) && Owned(w) && InTurn(w)
    && (forall i: nat :: i < |w.jobs| ==> JobOk(w, i))
    && (forall at: nat :: at < |w.stores| ==> StoreOk(w, at))
  }

  lemma EnqueuedInTurn<V, R>(w: World<V, R>, id: string, task: Program<V, R>)
    requires InTurn(w) && id in w.sessions
    ensures InTurn(Enqueue(w, id, task))
  {
  }

  lemma EnqueuedTail<V, R>(w: World<V, R>, id: string, task: Program<V, R>, other: string)
    requires Chained(w) && id in w.sessions
    ensures var v := Enqueue(w, id, task); Read(v.tails, other) == Last(v.jobs, |v.jobs|, other)
  {
    var v := Enqueue(w, id, task);
    LastSame(v.jobs, w.jobs, |w.jobs|, other);
    assert Read(w.tails, other) == Last(w.jobs, |w.jobs|, other);
    hide Chained;
  }

  lemma EnqueuedPrev<V, R>(w: World<V, R>, id: string, task: Program<V, R>, i: nat)
    requires Chained(w) && id in w.sessions && i <= |w.jobs|
    ensures var v := Enqueue(w, id, task); v.jobs[i].prev == Last(v.jobs, i, v.jobs[i].id)
  {
    var v := Enqueue(w, id, task);
    LastSame(v.jobs, w.jobs, i, v.jobs[i].id);
    assert Read(w.tails, id) == Last(w.jobs, |w.jobs|, id);
    assert i < |w.jobs| ==> w.jobs[i].prev == Last(w.jobs, i, w.jobs[i].id);
    hide Chained, Last;
  }

  lemma EnqueuedChain<V, R>(w: World<V, R>, id: string, task: Program<V, R>)
    requires Chained(w) && id in w.sessions
    ensures Chained(Enqueue(w, id, task))
  {
    var v := Enqueue(w, id, task);
    forall i | 0 <= i < |v.jobs| ensures v.jobs[i].prev == Last(v.jobs, i, v.jobs[i].id) {
      EnqueuedPrev(w, id, task, i);
    }
    forall other: string ensures Read(v.tails, other) == Last(v.jobs, |v.jobs|, other) {
      EnqueuedTail(w, id, task, other);
    }
    hide Last, Enqueue;
  }

  lemma EnqueuedOwned<V, R>(w: World<V, R>, id: string, task: Program<V, R>)
    requires Owned(w) && id in w.sessions
    ensures Owned(Enqueue(w, id, task))
  {
  }

  lemma EnqueuedJob<V, R>(w: World<V, R>, id: string, task: Program<V, R>, i: nat)
    requires id in w.sessions && w.sessions[id] < |w.stores| && i <= |w.jobs|
    requires i < |w.jobs| ==> JobOk(w, i)
    ensures JobOk(Enqueue(w, id, task), i)
  {
    hide Sequential, RunFor;
    var v := Enqueue(w, id, task);
    SequentialSame(v.jobs, w.jobs, i, v.jobs[i].place);
  }

  lemma EnqueuedStore<V, R>(w: World<V, R>, v: World<V, R>, n: nat, at: nat)
    requires |v.jobs| == |w.jobs| + 1 && v.jobs[..|w.jobs|] == w.jobs && v.jobs[|w.jobs|].phase.Pending?
    requires at < |w.stores| && v.stores == w.stores && StoreOk(w, at)
    requires Quiet(v.jobs, n, at)
    ensures v.stores[at] == Sequential(v.jobs, n, at)
  {
    var m: nat := if n <= |w.jobs| then n else |w.jobs|;
    assert forall i :: 0 <= i < |w.jobs| ==> v.jobs[i] == w.jobs[i];
    assert Quiet(w.jobs, m, at);
    SequentialSame(v.jobs, w.jobs, m, at);
    SequentialSkips(v.jobs, m, n, at);
  }

  lemma EnqueueKeepsInv<V, R>(w: World<V, R>, id: string, task: Program<V, R>)
    requires Inv(w) && id in w.sessions
    ensures Inv(Enqueue(w, id, task))
  {
    var v := Enqueue(w, id, task);
    EnqueuedChain(w, id, task);
    EnqueuedInTurn(w, id, task);
    EnqueuedOwned(w, id, task);
    assert w.sessions[id] < |w.stores|;
    hide Chained, InTurn, JobOk, Quiet, Owned;
    forall i: nat | i < |v.jobs| ensures JobOk(v, i) {
      EnqueuedJob(w, id, task, i);
    }
    forall at: nat, n: nat | at < |v.stores| && Quiet(v.jobs, n, at)
      ensures v.stores[at] == Sequential(v.jobs, n, at)
    {
      EnqueuedStore(w, v, n, at);
    }
  }

  lemma SettledBefore<V, R>(w: World<V, R>, i: nat, j: nat)
    requires Chained(w) && InTurn(w) && i < |w.jobs| && MayBegin(w, i) && j < i && w.jobs[j].id == w.jobs[i].id
    ensures w.jobs[j].phase.Settled?
  {
    var prev := w.jobs[i].prev;
    assert prev == Last(w.jobs, i, w.jobs[i].id);
    LastIsLast(w.jobs, i, w.jobs[i].id);
    hide Last, Chained;
    assert prev.Some? && j <= prev.value;
    assert w.jobs[prev.value].phase.Settled? && w.jobs[prev.value].id == w.jobs[j].id;
  }

  lemma PendingBehind<V, R>(w: World<V, R>, i: nat, j: nat)
    requires InTurn(w) && Owned(w) && i < |w.jobs| && w.jobs[i].phase.Pending?
    requires i <= j < |w.jobs| && w.jobs[j].place == w.jobs[i].place
    ensures w.jobs[j].phase.Pending?
  {
  }

  lemma SettledAhead<V, R>(w: World<V, R>, i: nat, j: nat)
    requires Chained(w) && InTurn(w) && Owned(w) && i < |w.jobs| && MayBegin(w, i)
    requires j < i && w.jobs[j].place == w.jobs[i].place
    ensures w.jobs[j].phase.Settled?
  {
    assert w.jobs[j].id == w.jobs[i].id;
    hide Chained, InTurn, Owned, MayBegin;
    SettledBefore(w, i, j);
  }

  /** When a task may begin, everything before it on its store has settled and nothing behind it has started. */
  lemma ReadyMeansQuiet<V, R>(w: World<V, R>, i: nat)
    requires Chained(w) && InTurn(w) && Owned(w) && i < |w.jobs| && MayBegin(w, i)
    ensures Quiet(w.jobs, i, w.jobs[i].place)
  {
    assert w.jobs[i].phase.Pending?;
    hide Chained, InTurn, Owned, MayBegin;
    forall j | 0 <= j < i && w.jobs[j].place == w.jobs[i].place ensures w.jobs[j].phase.Settled? {
      SettledAhead(w, i, j);
    }
    forall j | i <= j < |w.jobs| && w.jobs[j].place == w.jobs[i].place ensures w.jobs[j].phase.Pending? {
      PendingBehind(w, i, j);
    }
  }

  lemma ReadyMeansFirst<V, R>(w: World<V, R>, i: nat)
    requires Chained(w) && InTurn(w) && i < |w.jobs| && MayBegin(w, i)
    ensures forall j :: 0 <= j < i && w.jobs[j].id == w.jobs[i].id ==> w.jobs[j].phase.Settled?
  {
    hide Chained, InTurn, MayBegin;
    forall j | 0 <= j < i && w.jobs[j].id == w.jobs[i].id ensures w.jobs[j].phase.Settled? {
      SettledBefore(w, i, j);
    }
  }

  lemma RephasedChain<V, R>(w: World<V, R>, v: World<V, R>, i: nat)
    requires Chained(w) && |v.jobs| == |w.jobs| && v.tails == w.tails && i < |w.jobs|
    requires forall k :: 0 <= k < |w.jobs| ==> v.jobs[k].id == w.jobs[k].id && v.jobs[k].prev == w.jobs[k].prev
    ensures Chained(v)
  {
    forall k | 0 <= k < |v.jobs| ensures v.jobs[k].prev == Last(v.jobs, k, v.jobs[k].id) {
      LastSame(v.jobs, w.jobs, k, v.jobs[k].id);
    }
    forall id: string ensures Read(v.tails, id) == Last(v.jobs, |v.jobs|, id) {
      LastSame(v.jobs, w.jobs, |w.jobs|, id);
    }
  }

  /** `v` is `w` after task `i` moved: other tasks and other stores are as they were. */
  ghost predicate Moved<V, R>(w: World<V, R>, v: World<V, R>, i: nat) {
    && i < |w.jobs| == |v.jobs| && v.tails == w.tails && v.sessions == w.sessions && |v.stores| == |w.stores|
    && (forall k :: 0 <= k < |w.jobs| && k != i ==> v.jobs[k] == w.jobs[k])
    && v.jobs[i].id == w.jobs[i].id && v.jobs[i].place == w.jobs[i].place
    && v.jobs[i].task == w.jobs[i].task && v.jobs[i].prev == w.jobs[i].prev
    && !w.jobs[i].phase.Settled? && !v.jobs[i].phase.Pending?
    && (forall at :: 0 <= at < |w.stores| && at != w.jobs[i].place ==> v.stores[at] == w.stores[at])
  }

  /** A task that had not started is the first unsettled one under its id. */
  ghost predicate First<V, R>(w: World<V, R>, i: nat)
    requires i < |w.jobs|
  {
    w.jobs[i].phase.Pending? ==> forall j :: 0 <= j < i && w.jobs[j].id == w.jobs[i].id ==> w.jobs[j].phase.Settled?
  }

  lemma MovedInTurn<V, R>(w: World<V, R>, v: World<V, R>, i: nat)
    requires InTurn(w) && Moved(w, v, i) && First(w, i)
    ensures InTurn(v)
  {
    forall k, j | 0 <= k < j < |v.jobs| && v.jobs[k].id == v.jobs[j].id && !v.jobs[k].phase.Settled?
      ensures v.jobs[j].phase.Pending?
    {
      assert w.jobs[k].id == w.jobs[j].id;
      assert !w.jobs[k].phase.Settled?;
    }
  }

  lemma MovedOwned<V, R>(w: World<V, R>, v: World<V, R>, i: nat)
    requires Owned(w) && Moved(w, v, i)
    ensures Owned(v)
  {
    assert forall k :: 0 <= k < |w.jobs| ==> v.jobs[k].id == w.jobs[k].id && v.jobs[k].place == w.jobs[k].place;
  }

  /** Tasks other than the one that moved are still where they were: behind it nothing has started. */
  lemma MovedOthers<V, R>(w: World<V, R>, v: World<V, R>, i: nat, k: nat)
    requires InTurn(w) && Owned(w) && Moved(w, v, i) && First(w, i)
    requires k < |w.jobs| && k != i && JobOk(w, k)
    ensures JobOk(v, k)
  {
    var at := w.jobs[k].place;
    assert at == w.jobs[i].place ==> w.jobs[k].id == w.jobs[i].id;
    hide Owned;
    if at == w.jobs[i].place && i < k {
      assert w.jobs[k].phase.Pending?;
    } else {
      SequentialSame(v.jobs, w.jobs, k, at);
      assert at == w.jobs[i].place ==> w.jobs[k].phase.Settled?;
    }
  }

  lemma MovedStores<V, R>(w: World<V, R>, v: World<V, R>, i: nat, at: nat)
    requires Moved(w, v, i) && at < |w.stores| && at != w.jobs[i].place && StoreOk(w, at)
    ensures StoreOk(v, at)
  {
    forall n: nat | Quiet(v.jobs, n, at) ensures v.stores[at] == Sequential(v.jobs, n, at) {
      assert Quiet(w.jobs, n, at);
      SequentialSame(v.jobs, w.jobs, n, at);
    }
  }

  lemma MovedInv<V, R>(w: World<V, R>, v: World<V, R>, i: nat)
    requires Inv(w) && Moved(w, v, i) && First(w, i)
    requires JobOk(v, i) && w.jobs[i].place < |w.stores| && StoreOk(v, w.jobs[i].place)
    ensures Inv(v)
  {
    hide Chained, InTurn, Owned, JobOk, StoreOk, First;
    RephasedChain(w, v, i);
    MovedInTurn(w, v, i);
    MovedOwned(w, v, i);
    forall k: nat | k < |v.jobs| ensures JobOk(v, k) {
      if k != i {
        MovedOthers(w, v, i, k);
      }
    }
    forall at: nat | at < |v.stores| ensures StoreOk(v, at) {
      if at != w.jobs[i].place {
        MovedStores(w, v, i, at);
      }
    }
  }

  lemma BeginKeepsInv<V, R>(w: World<V, R>, i: nat)
    requires Inv(w) && i < |w.jobs| && MayBegin(w, i)
    ensures Inv(Step(w, Begin(i)))
  {
    hide Chained, InTurn, Owned;
    var v := Step(w, Begin(i));
    ReadyMeansQuiet(w, i);
    ReadyMeansFirst(w, i);
    assert JobOk(w, i) && StoreOk(w, w.jobs[i].place);
    SequentialSame(v.jobs, w.jobs, i, w.jobs[i].place);
    assert JobOk(v, i);
    assert StoreOk(v, w.jobs[i].place);
    MovedInv(w, v, i);
  }

  lemma OperatedJob<V, R>(w: World<V, R>, i: nat)
    requires i < |w.jobs| && MayOperate(w, i) && JobOk(w, i)
    ensures JobOk(OperateOn(w, i), i)
  {
    hide Sequential;
    var v, job := OperateOn(w, i), w.jobs[i];
    SequentialSame(v.jobs, w.jobs, i, job.place);
    assert RunFor(job.task, Sequential(w.jobs, i, job.place), job.ops) == (w.stores[job.place], job.phase.rest);
  }

  /** Once a task settled, its session holds the store the task leaves when run alone in its turn. */
  lemma OperatedStore<V, R>(w: World<V, R>, i: nat, n: nat)
    requires InTurn(w) && Owned(w) && i < |w.jobs| && MayOperate(w, i) && JobOk(w, i)
    requires Quiet(OperateOn(w, i).jobs, n, w.jobs[i].place)
    ensures OperateOn(w, i).stores[w.jobs[i].place] == Sequential(OperateOn(w, i).jobs, n, w.jobs[i].place)
  {
    var v, job := OperateOn(w, i), w.jobs[i];
    assert v.jobs[i].place == job.place && !v.jobs[i].phase.Pending?;
    assert i < n && v.jobs[i].phase.Settled?;
    SequentialSame(v.jobs, w.jobs, i, job.place);
    assert Sequential(v.jobs, i + 1, job.place) == w.stores[job.place];
    OnlyTaskBefore(w, v, i, n);
    SequentialSkips(v.jobs, i + 1, n, job.place);
  }
  lemma OnlyTaskBefore<V, R>(w: World<V, R>, v: World<V, R>, i: nat, n: nat)
    requires InTurn(w) && Owned(w) && i < |w.jobs| == |v.jobs| && !w.jobs[i].phase.Settled?
    requires forall k :: 0 <= k < |w.jobs| && k != i ==> v.jobs[k] == w.jobs[k]
    requires Quiet(v.jobs, n, w.jobs[i].place)
    ensures forall k :: i < k < n ==> v.jobs[k].place != w.jobs[i].place
  {
    forall k | i < k < n ensures v.jobs[k].place != w.jobs[i].place {
      var moved, later := w.jobs[i], w.jobs[k];
      assert moved.place == later.place ==> moved.id == later.id;
      assert moved.id == later.id ==> later.phase.Pending?;
    }
  }

  lemma OperateKeepsInv<V, R>(w: World<V, R>, i: nat)
    requires Inv(w) && i < |w.jobs| && MayOperate(w, i)
    ensures Inv(OperateOn(w, i))
  {
    var v := OperateOn(w, i);
    assert JobOk(w, i);
    OperatedJob(w, i);
    forall n: nat | Quiet(v.jobs, n, w.jobs[i].place)
      ensures v.stores[w.jobs[i].place] == Sequential(v.jobs, n, w.jobs[i].place)
    {
      OperatedStore(w, i, n);
    }
    assert StoreOk(v, w.jobs[i].place);
    hide Chained, InTurn, Owned, JobOk, StoreOk, Quiet;
    MovedInv(w, v, i);
  }

  lemma OpenedStore<V, R>(w: World<V, R>, id: string, at: nat)
    requires Inv(w) && at <= |w.stores|
    ensures StoreOk(Opened(w, id), at)
  {
    if at == |w.stores| {
      assert forall i: nat :: i < |w.jobs| ==> JobOk(w, i) && w.jobs[i].place != at;
      forall n: nat | n <= |w.jobs| ensures Sequential(w.jobs, n, at) == map[] {
        SequentialSkips(w.jobs, 0, n, at);
      }
    } else {
      assert StoreOk(w, at);
    }
  }

  lemma OpenedOwned<V, R>(w: World<V, R>, id: string)
    requires Owned(w) && forall i :: 0 <= i < |w.jobs| ==> w.jobs[i].place < |w.stores|
    ensures Owned(Opened(w, id))
  {
  }

  lemma PlacesExist<V, R>(w: World<V, R>)
    requires Inv(w)
    ensures forall i :: 0 <= i < |w.jobs| ==> w.jobs[i].place < |w.stores|
  {
    forall i | 0 <= i < |w.jobs| ensures w.jobs[i].place < |w.stores| {
      assert JobOk(w, i);
    }
  }

  lemma OpenedInv<V, R>(w: World<V, R>, id: string)
    requires Inv(w)
    ensures Inv(Opened(w, id))
  {
    var v := Opened(w, id);
    PlacesExist(w);
    OpenedOwned(w, id);
    assert Chained(v) && InTurn(v);
    hide Chained, InTurn, Owned;
    forall at: nat | at < |v.stores| ensures StoreOk(v, at) {
      OpenedStore(w, id, at);
    }
    hide StoreOk, Sequential, RunFor;
    forall i: nat | i < |v.jobs| ensures JobOk(v, i) {
      assert JobOk(w, i);
    }
  }

  lemma StepKeepsInv<V, R>(w: World<V, R>, e: Event<V, R>)
    requires Inv(w)
    ensures Inv(Step(w, e))
  {
    hide Inv, Enqueue, OperateOn, MayBegin, MayOperate;
    match e
    case Create(id, task) => OpenedInv(w, id); EnqueueKeepsInv(Opened(w, id), id, task);
    case Request(id, task) => if id in w.sessions { EnqueueKeepsInv(w, id, task); }
    case Begin(i) => if i < |w.jobs| && MayBegin(w, i) { BeginKeepsInv(w, i); }
    case Operate(i) => if i < |w.jobs| && MayOperate(w, i) { OperateKeepsInv(w, i); }
  }

  lemma {:induction false} EveryRunKeepsInv<V, R>(events: seq<Event<V, R>>)
    ensures Inv(Run(events))
  {
    if events != [] {
      EveryRunKeepsInv(events[..|events| - 1]);
      hide Inv, Step;
      StepKeepsInv(Run(events[..|events| - 1]), events[|events| - 1]);
    }
  }

  // ---- What callers see ----

  ghost predicate AllSettled<V, R>(w: World<V, R>, at: nat) {
    forall i :: 0 <= i < |w.jobs| && w.jobs[i].place == at ==> w.jobs[i].phase.Settled?
  }

  lemma SettledAlone<V(!new), R>(w: World<V, R>, i: nat)
    requires i < |w.jobs| && JobOk(w, i) && w.jobs[i].phase.Settled?
    ensures
      var job := w.jobs[i];
      Alone(job.task, Sequential(w.jobs, i, job.place), Sequential(w.jobs, i + 1, job.place), job.phase.outcome)
  {
    var job := w.jobs[i];
    assert EndsAt(job.task, Sequential(w.jobs, i, job.place), job.ops, Sequential(w.jobs, i + 1, job.place), job.phase.outcome);
  }

  /**
   * Any interleaving equals running each session's tasks one by one in arrival order: `Sequential` starts empty, each
   * settled task run alone takes it from one store to the next with the very outcome its caller got, and a session
   * with nothing left to do holds the last of these stores.
   */
  lemma Linearizable<V(!new), R>(events: seq<Event<V, R>>, at: nat)
    requires at < |Run(events).stores|
    ensures
      var w := Run(events);
      && Sequential(w.jobs, 0, at) == map[]
      && (forall i :: 0 <= i < |w.jobs| && w.jobs[i].place == at && w.jobs[i].phase.Settled? ==>
            Alone(w.jobs[i].task, Sequential(w.jobs, i, at), Sequential(w.jobs, i + 1, at), w.jobs[i].phase.outcome))
      && (forall i :: 0 <= i < |w.jobs| && w.jobs[i].place != at ==> Sequential(w.jobs, i + 1, at) == Sequential(w.jobs, i, at))
      && (AllSettled(w, at) ==> w.stores[at] == Sequential(w.jobs, |w.jobs|, at))
  {
    hide Chained, InTurn, Owned;
    EveryRunKeepsInv(events);
    var w := Run(events);
    assert StoreOk(w, at);
    if AllSettled(w, at) {
      assert Quiet(w.jobs, |w.jobs|, at);
    }
    forall i | 0 <= i < |w.jobs| && w.jobs[i].place == at && w.jobs[i].phase.Settled?
      ensures Alone(w.jobs[i].task, Sequential(w.jobs, i, at), Sequential(w.jobs, i + 1, at), w.jobs[i].phase.outcome)
    {
      assert JobOk(w, i);
      hide JobOk, Alone, Inv, StoreOk;
      SettledAlone(w, i);
    }
  }

  /** Each task is started exactly once by the time it settles, and never before its predecessors settled. */
  lemma StartedOnceInTurn<V, R>(events: seq<Event<V, R>>, i: nat, j: nat)
    requires i < j < |Run(events).jobs| && Run(events).jobs[i].id == Run(events).jobs[j].id
    ensures
      var jobs := Run(events).jobs;
      && jobs[i].starts == (if jobs[i].phase.Pending? then 0 else 1)
      && (jobs[j].starts > 0 ==> jobs[i].phase.Settled?)
  {
    hide Chained, Owned, Run;
    EveryRunKeepsInv(events);
    assert JobOk(Run(events), i) && JobOk(Run(events), j);
  }

  lemma SamePlaceSameId<V, R>(events: seq<Event<V, R>>, i: nat, j: nat)
    requires i < j < |Run(events).jobs| && Run(events).jobs[i].place == Run(events).jobs[j].place
    ensures Run(events).jobs[i].id == Run(events).jobs[j].id
  {
    hide Chained, InTurn, Run;
    EveryRunKeepsInv(events);
  }

  lemma LastBefore<V, R>(jobs: seq<Job<V, R>>, i: nat, j: nat)
    requires i < j <= |jobs| && forall k :: i < k < j ==> jobs[k].id != jobs[i].id
    ensures Last(jobs, j, jobs[i].id) == Some(i)
  {
    hide Last;
    LastIsLast(jobs, j, jobs[i].id);
  }

  /** The next task may begin as soon as its predecessor has settled, even if that one was rejected. */
  lemma NextMayBegin<V, R>(events: seq<Event<V, R>>, i: nat, j: nat)
    requires i < j < |Run(events).jobs|
    requires
      var jobs := Run(events).jobs;
      && jobs[i].id == jobs[j].id && (forall k :: i < k < j ==> jobs[k].id != jobs[i].id)
      && jobs[i].phase.Settled? && jobs[j].phase.Pending?
    ensures MayBegin(Run(events), j)
  {
    EveryRunKeepsInv(events);
    var w := Run(events);
    assert w.jobs[j].prev == Last(w.jobs, j, w.jobs[j].id) by { hide Run, InTurn, Owned, JobOk, StoreOk; }
    hide Inv, Run;
    LastBefore(w.jobs, i, j);
    hide Last;
  }

  lemma FirstUnsettled<V, R>(w: World<V, R>, i: nat) returns (j: nat)
    requires i < |w.jobs| && !w.jobs[i].phase.Settled?
    ensures j <= i && w.jobs[j].id == w.jobs[i].id && !w.jobs[j].phase.Settled?
    ensures forall k :: 0 <= k < j && w.jobs[k].id == w.jobs[i].id ==> w.jobs[k].phase.Settled?
  {
    j := i;
    while exists k :: 0 <= k < j && w.jobs[k].id == w.jobs[i].id && !w.jobs[k].phase.Settled?
      invariant j <= i && w.jobs[j].id == w.jobs[i].id && !w.jobs[j].phase.Settled?
      decreases j
    {
      var k :| 0 <= k < j && w.jobs[k].id == w.jobs[i].id && !w.jobs[k].phase.Settled?;
      j := k;
    }
  }

  /** No task is stranded: as long as one of a session's tasks is unsettled, one of them can take a step. */
  lemma NeverStuck<V, R>(events: seq<Event<V, R>>, i: nat) returns (j: nat)
    requires i < |Run(events).jobs| && !Run(events).jobs[i].phase.Settled?
    ensures j <= i && Run(events).jobs[j].id == Run(events).jobs[i].id
    ensures MayBegin(Run(events), j) || MayOperate(Run(events), j)
  {
    EveryRunKeepsInv(events);
    var w := Run(events);
    j := FirstUnsettled(w, i);
    assert JobOk(w, j) && w.jobs[j].prev == Last(w.jobs, j, w.jobs[j].id);
    LastIsLast(w.jobs, j, w.jobs[j].id);
    hide Inv, Chained, Last;
  }

  /** Steps of one session's tasks leave another session's store alone. */
  lemma SessionsIndependent<V, R>(w: World<V, R>, e: Event<V, R>, at: nat)
    requires at < |w.stores|
    requires e.Operate? && e.job < |w.jobs| ==> w.jobs[e.job].place != at
    ensures at < |Step(w, e).stores| && Step(w, e).stores[at] == w.stores[at]
  {
  }

  /** The relay's own state: session objects by id, chain tails, and the tasks it has chained. */
  class Chains<V, R> {
    var stores: seq<map<string, V>>
    var sessions: map<string, nat>
    var tails: map<string, nat>
    var jobs: seq<Job<V, R>>

    function State(): World<V, R>
      reads this
    {
      World(stores, sessions, tails, jobs)
    }

    constructor ()
      ensures State() == World([], map[], map[], [])
    {
      stores, sessions, tails, jobs := [], map[], map[], [];
    }

    /** Chain a task after the session's current tail and make it the new tail. */
    method Serialize(id: string, task: Program<V, R>)
      requires id in sessions
      modifies this`tails, this`jobs
      ensures State() == Enqueue(old(State()), id, task)
    {
      var prev := if id in tails then Some(tails[id]) else None;
      var run := |jobs|;
      jobs := jobs + [Job(id, sessions[id], prev, task, Pending, 0, 0)];
      tails := tails[id := run];
    }

    /** A creation makes a session object, sets it under the id and chains the initialisation. */
    method HandleCreate(id: string, task: Program<V, R>)
      modifies this
      ensures State() == Step(old(State()), Create(id, task))
    {
      var session := |stores|;
      stores := stores + [map[]];
      sessions := sessions[id := session];
      Serialize(id, task);
    }

    /** A request for an unknown session is refused without being chained. */
    method HandleRequest(id: string, task: Program<V, R>) returns (found: bool)
      modifies this
      ensures found <==> id in old(sessions)
      ensures State() == Step(old(State()), Request(id, task))
    {
      if id !in sessions {
        return false;
      }
      Serialize(id, task);
      found := true;
    }
  }
}
