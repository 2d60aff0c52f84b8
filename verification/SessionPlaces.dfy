/** Which store each request of a run works on: that of the latest creation under its session id. */
module SessionPlaces {
  import opened Prelude
  import opened NodeRelay
  import opened Store

  /** How many sessions have been created. */
  function Creations<V, R>(events: seq<Event<V, R>>): nat {
    if events == [] then 0
    else Creations(events[..|events| - 1]) + if events[|events| - 1].Create? then 1 else 0
  }

  /** The latest creation under this id. */
  function LatestCreation<V, R>(events: seq<Event<V, R>>, id: string): (n: Option<nat>)
    ensures n.Some? ==> n.value < |events| && events[n.value].Create? && events[n.value].id == id
    ensures n.None? ==> forall m :: 0 <= m < |events| && events[m].Create? ==> events[m].id != id
    ensures n.Some? ==> forall m :: n.value < m < |events| && events[m].Create? ==> events[m].id != id
  {
    if events == [] then None
    else
      var n := |events| - 1;
      if events[n].Create? && events[n].id == id then Some(n) else LatestCreation(events[..n], id)
  }

  /** The store a request under this id meets: creations number their stores. */
  function PlaceOf<V, R>(events: seq<Event<V, R>>, id: string): Option<nat> {
    match LatestCreation(events, id)
    case None => None
    case Some(n) => Some(Creations(events[..n]))
  }

  /** What arrived and was taken in: under which id, for which store, and what to do. */
  datatype Taken<!V, +R> = Taken(id: string, place: nat, task: Program<V, R>)

  function Arrived<V, R>(events: seq<Event<V, R>>): seq<Taken<V, R>> {
    if events == [] then []
    else
      var before, e := events[..|events| - 1], events[|events| - 1];
      match e
      case Create(id, task) => Arrived(before) + [Taken(id, Creations(before), task)]
      case Request(id, task) =>
        var place := PlaceOf(before, id);
        if place.Some? then Arrived(before) + [Taken(id, place.value, task)] else Arrived(before)
      case _ => Arrived(before)
  }

  ghost predicate Carries<V, R>(jobs: seq<Job<V, R>>, arrived: seq<Taken<V, R>>) {
    |jobs| == |arrived| && forall i :: 0 <= i < |jobs| ==> Taken(jobs[i].id, jobs[i].place, jobs[i].task) == arrived[i]
  }

  ghost predicate Placed<V, R>(events: seq<Event<V, R>>) {
    var w := Run(events);
    && |w.stores| == Creations(events)
    && (forall id: string :: Read(w.sessions, id) == PlaceOf(events, id))
    && Carries(w.jobs, Arrived(events))
  }

  /** What one event does to the jobs, the sessions and the number of stores. */
  lemma StepTakes<V, R>(w: World<V, R>, e: Event<V, R>)
    ensures |Step(w, e).stores| == |w.stores| + if e.Create? then 1 else 0
    ensures Step(w, e).sessions == if e.Create? then w.sessions[e.id := |w.stores|] else w.sessions
    ensures
      var v := Step(w, e);
      var more := if e.Create? then [Taken(e.id, |w.stores|, e.task)]
                  else if e.Request? && e.id in w.sessions then [Taken(e.id, w.sessions[e.id], e.task)] else [];
      && |v.jobs| == |w.jobs| + |more|
      && (forall i :: 0 <= i < |w.jobs| ==> v.jobs[i].id == w.jobs[i].id && v.jobs[i].place == w.jobs[i].place && v.jobs[i].task == w.jobs[i].task)
      && (more != [] ==> Taken(v.jobs[|w.jobs|].id, v.jobs[|w.jobs|].place, v.jobs[|w.jobs|].task) == more[0])
  {
    hide Operation;
  }

  lemma PlacesNext<V, R>(events: seq<Event<V, R>>, e: Event<V, R>, id: string)
    ensures PlaceOf(events + [e], id) ==
            if e.Create? && e.id == id then Some(Creations(events)) else PlaceOf(events, id)
  {
    var all := events + [e];
    assert all[..|events|] == events;
    if !(e.Create? && e.id == id) && LatestCreation(events, id).Some? {
      assert all[..LatestCreation(events, id).value] == events[..LatestCreation(events, id).value];
    }
  }

  lemma CreationsNext<V, R>(events: seq<Event<V, R>>, e: Event<V, R>)
    ensures Creations(events + [e]) == Creations(events) + if e.Create? then 1 else 0
    ensures Arrived(events + [e]) == Arrived(events) +
            if e.Create? then [Taken(e.id, Creations(events), e.task)]
            else if e.Request? && PlaceOf(events, e.id).Some? then [Taken(e.id, PlaceOf(events, e.id).value, e.task)]
            else []
  {
    hide PlaceOf;
    assert (events + [e])[..|events|] == events;
  }

  /**
   * In every run the jobs are exactly what arrived, in order: a creation works on a store of its own, a request on the
   * store of the latest creation under its id, and a request under an id never created leaves nothing.
   */
  lemma {:induction false} JobsAreArrivals<V, R>(events: seq<Event<V, R>>)
    ensures Placed(events)
  {
    if events != [] {
      var n := |events| - 1;
      var before, e := events[..n], events[n];
      JobsAreArrivals(before);
      assert events == before + [e];
      OneEventMore(before, e);
    }
  }

  lemma OneEventMore<V, R>(events: seq<Event<V, R>>, e: Event<V, R>)
    requires Placed(events)
    ensures Placed(events + [e])
  {
    hide Step, PlaceOf, Creations, Arrived;
    var w := Run(events);
    RunNext(events, e);
    StepTakes(w, e);
    CreationsNext(events, e);
    assert Read(w.sessions, if e.Create? || e.Request? then e.id else "") == PlaceOf(events, if e.Create? || e.Request? then e.id else "");
    forall id: string ensures Read(Step(w, e).sessions, id) == PlaceOf(events + [e], id) {
      PlacesNext(events, e, id);
      assert Read(w.sessions, id) == PlaceOf(events, id);
    }
    CarriesNext(events, e, w);
  }

  lemma RunNext<V, R>(events: seq<Event<V, R>>, e: Event<V, R>)
    ensures Run(events + [e]) == Step(Run(events), e)
  {
    hide Step;
    assert (events + [e])[..|events|] == events;
  }

  lemma CarriesNext<V, R>(events: seq<Event<V, R>>, e: Event<V, R>, w: World<V, R>)
    requires w == Run(events) && Carries(w.jobs, Arrived(events)) && |w.stores| == Creations(events)
    requires forall id: string :: Read(w.sessions, id) == PlaceOf(events, id)
    ensures Carries(Step(w, e).jobs, Arrived(events + [e]))
  {
    hide Step, PlaceOf, Creations, Arrived, Run;
    StepTakes(w, e);
    CreationsNext(events, e);
    if e.Request? {
      assert Read(w.sessions, e.id) == PlaceOf(events, e.id);
    }
  }

  /** A creation's store is its own: no earlier request works on it. */
  lemma {:induction false} OwnStore<V, R>(events: seq<Event<V, R>>)
    ensures forall t <- Arrived(events) :: t.place < Creations(events)
  {
    if events != [] {
      var n := |events| - 1;
      var before, e := events[..n], events[n];
      OwnStore(before);
      assert events == before + [e];
      hide Arrived;
      CreationsNext(before, e);
      if e.Request? && LatestCreation(before, e.id).Some? {
        EarlierCreation(before, LatestCreation(before, e.id).value);
      }
    }
  }

  lemma {:induction false} EarlierCreation<V, R>(events: seq<Event<V, R>>, n: nat)
    requires n < |events| && events[n].Create?
    ensures Creations(events[..n]) < Creations(events)
  {
    var m := |events| - 1;
    if n < m {
      EarlierCreation(events[..m], n);
      assert events[..m][..n] == events[..n];
    }
  }
}
