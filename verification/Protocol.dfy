/** The controller at work on a cluster: the objects stored by the API server, the informer
    caches that lag behind them, and the syncs in flight. Any number of workers may be at
    work, each on an event of its own, and any of them may stop between two writes. */
module Protocol {
  import opened Prelude
  import opened CalendarTypes
  import opened EventSync

  datatype System = System(
    specs: map<Name, Spec>,            // every event ever created, as its user fixed it
    events: map<Name, Status>,         // its status, the last one if it was deleted
    alive: set<Name>,                  // the events that still exist
    leases: map<LeaseKey, Name>,
    tekton: map<Name, TektonRun>,
    cache: map<Name, Status>,          // the event lister
    seen: map<Name, TektonRun>,        // the Tekton lister
    inflight: map<Name, seq<Write>>,   // what each running sync has still to write
    owner: map<Name, Name>)            // the event each generated name was made for

  datatype Action =
    | Begin(key: Name, order: seq<Name>, now: int, paused: bool, gen: Name)
    | Commit(key: Name)
    | Stop(key: Name)
    | Observe(key: Name)
    | ObserveRun(name: Name)
    | Create(key: Name, spec: Spec)
    | Delete(key: Name)
    | Collect(lease: LeaseKey)
    | Progress(name: Name, status: TektonStatus)
    | RequestCancel(key: Name, index: nat)

  const Fresh: Status := Status(0, Unset, None, None, [])

  ghost predicate Init(s: System) {
    s == System(map[], map[], {}, map[], map[], map[], map[], map[], map[])
  }

  // ------------------------------------------------------------------ API writes

  /** Whether the API server accepts a write: versions match, and names are free or taken. */
  predicate Accepts(s: System, w: Write) {
    match w
    case UpdateStatus(k, st) => k in s.alive && k in s.events && s.events[k].rv == st.rv
    case DeleteEvent(k) => k in s.alive
    case CreateLease(key, _) => key !in s.leases
    case TakeLease(key, previous, _) => key in s.leases && s.leases[key] == previous
    case DeleteLease(key) => key in s.leases
    case CreateRun(name, _, _, _) => name !in s.tekton
    case CancelRun(name) => name in s.tekton
  }

  function Apply(s: System, w: Write): System
    requires Accepts(s, w)
  {
    match w
    case UpdateStatus(k, st) => s.(events := s.events[k := st.(rv := st.rv + 1)])
    case DeleteEvent(k) => s.(alive := s.alive - {k})
    case CreateLease(key, holder) => s.(leases := s.leases[key := holder])
    case TakeLease(key, _, holder) => s.(leases := s.leases[key := holder])
    case DeleteLease(key) => s.(leases := s.leases - {key})
    case CreateRun(name, k, pipeline, followers) =>
      s.(tekton := s.tekton[name := TektonRun(k, pipeline, RunPending, false, followers)])
    case CancelRun(name) => s.(tekton := s.tekton[name := s.tekton[name].(stopping := true)])
  }

  // ------------------------------------------------------------------ steps

  function ViewOf(s: System, order: seq<Name>): View {
    View(s.specs, order, s.cache, s.leases, s.seen)
  }

  predicate Cancellable(r: RunStatus) {
    r.RunPending? || r.RunRunning? || r.RunUnknown?
  }

  ghost predicate Enabled(cal: Calendar, s: System, a: Action) {
    match a
    case Begin(k, order, _, _, gen) =>
      k in s.specs && k !in s.inflight && gen !in s.owner && ViewOf(s, order).Valid()
    case Commit(k) => k in s.inflight && s.inflight[k] != []
    case Stop(k) => k in s.inflight
    case Observe(k) => k in s.events
    case ObserveRun(n) => n in s.tekton
    case Create(k, _) => k !in s.specs
    case Delete(k) => k in s.alive
    case Collect(key) => key in s.leases && s.leases[key] !in s.alive
    case Progress(n, status) => n in s.tekton && !Ended(s.tekton[n].status)
    case RequestCancel(k, x) =>
      k in s.alive && k in s.events && x < |s.events[k].runs| && Cancellable(s.events[k].runs[x].status)
  }

  ghost function Do(cal: Calendar, s: System, a: Action): System
    requires cal.Valid() && Enabled(cal, s, a)
  {
    match a
    case Begin(k, order, now, paused, gen) =>
      s.(inflight := s.inflight[k := Plan(cal, ViewOf(s, order), k, now, paused, gen)],
         owner := s.owner[gen := k])
    case Commit(k) =>
      var w := s.inflight[k][0];
      if Accepts(s, w) then Apply(s, w).(inflight := s.inflight[k := s.inflight[k][1..]])
      else s.(inflight := s.inflight - {k})
    case Stop(k) => s.(inflight := s.inflight - {k})
    case Observe(k) =>
      if k in s.alive then s.(cache := s.cache[k := s.events[k]]) else s.(cache := s.cache - {k})
    case ObserveRun(n) => s.(seen := s.seen[n := s.tekton[n]])
    case Create(k, spec) =>
      s.(specs := s.specs[k := spec], events := s.events[k := Fresh], alive := s.alive + {k})
    case Delete(k) => s.(alive := s.alive - {k})
    case Collect(key) => s.(leases := s.leases - {key})
    case Progress(n, status) => s.(tekton := s.tekton[n := s.tekton[n].(status := status)])
    case RequestCancel(k, x) =>
      var st := SetRun(s.events[k], x, RunCancelled);
      s.(events := s.events[k := st.(rv := st.rv + 1)])
  }

  /** A run of the system: states joined by enabled actions. */
  ghost predicate IsRun(cal: Calendar, states: seq<System>, actions: seq<Action>)
    requires cal.Valid()
  {
    && |states| == |actions| + 1
    && forall i :: 0 <= i < |actions| ==>
         Enabled(cal, states[i], actions[i]) && states[i + 1] == Do(cal, states[i], actions[i])
  }
}
