/** Deletions notify nobody. Events that enqueueEvent would not notify lose nothing by that; of the
    others, this says which of them stay asleep though they could go on. */
module Deletion {
  import opened Prelude
  import opened CalendarDays
  import opened CalendarHours
  import opened CalendarTypes
  import opened EventSync
  import opened WakeUp

  /** The leases that are left when those of event a are collected. */
  function Collected(v: View, a: Name): map<LeaseKey, Name> {
    map key | key in v.leases && v.leases[key] != a :: v.leases[key]
  }

  /** What is seen once event a is gone, from the listers and from the cluster. */
  function Gone(v: View, a: Name): View {
    v.(order := Without(v.order, a), events := v.events - {a}, leases := Collected(v, a))
  }

  ghost predicate Distinct(xs: seq<Name>) {
    forall i, j | 0 <= i < j < |xs| :: xs[i] != xs[j]
  }

  lemma {:induction false} WithoutDistinct(xs: seq<Name>, a: Name)
    requires Distinct(xs)
    ensures Distinct(Without(xs, a))
    decreases |xs|
  {
    if xs != [] {
      WithoutDistinct(xs[1..], a);
      assert xs[0] !in xs[1..];
      OneMoreDistinct(xs[0], Without(xs[1..], a));
    }
  }

  lemma OneMoreDistinct(x: Name, xs: seq<Name>)
    requires Distinct(xs) && x !in xs
    ensures Distinct([x] + xs)
  {
  }

  lemma GoneIsValid(v: View, a: Name)
    requires v.Valid()
    ensures Gone(v, a).Valid()
  {
    WithoutDistinct(v.order, a);
  }

  // ------------------------------------------------------------------ two leases

  /** Views that differ in leases that b does not read. */
  ghost predicate SameForB(v: View, w: View, b: Name)
    requires b in v.specs
  {
    && v.Valid() && w.Valid() && b in v.events && w == v.(leases := w.leases)
    && (forall key :: key == NameLease(v.specs[b].title) || (v.specs[b].group != "" && key == GroupLease(v.specs[b].group)) ==>
         (key in v.leases <==> key in w.leases) && (key in v.leases ==> w.leases[key] == v.leases[key]))
  }

  lemma {:induction false} ScanForB(cal: Calendar, v: View, w: View, group: string, day: int, xs: seq<Name>)
    requires w == v.(leases := w.leases) && forall k :: k in xs ==> k in v.specs && k in v.events
    ensures LockScan(cal, v, group, day, xs) == LockScan(cal, w, group, day, xs)
  {
    hide SameDay;
    if xs != [] {
      ScanForB(cal, v, w, group, day, xs[1..]);
    }
  }

  /** The same step, and what b reads of leases afterwards is the same. */
  ghost predicate StepForB(v: View, w: View, b: Name, r: StepResult, s: StepResult)
    requires b in v.specs
  {
    r.writes == s.writes && r.outcome == s.outcome && SameForB(v.(leases := r.leases), w.(leases := s.leases), b)
  }

  // Running a pipeline reads of a view nothing but the Tekton runs.

  lemma RollBackReads(v: View, w: View, b: Name, st: Status, p: Pipeline, followers: seq<Name>, gen: Name)
    requires w.tekton == v.tekton
    ensures RollBack(w, b, st, p, followers, gen) == RollBack(v, b, st, p, followers, gen).(leases := w.leases)
  {
    hide FirstRun;
  }

  lemma UnseenReads(cal: Calendar, v: View, w: View, b: Name, st: Status, i: nat, x: nat, followers: seq<Name>, now: int, gen: Name)
    requires w.tekton == v.tekton && i < |cal.pipelines| && x < |st.runs| && st.runs[x].pipeline == cal.pipelines[i].name
    ensures ExecuteUnseen(cal, w, b, st, i, x, followers, now, gen) ==
              ExecuteUnseen(cal, v, b, st, i, x, followers, now, gen).(leases := w.leases)
  {
    hide RollBack, WaitForHours;
    RollBackReads(v, w, b, st, cal.pipelines[i], followers, gen);
  }

  lemma SeenReads(cal: Calendar, v: View, w: View, b: Name, st: Status, i: nat, x: nat, followers: seq<Name>, gen: Name)
    requires w.tekton == v.tekton && i < |cal.pipelines| && x < |st.runs| && st.runs[x].name in v.tekton
    ensures ExecuteSeen(cal, w, b, st, i, x, followers, gen) == ExecuteSeen(cal, v, b, st, i, x, followers, gen).(leases := w.leases)
  {
    hide RollBack;
    RollBackReads(v, w, b, st.(phase := Cancelled), cal.pipelines[i], followers, gen);
    RollBackReads(v, w, b, st.(phase := Failed), cal.pipelines[i], followers, gen);
  }

  lemma ExecuteReads(cal: Calendar, v: View, w: View, b: Name, st: Status, i: nat, followers: seq<Name>, now: int, gen: Name)
    requires w.tekton == v.tekton && i < |cal.pipelines|
    ensures Execute(cal, w, b, st, i, followers, now, gen) == Execute(cal, v, b, st, i, followers, now, gen).(leases := w.leases)
  {
    hide ExecuteSeen, ExecuteUnseen;
    var first := FirstRun(st.runs, cal.pipelines[i].name);
    if first.Some? {
      UnseenReads(cal, v, w, b, st, i, first.value, followers, now, gen);
      if st.runs[first.value].name in v.tekton {
        SeenReads(cal, v, w, b, st, i, first.value, followers, gen);
      }
    }
  }

  lemma GatherForB(cal: Calendar, v: View, leases: map<LeaseKey, Name>, b: Name, i: nat, last: string, writes: seq<Write>, now: int, gen: Name)
    requires v.Valid() && b in v.events && i < |cal.pipelines|
    ensures GatherAndRun(cal, v.(leases := leases), b, v.events[b], i, last, writes, now, gen) ==
              GatherAndRun(cal, v, b, v.events[b], i, last, writes, now, gen).(leases := leases)
  {
    hide Execute, FollowersScan, FollowersOf;
    ExecuteReads(cal, v, v.(leases := leases), b, v.events[b], i, FollowersOf(v.events, b, v.order), now, gen);
  }

  lemma LeaderOnlyForB(cal: Calendar, v: View, w: View, b: Name, i: nat, last: string, now: int, gen: Name)
    requires b in v.specs && SameForB(v, w, b) && v.events[b].time.Some? && i < |cal.pipelines|
    ensures StepForB(v, w, b, SyncLeaderOnly(cal, v, b, v.events[b], i, last, now, gen), SyncLeaderOnly(cal, w, b, v.events[b], i, last, now, gen))
  {
    hide GatherAndRun, LockScan, RunStatusOf;
    var st, key := v.events[b], GroupLease(v.specs[b].group);
    if st.leader == Some(b) {
      ScanForB(cal, v, w, v.specs[b].group, st.time.value, v.order);
      GatherForB(cal, v, w.leases, b, i, last, [], now, gen);
      GatherForB(cal, v.(leases := v.leases - {key}), w.leases - {key}, b, i, last, [DeleteLease(key)], now, gen);
      UnlockedForB(v, w, b);
    }
  }

  lemma UnlockedForB(v: View, w: View, b: Name)
    requires b in v.specs && SameForB(v, w, b)
    ensures var key := GroupLease(v.specs[b].group);
            SameForB(v.(leases := v.leases - {key}), w.(leases := w.leases - {key}), b)
  {
  }

  lemma AfterForB(cal: Calendar, v: View, w: View, b: Name, i: nat)
    requires b in v.specs && SameForB(v, w, b) && i < |cal.pipelines|
    ensures AfterDone(cal, v, b, v.events[b], i) == AfterDone(cal, w, b, v.events[b], i)
  {
    hide PredecessorDone, Latest;
    var titles := Titles(v.specs[b].after);
    ByTitleOfSpecs(v, w, v.order, titles);
    var xs := ByTitle(v, v.order, titles);
    forall e | e in xs
      ensures Kept(v, xs, e) == Kept(w, xs, e) && PredecessorDone(cal, v, b, v.events[b], i, e) == PredecessorDone(cal, w, b, v.events[b], i, e)
    {
      SameLatest(v, w, xs, v.specs[e].title);
      DoneForB(cal, v, w, b, i, e);
    }
  }

  lemma DoneForB(cal: Calendar, v: View, w: View, b: Name, i: nat, e: Name)
    requires b in v.specs && SameForB(v, w, b) && i < |cal.pipelines| && e in v.events
    ensures PredecessorDone(cal, v, b, v.events[b], i, e) == PredecessorDone(cal, w, b, v.events[b], i, e)
  {
  }

  lemma LeaderForB(cal: Calendar, v: View, w: View, b: Name)
    requires b in v.specs && SameForB(v, w, b) && v.events[b].time.Some?
    ensures ProbeLeader(cal, v, b, v.events[b]) == ProbeLeader(cal, w, b, v.events[b])
  {
    hide SameDay;
  }

  lemma SyncForB(cal: Calendar, v: View, w: View, b: Name, i: nat, last: string, now: int, gen: Name)
    requires Feasible(cal.days) && b in v.specs && SameForB(v, w, b) && v.events[b].time.Some? && i < |cal.pipelines|
    ensures StepForB(v, w, b, SyncPipeline(cal, v, b, v.events[b], i, last, now, gen), SyncPipeline(cal, w, b, v.events[b], i, last, now, gen))
  {
    hide SyncLeaderOnly, Execute, AfterDone, Early, ProbeLeader;
    LeaderForB(cal, v, w, b);
    AfterForB(cal, v, w, b, i);
    LeaderOnlyForB(cal, v, w, b, i, last, now, gen);
    ExecuteReads(cal, v, w, b, v.events[b], i, [], now, gen);
    var e := Execute(cal, v, b, v.events[b], i, [], now, gen);
    assert v.(leases := e.leases) == v && OnlyRuns(v, b, v.events[b], e);
  }

  lemma {:induction false} RunForB(cal: Calendar, v: View, w: View, b: Name, i: nat, now: int, gen: Name)
    requires Feasible(cal.days) && b in v.specs && SameForB(v, w, b) && v.events[b].time.Some? && i <= |cal.pipelines|
    ensures RunFrom(cal, v, b, v.events[b], i, now, gen) == RunFrom(cal, w, b, v.events[b], i, now, gen)
    decreases |cal.pipelines| - i
  {
    hide SyncPipeline;
    if i < |cal.pipelines| {
      var st, last := v.events[b], LastAlways(cal.pipelines, i);
      SyncForB(cal, v, w, b, i, last, now, gen);
      var r, s := SyncPipeline(cal, v, b, st, i, last, now, gen), SyncPipeline(cal, w, b, st, i, last, now, gen);
      if r.outcome == Next(st, true) {
        RunForB(cal, v.(leases := r.leases), w.(leases := s.leases), b, i + 1, now, gen);
      }
    }
  }

  lemma {:induction false} ProbesForB(cal: Calendar, v: View, w: View, after: seq<RunAfter>, t: int)
    requires Feasible(cal.days) && v.Valid() && w.Valid() && w == v.(leases := w.leases)
    ensures ProbeAll(cal, v, after, t) == ProbeAll(cal, w, after, t)
    decreases |after|
  {
    hide ProbeOne;
    if after != [] {
      ByTitleOfSpecs(v, w, v.order, {after[0].title});
      var xs := ByTitle(v, v.order, {after[0].title});
      SameProbe(cal, v, w, xs, after[0].offset, t);
      var probe := ProbeOne(cal, v, xs, after[0].offset, t);
      if probe.Reached? {
        ProbesForB(cal, v, w, after[1..], probe.time);
      }
    }
  }

  lemma AcquireForB(v: View, w: View, b: Name)
    requires b in v.specs && SameForB(v, w, b)
    ensures var a, c := AcquireLease(v, b, v.events[b]), AcquireLease(w, b, v.events[b]);
            a.ok == c.ok && a.writes == c.writes && SameForB(v.(leases := a.leases), w.(leases := c.leases), b)
  {
  }

  /** Of all leases a sync reads only the one on its title and the one on its group. */
  lemma PlanForB(cal: Calendar, v: View, w: View, b: Name, now: int, paused: bool, gen: Name)
    requires Feasible(cal.days) && b in v.specs && SameForB(v, w, b)
    ensures Plan(cal, v, b, now, paused, gen) == Plan(cal, w, b, now, paused, gen)
  {
    hide RunFrom, ProbeAll, ProbePhase;
    var st := v.events[b];
    ProbesForB(cal, v, w, v.specs[b].after, if v.specs[b].time.Some? then v.specs[b].time.value else if st.time.Some? then st.time.value else now);
    var a, c := AcquireLease(v, b, st), AcquireLease(w, b, st);
    AcquireForB(v, w, b);
    hide AcquireLease, SameForB;
    if st.time.Some? {
      RunForB(cal, v.(leases := a.leases), w.(leases := c.leases), b, 0, now, gen);
    }
  }

  lemma {:induction false} WithoutNone(xs: seq<Name>, a: Name)
    requires a !in xs
    ensures Without(xs, a) == xs
    decreases |xs|
  {
    if xs != [] {
      WithoutNone(xs[1..], a);
    }
  }

  /** What the listers show once a is gone, with all leases. */
  function Unlisted(v: View, a: Name): View {
    v.(order := Without(v.order, a), events := v.events - {a})
  }

  lemma UnlistedIsUpdate(v: View, a: Name)
    requires v.Valid() && a in v.events
    ensures Updates(Unlisted(v, a), v, a)
  {
    WithoutDistinct(v.order, a);
    WithoutNone(Without(v.order, a), a);
  }

  lemma CollectedElsewhere(v: View, a: Name, b: Name)
    requires v.Valid() && LeasesMatch(v) && a in v.events && b in v.events && !Notifies(v, a, b)
    ensures SameForB(Unlisted(v, a), Gone(v, a), b)
  {
    GoneIsValid(v, a);
  }

  /** An event that enqueueEvent for a would not notify plans, with a gone and its leases collected,
      exactly what it planned before. */
  lemma OthersLoseNothing(cal: Calendar, v: View, a: Name, b: Name, now: int, paused: bool, gen: Name)
    requires Feasible(cal.days) && v.Valid() && LeasesMatch(v) && a in v.events && b in v.events
    requires !Notifies(v, a, b)
    ensures Gone(v, a).Valid() && Plan(cal, Gone(v, a), b, now, paused, gen) == Plan(cal, v, b, now, paused, gen)
  {
    hide Plan, Updates, SameForB, Notifies;
    GoneIsValid(v, a);
    UnlistedIsUpdate(v, a);
    NoLostWakeUp(cal, Unlisted(v, a), v, a, b, now, paused, gen);
    CollectedElsewhere(v, a, b);
    PlanForB(cal, Unlisted(v, a), Gone(v, a), b, now, paused, gen);
  }
}
