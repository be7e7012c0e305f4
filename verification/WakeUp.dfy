/** No lost wake-up: when an event is added or updated, every event whose sync could now go
    differently is put on the work queue. */
module WakeUp {
  import opened Prelude
  import opened CalendarDays
  import opened CalendarHours
  import opened CalendarTypes
  import opened EventSync

  /** Whether enqueueEvent, called for event a, notifies event b. */
  predicate Notifies(v: View, a: Name, b: Name)
    requires a in v.events && b in v.events && a in v.specs && b in v.specs
  {
    || b == a
    || v.events[a].leader == Some(b)
    || v.specs[b].title == v.specs[a].title
    || v.events[b].leader == Some(a)
    || (exists r | r in v.specs[b].after :: r.title == v.specs[a].title)
    || (v.specs[b].group != "" && v.specs[b].group == v.specs[a].group)
  }

  function Without(xs: seq<Name>, a: Name): (r: seq<Name>)
    ensures forall k :: k in r <==> k in xs && k != a
  {
    if xs == [] then [] else (if xs[0] == a then [] else [xs[0]]) + Without(xs[1..], a)
  }

  lemma WithoutHead(xs: seq<Name>, a: Name)
    requires xs != []
    ensures xs[0] == a ==> Without(xs, a) == Without(xs[1..], a)
    ensures xs[0] != a ==> Without(xs, a) != [] && Without(xs, a)[0] == xs[0] && Without(xs, a)[1..] == Without(xs[1..], a)
  {
  }

  /** The views before and after event a was added or updated. A leader, once set, stays. */
  ghost predicate Updates(v: View, w: View, a: Name) {
    && v.Valid() && w.Valid()
    && w.specs == v.specs && w.leases == v.leases && w.tekton == v.tekton
    && a in w.events && (a in v.events && v.events[a].leader.Some? ==> w.events[a].leader == v.events[a].leader)
    && (forall k :: k != a ==> (k in v.events <==> k in w.events))
    && (forall k :: k != a && k in v.events ==> w.events[k] == v.events[k])
    && Without(w.order, a) == Without(v.order, a)
  }

  /** A lease on a title is held by an event of that title, one on a group by one of the group. */
  ghost predicate LeasesMatch(v: View) {
    forall key :: key in v.leases ==>
      && v.leases[key] in v.specs
      && match key
         case NameLease(t) => v.specs[v.leases[key]].title == t
         case GroupLease(g) => v.specs[v.leases[key]].group == g
  }

  /** a is none of b's business: what follows from b not being notified. */
  ghost predicate Unrelated(v: View, w: View, a: Name, b: Name)
    requires a in v.specs && b in v.specs
  {
    && a != b && b in v.events && v.events[b].leader != Some(a)
    && (a in v.events ==> v.events[a].leader != Some(b)) && (a in w.events ==> w.events[a].leader != Some(b))
    && (forall r :: r in v.specs[b].after ==> r.title != v.specs[a].title)
    && (v.specs[b].group != "" ==> v.specs[a].group != v.specs[b].group)
    && (NameLease(v.specs[b].title) in v.leases ==> v.leases[NameLease(v.specs[b].title)] != a)
    && (v.specs[b].group != "" && GroupLease(v.specs[b].group) in v.leases ==> v.leases[GroupLease(v.specs[b].group)] != a)
  }

  // ------------------------------------------------------------------ lists read by a sync

  lemma {:induction false} ByTitleWithout(v: View, xs: seq<Name>, titles: set<string>, a: Name)
    requires forall k :: k in xs ==> k in v.specs
    requires a in v.specs && v.specs[a].title !in titles
    ensures ByTitle(v, xs, titles) == ByTitle(v, Without(xs, a), titles)
  {
    if xs != [] {
      ByTitleWithout(v, xs[1..], titles, a);
      WithoutHead(xs, a);
    }
  }

  lemma {:induction false} ByTitleOfSpecs(v: View, w: View, xs: seq<Name>, titles: set<string>)
    requires w.specs == v.specs && forall k :: k in xs ==> k in v.specs
    ensures ByTitle(v, xs, titles) == ByTitle(w, xs, titles)
  {
    if xs != [] {
      ByTitleOfSpecs(v, w, xs[1..], titles);
    }
  }

  lemma SameList(v: View, w: View, titles: set<string>, a: Name)
    requires Updates(v, w, a) && a in v.specs && v.specs[a].title !in titles
    ensures ByTitle(v, v.order, titles) == ByTitle(w, w.order, titles)
    ensures a !in ByTitle(v, v.order, titles)
  {
    ByTitleWithout(v, v.order, titles, a);
    ByTitleWithout(w, w.order, titles, a);
    ByTitleOfSpecs(v, w, Without(v.order, a), titles);
  }

  lemma {:induction false} FollowersWithout(events: map<Name, Status>, l: Name, last: string, xs: seq<Name>, a: Name)
    requires forall k :: k in xs ==> k in events
    requires a in events ==> events[a].leader != Some(l)
    ensures FollowersScan(events, l, last, xs) == FollowersScan(events, l, last, Without(xs, a))
    ensures FollowersOf(events, l, xs) == FollowersOf(events, l, Without(xs, a))
  {
    hide FollowerSettled;
    if xs != [] {
      FollowersWithout(events, l, last, xs[1..], a);
      WithoutHead(xs, a);
    }
  }

  lemma {:induction false} SameFollowers(v: map<Name, Status>, w: map<Name, Status>, l: Name, last: string, xs: seq<Name>)
    requires forall k :: k in xs ==> k in v && k in w && w[k] == v[k]
    ensures FollowersScan(v, l, last, xs) == FollowersScan(w, l, last, xs)
    ensures FollowersOf(v, l, xs) == FollowersOf(w, l, xs)
  {
    hide FollowerSettled;
    if xs != [] {
      SameFollowers(v, w, l, last, xs[1..]);
    }
  }

  lemma {:induction false} LockWithout(cal: Calendar, v: View, group: string, day: int, xs: seq<Name>, a: Name)
    requires forall k :: k in xs ==> k in v.specs && k in v.events
    requires a in v.specs && v.specs[a].group != group
    ensures LockScan(cal, v, group, day, xs) == LockScan(cal, v, group, day, Without(xs, a))
  {
    hide SameDay;
    if xs != [] {
      LockWithout(cal, v, group, day, xs[1..], a);
      WithoutHead(xs, a);
    }
  }

  lemma {:induction false} SameLock(cal: Calendar, v: View, w: View, group: string, day: int, xs: seq<Name>)
    requires forall k :: k in xs ==> k in v.specs && k in v.events && k in w.events && w.events[k] == v.events[k]
    requires w.specs == v.specs
    ensures LockScan(cal, v, group, day, xs) == LockScan(cal, w, group, day, xs)
  {
    hide SameDay;
    if xs != [] {
      SameLock(cal, v, w, group, day, xs[1..]);
    }
  }

  lemma {:induction false} SameProbe(cal: Calendar, v: View, w: View, xs: seq<Name>, offset: Offset, t: int)
    requires Feasible(cal.days) && forall k :: k in xs ==> k in v.events && k in w.events && w.events[k] == v.events[k]
    ensures ProbeOne(cal, v, xs, offset, t) == ProbeOne(cal, w, xs, offset, t)
    decreases |xs|
  {
    hide GetTimeWithOffset;
    if xs != [] && v.events[xs[0]].time.Some? {
      var when := GetTimeWithOffset(v.events[xs[0]].time.value, offset, cal.zone, cal.days);
      if when.Ok? {
        SameProbe(cal, v, w, xs[1..], offset, if when.value > t then when.value else t);
      }
    }
  }

  lemma {:induction false} SameProbes(cal: Calendar, v: View, w: View, a: Name, after: seq<RunAfter>, t: int)
    requires Feasible(cal.days) && Updates(v, w, a) && a in v.specs && forall r :: r in after ==> r.title != v.specs[a].title
    ensures ProbeAll(cal, v, after, t) == ProbeAll(cal, w, after, t)
    decreases |after|
  {
    hide ProbeOne;
    if after != [] {
      SameList(v, w, {after[0].title}, a);
      var xs := ByTitle(v, v.order, {after[0].title});
      SameProbe(cal, v, w, xs, after[0].offset, t);
      var probe := ProbeOne(cal, v, xs, after[0].offset, t);
      if probe.Reached? {
        SameProbes(cal, v, w, a, after[1..], probe.time);
      }
    }
  }

  lemma {:induction false} SameLatest(v: View, w: View, xs: seq<Name>, title: string)
    requires w.specs == v.specs
    requires forall k :: k in xs ==> k in v.specs && k in v.events && k in w.events && w.events[k] == v.events[k]
    ensures Latest(v, xs, title) == Latest(w, xs, title)
    ensures Latest(v, xs, title).Some? ==> Latest(v, xs, title).value in xs
  {
    if xs != [] {
      SameLatest(v, w, xs[..|xs| - 1], title);
    }
  }

  // ------------------------------------------------------------------ the steps of a sync

  lemma SameTime(cal: Calendar, v: View, w: View, a: Name, b: Name, st: Status, now: int)
    requires Feasible(cal.days) && Updates(v, w, a) && a in v.specs && b in v.specs && Unrelated(v, w, a, b)
    ensures ProbeTime(cal, v, b, st, now) == ProbeTime(cal, w, b, st, now)
  {
    hide ProbeAll, Updates;
    var t := if v.specs[b].time.Some? then v.specs[b].time.value else if st.time.Some? then st.time.value else now;
    SameProbes(cal, v, w, a, v.specs[b].after, t);
    assert w.specs == v.specs by { hide *; UpdatesSpecs(v, w, a); }
  }

  lemma UpdatesSpecs(v: View, w: View, a: Name)
    requires Updates(v, w, a)
    ensures w.specs == v.specs && w.leases == v.leases && w.tekton == v.tekton && v.Valid() && w.Valid()
  {
  }

  lemma SameAcquire(v: View, w: View, a: Name, b: Name, st: Status)
    requires Updates(v, w, a) && a in v.specs && b in v.specs && Unrelated(v, w, a, b)
    ensures AcquireLease(v, b, st) == AcquireLease(w, b, st)
  {
  }

  lemma SameLeader(cal: Calendar, v: View, w: View, a: Name, b: Name, st: Status)
    requires Updates(v, w, a) && a in v.specs && b in v.specs && Unrelated(v, w, a, b) && st.time.Some?
    ensures ProbeLeader(cal, v, b, st) == ProbeLeader(cal, w, b, st)
  {
  }

  lemma SamePredecessor(cal: Calendar, v: View, w: View, a: Name, b: Name, st: Status, i: nat, e: Name)
    requires Updates(v, w, a) && b in v.events && e in v.events && e != a && b != a && i < |cal.pipelines|
    ensures PredecessorDone(cal, v, b, st, i, e) == PredecessorDone(cal, w, b, st, i, e)
  {
  }

  lemma SameAfter(cal: Calendar, v: View, w: View, a: Name, b: Name, st: Status, i: nat)
    requires Updates(v, w, a) && a in v.specs && b in v.specs && Unrelated(v, w, a, b) && i < |cal.pipelines|
    ensures AfterDone(cal, v, b, st, i) == AfterDone(cal, w, b, st, i)
  {
    hide PredecessorDone, Latest;
    UpdatesSpecs(v, w, a);
    var titles := Titles(v.specs[b].after);
    SameList(v, w, titles, a);
    var xs := ByTitle(v, v.order, titles);
    forall e | e in xs
      ensures Kept(v, xs, e) == Kept(w, xs, e) && PredecessorDone(cal, v, b, st, i, e) == PredecessorDone(cal, w, b, st, i, e)
    {
      SameLatest(v, w, xs, v.specs[e].title);
      SamePredecessor(cal, v, w, a, b, st, i, e);
    }
  }

  lemma SameExecute(cal: Calendar, v: View, w: View, b: Name, st: Status, i: nat, followers: seq<Name>, now: int, gen: Name)
    requires w.leases == v.leases && w.tekton == v.tekton && i < |cal.pipelines|
    ensures Execute(cal, v, b, st, i, followers, now, gen) == Execute(cal, w, b, st, i, followers, now, gen)
  {
    hide WaitForHours, FirstRun;
  }

  lemma SameGather(cal: Calendar, v: View, w: View, a: Name, b: Name, st: Status, i: nat, last: string, writes: seq<Write>, now: int, gen: Name)
    requires Updates(v, w, a) && a in v.specs && b in v.specs && Unrelated(v, w, a, b) && i < |cal.pipelines|
    ensures GatherAndRun(cal, v, b, st, i, last, writes, now, gen) == GatherAndRun(cal, w, b, st, i, last, writes, now, gen)
  {
    hide Execute, FollowersScan, FollowersOf, Without;
    UpdatesSpecs(v, w, a);
    FollowersWithout(v.events, b, last, v.order, a);
    FollowersWithout(w.events, b, last, w.order, a);
    SameFollowers(v.events, w.events, b, last, Without(v.order, a));
    SameExecute(cal, v, w, b, st, i, FollowersOf(v.events, b, v.order), now, gen);
  }

  lemma SameLockScan(cal: Calendar, v: View, w: View, a: Name, group: string, day: int)
    requires Updates(v, w, a) && a in v.specs && v.specs[a].group != group
    ensures LockScan(cal, v, group, day, v.order) == LockScan(cal, w, group, day, w.order)
  {
    LockWithout(cal, v, group, day, v.order, a);
    LockWithout(cal, w, group, day, w.order, a);
    SameLock(cal, v, w, group, day, Without(v.order, a));
  }

  lemma StillUnrelated(v: View, w: View, a: Name, b: Name, leases: map<LeaseKey, Name>)
    requires Updates(v, w, a) && a in v.specs && b in v.specs && Unrelated(v, w, a, b)
    requires forall key :: key in leases ==> (key in v.leases && leases[key] == v.leases[key]) || leases[key] == b
    ensures Updates(v.(leases := leases), w.(leases := leases), a)
    ensures Unrelated(v.(leases := leases), w.(leases := leases), a, b)
  {
  }

  lemma UnrelatedListed(v: View, w: View, a: Name, b: Name)
    requires Updates(v, w, a) && a in v.specs && b in v.specs && Unrelated(v, w, a, b)
    ensures w.Valid() && b in v.events && b in w.events && w.events[b] == v.events[b]
  {
  }

  lemma UnrelatedLeader(v: View, w: View, a: Name, b: Name)
    requires Updates(v, w, a) && a in v.specs && b in v.specs && Unrelated(v, w, a, b) && v.events[b].leader.Some?
    ensures var l := v.events[b].leader.value;
            (l in v.events <==> l in w.events) && (l in v.events ==> w.events[l] == v.events[l])
  {
  }

  lemma UnlockedUnrelated(v: View, w: View, a: Name, b: Name, key: LeaseKey)
    requires Updates(v, w, a) && a in v.specs && b in v.specs && Unrelated(v, w, a, b)
    ensures var v', w' := v.(leases := v.leases - {key}), w.(leases := w.leases - {key});
            Updates(v', w', a) && Unrelated(v', w', a, b)
  {
    StillUnrelated(v, w, a, b, v.leases - {key});
  }

  lemma SameLeaderOnly(cal: Calendar, v: View, w: View, a: Name, b: Name, i: nat, last: string, now: int, gen: Name)
    requires Updates(v, w, a) && a in v.specs && b in v.specs && Unrelated(v, w, a, b)
    requires v.events[b].time.Some? && i < |cal.pipelines|
    ensures b in w.events
    ensures SyncLeaderOnly(cal, v, b, v.events[b], i, last, now, gen) == SyncLeaderOnly(cal, w, b, v.events[b], i, last, now, gen)
  {
    hide GatherAndRun, LockScan, RunStatusOf, Updates, Unrelated;
    UpdatesSpecs(v, w, a);
    UnrelatedListed(v, w, a, b);
    if v.events[b].leader == Some(b) {
      SameAsLeader(cal, v, w, a, b, i, last, now, gen);
    } else if v.events[b].leader.Some? {
      UnrelatedLeader(v, w, a, b);
    }
  }

  lemma SameAsLeader(cal: Calendar, v: View, w: View, a: Name, b: Name, i: nat, last: string, now: int, gen: Name)
    requires Updates(v, w, a) && a in v.specs && b in v.specs && Unrelated(v, w, a, b)
    requires v.events[b].time.Some? && v.events[b].leader == Some(b) && i < |cal.pipelines|
    ensures b in w.events
    ensures SyncLeaderOnly(cal, v, b, v.events[b], i, last, now, gen) == SyncLeaderOnly(cal, w, b, v.events[b], i, last, now, gen)
  {
    hide GatherAndRun, LockScan, RunStatusOf, Updates, Unrelated;
    UpdatesSpecs(v, w, a);
    UnrelatedListed(v, w, a, b);
    var st, key := v.events[b], GroupLease(v.specs[b].group);
    SameGather(cal, v, w, a, b, st, i, last, [], now, gen);
    var v', w' := v.(leases := v.leases - {key}), w.(leases := w.leases - {key});
    UnlockedUnrelated(v, w, a, b, key);
    SameGather(cal, v', w', a, b, st, i, last, [DeleteLease(key)], now, gen);
    if v.specs[b].group != "" {
      SameLockScan(cal, v, w, a, v.specs[b].group, st.time.value);
    }
  }

  lemma SameSync(cal: Calendar, v: View, w: View, a: Name, b: Name, i: nat, last: string, now: int, gen: Name)
    requires Feasible(cal.days) && Updates(v, w, a) && a in v.specs && b in v.specs && Unrelated(v, w, a, b)
    requires v.events[b].time.Some? && i < |cal.pipelines|
    ensures b in w.events
    ensures SyncPipeline(cal, v, b, v.events[b], i, last, now, gen) == SyncPipeline(cal, w, b, v.events[b], i, last, now, gen)
  {
    hide Updates, Unrelated, ProbeLeader, AfterDone, SyncLeaderOnly, Execute, Early;
    UpdatesSpecs(v, w, a);
    UnrelatedListed(v, w, a, b);
    var st := v.events[b];
    SameLeader(cal, v, w, a, b, st);
    SameAfter(cal, v, w, a, b, st, i);
    SameLeaderOnly(cal, v, w, a, b, i, last, now, gen);
    SameExecute(cal, v, w, b, st, i, [], now, gen);
  }

  lemma {:induction false} SameRun(cal: Calendar, v: View, w: View, a: Name, b: Name, i: nat, now: int, gen: Name)
    requires Feasible(cal.days) && Updates(v, w, a) && a in v.specs && b in v.specs && Unrelated(v, w, a, b)
    requires v.events[b].time.Some? && i <= |cal.pipelines|
    ensures b in w.events && RunFrom(cal, v, b, v.events[b], i, now, gen) == RunFrom(cal, w, b, v.events[b], i, now, gen)
    decreases |cal.pipelines| - i
  {
    hide SyncPipeline, Updates, Unrelated;
    UpdatesSpecs(v, w, a);
    UnrelatedListed(v, w, a, b);
    if i < |cal.pipelines| {
      var st, last := v.events[b], LastAlways(cal.pipelines, i);
      SameSync(cal, v, w, a, b, i, last, now, gen);
      var r := SyncPipeline(cal, v, b, st, i, last, now, gen);
      assert OnlyPipeline(v, b, st, r);
      StillUnrelated(v, w, a, b, r.leases);
      if r.outcome == Next(st, true) {
        SameRun(cal, v.(leases := r.leases), w.(leases := r.leases), a, b, i + 1, now, gen);
      }
    }
  }

  // ------------------------------------------------------------------ the whole sync

  lemma SamePlan(cal: Calendar, v: View, w: View, a: Name, b: Name, now: int, paused: bool, gen: Name)
    requires Feasible(cal.days) && Updates(v, w, a) && a in v.specs && b in v.specs && Unrelated(v, w, a, b)
    ensures Plan(cal, v, b, now, paused, gen) == Plan(cal, w, b, now, paused, gen)
  {
    hide Updates, Unrelated, RunFrom, AcquireLease, ProbeTime, ProbePhase;
    UnrelatedListed(v, w, a, b);
    UpdatesSpecs(v, w, a);
    var st := v.events[b];
    SameTime(cal, v, w, a, b, st, now);
    SameAcquire(v, w, a, b, st);
    var acquired := AcquireLease(v, b, st);
    AcquireKeeps(v, b, st);
    StillUnrelated(v, w, a, b, acquired.leases);
    if st.time.Some? {
      SameRun(cal, v.(leases := acquired.leases), w.(leases := acquired.leases), a, b, 0, now, gen);
    }
  }

  lemma AcquireKeeps(v: View, b: Name, st: Status)
    requires v.Valid() && b in v.events
    ensures var leases := AcquireLease(v, b, st).leases;
            forall key :: key in leases ==> (key in v.leases && leases[key] == v.leases[key]) || leases[key] == b
  {
  }

  /** No lost wake-up on add or update: an event that is not notified would do exactly what it
      would have done before, so nothing it waits for has happened. */
  lemma NoLostWakeUp(cal: Calendar, v: View, w: View, a: Name, b: Name, now: int, paused: bool, gen: Name)
    requires Feasible(cal.days) && Updates(v, w, a) && LeasesMatch(v) && b in w.events
    requires !Notifies(w, a, b)
    ensures Plan(cal, v, b, now, paused, gen) == Plan(cal, w, b, now, paused, gen)
  {
    assert Unrelated(v, w, a, b);
    SamePlan(cal, v, w, a, b, now, paused, gen);
  }
}
