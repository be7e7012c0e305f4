/** What the syncs of the runs in Race, Days and Thaw plan. */
module Scenes {
  import opened Prelude
  import opened CalendarDays
  import opened CalendarTypes
  import opened EventSync
  import opened Protocol

  // ------------------------------------------------------------------ any calendar

  function Waiting(rv: nat, time: int): Status {
    Status(rv, Pending, Some(time), None, [])
  }

  /** The first sync of an event that runs after nothing sets its phase and time. */
  lemma PlanOfFresh(cal: Calendar, v: View, k: Name, now: int, gen: Name)
    requires Feasible(cal.days) && v.Valid() && k in v.events && v.events[k] == Fresh && v.specs[k].after == []
    ensures var time := if v.specs[k].time.Some? then v.specs[k].time.value else now;
            Plan(cal, v, k, now, false, gen) == [UpdateStatus(k, Waiting(0, time))]
  {
  }

  /** A pending event whose time is settled, and that runs after nothing. */
  ghost predicate Steady(v: View, k: Name) {
    && v.Valid() && k in v.events && v.specs[k].after == [] && v.specs[k].group != ""
    && v.events[k].phase.Pending? && v.events[k].time.Some? && (v.specs[k].time.Some? ==> v.specs[k].time == v.events[k].time)
    && (v.events[k].runs == [] || v.events[k].leader == Some(k))
  }

  lemma SteadyPlan(cal: Calendar, v: View, k: Name, now: int, gen: Name)
    requires Feasible(cal.days) && Steady(v, k)
    ensures var a := AcquireLease(v, k, v.events[k]);
            Plan(cal, v, k, now, false, gen) ==
              a.writes + (if a.ok then RunFrom(cal, v.(leases := a.leases), k, v.events[k], 0, now, gen) else [])
  {
    hide RunFrom, AcquireLease;
    var a := AcquireLease(v, k, v.events[k]);
    assert a.writes + [] == a.writes;
  }

  /** The lease on the title of k is k's, or free. */
  ghost predicate TitleIsOpen(v: View, k: Name)
    requires k in v.specs
  {
    NameLease(v.specs[k].title) !in v.leases || v.leases[NameLease(v.specs[k].title)] == k
  }

  function TitleWrites(v: View, k: Name): seq<Write>
    requires k in v.specs
  {
    var key := NameLease(v.specs[k].title);
    if key in v.leases then [] else [CreateLease(key, k)]
  }

  function TitleTaken(v: View, k: Name): View
    requires k in v.specs
  {
    v.(leases := v.leases[NameLease(v.specs[k].title) := k])
  }

  lemma OpenPlan(cal: Calendar, v: View, k: Name, now: int, gen: Name)
    requires Feasible(cal.days) && Steady(v, k) && TitleIsOpen(v, k)
    ensures Plan(cal, v, k, now, false, gen) == TitleWrites(v, k) + RunFrom(cal, TitleTaken(v, k), k, v.events[k], 0, now, gen)
  {
    hide RunFrom, Plan;
    SteadyPlan(cal, v, k, now, gen);
    assert NameLease(v.specs[k].title) in v.leases ==> TitleTaken(v, k) == v;
  }

  /** A leaderless event adopts the holder of the lease of its group. */
  lemma PlanToAdopt(cal: Calendar, v: View, k: Name, l: Name, now: int, gen: Name)
    requires Feasible(cal.days) && |cal.pipelines| > 0 && Steady(v, k) && TitleIsOpen(v, k) && v.events[k].leader.None?
    requires GroupLease(v.specs[k].group) in v.leases && v.leases[GroupLease(v.specs[k].group)] == l && l in v.events
    requires cal.daily ==> v.events[l].time.Some? && SameDay(v.events[l].time.value, v.events[k].time.value, cal.zone)
    ensures Plan(cal, v, k, now, false, gen) == TitleWrites(v, k) + [UpdateStatus(k, v.events[k].(leader := Some(l)))]
  {
    hide Plan, SameDay;
    OpenPlan(cal, v, k, now, gen);
    var u, st := TitleTaken(v, k), v.events[k];
    assert ProbeLeader(cal, u, k, st) == Some(st.(leader := Some(l)));
    assert RunFrom(cal, u, k, st, 0, now, gen) == [UpdateStatus(k, st.(leader := Some(l)))];
  }

  // ------------------------------------------------------------------ a calendar of two pipelines

  const GATHER := Pipeline("gather", true, false, NoOffset, "", false)
  const DEPLOY := Pipeline("deploy", false, false, NoOffset, "", false)

  function Two(daily: bool): Calendar {
    Calendar([GATHER, DEPLOY], daily, Days([], []), [], 0)
  }

  lemma TwoIsValid(daily: bool)
    ensures Two(daily).Valid() && Two(daily).HasAlways()
  {
    assert !Two(daily).pipelines[1].leaderOnly;
  }

  lemma NothingBefore(cal: Calendar, v: View, k: Name, st: Status, i: nat)
    requires v.Valid() && k in v.events && v.specs[k].after == [] && i < |cal.pipelines|
    ensures AfterDone(cal, v, k, st, i)
  {
    assert Titles([]) == {};
  }

  /** A leaderless event finds no lease of its group and elects itself; or the lease of an event of
      another day, and adopts that one all the same. */
  lemma PlanToElect(daily: bool, v: View, k: Name, now: int, gen: Name)
    requires Steady(v, k) && TitleIsOpen(v, k) && v.events[k].leader.None? && v.events[k].time.value <= now
    requires var key := GroupLease(v.specs[k].group);
             key in v.leases ==>
               && daily && v.leases[key] in v.events && v.events[v.leases[key]].time.Some?
               && !SameDay(v.events[v.leases[key]].time.value, v.events[k].time.value, 0)
    ensures Feasible(Two(daily).days)
    ensures var key, st := GroupLease(v.specs[k].group), v.events[k];
            Plan(Two(daily), v, k, now, false, gen) == TitleWrites(v, k) +
              (if key in v.leases then [UpdateStatus(k, st.(leader := Some(v.leases[key])))]
               else [CreateLease(key, k), UpdateStatus(k, st.(leader := Some(k)))])
  {
    hide Plan, SameDay, AfterDone;
    var cal, u, st, key := Two(daily), TitleTaken(v, k), v.events[k], GroupLease(v.specs[k].group);
    OpenPlan(cal, v, k, now, gen);
    NothingBefore(cal, u, k, st, 0);
    assert ProbeLeader(cal, u, k, st) == Some(st);
    assert SyncPipeline(cal, u, k, st, 0, "", now, gen) == LeaderElect(u, k, st);
  }

  /** The leader of a group locks it and records its run. */
  lemma PlanToLock(daily: bool, v: View, k: Name, now: int, gen: Name)
    requires Steady(v, k) && TitleIsOpen(v, k) && v.events[k].leader == Some(k) && v.events[k].runs == []
    requires v.events[k].time.value <= now && v.specs[k].created + 30 * SECOND <= now && GroupLease(v.specs[k].group) in v.leases
    requires LockScan(Two(daily), v, v.specs[k].group, v.events[k].time.value, v.order).Pass?
    requires FollowersScan(v.events, k, "", v.order).Pass?
    ensures Feasible(Two(daily).days)
    ensures var key, st := GroupLease(v.specs[k].group), v.events[k];
            Plan(Two(daily), v, k, now, false, gen) ==
              TitleWrites(v, k) + [DeleteLease(key), UpdateStatus(k, st.(runs := [Run(gen, "gather", RunPending)]))]
  {
    hide Plan, AfterDone, LockScan, FollowersScan, SyncPipeline;
    var cal, u, st, key := Two(daily), TitleTaken(v, k), v.events[k], GroupLease(v.specs[k].group);
    OpenPlan(cal, v, k, now, gen);
    LockSees(cal, v, u, v.specs[k].group, st.time.value, v.order);
    LockStep(daily, u, k, now, gen);
    assert AddRun(st, "gather", gen) == st.(runs := [Run(gen, "gather", RunPending)]);
    assert RunFrom(cal, u, k, st, 0, now, gen) == [DeleteLease(key)] + [UpdateStatus(k, AddRun(st, "gather", gen))];
  }

  lemma LockStep(daily: bool, u: View, k: Name, now: int, gen: Name)
    requires Steady(u, k) && u.events[k].leader == Some(k) && u.events[k].runs == []
    requires u.events[k].time.value <= now && u.specs[k].created + 30 * SECOND <= now && GroupLease(u.specs[k].group) in u.leases
    requires LockScan(Two(daily), u, u.specs[k].group, u.events[k].time.value, u.order).Pass?
    requires FollowersScan(u.events, k, "", u.order).Pass?
    ensures Feasible(Two(daily).days)
    ensures var key, st := GroupLease(u.specs[k].group), u.events[k];
            SyncPipeline(Two(daily), u, k, st, 0, "", now, gen) ==
              StepResult([DeleteLease(key)], u.leases - {key}, Next(AddRun(st, "gather", gen), false))
  {
    hide AfterDone, LockScan, FollowersScan, GatherAndRun;
    var cal, st, key := Two(daily), u.events[k], GroupLease(u.specs[k].group);
    NothingBefore(cal, u, k, st, 0);
    GatherStep(daily, u.(leases := u.leases - {key}), k, [DeleteLease(key)], now, gen);
  }

  lemma GatherStep(daily: bool, w: View, k: Name, writes: seq<Write>, now: int, gen: Name)
    requires w.Valid() && k in w.events && w.events[k].runs == [] && FollowersScan(w.events, k, "", w.order).Pass?
    ensures GatherAndRun(Two(daily), w, k, w.events[k], 0, "", writes, now, gen) ==
              StepResult(writes, w.leases, Next(AddRun(w.events[k], "gather", gen), false))
  {
    hide FollowersScan;
  }

  lemma {:induction false} LockSees(cal: Calendar, v: View, u: View, group: string, day: int, xs: seq<Name>)
    requires u == v.(leases := u.leases) && forall k :: k in xs ==> k in v.specs && k in v.events
    ensures LockScan(cal, u, group, day, xs) == LockScan(cal, v, group, day, xs)
  {
    if xs != [] {
      LockSees(cal, v, u, group, day, xs[1..]);
    }
  }

  /** The leader, its group locked, hands the followers it can see to the Tekton run. */
  lemma PlanToRun(daily: bool, v: View, k: Name, r: Name, now: int, gen: Name)
    requires Steady(v, k) && TitleIsOpen(v, k) && v.events[k].leader == Some(k)
    requires v.events[k].runs == [Run(r, "gather", RunPending)] && r !in v.tekton
    requires v.events[k].time.value <= now && v.specs[k].created + 30 * SECOND <= now && GroupLease(v.specs[k].group) !in v.leases
    requires FollowersScan(v.events, k, "", v.order).Pass?
    ensures Feasible(Two(daily).days)
    ensures Plan(Two(daily), v, k, now, false, gen) == TitleWrites(v, k) + [CreateRun(r, k, "gather", FollowersOf(v.events, k, v.order))]
  {
    hide Plan, AfterDone, FollowersScan, FollowersOf;
    var cal, u, st := Two(daily), TitleTaken(v, k), v.events[k];
    OpenPlan(cal, v, k, now, gen);
    NothingBefore(cal, u, k, st, 0);
    assert ProbeLeader(cal, u, k, st) == Some(st);
    var writes := [CreateRun(r, k, "gather", FollowersOf(u.events, k, u.order))];
    assert Execute(cal, u, k, st, 0, FollowersOf(u.events, k, u.order), now, gen) == StepResult(writes, u.leases, Next(st, false));
    assert [] + writes == writes;
    assert SyncPipeline(cal, u, k, st, 0, "", now, gen) == StepResult(writes, u.leases, Next(st, false));
  }
}
