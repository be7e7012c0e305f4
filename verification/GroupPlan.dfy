/** What a plan says about groups: when it may create or delete the lease, adopt a leader, start
    a LeaderOnly pipeline, or hand followers to a Tekton run. */
module GroupPlan {
  import opened Prelude
  import opened CalendarDays
  import opened CalendarTypes
  import opened EventSync

  ghost predicate LeaderPipeline(cal: Calendar, j: int, pipeline: string) {
    0 <= j < |cal.pipelines| && cal.pipelines[j].leaderOnly && cal.pipelines[j].name == pipeline
  }

  ghost predicate IsLeaderOnly(cal: Calendar, pipeline: string) {
    exists j :: LeaderPipeline(cal, j, pipeline)
  }

  /** The new status has the first entry for LeaderOnly pipeline j. */
  ghost predicate Starts(cal: Calendar, a: Status, b: Status, j: nat) {
    && j < |cal.pipelines| && cal.pipelines[j].leaderOnly
    && FirstRun(a.runs, cal.pipelines[j].name).None? && FirstRun(b.runs, cal.pipelines[j].name).Some?
  }

  /** Every follower listed has settled what pipeline j waits for. */
  ghost predicate Gathered(cal: Calendar, v: View, k: Name, j: nat)
    requires v.Valid() && j < |cal.pipelines|
  {
    FollowersScan(v.events, k, LastAlways(cal.pipelines, j), v.order).Pass?
  }

  /** A leader is kept, or is the event itself, or the holder of the group lease. */
  ghost predicate LeaderFrom(v: View, k: Name, a: Status, b: Status)
    requires k in v.specs
  {
    var key := GroupLease(v.specs[k].group);
    || b.leader == a.leader
    || (a.leader.None? && b.leader == Some(k))
    || (a.leader.None? && key in v.leases && b.leader == Some(v.leases[key]))
  }

  /** An event comes to lead itself only while it holds the lease of its group, or takes it. */
  ghost predicate LeadsByLease(v: View, k: Name, a: Status, b: Status, writes: seq<Write>)
    requires k in v.specs
  {
    var key := GroupLease(v.specs[k].group);
    a.leader.None? && b.leader == Some(k) && v.specs[k].group != "" ==>
      CreateLease(key, k) in writes || (key in v.leases && v.leases[key] == k)
  }

  /** What deleting the lease takes: k leads itself, and the scan of its group passed. */
  ghost predicate MayLock(cal: Calendar, v: View, k: Name, st: Status)
    requires v.Valid() && k in v.specs
  {
    && v.specs[k].group != "" && st.leader == Some(k) && st.time.Some?
    && LockScan(cal, v, v.specs[k].group, st.time.value, v.order).Pass?
  }

  ghost predicate RunShape(cal: Calendar, v: View, k: Name, w: Write)
    requires v.Valid()
  {
    forall j: nat :: w.CreateRun? && LeaderPipeline(cal, j, w.pipeline) ==>
      w.followers == FollowersOf(v.events, k, v.order) && Gathered(cal, v, k, j)
  }

  // ------------------------------------------------------------------ one pipeline

  lemma SameFirst(a: seq<Run>, b: seq<Run>, pipeline: string)
    requires SamePipelines(a, b)
    ensures FirstRun(a, pipeline) == FirstRun(b, pipeline)
  {
    var fa, fb := FirstRun(a, pipeline), FirstRun(b, pipeline);
    if fa.Some? {
      assert b[fa.value].pipeline == pipeline;
      assert fb.Some?;
      assert !(fb.value < fa.value) && !(fa.value < fb.value);
    }
  }

  lemma OnlyStarts(cal: Calendar, a: Status, b: Status, pipeline: string, j: nat)
    requires MayAdd(a.runs, b.runs, pipeline) && Starts(cal, a, b, j)
    ensures cal.pipelines[j].name == pipeline
  {
    var x := FirstRun(b.runs, cal.pipelines[j].name).value;
    if |b.runs| == |a.runs| + 1 {
      assert forall y :: 0 <= y < |a.runs| ==> b.runs[y] == b.runs[..|a.runs|][y];
    }
  }

  /** Running pipeline i starts no other LeaderOnly pipeline, and passes its followers on. */
  lemma ExecuteShape(cal: Calendar, v: View, k: Name, st: Status, i: nat, followers: seq<Name>, now: int, gen: Name)
    requires cal.Valid() && i < |cal.pipelines|
    ensures var r := Execute(cal, v, k, st, i, followers, now, gen);
            && (r.outcome.Next? ==> forall j: nat :: Starts(cal, st, r.outcome.status, j) ==> j == i)
            && (forall w :: w in r.writes && w.CreateRun? && IsLeaderOnly(cal, w.pipeline) ==>
                 w.followers == followers && w.pipeline == cal.pipelines[i].name)
  {
    var r, p := Execute(cal, v, k, st, i, followers, now, gen), cal.pipelines[i];
    hide Execute;
    if r.outcome.Next? {
      forall j: nat | Starts(cal, st, r.outcome.status, j) ensures j == i {
        if MayAdd(st.runs, r.outcome.status.runs, p.name) {
          OnlyStarts(cal, st, r.outcome.status, p.name, j);
        } else {
          OnlyStarts(cal, st, r.outcome.status, p.rollback, j);
        }
      }
    }
  }

  // ------------------------------------------------------------------ a LeaderOnly pipeline

  /** What syncing pipeline i does to groups. */
  ghost predicate GroupShape(cal: Calendar, v: View, k: Name, st: Status, i: nat, r: StepResult)
    requires v.Valid() && k in v.events && i < |cal.pipelines|
  {
    var group := v.specs[k].group;
    var key := GroupLease(group);
    && (r.outcome.Next? ==> LeaderFrom(v, k, st, r.outcome.status))
    && (r.outcome.Next? ==> forall j: nat :: Starts(cal, st, r.outcome.status, j) ==>
         j == i && st.leader == Some(k) && Gathered(cal, v, k, j) && (group == "" || key !in r.leases))
    && (r.outcome.Next? ==> LeadsByLease(v, k, st, r.outcome.status, r.writes))
    && (key in v.leases && key !in r.leases ==> DeleteLease(key) in r.writes)
    && (key in r.leases ==> (key in v.leases && r.leases[key] == v.leases[key]) || CreateLease(key, k) in r.writes)
    && (DeleteLease(key) in r.writes ==> MayLock(cal, v, k, st))
    && (forall w :: w in r.writes ==> RunShape(cal, v, k, w))
    && (CreateLease(key, k) in r.writes ==>
         st.leader.None? && key !in v.leases && |r.writes| == 1 && r.outcome.Next? && r.outcome.status != st)
  }

  lemma GatherShape(cal: Calendar, v: View, k: Name, st: Status, i: nat, writes: seq<Write>, now: int, gen: Name)
    requires cal.Valid() && v.Valid() && k in v.events && i < |cal.pipelines| && st.leader == Some(k)
    requires v.specs[k].group == "" || GroupLease(v.specs[k].group) !in v.leases
    requires writes == [] || (writes == [DeleteLease(GroupLease(v.specs[k].group))] && MayLock(cal, v, k, st))
    ensures var r := GatherAndRun(cal, v, k, st, i, LastAlways(cal.pipelines, i), writes, now, gen);
            GroupShape(cal, v, k, st, i, r) && (writes != [] ==> writes[0] in r.writes)
  {
    hide Execute, FollowersScan, FollowersOf, IsLeaderOnly, FirstRun;
    ExecuteShape(cal, v, k, st, i, FollowersOf(v.events, k, v.order), now, gen);
    var r := GatherAndRun(cal, v, k, st, i, LastAlways(cal.pipelines, i), writes, now, gen);
    var e := Execute(cal, v, k, st, i, FollowersOf(v.events, k, v.order), now, gen);
    assert OnlyRuns(v, k, st, e);
    forall w | w in r.writes ensures RunShape(cal, v, k, w) && w != CreateLease(GroupLease(v.specs[k].group), k) {
    }
  }

  lemma LeaderOnlyShape(cal: Calendar, v: View, k: Name, st: Status, i: nat, now: int, gen: Name)
    requires cal.Valid() && v.Valid() && k in v.events && st.time.Some? && i < |cal.pipelines|
    ensures GroupShape(cal, v, k, st, i, SyncLeaderOnly(cal, v, k, st, i, LastAlways(cal.pipelines, i), now, gen))
  {
    hide GatherAndRun, LockScan, RunStatusOf, IsLeaderOnly, FollowersScan, FollowersOf;
    if st.leader == Some(k) {
      LeaderShape(cal, v, k, st, i, now, gen);
    } else {
      assert forall j: nat :: !Starts(cal, st, st, j) && !Starts(cal, st, st.(leader := Some(k)), j);
    }
  }

  lemma LeaderShape(cal: Calendar, v: View, k: Name, st: Status, i: nat, now: int, gen: Name)
    requires cal.Valid() && v.Valid() && k in v.events && st.time.Some? && i < |cal.pipelines| && st.leader == Some(k)
    ensures GroupShape(cal, v, k, st, i, SyncLeaderOnly(cal, v, k, st, i, LastAlways(cal.pipelines, i), now, gen))
  {
    hide GatherAndRun, LockScan, IsLeaderOnly, FollowersScan, FollowersOf;
    var key := GroupLease(v.specs[k].group);
    if v.specs[k].group == "" || key !in v.leases {
      GatherShape(cal, v, k, st, i, [], now, gen);
    } else {
      var unlocked := v.(leases := v.leases - {key});
      MayLockIgnoresLeases(cal, v, unlocked.leases, k, st);
      if LockScan(cal, v, v.specs[k].group, st.time.value, v.order).Pass? {
        GatherShape(cal, unlocked, k, st, i, [DeleteLease(key)], now, gen);
      }
    }
  }

  lemma SyncShape(cal: Calendar, v: View, k: Name, st: Status, i: nat, now: int, gen: Name)
    requires cal.Valid() && v.Valid() && k in v.events && st.time.Some? && i < |cal.pipelines|
    ensures GroupShape(cal, v, k, st, i, SyncPipeline(cal, v, k, st, i, LastAlways(cal.pipelines, i), now, gen))
  {
    hide SyncLeaderOnly, Execute, AfterDone, Early, GroupShape, ProbeLeader;
    var probed := ProbeLeader(cal, v, k, st);
    QuietShape(cal, v, k, st, i);
    if probed.Some? && probed.value == st {
      if cal.pipelines[i].leaderOnly {
        LeaderOnlyShape(cal, v, k, st, i, now, gen);
      } else {
        AlwaysShape(cal, v, k, st, i, now, gen);
      }
    }
  }

  /** Nothing happens to a group where nothing is written and at most the leader adopted. */
  lemma QuietShape(cal: Calendar, v: View, k: Name, st: Status, i: nat)
    requires v.Valid() && k in v.events && st.time.Some? && i < |cal.pipelines|
    ensures GroupShape(cal, v, k, st, i, Quiet(v, Halt)) && forall done :: GroupShape(cal, v, k, st, i, Quiet(v, Next(st, done)))
    ensures var probed := ProbeLeader(cal, v, k, st);
            probed.Some? ==> GroupShape(cal, v, k, st, i, Quiet(v, Next(probed.value, false)))
  {
    hide FollowersScan, FollowersOf, LockScan, SameDay;
  }

  lemma AlwaysShape(cal: Calendar, v: View, k: Name, st: Status, i: nat, now: int, gen: Name)
    requires cal.Valid() && v.Valid() && k in v.events && i < |cal.pipelines| && !cal.pipelines[i].leaderOnly
    ensures GroupShape(cal, v, k, st, i, Execute(cal, v, k, st, i, [], now, gen))
  {
    hide Execute, FollowersScan, FollowersOf, IsLeaderOnly;
    ExecuteShape(cal, v, k, st, i, [], now, gen);
    AlwaysIsNotLeaderOnly(cal, i);
    var e := Execute(cal, v, k, st, i, [], now, gen);
    assert OnlyRuns(v, k, st, e);
    forall w | w in e.writes ensures RunShape(cal, v, k, w) {
      OnlyLeaderOnlyRuns(cal, v, k, w);
    }
  }

  lemma OnlyLeaderOnlyRuns(cal: Calendar, v: View, k: Name, w: Write)
    requires v.Valid() && (w.CreateRun? ==> !IsLeaderOnly(cal, w.pipeline))
    ensures RunShape(cal, v, k, w)
  {
    hide FollowersScan, FollowersOf;
  }

  lemma AlwaysIsNotLeaderOnly(cal: Calendar, i: nat)
    requires cal.Valid() && i < |cal.pipelines| && !cal.pipelines[i].leaderOnly
    ensures !IsLeaderOnly(cal, cal.pipelines[i].name)
  {
  }

  // ------------------------------------------------------------------ the whole plan

  /** The status is written last, and right after the creation of the lease. */
  ghost predicate UpdateIsLast(plan: seq<Write>) {
    forall i :: 0 <= i < |plan| && plan[i].UpdateStatus? ==> i == |plan| - 1
  }

  ghost predicate UpdateFollows(plan: seq<Write>, w: Write) {
    forall i :: 0 <= i < |plan| && plan[i] == w ==> i == |plan| - 2 && plan[i + 1].UpdateStatus?
  }

  ghost predicate UpdateShape(cal: Calendar, v: View, k: Name, plan: seq<Write>, st': Status)
    requires v.Valid() && k in v.events
  {
    var st, key := v.events[k], GroupLease(v.specs[k].group);
    && LeaderFrom(v, k, st, st') && LeadsByLease(v, k, st, st', plan)
    && forall j: nat :: Starts(cal, st, st', j) ==>
         st.leader == Some(k) && Gathered(cal, v, k, j) && (v.specs[k].group == "" || key !in v.leases || DeleteLease(key) in plan)
  }

  ghost predicate LeaseShape(cal: Calendar, v: View, k: Name, plan: seq<Write>)
    requires v.Valid() && k in v.events
  {
    var key := GroupLease(v.specs[k].group);
    && UpdateFollows(plan, CreateLease(key, k))
    && (CreateLease(key, k) in plan ==> v.events[k].leader.None? && key !in v.leases)
    && (DeleteLease(key) in plan ==> MayLock(cal, v, k, v.events[k]))
  }

  ghost predicate PlanShape(cal: Calendar, v: View, k: Name, plan: seq<Write>)
    requires v.Valid() && k in v.events
  {
    && UpdateIsLast(plan) && LeaseShape(cal, v, k, plan)
    && (forall w :: w in plan && w.UpdateStatus? ==> UpdateShape(cal, v, k, plan, w.status))
    && (forall w :: w in plan ==> RunShape(cal, v, k, w))
  }

  lemma GatheredIgnoresLeases(cal: Calendar, v: View, leases: map<LeaseKey, Name>, k: Name, j: nat)
    requires v.Valid() && j < |cal.pipelines|
    ensures Gathered(cal, v.(leases := leases), k, j) == Gathered(cal, v, k, j)
  {
  }

  lemma {:induction false} LockIgnoresLeases(cal: Calendar, v: View, leases: map<LeaseKey, Name>, group: string, day: int, xs: seq<Name>)
    requires forall k :: k in xs ==> k in v.specs && k in v.events
    ensures LockScan(cal, v.(leases := leases), group, day, xs) == LockScan(cal, v, group, day, xs)
  {
    if xs != [] {
      LockIgnoresLeases(cal, v, leases, group, day, xs[1..]);
    }
  }

  lemma RunIgnoresLeases(cal: Calendar, v: View, leases: map<LeaseKey, Name>, k: Name, w: Write)
    requires v.Valid() && RunShape(cal, v.(leases := leases), k, w)
    ensures RunShape(cal, v, k, w)
  {
    hide FollowersScan, FollowersOf;
    forall j: nat | w.CreateRun? && LeaderPipeline(cal, j, w.pipeline) ensures Gathered(cal, v, k, j) {
      GatheredIgnoresLeases(cal, v, leases, k, j);
    }
  }

  lemma MayLockIgnoresLeases(cal: Calendar, v: View, leases: map<LeaseKey, Name>, k: Name, st: Status)
    requires v.Valid() && k in v.specs
    ensures MayLock(cal, v.(leases := leases), k, st) == MayLock(cal, v, k, st)
  {
    if st.time.Some? {
      LockIgnoresLeases(cal, v, leases, v.specs[k].group, st.time.value, v.order);
    }
  }

  lemma LeasesJoin(cal: Calendar, v: View, k: Name, i: nat, r: StepResult, rest: seq<Write>)
    requires v.Valid() && k in v.events && i < |cal.pipelines| && r.outcome == Next(v.events[k], true)
    requires GroupShape(cal, v, k, v.events[k], i, r) && LeaseShape(cal, v.(leases := r.leases), k, rest)
    ensures LeaseShape(cal, v, k, r.writes + rest)
  {
    hide RunShape, LeaderFrom, LeadsByLease, Starts, LockScan, UpdateFollows;
    var plan, key := r.writes + rest, GroupLease(v.specs[k].group);
    MayLockIgnoresLeases(cal, v, r.leases, k, v.events[k]);
    UpdateFollowsAfter(r.writes, rest, CreateLease(key, k));
    assert forall w :: w in plan ==> w in r.writes || w in rest;
  }

  lemma UpdateFollowsAfter(writes: seq<Write>, rest: seq<Write>, w: Write)
    requires w !in writes && UpdateFollows(rest, w)
    ensures UpdateFollows(writes + rest, w)
  {
    forall i | 0 <= i < |writes + rest| && (writes + rest)[i] == w ensures i >= |writes| {
    }
  }

  /** A shape found with the leases a first step left is a shape of both steps together. */
  lemma ShapeJoins(cal: Calendar, v: View, k: Name, i: nat, r: StepResult, rest: seq<Write>)
    requires v.Valid() && k in v.events && i < |cal.pipelines| && r.outcome == Next(v.events[k], true)
    requires OnlyPipeline(v, k, v.events[k], r) && GroupShape(cal, v, k, v.events[k], i, r)
    requires PlanShape(cal, v.(leases := r.leases), k, rest)
    ensures PlanShape(cal, v, k, r.writes + rest)
  {
    var plan := r.writes + rest;
    LeasesJoin(cal, v, k, i, r, rest);
    hide FollowersScan, FollowersOf, RunShape, LeaseShape, MayLock;
    forall i | 0 <= i < |plan| && plan[i].UpdateStatus? ensures i == |plan| - 1 {
      assert plan[i] in r.writes || i >= |r.writes|;
    }
    forall w | w in plan && w.UpdateStatus? ensures UpdateShape(cal, v, k, plan, w.status) {
      assert w in rest;
      assert UpdateShape(cal, v.(leases := r.leases), k, rest, w.status);
      forall j: nat | Starts(cal, v.events[k], w.status, j) ensures Gathered(cal, v, k, j) {
        GatheredIgnoresLeases(cal, v, r.leases, k, j);
      }
    }
  }

  lemma ShapeOfUpdate(cal: Calendar, v: View, k: Name, i: nat, r: StepResult)
    requires v.Valid() && k in v.events && i < |cal.pipelines| && r.outcome.Next?
    requires OnlyPipeline(v, k, v.events[k], r) && GroupShape(cal, v, k, v.events[k], i, r)
    ensures PlanShape(cal, v, k, r.writes + [UpdateStatus(k, r.outcome.status)])
  {
    hide MayLock, RunShape;
    var update := UpdateStatus(k, r.outcome.status);
    var plan := r.writes + [update];
    assert forall w :: w in plan ==> w in r.writes || w == update;
    assert RunShape(cal, v, k, update) by { UpdateIsNoRun(cal, v, k, r.outcome.status); }
    forall i | 0 <= i < |r.writes| ensures plan[i] in r.writes && !plan[i].UpdateStatus? {
      assert PipelineWrite(v.specs[k].group, k, v.events[k].runs, r.writes[i]);
    }
    assert UpdateShape(cal, v, k, plan, r.outcome.status);
  }

  lemma UpdateIsNoRun(cal: Calendar, v: View, k: Name, st: Status)
    requires v.Valid()
    ensures RunShape(cal, v, k, UpdateStatus(k, st))
  {
  }

  lemma {:induction false} RunFromShape(cal: Calendar, v: View, k: Name, i: nat, now: int, gen: Name)
    requires cal.Valid() && v.Valid() && k in v.events && v.events[k].time.Some? && i <= |cal.pipelines|
    ensures PlanShape(cal, v, k, RunFrom(cal, v, k, v.events[k], i, now, gen))
    decreases |cal.pipelines| - i
  {
    hide SyncPipeline, FollowersScan, FollowersOf, GroupShape, PlanShape;
    var st, plan := v.events[k], RunFrom(cal, v, k, v.events[k], i, now, gen);
    if i == |cal.pipelines| {
      FinishShape(cal, v, k);
    } else {
      SyncShape(cal, v, k, st, i, now, gen);
      var r := SyncPipeline(cal, v, k, st, i, LastAlways(cal.pipelines, i), now, gen);
      if r.outcome == Next(st, true) {
        RunFromShape(cal, v.(leases := r.leases), k, i + 1, now, gen);
        ShapeJoins(cal, v, k, i, r, RunFrom(cal, v.(leases := r.leases), k, st, i + 1, now, gen));
      } else if r.outcome.Halt? || r.outcome.status == st {
        NoUpdateShape(cal, v, k, i, r);
      } else {
        ShapeOfUpdate(cal, v, k, i, r);
      }
    }
  }

  lemma FinishShape(cal: Calendar, v: View, k: Name)
    requires v.Valid() && k in v.events
    ensures PlanShape(cal, v, k, [])
    ensures PlanShape(cal, v, k, [UpdateStatus(k, v.events[k].(phase := Completed))])
  {
    hide MayLock;
  }

  lemma NoUpdateShape(cal: Calendar, v: View, k: Name, i: nat, r: StepResult)
    requires v.Valid() && k in v.events && i < |cal.pipelines| && (r.outcome.Halt? || r.outcome.status == v.events[k])
    requires OnlyPipeline(v, k, v.events[k], r) && GroupShape(cal, v, k, v.events[k], i, r)
    ensures PlanShape(cal, v, k, r.writes)
  {
    hide MayLock, RunShape;
    forall i | 0 <= i < |r.writes| ensures !r.writes[i].UpdateStatus? {
      assert PipelineWrite(v.specs[k].group, k, v.events[k].runs, r.writes[i]);
    }
  }

  /** Every plan has the shape. */
  lemma PlanHasShape(cal: Calendar, v: View, k: Name, now: int, paused: bool, gen: Name)
    requires cal.Valid() && v.Valid() && k in v.events
    ensures PlanShape(cal, v, k, Plan(cal, v, k, now, paused, gen))
  {
    hide RunFrom, ProbeTime, FollowersScan, FollowersOf, PlanShape;
    var st, a := v.events[k], AcquireLease(v, k, v.events[k]);
    var probe := ProbeTime(cal, v, k, st, now);
    FinishShape(cal, v, k);
    if probe.Ok? && ProbePhase(cal, k, probe.value) != st {
      ProbeShape(cal, v, k, now);
    } else if st.time.Some? {
      if a.ok {
        RunFromShape(cal, v.(leases := a.leases), k, 0, now, gen);
        AcquireShape(cal, v, k, RunFrom(cal, v.(leases := a.leases), k, st, 0, now, gen));
      } else {
        RefusedShape(cal, v, k);
      }
    }
  }

  lemma RefusedShape(cal: Calendar, v: View, k: Name)
    requires v.Valid() && k in v.events && !AcquireLease(v, k, v.events[k]).ok
    ensures PlanShape(cal, v, k, AcquireLease(v, k, v.events[k]).writes)
  {
    hide MayLock;
  }

  lemma ProbeShape(cal: Calendar, v: View, k: Name, now: int)
    requires cal.Valid() && v.Valid() && k in v.events && ProbeTime(cal, v, k, v.events[k], now).Ok?
    ensures PlanShape(cal, v, k, [UpdateStatus(k, ProbePhase(cal, k, ProbeTime(cal, v, k, v.events[k], now).value))])
  {
    hide MayLock;
  }

  lemma AcquireShape(cal: Calendar, v: View, k: Name, rest: seq<Write>)
    requires v.Valid() && k in v.events && AcquireLease(v, k, v.events[k]).ok
    requires PlanShape(cal, v.(leases := AcquireLease(v, k, v.events[k]).leases), k, rest)
    ensures PlanShape(cal, v, k, AcquireLease(v, k, v.events[k]).writes + rest)
  {
    var a, key := AcquireLease(v, k, v.events[k]), GroupLease(v.specs[k].group);
    var plan := a.writes + rest;
    forall w | w in plan ensures RunShape(cal, v, k, w) {
      if w in rest {
        RunIgnoresLeases(cal, v, a.leases, k, w);
      }
    }
    MayLockIgnoresLeases(cal, v, a.leases, k, v.events[k]);
    hide FollowersScan, FollowersOf, RunShape, MayLock, UpdateFollows;
    UpdateFollowsAfter(a.writes, rest, CreateLease(key, k));
    forall i | 0 <= i < |plan| && plan[i].UpdateStatus? ensures i == |plan| - 1 {
      assert i >= |a.writes|;
    }
    forall w | w in plan && w.UpdateStatus? ensures UpdateShape(cal, v, k, plan, w.status) {
      assert w in rest;
      assert UpdateShape(cal, v.(leases := a.leases), k, rest, w.status);
      forall j: nat | Starts(cal, v.events[k], w.status, j) ensures Gathered(cal, v, k, j) {
        GatheredIgnoresLeases(cal, v, a.leases, k, j);
      }
    }
  }
}
