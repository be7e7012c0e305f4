/** Every write of a plan is justified at the moment the plan is made. */
module PlanSound {
  import opened Prelude
  import opened CalendarDays
  import opened CalendarTypes
  import opened EventSync
  import opened Protocol
  import opened Growth
  import opened Invariant

  /** The view a sync starts from: the caches of the state, and leases that fit. */
  ghost predicate Sees(s: System, v: View) {
    && Domains(s) && CachesLag(s) && v.Valid()
    && v.specs == s.specs && v.events == s.cache && v.tekton == s.seen
    && forall key :: key in v.leases ==> LeaseFits(s, key, v.leases[key])
  }

  ghost predicate NewName(s: System, k: Name, st: Status, gen: Name) {
    && gen in s.owner && s.owner[gen] == k
    && forall x :: 0 <= x < |st.runs| ==> st.runs[x].name != gen
  }

  ghost predicate Ready(cal: Calendar, s: System, k: Name, st: Status, gen: Name) {
    cal.Valid() && k in s.specs && GoodStatus(cal, s, k, st) && st.time.Some? && NewName(s, k, st, gen)
  }

  /** The status may replace st. */
  ghost predicate Replaces(cal: Calendar, s: System, k: Name, st: Status, new_: Status)
    requires k in s.specs
  {
    new_.rv == st.rv && Grows(st, new_) && GoodStatus(cal, s, k, new_)
  }

  // ------------------------------------------------------------------ small changes of a status

  lemma OrderKept(cal: Calendar, s: System, k: Name, a: Status, b: Status, n: nat)
    requires n <= |cal.pipelines| && PassedUpTo(cal, s, k, a, n)
    requires RunsGrow(a.runs, b.runs) && (a.leader.Some? ==> b.leader == a.leader)
    ensures PassedUpTo(cal, s, k, b, n)
  {
    forall i | 0 <= i < n ensures Passed(cal, s, k, b, i) {
      PassedGrows(cal, s, s, k, a, b, i);
    }
  }

  lemma AddRunReplaces(cal: Calendar, s: System, k: Name, st: Status, pipeline: string, gen: Name)
    requires Ready(cal, s, k, st, gen) && FirstRun(st.runs, pipeline).None?
    requires !st.phase.Completed?
    requires forall j :: 0 <= j < |cal.pipelines| && pipeline == cal.pipelines[j].name ==>
               (cal.pipelines[j].leaderOnly ==> st.leader == Some(k)) && PassedUpTo(cal, s, k, st, j)
    ensures Replaces(cal, s, k, st, AddRun(st, pipeline, gen))
  {
    var st' := AddRun(st, pipeline, gen);
    forall x, j | 0 <= x < |st'.runs| && 0 <= j < |cal.pipelines| && st'.runs[x].pipeline == cal.pipelines[j].name
      ensures (cal.pipelines[j].leaderOnly ==> st'.leader == Some(k)) && PassedUpTo(cal, s, k, st', j)
    {
      if x < |st.runs| {
        assert st.runs[x].pipeline == cal.pipelines[j].name;
      }
      OrderKept(cal, s, k, st, st', j);
    }
    if st.phase.Failed? || st.phase.Cancelled? {
      var x, j :| EndedBadly(cal, s, st, x, j, st.phase);
      assert EndedBadly(cal, s, st', x, j, st'.phase);
    }
  }

  lemma EndStays(cal: Calendar, s: System, st: Status, x: nat, status: RunStatus, y: int, j: int)
    requires x < |st.runs| && EntryTrue(s, st.runs[x].(status := status))
    requires (st.phase.Failed? || st.phase.Cancelled?) && EndedBadly(cal, s, st, y, j, st.phase)
    ensures EndedBadly(cal, s, SetRun(st, x, status), y, j, st.phase)
  {
  }

  lemma SetRunReplaces(cal: Calendar, s: System, k: Name, st: Status, x: nat, status: RunStatus)
    requires k in s.specs && GoodStatus(cal, s, k, st)
    requires x < |st.runs| && !st.runs[x].status.RunCompleted?
    requires IsSettled(st.runs[x].status) ==> IsSettled(status)
    requires EntryTrue(s, st.runs[x].(status := status))
    ensures Replaces(cal, s, k, st, SetRun(st, x, status))
  {
    var st' := SetRun(st, x, status);
    hide Passed, PassedUpTo, FirstRun, EndedBadly;
    forall y, j | 0 <= y < |st'.runs| && 0 <= j < |cal.pipelines| && st'.runs[y].pipeline == cal.pipelines[j].name
      ensures (cal.pipelines[j].leaderOnly ==> st'.leader == Some(k)) && PassedUpTo(cal, s, k, st', j)
    {
      assert st.runs[y].pipeline == cal.pipelines[j].name;
      OrderKept(cal, s, k, st, st', j);
    }
    if st.phase.Failed? || st.phase.Cancelled? {
      var y, j :| EndedBadly(cal, s, st, y, j, st.phase);
      EndStays(cal, s, st, x, status, y, j);
    }
    forall i | 0 <= i < |cal.pipelines| && RunStatusOf(st, cal.pipelines[i].name) == Some(RunCompleted)
      ensures RunStatusOf(st', cal.pipelines[i].name) == Some(RunCompleted)
    {
      CompletionGrows(st, st', cal.pipelines[i].name);
    }
  }

  lemma PhaseReplaces(cal: Calendar, s: System, k: Name, st: Status, phase: Phase)
    requires k in s.specs && GoodStatus(cal, s, k, st) && st.runs != []
    requires Terminal(st.phase) ==> Terminal(phase)
    requires phase.Failed? || phase.Cancelled? ==> exists x, j :: EndedBadly(cal, s, st, x, j, phase)
    requires phase.Completed? ==> Finished(cal, k, st)
    ensures Replaces(cal, s, k, st, st.(phase := phase))
  {
    var st' := st.(phase := phase);
    forall x, j | 0 <= x < |st'.runs| && 0 <= j < |cal.pipelines| && st'.runs[x].pipeline == cal.pipelines[j].name
      ensures (cal.pipelines[j].leaderOnly ==> st'.leader == Some(k)) && PassedUpTo(cal, s, k, st', j)
    {
      assert st.runs[x].pipeline == cal.pipelines[j].name;
      OrderKept(cal, s, k, st, st', j);
    }
    if phase.Failed? || phase.Cancelled? {
      var x, j :| EndedBadly(cal, s, st, x, j, phase);
      assert EndedBadly(cal, s, st', x, j, st'.phase);
    }
  }

  lemma LeaderReplaces(cal: Calendar, s: System, k: Name, st: Status, leader: Name)
    requires k in s.specs && GoodStatus(cal, s, k, st) && st.time.Some?
    requires st.leader.None? && LeaderTrue(s, k, st.(leader := Some(leader))) && !st.phase.Completed?
    ensures Replaces(cal, s, k, st, st.(leader := Some(leader)))
  {
    var st' := st.(leader := Some(leader));
    forall x, j | 0 <= x < |st'.runs| && 0 <= j < |cal.pipelines| && st'.runs[x].pipeline == cal.pipelines[j].name
      ensures (cal.pipelines[j].leaderOnly ==> st'.leader == Some(k)) && PassedUpTo(cal, s, k, st', j)
    {
      assert st.runs[x].pipeline == cal.pipelines[j].name;
      OrderKept(cal, s, k, st, st', j);
    }
    if st.phase.Failed? || st.phase.Cancelled? {
      var x, j :| EndedBadly(cal, s, st, x, j, st.phase);
      assert EndedBadly(cal, s, st', x, j, st'.phase);
    }
  }

  /** With one entry for a pipeline the last is the first. */
  lemma {:induction false} LastIsFirst(st: Status, runs: seq<Run>, pipeline: string)
    requires runs <= st.runs && forall x, y :: 0 <= x < y < |st.runs| ==> st.runs[x].pipeline != st.runs[y].pipeline
    requires LastCompleted(runs, pipeline)
    ensures RunStatusOf(st, pipeline) == Some(RunCompleted)
  {
    var n := |runs| - 1;
    assert runs[n] == st.runs[n];
    if runs[n].pipeline != pipeline {
      LastIsFirst(st, runs[..n], pipeline);
    }
  }

  lemma AlwaysAreFinished(cal: Calendar, s: System, k: Name, st: Status)
    requires NamesOwned(s, k, st) && AllAlwaysCompleted(cal, st) && st.leader != Some(k)
    ensures Finished(cal, k, st)
  {
    forall i | 0 <= i < |cal.pipelines| && !cal.pipelines[i].leaderOnly
      ensures RunStatusOf(st, cal.pipelines[i].name) == Some(RunCompleted)
    {
      LastIsFirst(st, st.runs, cal.pipelines[i].name);
    }
  }

  lemma StatusReplacesItself(cal: Calendar, s: System, k: Name, st: Status)
    requires k in s.specs && GoodStatus(cal, s, k, st)
    ensures Replaces(cal, s, k, st, st)
  {
  }

  lemma ReplacesTwice(cal: Calendar, s: System, k: Name, a: Status, b: Status, c: Status)
    requires k in s.specs && Replaces(cal, s, k, a, b) && Replaces(cal, s, k, b, c)
    ensures Replaces(cal, s, k, a, c)
  {
  }

  // ------------------------------------------------------------------ one pipeline

  lemma RollBackReplaces(cal: Calendar, s: System, v: View, k: Name, st: Status, i: nat, followers: seq<Name>, gen: Name)
    requires Sees(s, v) && Ready(cal, s, k, st, gen) && i < |cal.pipelines| && !st.phase.Completed?
    ensures var r := RollBack(v, k, st, cal.pipelines[i], followers, gen);
            r.outcome.Next? && Replaces(cal, s, k, st, r.outcome.status)
  {
    match FirstRun(st.runs, cal.pipelines[i].rollback)
    case None => AddRunReplaces(cal, s, k, st, cal.pipelines[i].rollback, gen);
    case Some(x) =>
      var run := st.runs[x];
      if !run.status.RunCompleted? && !run.status.RunFailed? && run.name in v.tekton {
        if Ended(v.tekton[run.name].status) || !run.status.RunCancelled? {
          SetRunReplaces(cal, s, k, st, x, v.tekton[run.name].status);
        }
      }
  }

  /** What stopped the event is not behind the pipeline it is at. */
  lemma BadRunIsHere(cal: Calendar, s: System, k: Name, st: Status, i: nat, x: nat)
    requires cal.Valid() && k in s.specs && GoodStatus(cal, s, k, st) && i < |cal.pipelines|
    requires PassedUpTo(cal, s, k, st, i)
    requires FirstRun(st.runs, cal.pipelines[i].name) == Some(x) && !st.runs[x].status.RunCompleted?
    requires st.phase.Failed? || st.phase.Cancelled?
    ensures EndedBadly(cal, s, st, x, i, st.phase)
  {
    var y, j :| EndedBadly(cal, s, st, y, j, st.phase);
    assert j < i ==> Passed(cal, s, k, st, j);
    assert PassedUpTo(cal, s, k, st, j);
    assert i < j ==> Passed(cal, s, k, st, i);
    assert st.runs[x].pipeline == cal.pipelines[i].name;
  }

  lemma SeenReplaces(cal: Calendar, s: System, v: View, k: Name, st: Status, i: nat, x: nat, followers: seq<Name>, gen: Name)
    requires Sees(s, v) && Ready(cal, s, k, st, gen) && i < |cal.pipelines| && !st.phase.Completed?
    requires PassedUpTo(cal, s, k, st, i)
    requires FirstRun(st.runs, cal.pipelines[i].name) == Some(x) && !st.runs[x].status.RunCompleted?
    requires st.runs[x].name in v.tekton
    ensures var r := ExecuteSeen(cal, v, k, st, i, x, followers, gen);
            r.outcome.Next? && Replaces(cal, s, k, st, r.outcome.status)
  {
    var run := st.runs[x];
    if st.phase.Failed? || st.phase.Cancelled? {
      BadRunIsHere(cal, s, k, st, i, x);
    }
    var state := v.tekton[run.name].status;
    var phase := if state.RunCancelled? then Cancelled else if state.RunFailed? then Failed else Running;
    if state.RunCancelled? || state.RunFailed? {
      assert EndedBadly(cal, s, st, x, i, phase);
    }
    PhaseReplaces(cal, s, k, st, phase);
    var st' := st.(phase := phase);
    var r := ExecuteSeen(cal, v, k, st, i, x, followers, gen);
    if (state.RunCancelled? || state.RunFailed?) && run.status.RunRollback? {
      RollBackReplaces(cal, s, v, k, st', i, followers, gen);
      ReplacesTwice(cal, s, k, st, st', r.outcome.status);
    } else if r.outcome.status != st' {
      SetRunReplaces(cal, s, k, st', x, r.outcome.status.runs[x].status);
      ReplacesTwice(cal, s, k, st, st', r.outcome.status);
    }
  }

  lemma ExecuteReplaces(cal: Calendar, s: System, v: View, k: Name, st: Status, i: nat, followers: seq<Name>, now: int, gen: Name)
    requires Sees(s, v) && Ready(cal, s, k, st, gen) && i < |cal.pipelines| && !st.phase.Completed?
    requires PassedUpTo(cal, s, k, st, i) && (cal.pipelines[i].leaderOnly ==> st.leader == Some(k))
    ensures var r := Execute(cal, v, k, st, i, followers, now, gen);
            && (r.outcome.Next? ==> Replaces(cal, s, k, st, r.outcome.status))
            && (r.outcome == Next(st, true) ==> Passed(cal, s, k, st, i))
  {
    hide GoodStatus, Grows, ExecuteUnseen, ExecuteSeen, NewName, FirstRun, PassedUpTo;
    match FirstRun(st.runs, cal.pipelines[i].name)
    case None => AddFirstRun(cal, s, k, st, i, gen);
    case Some(x) =>
      StatusReplacesItself(cal, s, k, st);
      if !st.runs[x].status.RunCompleted? {
        if st.runs[x].name in v.tekton {
          SeenReplaces(cal, s, v, k, st, i, x, followers, gen);
          SeenChanges(cal, v, k, st, i, x, followers, gen);
        } else {
          UnseenReplaces(cal, s, v, k, st, i, x, followers, now, gen);
        }
      }
  }

  /** Tekton's completion is news to an entry that is not completed. */
  lemma SeenChanges(cal: Calendar, v: View, k: Name, st: Status, i: nat, x: nat, followers: seq<Name>, gen: Name)
    requires i < |cal.pipelines| && x < |st.runs| && st.runs[x].name in v.tekton && !st.runs[x].status.RunCompleted?
    ensures ExecuteSeen(cal, v, k, st, i, x, followers, gen).outcome != Next(st, true)
  {
    hide RollBack;
    assert SetRun(st.(phase := Running), x, RunCompleted).runs[x] != st.runs[x];
    RollBackGoesOn(v, k, st.(phase := Cancelled), cal.pipelines[i], followers, gen);
    RollBackGoesOn(v, k, st.(phase := Failed), cal.pipelines[i], followers, gen);
  }

  lemma RollBackGoesOn(v: View, k: Name, st: Status, p: Pipeline, followers: seq<Name>, gen: Name)
    ensures RollBack(v, k, st, p, followers, gen).outcome.Next? && !RollBack(v, k, st, p, followers, gen).outcome.done
  {
  }

  lemma AddFirstRun(cal: Calendar, s: System, k: Name, st: Status, i: nat, gen: Name)
    requires Ready(cal, s, k, st, gen) && i < |cal.pipelines| && !st.phase.Completed?
    requires FirstRun(st.runs, cal.pipelines[i].name).None?
    requires PassedUpTo(cal, s, k, st, i) && (cal.pipelines[i].leaderOnly ==> st.leader == Some(k))
    ensures Replaces(cal, s, k, st, AddRun(st, cal.pipelines[i].name, gen)) && AddRun(st, cal.pipelines[i].name, gen) != st
  {
    assert |AddRun(st, cal.pipelines[i].name, gen).runs| == |st.runs| + 1;
    hide Replaces, GoodStatus, NewName;
    AddRunReplaces(cal, s, k, st, cal.pipelines[i].name, gen);
  }

  lemma UnseenReplaces(cal: Calendar, s: System, v: View, k: Name, st: Status, i: nat, x: nat, followers: seq<Name>, now: int, gen: Name)
    requires Sees(s, v) && Ready(cal, s, k, st, gen) && i < |cal.pipelines| && !st.phase.Completed?
    requires FirstRun(st.runs, cal.pipelines[i].name) == Some(x) && st.runs[x].name !in v.tekton && !st.runs[x].status.RunCompleted?
    requires PassedUpTo(cal, s, k, st, i) && (cal.pipelines[i].leaderOnly ==> st.leader == Some(k))
    ensures var r := ExecuteUnseen(cal, v, k, st, i, x, followers, now, gen);
            r.outcome.Next? ==> Replaces(cal, s, k, st, r.outcome.status) && !r.outcome.done
  {
    hide RollBack;
    StatusReplacesItself(cal, s, k, st);
    if st.runs[x].status.RunRollback? {
      RollBackReplaces(cal, s, v, k, st, i, followers, gen);
    }
  }

  lemma GatherReplaces(cal: Calendar, s: System, v: View, k: Name, st: Status, i: nat, writes: seq<Write>, now: int, gen: Name)
    requires Sees(s, v) && Ready(cal, s, k, st, gen) && i < |cal.pipelines| && !st.phase.Completed? && k in v.events
    requires PassedUpTo(cal, s, k, st, i) && st.leader == Some(k)
    ensures var r := GatherAndRun(cal, v, k, st, i, LastAlways(cal.pipelines, i), writes, now, gen);
            && (r.outcome.Next? ==> Replaces(cal, s, k, st, r.outcome.status))
            && (r.outcome == Next(st, true) ==> Passed(cal, s, k, st, i))
  {
    ExecuteReplaces(cal, s, v, k, st, i, FollowersOf(v.events, k, v.order), now, gen);
  }

  lemma SeesFewerLeases(s: System, v: View, key: LeaseKey)
    requires Sees(s, v)
    ensures Sees(s, v.(leases := v.leases - {key}))
  {
  }

  lemma ElectReplaces(cal: Calendar, s: System, v: View, k: Name, st: Status, gen: Name)
    requires Sees(s, v) && Ready(cal, s, k, st, gen) && !st.phase.Completed? && k in v.events && st.leader.None?
    ensures var r := LeaderElect(v, k, st);
            r.outcome.Next? && !r.outcome.done && Replaces(cal, s, k, st, r.outcome.status)
  {
    var key := GroupLease(v.specs[k].group);
    var leader := if v.specs[k].group != "" && key in v.leases then v.leases[key] else k;
    assert key in v.leases ==> LeaseFits(s, key, v.leases[key]);
    LeaderReplaces(cal, s, k, st, leader);
  }

  lemma LeaderOnlyReplaces(cal: Calendar, s: System, v: View, k: Name, st: Status, i: nat, now: int, gen: Name)
    requires Sees(s, v) && Ready(cal, s, k, st, gen) && i < |cal.pipelines| && !st.phase.Completed? && k in v.events
    requires PassedUpTo(cal, s, k, st, i) && cal.pipelines[i].leaderOnly
    ensures var r := SyncLeaderOnly(cal, v, k, st, i, LastAlways(cal.pipelines, i), now, gen);
            && (r.outcome.Next? ==> Replaces(cal, s, k, st, r.outcome.status))
            && (r.outcome == Next(st, true) ==> Passed(cal, s, k, st, i))
  {
    hide GatherAndRun, GoodStatus, LockScan, NewName, RunsGrow;
    StatusReplacesItself(cal, s, k, st);
    var key := GroupLease(v.specs[k].group);
    var r := SyncLeaderOnly(cal, v, k, st, i, LastAlways(cal.pipelines, i), now, gen);
    if st.leader.None? {
      ElectReplaces(cal, s, v, k, st, gen);
      assert r == LeaderElect(v, k, st);
    } else if st.leader != Some(k) {
      if st.leader.value in v.events {
        CompletionGrows(s.cache[st.leader.value], s.events[st.leader.value], cal.pipelines[i].name);
      }
    } else if key !in v.leases || v.specs[k].group == "" {
      GatherReplaces(cal, s, v, k, st, i, [], now, gen);
    } else {
      SeesFewerLeases(s, v, key);
      GatherReplaces(cal, s, v.(leases := v.leases - {key}), k, st, i, [DeleteLease(key)], now, gen);
    }
  }

  lemma SyncReplaces(cal: Calendar, s: System, v: View, k: Name, st: Status, i: nat, now: int, gen: Name)
    requires Sees(s, v) && Ready(cal, s, k, st, gen) && i < |cal.pipelines| && !st.phase.Completed? && k in v.events
    requires PassedUpTo(cal, s, k, st, i)
    ensures var r := SyncPipeline(cal, v, k, st, i, LastAlways(cal.pipelines, i), now, gen);
            && (r.outcome.Next? ==> Replaces(cal, s, k, st, r.outcome.status))
            && (r.outcome == Next(st, true) ==> Passed(cal, s, k, st, i))
  {
    hide Execute, SyncLeaderOnly, AfterDone, Early, Replaces, GoodStatus, Passed;
    StatusReplacesItself(cal, s, k, st);
    var key := GroupLease(v.specs[k].group);
    var probed := ProbeLeader(cal, v, k, st);
    if probed.Some? && probed.value != st {
      assert LeaseFits(s, key, v.leases[key]);
      LeaderReplaces(cal, s, k, st, v.leases[key]);
    } else if cal.pipelines[i].leaderOnly {
      LeaderOnlyReplaces(cal, s, v, k, st, i, now, gen);
    } else {
      ExecuteReplaces(cal, s, v, k, st, i, [], now, gen);
    }
  }

  // ------------------------------------------------------------------ the other writes

  lemma PipelineWriteJustified(cal: Calendar, s: System, k: Name, w: Write)
    requires Domains(s) && CachesLag(s) && k in s.cache
    requires PipelineWrite(s.specs[k].group, k, s.cache[k].runs, w)
    ensures Justified(cal, s, k, w)
  {
    if w.CreateRun? {
      var x :| 0 <= x < |s.cache[k].runs| && s.cache[k].runs[x].name == w.name && s.cache[k].runs[x].pipeline == w.pipeline;
    }
  }

  /** Either the status write, made from the version the sync read, or justified already. */
  ghost predicate WriteOk(cal: Calendar, s: System, k: Name, st: Status, w: Write)
    requires k in s.specs
  {
    if w.UpdateStatus? then w.event == k && w.status.rv == st.rv else Justified(cal, s, k, w)
  }

  lemma SyncSees(cal: Calendar, s: System, v: View, k: Name, i: nat, now: int, gen: Name)
    requires cal.Valid() && Sees(s, v) && k in v.events && v.events[k].time.Some? && i < |cal.pipelines|
    ensures var r := SyncPipeline(cal, v, k, v.events[k], i, LastAlways(cal.pipelines, i), now, gen);
            && Sees(s, v.(leases := r.leases))
            && (forall w :: w in r.writes ==> !w.UpdateStatus? && WriteOk(cal, s, k, v.events[k], w))
  {
    var r := SyncPipeline(cal, v, k, v.events[k], i, LastAlways(cal.pipelines, i), now, gen);
    forall w | w in r.writes ensures WriteOk(cal, s, k, v.events[k], w) {
      PipelineWriteJustified(cal, s, k, w);
    }
    assert OnlyPipeline(v, k, v.events[k], r);
    forall key | key in r.leases ensures LeaseFits(s, key, r.leases[key]) {
    }
  }

  lemma {:induction false} RunFromWrites(cal: Calendar, s: System, v: View, k: Name, i: nat, now: int, gen: Name)
    requires cal.Valid() && Sees(s, v) && k in v.events && v.events[k].time.Some? && i <= |cal.pipelines|
    ensures forall w :: w in RunFrom(cal, v, k, v.events[k], i, now, gen) ==> WriteOk(cal, s, k, v.events[k], w)
    decreases |cal.pipelines| - i
  {
    hide SyncPipeline;
    hide Justified;
    hide GoodStatus;
    var st, plan := v.events[k], RunFrom(cal, v, k, v.events[k], i, now, gen);
    if i < |cal.pipelines| {
      SyncSees(cal, s, v, k, i, now, gen);
      var r := SyncPipeline(cal, v, k, st, i, LastAlways(cal.pipelines, i), now, gen);
      if r.outcome == Next(st, true) {
        var rest := RunFrom(cal, v.(leases := r.leases), k, st, i + 1, now, gen);
        RunFromWrites(cal, s, v.(leases := r.leases), k, i + 1, now, gen);
        assert plan == r.writes + rest;
      } else if r.outcome.Halt? || r.outcome.status == st {
        assert plan == r.writes;
      } else {
        assert plan == r.writes + [UpdateStatus(k, r.outcome.status)];
      }
    }
  }

  lemma FinishReplaces(cal: Calendar, s: System, k: Name, st: Status, gen: Name)
    requires Ready(cal, s, k, st, gen) && cal.HasAlways() && PassedUpTo(cal, s, k, st, |cal.pipelines|)
    ensures Replaces(cal, s, k, st, st.(phase := Completed))
  {
    forall i | 0 <= i < |cal.pipelines| && (!cal.pipelines[i].leaderOnly || st.leader == Some(k))
      ensures RunStatusOf(st, cal.pipelines[i].name) == Some(RunCompleted)
    {
      assert Passed(cal, s, k, st, i);
    }
    var i :| 0 <= i < |cal.pipelines| && !cal.pipelines[i].leaderOnly;
    assert FirstRun(st.runs, cal.pipelines[i].name).Some?;
    PhaseReplaces(cal, s, k, st, Completed);
  }

  lemma {:induction false} RunFromReplaces(cal: Calendar, s: System, v: View, k: Name, st: Status, i: nat, now: int, gen: Name)
    requires Sees(s, v) && Ready(cal, s, k, st, gen) && cal.HasAlways()
    requires i <= |cal.pipelines| && !st.phase.Completed? && k in v.events && st == v.events[k]
    requires PassedUpTo(cal, s, k, st, i)
    ensures forall w :: w in RunFrom(cal, v, k, st, i, now, gen) && w.UpdateStatus? ==> Replaces(cal, s, k, st, w.status)
    decreases |cal.pipelines| - i
  {
    hide SyncPipeline, Replaces, GoodStatus, LeaseFits;
    if i == |cal.pipelines| {
      FinishReplaces(cal, s, k, st, gen);
    } else {
      SyncReplaces(cal, s, v, k, st, i, now, gen);
      SyncSees(cal, s, v, k, i, now, gen);
      var r := SyncPipeline(cal, v, k, st, i, LastAlways(cal.pipelines, i), now, gen);
      if r.outcome == Next(st, true) {
        RunFromReplaces(cal, s, v.(leases := r.leases), k, st, i + 1, now, gen);
      }
    }
  }

  // ------------------------------------------------------------------ the whole plan

  lemma ProbeReplaces(cal: Calendar, s: System, v: View, k: Name, now: int)
    requires cal.Valid() && Sees(s, v) && k in v.events && GoodStatus(cal, s, k, v.events[k])
    ensures var probe := ProbeTime(cal, v, k, v.events[k], now);
            probe.Ok? ==> Replaces(cal, s, k, v.events[k], ProbePhase(cal, k, probe.value))
  {
    var st, probe := v.events[k], ProbeTime(cal, v, k, v.events[k], now);
    if probe.Ok? {
      var timed := probe.value;
      assert timed == st.(time := timed.time) && (st.time.Some? ==> timed.time.Some?);
      TimeReplaces(cal, s, k, st, timed.time);
      if timed.runs != [] && ProbePhase(cal, k, timed) != timed {
        AlwaysAreFinished(cal, s, k, timed);
        PhaseReplaces(cal, s, k, timed, Completed);
      }
    }
  }

  lemma TimeReplaces(cal: Calendar, s: System, k: Name, st: Status, time: Option<int>)
    requires k in s.specs && GoodStatus(cal, s, k, st) && (st.time.Some? ==> time.Some?)
    ensures Replaces(cal, s, k, st, st.(time := time))
    ensures st.runs == [] ==> Replaces(cal, s, k, st, st.(time := time, phase := Pending))
  {
    var st' := st.(time := time);
    forall x, j | 0 <= x < |st'.runs| && 0 <= j < |cal.pipelines| && st'.runs[x].pipeline == cal.pipelines[j].name
      ensures (cal.pipelines[j].leaderOnly ==> st'.leader == Some(k)) && PassedUpTo(cal, s, k, st', j)
    {
      assert st.runs[x].pipeline == cal.pipelines[j].name;
      OrderKept(cal, s, k, st, st', j);
    }
    if st.phase.Failed? || st.phase.Cancelled? {
      var x, j :| EndedBadly(cal, s, st, x, j, st.phase);
      assert EndedBadly(cal, s, st', x, j, st'.phase);
    }
  }

  lemma AcquireSees(cal: Calendar, s: System, v: View, k: Name)
    requires Sees(s, v) && k in v.events
    ensures var a := AcquireLease(v, k, v.events[k]);
            Sees(s, v.(leases := a.leases)) && forall w :: w in a.writes ==> !w.UpdateStatus? && Justified(cal, s, k, w)
  {
    var key := NameLease(v.specs[k].title);
    assert key in v.leases ==> LeaseFits(s, key, v.leases[key]);
    assert LeaseFits(s, key, k);
  }

  lemma PlanWrites(cal: Calendar, s: System, v: View, k: Name, now: int, paused: bool, gen: Name)
    requires cal.Valid() && Sees(s, v) && k in s.specs
    ensures forall w :: w in Plan(cal, v, k, now, paused, gen) ==> k in v.events && WriteOk(cal, s, k, v.events[k], w)
  {
    hide RunFrom, AcquireLease, Justified, ProbeTime;
    if k in v.events {
      var st, a := v.events[k], AcquireLease(v, k, v.events[k]);
      var probe := ProbeTime(cal, v, k, st, now);
      ProbeKeepsVersion(cal, v, k, st, now);
      AcquireSees(cal, s, v, k);
      if st.time.Some? {
        RunFromWrites(cal, s, v.(leases := a.leases), k, 0, now, gen);
      }
    }
  }

  lemma ProbeKeepsVersion(cal: Calendar, v: View, k: Name, st: Status, now: int)
    requires Feasible(cal.days) && v.Valid() && k in v.events
    ensures var probe := ProbeTime(cal, v, k, st, now);
            probe.Ok? ==> ProbePhase(cal, k, probe.value).rv == st.rv
  {
  }

  lemma PlanReplaces(cal: Calendar, s: System, v: View, k: Name, now: int, paused: bool, gen: Name)
    requires cal.Valid() && cal.HasAlways() && Sees(s, v) && k in v.events
    requires GoodStatus(cal, s, k, v.events[k]) && NewName(s, k, v.events[k], gen)
    ensures forall w :: w in Plan(cal, v, k, now, paused, gen) && w.UpdateStatus? ==>
              Replaces(cal, s, k, v.events[k], w.status)
  {
    hide RunFrom, AcquireLease, Justified, ProbeTime, Replaces;
    var st, a := v.events[k], AcquireLease(v, k, v.events[k]);
    var probe := ProbeTime(cal, v, k, st, now);
    ProbeReplaces(cal, s, v, k, now);
    AcquireSees(cal, s, v, k);
    if st.time.Some? && !st.phase.Completed? {
      RunFromReplaces(cal, s, v.(leases := a.leases), k, st, 0, now, gen);
    }
  }

  /** Whatever a sync sees, and however old it is, every write it plans is justified. */
  lemma PlanJustified(cal: Calendar, s: System, order: seq<Name>, k: Name, now: int, paused: bool, gen: Name)
    requires cal.Valid() && cal.HasAlways() && Inv(cal, s) && k in s.specs && gen !in s.owner && ViewOf(s, order).Valid()
    ensures var t := s.(owner := s.owner[gen := k]);
            forall w :: w in Plan(cal, ViewOf(s, order), k, now, paused, gen) ==> Justified(cal, t, k, w)
  {
    hide Plan, GoodStatus, Grows;
    var t, v := s.(owner := s.owner[gen := k]), ViewOf(s, order);
    NamingExtends(s, gen, k);
    PlanWrites(cal, t, v, k, now, paused, gen);
    if k in v.events && v.events[k].rv == s.events[k].rv {
      GoodStays(cal, s, t, k, s.events[k]);
      NewNameIsNew(cal, s, k, gen);
      PlanReplaces(cal, t, v, k, now, paused, gen);
    }
    forall w | w in Plan(cal, v, k, now, paused, gen) ensures Justified(cal, t, k, w) {
      assert WriteOk(cal, t, k, v.events[k], w);
    }
  }

  lemma NamingExtends(s: System, gen: Name, k: Name)
    requires gen !in s.owner
    ensures Extends(s, s.(owner := s.owner[gen := k]))
  {
  }

  lemma NewNameIsNew(cal: Calendar, s: System, k: Name, gen: Name)
    requires k in s.specs && k in s.events && GoodStatus(cal, s, k, s.events[k]) && gen !in s.owner
    ensures NewName(s.(owner := s.owner[gen := k]), k, s.events[k], gen)
  {
  }
}
