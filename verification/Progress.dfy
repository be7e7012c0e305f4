/** No deadlock: in a cohort, the events that share one leader, while nothing fails and
    someone is not done, the sync of some member, or of an event the cohort waits for, has
    something to write, or Tekton has something to run. */
module Progress {
  import opened Prelude
  import opened CalendarDays
  import opened CalendarHours
  import opened CalendarTypes
  import opened EventSync
  import opened Protocol
  import opened Invariant
  import opened Safety
  import opened Theorems
  import opened Segments
  import opened Undisturbed

  // ------------------------------------------------------------------ a cohort, as a sync sees it

  predicate InCohort(v: View, l: Name, k: Name) {
    k in v.events && v.events[k].leader == Some(l)
  }

  /** Some runAfter entry of k names p. */
  predicate RunsAfter(v: View, k: Name, p: Name)
    requires k in v.specs && p in v.specs
  {
    v.specs[p].title in Titles(v.specs[k].after)
  }

  predicate GoodOffset(o: Offset) {
    o.NoOffset? || (o.Offset? && !o.clock.BadClock?)
  }

  /** Events run after events of the cohort alone, without a cycle, and wait for no pipeline
      by name; no two listed events share the title of a member. */
  ghost predicate OrderedCohort(v: View, l: Name, rank: Name -> nat)
    requires v.Valid()
  {
    && (forall k, p :: InCohort(v, l, k) && p in v.events && RunsAfter(v, k, p) ==> InCohort(v, l, p) && rank(p) < rank(k))
    && (forall k, a :: InCohort(v, l, k) && a in v.specs[k].after ==> a.pipeline == "" && GoodOffset(a.offset))
    && (forall k, p :: InCohort(v, l, k) && p in v.events && v.specs[p].title == v.specs[k].title ==> p == k)
  }

  /** Nothing has failed or been cancelled. */
  ghost predicate NoFailures(v: View, l: Name) {
    forall k :: InCohort(v, l, k) ==>
      && !v.events[k].phase.Failed? && !v.events[k].phase.Cancelled?
      && forall r :: r in v.events[k].runs ==>
           && !r.status.RunFailed? && !r.status.RunCancelled? && !r.status.RunRollback?
           && (r.name in v.tekton ==> !v.tekton[r.name].status.RunFailed? && !v.tekton[r.name].status.RunCancelled?)
  }

  /** All waiting times are over, and pipelines may start at this hour. */
  ghost predicate Due(cal: Calendar, v: View, l: Name, now: int)
    requires v.Valid() && Feasible(cal.days)
  {
    && WaitForHours(now, cal.hours, cal.zone) == 0
    && forall k :: InCohort(v, l, k) ==>
         && v.specs[k].created + 30 * SECOND <= now
         && (v.events[k].time.Some? ==> forall i :: 0 <= i < |cal.pipelines| ==> !Early(cal, v.events[k], i, now))
  }

  /** Leases of deleted events are collected. In a daily group the lease is held on l's day. */
  ghost predicate LeasesSettled(cal: Calendar, v: View, l: Name)
    requires v.Valid() && l in v.specs && l in v.events
  {
    var key := GroupLease(v.specs[l].group);
    && (forall title :: NameLease(title) in v.leases ==>
         v.leases[NameLease(title)] in v.events && v.specs[v.leases[NameLease(title)]].title == title)
    && (key in v.leases ==> v.leases[key] in v.events && (cal.daily ==> OneDay(cal, v, v.leases[key], l)))
  }

  ghost predicate OneDay(cal: Calendar, v: View, a: Name, b: Name)
    requires a in v.events && b in v.events
  {
    v.events[a].time.Some? && v.events[b].time.Some? && SameDay(v.events[a].time.value, v.events[b].time.value, cal.zone)
  }

  /** An event of l's group that has no leader yet. */
  ghost predicate Leaderless(v: View, l: Name, p: Name)
    requires l in v.specs
  {
    && p in v.events && p in v.specs && v.specs[l].group != "" && v.specs[p].group == v.specs[l].group
    && v.events[p].leader.None?
  }

  ghost predicate Timeless(v: View, p: Name) {
    p in v.events && p in v.specs && v.events[p].time.None?
  }

  /** Leaderless events of the group are not over and have a title of their own. Events without a
      time have been there for a while, and wait for one another without a cycle. */
  ghost predicate PeersReady(v: View, l: Name, rank: Name -> nat, now: int)
    requires v.Valid() && l in v.specs
  {
    && (forall p :: Leaderless(v, l, p) ==> !v.events[p].phase.Completed? && OwnTitle(v, p) && GoodOffsets(v, p))
    && (forall p :: Timeless(v, p) ==> v.specs[p].created + 15 * SECOND <= now && GoodOffsets(v, p))
    && (forall p, q :: Timeless(v, p) && Timeless(v, q) && RunsAfter(v, p, q) ==> rank(q) < rank(p))
  }

  predicate OwnTitle(v: View, k: Name)
    requires v.Valid() && k in v.specs
  {
    forall p | p in v.events && v.specs[p].title == v.specs[k].title :: p == k
  }

  predicate GoodOffsets(v: View, k: Name)
    requires k in v.specs
  {
    forall a | a in v.specs[k].after :: GoodOffset(a.offset)
  }

  /** What every reachable state knows of statuses. */
  ghost predicate Truthful(cal: Calendar, v: View, l: Name) {
    && (forall k :: InCohort(v, l, k) ==>
         && v.events[k].time.Some?
         && (v.events[k].phase.Completed? ==> Finished(cal, k, v.events[k])))
    && (forall k :: k in v.events && v.events[k].time.None? ==> v.events[k].runs == [] && v.events[k].leader.None?)
    && (forall k :: k in v.events && v.events[k].runs == [] ==> v.events[k].phase.Unset? || v.events[k].phase.Pending?)
  }

  ghost predicate Unhindered(cal: Calendar, v: View, l: Name, rank: Name -> nat, now: int) {
    && cal.Valid() && v.Valid() && InCohort(v, l, l)
    && OrderedCohort(v, l, rank) && NoFailures(v, l) && Due(cal, v, l, now)
    && LeasesSettled(cal, v, l) && PeersReady(v, l, rank, now)
  }

  /** Nothing keeps l from locking its group, if it is not locked already. */
  ghost predicate LockClear(cal: Calendar, v: View, l: Name)
    requires v.Valid() && l in v.events
  {
    v.specs[l].group != "" && GroupLease(v.specs[l].group) in v.leases && v.events[l].time.Some? ==>
      LockScan(cal, v, v.specs[l].group, v.events[l].time.value, v.order).Pass?
  }

  ghost predicate Ready(cal: Calendar, v: View, l: Name, rank: Name -> nat, now: int) {
    Unhindered(cal, v, l, rank, now) && Truthful(cal, v, l) && LockClear(cal, v, l)
  }

  /** The lister shows k past pipeline i. */
  predicate PassedIn(cal: Calendar, v: View, l: Name, k: Name, i: nat)
    requires i < |cal.pipelines| && k in v.events && l in v.events
  {
    RunStatusOf(v.events[if cal.pipelines[i].leaderOnly then l else k], cal.pipelines[i].name) == Some(RunCompleted)
  }

  /** Tekton is at work on pipeline i of k. */
  predicate Working(cal: Calendar, v: View, k: Name, i: nat)
    requires i < |cal.pipelines| && k in v.events
  {
    match FirstRun(v.events[k].runs, cal.pipelines[i].name)
    case None => false
    case Some(x) => v.events[k].runs[x].name in v.tekton && !Ended(v.tekton[v.events[k].runs[x].name].status)
  }

  ghost predicate CanAdvance(cal: Calendar, v: View, k: Name, now: int, gen: Name)
    requires cal.Valid() && v.Valid() && k in v.events
  {
    || Plan(cal, v, k, now, false, gen) != []
    || exists i: nat :: i < |cal.pipelines| && Working(cal, v, k, i)
  }

  // ------------------------------------------------------------------ one pipeline

  lemma ExecuteDone(cal: Calendar, v: View, k: Name, i: nat, followers: seq<Name>, now: int, gen: Name)
    requires i < |cal.pipelines| && k in v.events
    requires RunStatusOf(v.events[k], cal.pipelines[i].name) == Some(RunCompleted)
    ensures Execute(cal, v, k, v.events[k], i, followers, now, gen) == StepResult([], v.leases, Next(v.events[k], true))
  {
  }

  /** Running a pipeline that is not completed writes something, or Tekton is at work. */
  lemma ExecuteMoves(cal: Calendar, v: View, l: Name, k: Name, i: nat, followers: seq<Name>, now: int, gen: Name)
    requires i < |cal.pipelines| && InCohort(v, l, k) && NoFailures(v, l) && WaitForHours(now, cal.hours, cal.zone) == 0
    requires RunStatusOf(v.events[k], cal.pipelines[i].name) != Some(RunCompleted)
    ensures var r := Execute(cal, v, k, v.events[k], i, followers, now, gen);
            r.writes != [] || (r.outcome.Next? && r.outcome.status != v.events[k]) || Working(cal, v, k, i)
  {
    var st, p := v.events[k], cal.pipelines[i];
    var first := FirstRun(st.runs, p.name);
    if first.Some? {
      var x := first.value;
      var run := st.runs[x];
      assert run in st.runs;
      if run.name in v.tekton && v.tekton[run.name].status.RunCompleted? {
        assert SetRun(st.(phase := Running), x, RunCompleted).runs[x] != st.runs[x];
      }
    } else {
      assert |AddRun(st, p.name, gen).runs| != |st.runs|;
    }
  }

  // ------------------------------------------------------------------ runAfter

  lemma {:induction false} NoPipelineNamed(after: seq<RunAfter>, title: string)
    requires forall a :: a in after ==> a.pipeline == ""
    ensures AfterPipeline(after, title) == ""
  {
    if after != [] {
      NoPipelineNamed(after[..|after| - 1], title);
    }
  }

  lemma AfterReady(cal: Calendar, v: View, l: Name, rank: Name -> nat, k: Name, i: nat)
    requires cal.Valid() && v.Valid() && InCohort(v, l, l) && InCohort(v, l, k) && OrderedCohort(v, l, rank) && i < |cal.pipelines|
    requires forall p :: p in v.events && RunsAfter(v, k, p) ==> PassedIn(cal, v, l, p, SegmentEnd(cal.pipelines, i))
    ensures AfterDone(cal, v, k, v.events[k], i)
  {
    hide GetTimeWithOffset, Latest;
    EndIsLast(cal.pipelines, i);
    forall e | e in v.events && RunsAfter(v, k, e) ensures PredecessorDone(cal, v, k, v.events[k], i, e) {
      NoPipelineNamed(v.specs[k].after, v.specs[e].title);
      assert PassedIn(cal, v, l, e, SegmentEnd(cal.pipelines, i));
    }
  }

  // ------------------------------------------------------------------ a LeaderOnly pipeline

  lemma {:induction false} FollowersPass(events: map<Name, Status>, l: Name, last: string, xs: seq<Name>)
    requires forall k :: k in xs ==> k in events
    requires forall k :: k in xs && events[k].leader == Some(l) ==>
               events[k].time.Some? && (last == "" || RunStatusOf(events[k], last) == Some(RunCompleted))
    ensures FollowersScan(events, l, last, xs).Pass?
  {
    if xs != [] {
      FollowersPass(events, l, last, xs[1..]);
    }
  }

  lemma {:induction false} LastIsAlways(cal: Calendar, j: nat)
    requires cal.Valid() && j <= |cal.pipelines|
    ensures LastAlways(cal.pipelines, j) != "" ==>
              exists i :: 0 <= i < j && !cal.pipelines[i].leaderOnly && cal.pipelines[i].name == LastAlways(cal.pipelines, j)
  {
    if j > 0 && cal.pipelines[j - 1].leaderOnly {
      LastIsAlways(cal, j - 1);
    }
  }

  /** All members have come to pipeline i. */
  ghost predicate AllPassed(cal: Calendar, v: View, l: Name, i: nat)
    requires i <= |cal.pipelines| && l in v.events
  {
    forall m, j: nat :: InCohort(v, l, m) && j < i ==> PassedIn(cal, v, l, m, j)
  }

  lemma MembersPass(cal: Calendar, v: View, l: Name, i: nat)
    requires cal.Valid() && v.Valid() && l in v.events && i < |cal.pipelines| && AllPassed(cal, v, l, i) && Truthful(cal, v, l)
    ensures FollowersScan(v.events, l, LastAlways(cal.pipelines, i), v.order).Pass?
  {
    var last := LastAlways(cal.pipelines, i);
    LastIsAlways(cal, i);
    hide Finished, RunStatusOf;
    if last != "" {
      var j :| 0 <= j < i && !cal.pipelines[j].leaderOnly && cal.pipelines[j].name == last;
      forall k | k in v.order && v.events[k].leader == Some(l) ensures RunStatusOf(v.events[k], last) == Some(RunCompleted) {
        assert InCohort(v, l, k) && PassedIn(cal, v, l, k, j);
      }
    }
    assert forall k :: k in v.order && v.events[k].leader == Some(l) ==> InCohort(v, l, k);
    FollowersPass(v.events, l, last, v.order);
  }

  /** The step is through and nothing is written, or something is to be done. */
  ghost predicate ThroughOrMoves(cal: Calendar, v: View, l: Name, k: Name, i: nat, r: StepResult)
    requires i < |cal.pipelines| && k in v.events && l in v.events
  {
    || r.writes != []
    || (if PassedIn(cal, v, l, k, i) then r.outcome == Next(v.events[k], true) && r.leases == v.leases
        else (r.outcome.Next? && r.outcome.status != v.events[k]) || Working(cal, v, k, i))
  }

  lemma GatherMoves(cal: Calendar, v: View, l: Name, i: nat, now: int, gen: Name)
    requires cal.Valid() && v.Valid() && InCohort(v, l, l) && i < |cal.pipelines| && cal.pipelines[i].leaderOnly
    requires NoFailures(v, l) && WaitForHours(now, cal.hours, cal.zone) == 0 && Truthful(cal, v, l) && AllPassed(cal, v, l, i)
    ensures ThroughOrMoves(cal, v, l, l, i, GatherAndRun(cal, v, l, v.events[l], i, LastAlways(cal.pipelines, i), [], now, gen))
  {
    hide Execute, Working, RunStatusOf, FollowersScan, NoFailures, Truthful, AllPassed, WaitForHours;
    MembersPass(cal, v, l, i);
    var followers := FollowersOf(v.events, l, v.order);
    if PassedIn(cal, v, l, l, i) {
      ExecuteDone(cal, v, l, i, followers, now, gen);
    } else {
      ExecuteMoves(cal, v, l, l, i, followers, now, gen);
    }
  }

  /** The leader at a LeaderOnly pipeline that all members have come to. */
  lemma LeaderMoves(cal: Calendar, v: View, l: Name, i: nat, now: int, gen: Name)
    requires cal.Valid() && v.Valid() && InCohort(v, l, l) && i < |cal.pipelines| && cal.pipelines[i].leaderOnly
    requires NoFailures(v, l) && Due(cal, v, l, now) && LockClear(cal, v, l) && Truthful(cal, v, l) && AllPassed(cal, v, l, i)
    ensures ThroughOrMoves(cal, v, l, l, i, SyncLeaderOnly(cal, v, l, v.events[l], i, LastAlways(cal.pipelines, i), now, gen))
  {
    hide Execute, Working, RunStatusOf, Early, Finished, PassedIn, GatherAndRun, AllPassed, FollowersScan, NoFailures, WaitForHours;
    if v.specs[l].group == "" || GroupLease(v.specs[l].group) !in v.leases {
      GatherMoves(cal, v, l, i, now, gen);
    } else {
      LockMoves(cal, v, l, i, now, gen);
    }
  }

  /** Locking the group is itself something to write. */
  lemma LockMoves(cal: Calendar, v: View, l: Name, i: nat, now: int, gen: Name)
    requires cal.Valid() && v.Valid() && InCohort(v, l, l) && v.events[l].time.Some? && i < |cal.pipelines|
    requires v.specs[l].created + 30 * SECOND <= now && LockClear(cal, v, l)
    requires v.specs[l].group != "" && GroupLease(v.specs[l].group) in v.leases
    ensures SyncLeaderOnly(cal, v, l, v.events[l], i, LastAlways(cal.pipelines, i), now, gen).writes != []
  {
    hide Execute, FollowersScan, FollowersOf, LockScan;
  }

  // ------------------------------------------------------------------ one member

  /** Member k may reach pipeline i: all members have come to its segment, and the
      predecessors of k are past the segment if it is one of Always pipelines. */
  ghost predicate Cleared(cal: Calendar, v: View, l: Name, k: Name, i: nat)
    requires i < |cal.pipelines| && l in v.events && v.Valid() && InCohort(v, l, k)
  {
    && (cal.pipelines[i].leaderOnly ==> k == l)
    && AllPassed(cal, v, l, SegmentBegin(cal.pipelines, i))
    && (forall j: nat :: j < i ==> PassedIn(cal, v, l, k, j))
    && (!cal.pipelines[i].leaderOnly ==>
         forall p :: p in v.events && RunsAfter(v, k, p) ==> PassedIn(cal, v, l, p, SegmentEnd(cal.pipelines, i)))
  }

  lemma SegmentsBefore(pipelines: seq<Pipeline>, i: nat, j: nat)
    requires i < |pipelines| && j <= i
    ensures j < SegmentBegin(pipelines, i) ==> SegmentEnd(pipelines, j) < SegmentBegin(pipelines, i)
    ensures j >= SegmentBegin(pipelines, i) ==> SegmentEnd(pipelines, j) == SegmentEnd(pipelines, i)
    ensures pipelines[j].leaderOnly && j < i ==> j < SegmentBegin(pipelines, i)
  {
    var b := SegmentBegin(pipelines, i);
    BeginIsFirst(pipelines, i);
    SegmentIsShared(pipelines, i, b);
    if j >= b {
      SegmentIsShared(pipelines, i, j);
    } else if b <= SegmentEnd(pipelines, j) {
      SegmentIsShared(pipelines, j, b);
    }
  }

  /** Up to pipeline i nothing that k should run after holds it back. */
  lemma ClearedAfter(cal: Calendar, v: View, l: Name, rank: Name -> nat, k: Name, i: nat, j: nat)
    requires cal.Valid() && v.Valid() && InCohort(v, l, l) && InCohort(v, l, k) && OrderedCohort(v, l, rank)
    requires i < |cal.pipelines| && j <= i && Cleared(cal, v, l, k, i)
    ensures AfterDone(cal, v, k, v.events[k], j)
  {
    SegmentsBefore(cal.pipelines, i, j);
    EndIsLast(cal.pipelines, j);
    hide PassedIn, AfterDone;
    if j == i && cal.pipelines[i].leaderOnly {
      LeaderOnlyReady(cal, v, l, rank, k, i);
    } else {
      AfterReady(cal, v, l, rank, k, j);
    }
  }

  /** At the LeaderOnly pipeline where the cohort stands only the leader acts, and it does not
      run after itself. */
  lemma LeaderOnlyReady(cal: Calendar, v: View, l: Name, rank: Name -> nat, k: Name, i: nat)
    requires cal.Valid() && v.Valid() && InCohort(v, l, l) && InCohort(v, l, k) && OrderedCohort(v, l, rank)
    requires i < |cal.pipelines| && cal.pipelines[i].leaderOnly && k == l
    ensures AfterDone(cal, v, k, v.events[k], i)
  {
    hide GetTimeWithOffset, Latest;
  }

  lemma SyncReady(cal: Calendar, v: View, l: Name, rank: Name -> nat, k: Name, j: nat, now: int, gen: Name)
    requires Ready(cal, v, l, rank, now) && InCohort(v, l, k) && j < |cal.pipelines| && AfterDone(cal, v, k, v.events[k], j)
    requires cal.pipelines[j].leaderOnly ==> if k == l then AllPassed(cal, v, l, j) else PassedIn(cal, v, l, k, j)
    ensures ThroughOrMoves(cal, v, l, k, j, SyncPipeline(cal, v, k, v.events[k], j, LastAlways(cal.pipelines, j), now, gen))
  {
    hide AfterDone, Early, Execute, SyncLeaderOnly, Working, NoFailures, OrderedCohort, LeasesSettled, PeersReady, Finished, WaitForHours;
    if cal.pipelines[j].leaderOnly {
      if k == l {
        LeaderMoves(cal, v, l, j, now, gen);
      } else {
        FollowerMoves(cal, v, l, k, j, now, gen);
      }
    } else if PassedIn(cal, v, l, k, j) {
      ExecuteDone(cal, v, k, j, [], now, gen);
    } else {
      ExecuteMoves(cal, v, l, k, j, [], now, gen);
    }
  }

  lemma SyncMoves(cal: Calendar, v: View, l: Name, rank: Name -> nat, k: Name, i: nat, j: nat, now: int, gen: Name)
    requires Ready(cal, v, l, rank, now) && InCohort(v, l, k) && i < |cal.pipelines| && j <= i && Cleared(cal, v, l, k, i)
    ensures ThroughOrMoves(cal, v, l, k, j, SyncPipeline(cal, v, k, v.events[k], j, LastAlways(cal.pipelines, j), now, gen))
  {
    ClearedAfter(cal, v, l, rank, k, i, j);
    SegmentsBefore(cal.pipelines, i, j);
    BeginIsFirst(cal.pipelines, i);
    hide AfterDone, PassedIn, Truthful, NoFailures, LeasesSettled, PeersReady, LockClear, SyncPipeline, ThroughOrMoves;
    SyncReady(cal, v, l, rank, k, j, now, gen);
  }

  /** A follower goes by what the leader has completed. */
  lemma FollowerMoves(cal: Calendar, v: View, l: Name, k: Name, j: nat, now: int, gen: Name)
    requires cal.Valid() && v.Valid() && InCohort(v, l, l) && InCohort(v, l, k) && k != l && v.events[k].time.Some?
    requires j < |cal.pipelines| && cal.pipelines[j].leaderOnly && PassedIn(cal, v, l, k, j)
    ensures ThroughOrMoves(cal, v, l, k, j, SyncLeaderOnly(cal, v, k, v.events[k], j, LastAlways(cal.pipelines, j), now, gen))
  {
    hide GatherAndRun, LockScan;
  }

  lemma {:induction false} RunMoves(cal: Calendar, v: View, l: Name, rank: Name -> nat, k: Name, i: nat, j: nat, now: int, gen: Name)
    requires Ready(cal, v, l, rank, now) && InCohort(v, l, k) && i < |cal.pipelines| && j <= i && Cleared(cal, v, l, k, i)
    requires !PassedIn(cal, v, l, k, i)
    ensures RunFrom(cal, v, k, v.events[k], j, now, gen) != [] || Working(cal, v, k, i)
    decreases i - j
  {
    hide SyncPipeline, PassedIn, Working, Cleared, OrderedCohort, NoFailures, Due, LeasesSettled, PeersReady, LockClear, Finished;
    SyncMoves(cal, v, l, rank, k, i, j, now, gen);
    var r := SyncPipeline(cal, v, k, v.events[k], j, LastAlways(cal.pipelines, j), now, gen);
    if j < i {
      ClearedBefore(cal, v, l, k, i, j);
      if r.writes == [] {
        assert v.(leases := r.leases) == v;
        RunMoves(cal, v, l, rank, k, i, j + 1, now, gen);
      }
    }
  }

  lemma ClearedBefore(cal: Calendar, v: View, l: Name, k: Name, i: nat, j: nat)
    requires v.Valid() && l in v.events && InCohort(v, l, k) && i < |cal.pipelines| && j < i && Cleared(cal, v, l, k, i)
    ensures PassedIn(cal, v, l, k, j)
  {
  }

  lemma {:induction false} ProbeOneGood(cal: Calendar, v: View, xs: seq<Name>, offset: Offset, t: int)
    requires Feasible(cal.days) && GoodOffset(offset) && forall k :: k in xs ==> k in v.events
    ensures !ProbeOne(cal, v, xs, offset, t).Bad?
    decreases |xs|
  {
    if xs != [] && v.events[xs[0]].time.Some? {
      var when := GetTimeWithOffset(v.events[xs[0]].time.value, offset, cal.zone, cal.days).value;
      ProbeOneGood(cal, v, xs[1..], offset, if when > t then when else t);
    }
  }

  lemma {:induction false} ProbeAllGood(cal: Calendar, v: View, after: seq<RunAfter>, t: int)
    requires Feasible(cal.days) && v.Valid() && forall a :: a in after ==> GoodOffset(a.offset)
    ensures !ProbeAll(cal, v, after, t).Bad?
    decreases |after|
  {
    hide ProbeOne;
    if after != [] {
      var probe := ProbeOne(cal, v, ByTitle(v, v.order, {after[0].title}), after[0].offset, t);
      ProbeOneGood(cal, v, ByTitle(v, v.order, {after[0].title}), after[0].offset, t);
      if probe.Reached? {
        ProbeAllGood(cal, v, after[1..], probe.time);
      }
    }
  }

  /** An event of a title of its own gets the lease on it at once. */
  lemma TitleIsFree(cal: Calendar, v: View, l: Name, k: Name)
    requires v.Valid() && k in v.events && l in v.specs && l in v.events && OwnTitle(v, k) && LeasesSettled(cal, v, l)
    ensures var a := AcquireLease(v, k, v.events[k]);
            a.ok && (a.writes == [] ==> a.leases == v.leases)
    ensures forall group :: GroupLease(group) in v.leases ==>
              GroupLease(group) in AcquireLease(v, k, v.events[k]).leases
              && AcquireLease(v, k, v.events[k]).leases[GroupLease(group)] == v.leases[GroupLease(group)]
  {
    hide SameDay;
  }

  /** The plan of a member holds what running its pipelines writes. */
  lemma PlanHasRun(cal: Calendar, v: View, l: Name, rank: Name -> nat, k: Name, now: int, gen: Name)
    requires Ready(cal, v, l, rank, now) && InCohort(v, l, k) && !v.events[k].phase.Completed?
    ensures RunFrom(cal, v, k, v.events[k], 0, now, gen) != [] ==> Plan(cal, v, k, now, false, gen) != []
  {
    hide RunFrom, NoFailures, Due, Finished, AcquireLease, ProbeAll, ProbePhase, PeersReady, LockClear, LeasesSettled;
    var st := v.events[k];
    TitleIsFree(cal, v, l, k);
    ProbeAllGood(cal, v, v.specs[k].after, if v.specs[k].time.Some? then v.specs[k].time.value else st.time.value);
    hide OrderedCohort, LeasesSettled, Truthful;
    var a := AcquireLease(v, k, st);
    assert a.writes == [] ==> v.(leases := a.leases) == v;
  }

  lemma NotCompleted(cal: Calendar, v: View, l: Name, k: Name, i: nat)
    requires v.Valid() && l in v.events && InCohort(v, l, k) && i < |cal.pipelines| && Cleared(cal, v, l, k, i) && Truthful(cal, v, l)
    requires !PassedIn(cal, v, l, k, i)
    ensures !v.events[k].phase.Completed?
  {
  }

  /** A member cleared for the pipeline it has not passed can advance. */
  lemma MemberMoves(cal: Calendar, v: View, l: Name, rank: Name -> nat, k: Name, i: nat, now: int, gen: Name)
    requires Ready(cal, v, l, rank, now) && InCohort(v, l, k) && i < |cal.pipelines| && Cleared(cal, v, l, k, i)
    requires !PassedIn(cal, v, l, k, i)
    ensures CanAdvance(cal, v, k, now, gen)
  {
    hide RunFrom, Working, Cleared, OrderedCohort, NoFailures, Due, LeasesSettled, PeersReady, LockClear, Plan;
    RunMoves(cal, v, l, rank, k, i, 0, now, gen);
    NotCompleted(cal, v, l, k, i);
    PlanHasRun(cal, v, l, rank, k, now, gen);
  }

  // ------------------------------------------------------------------ the cohort

  /** The first pipeline up to i that k has not passed. */
  lemma {:induction false} FirstOpen(cal: Calendar, v: View, l: Name, k: Name, i: nat) returns (j: nat)
    requires i < |cal.pipelines| && k in v.events && l in v.events && !PassedIn(cal, v, l, k, i)
    ensures j <= i && !PassedIn(cal, v, l, k, j) && forall h: nat :: h < j ==> PassedIn(cal, v, l, k, h)
    decreases i
  {
    if h: nat :| h < i && !PassedIn(cal, v, l, k, h) {
      j := FirstOpen(cal, v, l, k, h);
    } else {
      j := i;
    }
  }

  lemma BeginsBefore(pipelines: seq<Pipeline>, i: nat, j: nat)
    requires i < |pipelines| && SegmentBegin(pipelines, i) <= j <= SegmentEnd(pipelines, i)
    ensures SegmentBegin(pipelines, j) == SegmentBegin(pipelines, i)
  {
    SegmentIsShared(pipelines, i, j);
  }

  /** Whoever is not done, follow what holds it back: a member in an earlier segment, the
      leader, or a predecessor in the same segment. Segments and ranks go down, so it ends
      with a member that can advance. */
  lemma {:induction false} SomeoneMoves(cal: Calendar, v: View, l: Name, rank: Name -> nat, e: Name, i: nat, now: int, gen: Name) returns (m: Name)
    requires Ready(cal, v, l, rank, now) && InCohort(v, l, e) && i < |cal.pipelines|
    requires !PassedIn(cal, v, l, e, i) && forall j: nat :: j < i ==> PassedIn(cal, v, l, e, j)
    ensures InCohort(v, l, m) && CanAdvance(cal, v, m, now, gen)
    decreases SegmentBegin(cal.pipelines, i), rank(e)
  {
    hide CanAdvance, PassedIn, NoFailures, Due, LeasesSettled, PeersReady, LockClear, Truthful;
    var b, t := SegmentBegin(cal.pipelines, i), SegmentEnd(cal.pipelines, i);
    if late, j: nat :| InCohort(v, l, late) && j < b && !PassedIn(cal, v, l, late, j) {
      var first := FirstOpen(cal, v, l, late, j);
      m := SomeoneMoves(cal, v, l, rank, late, first, now, gen);
    } else if cal.pipelines[i].leaderOnly {
      SharedByAll(cal, v, l, e, i);
      BeginIsFirst(cal.pipelines, i);
      MemberMoves(cal, v, l, rank, l, i, now, gen);
      m := l;
    } else if p, j: nat :| p in v.events && RunsAfter(v, e, p) && j <= t && !PassedIn(cal, v, l, p, j) {
      assert InCohort(v, l, p) && rank(p) < rank(e);
      var first := FirstOpen(cal, v, l, p, j);
      BeginsBefore(cal.pipelines, i, first);
      m := SomeoneMoves(cal, v, l, rank, p, first, now, gen);
    } else {
      MemberMoves(cal, v, l, rank, e, i, now, gen);
      m := e;
    }
  }

  lemma SharedByAll(cal: Calendar, v: View, l: Name, e: Name, i: nat)
    requires l in v.events && e in v.events && i < |cal.pipelines| && cal.pipelines[i].leaderOnly
    ensures PassedIn(cal, v, l, e, i) == PassedIn(cal, v, l, l, i)
  {
  }

  // ------------------------------------------------------------------ the end

  lemma {:induction false} FinishRun(cal: Calendar, v: View, l: Name, rank: Name -> nat, k: Name, j: nat, now: int, gen: Name)
    requires Ready(cal, v, l, rank, now) && InCohort(v, l, k) && j <= |cal.pipelines|
    requires AllPassed(cal, v, l, |cal.pipelines|) && !v.events[k].phase.Completed?
    ensures RunFrom(cal, v, k, v.events[k], j, now, gen) != []
    decreases |cal.pipelines| - j
  {
    hide SyncPipeline, PassedIn, AfterDone, NoFailures, Due, LeasesSettled, PeersReady, LockClear;
    if j < |cal.pipelines| {
      AfterReady(cal, v, l, rank, k, j);
      SyncReady(cal, v, l, rank, k, j, now, gen);
      var r := SyncPipeline(cal, v, k, v.events[k], j, LastAlways(cal.pipelines, j), now, gen);
      if r.writes == [] {
        assert v.(leases := r.leases) == v;
        FinishRun(cal, v, l, rank, k, j + 1, now, gen);
      }
    }
  }

  /** A member that has passed everything, as all have, is declared completed. */
  lemma MemberFinishes(cal: Calendar, v: View, l: Name, rank: Name -> nat, k: Name, now: int, gen: Name)
    requires Ready(cal, v, l, rank, now) && InCohort(v, l, k)
    requires AllPassed(cal, v, l, |cal.pipelines|) && !v.events[k].phase.Completed?
    ensures CanAdvance(cal, v, k, now, gen)
  {
    hide RunFrom, AllPassed, NoFailures, Due, LeasesSettled, PeersReady, LockClear, OrderedCohort, Truthful, Plan;
    FinishRun(cal, v, l, rank, k, 0, now, gen);
    PlanHasRun(cal, v, l, rank, k, now, gen);
  }

  /** While a member of an unhindered cohort is not completed, some member can advance. */
  lemma CohortMoves(cal: Calendar, v: View, l: Name, rank: Name -> nat, e: Name, now: int, gen: Name) returns (m: Name)
    requires Ready(cal, v, l, rank, now) && InCohort(v, l, e) && !v.events[e].phase.Completed?
    ensures InCohort(v, l, m) && CanAdvance(cal, v, m, now, gen)
  {
    hide CanAdvance, PassedIn, NoFailures, Due, LeasesSettled, PeersReady, LockClear, Truthful;
    if late, j: nat :| InCohort(v, l, late) && j < |cal.pipelines| && !PassedIn(cal, v, l, late, j) {
      var first := FirstOpen(cal, v, l, late, j);
      m := SomeoneMoves(cal, v, l, rank, late, first, now, gen);
    } else {
      MemberFinishes(cal, v, l, rank, e, now, gen);
      m := e;
    }
  }

  // ------------------------------------------------------------------ what the lock scan waits for

  /** The scan stops at an event without a time, or at one that has no leader yet. */
  lemma {:induction false} ScanStopsAt(cal: Calendar, v: View, group: string, day: int, xs: seq<Name>) returns (p: Name)
    requires forall k :: k in xs ==> k in v.specs && k in v.events
    requires !LockScan(cal, v, group, day, xs).Pass?
    ensures p in xs && v.specs[p].group == group
    ensures v.events[p].time.None? ||
            (v.events[p].leader.None? && (cal.daily ==> SameDay(v.events[p].time.value, day, cal.zone)))
  {
    var ev := v.events[xs[0]];
    if v.specs[xs[0]].group == group && (ev.time.None? || (ev.leader.None? && (cal.daily ==> SameDay(ev.time.value, day, cal.zone)))) {
      p := xs[0];
    } else {
      p := ScanStopsAt(cal, v, group, day, xs[1..]);
    }
  }

  lemma {:induction false} ProbeOneWaitsFor(cal: Calendar, v: View, xs: seq<Name>, offset: Offset, t: int) returns (p: Name)
    requires Feasible(cal.days) && (forall k :: k in xs ==> k in v.events) && ProbeOne(cal, v, xs, offset, t).NotYet?
    ensures p in xs && v.events[p].time.None?
    decreases |xs|
  {
    if v.events[xs[0]].time.None? {
      p := xs[0];
    } else {
      var when := GetTimeWithOffset(v.events[xs[0]].time.value, offset, cal.zone, cal.days).value;
      p := ProbeOneWaitsFor(cal, v, xs[1..], offset, if when > t then when else t);
    }
  }

  lemma {:induction false} ProbeAllWaitsFor(cal: Calendar, v: View, after: seq<RunAfter>, t: int) returns (p: Name)
    requires Feasible(cal.days) && v.Valid() && ProbeAll(cal, v, after, t).NotYet?
    ensures p in v.events && v.events[p].time.None? && v.specs[p].title in Titles(after)
    decreases |after|
  {
    hide ProbeOne;
    var xs := ByTitle(v, v.order, {after[0].title});
    var probe := ProbeOne(cal, v, xs, after[0].offset, t);
    if probe.NotYet? {
      p := ProbeOneWaitsFor(cal, v, xs, after[0].offset, t);
      assert after[0] in after;
    } else {
      p := ProbeAllWaitsFor(cal, v, after[1..], probe.time);
      assert forall a :: a in after[1..] ==> a in after;
    }
  }

  /** An event without a time gets one by its next sync, or waits for another such event, and so on. */
  lemma {:induction false} SomeoneIsTimed(cal: Calendar, v: View, l: Name, rank: Name -> nat, e: Name, now: int, gen: Name) returns (m: Name)
    requires cal.Valid() && v.Valid() && l in v.specs && PeersReady(v, l, rank, now) && Truthful(cal, v, l) && Timeless(v, e)
    ensures Timeless(v, m) && Plan(cal, v, m, now, false, gen) != []
    decreases rank(e)
  {
    hide ProbeAll, RunFrom, AcquireLease, Finished;
    var st, spec := v.events[e], v.specs[e];
    var t := if spec.time.Some? then spec.time.value else now;
    ProbeAllGood(cal, v, spec.after, t);
    m := e;
    if ProbeAll(cal, v, spec.after, t).NotYet? {
      var p := ProbeAllWaitsFor(cal, v, spec.after, t);
      assert RunsAfter(v, e, p);
      m := SomeoneIsTimed(cal, v, l, rank, p, now, gen);
    }
  }

  /** A leaderless event of the group, on the day of the lease if days count, adopts its holder. */
  lemma LeaderlessMoves(cal: Calendar, v: View, l: Name, rank: Name -> nat, p: Name, now: int, gen: Name)
    requires cal.Valid() && v.Valid() && |cal.pipelines| > 0 && l in v.specs && l in v.events
    requires LeasesSettled(cal, v, l) && PeersReady(v, l, rank, now) && Leaderless(v, l, p) && v.events[p].time.Some?
    requires GroupLease(v.specs[l].group) in v.leases && (cal.daily ==> OneDay(cal, v, p, l))
    ensures Plan(cal, v, p, now, false, gen) != []
  {
    hide RunFrom, AcquireLease, ProbeAll, SameDay;
    var st, a := v.events[p], AcquireLease(v, p, v.events[p]);
    TitleIsFree(cal, v, l, p);
    ProbeAllGood(cal, v, v.specs[p].after, if v.specs[p].time.Some? then v.specs[p].time.value else st.time.value);
    AdoptsFirst(cal, v.(leases := a.leases), p, v.leases[GroupLease(v.specs[l].group)], now, gen) by {
      HolderIsOnDay(cal, v, l, p);
    }
  }

  lemma HolderIsOnDay(cal: Calendar, v: View, l: Name, p: Name)
    requires v.Valid() && l in v.specs && l in v.events && LeasesSettled(cal, v, l) && p in v.events
    requires GroupLease(v.specs[l].group) in v.leases && (cal.daily ==> OneDay(cal, v, p, l))
    ensures var h := v.leases[GroupLease(v.specs[l].group)];
            h in v.events && (cal.daily ==> OneDay(cal, v, h, p))
  {
  }

  lemma AdoptsFirst(cal: Calendar, v: View, p: Name, h: Name, now: int, gen: Name)
    requires cal.Valid() && v.Valid() && |cal.pipelines| > 0 && p in v.events && v.events[p].leader.None? && v.events[p].time.Some?
    requires v.specs[p].group != "" && GroupLease(v.specs[p].group) in v.leases && v.leases[GroupLease(v.specs[p].group)] == h
    requires h in v.events && (cal.daily ==> OneDay(cal, v, h, p))
    ensures RunFrom(cal, v, p, v.events[p], 0, now, gen) != []
  {
    hide SameDay;
    assert ProbeLeader(cal, v, p, v.events[p]) == Some(v.events[p].(leader := Some(h)));
  }

  /** What a cohort can be waiting for: a member, a leaderless event of its group, or, if some event
      of the group has no time, an event without a time. */
  ghost predicate Concerns(v: View, l: Name, m: Name)
    requires l in v.specs
  {
    || InCohort(v, l, m) || Leaderless(v, l, m)
    || (Timeless(v, m) && exists q :: Timeless(v, q) && v.specs[q].group == v.specs[l].group)
  }

  /** While the lock scan does not pass, some event it waits for, at one remove or more, can advance. */
  lemma ScanMoves(cal: Calendar, v: View, l: Name, rank: Name -> nat, now: int, gen: Name) returns (m: Name)
    requires Unhindered(cal, v, l, rank, now) && Truthful(cal, v, l) && |cal.pipelines| > 0 && !LockClear(cal, v, l)
    ensures Concerns(v, l, m) && Plan(cal, v, m, now, false, gen) != []
  {
    hide Plan, OrderedCohort, NoFailures, Due, LeasesSettled, PeersReady, LockScan, Finished, SameDay;
    m := ScanStopsAt(cal, v, v.specs[l].group, v.events[l].time.value, v.order);
    if v.events[m].time.None? {
      assert Timeless(v, m);
      m := SomeoneIsTimed(cal, v, l, rank, m, now, gen);
    } else {
      LeaderlessMoves(cal, v, l, rank, m, now, gen);
    }
  }

  lemma ReachedIsTruthful(cal: Calendar, s: System, order: seq<Name>, l: Name)
    requires Inv(cal, s) && CaughtUp(s)
    ensures Truthful(cal, ViewOf(s, order), l)
  {
    hide Inv, Finished;
    var v := ViewOf(s, order);
    forall k | k in v.events
      ensures InCohort(v, l, k) ==> v.events[k].time.Some? && (v.events[k].phase.Completed? ==> Finished(cal, k, v.events[k]))
      ensures v.events[k].time.None? ==> v.events[k].runs == [] && v.events[k].leader.None?
      ensures v.events[k].runs == [] ==> v.events[k].phase.Unset? || v.events[k].phase.Pending?
    {
      InvGood(cal, s, k);
      assert PhaseTrue(cal, s, k, s.events[k]);
    }
  }

  lemma SomePipeline(cal: Calendar)
    requires cal.HasAlways()
    ensures |cal.pipelines| > 0
  {
  }

  /** Some event that concerns the cohort can advance. */
  lemma SomethingMoves(cal: Calendar, v: View, l: Name, rank: Name -> nat, e: Name, now: int, gen: Name) returns (m: Name)
    requires Unhindered(cal, v, l, rank, now) && Truthful(cal, v, l) && |cal.pipelines| > 0
    requires InCohort(v, l, e) && !v.events[e].phase.Completed?
    ensures Concerns(v, l, m) && CanAdvance(cal, v, m, now, gen)
  {
    hide Plan, OrderedCohort, NoFailures, Due, LeasesSettled, PeersReady, LockClear, Truthful;
    if LockClear(cal, v, l) {
      m := CohortMoves(cal, v, l, rank, e, now, gen);
    } else {
      m := ScanMoves(cal, v, l, rank, now, gen);
    }
  }

  /** No deadlock. In any reachable state with caches that have caught up, in a cohort ordered
      by runAfter without a cycle, with no failures, nothing left to wait for and leases in
      order: as long as one member is not completed, the next sync of some member, of a leaderless
      event of the group, or of an event without a time if the group has one, writes something, all of
      which the API server takes, or Tekton is at work for it. */
  lemma NoDeadlock(cal: Calendar, states: seq<System>, actions: seq<Action>, n: nat, order: seq<Name>,
                   l: Name, rank: Name -> nat, e: Name, now: int, gen: Name)
    requires History(cal, states, actions) && n < |states| && CaughtUp(states[n])
    requires Unhindered(cal, ViewOf(states[n], order), l, rank, now)
    requires InCohort(ViewOf(states[n], order), l, e) && !ViewOf(states[n], order).events[e].phase.Completed?
    ensures exists m ::
              && Concerns(ViewOf(states[n], order), l, m) && CanAdvance(cal, ViewOf(states[n], order), m, now, gen)
              && AllAccepted(states[n], Plan(cal, ViewOf(states[n], order), m, now, false, gen))
  {
    hide Inv, Do, Enabled, CanAdvance, AllAccepted, Plan, OrderedCohort, NoFailures, Due, LeasesSettled, PeersReady, Truthful, Concerns;
    RunInv(cal, states, actions, n);
    ReachedIsTruthful(cal, states[n], order, l);
    SomePipeline(cal);
    var m := SomethingMoves(cal, ViewOf(states[n], order), l, rank, e, now, gen);
    UndisturbedSync(cal, states[n], order, m, now, false, gen);
  }
}
