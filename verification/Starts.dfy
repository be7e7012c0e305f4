/** What a Tekton run that a sync makes, or stops, tells of its event: the gates it has passed, in
    terms of what the sync sees. */
module Starts {
  import opened Prelude
  import opened CalendarDays
  import opened CalendarHours
  import opened CalendarTypes
  import opened EventSync
  import opened RunAfter
  import opened PlanSound
  import opened Stranded

  // ------------------------------------------------------------------ the gates

  /** The offset of pipeline i, counted from the event's time, has been reached. */
  ghost predicate OffsetReached(cal: Calendar, st: Status, i: nat, now: int)
    requires Feasible(cal.days) && i < |cal.pipelines|
  {
    st.time.Some? && exists when :: GetTimeWithOffset(st.time.value, cal.pipelines[i].offset, cal.zone, cal.days) == Ok(when) && when <= now
  }

  lemma EarlyMeans(cal: Calendar, st: Status, i: nat, now: int)
    requires Feasible(cal.days) && st.time.Some? && i < |cal.pipelines|
    ensures Early(cal, st, i, now) <==> !OffsetReached(cal, st, i, now)
  {
    hide GetTimeWithOffset;
  }

  /** There are no hours to keep to, or it is inside them. */
  ghost predicate HoursAllow(cal: Calendar, now: int) {
    cal.hours == [] || InsideAny(now + cal.zone * HOUR, cal.hours)
  }

  ghost predicate ProperHours(cal: Calendar) {
    forall w :: w in cal.hours ==> Proper(w)
  }

  lemma HoursMean(cal: Calendar, now: int)
    requires ProperHours(cal)
    ensures WaitForHours(now, cal.hours, cal.zone) <= 0 <==> HoursAllow(cal, now)
  {
    if cal.hours != [] {
      WaitIsExact(now, cal.hours, cal.zone);
    }
  }

  /** Nobody k runs after holds pipeline i back. */
  ghost predicate AfterAll(cal: Calendar, v: View, k: Name, i: nat)
    requires v.Valid() && k in v.events && i < |cal.pipelines|
  {
    cal.pipelines[i].ignoreAfter ||
    forall e :: e in v.events && v.specs[e].title in Titles(v.specs[k].after) && Counts(v, e) ==> HasCome(cal, v, k, i, e)
  }

  /** k is past pipeline j: by its leader's entry where only the leader runs it, or by its own. */
  ghost predicate IsPast(cal: Calendar, v: View, k: Name, j: nat)
    requires k in v.events && j < |cal.pipelines|
  {
    var st, p := v.events[k], cal.pipelines[j];
    if p.leaderOnly && st.leader != Some(k) then
      st.leader.Some? && st.leader.value in v.events && EntryIs(v.events[st.leader.value].runs, p.name, RunCompleted)
    else EntryIs(st.runs, p.name, RunCompleted)
  }

  ghost predicate Before(ys: seq<Name>, a: Name, b: Name) {
    exists p, q :: 0 <= p < q < |ys| && ys[p] == a && ys[q] == b
  }

  /** The names xs come in the order in which ys lists them. */
  ghost predicate InListingOrder(ys: seq<Name>, xs: seq<Name>) {
    forall i, j :: 0 <= i < j < |xs| ==> Before(ys, xs[i], xs[j])
  }

  lemma BeforeInRest(ys: seq<Name>, a: Name, b: Name)
    requires ys != []
    ensures Before(ys[1..], a, b) ==> Before(ys, a, b)
    ensures a == ys[0] && b in ys[1..] ==> Before(ys, a, b)
  {
    if Before(ys[1..], a, b) {
      var p, q :| 0 <= p < q < |ys| - 1 && ys[1..][p] == a && ys[1..][q] == b;
      assert ys[p + 1] == a && ys[q + 1] == b;
    }
    if a == ys[0] && b in ys[1..] {
      var q :| 0 <= q < |ys| - 1 && ys[1..][q] == b;
      assert ys[q + 1] == b;
    }
  }

  lemma {:induction false} FollowersInOrder(events: map<Name, Status>, k: Name, ys: seq<Name>)
    requires forall y :: y in ys ==> y in events
    ensures InListingOrder(ys, FollowersOf(events, k, ys))
    decreases |ys|
  {
    hide Before;
    if ys != [] {
      var xs, rest := FollowersOf(events, k, ys), FollowersOf(events, k, ys[1..]);
      FollowersInOrder(events, k, ys[1..]);
      var d := |xs| - |rest|;
      assert forall i :: d <= i < |xs| ==> xs[i] == rest[i - d];
      forall i, j | 0 <= i < j < |xs| ensures Before(ys, xs[i], xs[j]) {
        BeforeInRest(ys, xs[i], xs[j]);
        assert xs[j] == rest[j - d];
        if i >= d {
          assert xs[i] == rest[i - d];
        }
      }
    }
  }

  /** The followers of a leader are the listed events that have it, in their order, and all have settled what
      comes before. */
  ghost predicate Gathers(cal: Calendar, v: View, k: Name, i: nat, followers: seq<Name>, now: int)
    requires v.Valid() && k in v.events && i < |cal.pipelines|
  {
    && v.events[k].leader == Some(k) && v.specs[k].created + 30 * SECOND <= now
    && (forall m :: m in followers <==> m in v.events && v.events[m].leader == Some(k)) && InListingOrder(v.order, followers)
    && (forall m :: m in followers ==> !UngatheredBy(v.events, k, LastAlways(cal.pipelines, i), m))
  }

  /** The first entry of a pipeline is this one. */
  ghost predicate FirstEntry(runs: seq<Run>, pipeline: string, x: int) {
    0 <= x < |runs| && runs[x].pipeline == pipeline && forall y :: 0 <= y < x ==> runs[y].pipeline != pipeline
  }

  lemma FirstRunMeans(runs: seq<Run>, pipeline: string, x: nat)
    ensures FirstEntry(runs, pipeline, x) <==> FirstRun(runs, pipeline) == Some(x)
  {
    var first := FirstRun(runs, pipeline);
    if FirstEntry(runs, pipeline, x) {
      assert first.Some? && !(first.value < x) && !(x < first.value);
    }
  }

  /** The event has been let through to pipeline i. */
  ghost predicate Admitted(cal: Calendar, v: View, k: Name, i: nat, now: int)
    requires Feasible(cal.days) && v.Valid() && i < |cal.pipelines|
  {
    && k in v.events && !v.events[k].phase.Completed?
    && OffsetReached(cal, v.events[k], i, now) && AfterAll(cal, v, k, i)
    && forall j: nat :: j < i ==> IsPast(cal, v, k, j)
  }

  // ------------------------------------------------------------------ running one pipeline

  /** A run of a pipeline or of its rollback is made for an entry that waits for it. */
  ghost predicate MadeFor(cal: Calendar, v: View, st: Status, i: nat, w: Write, now: int)
    requires i < |cal.pipelines|
  {
    var p := cal.pipelines[i];
    && w.CreateRun? && w.name !in v.tekton
    && if w.pipeline == p.name then
         && WaitForHours(now, cal.hours, cal.zone) <= 0
         && exists x: nat :: FirstEntry(st.runs, p.name, x) && st.runs[x].name == w.name
              && (st.runs[x].status.RunPending? || st.runs[x].status.RunRunning? || st.runs[x].status.RunUnknown?)
       else
         && w.pipeline == p.rollback && EntryIs(st.runs, p.name, RunRollback)
         && exists x: nat :: FirstEntry(st.runs, p.rollback, x) && st.runs[x].name == w.name
              && !st.runs[x].status.RunCompleted? && !st.runs[x].status.RunFailed? && !st.runs[x].status.RunCancelled?
  }

  /** Tekton is asked to stop a run for an entry that says so, once, while the run goes on. */
  ghost predicate StoppedFor(cal: Calendar, v: View, st: Status, i: nat, w: Write)
    requires i < |cal.pipelines|
  {
    var p := cal.pipelines[i];
    && w.CancelRun? && w.name in v.tekton && !v.tekton[w.name].stopping && !Ended(v.tekton[w.name].status)
    && exists x: nat :: (FirstEntry(st.runs, p.name, x) || FirstEntry(st.runs, p.rollback, x))
         && st.runs[x].name == w.name && st.runs[x].status.RunCancelled?
  }

  lemma RollBackWrites(cal: Calendar, v: View, k: Name, st: Status, i: nat, followers: seq<Name>, gen: Name, now: int, w: Write)
    requires i < |cal.pipelines| && cal.pipelines[i].rollback != cal.pipelines[i].name && EntryIs(st.runs, cal.pipelines[i].name, RunRollback)
    requires w in RollBack(v, k, st, cal.pipelines[i], followers, gen).writes
    ensures MadeFor(cal, v, st, i, w, now) || StoppedFor(cal, v, st, i, w)
    ensures w.CreateRun? ==> w.event == k && w.followers == followers
  {
    hide FirstRun, EntryIs, WaitForHours;
    var first := FirstRun(st.runs, cal.pipelines[i].rollback);
    if first.Some? {
      FirstRunMeans(st.runs, cal.pipelines[i].rollback, first.value);
    }
  }

  lemma ExecuteMakes(cal: Calendar, v: View, k: Name, st: Status, i: nat, followers: seq<Name>, now: int, gen: Name, w: Write)
    requires cal.Valid() && i < |cal.pipelines| && w in Execute(cal, v, k, st, i, followers, now, gen).writes
    ensures MadeFor(cal, v, st, i, w, now) || StoppedFor(cal, v, st, i, w)
    ensures w.CreateRun? ==> w.event == k && w.followers == followers
  {
    hide FirstRun, RollBack, MadeFor, StoppedFor, WaitForHours;
    var p := cal.pipelines[i];
    var first := FirstRun(st.runs, p.name);
    var x := first.value;
    FirstRunMeans(st.runs, p.name, x);
    var run := st.runs[x];
    if run.status.RunRollback? {
      assert EntryIs(st.runs, p.name, RunRollback);
      if run.name !in v.tekton {
        RollBackWrites(cal, v, k, st, i, followers, gen, now, w);
      } else {
        var phase := if v.tekton[run.name].status.RunCancelled? then Cancelled else Failed;
        RollBackWrites(cal, v, k, st.(phase := phase), i, followers, gen, now, w);
        OtherPhase(cal, v, st, phase, i, w, now);
      }
    } else if run.name in v.tekton {
      StopIsAsked(cal, v, st, i, x, w);
    } else {
      RunIsMade(cal, v, st, i, x, w, now);
    }
  }

  lemma OtherPhase(cal: Calendar, v: View, st: Status, phase: Phase, i: nat, w: Write, now: int)
    requires i < |cal.pipelines|
    ensures MadeFor(cal, v, st.(phase := phase), i, w, now) == MadeFor(cal, v, st, i, w, now)
    ensures StoppedFor(cal, v, st.(phase := phase), i, w) == StoppedFor(cal, v, st, i, w)
  {
    hide WaitForHours, EntryIs;
  }

  lemma StopIsAsked(cal: Calendar, v: View, st: Status, i: nat, x: nat, w: Write)
    requires i < |cal.pipelines| && FirstEntry(st.runs, cal.pipelines[i].name, x) && st.runs[x].name in v.tekton
    requires st.runs[x].status.RunCancelled? && !Ended(v.tekton[st.runs[x].name].status)
    requires w in Stopping(v, st.runs[x].name)
    ensures StoppedFor(cal, v, st, i, w)
  {
  }

  lemma RunIsMade(cal: Calendar, v: View, st: Status, i: nat, x: nat, w: Write, now: int)
    requires i < |cal.pipelines| && FirstEntry(st.runs, cal.pipelines[i].name, x) && st.runs[x].name !in v.tekton
    requires st.runs[x].status.RunPending? || st.runs[x].status.RunRunning? || st.runs[x].status.RunUnknown?
    requires WaitForHours(now, cal.hours, cal.zone) <= 0
    requires w.CreateRun? && w.name == st.runs[x].name && w.pipeline == cal.pipelines[i].name
    ensures MadeFor(cal, v, st, i, w, now)
  {
    hide WaitForHours;
  }

  // ------------------------------------------------------------------ syncing one pipeline

  ghost predicate OfTekton(w: Write) {
    w.CreateRun? || w.CancelRun?
  }

  /** What a write that concerns Tekton tells of pipeline i. */
  ghost predicate Tells(cal: Calendar, v: View, k: Name, i: nat, w: Write, now: int)
    requires v.Valid() && k in v.events && i < |cal.pipelines|
  {
    && (MadeFor(cal, v, v.events[k], i, w, now) || StoppedFor(cal, v, v.events[k], i, w))
    && (w.CreateRun? ==> w.event == k)
    && (w.CreateRun? ==> if cal.pipelines[i].leaderOnly then Gathers(cal, v, k, i, w.followers, now) else w.followers == [])
  }

  lemma LeaderMakes(cal: Calendar, v: View, k: Name, i: nat, now: int, gen: Name, w: Write)
    requires cal.Valid() && v.Valid() && k in v.events && v.events[k].time.Some? && i < |cal.pipelines| && cal.pipelines[i].leaderOnly
    requires OfTekton(w) && w in SyncLeaderOnly(cal, v, k, v.events[k], i, LastAlways(cal.pipelines, i), now, gen).writes
    ensures Tells(cal, v, k, i, w, now)
  {
    hide Execute, FollowersScan, FollowersOf, LockScan, MadeFor, StoppedFor, UngatheredBy, InListingOrder;
    var st, last, key := v.events[k], LastAlways(cal.pipelines, i), GroupLease(v.specs[k].group);
    var u := if MustLock(v, k) then v.(leases := v.leases - {key}) else v;
    var followers := FollowersOf(v.events, k, v.order);
    assert w in Execute(cal, u, k, st, i, followers, now, gen).writes;
    ExecuteMakes(cal, u, k, st, i, followers, now, gen, w);
    GatherPassesExactly(v.events, k, last, v.order);
    FollowersInOrder(v.events, k, v.order);
    MakingIgnoresLeases(cal, v, u.leases, st, i, w, now);
  }

  lemma MakingIgnoresLeases(cal: Calendar, v: View, leases: map<LeaseKey, Name>, st: Status, i: nat, w: Write, now: int)
    requires i < |cal.pipelines|
    ensures MadeFor(cal, v.(leases := leases), st, i, w, now) == MadeFor(cal, v, st, i, w, now)
    ensures StoppedFor(cal, v.(leases := leases), st, i, w) == StoppedFor(cal, v, st, i, w)
  {
    hide WaitForHours, EntryIs;
  }

  lemma SyncMakes(cal: Calendar, v: View, k: Name, i: nat, now: int, gen: Name, w: Write)
    requires cal.Valid() && v.Valid() && k in v.events && v.events[k].time.Some? && i < |cal.pipelines|
    requires OfTekton(w) && w in SyncPipeline(cal, v, k, v.events[k], i, LastAlways(cal.pipelines, i), now, gen).writes
    ensures OffsetReached(cal, v.events[k], i, now) && AfterAll(cal, v, k, i) && Tells(cal, v, k, i, w, now)
  {
    hide SyncLeaderOnly, Execute, AfterDone, Early, ProbeLeader, MadeFor, StoppedFor, HasCome, Counts, OffsetReached;
    EarlyMeans(cal, v.events[k], i, now);
    AfterDoneMeans(cal, v, k, i);
    if cal.pipelines[i].leaderOnly {
      LeaderMakes(cal, v, k, i, now, gen, w);
    } else {
      ExecuteMakes(cal, v, k, v.events[k], i, [], now, gen, w);
    }
  }

  /** A pipeline that a sync goes on from is behind the event. */
  lemma SyncPasses(cal: Calendar, v: View, k: Name, i: nat, now: int, gen: Name)
    requires cal.Valid() && v.Valid() && k in v.events && v.events[k].time.Some? && i < |cal.pipelines|
    requires SyncPipeline(cal, v, k, v.events[k], i, LastAlways(cal.pipelines, i), now, gen).outcome == Next(v.events[k], true)
    ensures IsPast(cal, v, k, i)
  {
    hide AfterDone, Early, ProbeLeader, SyncLeaderOnly, Execute, RunStatusOf, EntryIs;
    var st := v.events[k];
    if cal.pipelines[i].leaderOnly {
      LeaderPasses(cal, v, k, i, now, gen);
    } else {
      EntryMeans(st, cal.pipelines[i].name, RunCompleted);
      ExecutePasses(cal, v, k, st, i, [], now, gen);
    }
  }

  lemma LeaderPasses(cal: Calendar, v: View, k: Name, i: nat, now: int, gen: Name)
    requires cal.Valid() && v.Valid() && k in v.events && v.events[k].time.Some? && i < |cal.pipelines| && cal.pipelines[i].leaderOnly
    requires SyncLeaderOnly(cal, v, k, v.events[k], i, LastAlways(cal.pipelines, i), now, gen).outcome == Next(v.events[k], true)
    ensures IsPast(cal, v, k, i)
  {
    hide LockScan, FollowersScan, FollowersOf, Execute, RunStatusOf, EntryIs;
    var st := v.events[k];
    EntryMeans(st, cal.pipelines[i].name, RunCompleted);
    if st.leader != Some(k) {
      if st.leader.Some? && st.leader.value in v.events {
        EntryMeans(v.events[st.leader.value], cal.pipelines[i].name, RunCompleted);
      }
    } else {
      var u := v.(leases := v.leases - {GroupLease(v.specs[k].group)});
      var followers := FollowersOf(v.events, k, v.order);
      ExecutePasses(cal, v, k, st, i, followers, now, gen);
      ExecutePasses(cal, u, k, st, i, followers, now, gen);
    }
  }

  lemma ExecutePasses(cal: Calendar, v: View, k: Name, st: Status, i: nat, followers: seq<Name>, now: int, gen: Name)
    requires i < |cal.pipelines|
    ensures Execute(cal, v, k, st, i, followers, now, gen).outcome == Next(st, true) ==> RunStatusOf(st, cal.pipelines[i].name) == Some(RunCompleted)
  {
    hide RollBack, WaitForHours, ExecuteSeen;
    var first := FirstRun(st.runs, cal.pipelines[i].name);
    if first.Some? && !st.runs[first.value].status.RunCompleted? {
      if st.runs[first.value].name in v.tekton {
        SeenChanges(cal, v, k, st, i, first.value, followers, gen);
      } else {
        RollBackGoesOn(v, k, st, cal.pipelines[i], followers, gen);
      }
    }
  }

  // ------------------------------------------------------------------ the whole plan

  lemma AdmittedIgnoresLeases(cal: Calendar, v: View, leases: map<LeaseKey, Name>, k: Name, i: nat, w: Write, now: int)
    requires cal.Valid() && v.Valid() && k in v.events && i < |cal.pipelines|
    ensures Admitted(cal, v.(leases := leases), k, i, now) == Admitted(cal, v, k, i, now)
    ensures Tells(cal, v.(leases := leases), k, i, w, now) == Tells(cal, v, k, i, w, now)
  {
    hide OffsetReached, EntryIs, Finished, WaitForHours, UngatheredBy, InListingOrder;
    MakingIgnoresLeases(cal, v, leases, v.events[k], i, w, now);
    hide MadeFor, StoppedFor, AfterAll, IsPast;
    AfterIgnoresLeases(cal, v, leases, k, i);
    forall h: nat | h < i ensures IsPast(cal, v.(leases := leases), k, h) == IsPast(cal, v, k, h) {
      PastIgnoresLeases(cal, v, leases, k, h);
    }
  }

  lemma AfterIgnoresLeases(cal: Calendar, v: View, leases: map<LeaseKey, Name>, k: Name, i: nat)
    requires cal.Valid() && v.Valid() && k in v.events && i < |cal.pipelines|
    ensures AfterAll(cal, v.(leases := leases), k, i) == AfterAll(cal, v, k, i)
  {
    hide EntryIs, Finished;
    forall e | e in v.events
      ensures Counts(v.(leases := leases), e) == Counts(v, e) && HasCome(cal, v.(leases := leases), k, i, e) == HasCome(cal, v, k, i, e)
    {
      CountsIgnoresLeases(v, leases, e);
    }
    hide Counts, HasCome;
  }

  lemma CountsIgnoresLeases(v: View, leases: map<LeaseKey, Name>, e: Name)
    requires v.Valid() && e in v.events
    ensures Counts(v.(leases := leases), e) == Counts(v, e)
  {
    var w := v.(leases := leases);
    assert forall p :: LatestAt(w, w.order, v.specs[e].title, p) == LatestAt(v, v.order, v.specs[e].title, p);
  }

  lemma {:induction false} RunFromMakes(cal: Calendar, v: View, k: Name, i: nat, now: int, gen: Name, w: Write) returns (j: nat)
    requires cal.Valid() && v.Valid() && k in v.events && v.events[k].time.Some? && !v.events[k].phase.Completed? && i <= |cal.pipelines|
    requires OfTekton(w) && w in RunFrom(cal, v, k, v.events[k], i, now, gen)
    requires forall h: nat :: h < i ==> IsPast(cal, v, k, h)
    ensures i <= j < |cal.pipelines| && Admitted(cal, v, k, j, now) && Tells(cal, v, k, j, w, now)
    decreases |cal.pipelines| - i
  {
    hide SyncPipeline, Tells, AfterAll, OffsetReached, IsPast, Admitted;
    var st, last := v.events[k], LastAlways(cal.pipelines, i);
    var r := SyncPipeline(cal, v, k, st, i, last, now, gen);
    if w in r.writes {
      j := i;
      SyncMakes(cal, v, k, i, now, gen, w);
      IsAdmitted(cal, v, k, i, now);
    } else {
      var u := v.(leases := r.leases);
      SyncPasses(cal, v, k, i, now, gen);
      forall h: nat | h < i + 1 ensures IsPast(cal, u, k, h) {
        PastIgnoresLeases(cal, v, r.leases, k, h);
      }
      j := RunFromMakes(cal, u, k, i + 1, now, gen, w);
      AdmittedIgnoresLeases(cal, v, r.leases, k, j, w, now);
    }
  }

  lemma IsAdmitted(cal: Calendar, v: View, k: Name, i: nat, now: int)
    requires Feasible(cal.days) && v.Valid() && i < |cal.pipelines| && k in v.events && !v.events[k].phase.Completed?
    requires OffsetReached(cal, v.events[k], i, now) && AfterAll(cal, v, k, i) && forall j: nat :: j < i ==> IsPast(cal, v, k, j)
    ensures Admitted(cal, v, k, i, now)
  {
  }

  lemma PastIgnoresLeases(cal: Calendar, v: View, leases: map<LeaseKey, Name>, k: Name, h: nat)
    requires k in v.events && h < |cal.pipelines|
    ensures IsPast(cal, v.(leases := leases), k, h) == IsPast(cal, v, k, h)
  {
  }

  /** Every Tekton run that a sync makes or stops belongs to a pipeline the event has been let through
      to: its offset is reached, those it runs after have come to what it asks of them, and the
      pipelines before are behind it. A run of the pipeline is made within the calendar's hours, for
      a first entry that is pending and whose run is not there; a rollback for an entry that says
      so; a run is stopped, once and while it goes on, for an entry that says so. Nothing of the kind
      happens while the event or the calendar is paused. */
  lemma RunsAreAdmitted(cal: Calendar, v: View, k: Name, now: int, paused: bool, gen: Name, w: Write) returns (i: nat)
    requires cal.Valid() && v.Valid() && OfTekton(w) && w in Plan(cal, v, k, now, paused, gen)
    ensures !paused && i < |cal.pipelines| && Admitted(cal, v, k, i, now) && Tells(cal, v, k, i, w, now)
  {
    hide RunFrom, ProbeTime, ProbePhase, Admitted, Tells;
    var st, a := v.events[k], AcquireLease(v, k, v.events[k]);
    var u := v.(leases := a.leases);
    i := RunFromMakes(cal, u, k, 0, now, gen, w);
    AdmittedIgnoresLeases(cal, v, a.leases, k, i, w, now);
  }

  /** Said of one run: a Tekton run of pipeline i that a sync makes starts within the calendar's hours,
      not before its offset, after whom it runs after, and where only the leader runs it, for all
      listed followers, who have settled what comes before. */
  lemma RunsStartInTime(cal: Calendar, v: View, k: Name, now: int, paused: bool, gen: Name, w: Write, i: nat)
    requires cal.Valid() && v.Valid() && w.CreateRun? && w in Plan(cal, v, k, now, paused, gen)
    requires i < |cal.pipelines| && w.pipeline == cal.pipelines[i].name
    ensures Admitted(cal, v, k, i, now) && Tells(cal, v, k, i, w, now)
    ensures ProperHours(cal) ==> HoursAllow(cal, now)
  {
    hide Plan, Admitted;
    var j := RunsAreAdmitted(cal, v, k, now, paused, gen, w);
    assert j == i;
    if ProperHours(cal) {
      HoursMean(cal, now);
    }
  }

  /** A paused event, or one of a paused calendar, gets at most its time and phase, as it would anyway. */
  lemma PausedStandsStill(cal: Calendar, v: View, k: Name, now: int, gen: Name)
    requires cal.Valid() && v.Valid() && k in v.events
    ensures var st, writes := v.events[k], Plan(cal, v, k, now, true, gen);
            || writes == []
            || (writes == Plan(cal, v, k, now, false, gen) && exists t, phase :: writes == [UpdateStatus(k, st.(time := t, phase := phase))])
  {
    hide RunFrom, ProbeTime, AcquireLease;
    var st := v.events[k];
    var timed := ProbeTime(cal, v, k, st, now);
    if timed.Ok? {
      var probed := ProbePhase(cal, k, timed.value);
      TimeAlone(cal, v, k, st, now);
      assert probed == st.(time := probed.time, phase := probed.phase);
    }
  }

  lemma TimeAlone(cal: Calendar, v: View, k: Name, st: Status, now: int)
    requires cal.Valid() && v.Valid() && k in v.events
    ensures var r := ProbeTime(cal, v, k, st, now); r.Ok? ==> r.value == st.(time := r.value.time)
  {
  }
}
