/** What a sync does with an event whose turn has come at a pipeline: whose time and title are settled,
    that is through with the pipelines before, and that no other event holds back. */
module Turns {
  import opened Prelude
  import opened CalendarDays
  import opened CalendarHours
  import opened CalendarTypes
  import opened EventSync
  import opened RunAfter
  import opened Stranded
  import opened Starts

  // ------------------------------------------------------------------ the title

  ghost predicate OfTitle(w: Write) {
    match w
    case DeleteEvent(_) => true
    case CreateLease(key, _) => key.NameLease?
    case TakeLease(key, _, _) => key.NameLease?
    case DeleteLease(key) => key.NameLease?
    case _ => false
  }

  lemma {:induction false} RunningKeepsTitles(cal: Calendar, v: View, k: Name, i: nat, now: int, gen: Name)
    requires Feasible(cal.days) && v.Valid() && k in v.events && v.events[k].time.Some? && i <= |cal.pipelines|
    ensures forall w :: w in RunFrom(cal, v, k, v.events[k], i, now, gen) ==> !OfTitle(w)
    decreases |cal.pipelines| - i
  {
    hide SyncPipeline;
    if i < |cal.pipelines| {
      var st, last := v.events[k], LastAlways(cal.pipelines, i);
      var r := SyncPipeline(cal, v, k, st, i, last, now, gen);
      assert OnlyPipeline(v, k, st, r);
      RunningKeepsTitles(cal, v.(leases := r.leases), k, i + 1, now, gen);
    }
  }

  /** The lease on the title decides what the sync of an event that has not begun does first: it creates the
      lease if there is none, takes it from an event that is over and was not created later, waits for
      one that is not over, and deletes the event itself if the holder was created later. An event
      that holds the lease, or has begun, leaves it alone. */
  lemma TitleDecides(cal: Calendar, v: View, k: Name, now: int, gen: Name)
    requires cal.Valid() && v.Valid() && UpToTime(cal, v, k, now)
    ensures var plan, again, key := Plan(cal, v, k, now, false, gen), Returns(cal, v, k, now, false, gen), NameLease(v.specs[k].title);
            if HasTitle(v, k) then forall w :: w in plan ==> !OfTitle(w)
            else if key !in v.leases then plan != [] && plan[0] == CreateLease(key, k) && forall w :: w in plan[1..] ==> !OfTitle(w)
            else
              var holder := v.leases[key];
              if holder !in v.events then plan == [] && again
              else if v.specs[k].created < v.specs[holder].created then plan == [DeleteEvent(k)] && !again
              else if Terminal(v.events[holder].phase) then
                plan != [] && plan[0] == TakeLease(key, holder, k) && forall w :: w in plan[1..] ==> !OfTitle(w)
              else plan == [] && !again
  {
    hide RunFrom, ReturnsFrom, ProbeTime, ProbePhase;
    var a := AcquireLease(v, k, v.events[k]);
    RunningKeepsTitles(cal, v.(leases := a.leases), k, 0, now, gen);
  }

  // ------------------------------------------------------------------ the turn

  /** Through with the pipelines before i, and with no leader to adopt. */
  ghost predicate ComesTo(cal: Calendar, v: View, k: Name, i: nat, now: int, gen: Name)
    requires Feasible(cal.days) && v.Valid()
  {
    && i < |cal.pipelines| && UpToTime(cal, v, k, now) && HasTitle(v, k) && ClearedTo(cal, v, k, i, now, gen)
    && ProbeLeader(cal, v, k, v.events[k]) == Some(v.events[k])
  }

  /** Its turn at pipeline i, with the followers it hands on: for an Always pipeline none; a leader has
      locked its group, and its followers have settled what comes before. */
  ghost predicate TurnHasCome(cal: Calendar, v: View, k: Name, i: nat, now: int, gen: Name, followers: seq<Name>)
    requires Feasible(cal.days) && v.Valid()
  {
    && ComesTo(cal, v, k, i, now, gen) && OffsetReached(cal, v.events[k], i, now) && AfterAll(cal, v, k, i)
    && if cal.pipelines[i].leaderOnly then
         !MustLock(v, k) && followers == FollowersOf(v.events, k, v.order) && Gathers(cal, v, k, i, followers, now)
       else followers == []
  }

  /** The offset decides: before it is reached, or if it makes no sense, the sync writes nothing for
      pipeline i and asks to come again. */
  lemma OffsetDecides(cal: Calendar, v: View, k: Name, i: nat, now: int, gen: Name)
    requires cal.Valid() && v.Valid() && ComesTo(cal, v, k, i, now, gen) && !OffsetReached(cal, v.events[k], i, now)
    ensures Plan(cal, v, k, now, false, gen) == [] && Returns(cal, v, k, now, false, gen)
  {
    hide Plan, Returns, ProbeTime, ProbePhase, ClearedTo, Early, ProbeLeader, OffsetReached;
    EarlyMeans(cal, v.events[k], i, now);
    PlanOfSettled(cal, v, k, i, now, gen);
  }

  lemma TurnIsExecute(cal: Calendar, v: View, k: Name, i: nat, now: int, gen: Name, followers: seq<Name>)
    requires cal.Valid() && v.Valid() && TurnHasCome(cal, v, k, i, now, gen, followers)
    ensures Turn(cal, v, k, i, now, gen) == Execute(cal, v, k, v.events[k], i, followers, now, gen)
  {
    hide Execute, Early, AfterDone, ProbeLeader, OffsetReached, AfterAll, ClearedTo, UpToTime, Counts, HasCome;
    SettledHasTime(cal, v, k, now);
    EarlyMeans(cal, v.events[k], i, now);
    assert AfterAll(cal, v, k, i) ==> cal.pipelines[i].ignoreAfter || AfterDone(cal, v, k, v.events[k], i) by {
      AfterAllMeans(cal, v, k, i);
    }
    if cal.pipelines[i].leaderOnly {
      LeaderExecutes(cal, v, k, i, now, gen, followers);
    }
  }

  lemma AfterAllMeans(cal: Calendar, v: View, k: Name, i: nat)
    requires cal.Valid() && v.Valid() && k in v.events && i < |cal.pipelines|
    ensures AfterAll(cal, v, k, i) <==> cal.pipelines[i].ignoreAfter || AfterDone(cal, v, k, v.events[k], i)
  {
    hide AfterDone, Counts, HasCome;
    AfterDoneMeans(cal, v, k, i);
  }

  lemma LeaderExecutes(cal: Calendar, v: View, k: Name, i: nat, now: int, gen: Name, followers: seq<Name>)
    requires cal.Valid() && v.Valid() && k in v.events && v.events[k].time.Some? && i < |cal.pipelines| && cal.pipelines[i].leaderOnly
    requires !MustLock(v, k) && followers == FollowersOf(v.events, k, v.order) && Gathers(cal, v, k, i, followers, now)
    ensures SyncLeaderOnly(cal, v, k, v.events[k], i, LastAlways(cal.pipelines, i), now, gen) ==
              Execute(cal, v, k, v.events[k], i, followers, now, gen)
  {
    hide Execute, FollowersScan, FollowersOf, LockScan, UngatheredBy;
    var last := LastAlways(cal.pipelines, i);
    GatherPassesExactly(v.events, k, last, v.order);
    assert forall x :: UngatheredBy(v.events, k, last, x) ==> x in followers by {
      UngatheredFollows(v, k, last);
    }
    var writes := Execute(cal, v, k, v.events[k], i, followers, now, gen).writes;
    assert [] + writes == writes;
  }

  lemma UngatheredFollows(v: View, k: Name, last: string)
    ensures forall x :: UngatheredBy(v.events, k, last, x) ==> x in v.events && v.events[x].leader == Some(k)
  {
    hide FollowerSettled;
  }

  /** What the sync of an event whose turn has come writes, from what running the pipeline gives. */
  lemma PlanOfTurn(cal: Calendar, v: View, k: Name, i: nat, now: int, gen: Name, followers: seq<Name>)
    requires cal.Valid() && v.Valid() && TurnHasCome(cal, v, k, i, now, gen, followers)
    ensures var st, r := v.events[k], Execute(cal, v, k, v.events[k], i, followers, now, gen);
            && (r.outcome.Halt? ==> Plan(cal, v, k, now, false, gen) == r.writes && Returns(cal, v, k, now, false, gen))
            && (r.outcome.Next? && r.outcome.status != st ==>
                 Plan(cal, v, k, now, false, gen) == r.writes + [UpdateStatus(k, r.outcome.status)] && !Returns(cal, v, k, now, false, gen))
            && (r.outcome == Next(st, false) ==>
                 Plan(cal, v, k, now, false, gen) == r.writes && !Returns(cal, v, k, now, false, gen))
  {
    hide Execute, Plan, Returns, ProbeTime, ProbePhase, ClearedTo, SyncPipeline, ProbeLeader, OffsetReached, AfterAll, Gathers;
    TurnIsExecute(cal, v, k, i, now, gen, followers);
    PlanOfSettled(cal, v, k, i, now, gen);
  }

  // ------------------------------------------------------------------ the entry and its run

  /** An event without an entry for its pipeline gets one, pending, under a new name. */
  lemma FirstIsRecorded(cal: Calendar, v: View, k: Name, i: nat, now: int, gen: Name, followers: seq<Name>)
    requires cal.Valid() && v.Valid() && TurnHasCome(cal, v, k, i, now, gen, followers)
    requires forall x: nat :: !FirstEntry(v.events[k].runs, cal.pipelines[i].name, x)
    ensures var st := v.events[k];
            Plan(cal, v, k, now, false, gen) == [UpdateStatus(k, st.(runs := st.runs + [Run(gen, cal.pipelines[i].name, RunPending)]))]
  {
    hide Plan, Returns, TurnHasCome;
    TurnHas(cal, v, k, i, now, gen, followers);
    PlanOfTurn(cal, v, k, i, now, gen, followers);
    var st := v.events[k];
    var first := FirstRun(st.runs, cal.pipelines[i].name);
    if first.Some? {
      FirstRunMeans(st.runs, cal.pipelines[i].name, first.value);
    }
    assert |AddRun(st, cal.pipelines[i].name, gen).runs| != |st.runs|;
    var update := UpdateStatus(k, AddRun(st, cal.pipelines[i].name, gen));
    assert [] + [update] == [update];
  }

  lemma TurnHas(cal: Calendar, v: View, k: Name, i: nat, now: int, gen: Name, followers: seq<Name>)
    requires Feasible(cal.days) && v.Valid() && TurnHasCome(cal, v, k, i, now, gen, followers)
    ensures i < |cal.pipelines| && k in v.events && v.events[k].time.Some?
  {
    hide ClearedTo, ProbeTime, ProbePhase, ProbeLeader, OffsetReached, AfterAll;
  }

  /** The hours decide: the run of a pending entry that is not there is made, under the name the entry
      holds, exactly inside the calendar's hours; outside them the sync writes nothing and asks to
      come again. */
  lemma HoursDecide(cal: Calendar, v: View, k: Name, i: nat, now: int, gen: Name, followers: seq<Name>, x: nat)
    requires cal.Valid() && v.Valid() && TurnHasCome(cal, v, k, i, now, gen, followers) && ProperHours(cal)
    requires FirstEntry(v.events[k].runs, cal.pipelines[i].name, x) && v.events[k].runs[x].name !in v.tekton
    requires var s := v.events[k].runs[x].status; s.RunPending? || s.RunRunning? || s.RunUnknown?
    ensures var p, name := cal.pipelines[i].name, v.events[k].runs[x].name;
            if HoursAllow(cal, now) then Plan(cal, v, k, now, false, gen) == [CreateRun(name, k, p, followers)]
            else Plan(cal, v, k, now, false, gen) == [] && Returns(cal, v, k, now, false, gen)
  {
    hide Plan, Returns, TurnHasCome, FirstRun, WaitForHours, HoursAllow;
    TurnHas(cal, v, k, i, now, gen, followers);
    PlanOfTurn(cal, v, k, i, now, gen, followers);
    FirstRunMeans(v.events[k].runs, cal.pipelines[i].name, x);
    HoursMean(cal, now);
  }

  /** Without a run: a cancelled entry stays, a failed one is rolled back where that is the policy. */
  lemma OverWithoutRun(cal: Calendar, v: View, k: Name, i: nat, now: int, gen: Name, followers: seq<Name>, x: nat)
    requires cal.Valid() && v.Valid() && TurnHasCome(cal, v, k, i, now, gen, followers)
    requires FirstEntry(v.events[k].runs, cal.pipelines[i].name, x) && v.events[k].runs[x].name !in v.tekton
    ensures var st, p := v.events[k], cal.pipelines[i];
            && (st.runs[x].status.RunCancelled? ==> Plan(cal, v, k, now, false, gen) == [])
            && (st.runs[x].status.RunFailed? ==>
                 Plan(cal, v, k, now, false, gen) ==
                   if p.autoRollback && p.rollback != "" then [UpdateStatus(k, st.(runs := st.runs[x := st.runs[x].(status := RunRollback)]))]
                   else [])
  {
    hide Plan, Returns, TurnHasCome, FirstRun, WaitForHours, RollBack;
    TurnHas(cal, v, k, i, now, gen, followers);
    PlanOfTurn(cal, v, k, i, now, gen, followers);
    FirstRunMeans(v.events[k].runs, cal.pipelines[i].name, x);
    assert SetRun(v.events[k], x, RunRollback).runs[x].status == RunRollback;
  }

  /** The phase of an event whose current run is in this state. */
  function PhaseOf(s: RunStatus): Phase {
    match s
    case RunFailed => Failed
    case RunCancelled => Cancelled
    case _ => Running
  }

  /** The run decides: what Tekton says of the current run becomes phase and entry. A failed run that is to
      be rolled back marks its entry so; an entry whose cancellation was asked for stays so while
      the run goes on, and Tekton is asked to stop it, once. */
  lemma RunDecides(cal: Calendar, v: View, k: Name, i: nat, now: int, gen: Name, followers: seq<Name>, x: nat)
    requires cal.Valid() && v.Valid() && TurnHasCome(cal, v, k, i, now, gen, followers)
    requires FirstEntry(v.events[k].runs, cal.pipelines[i].name, x) && v.events[k].runs[x].name in v.tekton
    requires !v.events[k].runs[x].status.RunCompleted? && !v.events[k].runs[x].status.RunRollback?
    ensures var st, p, run := v.events[k], cal.pipelines[i], v.tekton[v.events[k].runs[x].name];
            var asked := st.runs[x].status.RunCancelled?;
            var entry :=
              if run.status.RunFailed? && p.autoRollback && p.rollback != "" then RunRollback
              else if !Ended(run.status) && asked then RunCancelled
              else run.status;
            var after := st.(phase := PhaseOf(run.status), runs := st.runs[x := st.runs[x].(status := entry)]);
            Plan(cal, v, k, now, false, gen) ==
              (if asked && !Ended(run.status) && !run.stopping then [CancelRun(st.runs[x].name)] else []) +
              (if after != st then [UpdateStatus(k, after)] else [])
  {
    hide Plan, Returns, TurnHasCome, FirstRun, WaitForHours, RollBack;
    TurnHas(cal, v, k, i, now, gen, followers);
    PlanOfTurn(cal, v, k, i, now, gen, followers);
    FirstRunMeans(v.events[k].runs, cal.pipelines[i].name, x);
    var st := v.events[k];
    assert st.runs[x := st.runs[x]] == st.runs;
    assert forall w: seq<Write> :: w + [] == w;
    assert SetRun(st.(phase := Running), x, RunCompleted).runs[x].status == RunCompleted;
  }

  /** The rollback decides: of an entry marked for rollback whose run is over or not there. The rollback gets
      an entry, then its run, unless that was cancelled first; from then on the entry shows what Tekton
      says, or Tekton is asked to stop it, once, until it has completed or failed. */
  lemma RollbackDecides(cal: Calendar, v: View, k: Name, i: nat, now: int, gen: Name, followers: seq<Name>, x: nat, y: Option<nat>)
    requires cal.Valid() && v.Valid() && TurnHasCome(cal, v, k, i, now, gen, followers)
    requires FirstEntry(v.events[k].runs, cal.pipelines[i].name, x) && v.events[k].runs[x].status.RunRollback?
    requires v.events[k].runs[x].name in v.tekton ==> PhaseOf(v.tekton[v.events[k].runs[x].name].status) != Running
    requires if y.Some? then FirstEntry(v.events[k].runs, cal.pipelines[i].rollback, y.value)
             else forall z: nat :: !FirstEntry(v.events[k].runs, cal.pipelines[i].rollback, z)
    ensures var st, p, name := v.events[k], cal.pipelines[i], v.events[k].runs[x].name;
            var st' := st.(phase := if name in v.tekton then PhaseOf(v.tekton[name].status) else st.phase);
            var back, seen := if y.Some? then Some(st.runs[y.value]) else None, y.Some? && st.runs[y.value].name in v.tekton;
            var over := y.Some? && (back.value.status.RunCompleted? || back.value.status.RunFailed?);
            var asked := y.Some? && back.value.status.RunCancelled?;
            var runs :=
              if y.None? then st.runs + [Run(gen, p.rollback, RunPending)]
              else if over || !seen || (asked && !Ended(v.tekton[back.value.name].status)) then st.runs
              else st.runs[y.value := back.value.(status := v.tekton[back.value.name].status)];
            var makes := y.Some? && !over && !seen && !asked;
            var stops := seen && asked && !Ended(v.tekton[back.value.name].status) && !v.tekton[back.value.name].stopping;
            Plan(cal, v, k, now, false, gen) ==
              (if makes then [CreateRun(back.value.name, k, p.rollback, followers)] else if stops then [CancelRun(back.value.name)] else []) +
              (if st'.(runs := runs) != st then [UpdateStatus(k, st'.(runs := runs))] else [])
  {
    hide Plan, Returns, TurnHasCome, FirstRun, WaitForHours;
    TurnHas(cal, v, k, i, now, gen, followers);
    PlanOfTurn(cal, v, k, i, now, gen, followers);
    FirstRunMeans(v.events[k].runs, cal.pipelines[i].name, x);
    var st, p := v.events[k], cal.pipelines[i];
    var first := FirstRun(st.runs, p.rollback);
    FirstRunMeans(st.runs, p.rollback, if y.Some? then y.value else if first.Some? then first.value else 0);
    assert y.None? ==> st.runs + [Run(gen, p.rollback, RunPending)] != st.runs;
    assert forall w: seq<Write> :: w + [] == w;
  }
}
