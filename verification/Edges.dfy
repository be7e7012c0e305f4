/** Where the assumptions of the protocol come from: inputs on which the code does otherwise. */
module Edges {
  import opened Prelude
  import opened CalendarDays
  import opened CalendarTypes
  import opened EventSync

  // ------------------------------------------------------------------ names of leases

  function LowerChar(c: char): char {
    if 'A' <= c <= 'Z' then (c as int + 32) as char else c
  }

  function Lower(s: string): (r: string)
    ensures |r| == |s| && forall i :: 0 <= i < |s| ==> r[i] == LowerChar(s[i])
  {
    if s == "" then "" else [LowerChar(s[0])] + Lower(s[1..])
  }

  /** The object name of the lease on a title, and of the lease on a group. */
  function NameLeaseName(calendar: string, title: string): string {
    calendar + "-" + title
  }

  function GroupLeaseName(calendar: string, group: string): string {
    Lower(calendar + "-" + group)
  }

  /** The two leases of one calendar are the same object exactly if the calendar is in lower
      case and the title is the group in lower case. */
  lemma LeasesCollide(calendar: string, title: string, group: string)
    ensures NameLeaseName(calendar, title) == GroupLeaseName(calendar, group) <==>
              calendar == Lower(calendar) && title == Lower(group)
  {
    var a, b, n := NameLeaseName(calendar, title), GroupLeaseName(calendar, group), |calendar|;
    assert b == Lower(calendar) + "-" + Lower(group);
    assert a[..n] == calendar && b[..n] == Lower(calendar);
    assert a[n + 1..] == title && b[n + 1..] == Lower(group);
  }

  // ------------------------------------------------------------------ events without runs

  /** A Completed event without runs is put back to Pending by its next sync. */
  lemma CompletedWithoutRuns(cal: Calendar, v: View, k: Name, now: int, paused: bool, gen: Name)
    requires Feasible(cal.days) && v.Valid() && k in v.events && v.events[k].phase.Completed? && v.events[k].runs == []
    requires v.events[k].time.Some? && (v.specs[k].time.Some? ==> v.specs[k].time == v.events[k].time)
    ensures Plan(cal, v, k, now, paused, gen) == [UpdateStatus(k, v.events[k].(phase := Pending))]
  {
    hide RunFrom, AcquireLease;
    assert v.events[k].(time := v.events[k].time) == v.events[k];
  }

  /** Where only the leader runs anything, a follower that has been through all pipelines has no
      runs, and is declared Completed again. */
  lemma PendingWithoutRuns(cal: Calendar, v: View, k: Name, st: Status, i: nat, now: int, gen: Name)
    requires cal.Valid() && v.Valid() && k in v.events && st == v.events[k] && i <= |cal.pipelines|
    requires st.phase.Pending? && st.time.Some? && st.leader.Some? && st.leader != Some(k) && st.leader.value in v.events
    requires v.specs[k].after == []
    requires forall j :: i <= j < |cal.pipelines| ==>
               && cal.pipelines[j].leaderOnly && !Early(cal, st, j, now)
               && RunStatusOf(v.events[st.leader.value], cal.pipelines[j].name) == Some(RunCompleted)
    ensures RunFrom(cal, v, k, st, i, now, gen) == [UpdateStatus(k, st.(phase := Completed))]
    decreases |cal.pipelines| - i
  {
    hide Early, GatherAndRun, RunStatusOf;
    if i < |cal.pipelines| {
      assert Titles([]) == {};
      assert AfterDone(cal, v, k, st, i);
      assert SyncPipeline(cal, v, k, st, i, LastAlways(cal.pipelines, i), now, gen) == Quiet(v, Next(st, true));
      assert v.(leases := v.leases) == v;
      PendingWithoutRuns(cal, v, k, st, i + 1, now, gen);
    }
  }

  /** Such a follower changes phase for ever: its sync makes Pending Completed, and then Completed
      Pending. */
  lemma PhaseFlips(cal: Calendar, v: View, w: View, k: Name, st: Status, now: int, gen: Name)
    requires cal.Valid() && v.Valid() && k in v.events && st == v.events[k] && st.runs == []
    requires st.phase.Pending? && st.time.Some? && st.leader.Some? && st.leader != Some(k) && st.leader.value in v.events
    requires v.specs[k].after == [] && (v.specs[k].time.Some? ==> v.specs[k].time == st.time)
    requires NameLease(v.specs[k].title) in v.leases && v.leases[NameLease(v.specs[k].title)] == k
    requires forall j :: 0 <= j < |cal.pipelines| ==>
               && cal.pipelines[j].leaderOnly && !Early(cal, st, j, now)
               && RunStatusOf(v.events[st.leader.value], cal.pipelines[j].name) == Some(RunCompleted)
    requires w == v.(events := v.events[k := st.(phase := Completed)])
    ensures Plan(cal, v, k, now, false, gen) == [UpdateStatus(k, w.events[k])]
    ensures w.Valid() && Plan(cal, w, k, now, false, gen) == [UpdateStatus(k, st)]
  {
    hide RunFrom, Early, Plan, RunStatusOf;
    PendingWithoutRuns(cal, v, k, st, 0, now, gen);
    CompletedWithoutRuns(cal, w, k, now, false, gen);
    PendingPlan(cal, v, k, now, gen);
  }

  lemma PendingPlan(cal: Calendar, v: View, k: Name, now: int, gen: Name)
    requires cal.Valid() && v.Valid() && k in v.events && v.events[k].phase.Pending? && v.events[k].time.Some? && v.events[k].runs == []
    requires v.specs[k].after == [] && (v.specs[k].time.Some? ==> v.specs[k].time == v.events[k].time)
    requires NameLease(v.specs[k].title) in v.leases && v.leases[NameLease(v.specs[k].title)] == k
    ensures Plan(cal, v, k, now, false, gen) == RunFrom(cal, v, k, v.events[k], 0, now, gen)
  {
    hide RunFrom;
    var st := v.events[k];
    assert AcquireLease(v, k, st) == Acquired([], v.leases, true) && v.(leases := v.leases) == v;
    assert ProbeTime(cal, v, k, st, now) == Ok(st) && ProbePhase(cal, k, st) == st;
    assert [] + RunFrom(cal, v, k, st, 0, now, gen) == RunFrom(cal, v, k, st, 0, now, gen);
  }
}
