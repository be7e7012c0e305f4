/** What holds in every reachable state, however many workers run and however far the caches
    lag: the shape of a status, and what justifies every write still to be made. */
module Invariant {
  import opened Prelude
  import opened CalendarTypes
  import opened Protocol
  import opened Growth

  // ------------------------------------------------------------------ a good status

  ghost predicate NamesOwned(s: System, k: Name, st: Status) {
    && (forall x :: 0 <= x < |st.runs| ==> st.runs[x].name in s.owner && s.owner[st.runs[x].name] == k)
    && (forall x, y :: 0 <= x < y < |st.runs| ==> st.runs[x].name != st.runs[y].name)
    && (forall x, y :: 0 <= x < y < |st.runs| ==> st.runs[x].pipeline != st.runs[y].pipeline)
  }

  ghost predicate EntryTrue(s: System, r: Run) {
    && (r.status.RunCompleted? ==> r.name in s.seen && s.seen[r.name].status.RunCompleted?)
    && (r.status.RunFailed? || r.status.RunRollback? ==> r.name in s.seen && s.seen[r.name].status.RunFailed?)
  }

  ghost predicate EntriesTrue(s: System, st: Status) {
    forall x :: 0 <= x < |st.runs| ==> EntryTrue(s, st.runs[x])
  }

  /** Event k is past pipeline i: its own run is completed, or, where only the leader runs
      it, the leader's is. */
  ghost predicate Passed(cal: Calendar, s: System, k: Name, st: Status, i: nat)
    requires i < |cal.pipelines|
  {
    var p := cal.pipelines[i];
    if p.leaderOnly && st.leader != Some(k) then
      && st.leader.Some? && st.leader.value in s.events
      && RunStatusOf(s.events[st.leader.value], p.name) == Some(RunCompleted)
    else RunStatusOf(st, p.name) == Some(RunCompleted)
  }

  ghost predicate PassedUpTo(cal: Calendar, s: System, k: Name, st: Status, n: nat)
    requires n <= |cal.pipelines|
  {
    forall i :: 0 <= i < n ==> Passed(cal, s, k, st, i)
  }

  /** An entry for a pipeline means every earlier pipeline is passed, and an entry for a
      LeaderOnly pipeline means the event leads itself. */
  ghost predicate InOrder(cal: Calendar, s: System, k: Name, st: Status) {
    forall x, j :: 0 <= x < |st.runs| && 0 <= j < |cal.pipelines| && st.runs[x].pipeline == cal.pipelines[j].name ==>
      (cal.pipelines[j].leaderOnly ==> st.leader == Some(k)) && PassedUpTo(cal, s, k, st, j)
  }

  /** Entry x is why the event failed, or was cancelled. */
  ghost predicate EndedBadly(cal: Calendar, s: System, st: Status, x: int, j: int, phase: Phase) {
    && 0 <= x < |st.runs| && 0 <= j < |cal.pipelines| && st.runs[x].pipeline == cal.pipelines[j].name
    && !st.runs[x].status.RunCompleted?
    && st.runs[x].name in s.seen
    && (phase.Failed? ==> s.seen[st.runs[x].name].status.RunFailed?)
    && (phase.Cancelled? ==> s.seen[st.runs[x].name].status.RunCancelled?)
  }

  /** Every Always pipeline is completed, and for a leader every pipeline. */
  ghost predicate Finished(cal: Calendar, k: Name, st: Status) {
    forall i :: 0 <= i < |cal.pipelines| && (!cal.pipelines[i].leaderOnly || st.leader == Some(k)) ==>
      RunStatusOf(st, cal.pipelines[i].name) == Some(RunCompleted)
  }

  ghost predicate PhaseTrue(cal: Calendar, s: System, k: Name, st: Status) {
    && (st.phase.Failed? || st.phase.Cancelled? ==> exists x, j :: EndedBadly(cal, s, st, x, j, st.phase))
    && (st.phase.Completed? ==> Finished(cal, k, st))
    && (st.runs == [] ==> st.phase.Unset? || st.phase.Pending?)
    && (st.leader.Some? || st.runs != [] ==> st.time.Some?)
  }

  ghost predicate LeaderTrue(s: System, k: Name, st: Status)
    requires k in s.specs
  {
    st.leader.Some? ==>
      && st.leader.value in s.specs
      && (if s.specs[k].group == "" then st.leader == Some(k)
          else s.specs[st.leader.value].group == s.specs[k].group)
  }

  ghost predicate GoodStatus(cal: Calendar, s: System, k: Name, st: Status)
    requires k in s.specs
  {
    && NamesOwned(s, k, st) && EntriesTrue(s, st) && InOrder(cal, s, k, st)
    && PhaseTrue(cal, s, k, st) && LeaderTrue(s, k, st)
  }

  // ------------------------------------------------------------------ justified writes

  ghost predicate HasEntry(s: System, k: Name, name: Name, pipeline: string) {
    && k in s.events
    && exists x ::
         0 <= x < |s.events[k].runs| && s.events[k].runs[x].name == name && s.events[k].runs[x].pipeline == pipeline
  }

  ghost predicate LeaseFits(s: System, key: LeaseKey, holder: Name) {
    && holder in s.specs
    && match key
       case NameLease(t) => s.specs[holder].title == t
       case GroupLease(g) => g != "" && s.specs[holder].group == g
  }

  /** The event is gone, or the lister already shows it in a terminal phase. */
  ghost predicate KnownOver(s: System, k: Name) {
    k !in s.alive || (k in s.cache && Terminal(s.cache[k].phase))
  }

  /** Why a write of the sync of k may still be made later. */
  ghost predicate Justified(cal: Calendar, s: System, k: Name, w: Write)
    requires k in s.specs
  {
    match w
    case UpdateStatus(e, st) =>
      && e == k && k in s.events && st.rv <= s.events[k].rv
      && (st.rv == s.events[k].rv ==> Grows(s.events[k], st) && GoodStatus(cal, s, k, st))
    case DeleteEvent(e) => e == k
    case CreateLease(key, holder) => holder == k && LeaseFits(s, key, k)
    case TakeLease(key, previous, holder) =>
      && holder == k && key == NameLease(s.specs[k].title)
      && previous in s.specs && s.specs[previous].created <= s.specs[k].created && KnownOver(s, previous)
    case DeleteLease(key) => key == GroupLease(s.specs[k].group)
    case CreateRun(name, e, pipeline, _) => e == k && HasEntry(s, k, name, pipeline)
    case CancelRun(_) => true
  }

  // ------------------------------------------------------------------ the invariant

  ghost predicate Domains(s: System) {
    && s.events.Keys == s.specs.Keys && s.alive <= s.specs.Keys
    && s.cache.Keys <= s.specs.Keys && s.inflight.Keys <= s.specs.Keys
  }

  ghost predicate CachesLag(s: System)
    requires Domains(s)
  {
    && (forall k :: k in s.cache ==> Older(s.cache[k], s.events[k]))
    && (forall n :: n in s.seen ==> n in s.tekton && RunOlder(s.seen[n], s.tekton[n]))
  }

  ghost predicate RunsRecorded(s: System) {
    forall n :: n in s.tekton ==> HasEntry(s, s.tekton[n].event, n, s.tekton[n].pipeline)
  }

  ghost predicate LeasesFit(s: System) {
    forall key :: key in s.leases ==> LeaseFits(s, key, s.leases[key])
  }

  ghost predicate AllGood(cal: Calendar, s: System)
    requires Domains(s)
  {
    forall k :: k in s.events ==> GoodStatus(cal, s, k, s.events[k])
  }

  ghost predicate AllJustified(cal: Calendar, s: System)
    requires Domains(s)
  {
    forall k, i :: k in s.inflight && 0 <= i < |s.inflight[k]| ==> Justified(cal, s, k, s.inflight[k][i])
  }

  ghost predicate Inv(cal: Calendar, s: System) {
    && Domains(s) && CachesLag(s) && RunsRecorded(s) && LeasesFit(s)
    && AllGood(cal, s) && AllJustified(cal, s)
  }

  // ------------------------------------------------------------------ what is true stays true

  lemma PassedGrows(cal: Calendar, s: System, t: System, k: Name, a: Status, b: Status, i: nat)
    requires i < |cal.pipelines| && Passed(cal, s, k, a, i)
    requires RunsGrow(a.runs, b.runs) && (a.leader.Some? ==> b.leader == a.leader)
    requires forall e :: e in s.events ==> e in t.events && RunsGrow(s.events[e].runs, t.events[e].runs)
    ensures Passed(cal, t, k, b, i)
  {
    var p := cal.pipelines[i];
    CompletionGrows(a, b, p.name);
    if p.leaderOnly && a.leader != Some(k) {
      CompletionGrows(s.events[a.leader.value], t.events[a.leader.value], p.name);
    }
  }

  /** A good status stays good while the rest of the cluster moves on. */
  lemma GoodStays(cal: Calendar, s: System, t: System, k: Name, st: Status)
    requires Extends(s, t) && k in s.specs && GoodStatus(cal, s, k, st)
    ensures GoodStatus(cal, t, k, st)
  {
    forall x, j | 0 <= x < |st.runs| && 0 <= j < |cal.pipelines| && st.runs[x].pipeline == cal.pipelines[j].name
      ensures PassedUpTo(cal, t, k, st, j)
    {
      forall i | 0 <= i < j ensures Passed(cal, t, k, st, i) {
        assert PassedUpTo(cal, s, k, st, j);
        PassedStays(cal, s, t, k, st, i);
      }
    }
    if st.phase.Failed? || st.phase.Cancelled? {
      var x, j :| EndedBadly(cal, s, st, x, j, st.phase);
      assert EndedBadly(cal, t, st, x, j, st.phase);
    }
  }

  lemma PassedStays(cal: Calendar, s: System, t: System, k: Name, st: Status, i: nat)
    requires Extends(s, t) && i < |cal.pipelines| && Passed(cal, s, k, st, i)
    ensures Passed(cal, t, k, st, i)
  {
    if cal.pipelines[i].leaderOnly && st.leader != Some(k) {
      var e := st.leader.value;
      CompletionGrows(s.events[e], t.events[e], cal.pipelines[i].name);
    }
  }

  lemma EntryStays(s: System, t: System, k: Name, name: Name, pipeline: string)
    requires Extends(s, t) && HasEntry(s, k, name, pipeline)
    ensures HasEntry(t, k, name, pipeline)
  {
    var x :| 0 <= x < |s.events[k].runs| && s.events[k].runs[x].name == name && s.events[k].runs[x].pipeline == pipeline;
    assert t.events[k].runs[x].name == name;
  }

  lemma JustifiedStays(cal: Calendar, s: System, t: System, k: Name, w: Write)
    requires Extends(s, t) && Domains(s) && Domains(t) && k in s.specs && Justified(cal, s, k, w)
    ensures Justified(cal, t, k, w)
  {
    match w
    case UpdateStatus(e, st) =>
      if st.rv == t.events[k].rv {
        GoodStays(cal, s, t, k, st);
      }
    case CreateRun(name, e, pipeline, _) => EntryStays(s, t, k, name, pipeline);
    case _ =>
  }
}
