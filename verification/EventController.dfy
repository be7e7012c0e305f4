/** The controller as it works: an object that reads listers, changes a copy of an event, and
    sends writes to the API server one at a time. Each method is proved against its function
    in EventSync; when the server stops accepting, what has been sent is a prefix of the plan. */
module EventController {
  import opened Prelude
  import opened CalendarDays
  import opened CalendarHours
  import opened CalendarTypes
  import opened EventSync
  import opened Segments
  import opened WakeUp

  /** The copy of an event that a sync works on. */
  class Event {
    const key: Name
    const rv: nat
    var phase: Phase
    var time: Option<int>
    var leader: Option<Name>
    var runs: seq<Run>

    constructor (key: Name, st: Status)
      ensures this.key == key && Value() == st
    {
      this.key, rv := key, st.rv;
      phase, time, leader, runs := st.phase, st.time, st.leader, st.runs;
    }

    function Value(): Status
      reads this
    {
      Status(rv, phase, time, leader, runs)
    }

    /** getPipelineRunStatusOrInit: the entry of a pipeline, or a new one under a new name. */
    method GetPipelineRunStatusOrInit(pipeline: string, gen: Name) returns (found: bool, index: nat)
      modifies this`runs
      ensures index < |runs| && runs[index].pipeline == pipeline
      ensures found ==> Value() == old(Value()) && FirstRun(runs, pipeline) == Some(index)
      ensures !found ==> FirstRun(old(runs), pipeline).None? && Value() == AddRun(old(Value()), pipeline, gen)
    {
      index := 0;
      while index < |runs|
        invariant index <= |runs| && forall j :: 0 <= j < index ==> runs[j].pipeline != pipeline
        invariant FirstRunFrom(runs, pipeline, index) == FirstRun(runs, pipeline)
      {
        if runs[index].pipeline == pipeline {
          return true, index;
        }
        index := index + 1;
      }
      runs := runs + [Run(gen, pipeline, RunPending)];
      return false, index;
    }

    /** probePhase: no runs yet means pending, all Always pipelines completed means completed. */
    method ProbePhase(cal: Calendar)
      modifies this`phase
      ensures Value() == EventSync.ProbePhase(cal, key, old(Value()))
    {
      if |runs| == 0 {
        phase := Pending;
        return;
      }
      if leader.None? || leader == Some(key) {
        return;
      }
      var completed: map<string, bool> := map[];
      for i := 0 to |runs|
        invariant forall p :: LastCompleted(runs[..i], p) == (p in completed && completed[p])
      {
        assert runs[..i + 1][..i] == runs[..i];
        completed := completed[runs[i].pipeline := runs[i].status.RunCompleted?];
      }
      assert runs[..|runs|] == runs;
      for i := 0 to |cal.pipelines|
        invariant forall j :: 0 <= j < i && !cal.pipelines[j].leaderOnly ==> LastCompleted(runs, cal.pipelines[j].name)
      {
        var name := cal.pipelines[i].name;
        if !cal.pipelines[i].leaderOnly && !(name in completed && completed[name]) {
          return;
        }
      }
      phase := Completed;
    }
  }

  // ------------------------------------------------------------------ what has been sent

  /** Of the writes wanted, as many have been sent as the server would take. */
  ghost predicate Made(log: seq<Write>, quota: nat, log': seq<Write>, quota': nat, writes: seq<Write>) {
    if |writes| <= quota then log' == log + writes && quota' == quota - |writes|
    else log' == log + writes[..quota] && quota' == 0
  }

  lemma MadeNothing(log: seq<Write>, quota: nat)
    ensures Made(log, quota, log, quota, [])
  {
  }

  /** All of a and then b. */
  lemma MadeBoth(log0: seq<Write>, quota0: nat, log1: seq<Write>, quota1: nat, log2: seq<Write>, quota2: nat,
                 a: seq<Write>, b: seq<Write>)
    requires Made(log0, quota0, log1, quota1, a) && |a| <= quota0 && Made(log1, quota1, log2, quota2, b)
    ensures Made(log0, quota0, log2, quota2, a + b)
  {
    if |b| <= quota1 {
      assert log0 + a + b == log0 + (a + b);
    } else {
      assert (a + b)[..quota0] == a + b[..quota1];
      assert log0 + a + b[..quota1] == log0 + (a + b[..quota1]);
    }
  }

  lemma SentOne(log0: seq<Write>, quota0: nat, log1: seq<Write>, quota1: nat, w: Write)
    requires Made(log0, quota0, log1, quota1, [w]) && quota0 > 0
    ensures quota1 == quota0 - 1
  {
  }

  lemma AllSent(log0: seq<Write>, quota0: nat, log1: seq<Write>, quota1: nat, a: seq<Write>, b: seq<Write>)
    requires Made(log0, quota0, log1, quota1, a) && |a| <= quota0 && |b| <= quota1
    ensures |a + b| <= quota0
  {
  }

  /** Not all of a, so nothing of b. */
  lemma MadeShort(log0: seq<Write>, quota0: nat, log1: seq<Write>, quota1: nat, a: seq<Write>, b: seq<Write>)
    requires Made(log0, quota0, log1, quota1, a) && quota0 < |a|
    ensures Made(log0, quota0, log1, quota1, a + b)
  {
    assert (a + b)[..quota0] == a[..quota0];
  }

  /** The map holds, for each title, the latest event of the list. */
  ghost predicate ByLatest(v: View, xs: seq<Name>, byName: map<string, Name>)
    requires forall k :: k in xs ==> k in v.specs && k in v.events
  {
    forall t :: Latest(v, xs, t) == if t in byName then Some(byName[t]) else None
  }

  lemma {:induction false} LatestIsTimed(v: View, xs: seq<Name>, title: string)
    requires forall k :: k in xs ==> k in v.specs && k in v.events
    ensures var r := Latest(v, xs, title);
            r.Some? ==> r.value in xs && v.specs[r.value].title == title && v.events[r.value].time.Some?
  {
    if xs != [] {
      LatestIsTimed(v, xs[..|xs| - 1], title);
    }
  }

  lemma LatestStep(v: View, xs: seq<Name>, i: nat, byName: map<string, Name>)
    requires i < |xs| && forall k :: k in xs ==> k in v.specs && k in v.events
    requires forall k :: k in xs[..i] ==> k in v.specs && k in v.events
    requires forall k :: k in xs[..i + 1] ==> k in v.specs && k in v.events
    requires ByLatest(v, xs[..i], byName)
    ensures forall t :: t in byName ==> byName[t] in v.specs && byName[t] in v.events && v.events[byName[t]].time.Some? && v.specs[byName[t]].title == t
    ensures var e, t := v.events[xs[i]], v.specs[xs[i]].title;
            ByLatest(v, xs[..i + 1],
              if e.time.Some? && (t !in byName || e.time.value > v.events[byName[t]].time.value) then byName[t := xs[i]] else byName)
  {
    assert xs[..i + 1][..i] == xs[..i];
    forall t | t in byName ensures byName[t] in v.specs && byName[t] in v.events && v.events[byName[t]].time.Some? && v.specs[byName[t]].title == t {
      LatestIsTimed(v, xs[..i], t);
    }
  }

  lemma FilteredIsKept(v: View, xs: seq<Name>, byName: map<string, Name>)
    requires (forall k :: k in xs ==> k in v.specs && k in v.events) && ByLatest(v, xs, byName)
    ensures forall e :: (e in xs && v.events[e].time.None?) || (exists t :: t in byName && byName[t] == e) <==> e in xs && Kept(v, xs, e)
  {
    forall e
      ensures (e in xs && v.events[e].time.None?) || (exists t :: t in byName && byName[t] == e) <==> e in xs && Kept(v, xs, e)
    {
      if t :| t in byName && byName[t] == e {
        LatestIsTimed(v, xs, t);
      }
    }
  }

  lemma FollowersNext(events: map<Name, Status>, leader: Name, last: string, xs: seq<Name>, i: nat)
    requires i < |xs| && forall k :: k in xs ==> k in events
    ensures var ev, rest := events[xs[i]], xs[i + 1..];
            && (ev.leader != Some(leader) ==>
                 && FollowersScan(events, leader, last, xs[i..]) == FollowersScan(events, leader, last, rest)
                 && FollowersOf(events, leader, xs[i..]) == FollowersOf(events, leader, rest))
            && (ev.leader == Some(leader) ==>
                 && FollowersOf(events, leader, xs[i..]) == [xs[i]] + FollowersOf(events, leader, rest)
                 && FollowersScan(events, leader, last, xs[i..]) ==
                      if ev.time.None? then Panic
                      else if last == "" || FollowerSettled(ev, last) then FollowersScan(events, leader, last, rest)
                      else Wait)
  {
    hide FollowerSettled;
    assert xs[i..][0] == xs[i] && xs[i..][1..] == xs[i + 1..];
    assert [] + FollowersOf(events, leader, xs[i + 1..]) == FollowersOf(events, leader, xs[i + 1..]);
  }

  lemma FollowersEnd(events: map<Name, Status>, leader: Name, last: string)
    ensures FollowersScan(events, leader, last, []).Pass? && FollowersOf(events, leader, []) == []
  {
  }

  class Controller {
    const cal: Calendar

    // what the listers hold
    const specs: map<Name, Spec>
    const order: seq<Name>
    const events: map<Name, Status>
    const tekton: map<Name, TektonRun>

    // the API server: its leases, what it was sent, and how many more writes it will take
    var leases: map<LeaseKey, Name>
    var log: seq<Write>
    var quota: nat

    var queue: set<Name>

    ghost predicate Valid()
      reads this`leases
    {
      cal.Valid() && View().Valid()
    }

    function View(): View
      reads this`leases
    {
      CalendarTypes.View(specs, order, events, leases, tekton)
    }

    constructor (cal: Calendar, v: View, quota: nat)
      requires cal.Valid() && v.Valid()
      ensures Valid() && this.cal == cal && View() == v && log == [] && this.quota == quota && queue == {}
    {
      this.cal := cal;
      specs, order, events, tekton, leases := v.specs, v.order, v.events, v.tekton, v.leases;
      log, this.quota, queue := [], quota, {};
    }

    /** One call to the API server. */
    method Send(w: Write) returns (ok: bool)
      modifies this`leases, this`log, this`quota
      ensures ok == (old(quota) > 0)
      ensures Made(old(log), old(quota), log, quota, [w])
      ensures leases == if !ok then old(leases)
                        else if w.CreateLease? || w.TakeLease? then old(leases)[w.key := w.holder]
                        else if w.DeleteLease? then old(leases) - {w.key}
                        else old(leases)
    {
      if quota == 0 {
        assert [w][..0] == [];
        return false;
      }
      quota, log := quota - 1, log + [w];
      if w.CreateLease? || w.TakeLease? {
        leases := leases[w.key := w.holder];
      } else if w.DeleteLease? {
        leases := leases - {w.key};
      }
      return true;
    }

    // ---------------------------------------------------------------- time and leases

    /** The latest of t and the times that the events listed give. */
    method ProbeListed(xs: seq<Name>, offset: Offset, t: int) returns (r: Probe)
      requires cal.Valid() && forall k :: k in xs ==> k in events
      ensures r == ProbeOne(cal, View(), xs, offset, t)
    {
      var latest := t;
      for j := 0 to |xs|
        invariant ProbeOne(cal, View(), xs[j..], offset, latest) == ProbeOne(cal, View(), xs, offset, t)
      {
        assert xs[j..][1..] == xs[j + 1..] && xs[j..][0] == xs[j];
        var time := events[xs[j]].time;
        if time.None? {
          return NotYet;
        }
        var when := ComputeTimeWithOffset(time.value, offset, cal.zone, cal.days);
        if when.Err? {
          return Bad;
        }
        if when.value > latest {
          latest := when.value;
        }
      }
      return Reached(latest);
    }

    method ProbeTime(ev: Event, now: int) returns (ok: bool)
      requires Valid() && ev.key in events
      modifies ev`time
      ensures var r := EventSync.ProbeTime(cal, View(), ev.key, old(ev.Value()), now);
              ok == r.Ok? && (ok ==> ev.Value() == r.value)
    {
      hide GetTimeWithOffset, ProbeOne;
      var spec := specs[ev.key];
      var t := now;
      if ev.time.Some? {
        t := ev.time.value;
      }
      if spec.time.Some? {
        t := spec.time.value;
      }
      if !ev.phase.Unset? && !ev.phase.Pending? {
        ev.time := Some(t);
        return true;
      }
      if |spec.after| > 0 && spec.created + 15 * SECOND > now {
        return true;
      }
      ghost var all := ProbeAll(cal, View(), spec.after, t);
      for i := 0 to |spec.after|
        invariant ProbeAll(cal, View(), spec.after[i..], t) == all && ev.Value() == old(ev.Value())
      {
        assert spec.after[i..][1..] == spec.after[i + 1..];
        var after := spec.after[i];
        var probe := ProbeListed(ByTitle(View(), order, {after.title}), after.offset, t);
        match probe {
          case NotYet => return true;
          case Bad => return false;
          case Reached(when) => t := when;
        }
      }
      ev.time := Some(t);
      return true;
    }

    method AcquireLease(ev: Event) returns (acquired: bool, failed: bool)
      requires Valid() && ev.key in events
      modifies this`leases, this`log, this`quota
      ensures Valid()
      ensures var a := EventSync.AcquireLease(old(View()), ev.key, ev.Value());
              && Made(old(log), old(quota), log, quota, a.writes)
              && acquired == (a.ok && |a.writes| <= old(quota))
              && failed == (|a.writes| > old(quota) || HolderUnlisted(old(View()), ev.key, ev.Value()))
              && (acquired ==> leases == a.leases)
    {
      MadeNothing(log, quota);
      if !ev.phase.Unset? && !ev.phase.Pending? {
        return true, false;
      }
      var key := NameLease(specs[ev.key].title);
      if key !in leases {
        acquired := Send(CreateLease(key, ev.key));
        return acquired, !acquired;
      }
      var holder := leases[key];
      if holder == ev.key {
        return true, false;
      }
      if holder !in events {
        return false, true;
      }
      if specs[ev.key].created < specs[holder].created {
        var deleted := Send(DeleteEvent(ev.key));
        return false, !deleted;
      }
      var phase := events[holder].phase;
      if phase.Unset? || phase.Pending? || phase.Running? {
        return false, false;
      }
      acquired := Send(TakeLease(key, holder, ev.key));
      return acquired, !acquired;
    }

    /** False if it stops on a leader without a time. */
    method ProbeLeader(ev: Event) returns (ok: bool)
      requires Valid() && ev.key in events && ev.time.Some?
      modifies ev`leader
      ensures var r := EventSync.ProbeLeader(cal, View(), ev.key, old(ev.Value()));
              ok == r.Some? && (ok ==> ev.Value() == r.value)
    {
      var group := specs[ev.key].group;
      if group == "" || ev.leader.Some? {
        return true;
      }
      var key := GroupLease(group);
      if key !in leases {
        return true;
      }
      var leader := leases[key];
      if leader !in events {
        return true;
      }
      if cal.daily && events[leader].time.None? {
        return false;
      }
      if !cal.daily || SameDay(events[leader].time.value, ev.time.value, cal.zone) {
        ev.leader := Some(leader);
      }
      return true;
    }

    method LeaderElect(ev: Event) returns (ok: bool)
      requires Valid() && ev.key in events && ev.leader.None?
      modifies this`leases, this`log, this`quota, ev`leader
      ensures Valid()
      ensures var r := EventSync.LeaderElect(old(View()), ev.key, old(ev.Value()));
              && Made(old(log), old(quota), log, quota, r.writes)
              && ok == (|r.writes| <= old(quota))
              && (ok ==> leases == r.leases && r.outcome == Next(ev.Value(), false))
    {
      MadeNothing(log, quota);
      var group := specs[ev.key].group;
      if group == "" {
        ev.leader := Some(ev.key);
        return true;
      }
      var key := GroupLease(group);
      if key !in leases {
        ok := Send(CreateLease(key, ev.key));
        if !ok {
          return;
        }
      }
      ev.leader := Some(leases[key]);
      return true;
    }

    /** lockLeader: whether every event of the group has joined; if so the group is locked. */
    method LockLeader(ev: Event) returns (ok: bool, locked: bool)
      requires Valid() && ev.key in events && ev.time.Some? && ev.leader == Some(ev.key)
      modifies this`leases, this`log, this`quota
      ensures Valid()
      ensures var group := specs[ev.key].group;
              var key := GroupLease(group);
              if group == "" || key !in old(leases) then
                ok && locked && leases == old(leases) && log == old(log) && quota == old(quota)
              else
                match LockScan(cal, old(View()), group, ev.time.value, order)
                case Panic => !ok && leases == old(leases) && log == old(log) && quota == old(quota)
                case Wait => ok && !locked && leases == old(leases) && log == old(log) && quota == old(quota)
                case Pass =>
                  && Made(old(log), old(quota), log, quota, [DeleteLease(key)]) && ok == (old(quota) > 0)
                  && (ok ==> locked && leases == old(leases) - {key})
    {
      hide Made, SameDay;
      var group := specs[ev.key].group;
      if group == "" {
        return true, true;
      }
      var key := GroupLease(group);
      if key !in leases {
        return true, true;
      }
      for i := 0 to |order|
        invariant LockScan(cal, View(), group, ev.time.value, order[i..]) == LockScan(cal, View(), group, ev.time.value, order)
      {
        assert order[i..][1..] == order[i + 1..] && order[i..][0] == order[i];
        var other := events[order[i]];
        if specs[order[i]].group != group {
          continue;
        }
        if cal.daily {
          if other.time.None? {
            return false, false;
          }
          if !SameDay(other.time.value, ev.time.value, cal.zone) {
            continue;
          }
        }
        if other.leader.None? {
          return true, false;
        }
      }
      ok := Send(DeleteLease(key));
      locked := ok;
    }

    /** getFollowersParams: whether all followers have settled the pipeline, and who they are. */
    method GetFollowersParams(leader: Name, pipeline: string) returns (verdict: Verdict, followers: seq<Name>)
      requires Valid()
      ensures verdict == FollowersScan(events, leader, pipeline, order)
      ensures verdict.Pass? ==> followers == FollowersOf(events, leader, order)
    {
      hide FollowersScan, FollowersOf;
      followers := [];
      assert order[0..] == order;
      for i := 0 to |order|
        invariant FollowersScan(events, leader, pipeline, order[i..]) == FollowersScan(events, leader, pipeline, order)
        invariant followers + FollowersOf(events, leader, order[i..]) == FollowersOf(events, leader, order)
      {
        FollowersNext(events, leader, pipeline, order, i);
        var other := events[order[i]];
        if other.leader != Some(leader) {
          continue;
        }
        if other.time.None? {
          return Panic, [];
        }
        if pipeline != "" && !other.phase.Failed? && !other.phase.Cancelled? {
          var completed := SettledIn(other.runs, pipeline);
          if !completed {
            return Wait, [];
          }
        }
        followers := followers + [order[i]];
      }
      FollowersEnd(events, leader, pipeline);
      assert order[|order|..] == [];
      return Pass, followers;
    }

    // ---------------------------------------------------------------- runAfter

    /** filterEvents: of events of one title the latest, and all those without a time. */
    method FilterEvents(xs: seq<Name>) returns (results: seq<Name>)
      requires forall k :: k in xs ==> k in specs && k in events
      ensures forall e :: e in results <==> e in xs && Kept(View(), xs, e)
    {
      results := [];
      var byName: map<string, Name> := map[];
      for i := 0 to |xs|
        invariant forall e :: e in results <==> e in xs[..i] && events[e].time.None?
        invariant ByLatest(View(), xs[..i], byName)
      {
        LatestStep(View(), xs, i, byName);
        assert xs[..i + 1] == xs[..i] + [xs[i]];
        var title := specs[xs[i]].title;
        if events[xs[i]].time.None? {
          results := results + [xs[i]];
        } else if title !in byName {
          byName := byName[title := xs[i]];
        } else if events[xs[i]].time.value > events[byName[title]].time.value {
          byName := byName[title := xs[i]];
        }
      }
      assert xs[..|xs|] == xs;
      ghost var untimed := results;
      var titles := byName.Keys;
      while titles != {}
        invariant titles <= byName.Keys
        invariant forall e :: e in results <==> e in untimed || exists t :: t in byName && t !in titles && byName[t] == e
      {
        var t: string :| t in titles;
        titles := titles - {t};
        results := results + [byName[t]];
      }
      FilteredIsKept(View(), xs, byName);
    }

    /** The index the map gives, 0 for an unknown name. */
    function Lookup(indexes: map<string, nat>, name: string): nat {
      if name in indexes then indexes[name] else 0
    }

    /** The runAfter part of syncEventPipeline: every predecessor has completed what it must. */
    method RunAfterDone(ev: Event, i: nat, begin: string, end: string, indexes: map<string, nat>) returns (done: bool)
      requires Valid() && ev.key in events && i < |cal.pipelines|
      requires begin == BeginName(cal.pipelines, i) && end == EndName(cal.pipelines, i)
      requires Indexed(cal.pipelines, |cal.pipelines|, indexes)
      ensures done == AfterDone(cal, View(), ev.key, ev.Value(), i)
    {
      hide GetTimeWithOffset, Kept, PipelineCompleted, Indexed;
      var after := specs[ev.key].after;
      var xs := ByTitle(View(), order, Titles(after));
      var filtered := FilterEvents(xs);
      for j := 0 to |filtered|
        invariant forall h :: 0 <= h < j ==> PredecessorDone(cal, View(), ev.key, ev.Value(), i, filtered[h])
      {
        var e := filtered[j];
        assert e in xs && Kept(View(), xs, e);
        var other, want := events[e], AfterPipeline(after, specs[e].title);
        if other.leader.None? || other.leader != ev.leader {
          if PipelineCompleted(other, want) {
            continue;
          }
          return false;
        }
        if cal.pipelines[i].leaderOnly && other.leader != Some(e) {
          continue;
        }
        WithinByNames(i, indexes, want);
        if want == "" || Lookup(indexes, begin) > Lookup(indexes, want) || Lookup(indexes, end) < Lookup(indexes, want) {
          want := end;
        }
        if !PipelineCompleted(other, want) {
          return false;
        }
      }
      forall e | e in xs && Kept(View(), xs, e) ensures PredecessorDone(cal, View(), ev.key, ev.Value(), i, e) {
        assert e in filtered;
      }
      return true;
    }

    lemma WithinByNames(i: nat, indexes: map<string, nat>, want: string)
      requires cal.Valid() && i < |cal.pipelines| && Indexed(cal.pipelines, |cal.pipelines|, indexes)
      ensures var b, e, w := Lookup(indexes, BeginName(cal.pipelines, i)), Lookup(indexes, EndName(cal.pipelines, i)), Lookup(indexes, want);
              WithinSegment(cal.pipelines, i, want) == if want == "" || b > w || e < w then EndName(cal.pipelines, i) else want
    {
      IndexesAgree(cal.pipelines, indexes, want);
      assert NamesDiffer(cal.pipelines);
      assert cal.pipelines[SegmentBegin(cal.pipelines, i)].name in indexes && cal.pipelines[SegmentEnd(cal.pipelines, i)].name in indexes;
    }

    // ---------------------------------------------------------------- running a pipeline

    method CancelPipelineRun(name: Name) returns (ok: bool)
      requires name in tekton
      modifies this`leases, this`log, this`quota
      ensures leases == old(leases)
      ensures Made(old(log), old(quota), log, quota, Stopping(View(), name)) && ok == (|Stopping(View(), name)| <= old(quota))
    {
      MadeNothing(log, quota);
      if tekton[name].stopping {
        return true;
      }
      ok := Send(CancelRun(name));
    }

    method RollbackEventPipeline(ev: Event, p: Pipeline, followers: seq<Name>, gen: Name) returns (ok: bool)
      requires Valid() && ev.key in events
      modifies this`leases, this`log, this`quota, ev`runs
      ensures leases == old(leases)
      ensures var r := RollBack(old(View()), ev.key, old(ev.Value()), p, followers, gen);
              && Made(old(log), old(quota), log, quota, r.writes) && ok == (|r.writes| <= old(quota))
              && (ok ==> r.outcome == Next(ev.Value(), false))
    {
      MadeNothing(log, quota);
      var found, x := ev.GetPipelineRunStatusOrInit(p.rollback, gen);
      if !found {
        return true;
      }
      var run := ev.runs[x];
      if run.status.RunCompleted? || run.status.RunFailed? {
        return true;
      }
      if run.name !in tekton {
        if run.status.RunCancelled? {
          return true;
        }
        ok := Send(CreateRun(run.name, ev.key, p.rollback, followers));
        return;
      }
      var status := tekton[run.name].status;
      if status.RunCompleted? || status.RunCancelled? || status.RunFailed? {
        ev.runs := ev.runs[x := run.(status := status)];
        return true;
      }
      if run.status.RunCancelled? {
        ok := CancelPipelineRun(run.name);
        return;
      }
      ev.runs := ev.runs[x := run.(status := status)];
      return true;
    }

    /** Tekton does not show the run: create it, unless the entry says otherwise. */
    method CreateOrRollback(ev: Event, i: nat, x: nat, followers: seq<Name>, now: int, gen: Name) returns (ok: bool)
      requires Valid() && ev.key in events && i < |cal.pipelines| && x < |ev.runs| && ev.runs[x].pipeline == cal.pipelines[i].name
      requires !ev.runs[x].status.RunCompleted?
      modifies this`leases, this`log, this`quota, ev`runs
      ensures leases == old(leases)
      ensures var r := ExecuteUnseen(cal, old(View()), ev.key, old(ev.Value()), i, x, followers, now, gen);
              && Made(old(log), old(quota), log, quota, r.writes)
              && ok == (r.outcome.Next? && |r.writes| <= old(quota))
              && (ok ==> r.outcome == Next(ev.Value(), false))
    {
      hide WaitForHours, RollBack;
      var p, run := cal.pipelines[i], ev.runs[x];
      MadeNothing(log, quota);
      if run.status.RunCancelled? {
        return true;
      }
      if run.status.RunFailed? {
        if p.rollback != "" && p.autoRollback {
          ev.runs := ev.runs[x := run.(status := RunRollback)];
        }
        return true;
      }
      if run.status.RunRollback? {
        ok := RollbackEventPipeline(ev, p, followers, gen);
        return;
      }
      var wait := InCalendarHours(now, cal.hours, cal.zone);
      if wait > 0 {
        return false;
      }
      ok := Send(CreateRun(run.name, ev.key, p.name, followers));
    }

    /** Tekton shows the run: take over its state. */
    method TrackPipelineRun(ev: Event, i: nat, x: nat, followers: seq<Name>, gen: Name) returns (ok: bool, done: bool)
      requires Valid() && ev.key in events && i < |cal.pipelines| && x < |ev.runs| && ev.runs[x].name in tekton
      requires !ev.runs[x].status.RunCompleted?
      modifies this`leases, this`log, this`quota, ev`runs, ev`phase
      ensures leases == old(leases)
      ensures var r := ExecuteSeen(cal, old(View()), ev.key, old(ev.Value()), i, x, followers, gen);
              && Made(old(log), old(quota), log, quota, r.writes)
              && ok == (r.outcome.Next? && |r.writes| <= old(quota))
              && (ok ==> r.outcome == Next(ev.Value(), done))
    {
      hide RollBack;
      var p, run := cal.pipelines[i], ev.runs[x];
      MadeNothing(log, quota);
      done := false;
      var status: RunStatus := tekton[run.name].status;
      if status.RunCompleted? {
        ev.phase := Running;
        ev.runs := ev.runs[x := run.(status := RunCompleted)];
        return true, true;
      }
      if status.RunCancelled? || status.RunFailed? {
        ev.phase := if status.RunCancelled? then Cancelled else Failed;
        if run.status.RunRollback? {
          ok := RollbackEventPipeline(ev, p, followers, gen);
          return;
        }
        if status.RunCancelled? {
          ev.runs := ev.runs[x := run.(status := RunCancelled)];
        } else if p.rollback != "" && p.autoRollback {
          ev.runs := ev.runs[x := run.(status := RunRollback)];
        } else {
          ev.runs := ev.runs[x := run.(status := RunFailed)];
        }
        return true, false;
      }
      ev.phase := Running;
      if run.status.RunCancelled? {
        ok := CancelPipelineRun(run.name);
        return;
      }
      ev.runs := ev.runs[x := run.(status := status)];
      return true, false;
    }

    /** Running one pipeline, from its entry on. */
    method ExecutePipeline(ev: Event, i: nat, followers: seq<Name>, now: int, gen: Name) returns (ok: bool, done: bool)
      requires Valid() && ev.key in events && i < |cal.pipelines|
      modifies this`leases, this`log, this`quota, ev`runs, ev`phase
      ensures leases == old(leases)
      ensures var r := Execute(cal, old(View()), ev.key, old(ev.Value()), i, followers, now, gen);
              && Made(old(log), old(quota), log, quota, r.writes)
              && ok == (r.outcome.Next? && |r.writes| <= old(quota))
              && (ok ==> r.outcome == Next(ev.Value(), done))
    {
      hide ExecuteSeen, ExecuteUnseen, Made;
      MadeNothing(log, quota);
      var found, x := ev.GetPipelineRunStatusOrInit(cal.pipelines[i].name, gen);
      if !found {
        return true, false;
      }
      if ev.runs[x].status.RunCompleted? {
        return true, true;
      }
      if ev.runs[x].name !in tekton {
        ok := CreateOrRollback(ev, i, x, followers, now, gen);
        done := false;
      } else {
        ok, done := TrackPipelineRun(ev, i, x, followers, gen);
      }
    }

    // ---------------------------------------------------------------- one pipeline

    /** The leader's side once the group is locked: gather the followers and run. */
    method GatherAndRun(ev: Event, i: nat, last: string, now: int, gen: Name) returns (ok: bool, done: bool)
      requires Valid() && ev.key in events && i < |cal.pipelines|
      modifies this`leases, this`log, this`quota, ev`runs, ev`phase
      ensures leases == old(leases)
      ensures var r := EventSync.GatherAndRun(cal, old(View()), ev.key, old(ev.Value()), i, last, [], now, gen);
              && Made(old(log), old(quota), log, quota, r.writes)
              && ok == (r.outcome.Next? && |r.writes| <= old(quota))
              && (ok ==> r.outcome == Next(ev.Value(), done))
    {
      hide Execute, Made;
      MadeNothing(log, quota);
      var verdict, followers := GetFollowersParams(ev.key, last);
      match verdict {
        case Panic => return false, false;
        case Wait => return true, false;
        case Pass =>
      }
      ghost var writes := Execute(cal, View(), ev.key, ev.Value(), i, followers, now, gen).writes;
      assert [] + writes == writes;
      ok, done := ExecutePipeline(ev, i, followers, now, gen);
    }

    /** What a first write of the lock adds to a gathering. */
    lemma GatherAfter(v: View, k: Name, st: Status, i: nat, last: string, writes: seq<Write>, now: int, gen: Name)
      requires v.Valid() && k in v.events && i < |cal.pipelines|
      ensures var r, all := EventSync.GatherAndRun(cal, v, k, st, i, last, [], now, gen), EventSync.GatherAndRun(cal, v, k, st, i, last, writes, now, gen);
              all == r.(writes := writes + r.writes)
    {
      hide Execute, FollowersScan;
      var r := EventSync.GatherAndRun(cal, v, k, st, i, last, [], now, gen);
      assert writes + [] == writes;
      assert forall w: seq<Write> :: [] + w == w;
    }

    /** What the leader writes, by what lockLeader finds. */
    lemma LeaderWrites(v: View, k: Name, st: Status, i: nat, last: string, now: int, gen: Name)
      requires v.Valid() && k in v.events && i < |cal.pipelines| && st.time.Some? && st.leader == Some(k)
      requires v.specs[k].created + 30 * SECOND <= now
      ensures var r, group := SyncLeaderOnly(cal, v, k, st, i, last, now, gen), v.specs[k].group;
              var key := GroupLease(group);
              if group == "" || key !in v.leases then r == EventSync.GatherAndRun(cal, v, k, st, i, last, [], now, gen)
              else
                match LockScan(cal, v, group, st.time.value, v.order)
                case Panic => r == Quiet(v, Halt)
                case Wait => r == Quiet(v, Next(st, false))
                case Pass =>
                  var g := EventSync.GatherAndRun(cal, v.(leases := v.leases - {key}), k, st, i, last, [], now, gen);
                  r == g.(writes := [DeleteLease(key)] + g.writes) && g.leases == v.leases - {key}
    {
      hide EventSync.GatherAndRun, LockScan;
      var key := GroupLease(v.specs[k].group);
      GatherAfter(v.(leases := v.leases - {key}), k, st, i, last, [DeleteLease(key)], now, gen);
    }

    method SyncLeaderPipeline(ev: Event, i: nat, last: string, now: int, gen: Name) returns (ok: bool, done: bool)
      requires Valid() && ev.key in events && i < |cal.pipelines| && ev.time.Some? && ev.leader == Some(ev.key)
      requires specs[ev.key].created + 30 * SECOND <= now
      modifies this`leases, this`log, this`quota, ev`runs, ev`phase
      ensures Valid()
      ensures var r := SyncLeaderOnly(cal, old(View()), ev.key, old(ev.Value()), i, last, now, gen);
              && Made(old(log), old(quota), log, quota, r.writes)
              && ok == (r.outcome.Next? && |r.writes| <= old(quota))
              && (ok ==> leases == r.leases && r.outcome == Next(ev.Value(), done))
    {
      hide EventSync.GatherAndRun, LockScan, Made, SyncLeaderOnly;
      ghost var v, key := View(), GroupLease(specs[ev.key].group);
      ghost var g := EventSync.GatherAndRun(cal, v.(leases := v.leases - {key}), ev.key, ev.Value(), i, last, [], now, gen);
      LeaderWrites(v, ev.key, ev.Value(), i, last, now, gen);
      MadeNothing(log, quota);
      var locked: bool;
      ok, locked := LockLeader(ev);
      ghost var log1, quota1 := log, quota;
      if !ok || !locked {
        if old(quota) == 0 && Made(old(log), old(quota), log, quota, [DeleteLease(key)]) {
          MadeShort(old(log), old(quota), log, quota, [DeleteLease(key)], g.writes);
        }
        return ok, false;
      }
      ok, done := GatherAndRun(ev, i, last, now, gen);
      if v.specs[ev.key].group != "" && key in v.leases {
        SentOne(old(log), old(quota), log1, quota1, DeleteLease(key));
        MadeBoth(old(log), old(quota), log1, quota1, log, quota, [DeleteLease(key)], g.writes);
      }
    }

    /** A LeaderOnly pipeline: elect, follow, or lock the group and run. */
    method SyncLeaderOnlyPipeline(ev: Event, i: nat, last: string, now: int, gen: Name) returns (ok: bool, done: bool)
      requires Valid() && ev.key in events && i < |cal.pipelines| && ev.time.Some?
      modifies this`leases, this`log, this`quota, ev`leader, ev`runs, ev`phase
      ensures Valid()
      ensures var r := SyncLeaderOnly(cal, old(View()), ev.key, old(ev.Value()), i, last, now, gen);
              && Made(old(log), old(quota), log, quota, r.writes)
              && ok == (r.outcome.Next? && |r.writes| <= old(quota))
              && (ok ==> leases == r.leases && r.outcome == Next(ev.Value(), done))
    {
      hide EventSync.GatherAndRun, LockScan, Made, EventSync.LeaderElect;
      MadeNothing(log, quota);
      done := false;
      if ev.leader.None? {
        ok := LeaderElect(ev);
        return;
      }
      if ev.leader != Some(ev.key) {
        if ev.leader.value !in events {
          return false, false;
        }
        return true, RunStatusOf(events[ev.leader.value], cal.pipelines[i].name) == Some(RunCompleted);
      }
      if specs[ev.key].created + 30 * SECOND > now {
        return false, false;
      }
      ok, done := SyncLeaderPipeline(ev, i, last, now, gen);
    }

    /** syncEventPipeline: false if the sync must stop here. */
    method SyncEventPipeline(ev: Event, i: nat, last: string, begin: string, end: string, indexes: map<string, nat>, now: int, gen: Name)
      returns (ok: bool, done: bool)
      requires Valid() && ev.key in events && i < |cal.pipelines| && ev.time.Some?
      requires begin == BeginName(cal.pipelines, i) && end == EndName(cal.pipelines, i)
      requires Indexed(cal.pipelines, |cal.pipelines|, indexes)
      modifies this`leases, this`log, this`quota, ev`leader, ev`runs, ev`phase
      ensures Valid()
      ensures var r := SyncPipeline(cal, old(View()), ev.key, old(ev.Value()), i, last, now, gen);
              && Made(old(log), old(quota), log, quota, r.writes)
              && ok == (r.outcome.Next? && |r.writes| <= old(quota))
              && (ok ==> leases == r.leases && r.outcome == Next(ev.Value(), done))
    {
      hide SyncLeaderOnly, Execute, AfterDone, Made, GetTimeWithOffset, EventSync.ProbeLeader, Indexed, BeginName, EndName;
      MadeNothing(log, quota);
      var current := ev.Value();
      ok := ProbeLeader(ev);
      if !ok {
        return false, false;
      }
      if ev.Value() != current {
        return true, false;
      }
      var when := ComputeTimeWithOffset(ev.time.value, cal.pipelines[i].offset, cal.zone, cal.days);
      if when.Err? || when.value > now {
        return false, false;
      }
      if !cal.pipelines[i].ignoreAfter {
        done := RunAfterDone(ev, i, begin, end, indexes);
        if !done {
          return true, false;
        }
      }
      if cal.pipelines[i].leaderOnly {
        ok, done := SyncLeaderOnlyPipeline(ev, i, last, now, gen);
      } else {
        ok, done := ExecutePipeline(ev, i, [], now, gen);
      }
    }

    // ---------------------------------------------------------------- the whole sync

    /** What the sync writes from pipeline i on, after the writes of that pipeline itself. */
    ghost function TailFrom(v: View, k: Name, st: Status, i: nat, now: int, gen: Name): seq<Write>
      requires cal.Valid() && v.Valid() && k in v.events && st.time.Some? && i < |cal.pipelines|
    {
      var r := SyncPipeline(cal, v, k, st, i, LastAlways(cal.pipelines, i), now, gen);
      match r.outcome
      case Halt => []
      case Next(st', done) =>
        if st' != st then [UpdateStatus(k, st')]
        else if !done then []
        else RunFrom(cal, v.(leases := r.leases), k, st, i + 1, now, gen)
    }

    lemma RunFromSplits(v: View, k: Name, st: Status, i: nat, now: int, gen: Name)
      requires cal.Valid() && v.Valid() && k in v.events && st.time.Some? && i < |cal.pipelines|
      ensures RunFrom(cal, v, k, st, i, now, gen) ==
                SyncPipeline(cal, v, k, st, i, LastAlways(cal.pipelines, i), now, gen).writes + TailFrom(v, k, st, i, now, gen)
    {
      hide SyncPipeline;
      var r := SyncPipeline(cal, v, k, st, i, LastAlways(cal.pipelines, i), now, gen);
      assert r.writes + [] == r.writes;
    }

    /** One pipeline, and the status if it changed; false if the sync ends here, and whether it asks to come again. */
    method SyncOrEnd(ev: Event, i: nat, last: string, begin: string, end: string, indexes: map<string, nat>, now: int, gen: Name)
      returns (go: bool, again: bool)
      requires Valid() && ev.key in events && i < |cal.pipelines| && ev.time.Some? && events[ev.key] == ev.Value()
      requires last == LastAlways(cal.pipelines, i) && begin == BeginName(cal.pipelines, i) && end == EndName(cal.pipelines, i)
      requires Indexed(cal.pipelines, |cal.pipelines|, indexes)
      modifies this`leases, this`log, this`quota, ev`leader, ev`runs, ev`phase
      ensures Valid()
      ensures var r := SyncPipeline(cal, old(View()), ev.key, old(ev.Value()), i, last, now, gen);
              if go then
                && Made(old(log), old(quota), log, quota, r.writes) && |r.writes| <= old(quota)
                && ev.Value() == old(ev.Value()) && leases == r.leases && r.outcome == Next(ev.Value(), true)
              else
                var rest := RunFrom(cal, old(View()), ev.key, old(ev.Value()), i, now, gen);
                && Made(old(log), old(quota), log, quota, rest)
                && again == (|rest| > old(quota) || ReturnsFrom(cal, old(View()), ev.key, old(ev.Value()), i, now, gen))
      ensures go ==> ReturnsFrom(cal, old(View()), ev.key, old(ev.Value()), i, now, gen) ==
                       ReturnsFrom(cal, View(), ev.key, ev.Value(), i + 1, now, gen)
    {
      hide SyncPipeline, RunFrom, Made, Indexed, BeginName, EndName, ReturnsFrom;
      again := false;
      ReturnsStep(View(), ev.key, ev.Value(), i, now, gen);
      var st := events[ev.key];
      RunFromSplits(View(), ev.key, st, i, now, gen);
      ghost var writes, tail := SyncPipeline(cal, View(), ev.key, st, i, last, now, gen).writes, TailFrom(View(), ev.key, st, i, now, gen);
      assert writes + [] == writes;
      var ok, done := SyncEventPipeline(ev, i, last, begin, end, indexes, now, gen);
      if !ok {
        if old(quota) < |writes| {
          MadeShort(old(log), old(quota), log, quota, writes, tail);
        }
        return false, true;
      }
      if ev.Value() != st {
        ghost var log1, quota1 := log, quota;
        var sent := Send(UpdateStatus(ev.key, ev.Value()));
        MadeBoth(old(log), old(quota), log1, quota1, log, quota, writes, [UpdateStatus(ev.key, ev.Value())]);
        MadeLeft(old(log), old(quota), log1, quota1, writes);
        return false, !sent;
      }
      return done, false;
    }

    lemma MadeLeft(log: seq<Write>, quota: nat, log': seq<Write>, quota': nat, writes: seq<Write>)
      requires Made(log, quota, log', quota', writes) && |writes| <= quota
      ensures quota' == quota - |writes|
    {
    }

    lemma ReturnsStep(v: View, k: Name, st: Status, i: nat, now: int, gen: Name)
      requires cal.Valid() && v.Valid() && k in v.events && st.time.Some? && i < |cal.pipelines|
      ensures var r := SyncPipeline(cal, v, k, st, i, LastAlways(cal.pipelines, i), now, gen);
              match r.outcome
              case Halt => ReturnsFrom(cal, v, k, st, i, now, gen)
              case Next(st', done) =>
                ReturnsFrom(cal, v, k, st, i, now, gen) ==
                  (st' == st && done && ReturnsFrom(cal, v.(leases := r.leases), k, st, i + 1, now, gen))
    {
      hide SyncPipeline;
    }

    /** The pipelines in turn, until one holds the sync back or changes the status. */
    method SyncPipelines(ev: Event, now: int, gen: Name) returns (again: bool)
      requires Valid() && ev.key in events && ev.time.Some? && events[ev.key] == ev.Value()
      modifies this`leases, this`log, this`quota, ev`leader, ev`runs, ev`phase
      ensures Valid()
      ensures var plan := RunFrom(cal, old(View()), ev.key, old(ev.Value()), 0, now, gen);
              && Made(old(log), old(quota), log, quota, plan)
              && again == (|plan| > old(quota) || ReturnsFrom(cal, old(View()), ev.key, old(ev.Value()), 0, now, gen))
    {
      hide SyncPipeline, RunFrom, Made, Indexed, BeginName, EndName, NamesDiffer, ReturnsFrom;
      var st := events[ev.key];
      ghost var plan, sent := RunFrom(cal, View(), ev.key, st, 0, now, gen), [];
      MadeNothing(log, quota);
      NamesAreGood();
      var begins, ends, indexes := PipelineGroups(cal.pipelines);
      var last := "";
      for i := 0 to |cal.pipelines|
        invariant Valid() && ev.Value() == st && last == LastAlways(cal.pipelines, i)
        invariant Made(old(log), old(quota), log, quota, sent) && |sent| <= old(quota)
        invariant plan == sent + RunFrom(cal, View(), ev.key, st, i, now, gen)
        invariant ReturnsFrom(cal, old(View()), ev.key, st, 0, now, gen) == ReturnsFrom(cal, View(), ev.key, st, i, now, gen)
        invariant forall j :: 0 <= j < |cal.pipelines| ==>
                    begins[j] == BeginName(cal.pipelines, j) && ends[j] == EndName(cal.pipelines, j)
      {
        ghost var v, log1, quota1 := View(), log, quota;
        RunFromSplits(v, ev.key, st, i, now, gen);
        ghost var rest, writes := RunFrom(cal, v, ev.key, st, i, now, gen), SyncPipeline(cal, v, ev.key, st, i, last, now, gen).writes;
        MadeLeft(old(log), old(quota), log1, quota1, sent);
        var go: bool;
        go, again := SyncOrEnd(ev, i, last, begins[i], ends[i], indexes, now, gen);
        if !go {
          MadeBoth(old(log), old(quota), log1, quota1, log, quota, sent, rest);
          return;
        }
        MadeBoth(old(log), old(quota), log1, quota1, log, quota, sent, writes);
        AllSent(old(log), old(quota), log1, quota1, sent, writes);
        SplitAgain(sent, writes, TailFrom(v, ev.key, st, i, now, gen));
        sent := sent + writes;
        if !cal.pipelines[i].leaderOnly {
          last := cal.pipelines[i].name;
        }
      }
      RunFromEnds(View(), ev.key, st, now, gen);
      MadeLeft(old(log), old(quota), log, quota, sent);
      again := false;
      ghost var log2, quota2 := log, quota;
      ghost var rest := RunFrom(cal, View(), ev.key, st, |cal.pipelines|, now, gen);
      MadeNothing(log, quota);
      if !ev.phase.Completed? {
        ev.phase := Completed;
        var ok := Send(UpdateStatus(ev.key, ev.Value()));
        again := !ok;
      }
      MadeBoth(old(log), old(quota), log2, quota2, log, quota, sent, rest);
    }

    lemma SplitAgain(a: seq<Write>, b: seq<Write>, c: seq<Write>)
      ensures a + (b + c) == (a + b) + c
    {
    }

    lemma NamesAreGood()
      requires cal.Valid()
      ensures NamesDiffer(cal.pipelines) && forall i :: 0 <= i < |cal.pipelines| ==> cal.pipelines[i].name != ""
    {
    }

    lemma RunFromEnds(v: View, k: Name, st: Status, now: int, gen: Name)
      requires cal.Valid() && v.Valid() && k in v.events && st.time.Some?
      ensures RunFrom(cal, v, k, st, |cal.pipelines|, now, gen) ==
                if st.phase.Completed? then [] else [UpdateStatus(k, st.(phase := Completed))]
      ensures !ReturnsFrom(cal, v, k, st, |cal.pipelines|, now, gen)
    {
    }

    /** syncHandler: whatever the API server does, what it was sent is a prefix of the plan, and
        all of the plan if it takes that many writes; and the key comes again if a write was refused,
        or after an error, a panic or a delay. */
    method SyncHandler(key: Name, now: int, paused: bool, gen: Name) returns (again: bool)
      requires Valid()
      modifies this`leases, this`log, this`quota
      ensures Valid()
      ensures var plan := Plan(cal, old(View()), key, now, paused, gen);
              && Made(old(log), old(quota), log, quota, plan)
              && again == (|plan| > old(quota) || Returns(cal, old(View()), key, now, paused, gen))
    {
      hide RunFrom, Made, EventSync.ProbeTime, EventSync.ProbePhase, EventSync.AcquireLease, ReturnsFrom, HolderUnlisted;
      MadeNothing(log, quota);
      if key !in events {
        return false;
      }
      var st := events[key];
      var ev := new Event(key, st);
      var ok := ProbeTime(ev, now);
      if !ok {
        return true;
      }
      ev.ProbePhase(cal);
      if ev.Value() != st {
        ok := Send(UpdateStatus(key, ev.Value()));
        return !ok;
      }
      if st.time.None? || paused || st.phase.Completed? {
        return st.time.None?;
      }
      ghost var a := EventSync.AcquireLease(View(), key, st);
      var acquired, failed := AcquireLease(ev);
      if !acquired {
        if a.ok {
          MadeShort(old(log), old(quota), log, quota, a.writes, RunFrom(cal, View().(leases := a.leases), key, st, 0, now, gen));
        }
        return failed;
      }
      ghost var log1, quota1 := log, quota;
      ghost var rest := RunFrom(cal, View(), key, st, 0, now, gen);
      MadeLeft(old(log), old(quota), log, quota, a.writes);
      AcquiredIsListed(old(View()), key, st);
      again := SyncPipelines(ev, now, gen);
      MadeBoth(old(log), old(quota), log1, quota1, log, quota, a.writes, rest);
    }

    lemma AcquiredIsListed(v: View, k: Name, st: Status)
      requires v.Valid() && k in v.events
      ensures EventSync.AcquireLease(v, k, st).ok ==> !HolderUnlisted(v, k, st)
    {
    }

    // ---------------------------------------------------------------- the work queue

    /** enqueueEvent: an event that was added or changed, and those it may matter to. */
    method EnqueueEvent(a: Name)
      requires Valid() && a in events
      modifies this`queue
      ensures queue == old(queue) + (set b | b in order && Notifies(View(), a, b)) + (if events[a].leader.Some? then {events[a].leader.value} else {})
      ensures forall b :: b in queue && b !in old(queue) && b != a ==>
                || events[a].leader == Some(b)
                || (b in order && (specs[b].title == specs[a].title || events[b].leader == Some(a)
                                   || (exists j :: 0 <= j < |specs[b].after| && specs[b].after[j].title == specs[a].title)
                                   || (specs[b].group != "" && specs[b].group == specs[a].group)))
    {
      queue := queue + {a};
      if events[a].leader.Some? && events[a].leader != Some(a) {
        queue := queue + {events[a].leader.value};
      }
      ghost var direct := queue;
      for i := 0 to |order|
        invariant forall b :: b in queue <==> b in direct || (b in order[..i] && Notifies(View(), a, b))
      {
        var b := order[i];
        assert order[..i + 1] == order[..i] + [b];
        if b == a {
          continue;
        }
        if specs[a].title == specs[b].title || events[b].leader == Some(a) {
          queue := queue + {b};
          continue;
        }
        var waits := Awaits(specs[b].after, specs[a].title);
        if waits {
          queue := queue + {b};
        }
        if specs[b].group != "" && specs[b].group == specs[a].group {
          queue := queue + {b};
        }
      }
      assert order[..|order|] == order;
    }
  }

  /** The inner loop over runAfter stops at the first entry with the title. */
  method Awaits(after: seq<RunAfter>, title: string) returns (found: bool)
    ensures found == exists r :: r in after && r.title == title
  {
    for i := 0 to |after|
      invariant forall j :: 0 <= j < i ==> after[j].title != title
    {
      if after[i].title == title {
        return true;
      }
    }
    return false;
  }

  /** The inner loop over the entries of a follower stops at the first one for the pipeline. */
  method SettledIn(runs: seq<Run>, pipeline: string) returns (completed: bool)
    ensures completed == match FirstRun(runs, pipeline) case None => false case Some(x) => IsSettled(runs[x].status)
  {
    for i := 0 to |runs|
      invariant forall j :: 0 <= j < i ==> runs[j].pipeline != pipeline
      invariant FirstRunFrom(runs, pipeline, i) == FirstRun(runs, pipeline)
    {
      if runs[i].pipeline == pipeline {
        return IsSettled(runs[i].status);
      }
    }
    return false;
  }
}
