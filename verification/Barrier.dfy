/** The barrier, for any number of workers and however far the listers lag: the followers handed
    to the run of a LeaderOnly pipeline have all settled what comes before it. */
module Barrier {
  import opened Prelude
  import opened CalendarTypes
  import opened EventSync
  import opened Protocol
  import opened Growth
  import opened Invariant
  import opened Safety
  import opened Undisturbed
  import opened GroupPlan
  import opened Theorems
  import opened Groups

  /** Every event listed has leader l and has settled what LeaderOnly pipeline j waits for. */
  ghost predicate ListSettled(cal: Calendar, s: System, l: Name, followers: seq<Name>, j: nat)
    requires j < |cal.pipelines|
  {
    var last := LastAlways(cal.pipelines, j);
    forall m :: m in followers ==>
      m in s.events && s.events[m].leader == Some(l) && (last == "" || FollowerSettled(s.events[m], last))
  }

  ghost predicate WriteSettled(cal: Calendar, s: System, k: Name, w: Write) {
    forall j: nat :: w.CreateRun? && LeaderPipeline(cal, j, w.pipeline) ==> ListSettled(cal, s, k, w.followers, j)
  }

  ghost predicate RunSettled(cal: Calendar, s: System, run: TektonRun) {
    forall j: nat :: LeaderPipeline(cal, j, run.pipeline) ==> ListSettled(cal, s, run.event, run.followers, j)
  }

  /** The runs that are there, and those still to be made. */
  ghost predicate Gathering(cal: Calendar, s: System) {
    && (forall n :: n in s.tekton ==> RunSettled(cal, s, s.tekton[n]))
    && (forall k, w :: k in s.inflight && w in s.inflight[k] ==> WriteSettled(cal, s, k, w))
  }

  // ------------------------------------------------------------------ what is settled stays settled

  lemma {:induction false} LastAlwaysIs(pipelines: seq<Pipeline>, j: nat) returns (i: nat)
    requires j <= |pipelines| && LastAlways(pipelines, j) != ""
    ensures i < j && !pipelines[i].leaderOnly && pipelines[i].name == LastAlways(pipelines, j)
  {
    if !pipelines[j - 1].leaderOnly {
      i := j - 1;
    } else {
      i := LastAlwaysIs(pipelines, j - 1);
    }
  }

  lemma SettledStays(cal: Calendar, t: System, m: Name, a: Status, j: nat)
    requires Inv(cal, t) && m in t.events && Older(a, t.events[m]) && j < |cal.pipelines|
    requires LastAlways(cal.pipelines, j) != "" && FollowerSettled(a, LastAlways(cal.pipelines, j))
    ensures FollowerSettled(t.events[m], LastAlways(cal.pipelines, j))
  {
    hide Inv;
    InvGood(cal, t, m);
    CompletionGrows(a, t.events[m], LastAlways(cal.pipelines, j));
    if t.events[m].phase.Completed? {
      var i := LastAlwaysIs(cal.pipelines, j);
      assert Finished(cal, m, t.events[m]);
    }
  }

  lemma ListStays(cal: Calendar, s: System, t: System, l: Name, followers: seq<Name>, j: nat)
    requires Inv(cal, t) && Extends(s, t) && j < |cal.pipelines| && ListSettled(cal, s, l, followers, j)
    ensures ListSettled(cal, t, l, followers, j)
  {
    hide Inv, FollowerSettled;
    forall m | m in followers && LastAlways(cal.pipelines, j) != ""
      ensures FollowerSettled(t.events[m], LastAlways(cal.pipelines, j))
    {
      SettledStays(cal, t, m, s.events[m], j);
    }
  }

  lemma RunStays(cal: Calendar, s: System, t: System, run: TektonRun)
    requires Inv(cal, t) && Extends(s, t) && RunSettled(cal, s, run)
    ensures RunSettled(cal, t, run)
  {
    hide Inv, ListSettled, Extends;
    forall j: nat | LeaderPipeline(cal, j, run.pipeline) ensures ListSettled(cal, t, run.event, run.followers, j) {
      ListStays(cal, s, t, run.event, run.followers, j);
    }
  }

  lemma WriteStays(cal: Calendar, s: System, t: System, k: Name, w: Write)
    requires Inv(cal, t) && Extends(s, t) && WriteSettled(cal, s, k, w)
    ensures WriteSettled(cal, t, k, w)
  {
    hide Inv, ListSettled, Extends;
    forall j: nat | w.CreateRun? && LeaderPipeline(cal, j, w.pipeline) ensures ListSettled(cal, t, k, w.followers, j) {
      ListStays(cal, s, t, k, w.followers, j);
    }
  }

  // ------------------------------------------------------------------ a sync hands on its followers

  lemma {:induction false} GatheredMembers(events: map<Name, Status>, l: Name, last: string, xs: seq<Name>, m: Name)
    requires forall k :: k in xs ==> k in events
    requires FollowersScan(events, l, last, xs).Pass? && m in xs && events[m].leader == Some(l)
    ensures last == "" || FollowerSettled(events[m], last)
  {
    if xs[0] != m {
      GatheredMembers(events, l, last, xs[1..], m);
    }
  }

  /** What the lister showed settled is settled. */
  lemma ListedAreSettled(cal: Calendar, s: System, order: seq<Name>, k: Name, j: nat)
    requires Inv(cal, s) && Domains(s) && CachesLag(s) && ViewOf(s, order).Valid() && j < |cal.pipelines|
    requires Gathered(cal, ViewOf(s, order), k, j)
    ensures ListSettled(cal, s, k, FollowersOf(s.cache, k, order), j)
  {
    hide Inv, FollowerSettled, FollowersScan;
    var last := LastAlways(cal.pipelines, j);
    forall m | m in FollowersOf(s.cache, k, order)
      ensures m in s.events && s.events[m].leader == Some(k) && (last == "" || FollowerSettled(s.events[m], last))
    {
      assert Older(s.cache[m], s.events[m]);
      GatheredMembers(s.cache, k, last, order, m);
      if last != "" {
        SettledStays(cal, s, m, s.cache[m], j);
      }
    }
  }

  lemma BeginSettled(cal: Calendar, s: System, a: Action, w: Write)
    requires cal.Valid() && Inv(cal, s) && a.Begin? && ViewOf(s, a.order).Valid()
    requires w in Plan(cal, ViewOf(s, a.order), a.key, a.now, a.paused, a.gen)
    ensures WriteSettled(cal, s, a.key, w)
  {
    hide Inv, Plan, ListSettled, UpdateIsLast, LeaseShape, UpdateShape, FollowersScan, FollowersOf;
    var v := ViewOf(s, a.order);
    InvDomains(cal, s);
    if a.key in v.events {
      PlanHasShape(cal, v, a.key, a.now, a.paused, a.gen);
      assert RunShape(cal, v, a.key, w);
      forall j: nat | w.CreateRun? && LeaderPipeline(cal, j, w.pipeline) ensures ListSettled(cal, s, a.key, w.followers, j) {
        ListedAreSettled(cal, s, a.order, a.key, j);
      }
    } else {
      NoPlan(cal, v, a.key, a.now, a.paused, a.gen);
    }
  }

  lemma StepGathering(cal: Calendar, s: System, a: Action)
    requires cal.Valid() && cal.HasAlways() && Inv(cal, s) && Enabled(cal, s, a) && Gathering(cal, s)
    ensures Gathering(cal, Do(cal, s, a))
  {
    hide Inv, Do, Enabled, RunSettled, WriteSettled, Extends, EventsMove, LeasesMove, CacheMoves, Plan, Domains;
    var t := StepMoves(cal, s, a);
    forall k, w | k in t.inflight && w in t.inflight[k] ensures WriteSettled(cal, t, k, w) {
      if a.Begin? && a.key == k {
        BeginSettled(cal, s, a, w);
      } else {
        assert k in s.inflight && w in s.inflight[k];
      }
      WriteStays(cal, s, t, k, w);
    }
    forall n | n in t.tekton ensures RunSettled(cal, t, t.tekton[n]) {
      var run := t.tekton[n];
      if n in s.tekton && s.tekton[n].event == run.event && s.tekton[n].pipeline == run.pipeline && s.tekton[n].followers == run.followers {
        SameList(cal, s, s.tekton[n], run);
      } else {
        var w := CreateRun(n, a.key, run.pipeline, run.followers);
        assert w in s.inflight[a.key];
        WrittenList(cal, s, w, run);
      }
      RunStays(cal, s, t, run);
    }
  }

  lemma SameList(cal: Calendar, s: System, a: TektonRun, b: TektonRun)
    requires RunSettled(cal, s, a) && a.event == b.event && a.pipeline == b.pipeline && a.followers == b.followers
    ensures RunSettled(cal, s, b)
  {
    hide ListSettled;
  }

  lemma WrittenList(cal: Calendar, s: System, w: Write, run: TektonRun)
    requires w.CreateRun? && WriteSettled(cal, s, run.event, w) && w.pipeline == run.pipeline && w.followers == run.followers
    ensures RunSettled(cal, s, run)
  {
    hide ListSettled;
  }

  lemma {:induction false} RunGathering(cal: Calendar, states: seq<System>, actions: seq<Action>, n: nat)
    requires History(cal, states, actions) && n < |states|
    ensures Inv(cal, states[n]) && Gathering(cal, states[n])
  {
    hide Inv, Do, Enabled, Gathering;
    RunInv(cal, states, actions, n);
    if n == 0 {
      NothingGathers(cal, states[0]);
    } else {
      RunGathering(cal, states, actions, n - 1);
      StepGathering(cal, states[n - 1], actions[n - 1]);
    }
  }

  lemma NothingGathers(cal: Calendar, s: System)
    requires Init(s)
    ensures Gathering(cal, s)
  {
  }

  // ------------------------------------------------------------------ what every run shows

  /** Whoever is handed to the run of LeaderOnly pipeline j follows its leader, and has settled
      the last Always pipeline before j, or failed or was cancelled: from then on for ever. */
  lemma ListedHaveSettled(cal: Calendar, states: seq<System>, actions: seq<Action>, n: nat, name: Name, j: nat, m: Name)
    requires History(cal, states, actions) && n < |states|
    requires name in states[n].tekton && LeaderPipeline(cal, j, states[n].tekton[name].pipeline)
    requires m in states[n].tekton[name].followers
    ensures var s, last := states[n], LastAlways(cal.pipelines, j);
            && m in s.events && s.events[m].leader == Some(s.tekton[name].event)
            && (last != "" ==> FollowerSettled(s.events[m], last))
  {
    hide Do, Enabled, Inv;
    RunGathering(cal, states, actions, n);
    assert RunSettled(cal, states[n], states[n].tekton[name]);
  }

  /** The Tekton run behind a completed entry. */
  lemma RunBehind(cal: Calendar, s: System, l: Name, pipeline: string) returns (name: Name)
    requires Inv(cal, s) && l in s.events && RunStatusOf(s.events[l], pipeline) == Some(RunCompleted)
    ensures name in s.tekton && s.tekton[name].event == l && s.tekton[name].pipeline == pipeline && s.tekton[name].status.RunCompleted?
  {
    hide Inv;
    InvGood(cal, s, l);
    InvDomains(cal, s);
    var x := FirstRun(s.events[l].runs, pipeline).value;
    name := s.events[l].runs[x].name;
    assert EntryTrue(s, s.events[l].runs[x]);
    assert RunsRecorded(s) by {
      RunsAreRecorded(cal, s);
    }
    var e := s.tekton[name].event;
    assert HasEntry(s, e, name, s.tekton[name].pipeline);
    InvGood(cal, s, e);
    EntryIsOwn(cal, s, l, e, x, name, s.tekton[name].pipeline);
  }

  lemma RunsAreRecorded(cal: Calendar, s: System)
    requires Inv(cal, s)
    ensures RunsRecorded(s)
  {
    hide GoodStatus, Justified;
  }

  /** One name, one event, one entry. */
  lemma EntryIsOwn(cal: Calendar, s: System, l: Name, e: Name, x: nat, name: Name, pipeline: string)
    requires l in s.specs && l in s.events && GoodStatus(cal, s, l, s.events[l])
    requires e in s.specs && e in s.events && GoodStatus(cal, s, e, s.events[e])
    requires x < |s.events[l].runs| && s.events[l].runs[x].name == name && HasEntry(s, e, name, pipeline)
    ensures e == l && pipeline == s.events[l].runs[x].pipeline
  {
    hide EntriesTrue, InOrder, PhaseTrue, LeaderTrue;
    var y :| 0 <= y < |s.events[e].runs| && s.events[e].runs[y].name == name && s.events[e].runs[y].pipeline == pipeline;
    assert NamesOwned(s, l, s.events[l]) && NamesOwned(s, e, s.events[e]);
  }

  /** The barrier. If an event with leader l has an entry for a pipeline after LeaderOnly pipeline
      i, then l's run of i is completed, in its entry and in Tekton, and whoever was handed to it
      has settled the last Always pipeline before i, or failed or was cancelled. */
  lemma CohortBarrier(cal: Calendar, states: seq<System>, actions: seq<Action>, n: nat, l: Name, e: Name, i: nat, j: nat)
      returns (name: Name)
    requires History(cal, states, actions) && n < |states|
    requires e in states[n].events && states[n].events[e].leader == Some(l)
    requires i < j < |cal.pipelines| && cal.pipelines[i].leaderOnly
    requires FirstRun(states[n].events[e].runs, cal.pipelines[j].name).Some?
    ensures var s, p := states[n], cal.pipelines[i].name;
            && l in s.events && RunStatusOf(s.events[l], p) == Some(RunCompleted)
            && name in s.tekton && s.tekton[name].event == l && s.tekton[name].pipeline == p && s.tekton[name].status.RunCompleted?
            && ListSettled(cal, s, l, s.tekton[name].followers, i)
  {
    hide Do, Enabled, Inv;
    var s := states[n];
    RunGathering(cal, states, actions, n);
    InvGood(cal, s, e);
    assert PassedUpTo(cal, s, e, s.events[e], j);
    assert Passed(cal, s, e, s.events[e], i);
    name := RunBehind(cal, s, l, cal.pipelines[i].name);
    assert RunSettled(cal, s, s.tekton[name]);
  }
}
