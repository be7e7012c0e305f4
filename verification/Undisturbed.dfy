/** A sync that starts from caches that have caught up, and is not disturbed, never has a write
    refused: it does not get in its own way. */
module Undisturbed {
  import opened Prelude
  import opened CalendarDays
  import opened CalendarHours
  import opened CalendarTypes
  import opened EventSync
  import opened Protocol

  /** The API server takes all the writes, one after the other. */
  ghost predicate AllAccepted(s: System, writes: seq<Write>)
    decreases |writes|
  {
    writes == [] || (Accepts(s, writes[0]) && AllAccepted(Apply(s, writes[0]), writes[1..]))
  }

  function ApplyAll(s: System, writes: seq<Write>): System
    decreases |writes|
  {
    if writes == [] then s
    else if Accepts(s, writes[0]) then ApplyAll(Apply(s, writes[0]), writes[1..])
    else s
  }

  lemma {:induction false} AcceptedInTurn(s: System, a: seq<Write>, b: seq<Write>)
    requires AllAccepted(s, a) && AllAccepted(ApplyAll(s, a), b)
    ensures AllAccepted(s, a + b)
    decreases |a|
  {
    if a == [] {
      assert a + b == b;
    } else {
      AcceptedInTurn(Apply(s, a[0]), a[1..], b);
      assert (a + b)[1..] == a[1..] + b;
    }
  }

  /** What sync k sees is what is stored: its own version, the leases, which Tekton runs exist. */
  ghost predicate Mirrors(s: System, v: View, k: Name) {
    && v.Valid() && k in v.events && k in s.alive && k in s.events && s.events[k].rv == v.events[k].rv
    && v.leases == s.leases && v.tekton.Keys == s.tekton.Keys
  }

  /** Still its own version. */
  ghost predicate Current(s: System, v: View, k: Name) {
    k in v.events && k in s.alive && k in s.events && s.events[k].rv == v.events[k].rv
  }

  lemma One(s: System, w: Write)
    requires Accepts(s, w)
    ensures AllAccepted(s, [w]) && ApplyAll(s, [w]) == Apply(s, w)
  {
    assert [w][1..] == [];
  }

  /** Running a pipeline writes at most once, and is not done if it does. */
  lemma ExecuteAccepted(cal: Calendar, s: System, v: View, k: Name, st: Status, i: nat, followers: seq<Name>, now: int, gen: Name)
    requires Mirrors(s, v, k) && i < |cal.pipelines|
    ensures var r := Execute(cal, v, k, st, i, followers, now, gen);
            && AllAccepted(s, r.writes) && Current(ApplyAll(s, r.writes), v, k)
            && (r.outcome.Next? && r.outcome.done ==> r.writes == [])
  {
    hide AllAccepted, ApplyAll, Execute;
    var r := Execute(cal, v, k, st, i, followers, now, gen);
    ExecuteWritesOnce(cal, v, k, st, i, followers, now, gen);
    if r.writes == [] {
      Nothing(s);
    } else {
      assert r.writes == [r.writes[0]];
      One(s, r.writes[0]);
    }
  }

  lemma Nothing(s: System)
    ensures AllAccepted(s, []) && ApplyAll(s, []) == s
  {
  }

  lemma ExecuteWritesOnce(cal: Calendar, v: View, k: Name, st: Status, i: nat, followers: seq<Name>, now: int, gen: Name)
    requires i < |cal.pipelines|
    ensures var r := Execute(cal, v, k, st, i, followers, now, gen);
            && (r.writes == [] ||
                (|r.writes| == 1 && match r.writes[0]
                                    case CreateRun(name, _, _, _) => name !in v.tekton
                                    case CancelRun(name) => name in v.tekton
                                    case _ => false))
            && (r.outcome.Next? && r.outcome.done ==> r.writes == [])
  {
    hide FirstRun, WaitForHours;
  }

  /** A pipeline's writes are accepted; if it is done, what the sync sees stays in step. */
  ghost predicate Passes(s: System, v: View, k: Name, r: StepResult) {
    && AllAccepted(s, r.writes) && Current(ApplyAll(s, r.writes), v, k)
    && (r.outcome.Next? && r.outcome.done ==> Mirrors(ApplyAll(s, r.writes), v.(leases := r.leases), k))
  }

  lemma ExecutePasses(cal: Calendar, s: System, v: View, k: Name, st: Status, i: nat, followers: seq<Name>, now: int, gen: Name)
    requires Mirrors(s, v, k) && i < |cal.pipelines|
    ensures Passes(s, v, k, Execute(cal, v, k, st, i, followers, now, gen))
  {
    hide Execute;
    var r := Execute(cal, v, k, st, i, followers, now, gen);
    ExecuteAccepted(cal, s, v, k, st, i, followers, now, gen);
    assert OnlyRuns(v, k, st, r) && v.(leases := r.leases) == v;
  }

  lemma GatherPasses(cal: Calendar, s: System, v: View, k: Name, st: Status, i: nat, last: string, now: int, gen: Name)
    requires Mirrors(s, v, k) && i < |cal.pipelines|
    ensures Passes(s, v, k, GatherAndRun(cal, v, k, st, i, last, [], now, gen))
  {
    hide Execute, FollowersScan;
    var followers := FollowersOf(v.events, k, v.order);
    ExecutePasses(cal, s, v, k, st, i, followers, now, gen);
    var writes := Execute(cal, v, k, st, i, followers, now, gen).writes;
    assert [] + writes == writes;
    Nothing(s);
  }

  /** Deleting the lease first changes nothing about what follows. */
  lemma UnlockPasses(cal: Calendar, s: System, v: View, k: Name, st: Status, i: nat, last: string, key: LeaseKey, now: int, gen: Name)
    requires Mirrors(s, v, k) && i < |cal.pipelines| && key in v.leases
    ensures Passes(s, v, k, GatherAndRun(cal, v.(leases := v.leases - {key}), k, st, i, last, [DeleteLease(key)], now, gen))
  {
    hide Execute, FollowersScan, AllAccepted, ApplyAll;
    var u, t := v.(leases := v.leases - {key}), Apply(s, DeleteLease(key));
    One(s, DeleteLease(key));
    var r := GatherAndRun(cal, u, k, st, i, last, [], now, gen);
    assert Mirrors(t, u, k);
    GatherPasses(cal, t, u, k, st, i, last, now, gen);
    GatherWrites(cal, u, k, st, i, last, [DeleteLease(key)], now, gen);
    AcceptedInTurn(s, [DeleteLease(key)], r.writes);
    AppliedInTurn(s, DeleteLease(key), r.writes);
  }

  lemma AppliedInTurn(s: System, w: Write, rest: seq<Write>)
    requires Accepts(s, w)
    ensures ApplyAll(s, [w] + rest) == ApplyAll(Apply(s, w), rest)
  {
    assert ([w] + rest)[1..] == rest;
  }

  lemma GatherWrites(cal: Calendar, v: View, k: Name, st: Status, i: nat, last: string, writes: seq<Write>, now: int, gen: Name)
    requires v.Valid() && k in v.events && i < |cal.pipelines|
    ensures var r := GatherAndRun(cal, v, k, st, i, last, [], now, gen);
            GatherAndRun(cal, v, k, st, i, last, writes, now, gen) == r.(writes := writes + r.writes)
  {
    hide Execute, FollowersScan;
    assert writes + [] == writes;
    assert forall w: seq<Write> :: [] + w == w;
  }

  lemma LeaderOnlyPasses(cal: Calendar, s: System, v: View, k: Name, st: Status, i: nat, last: string, now: int, gen: Name)
    requires Mirrors(s, v, k) && i < |cal.pipelines| && st.time.Some?
    ensures Passes(s, v, k, SyncLeaderOnly(cal, v, k, st, i, last, now, gen))
  {
    hide GatherAndRun, LockScan, RunStatusOf;
    Nothing(s);
    var key := GroupLease(v.specs[k].group);
    if st.leader.None? {
      if key !in v.leases {
        One(s, CreateLease(key, k));
      }
    } else if st.leader == Some(k) {
      if v.specs[k].group == "" || key !in v.leases {
        GatherPasses(cal, s, v, k, st, i, last, now, gen);
      } else {
        UnlockPasses(cal, s, v, k, st, i, last, key, now, gen);
      }
    }
  }

  lemma SyncPasses(cal: Calendar, s: System, v: View, k: Name, st: Status, i: nat, last: string, now: int, gen: Name)
    requires Feasible(cal.days) && Mirrors(s, v, k) && i < |cal.pipelines| && st.time.Some?
    ensures Passes(s, v, k, SyncPipeline(cal, v, k, st, i, last, now, gen))
  {
    hide SyncLeaderOnly, Execute, AfterDone, Early;
    Nothing(s);
    LeaderOnlyPasses(cal, s, v, k, st, i, last, now, gen);
    ExecutePasses(cal, s, v, k, st, i, [], now, gen);
  }

  lemma UpdateAccepted(s: System, v: View, k: Name, st: Status)
    requires Current(s, v, k) && st.rv == v.events[k].rv
    ensures AllAccepted(s, [UpdateStatus(k, st)])
  {
    One(s, UpdateStatus(k, st));
  }

  lemma {:induction false} RunAccepted(cal: Calendar, s: System, v: View, k: Name, i: nat, now: int, gen: Name)
    requires Feasible(cal.days) && Mirrors(s, v, k) && v.events[k].time.Some? && i <= |cal.pipelines|
    ensures AllAccepted(s, RunFrom(cal, v, k, v.events[k], i, now, gen))
    decreases |cal.pipelines| - i
  {
    hide SyncPipeline, AllAccepted, ApplyAll;
    Nothing(s);
    var st := v.events[k];
    if i == |cal.pipelines| {
      UpdateAccepted(s, v, k, st.(phase := Completed));
    } else {
      SyncPasses(cal, s, v, k, st, i, LastAlways(cal.pipelines, i), now, gen);
      var r := SyncPipeline(cal, v, k, st, i, LastAlways(cal.pipelines, i), now, gen);
      assert OnlyPipeline(v, k, st, r);
      var t := ApplyAll(s, r.writes);
      if r.outcome.Next? && r.outcome.status != st {
        UpdateAccepted(t, v, k, r.outcome.status);
        AcceptedInTurn(s, r.writes, [UpdateStatus(k, r.outcome.status)]);
      } else if r.outcome.Next? && r.outcome.done {
        RunAccepted(cal, t, v.(leases := r.leases), k, i + 1, now, gen);
        AcceptedInTurn(s, r.writes, RunFrom(cal, v.(leases := r.leases), k, st, i + 1, now, gen));
      }
    }
  }

  /** No write of an undisturbed sync is refused. */
  lemma PlanAccepted(cal: Calendar, s: System, v: View, k: Name, now: int, paused: bool, gen: Name)
    requires Feasible(cal.days) && Mirrors(s, v, k)
    ensures AllAccepted(s, Plan(cal, v, k, now, paused, gen))
  {
    hide RunFrom, AllAccepted, ApplyAll, ProbeAll, AllAlwaysCompleted;
    Nothing(s);
    var st, a := v.events[k], AcquireLease(v, k, v.events[k]);
    var probe := ProbeTime(cal, v, k, st, now);
    if probe.Ok? && ProbePhase(cal, k, probe.value) != st {
      UpdateAccepted(s, v, k, ProbePhase(cal, k, probe.value));
    } else if st.time.Some? {
      AcquireAccepted(s, v, k);
      if a.ok {
        RunAccepted(cal, ApplyAll(s, a.writes), v.(leases := a.leases), k, 0, now, gen);
        AcceptedInTurn(s, a.writes, RunFrom(cal, v.(leases := a.leases), k, st, 0, now, gen));
      }
    }
  }

  lemma AcquireAccepted(s: System, v: View, k: Name)
    requires Mirrors(s, v, k)
    ensures var a := AcquireLease(v, k, v.events[k]);
            AllAccepted(s, a.writes) && (a.ok ==> Mirrors(ApplyAll(s, a.writes), v.(leases := a.leases), k))
  {
    hide AllAccepted, ApplyAll;
    var a := AcquireLease(v, k, v.events[k]);
    Nothing(s);
    if a.writes != [] {
      assert a.writes == [a.writes[0]];
      One(s, a.writes[0]);
    }
  }

  /** The listers show exactly what is stored. */
  ghost predicate CaughtUp(s: System) {
    && s.seen == s.tekton && s.cache.Keys == s.alive
    && forall k :: k in s.alive ==> k in s.events && s.cache[k] == s.events[k]
  }

  /** From caches that have caught up, the API server takes every write of a sync in turn. */
  lemma UndisturbedSync(cal: Calendar, s: System, order: seq<Name>, k: Name, now: int, paused: bool, gen: Name)
    requires Feasible(cal.days) && CaughtUp(s) && ViewOf(s, order).Valid()
    ensures AllAccepted(s, Plan(cal, ViewOf(s, order), k, now, paused, gen))
  {
    hide Plan;
    if k in s.cache {
      PlanAccepted(cal, s, ViewOf(s, order), k, now, paused, gen);
    } else {
      NoPlan(cal, ViewOf(s, order), k, now, paused, gen);
    }
  }

  lemma NoPlan(cal: Calendar, v: View, k: Name, now: int, paused: bool, gen: Name)
    requires Feasible(cal.days) && v.Valid() && k !in v.events
    ensures Plan(cal, v, k, now, paused, gen) == []
  {
  }
}
