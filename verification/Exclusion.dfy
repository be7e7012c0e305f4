/** The lease on an event's title: of all events of one title, at most one is under way. */
module Exclusion {
  import opened CalendarDays
  import opened CalendarTypes
  import opened EventSync
  import opened Protocol
  import opened Growth
  import opened Invariant
  import opened Safety

  ghost predicate Holds(s: System, k: Name)
    requires k in s.specs
  {
    var key := NameLease(s.specs[k].title);
    key in s.leases && s.leases[key] == k
  }

  ghost predicate Claimed(s: System, k: Name)
    requires k in s.specs
  {
    KnownOver(s, k) || Holds(s, k)
  }

  ghost predicate Acquires(s: System, k: Name, w: Write)
    requires k in s.specs
  {
    (w.CreateLease? || w.TakeLease?) && w.key == NameLease(s.specs[k].title) && w.holder == k
  }

  /** A plan that gives event k a run holds the lease on its title, or starts by taking it;
      a plan that deletes k finds it without runs. */
  ghost predicate PlanClaims(s: System, k: Name, plan: seq<Write>)
    requires k in s.specs && k in s.events
  {
    && (forall w :: w in plan && w.UpdateStatus? && w.status.rv == s.events[k].rv && w.status.runs != [] ==>
         Claimed(s, k) || Acquires(s, k, plan[0]))
    && (forall w :: w in plan && w.DeleteEvent? ==> |plan| == 1 && (k in s.alive ==> s.events[k].runs == []))
  }

  ghost predicate NameInv(s: System)
    requires Domains(s)
  {
    && (forall k :: k in s.events && s.events[k].runs != [] ==> Claimed(s, k))
    && (forall k :: k in s.inflight ==> PlanClaims(s, k, s.inflight[k]))
  }

  // ------------------------------------------------------------------ making a plan

  lemma {:induction false} RunFromDeletesNone(cal: Calendar, v: View, k: Name, st: Status, i: nat, now: int, gen: Name)
    requires Feasible(cal.days) && v.Valid() && k in v.events && st.time.Some? && i <= |cal.pipelines|
    ensures forall w :: w in RunFrom(cal, v, k, st, i, now, gen) ==> !w.DeleteEvent? && (w.UpdateStatus? ==> w.status.rv == st.rv)
    decreases |cal.pipelines| - i
  {
    hide SyncPipeline;
    if i < |cal.pipelines| {
      var r := SyncPipeline(cal, v, k, st, i, LastAlways(cal.pipelines, i), now, gen);
      assert OnlyPipeline(v, k, st, r);
      if r.outcome == Next(st, true) {
        RunFromDeletesNone(cal, v.(leases := r.leases), k, st, i + 1, now, gen);
      }
    }
  }

  lemma PlanIsClaimed(cal: Calendar, s: System, order: seq<Name>, k: Name, now: int, paused: bool, gen: Name)
    requires cal.Valid() && Inv(cal, s) && NameInv(s) && k in s.specs && ViewOf(s, order).Valid()
    ensures PlanClaims(s, k, Plan(cal, ViewOf(s, order), k, now, paused, gen))
  {
    hide Plan, RunFrom, ProbeTime, ProbePhase, GoodStatus, Justified, AcquireLease;
    var v := ViewOf(s, order);
    PlanForms(cal, v, k, now, paused, gen);
    if k in v.events {
      var st, a := v.events[k], AcquireLease(v, k, v.events[k]);
      if st.time.Some? {
        RunFromDeletesNone(cal, v.(leases := a.leases), k, st, 0, now, gen);
      }
      assert Older(st, s.events[k]);
      ProbeKeepsRuns(cal, v, k, st, now);
      AcquireClaims(s, order, k, st);
      if st == s.events[k] {
        InvGood(cal, s, k);
        RunsShowInPhase(cal, s, k);
      }
    }
  }

  /** A plan is empty, sets time or phase, or tries the lease of the title and goes on from there. */
  lemma PlanForms(cal: Calendar, v: View, k: Name, now: int, paused: bool, gen: Name)
    requires Feasible(cal.days) && v.Valid()
    ensures var plan := Plan(cal, v, k, now, paused, gen);
            || plan == []
            || (k in v.events && ProbeTime(cal, v, k, v.events[k], now).Ok?
                && plan == [UpdateStatus(k, ProbePhase(cal, k, ProbeTime(cal, v, k, v.events[k], now).value))])
            || (k in v.events && v.events[k].time.Some? &&
                var a := AcquireLease(v, k, v.events[k]);
                plan == a.writes + (if a.ok then RunFrom(cal, v.(leases := a.leases), k, v.events[k], 0, now, gen) else []))
  {
    hide RunFrom, ProbeTime, ProbePhase, AcquireLease;
    if k in v.events {
      var a := AcquireLease(v, k, v.events[k]);
      assert a.writes + [] == a.writes;
    }
  }

  /** Trying the lease of the title either has it, takes it, deletes the event, or does nothing. */
  lemma AcquireClaims(s: System, order: seq<Name>, k: Name, st: Status)
    requires k in s.specs && ViewOf(s, order).Valid() && k in s.cache
    ensures var a := AcquireLease(ViewOf(s, order), k, st);
            && (a.writes == [] || a.writes == [DeleteEvent(k)] || (|a.writes| == 1 && Acquires(s, k, a.writes[0])))
            && (a.writes == [DeleteEvent(k)] ==> !a.ok && !Holds(s, k) && (st.phase.Unset? || st.phase.Pending?))
            && (a.ok && a.writes == [] ==> Holds(s, k) || (!st.phase.Unset? && !st.phase.Pending?))
  {
  }

  lemma ProbeKeepsRuns(cal: Calendar, v: View, k: Name, st: Status, now: int)
    requires Feasible(cal.days) && v.Valid() && k in v.events
    ensures var probe := ProbeTime(cal, v, k, st, now);
            probe.Ok? ==> ProbePhase(cal, k, probe.value).rv == st.rv && ProbePhase(cal, k, probe.value).runs == st.runs
  {
  }

  lemma RunsShowInPhase(cal: Calendar, s: System, k: Name)
    requires k in s.specs && k in s.events && GoodStatus(cal, s, k, s.events[k])
    ensures s.events[k].runs == [] ==> s.events[k].phase.Unset? || s.events[k].phase.Pending?
  {
  }

  // ------------------------------------------------------------------ every step

  lemma OverStays(s: System, t: System, k: Name)
    requires Extends(s, t) && k in s.specs && KnownOver(s, k)
    ensures KnownOver(t, k)
  {
  }

  lemma LeaseMovesByWrite(cal: Calendar, s: System, e: Name, w: Write, k: Name)
    requires e in s.specs && k in s.specs && Justified(cal, s, e, w) && Accepts(s, w) && Holds(s, k)
    ensures var t := Apply(s, w);
            t.specs == s.specs && (Holds(t, k) || KnownOver(s, k))
  {
    hide GoodStatus, HasEntry;
    match w
    case TakeLease(key, previous, _) =>
    case _ =>
  }

  /** Who holds the lease of a title changes only once the holder is known to be over. */
  lemma LeaseMoves(cal: Calendar, s: System, a: Action, k: Name)
    requires cal.Valid() && Inv(cal, s) && Enabled(cal, s, a) && k in s.specs && Holds(s, k)
    requires k in Do(cal, s, a).specs && Do(cal, s, a).specs[k] == s.specs[k]
    ensures Holds(Do(cal, s, a), k) || KnownOver(s, k)
  {
    hide GoodStatus, Plan, Inv;
    if a.Commit? {
      HeadJustified(cal, s, a.key);
      var w := s.inflight[a.key][0];
      if Accepts(s, w) {
        LeaseMovesByWrite(cal, s, a.key, w, k);
      }
    }
  }

  lemma ClaimStays(cal: Calendar, s: System, a: Action, k: Name)
    requires cal.Valid() && cal.HasAlways() && Inv(cal, s) && Enabled(cal, s, a) && k in s.specs && Claimed(s, k)
    ensures k in Do(cal, s, a).specs && Claimed(Do(cal, s, a), k)
  {
    hide Inv, Do, Enabled;
    StepInv(cal, s, a);
    SpecStays(s, Do(cal, s, a), k);
    if Holds(s, k) {
      LeaseMoves(cal, s, a, k);
    }
    if KnownOver(s, k) {
      OverStays(s, Do(cal, s, a), k);
    }
  }

  lemma SpecStays(s: System, t: System, k: Name)
    requires Extends(s, t) && k in s.specs
    ensures k in t.specs && t.specs[k] == s.specs[k]
  {
  }

  lemma RunsAppearByWrite(cal: Calendar, s: System, e: Name, w: Write, k: Name)
    requires e in s.specs && Justified(cal, s, e, w) && Accepts(s, w) && k in s.events && e != k
    ensures var t := Apply(s, w);
            k in t.events && t.events[k] == s.events[k] && (k in t.alive ==> k in s.alive)
  {
    hide GoodStatus, HasEntry;
    match w
    case UpdateStatus(_, _) =>
    case _ =>
  }

  /** Only the sync of k adds or removes its runs. */
  lemma RunsAppear(cal: Calendar, s: System, a: Action, k: Name)
    requires cal.Valid() && Inv(cal, s) && Enabled(cal, s, a) && k in s.events && k in s.specs
    requires !(a.Commit? && a.key == k)
    ensures var t := Do(cal, s, a);
            && k in t.events
            && (s.events[k].runs == [] <==> t.events[k].runs == [])
            && s.events[k].rv <= t.events[k].rv
            && (k in t.alive ==> k in s.alive)
  {
    hide GoodStatus, Plan, Inv;
    if a.Commit? {
      HeadJustified(cal, s, a.key);
      var w := s.inflight[a.key][0];
      if Accepts(s, w) {
        RunsAppearByWrite(cal, s, a.key, w, k);
      }
    }
  }

  lemma PlanVersion(cal: Calendar, s: System, k: Name, w: Write)
    requires Inv(cal, s) && k in s.inflight && w in s.inflight[k] && w.UpdateStatus?
    ensures k in s.events && w.status.rv <= s.events[k].rv
  {
    var i :| 0 <= i < |s.inflight[k]| && s.inflight[k][i] == w;
    assert Justified(cal, s, k, s.inflight[k][i]);
  }

  /** The first write of k's plan adds runs only with the lease, and the rest still claims it. */
  lemma WriteClaims(cal: Calendar, s: System, k: Name, w: Write, rest: seq<Write>)
    requires k in s.specs && k in s.events && Accepts(s, w) && Justified(cal, s, k, w)
    requires PlanClaims(s, k, [w] + rest)
    requires s.events[k].runs != [] ==> Claimed(s, k)
    requires forall u :: u in rest && u.UpdateStatus? ==> u.status.rv <= s.events[k].rv
    ensures var t := Apply(s, w);
            && k in t.events && t.specs == s.specs && t.cache == s.cache
            && (t.events[k].runs != [] ==> Claimed(s, k))
            && ((Claimed(s, k) ==> Claimed(t, k)) ==> PlanClaims(t, k, rest))
  {
    hide GoodStatus, HasEntry;
    var plan := [w] + rest;
    assert w in plan && forall u :: u in rest ==> u in plan;
    match w
    case UpdateStatus(_, _) =>
    case CreateLease(_, _) => assert Acquires(s, k, w) ==> Holds(Apply(s, w), k);
    case TakeLease(_, _, _) => assert Acquires(s, k, w) ==> Holds(Apply(s, w), k);
    case _ =>
  }

  lemma CommitClaims(cal: Calendar, s: System, k: Name)
    requires cal.Valid() && Inv(cal, s) && NameInv(s) && Enabled(cal, s, Commit(k))
    ensures var t := Do(cal, s, Commit(k));
            && k in t.specs && k in t.events
            && (t.events[k].runs != [] ==> Claimed(s, k))
            && ((Claimed(s, k) ==> Claimed(t, k)) ==> k in t.inflight ==> PlanClaims(t, k, t.inflight[k]))
  {
    hide GoodStatus, HasEntry, Inv, PlanClaims, Justified, Apply, Accepts, Claimed;
    var w, rest := s.inflight[k][0], s.inflight[k][1..];
    HeadJustified(cal, s, k);
    InvDomains(cal, s);
    assert s.inflight[k] == [w] + rest;
    forall u | u in rest && u.UpdateStatus? ensures u.status.rv <= s.events[k].rv {
      PlanVersion(cal, s, k, u);
    }
    if Accepts(s, w) {
      WriteClaims(cal, s, k, w, rest);
      InflightIrrelevant(Apply(s, w), Do(cal, s, Commit(k)), k, rest);
    } else {
      InflightIrrelevant(s, Do(cal, s, Commit(k)), k, rest);
    }
  }

  lemma InflightIrrelevant(s: System, t: System, k: Name, plan: seq<Write>)
    requires t == s.(inflight := t.inflight, owner := t.owner) && k in s.specs && k in s.events
    ensures PlanClaims(t, k, plan) == PlanClaims(s, k, plan) && Claimed(t, k) == Claimed(s, k)
  {
  }

  lemma StepRunsClaimed(cal: Calendar, s: System, a: Action, k: Name)
    requires cal.Valid() && cal.HasAlways() && Inv(cal, s) && NameInv(s) && Enabled(cal, s, a)
    requires k in s.events && k in Do(cal, s, a).events && k in Do(cal, s, a).specs && Do(cal, s, a).events[k].runs != []
    ensures Claimed(Do(cal, s, a), k)
  {
    hide GoodStatus, Plan, Justified, Extends, Do;
    if a.Commit? && a.key == k {
      CommitClaims(cal, s, k);
    } else {
      RunsAppear(cal, s, a, k);
    }
    ClaimStays(cal, s, a, k);
  }

  lemma BeginPlanClaims(cal: Calendar, s: System, a: Action)
    requires cal.Valid() && Inv(cal, s) && NameInv(s) && a.Begin? && Enabled(cal, s, a)
    ensures var t, k := Do(cal, s, a), a.key;
            k in t.events && k in t.specs && k in t.inflight && PlanClaims(t, k, t.inflight[k])
  {
    hide Plan, Inv, Claimed;
    InvDomains(cal, s);
    PlanIsClaimed(cal, s, a.order, a.key, a.now, a.paused, a.gen);
    InflightIrrelevant(s, Do(cal, s, a), a.key, Do(cal, s, a).inflight[a.key]);
  }

  lemma OtherPlanClaims(cal: Calendar, s: System, a: Action, k: Name)
    requires cal.Valid() && cal.HasAlways() && Inv(cal, s) && NameInv(s) && Enabled(cal, s, a)
    requires k in s.inflight && k in s.events && k in s.specs && !(a.Commit? && a.key == k) && !(a.Begin? && a.key == k)
    ensures var t := Do(cal, s, a);
            && k in t.events && k in t.specs
            && (k in t.inflight ==> PlanClaims(t, k, s.inflight[k]))
  {
    hide Do, Inv, Claimed;
    var t := Do(cal, s, a);
    assert PlanClaims(s, k, s.inflight[k]);
    forall w | w in s.inflight[k] && w.UpdateStatus? ensures w.status.rv <= s.events[k].rv {
      PlanVersion(cal, s, k, w);
    }
    StepInv(cal, s, a);
    InvDomains(cal, t);
    SpecStays(s, t, k);
    if Claimed(s, k) {
      ClaimStays(cal, s, a, k);
    }
    RunsAppear(cal, s, a, k);
    assert s.inflight[k] != [] ==> Acquires(t, k, s.inflight[k][0]) == Acquires(s, k, s.inflight[k][0]);
  }

  lemma PlansMove(cal: Calendar, s: System, a: Action, k: Name)
    requires cal.Valid() && Enabled(cal, s, a) && k in Do(cal, s, a).inflight
    requires !(a.Commit? && a.key == k) && !(a.Begin? && a.key == k)
    ensures k in s.inflight && Do(cal, s, a).inflight[k] == s.inflight[k]
  {
    hide Plan, Accepts;
  }

  lemma StepPlanClaims(cal: Calendar, s: System, a: Action, k: Name)
    requires cal.Valid() && cal.HasAlways() && Inv(cal, s) && NameInv(s) && Enabled(cal, s, a)
    requires k in Do(cal, s, a).inflight && k in Do(cal, s, a).events && k in Do(cal, s, a).specs
    ensures PlanClaims(Do(cal, s, a), k, Do(cal, s, a).inflight[k])
  {
    hide Do, Inv, Claimed, PlanClaims;
    InvDomains(cal, s);
    if a.Begin? && a.key == k {
      BeginPlanClaims(cal, s, a);
    } else if a.Commit? && a.key == k {
      InvDomains(cal, s);
      CommitClaims(cal, s, k);
      if Claimed(s, k) {
        ClaimStays(cal, s, a, k);
      }
    } else {
      PlansMove(cal, s, a, k);
      OtherPlanClaims(cal, s, a, k);
    }
  }

  lemma StepNames(cal: Calendar, s: System, a: Action)
    requires cal.Valid() && cal.HasAlways() && Inv(cal, s) && NameInv(s) && Enabled(cal, s, a)
    ensures Domains(Do(cal, s, a)) && NameInv(Do(cal, s, a))
  {
    hide Do, Inv, Enabled, PlanClaims, Claimed, Extends;
    var t := Do(cal, s, a);
    StepInv(cal, s, a);
    InvDomains(cal, t);
    InvDomains(cal, s);
    forall k | k in t.events && t.events[k].runs != [] ensures Claimed(t, k) {
      if k in s.events {
        StepRunsClaimed(cal, s, a, k);
      } else {
        NewEventIsFresh(cal, s, a, k);
      }
    }
    forall k | k in t.inflight ensures PlanClaims(t, k, t.inflight[k]) {
      StepPlanClaims(cal, s, a, k);
    }
  }

  lemma WriteKeepsEvents(s: System, w: Write)
    requires Accepts(s, w)
    ensures Apply(s, w).events.Keys == s.events.Keys
  {
  }

  lemma CommitCreatesNone(cal: Calendar, s: System, k: Name)
    requires cal.Valid() && Enabled(cal, s, Commit(k))
    ensures Do(cal, s, Commit(k)).events.Keys == s.events.Keys
  {
    hide Plan, Apply, Accepts;
    if Accepts(s, s.inflight[k][0]) {
      WriteKeepsEvents(s, s.inflight[k][0]);
    }
  }

  lemma OthersCreateNone(cal: Calendar, s: System, a: Action)
    requires cal.Valid() && Enabled(cal, s, a) && !a.Create?
    ensures Do(cal, s, a).events.Keys == s.events.Keys
  {
    hide Plan;
    if a.Commit? {
      CommitCreatesNone(cal, s, a.key);
    }
  }

  lemma NewEventIsFresh(cal: Calendar, s: System, a: Action, k: Name)
    requires cal.Valid() && Inv(cal, s) && Enabled(cal, s, a) && k in Do(cal, s, a).events && k !in s.events
    ensures Do(cal, s, a).events[k] == Fresh
  {
    hide Plan, Inv;
    if !a.Create? {
      OthersCreateNone(cal, s, a);
    }
  }
}
