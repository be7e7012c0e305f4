/** The freeze: once a group is locked no event newly adopts its leader. What is locked stays
    locked, whatever the workers do and however far the listers lag; and a leader that starts a
    LeaderOnly pipeline is locked if no two syncs of its group are on their way at once. */
module Freeze {
  import opened Prelude
  import opened CalendarTypes
  import opened EventSync
  import opened Protocol
  import opened Growth
  import opened Invariant
  import opened Safety
  import opened Undisturbed
  import opened GroupPlan
  import opened Theorems
  import opened Groups

  /** A write still to be made that would give event e the leader l. */
  ghost predicate WouldAdopt(s: System, l: Name, e: Name, w: Write) {
    && w.UpdateStatus? && w.event == e && w.status.leader == Some(l)
    && e in s.events && w.status.rv == s.events[e].rv && s.events[e].leader != Some(l)
  }

  ghost predicate NoAdoption(s: System, l: Name) {
    forall e, w :: e in s.inflight && w in s.inflight[e] ==> !WouldAdopt(s, l, e, w)
  }

  ghost predicate NoElection(s: System, l: Name)
    requires l in s.specs
  {
    l in s.inflight ==> CreateLease(GroupLease(s.specs[l].group), l) !in s.inflight[l]
  }

  /** The lister does not take l for leaderless. */
  ghost predicate NotLeaderless(s: System, l: Name) {
    l in s.cache ==> s.cache[l].leader.Some?
  }

  /** l leads itself and does not hold the lease of its group, and no sync on its way would adopt
      l or create that lease for it. */
  ghost predicate Locked(s: System, l: Name) {
    && l in s.specs && l in s.events && s.events[l].leader == Some(l)
    && !HoldsGroup(s, l) && NotLeaderless(s, l) && NoAdoption(s, l) && NoElection(s, l)
  }

  ghost predicate NoNewMembers(s: System, t: System, l: Name) {
    forall e :: Member(t, l, e) ==> Member(s, l, e)
  }

  // ------------------------------------------------------------------ a sync begins

  lemma LeaseFitsGroup(cal: Calendar, s: System, group: string)
    requires Inv(cal, s) && GroupLease(group) in s.leases
    ensures s.leases[GroupLease(group)] in s.specs && group != "" && s.specs[s.leases[GroupLease(group)]].group == group
  {
    hide GoodStatus, Justified;
    assert LeaseFits(s, GroupLease(group), s.leases[GroupLease(group)]);
  }

  /** A sync that begins, whatever its lister shows, plans to adopt only the holder of the lease. */
  lemma PlansToAdopt(cal: Calendar, s: System, a: Action, l: Name, w: Write)
    requires cal.Valid() && Inv(cal, s) && Domains(s) && CachesLag(s) && a.Begin? && ViewOf(s, a.order).Valid() && a.key in s.specs
    requires l in s.specs && w in Plan(cal, ViewOf(s, a.order), a.key, a.now, a.paused, a.gen) && WouldAdopt(s, l, a.key, w)
    ensures a.key in s.cache && s.cache[a.key] == s.events[a.key] && s.events[a.key].leader.None?
    ensures l == a.key || HoldsGroup(s, l)
  {
    hide Inv, Plan, UpdateIsLast, LeaseShape, RunShape, Starts;
    var v, k := ViewOf(s, a.order), a.key;
    if k in v.events {
      PlanHasShape(cal, v, k, a.now, a.paused, a.gen);
      PlannedVersion(cal, s, a, w);
      assert UpdateShape(cal, v, k, Plan(cal, v, k, a.now, a.paused, a.gen), w.status);
      assert Older(s.cache[k], s.events[k]);
      assert LeaderFrom(v, k, s.events[k], w.status);
      if GroupLease(s.specs[k].group) in s.leases {
        LeaseFitsGroup(cal, s, s.specs[k].group);
      }
    } else {
      NoPlan(cal, v, k, a.now, a.paused, a.gen);
    }
  }

  /** A status is planned from the version the lister shows. */
  lemma PlannedVersion(cal: Calendar, s: System, a: Action, w: Write)
    requires cal.Valid() && Inv(cal, s) && Domains(s) && CachesLag(s) && a.Begin? && ViewOf(s, a.order).Valid() && a.key in s.cache
    requires w in Plan(cal, ViewOf(s, a.order), a.key, a.now, a.paused, a.gen) && w.UpdateStatus?
    ensures w.event == a.key && w.status.rv == s.cache[a.key].rv
  {
    hide Plan, GoodStatus, Justified;
    SeesView(cal, s, a.order);
    PlanSound.PlanWrites(cal, s, ViewOf(s, a.order), a.key, a.now, a.paused, a.gen);
    assert PlanSound.WriteOk(cal, s, a.key, s.cache[a.key], w);
  }

  lemma SeesView(cal: Calendar, s: System, order: seq<Name>)
    requires Inv(cal, s) && ViewOf(s, order).Valid()
    ensures PlanSound.Sees(s, ViewOf(s, order))
  {
    hide GoodStatus, Justified;
  }

  /** A sync plans to create the lease of its group only if the lister shows its event leaderless. */
  lemma PlansToLead(cal: Calendar, s: System, a: Action)
    requires cal.Valid() && a.Begin? && ViewOf(s, a.order).Valid() && a.key in s.specs
    requires CreateLease(GroupLease(s.specs[a.key].group), a.key) in Plan(cal, ViewOf(s, a.order), a.key, a.now, a.paused, a.gen)
    ensures a.key in s.cache && s.cache[a.key].leader.None? && GroupLease(s.specs[a.key].group) !in s.leases
  {
    hide Plan, UpdateIsLast, UpdateShape, RunShape;
    var v, k := ViewOf(s, a.order), a.key;
    if k in v.events {
      PlanHasShape(cal, v, k, a.now, a.paused, a.gen);
    } else {
      NoPlan(cal, v, k, a.now, a.paused, a.gen);
    }
  }

  // ------------------------------------------------------------------ one step

  /** A write that would make an adoption after a step would have made it before, or has just been planned. */
  lemma AdoptionIsOld(cal: Calendar, s: System, a: Action, t: System, l: Name, e: Name, w: Write)
    requires Inv(cal, s) && Extends(s, t) && e in s.inflight && w in s.inflight[e] && WouldAdopt(t, l, e, w)
    ensures WouldAdopt(s, l, e, w) && t.events[e] == s.events[e]
  {
    hide Inv, Extends;
    StillCurrent(cal, s, t, e, w);
  }

  lemma StepNoAdoption(cal: Calendar, s: System, a: Action, t: System, l: Name)
    requires cal.Valid() && Inv(cal, s) && Domains(s) && CachesLag(s) && Extends(s, t) && PlansMove(cal, s, a, t) && Locked(s, l)
    requires a.Begin? ==> t.events == s.events
    ensures NoAdoption(t, l)
  {
    hide Inv, Plan, Extends;
    forall e, w | e in t.inflight && w in t.inflight[e] ensures !WouldAdopt(t, l, e, w) {
      if WouldAdopt(t, l, e, w) {
        if a.Begin? && a.key == e {
          PlansToAdopt(cal, s, a, l, w);
        } else {
          assert w in s.inflight[e];
          AdoptionIsOld(cal, s, a, t, l, e, w);
        }
      }
    }
  }

  lemma StepNoElection(cal: Calendar, s: System, a: Action, t: System, l: Name)
    requires cal.Valid() && PlansMove(cal, s, a, t) && Locked(s, l) && l in t.specs && t.specs[l] == s.specs[l]
    ensures NoElection(t, l)
  {
    hide Plan;
    if l in t.inflight && a.Begin? && a.key == l && CreateLease(GroupLease(s.specs[l].group), l) in t.inflight[l] {
      PlansToLead(cal, s, a);
    }
  }

  lemma StepUnheld(cal: Calendar, s: System, a: Action, t: System, l: Name)
    requires l in s.specs && l in t.specs && t.specs[l] == s.specs[l] && LeasesMove(s, a, t)
    requires !HoldsGroup(s, l) && NoElection(s, l)
    ensures !HoldsGroup(t, l)
  {
    if Written(s, a).Some? {
      assert Written(s, a).value in s.inflight[a.key];
    }
  }

  lemma StepMembers(cal: Calendar, s: System, a: Action, t: System, l: Name)
    requires EventsMove(s, a, t) && Domains(s) && (forall k :: k in s.specs && k in t.alive ==> k in s.alive)
    requires a.Commit? && Written(s, a).Some? ==> !WouldAdopt(s, l, a.key, Written(s, a).value)
    ensures NoNewMembers(s, t, l)
  {
  }

  lemma StepNotLeaderless(cal: Calendar, s: System, a: Action, t: System, l: Name)
    requires CacheMoves(s, a, t) && l in s.events && s.events[l].leader.Some? && NotLeaderless(s, l)
    ensures NotLeaderless(t, l)
  {
  }

  /** No step of any worker, user or machine unlocks a group, and none adds a follower. */
  lemma StepLocked(cal: Calendar, s: System, a: Action, l: Name)
    requires cal.Valid() && cal.HasAlways() && Inv(cal, s) && Enabled(cal, s, a) && Locked(s, l)
    ensures Locked(Do(cal, s, a), l) && NoNewMembers(s, Do(cal, s, a), l)
  {
    hide Inv, Do, Enabled, Plan, HoldsGroup, WouldAdopt, Older, GoodStatus, PlansMove, EventsMove, LeasesMove, CacheMoves, NoNewMembers;
    var t := StepMoves(cal, s, a);
    InvDomains(cal, s);
    LeaderStays(s, t, l);
    StepNotLeaderless(cal, s, a, t, l);
    StepUnheld(cal, s, a, t, l);
    StepNoElection(cal, s, a, t, l);
    if a.Begin? {
      BeginsQuietly(cal, s, a);
    }
    StepNoAdoption(cal, s, a, t, l);
    WrittenIsPlanned(s, a);
    StepMembers(cal, s, a, t, l);
  }

  lemma LeaderStays(s: System, t: System, l: Name)
    requires Extends(s, t) && l in s.events && s.events[l].leader.Some?
    ensures l in t.events && t.events[l].leader == s.events[l].leader
  {
  }

  lemma BeginsQuietly(cal: Calendar, s: System, a: Action)
    requires cal.Valid() && Enabled(cal, s, a) && a.Begin?
    ensures Do(cal, s, a).events == s.events
  {
    hide Plan;
  }

  lemma WrittenIsPlanned(s: System, a: Action)
    ensures Written(s, a).Some? ==> a.Commit? && a.key in s.inflight && Written(s, a).value in s.inflight[a.key]
    ensures Written(s, a).Some? ==> s.inflight[a.key] != [] && Written(s, a).value == s.inflight[a.key][0]
  {
  }

  /** A locked group stays locked over every run from a state that keeps the invariant. */
  lemma {:induction false} LockedForGood(cal: Calendar, states: seq<System>, actions: seq<Action>, m: nat, n: nat, l: Name)
    requires cal.Valid() && cal.HasAlways() && IsRun(cal, states, actions) && m <= n < |states|
    requires Inv(cal, states[m]) && Locked(states[m], l)
    ensures Inv(cal, states[n]) && Locked(states[n], l) && NoNewMembers(states[m], states[n], l)
    decreases n
  {
    hide Do, Enabled, Inv, Locked, Member;
    if m < n {
      LockedForGood(cal, states, actions, m, n - 1, l);
      StepInv(cal, states[n - 1], actions[n - 1]);
      StepLocked(cal, states[n - 1], actions[n - 1], l);
    }
  }

  /** With any number of workers and any lag: once a group is locked and no sync on its way would
      adopt its leader, no event ever does. */
  lemma LockedStaysFrozen(cal: Calendar, states: seq<System>, actions: seq<Action>, m: nat, n: nat, l: Name, e: Name)
    requires History(cal, states, actions) && m <= n < |states| && Locked(states[m], l)
    ensures Locked(states[n], l) && (Member(states[n], l, e) ==> Member(states[m], l, e))
  {
    hide Do, Enabled, Inv, Locked, Member;
    RunInv(cal, states, actions, m);
    LockedForGood(cal, states, actions, m, n, l);
  }

  // ------------------------------------------------------------------ one sync of a group at a time

  ghost predicate Alone(s: System)
    requires s.inflight.Keys <= s.specs.Keys
  {
    forall a, b :: a in s.inflight && b in s.inflight && SameGroup(s, a, b) ==> a == b
  }

  /** A plan of k that is about to start a LeaderOnly pipeline leaves k locked when it is done. */
  ghost predicate LocksFirst(s: System, k: Name, plan: seq<Write>)
    requires k in s.specs && k in s.events
  {
    var key := GroupLease(s.specs[k].group);
    && s.events[k].leader == Some(k) && k in s.cache && s.cache[k].leader.Some?
    && CreateLease(key, k) !in plan && (!HoldsGroup(s, k) || DeleteLease(key) in plan)
  }

  ghost predicate StartsLocked(cal: Calendar, s: System, k: Name, plan: seq<Write>)
    requires k in s.specs && k in s.events
  {
    forall w, j: nat :: w in plan && w.UpdateStatus? && w.status.rv == s.events[k].rv && Starts(cal, s.events[k], w.status, j) ==>
      k in s.alive ==> LocksFirst(s, k, plan)
  }

  ghost predicate PlanLocks(cal: Calendar, s: System, k: Name, plan: seq<Write>)
    requires k in s.specs && k in s.events
  {
    UpdateIsLast(plan) && StartsLocked(cal, s, k, plan)
  }

  ghost predicate FreezeInv(cal: Calendar, s: System)
    requires Domains(s)
  {
    && Alone(s)
    && (forall l, j: nat :: l in s.events && Started(cal, s.events[l], j) ==> Locked(s, l))
    && (forall k :: k in s.inflight ==> PlanLocks(cal, s, k, s.inflight[k]))
  }

  lemma StepAlone(cal: Calendar, s: System, a: Action, t: System)
    requires cal.Valid() && Domains(s) && Domains(t) && Alone(s) && Groupwise(s, a) && PlansMove(cal, s, a, t)
    requires forall k :: k in s.specs ==> k in t.specs && t.specs[k] == s.specs[k]
    ensures Alone(t)
  {
    hide Plan;
    forall x, y | x in t.inflight && y in t.inflight && SameGroup(t, x, y) ensures x == y {
      assert x in s.specs && y in s.specs && SameGroup(s, x, y) && SameGroup(s, y, x);
    }
  }

  lemma BeginLocks(cal: Calendar, s: System, a: Action)
    requires cal.Valid() && Inv(cal, s) && Domains(s) && CachesLag(s) && a.Begin? && ViewOf(s, a.order).Valid() && a.key in s.specs
    ensures a.key in s.events && PlanLocks(cal, s, a.key, Plan(cal, ViewOf(s, a.order), a.key, a.now, a.paused, a.gen))
  {
    hide Inv, Plan, RunShape, Gathered, UpdateIsLast, MayLock, FirstRun;
    var v, k := ViewOf(s, a.order), a.key;
    var plan := Plan(cal, v, k, a.now, a.paused, a.gen);
    if k in v.events {
      PlanHasShape(cal, v, k, a.now, a.paused, a.gen);
      assert Older(s.cache[k], s.events[k]);
      forall w, j: nat | w in plan && w.UpdateStatus? && w.status.rv == s.events[k].rv && Starts(cal, s.events[k], w.status, j)
        ensures LocksFirst(s, k, plan)
      {
        PlannedVersion(cal, s, a, w);
        assert UpdateShape(cal, v, k, plan, w.status);
      }
    } else {
      NoPlan(cal, v, k, a.now, a.paused, a.gen);
      assert UpdateIsLast(plan) by { EmptyIsLast(); }
    }
  }

  lemma EmptyIsLast()
    ensures UpdateIsLast([])
  {
  }

  /** Writes that are left after a step, or all of them, still start nothing unlocked. */
  lemma LeftLocks(cal: Calendar, s: System, a: Action, t: System, k: Name, rest: seq<Write>)
    requires Inv(cal, s) && Domains(s) && Domains(t) && Extends(s, t) && LeasesMove(s, a, t) && CacheMoves(s, a, t)
    requires k in s.inflight && PlanLocks(cal, s, k, s.inflight[k]) && t.specs[k] == s.specs[k] && (k in t.alive ==> k in s.alive)
    requires if a == Commit(k) then Written(s, a).Some? && rest == s.inflight[k][1..] else rest == s.inflight[k]
    ensures PlanLocks(cal, t, k, rest)
  {
    var plan := s.inflight[k];
    hide Inv, Extends, Starts, LocksFirst, LeasesMove, CacheMoves, UpdateIsLast;
    RestIsLast(plan);
    forall w, j: nat | w in rest && w.UpdateStatus? && w.status.rv == t.events[k].rv && Starts(cal, t.events[k], w.status, j) && k in t.alive
      ensures LocksFirst(t, k, rest)
    {
      StillCurrent(cal, s, t, k, w);
      assert LocksFirst(s, k, plan);
      StillLocksFirst(s, a, t, k, rest);
    }
  }

  lemma StillLocksFirst(s: System, a: Action, t: System, k: Name, rest: seq<Write>)
    requires LeasesMove(s, a, t) && CacheMoves(s, a, t) && k in s.inflight
    requires k in s.specs && k in t.specs && t.specs[k] == s.specs[k] && k in t.alive
    requires k in s.events && k in t.events && t.events[k] == s.events[k] && LocksFirst(s, k, s.inflight[k])
    requires if a == Commit(k) then Written(s, a).Some? && rest == s.inflight[k][1..] else rest == s.inflight[k]
    ensures LocksFirst(t, k, rest)
  {
    var plan := s.inflight[k];
    hide Written;
    WrittenIsPlanned(s, a);
    assert rest == plan || forall u :: u in plan ==> u == plan[0] || u in rest;
  }

  lemma RestIsLast(plan: seq<Write>)
    requires UpdateIsLast(plan)
    ensures plan != [] ==> UpdateIsLast(plan[1..]) && forall w :: w in plan[1..] ==> w in plan
    ensures plan != [] && plan[0].UpdateStatus? ==> |plan| == 1
  {
    if plan != [] {
      assert forall i :: 0 <= i < |plan[1..]| ==> plan[1..][i] == plan[i + 1];
    }
  }

  lemma StepPlanLocks(cal: Calendar, s: System, a: Action, t: System, k: Name)
    requires cal.Valid() && Inv(cal, s) && CachesLag(s) && Extends(s, t) && Domains(s) && FreezeInv(cal, s) && Domains(t) && Moves(cal, s, a, t)
    requires k in t.inflight && (a.Begin? ==> t.events == s.events && t.leases == s.leases && t.alive == s.alive)
    ensures PlanLocks(cal, t, k, t.inflight[k])
  {
    hide Inv, PlanLocks, Plan, EventsMove, LeasesMove, CacheMoves, RunsMove, Extends, Locked;
    if a.Begin? && a.key == k {
      BeginLocks(cal, s, a);
      LocksAlike(cal, s, a, t, k, t.inflight[k]);
    } else {
      LeftLocks(cal, s, a, t, k, t.inflight[k]);
    }
  }

  lemma LocksAlike(cal: Calendar, s: System, a: Action, t: System, k: Name, plan: seq<Write>)
    requires k in s.specs && k in s.events && k in t.specs && t.specs[k] == s.specs[k] && PlanLocks(cal, s, k, plan)
    requires a.Begin? && CacheMoves(s, a, t) && t.events == s.events && t.leases == s.leases && t.alive == s.alive
    ensures PlanLocks(cal, t, k, plan)
  {
    hide FirstRun, UpdateIsLast;
  }

  /** A leader that has just started a LeaderOnly pipeline is locked. */
  lemma StartedIsLocked(cal: Calendar, s: System, a: Action, t: System, l: Name, j: nat)
    requires cal.Valid() && Inv(cal, s) && Domains(s) && Domains(t) && FreezeInv(cal, s) && Extends(s, t) && Moves(cal, s, a, t)
    requires l in s.events && l in t.events && !Started(cal, s.events[l], j) && Started(cal, t.events[l], j)
    ensures Locked(t, l)
  {
    hide Inv, Plan, Extends, PlanLocks, RunsMove, Locked, Started, Alone;
    StartIsWritten(cal, s, a, t, l, j);
    var w := Written(s, a).value;
    WrittenIsPlanned(s, a);
    assert PlanLocks(cal, s, l, s.inflight[l]);
    OnlyTheUpdate(cal, s, l, w, j);
    LeaderStays(s, t, l);
    hide EventsMove, FreezeInv, LocksFirst, UpdateIsLast;
    StartAdoptsNone(cal, s, a, t, l);
    StepNotLeaderless(cal, s, a, t, l);
    StepUnheld(cal, s, a, t, l);
    LockedIs(t, l);
  }

  lemma LockedIs(t: System, l: Name)
    requires l in t.specs && l in t.events && t.events[l].leader == Some(l) && !HoldsGroup(t, l)
    requires NotLeaderless(t, l) && NoAdoption(t, l) && (l in t.inflight ==> t.inflight[l] == [])
    ensures Locked(t, l)
  {
  }

  /** Only its own status write starts a pipeline for an event. */
  lemma StartIsWritten(cal: Calendar, s: System, a: Action, t: System, l: Name, j: nat)
    requires EventsMove(s, a, t) && l in s.events && l in t.events && !Started(cal, s.events[l], j) && Started(cal, t.events[l], j)
    ensures Updates(s, a, l) && a == Commit(l) && l in s.alive && Starts(cal, s.events[l], Written(s, a).value.status, j)
    ensures s.events[l].rv == Written(s, a).value.status.rv && t.events == s.events[l := t.events[l]]
  {
    hide FirstRun, Written;
    OnlyCommitsWrite(s, a);
    if !Updates(s, a, l) {
      SameFirst(s.events[l].runs, t.events[l].runs, cal.pipelines[j].name);
    }
  }

  lemma OnlyTheUpdate(cal: Calendar, s: System, l: Name, w: Write, j: nat)
    requires l in s.specs && l in s.events && l in s.inflight && l in s.alive && s.inflight[l] != [] && w == s.inflight[l][0]
    requires PlanLocks(cal, s, l, s.inflight[l]) && w.UpdateStatus? && w.status.rv == s.events[l].rv && Starts(cal, s.events[l], w.status, j)
    ensures s.inflight[l] == [w] && s.events[l].leader == Some(l) && !HoldsGroup(s, l) && NotLeaderless(s, l)
  {
    hide Starts;
    RestIsLast(s.inflight[l]);
    assert LocksFirst(s, l, s.inflight[l]);
  }

  /** An adoption of l on its way belongs to a sync of l's group. */
  lemma AdoptionIsInGroup(cal: Calendar, s: System, l: Name, e: Name, w: Write)
    requires Inv(cal, s) && e in s.inflight && w in s.inflight[e] && WouldAdopt(s, l, e, w)
    ensures e in s.specs && l in s.specs && (e == l || SameGroup(s, e, l))
  {
    hide Inv, NamesOwned, EntriesTrue, InOrder, PhaseTrue, Grows;
    PlannedIsGood(cal, s, e, w);
  }

  lemma StartAdoptsNone(cal: Calendar, s: System, a: Action, t: System, l: Name)
    requires cal.Valid() && Inv(cal, s) && Domains(s) && Domains(t) && Alone(s) && Extends(s, t) && PlansMove(cal, s, a, t)
    requires a == Commit(l) && l in s.inflight && l in s.events && s.events[l].leader == Some(l) && (l in t.inflight ==> t.inflight[l] == [])
    ensures NoAdoption(t, l)
  {
    hide Inv, Plan, Extends;
    forall e, w | e in t.inflight && w in t.inflight[e] ensures !WouldAdopt(t, l, e, w) {
      if WouldAdopt(t, l, e, w) {
        assert e != l && e in s.inflight && w in s.inflight[e];
        AdoptionIsOld(cal, s, a, t, l, e, w);
        AdoptionIsInGroup(cal, s, l, e, w);
      }
    }
  }

  lemma StepFreeze(cal: Calendar, s: System, a: Action)
    requires cal.Valid() && cal.HasAlways() && Inv(cal, s) && Enabled(cal, s, a) && Groupwise(s, a)
    requires Domains(s) && FreezeInv(cal, s)
    ensures Domains(Do(cal, s, a)) && FreezeInv(cal, Do(cal, s, a))
  {
    hide Inv, Do, Enabled, Plan, PlanLocks, Locked, EventsMove, LeasesMove, RunsMove, CacheMoves, Started, Extends, Alone, Groupwise;
    var t := StepMoves(cal, s, a);
    InvDomains(cal, s);
    StepAlone(cal, s, a, t);
    if a.Begin? {
      BeginsOnly(cal, s, a);
    }
    forall k | k in t.inflight ensures PlanLocks(cal, t, k, t.inflight[k]) {
      StepPlanLocks(cal, s, a, t, k);
    }
    forall l, j: nat | l in t.events && Started(cal, t.events[l], j) ensures Locked(t, l) {
      NewIsNotStarted(cal, s, a, t, l, j);
      if Started(cal, s.events[l], j) {
        StepLocked(cal, s, a, l);
      } else {
        StartedIsLocked(cal, s, a, t, l, j);
      }
    }
  }

  lemma BeginsOnly(cal: Calendar, s: System, a: Action)
    requires cal.Valid() && Enabled(cal, s, a) && a.Begin?
    ensures var t := Do(cal, s, a);
            t.events == s.events && t.leases == s.leases && t.alive == s.alive && t.tekton == s.tekton
  {
    hide Plan;
  }

  lemma NewIsNotStarted(cal: Calendar, s: System, a: Action, t: System, l: Name, j: nat)
    requires EventsMove(s, a, t) && l in t.events && Started(cal, t.events[l], j)
    ensures l in s.events
  {
  }

  lemma {:induction false} RunFreeze(cal: Calendar, states: seq<System>, actions: seq<Action>, n: nat)
    requires GroupwiseHistory(cal, states, actions) && n < |states|
    ensures Inv(cal, states[n]) && Domains(states[n]) && FreezeInv(cal, states[n])
  {
    hide Inv, Do, Enabled, FreezeInv;
    RunInv(cal, states, actions, n);
    InvDomains(cal, states[n]);
    if n == 0 {
      NothingFrozen(cal, states[0]);
    } else {
      RunFreeze(cal, states, actions, n - 1);
      StepFreeze(cal, states[n - 1], actions[n - 1]);
    }
  }

  lemma NothingFrozen(cal: Calendar, s: System)
    requires Init(s) && Domains(s)
    ensures FreezeInv(cal, s)
  {
  }

  /** With any number of workers and any lag, if no two syncs of one group are on their way at
      once: once l has started a LeaderOnly pipeline no event newly adopts it. */
  lemma FrozenFollowers(cal: Calendar, states: seq<System>, actions: seq<Action>, m: nat, n: nat, l: Name, j: nat, e: Name)
    requires GroupwiseHistory(cal, states, actions) && m <= n < |states|
    requires l in states[m].events && Started(cal, states[m].events[l], j)
    ensures Locked(states[m], l) && (Member(states[n], l, e) ==> Member(states[m], l, e))
  {
    hide Do, Enabled, Inv, Locked, Member, Started;
    RunFreeze(cal, states, actions, m);
    LockedStaysFrozen(cal, states, actions, m, n, l, e);
  }
}
