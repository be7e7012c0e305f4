/** Completeness: when the followers handed to the run of a LeaderOnly pipeline are all there
    will ever be, with listers that lag. */
module Followers {
  import opened Prelude
  import opened CalendarDays
  import opened CalendarTypes
  import opened EventSync
  import opened Protocol
  import opened Growth
  import opened Invariant
  import opened Safety
  import opened Undisturbed
  import opened GroupPlan
  import opened Groups
  import opened Freeze
  import opened Barrier

  /** The lister shows every event that follows l as a follower of l. */
  ghost predicate Shown(s: System, l: Name) {
    forall m :: Member(s, l, m) ==> m in s.cache && s.cache[m].leader == Some(l)
  }

  /** The lister shows a leader for every event of the group that has one. */
  ghost predicate AllShown(s: System, group: string) {
    forall m :: m in s.alive && m in s.events && m in s.specs && s.specs[m].group == group && s.events[m].leader.Some? ==>
      m in s.cache && s.cache[m].leader.Some?
  }

  /** The lock scan of a.key leaves event m out: its group is split by days, and m's day is another. */
  ghost predicate Skips(cal: Calendar, s: System, a: Action, m: Name) {
    && a.Begin? && cal.daily && a.key in s.cache && m in s.cache && a.key in s.specs && m in s.specs && SameGroup(s, a.key, m)
    && s.cache[a.key].time.Some? && s.cache[m].time.Some?
    && !SameDay(s.cache[m].time.value, s.cache[a.key].time.value, cal.zone)
  }

  /** The lister is not behind on the leaders of events that a lock scan leaves out. Nothing is
      asked of calendars that are not daily, nor where a group has one day, nor of fresh listers. */
  ghost predicate SeesSkipped(cal: Calendar, s: System, a: Action) {
    forall m :: Skips(cal, s, a, m) && m in s.events && s.events[m].leader.Some? ==> s.cache[m].leader.Some?
  }

  /** Where nothing is asked: groups are not daily, or the lister is not behind. */
  lemma NothingSkipped(cal: Calendar, s: System, a: Action)
    ensures !cal.daily ==> SeesSkipped(cal, s, a)
    ensures (forall k :: k in s.cache && k in s.events ==> s.cache[k] == s.events[k]) ==> SeesSkipped(cal, s, a)
    ensures (forall m :: m in s.cache ==> !Skips(cal, s, a, m)) ==> SeesSkipped(cal, s, a)
  {
    hide SameDay;
  }

  ghost predicate SeeingHistory(cal: Calendar, states: seq<System>, actions: seq<Action>) {
    GroupwiseHistory(cal, states, actions) && forall i :: 0 <= i < |actions| ==> SeesSkipped(cal, states[i], actions[i])
  }

  // ------------------------------------------------------------------ the invariant

  /** Whoever has a leader, or has a sync with something to write, is listed. */
  ghost predicate Listed(s: System)
    requires Domains(s)
  {
    && (forall m :: m in s.alive && s.events[m].leader.Some? ==> m in s.cache)
    && (forall k :: k in s.inflight && s.inflight[k] != [] && k in s.alive ==> k in s.cache)
  }

  /** A leader holds the lease of its group until all its followers are shown. */
  ghost predicate HeldOrShown(s: System)
    requires Domains(s)
  {
    forall l :: l in s.alive && s.specs[l].group != "" && s.events[l].leader == Some(l) ==> HoldsGroup(s, l) || Shown(s, l)
  }

  /** A sync deletes the lease only when all is shown. */
  ghost predicate LocksShown(s: System, k: Name, plan: seq<Write>)
    requires k in s.specs && k in s.events
  {
    DeleteLease(GroupLease(s.specs[k].group)) in plan ==>
      s.specs[k].group != "" && s.events[k].leader == Some(k) && AllShown(s, s.specs[k].group)
  }

  /** A sync adopts only who holds the lease, or will. */
  ghost predicate AdoptsHolder(s: System, k: Name, plan: seq<Write>)
    requires k in s.specs
  {
    forall l, w :: l in s.alive && l in s.specs && s.specs[l].group != "" && w in plan && WouldAdopt(s, l, k, w) ==>
      HoldsGroup(s, l) || (l == k && CreateLease(GroupLease(s.specs[k].group), k) in plan)
  }

  /** Followers handed on are all there are, and their leader has started its pipeline. */
  ghost predicate Complete(s: System, l: Name, followers: seq<Name>) {
    forall m :: Member(s, l, m) ==> m in followers
  }

  ghost predicate HasStarted(cal: Calendar, s: System, l: Name) {
    l in s.events && exists j: nat :: Started(cal, s.events[l], j)
  }

  ghost predicate CompleteWrite(cal: Calendar, s: System, k: Name, w: Write) {
    w.CreateRun? && IsLeaderOnly(cal, w.pipeline) ==> HasStarted(cal, s, k) && Complete(s, k, w.followers)
  }

  ghost predicate CompleteRun(cal: Calendar, s: System, run: TektonRun) {
    IsLeaderOnly(cal, run.pipeline) ==> HasStarted(cal, s, run.event) && Complete(s, run.event, run.followers)
  }

  ghost predicate CompleteLists(cal: Calendar, s: System) {
    && (forall k, w :: k in s.inflight && w in s.inflight[k] ==> CompleteWrite(cal, s, k, w))
    && (forall n :: n in s.tekton ==> CompleteRun(cal, s, s.tekton[n]))
  }

  ghost predicate ShownInv(cal: Calendar, s: System)
    requires Domains(s)
  {
    && Listed(s) && HeldOrShown(s)
    && (forall k :: k in s.inflight ==> LocksShown(s, k, s.inflight[k]) && AdoptsHolder(s, k, s.inflight[k]))
    && (forall l :: HasStarted(cal, s, l) ==> Shown(s, l))
  }

  // ------------------------------------------------------------------ listed

  lemma StepListed(cal: Calendar, s: System, a: Action, t: System)
    requires cal.Valid() && Domains(s) && Domains(t) && Listed(s) && Extends(s, t) && Moves(cal, s, a, t)
    requires a.Begin? ==> t.events == s.events && t.alive == s.alive
    ensures Listed(t)
  {
    hide Extends, LeasesMove, RunsMove, Plan;
    OnlyCommitsWrite(s, a);
    WrittenIsPlanned(s, a);
    forall m | m in t.alive && t.events[m].leader.Some? ensures m in t.cache {
      if m in s.events && s.events[m].leader.Some? {
        assert m in s.cache;
      } else if m in s.events {
        assert Updates(s, a, m);
      }
    }
    forall k | k in t.inflight && t.inflight[k] != [] && k in t.alive ensures k in t.cache {
      if a.Begin? && a.key == k {
        if k !in s.cache {
          NoPlan(cal, ViewOf(s, a.order), k, a.now, a.paused, a.gen);
        }
      } else {
        assert k in s.inflight && s.inflight[k] != [];
      }
    }
  }

  // ------------------------------------------------------------------ the lock scan

  /** Whatever a lock scan that passes does not leave out has a leader. */
  lemma {:induction false} ScanPassed(cal: Calendar, v: View, group: string, day: int, xs: seq<Name>, m: Name)
    requires forall k :: k in xs ==> k in v.specs && k in v.events
    requires LockScan(cal, v, group, day, xs).Pass? && m in xs && v.specs[m].group == group
    ensures v.events[m].leader.Some? || (cal.daily && v.events[m].time.Some? && !SameDay(v.events[m].time.value, day, cal.zone))
  {
    if xs[0] != m {
      ScanPassed(cal, v, group, day, xs[1..], m);
    }
  }

  lemma BeginLocksShown(cal: Calendar, s: System, a: Action)
    requires cal.Valid() && Inv(cal, s) && Domains(s) && CachesLag(s) && a.Begin? && ViewOf(s, a.order).Valid() && a.key in s.specs
    requires SeesSkipped(cal, s, a) && Listed(s)
    ensures a.key in s.events && LocksShown(s, a.key, Plan(cal, ViewOf(s, a.order), a.key, a.now, a.paused, a.gen))
  {
    hide Inv, Plan, RunShape, UpdateShape, UpdateIsLast, UpdateFollows, LockScan, SameDay;
    var v, k := ViewOf(s, a.order), a.key;
    var plan, group := Plan(cal, v, k, a.now, a.paused, a.gen), s.specs[k].group;
    if k !in v.events {
      NoPlan(cal, v, k, a.now, a.paused, a.gen);
    } else if DeleteLease(GroupLease(group)) in plan {
      PlanHasShape(cal, v, k, a.now, a.paused, a.gen);
      assert MayLock(cal, v, k, v.events[k]);
      assert Older(s.cache[k], s.events[k]);
      forall m | m in s.alive && s.specs[m].group == group && s.events[m].leader.Some?
        ensures m in s.cache && s.cache[m].leader.Some?
      {
        ScanPassed(cal, v, group, v.events[k].time.value, a.order, m);
        assert s.cache[m].leader.None? ==> Skips(cal, s, a, m);
      }
    }
  }

  /** What is shown stays shown while no event of the group newly has a leader. */
  lemma AllStaysShown(cal: Calendar, s: System, a: Action, t: System, group: string)
    requires cal.Valid() && Domains(s) && Domains(t) && Extends(s, t) && Moves(cal, s, a, t) && AllShown(s, group)
    requires forall m :: m in s.specs && s.specs[m].group == group && Updates(s, a, m) ==> s.events[m].leader.Some?
    ensures AllShown(t, group)
  {
    hide LeasesMove, RunsMove, PlansMove;
    forall m | m in t.alive && m in t.events && m in t.specs && t.specs[m].group == group && t.events[m].leader.Some?
      ensures m in t.cache && t.cache[m].leader.Some?
    {
      if m in s.events {
        assert s.events[m].leader.Some?;
        assert m in s.cache && Older(s.cache[m], t.cache[m]);
      }
    }
  }

  lemma StepLocksShown(cal: Calendar, s: System, a: Action, t: System, k: Name)
    requires cal.Valid() && Inv(cal, s) && Domains(s) && CachesLag(s) && Domains(t) && Extends(s, t) && Moves(cal, s, a, t)
    requires Alone(s) && Listed(s) && SeesSkipped(cal, s, a) && k in t.inflight
    requires k in s.inflight ==> LocksShown(s, k, s.inflight[k])
    requires a.Begin? ==> t.events == s.events && t.alive == s.alive
    ensures LocksShown(t, k, t.inflight[k])
  {
    hide Inv, Plan, Extends, EventsMove, LeasesMove, RunsMove, CacheMoves, AllShown, SeesSkipped, Listed;
    if DeleteLease(GroupLease(t.specs[k].group)) in t.inflight[k] {
      if a.Begin? && a.key == k {
        BeginLocksShown(cal, s, a);
      } else {
        assert LocksShown(s, k, s.inflight[k]);
      }
      OnlyItsOwn(cal, s, a, k);
      AllStaysShown(cal, s, a, t, s.specs[k].group);
      LeaderStays(s, t, k);
    }
  }

  /** While a sync is on its way only its own event of the group gets a new status from a sync. */
  lemma OnlyItsOwn(cal: Calendar, s: System, a: Action, k: Name)
    requires Domains(s) && Alone(s) && (k in s.inflight || (a.Begin? && a.key == k)) && k in s.specs && s.specs[k].group != ""
    requires Inv(cal, s) && s.events[k].leader.Some?
    ensures forall m :: m in s.specs && s.specs[m].group == s.specs[k].group && Updates(s, a, m) ==> s.events[m].leader.Some?
  {
    hide Inv;
    OnlyCommitsWrite(s, a);
    WrittenIsPlanned(s, a);
    forall m | m in s.specs && s.specs[m].group == s.specs[k].group && Updates(s, a, m) ensures m == k {
      PlannedIsGood(cal, s, a.key, Written(s, a).value);
      assert SameGroup(s, a.key, k);
    }
  }

  // ------------------------------------------------------------------ adoptions on their way

  lemma BeginAdopts(cal: Calendar, s: System, a: Action)
    requires cal.Valid() && Inv(cal, s) && Domains(s) && CachesLag(s) && a.Begin? && ViewOf(s, a.order).Valid() && a.key in s.specs
    ensures AdoptsHolder(s, a.key, Plan(cal, ViewOf(s, a.order), a.key, a.now, a.paused, a.gen))
  {
    hide Inv, Plan, RunShape, LeaseShape, UpdateIsLast, Starts;
    var v, k := ViewOf(s, a.order), a.key;
    var plan := Plan(cal, v, k, a.now, a.paused, a.gen);
    forall l, w | l in s.alive && l in s.specs && s.specs[l].group != "" && w in plan && WouldAdopt(s, l, k, w)
      ensures HoldsGroup(s, l) || (l == k && CreateLease(GroupLease(s.specs[k].group), k) in plan)
    {
      PlansToAdopt(cal, s, a, l, w);
      if l == k {
        PlanHasShape(cal, v, k, a.now, a.paused, a.gen);
        assert LeadsByLease(v, k, v.events[k], w.status, plan);
      }
    }
  }

  /** The lease of an existing holder goes only with a sync that deletes it. */
  lemma HoldStays(s: System, a: Action, t: System, l: Name)
    requires LeasesMove(s, a, t) && l in s.specs && l in t.specs && t.specs[l] == s.specs[l] && l in s.alive && HoldsGroup(s, l)
    ensures HoldsGroup(t, l) ||
            (Written(s, a) == Some(DeleteLease(GroupLease(s.specs[l].group))) && a.key in s.specs && SameGroup(s, a.key, l))
  {
    hide Written;
  }

  lemma StepAdopts(cal: Calendar, s: System, a: Action, t: System, k: Name)
    requires cal.Valid() && Inv(cal, s) && Domains(s) && CachesLag(s) && Domains(t) && Extends(s, t) && Moves(cal, s, a, t)
    requires Alone(s) && k in t.inflight
    requires forall e :: e in s.inflight ==> LocksShown(s, e, s.inflight[e]) && AdoptsHolder(s, e, s.inflight[e])
    requires a.Begin? ==> t.events == s.events && t.leases == s.leases && t.alive == s.alive
    ensures AdoptsHolder(t, k, t.inflight[k])
  {
    hide Inv, Plan, Extends, EventsMove, RunsMove, CacheMoves, AllShown, LeasesMove, HoldsGroup, WouldAdopt;
    if a.Begin? && a.key == k {
      BeginAdopts(cal, s, a);
      AdoptsAlike(s, t, k, t.inflight[k]);
    } else {
      forall l, w | l in t.alive && l in t.specs && t.specs[l].group != "" && w in t.inflight[k] && WouldAdopt(t, l, k, w)
        ensures HoldsGroup(t, l) || (l == k && CreateLease(GroupLease(t.specs[k].group), k) in t.inflight[k])
      {
        assert k in s.inflight && w in s.inflight[k];
        AdoptionIsOld(cal, s, a, t, l, k, w);
        AdoptionIsInGroup(cal, s, l, k, w);
        AdoptionHolds(cal, s, a, t, k, l, w);
      }
    }
  }

  lemma AdoptsAlike(s: System, t: System, k: Name, plan: seq<Write>)
    requires k in s.specs && k in t.specs && AdoptsHolder(s, k, plan)
    requires t.events == s.events && t.leases == s.leases && t.alive == s.alive
    requires forall e :: e in s.specs ==> e in t.specs && t.specs[e] == s.specs[e]
    requires s.alive <= s.specs.Keys
    ensures AdoptsHolder(t, k, plan)
  {
    hide UpdateIsLast;
    forall l, w | l in t.alive && l in t.specs && t.specs[l].group != "" && w in plan && WouldAdopt(t, l, k, w)
      ensures HoldsGroup(t, l) || (l == k && CreateLease(GroupLease(t.specs[k].group), k) in plan)
    {
      assert WouldAdopt(s, l, k, w);
    }
  }

  lemma AdoptionHolds(cal: Calendar, s: System, a: Action, t: System, k: Name, l: Name, w: Write)
    requires cal.Valid() && Inv(cal, s) && Domains(s) && Domains(t) && LeasesMove(s, a, t) && PlansMove(cal, s, a, t) && Alone(s)
    requires k in s.inflight && k in t.inflight && w in s.inflight[k] && WouldAdopt(s, l, k, w) && !(a.Begin? && a.key == k)
    requires LocksShown(s, k, s.inflight[k]) && AdoptsHolder(s, k, s.inflight[k])
    requires l in s.alive && l in t.specs && t.specs[l] == s.specs[l] && t.specs[k] == s.specs[k] && s.specs[l].group != ""
    ensures HoldsGroup(t, l) || (l == k && CreateLease(GroupLease(t.specs[k].group), k) in t.inflight[k])
  {
    hide Inv, Plan, AllShown;
    WrittenIsPlanned(s, a);
    PlannedIsGood(cal, s, k, w);
    AdoptionIsInGroup(cal, s, l, k, w);
    hide WouldAdopt, Justified, Written;
    if HoldsGroup(s, l) {
      LeadersDoNotAdopt(cal, s, k, l, w);
      HoldStays(s, a, t, l);
    } else {
      var create := CreateLease(GroupLease(s.specs[k].group), k);
      assert l == k && create in s.inflight[k];
      if a == Commit(k) {
        assert s.inflight[k][0] == create || create in s.inflight[k][1..];
      }
    }
  }

  lemma LeadersDoNotAdopt(cal: Calendar, s: System, k: Name, l: Name, w: Write)
    requires k in s.specs && k in s.events && Justified(cal, s, k, w) && WouldAdopt(s, l, k, w)
    ensures s.events[k].leader.None?
  {
    hide GoodStatus, RunsGrow;
  }

  // ------------------------------------------------------------------ held or shown

  lemma MembersStay(s: System, a: Action, t: System, l: Name)
    requires EventsMove(s, a, t) && Extends(s, t) && Domains(s) && CacheMoves(s, a, t) && Shown(s, l)
    requires forall k :: k in s.specs && k in t.alive ==> k in s.alive
    requires a.Commit? && Written(s, a).Some? ==> !WouldAdopt(s, l, a.key, Written(s, a).value)
    ensures Shown(t, l)
  {
    hide Written;
    OnlyCommitsWrite(s, a);
    forall m | Member(t, l, m) ensures m in t.cache && t.cache[m].leader == Some(l) {
      assert Member(s, l, m);
    }
  }

  lemma AllShownShows(cal: Calendar, s: System, l: Name)
    requires Inv(cal, s) && Domains(s) && CachesLag(s) && l in s.specs && s.specs[l].group != "" && AllShown(s, s.specs[l].group)
    ensures Shown(s, l)
  {
    hide Inv;
    forall m | Member(s, l, m) ensures m in s.cache && s.cache[m].leader == Some(l) {
      InvGood(cal, s, m);
      assert LeaderTrue(s, m, s.events[m]);
      assert Older(s.cache[m], s.events[m]);
    }
  }

  lemma StepHeld(cal: Calendar, s: System, a: Action, t: System, l: Name)
    requires cal.Valid() && Inv(cal, s) && Domains(s) && CachesLag(s) && Inv(cal, t) && Domains(t) && CachesLag(t)
    requires Extends(s, t) && Moves(cal, s, a, t) && HeldOrShown(s)
    requires forall e :: e in s.inflight ==> LocksShown(s, e, s.inflight[e]) && AdoptsHolder(s, e, s.inflight[e]) && UpdateIsLast(s.inflight[e])
    requires l in t.alive && t.specs[l].group != "" && t.events[l].leader == Some(l)
    ensures HoldsGroup(t, l) || Shown(t, l)
  {
    hide Inv, Plan, PlansMove, RunsMove, AllShown, Shown, HoldsGroup, WouldAdopt, Written, CacheMoves, UpdateIsLast, Extends;
    hide EventsMove, LeasesMove;
    OnlyCommitsWrite(s, a);
    WrittenIsPlanned(s, a);
    if l in s.events && s.events[l].leader == Some(l) {
      if HoldsGroup(s, l) {
        HoldStays(s, a, t, l);
        if !HoldsGroup(t, l) {
          LockShows(cal, s, a, t, l);
        }
      } else {
        if Written(s, a).Some? && WouldAdopt(s, l, a.key, Written(s, a).value) {
          AdopterIsOther(s, l, a.key, Written(s, a).value);
        }
        MembersStay(s, a, t, l);
      }
    } else {
      NewLeaderHolds(cal, s, a, t, l);
    }
  }

  lemma AdopterIsOther(s: System, l: Name, e: Name, w: Write)
    requires l in s.events && s.events[l].leader == Some(l) && WouldAdopt(s, l, e, w)
    ensures e != l
  {
  }

  lemma LockShows(cal: Calendar, s: System, a: Action, t: System, l: Name)
    requires cal.Valid() && Inv(cal, s) && Domains(s) && CachesLag(s) && Inv(cal, t) && Domains(t) && CachesLag(t)
    requires Extends(s, t) && Moves(cal, s, a, t) && l in s.specs && a.Commit? && a.key in s.specs && SameGroup(s, a.key, l)
    requires Written(s, a) == Some(DeleteLease(GroupLease(s.specs[l].group))) && a.key in s.inflight && LocksShown(s, a.key, s.inflight[a.key])
    ensures Shown(t, l)
  {
    hide Inv, Plan, PlansMove, RunsMove, AllShown, Shown, LeasesMove, Extends;
    WrittenIsPlanned(s, a);
    AllStaysShown(cal, s, a, t, s.specs[l].group);
    AllShownShows(cal, t, l);
  }

  /** An event that has just come to lead itself holds the lease. */
  lemma NewLeaderHolds(cal: Calendar, s: System, a: Action, t: System, l: Name)
    requires cal.Valid() && Inv(cal, s) && Domains(s) && Domains(t) && Extends(s, t) && Moves(cal, s, a, t)
    requires forall e :: e in s.inflight ==> AdoptsHolder(s, e, s.inflight[e]) && UpdateIsLast(s.inflight[e])
    requires l in t.alive && t.specs[l].group != "" && t.events[l].leader == Some(l) && (l in s.events ==> s.events[l].leader != Some(l))
    ensures HoldsGroup(t, l)
  {
    hide Inv, Plan, PlansMove, RunsMove, CacheMoves, UpdateIsLast, Extends;
    OnlyCommitsWrite(s, a);
    WrittenIsPlanned(s, a);
    assert l in s.events && Updates(s, a, l);
    var w := Written(s, a).value;
    assert WouldAdopt(s, l, l, w);
    RestIsLast(s.inflight[l]);
    assert s.inflight[l] == [w];
    hide EventsMove, WouldAdopt;
    HoldStays(s, a, t, l);
  }

  // ------------------------------------------------------------------ started and shown

  lemma StepStarted(cal: Calendar, s: System, a: Action, t: System, l: Name)
    requires cal.Valid() && Inv(cal, s) && Domains(s) && CachesLag(s) && Domains(t) && Extends(s, t) && Moves(cal, s, a, t)
    requires FreezeInv(cal, s) && ShownInv(cal, s) && HasStarted(cal, t, l)
    ensures Shown(t, l)
  {
    hide Inv, Plan, PlansMove, RunsMove, Locked, PlanLocks, Extends, Shown, Started, LocksShown, AdoptsHolder, WouldAdopt, Alone;
    OnlyCommitsWrite(s, a);
    WrittenIsPlanned(s, a);
    var j: nat :| Started(cal, t.events[l], j);
    NewIsNotStarted(cal, s, a, t, l, j);
    if Started(cal, s.events[l], j) {
      LockedAdoptsNone(s, l);
      hide EventsMove, LeasesMove, CacheMoves;
      assert HasStarted(cal, s, l);
      MembersStay(s, a, t, l);
    } else {
      StartIsWritten(cal, s, a, t, l, j);
      hide EventsMove, LeasesMove, CacheMoves;
      JustStarted(cal, s, a, t, l, j);
    }
  }

  lemma LockedAdoptsNone(s: System, l: Name)
    requires Locked(s, l)
    ensures forall e, w :: e in s.inflight && w in s.inflight[e] ==> !WouldAdopt(s, l, e, w)
  {
    hide WouldAdopt, HoldsGroup;
  }

  lemma JustStarted(cal: Calendar, s: System, a: Action, t: System, l: Name, j: nat)
    requires cal.Valid() && Inv(cal, s) && Domains(s) && CachesLag(s) && Domains(t) && Extends(s, t) && Moves(cal, s, a, t)
    requires FreezeInv(cal, s) && ShownInv(cal, s) && a == Commit(l) && Written(s, a).Some? && l in s.events && l in s.alive
    requires var w := Written(s, a).value;
             w.UpdateStatus? && w.status.rv == s.events[l].rv && Starts(cal, s.events[l], w.status, j)
    ensures Shown(t, l)
  {
    hide Inv, Plan, PlansMove, RunsMove, Locked, PlanLocks, Extends, Shown, Starts, LocksShown, AdoptsHolder, EventsMove, LeasesMove, CacheMoves;
    WrittenIsPlanned(s, a);
    var w := Written(s, a).value;
    assert PlanLocks(cal, s, l, s.inflight[l]);
    OnlyTheUpdate(cal, s, l, w, j);
    if s.specs[l].group == "" {
      LonelyIsShown(cal, s, l);
    }
    MembersStay(s, a, t, l);
  }

  /** Without a group an event has no followers but itself. */
  lemma LonelyIsShown(cal: Calendar, s: System, l: Name)
    requires Inv(cal, s) && Domains(s) && CachesLag(s) && Listed(s) && l in s.specs && s.specs[l].group == ""
    requires s.events[l].leader == Some(l) && NotLeaderless(s, l)
    ensures Shown(s, l)
  {
    hide Inv;
    forall m | Member(s, l, m) ensures m in s.cache && s.cache[m].leader == Some(l) {
      InvGood(cal, s, m);
      assert LeaderTrue(s, m, s.events[m]);
      assert Older(s.cache[m], s.events[m]);
    }
  }

  lemma StepShown(cal: Calendar, s: System, a: Action)
    requires cal.Valid() && cal.HasAlways() && Inv(cal, s) && Enabled(cal, s, a) && SeesSkipped(cal, s, a)
    requires Domains(s) && FreezeInv(cal, s) && ShownInv(cal, s)
    ensures Domains(Do(cal, s, a)) && ShownInv(cal, Do(cal, s, a))
  {
    hide Inv, Do, Enabled, Plan, Extends, FreezeInv, Listed, Shown, HasStarted, LocksShown, AdoptsHolder, Moves, UpdateIsLast;
    hide SeesSkipped, CachesLag, Domains;
    var t := StepMoves(cal, s, a);
    InvDomains(cal, s);
    InvDomains(cal, t);
    FreezeParts(cal, s);
    if a.Begin? {
      BeginsOnly(cal, s, a);
    }
    StepListed(cal, s, a, t);
    forall k | k in t.inflight ensures LocksShown(t, k, t.inflight[k]) && AdoptsHolder(t, k, t.inflight[k]) {
      StepLocksShown(cal, s, a, t, k);
      StepAdopts(cal, s, a, t, k);
    }
    forall l | l in t.alive && t.specs[l].group != "" && t.events[l].leader == Some(l) ensures HoldsGroup(t, l) || Shown(t, l) {
      StepHeld(cal, s, a, t, l);
    }
    forall l | HasStarted(cal, t, l) ensures Shown(t, l) {
      StepStarted(cal, s, a, t, l);
    }
  }

  lemma FreezeParts(cal: Calendar, s: System)
    requires Domains(s) && FreezeInv(cal, s)
    ensures Alone(s) && forall k :: k in s.inflight ==> UpdateIsLast(s.inflight[k])
  {
    hide Locked, StartsLocked, UpdateIsLast;
  }

  lemma {:induction false} RunShown(cal: Calendar, states: seq<System>, actions: seq<Action>, n: nat)
    requires SeeingHistory(cal, states, actions) && n < |states|
    ensures Inv(cal, states[n]) && Domains(states[n]) && FreezeInv(cal, states[n]) && ShownInv(cal, states[n])
  {
    hide Inv, Do, Enabled, FreezeInv, ShownInv;
    RunFreeze(cal, states, actions, n);
    if n == 0 {
      NothingShown(cal, states[0]);
    } else {
      RunShown(cal, states, actions, n - 1);
      StepShown(cal, states[n - 1], actions[n - 1]);
    }
  }

  lemma NothingShown(cal: Calendar, s: System)
    requires Init(s) && Domains(s)
    ensures ShownInv(cal, s)
  {
  }

  // ------------------------------------------------------------------ the lists

  /** What a sync hands on is what its lister shows, of a leader that has started its pipeline. */
  lemma HandsOn(cal: Calendar, s: System, a: Action, w: Write)
    requires cal.Valid() && Inv(cal, s) && Domains(s) && CachesLag(s) && a.Begin? && ViewOf(s, a.order).Valid() && a.key in s.specs
    requires w in Plan(cal, ViewOf(s, a.order), a.key, a.now, a.paused, a.gen) && w.CreateRun? && IsLeaderOnly(cal, w.pipeline)
    ensures HasStarted(cal, s, a.key) && w.followers == FollowersOf(s.cache, a.key, a.order)
  {
    hide Inv, Plan, UpdateShape, LeaseShape, UpdateIsLast, Gathered, FollowersOf, GoodStatus;
    var v, k := ViewOf(s, a.order), a.key;
    SeesView(cal, s, a.order);
    PlanSound.PlanWrites(cal, s, v, k, a.now, a.paused, a.gen);
    assert PlanSound.WriteOk(cal, s, k, v.events[k], w);
    PlanHasShape(cal, v, k, a.now, a.paused, a.gen);
    assert RunShape(cal, v, k, w);
    EntryStarts(cal, s, k, w.name, w.pipeline);
  }

  lemma EntryStarts(cal: Calendar, s: System, k: Name, name: Name, pipeline: string)
    requires HasEntry(s, k, name, pipeline) && IsLeaderOnly(cal, pipeline)
    ensures HasStarted(cal, s, k)
  {
    var j :| LeaderPipeline(cal, j, pipeline);
    var x :| 0 <= x < |s.events[k].runs| && s.events[k].runs[x].name == name && s.events[k].runs[x].pipeline == pipeline;
    assert Started(cal, s.events[k], j);
  }

  /** Exactly what the lister shows of a leader's followers is handed on: if it shows them all the
      list is complete, and only then. */
  lemma ShownIsHandedOn(cal: Calendar, s: System, a: Action, w: Write)
    requires cal.Valid() && Inv(cal, s) && Domains(s) && CachesLag(s) && a.Begin? && ViewOf(s, a.order).Valid() && a.key in s.specs
    requires w in Plan(cal, ViewOf(s, a.order), a.key, a.now, a.paused, a.gen) && w.CreateRun? && IsLeaderOnly(cal, w.pipeline)
    ensures HasStarted(cal, s, a.key) && (Complete(s, a.key, w.followers) <==> Shown(s, a.key))
  {
    hide Inv, Plan, HasStarted, IsLeaderOnly;
    HandsOn(cal, s, a, w);
    assert forall m :: m in w.followers <==> m in a.order && s.cache[m].leader == Some(a.key);
  }

  lemma CompleteStays(cal: Calendar, s: System, t: System, l: Name, followers: seq<Name>)
    requires Extends(s, t) && HasStarted(cal, s, l) && Complete(s, l, followers) && NoNewMembers(s, t, l)
    ensures HasStarted(cal, t, l) && Complete(t, l, followers)
  {
    hide Extends;
    var j: nat :| Started(cal, s.events[l], j);
    StartedStays(cal, s, t, l, j);
  }

  lemma StartedStays(cal: Calendar, s: System, t: System, l: Name, j: nat)
    requires Extends(s, t) && l in s.events && Started(cal, s.events[l], j)
    ensures l in t.events && Started(cal, t.events[l], j)
  {
    CompletionGrows(s.events[l], t.events[l], cal.pipelines[j].name);
  }

  lemma StartedGainsNone(cal: Calendar, s: System, a: Action, l: Name)
    requires cal.Valid() && cal.HasAlways() && Inv(cal, s) && Enabled(cal, s, a) && Domains(s) && FreezeInv(cal, s) && HasStarted(cal, s, l)
    ensures NoNewMembers(s, Do(cal, s, a), l)
  {
    hide Inv, Do, Enabled, Locked, Alone, PlanLocks, NoNewMembers, Started;
    var j: nat :| Started(cal, s.events[l], j);
    StepLocked(cal, s, a, l);
  }

  lemma StepComplete(cal: Calendar, s: System, a: Action)
    requires cal.Valid() && cal.HasAlways() && Inv(cal, s) && Enabled(cal, s, a)
    requires Domains(s) && FreezeInv(cal, s) && ShownInv(cal, s) && CompleteLists(cal, s)
    ensures CompleteLists(cal, Do(cal, s, a))
  {
    hide Inv, Do, Enabled, Plan, Extends, FreezeInv, ShownInv, CompleteWrite, CompleteRun, EventsMove, LeasesMove, CacheMoves;
    var t := StepMoves(cal, s, a);
    InvDomains(cal, s);
    forall k, w | k in t.inflight && w in t.inflight[k] ensures CompleteWrite(cal, t, k, w) {
      if a.Begin? && a.key == k {
        BeginComplete(cal, s, a, w);
      } else {
        assert k in s.inflight && w in s.inflight[k];
      }
      WriteComplete(cal, s, a, t, k, w);
    }
    forall n | n in t.tekton ensures CompleteRun(cal, t, t.tekton[n]) {
      var run := t.tekton[n];
      if n in s.tekton && s.tekton[n].event == run.event && s.tekton[n].pipeline == run.pipeline && s.tekton[n].followers == run.followers {
        assert CompleteRun(cal, s, run) by { AlikeComplete(cal, s, s.tekton[n], run); }
      } else {
        var w := CreateRun(n, a.key, run.pipeline, run.followers);
        assert w in s.inflight[a.key];
        WriteMakesComplete(cal, s, w, run);
      }
      RunComplete(cal, s, a, t, run);
    }
  }

  lemma AlikeComplete(cal: Calendar, s: System, a: TektonRun, b: TektonRun)
    requires CompleteRun(cal, s, a) && a.event == b.event && a.pipeline == b.pipeline && a.followers == b.followers
    ensures CompleteRun(cal, s, b)
  {
    hide IsLeaderOnly, HasStarted;
  }

  lemma WriteMakesComplete(cal: Calendar, s: System, w: Write, run: TektonRun)
    requires w.CreateRun? && CompleteWrite(cal, s, run.event, w) && w.pipeline == run.pipeline && w.followers == run.followers
    ensures CompleteRun(cal, s, run)
  {
    hide IsLeaderOnly, HasStarted;
  }

  lemma BeginComplete(cal: Calendar, s: System, a: Action, w: Write)
    requires cal.Valid() && Inv(cal, s) && Domains(s) && CachesLag(s) && a.Begin? && ViewOf(s, a.order).Valid() && a.key in s.specs
    requires w in Plan(cal, ViewOf(s, a.order), a.key, a.now, a.paused, a.gen) && ShownInv(cal, s)
    ensures CompleteWrite(cal, s, a.key, w)
  {
    hide Inv, Plan, HasStarted, IsLeaderOnly, Complete, Shown, Listed, HeldOrShown, LocksShown, AdoptsHolder;
    if w.CreateRun? && IsLeaderOnly(cal, w.pipeline) {
      ShownIsHandedOn(cal, s, a, w);
    }
  }

  lemma WriteComplete(cal: Calendar, s: System, a: Action, t: System, k: Name, w: Write)
    requires cal.Valid() && cal.HasAlways() && Inv(cal, s) && Enabled(cal, s, a) && t == Do(cal, s, a) && Extends(s, t)
    requires Domains(s) && FreezeInv(cal, s) && CompleteWrite(cal, s, k, w)
    ensures CompleteWrite(cal, t, k, w)
  {
    hide Inv, Do, Enabled, FreezeInv, HasStarted, Complete, IsLeaderOnly, Extends, Domains;
    if w.CreateRun? && IsLeaderOnly(cal, w.pipeline) {
      StartedGainsNone(cal, s, a, k);
      CompleteStays(cal, s, t, k, w.followers);
    }
  }

  lemma RunComplete(cal: Calendar, s: System, a: Action, t: System, run: TektonRun)
    requires cal.Valid() && cal.HasAlways() && Inv(cal, s) && Enabled(cal, s, a) && t == Do(cal, s, a) && Extends(s, t)
    requires Domains(s) && FreezeInv(cal, s) && CompleteRun(cal, s, run)
    ensures CompleteRun(cal, t, run)
  {
    hide Inv, Do, Enabled, FreezeInv, HasStarted, Complete, IsLeaderOnly, Extends, Domains;
    if IsLeaderOnly(cal, run.pipeline) {
      StartedGainsNone(cal, s, a, run.event);
      CompleteStays(cal, s, t, run.event, run.followers);
    }
  }

  lemma {:induction false} RunIsComplete(cal: Calendar, states: seq<System>, actions: seq<Action>, n: nat)
    requires SeeingHistory(cal, states, actions) && n < |states|
    ensures CompleteLists(cal, states[n])
  {
    hide Inv, Do, Enabled, FreezeInv, ShownInv, CompleteLists;
    if n == 0 {
      NothingComplete(cal, states[0]);
    } else {
      RunShown(cal, states, actions, n - 1);
      RunIsComplete(cal, states, actions, n - 1);
      StepComplete(cal, states[n - 1], actions[n - 1]);
    }
  }

  lemma NothingComplete(cal: Calendar, s: System)
    requires Init(s)
    ensures CompleteLists(cal, s)
  {
  }

  // ------------------------------------------------------------------ what such runs show

  /** The followers handed to the run of a LeaderOnly pipeline are all there will ever be: in every
      later state too, each existing event with that leader is listed, and each listed one has it. */
  lemma FollowersAreComplete(cal: Calendar, states: seq<System>, actions: seq<Action>, n: nat, name: Name, e: Name)
    requires SeeingHistory(cal, states, actions) && n < |states|
    requires name in states[n].tekton && IsLeaderOnly(cal, states[n].tekton[name].pipeline)
    ensures var s, run := states[n], states[n].tekton[name];
            && (e in s.alive && e in s.events && s.events[e].leader == Some(run.event) ==> e in run.followers)
            && (e in run.followers ==> e in s.events && s.events[e].leader == Some(run.event))
  {
    hide Do, Enabled, Inv;
    RunIsComplete(cal, states, actions, n);
    var s, run := states[n], states[n].tekton[name];
    assert CompleteRun(cal, s, run);
    assert Member(s, run.event, e) ==> e in run.followers;
    if e in run.followers {
      var j :| LeaderPipeline(cal, j, run.pipeline);
      ListedHaveSettled(cal, states, actions, n, name, j, e);
    }
  }

  /** Without any assumption on days or listers: the list a sync makes is complete, then and for
      ever, exactly if the lister shows every event that follows its leader when the sync begins. */
  lemma CompleteExactlyIfShown(cal: Calendar, states: seq<System>, actions: seq<Action>, i: nat, w: Write)
    requires GroupwiseHistory(cal, states, actions) && i < |actions| && actions[i].Begin?
    requires actions[i].key in states[i + 1].inflight && w in states[i + 1].inflight[actions[i].key]
    requires w.CreateRun? && IsLeaderOnly(cal, w.pipeline)
    ensures (forall n :: i <= n < |states| ==> Complete(states[n], actions[i].key, w.followers)) <==> Shown(states[i], actions[i].key)
  {
    hide Do, Inv, Plan, IsLeaderOnly, HasStarted, Complete, Shown, Started;
    var s, l := states[i], actions[i].key;
    RunInv(cal, states, actions, i);
    InvDomains(cal, s);
    BeginPlans(cal, s, actions[i]);
    ShownIsHandedOn(cal, s, actions[i], w);
    if Shown(s, l) {
      forall n | i <= n < |states| ensures Complete(states[n], l, w.followers) {
        StaysComplete(cal, states, actions, i, n, l, w.followers);
      }
    }
  }

  lemma BeginPlans(cal: Calendar, s: System, a: Action)
    requires cal.Valid() && Enabled(cal, s, a) && a.Begin?
    ensures ViewOf(s, a.order).Valid() && a.key in s.specs
    ensures a.key in Do(cal, s, a).inflight
    ensures Do(cal, s, a).inflight[a.key] == Plan(cal, ViewOf(s, a.order), a.key, a.now, a.paused, a.gen)
  {
    hide Plan;
  }

  lemma StaysComplete(cal: Calendar, states: seq<System>, actions: seq<Action>, m: nat, n: nat, l: Name, followers: seq<Name>)
    requires GroupwiseHistory(cal, states, actions) && m <= n < |states|
    requires HasStarted(cal, states[m], l) && Complete(states[m], l, followers)
    ensures Complete(states[n], l, followers)
  {
    hide Do, Enabled, Inv, Started, Locked;
    var j: nat :| Started(cal, states[m].events[l], j);
    forall e | Member(states[n], l, e) ensures e in followers {
      FrozenFollowers(cal, states, actions, m, n, l, j, e);
    }
  }

  /** Where lists are complete the barrier holds for the whole cohort: an entry after LeaderOnly
      pipeline i means that every existing event of that leader has settled the last Always
      pipeline before i, or failed or was cancelled. */
  lemma WholeCohortBarrier(cal: Calendar, states: seq<System>, actions: seq<Action>, n: nat, l: Name, e: Name, i: nat, j: nat, m: Name)
    requires SeeingHistory(cal, states, actions) && n < |states|
    requires e in states[n].events && states[n].events[e].leader == Some(l)
    requires i < j < |cal.pipelines| && cal.pipelines[i].leaderOnly
    requires FirstRun(states[n].events[e].runs, cal.pipelines[j].name).Some?
    requires Member(states[n], l, m) && LastAlways(cal.pipelines, i) != ""
    ensures l in states[n].events && RunStatusOf(states[n].events[l], cal.pipelines[i].name) == Some(RunCompleted)
    ensures FollowerSettled(states[n].events[m], LastAlways(cal.pipelines, i))
  {
    hide Do, Enabled, Inv;
    var name := CohortBarrier(cal, states, actions, n, l, e, i, j);
    assert LeaderPipeline(cal, i, cal.pipelines[i].name);
    FollowersAreComplete(cal, states, actions, n, name, m);
  }
}
