/** What a sync does about leader and group of an event that has come to a pipeline: whom it adopts, when it
    leads, when it follows, and when it locks the group. */
module Leading {
  import opened Prelude
  import opened CalendarDays
  import opened CalendarTypes
  import opened EventSync
  import opened RunAfter
  import opened Stranded
  import opened Starts
  import opened Turns

  /** Who holds the lease on k's group, if anyone. */
  function GroupHolder(v: View, k: Name): Option<Name>
    requires k in v.specs
  {
    var key := GroupLease(v.specs[k].group);
    if v.specs[k].group != "" && key in v.leases then Some(v.leases[key]) else None
  }

  /** Through with the pipelines before i, which is to be run by the leader only, and let through to it. */
  ghost predicate ComesToLead(cal: Calendar, v: View, k: Name, i: nat, now: int, gen: Name)
    requires Feasible(cal.days) && v.Valid()
  {
    ComesTo(cal, v, k, i, now, gen) && cal.pipelines[i].leaderOnly && OffsetReached(cal, v.events[k], i, now) && AfterAll(cal, v, k, i)
  }

  /** An event without a leader adopts the listed holder of its group's lease, in a daily group one of the same
      day in the calendar's zone; a holder without a time makes it panic there. Nothing else happens. */
  lemma AdoptionDecides(cal: Calendar, v: View, k: Name, now: int, gen: Name)
    requires cal.Valid() && v.Valid() && UpToTime(cal, v, k, now) && HasTitle(v, k) && cal.pipelines != [] && v.events[k].leader.None?
    requires GroupHolder(v, k).Some? && GroupHolder(v, k).value in v.events
    ensures var st, lead := v.events[k], v.events[GroupHolder(v, k).value];
            var adopts := Plan(cal, v, k, now, false, gen) == [UpdateStatus(k, st.(leader := GroupHolder(v, k)))];
            if !cal.daily then adopts
            else if lead.time.None? then Plan(cal, v, k, now, false, gen) == [] && Returns(cal, v, k, now, false, gen)
            else
              var sameDay := forall midnight ::
                !(lead.time.value + cal.zone * HOUR < midnight * DAY <= st.time.value + cal.zone * HOUR)
                && !(st.time.value + cal.zone * HOUR < midnight * DAY <= lead.time.value + cal.zone * HOUR);
              if sameDay then adopts else ProbeLeader(cal, v, k, st) == Some(st)
  {
    hide Plan, Returns, ProbeTime, ProbePhase, SameDay, Early, AfterDone, SyncLeaderOnly, Execute;
    SettledHasTime(cal, v, k, now);
    PlanOfSettled(cal, v, k, 0, now, gen);
    var st, lead := v.events[k], v.events[GroupHolder(v, k).value];
    if lead.time.Some? {
      SameDayIsLocal(lead.time.value, st.time.value, cal.zone);
    }
    var update := UpdateStatus(k, st.(leader := GroupHolder(v, k)));
    assert [] + [update] == [update];
  }

  /** A leaderless event that comes to a LeaderOnly pipeline leads if it has no group, or if nobody holds the
      lease of the group, which it then creates; otherwise it follows the holder, of whatever day. */
  lemma ElectionDecides(cal: Calendar, v: View, k: Name, i: nat, now: int, gen: Name)
    requires cal.Valid() && v.Valid() && ComesToLead(cal, v, k, i, now, gen) && v.events[k].leader.None?
    ensures var st, key, holder := v.events[k], GroupLease(v.specs[k].group), GroupHolder(v, k);
            Plan(cal, v, k, now, false, gen) ==
              (if v.specs[k].group != "" && holder.None? then [CreateLease(key, k)] else []) +
              [UpdateStatus(k, st.(leader := if holder.Some? then holder else Some(k)))]
  {
    hide Plan, Returns, ComesToLead, RunFrom, ReturnsFrom;
    LeadIsTurn(cal, v, k, i, now, gen);
    hide SyncLeaderOnly;
    ElectionIs(cal, v, k, i, now, gen);
    PlanOfLead(cal, v, k, i, now, gen);
  }

  lemma ElectionIs(cal: Calendar, v: View, k: Name, i: nat, now: int, gen: Name)
    requires Feasible(cal.days) && v.Valid() && i < |cal.pipelines| && k in v.events && v.events[k].time.Some? && v.events[k].leader.None?
    ensures var st, key, holder := v.events[k], GroupLease(v.specs[k].group), GroupHolder(v, k);
            var r := SyncLeaderOnly(cal, v, k, st, i, LastAlways(cal.pipelines, i), now, gen);
            && r.writes == (if v.specs[k].group != "" && holder.None? then [CreateLease(key, k)] else [])
            && r.outcome == Next(st.(leader := if holder.Some? then holder else Some(k)), false)
  {
  }

  lemma LeadIsTurn(cal: Calendar, v: View, k: Name, i: nat, now: int, gen: Name)
    requires cal.Valid() && v.Valid() && ComesToLead(cal, v, k, i, now, gen)
    ensures i < |cal.pipelines| && k in v.events && v.events[k].time.Some?
    ensures Turn(cal, v, k, i, now, gen) == SyncLeaderOnly(cal, v, k, v.events[k], i, LastAlways(cal.pipelines, i), now, gen)
  {
    hide SyncLeaderOnly, Early, AfterDone, ProbeLeader, OffsetReached, AfterAll, ClearedTo, UpToTime, Counts, HasCome;
    SettledHasTime(cal, v, k, now);
    EarlyMeans(cal, v.events[k], i, now);
    AfterAllMeans(cal, v, k, i);
  }

  /** The plan of an event that has come to a LeaderOnly pipeline, by what that pipeline gives. */
  lemma PlanOfLead(cal: Calendar, v: View, k: Name, i: nat, now: int, gen: Name)
    requires cal.Valid() && v.Valid() && ComesToLead(cal, v, k, i, now, gen) && k in v.events && v.events[k].time.Some? && i < |cal.pipelines|
    ensures var st, r := v.events[k], SyncLeaderOnly(cal, v, k, v.events[k], i, LastAlways(cal.pipelines, i), now, gen);
            && (r.outcome.Halt? ==> Plan(cal, v, k, now, false, gen) == r.writes && Returns(cal, v, k, now, false, gen))
            && (r.outcome.Next? && r.outcome.status != st ==>
                 Plan(cal, v, k, now, false, gen) == r.writes + [UpdateStatus(k, r.outcome.status)] && !Returns(cal, v, k, now, false, gen))
            && (r.outcome == Next(st, false) ==> Plan(cal, v, k, now, false, gen) == r.writes && !Returns(cal, v, k, now, false, gen))
            && (r.outcome == Next(st, true) ==>
                 Plan(cal, v, k, now, false, gen) == r.writes + RunFrom(cal, v.(leases := r.leases), k, st, i + 1, now, gen))
  {
    hide SyncLeaderOnly, Plan, Returns, ProbeTime, ProbePhase, ClearedTo, SyncPipeline, ProbeLeader, OffsetReached, AfterAll;
    LeadIsTurn(cal, v, k, i, now, gen);
    PlanOfSettled(cal, v, k, i, now, gen);
  }

  /** A follower goes by its leader: it is through with the pipeline exactly if the leader's first entry of it
      has completed, and waits in silence before; if the leader is not listed it comes again. */
  lemma FollowerGoesByLeader(cal: Calendar, v: View, k: Name, i: nat, now: int, gen: Name)
    requires cal.Valid() && v.Valid() && ComesToLead(cal, v, k, i, now, gen)
    requires v.events[k].leader.Some? && v.events[k].leader != Some(k)
    ensures var lead := v.events[k].leader.value;
            if lead !in v.events then Plan(cal, v, k, now, false, gen) == [] && Returns(cal, v, k, now, false, gen)
            else
              && (EntryIs(v.events[lead].runs, cal.pipelines[i].name, RunCompleted) <==> ClearedTo(cal, v, k, i + 1, now, gen))
              && (!ClearedTo(cal, v, k, i + 1, now, gen) ==> Asleep(cal, v, k, now, gen))
  {
    hide Plan, Returns, ClearedTo, EntryIs, FirstRun, GatherAndRun, LockScan;
    LeadIsTurn(cal, v, k, i, now, gen);
    hide ComesToLead, SyncPipeline;
    PlanOfLead(cal, v, k, i, now, gen);
    ClearedNext(cal, v, k, i, now, gen);
    var lead := v.events[k].leader.value;
    if lead in v.events {
      EntryMeans(v.events[lead], cal.pipelines[i].name, RunCompleted);
    }
  }

  lemma ClearedNext(cal: Calendar, v: View, k: Name, i: nat, now: int, gen: Name)
    requires cal.Valid() && v.Valid() && ComesToLead(cal, v, k, i, now, gen) && k in v.events && v.events[k].time.Some? && i < |cal.pipelines|
    ensures ClearedTo(cal, v, k, i + 1, now, gen) <==> Turn(cal, v, k, i, now, gen) == StepResult([], v.leases, Next(v.events[k], true))
  {
    hide Turn, OffsetReached, AfterAll, UpToTime, ProbeLeader;
  }

  /** Position p holds the first listed event at which the scan before the lock stops. */
  ghost predicate FirstUnlocked(cal: Calendar, v: View, group: string, day: int, xs: seq<Name>, p: nat) {
    && p < |xs| && UnlockedBy(cal, v, group, day, xs[p])
    && forall q :: 0 <= q < p ==> !UnlockedBy(cal, v, group, day, xs[q])
  }

  lemma {:induction false} LockStopsAt(cal: Calendar, v: View, group: string, day: int, xs: seq<Name>, p: nat)
    requires (forall k :: k in xs ==> k in v.specs && k in v.events) && FirstUnlocked(cal, v, group, day, xs, p)
    ensures LockScan(cal, v, group, day, xs) == if cal.daily && v.events[xs[p]].time.None? then Panic else Wait
  {
    hide SameDay;
    if p > 0 {
      assert !UnlockedBy(cal, v, group, day, xs[0]);
      assert forall q :: 0 <= q < p - 1 ==> xs[1..][q] == xs[q + 1];
      LockStopsAt(cal, v, group, day, xs[1..], p - 1);
    }
  }

  ghost predicate FirstUngathered(events: map<Name, Status>, k: Name, last: string, xs: seq<Name>, p: nat) {
    && p < |xs| && UngatheredBy(events, k, last, xs[p])
    && forall q :: 0 <= q < p ==> !UngatheredBy(events, k, last, xs[q])
  }

  lemma {:induction false} GatherStopsAt(events: map<Name, Status>, k: Name, last: string, xs: seq<Name>, p: nat)
    requires (forall x :: x in xs ==> x in events) && FirstUngathered(events, k, last, xs, p)
    ensures FollowersScan(events, k, last, xs) == if events[xs[p]].time.None? then Panic else Wait
  {
    hide FollowerSettled;
    if p > 0 {
      assert !UngatheredBy(events, k, last, xs[0]);
      assert forall q :: 0 <= q < p - 1 ==> xs[1..][q] == xs[q + 1];
      GatherStopsAt(events, k, last, xs[1..], p - 1);
    }
  }

  /** A leader waits 30 seconds from its creation. While it holds the lease of its group, it goes on only once
      every listed event of the group, in a daily group of its day, has a leader, and then deletes the
      lease first. */
  lemma LockDecides(cal: Calendar, v: View, k: Name, i: nat, now: int, gen: Name)
    requires cal.Valid() && v.Valid() && ComesToLead(cal, v, k, i, now, gen) && v.events[k].leader == Some(k)
    ensures var plan, group := Plan(cal, v, k, now, false, gen), v.specs[k].group;
            if now < v.specs[k].created + 30 * SECOND then plan == [] && Returns(cal, v, k, now, false, gen)
            else
              MustLock(v, k) ==>
                if exists x :: UnlockedBy(cal, v, group, v.events[k].time.value, x) then plan == []
                else plan != [] && plan[0] == DeleteLease(GroupLease(group))
  {
    hide Plan, Returns, FollowersScan, FollowersOf, Execute, LockScan, UnlockedBy, RunFrom, ReturnsFrom;
    LeadIsTurn(cal, v, k, i, now, gen);
    hide ComesToLead, SyncPipeline;
    PlanOfLead(cal, v, k, i, now, gen);
    LockPassesExactly(cal, v, v.specs[k].group, v.events[k].time.value, v.order);
    UnlockersAreListed(cal, v, v.specs[k].group, v.events[k].time.value);
  }

  /** Before, it comes again only where the first event in its way has no time, on which it panics. */
  lemma LockWaits(cal: Calendar, v: View, k: Name, i: nat, now: int, gen: Name, p: nat)
    requires cal.Valid() && v.Valid() && ComesToLead(cal, v, k, i, now, gen) && v.events[k].leader == Some(k)
    requires v.specs[k].created + 30 * SECOND <= now && MustLock(v, k)
    requires FirstUnlocked(cal, v, v.specs[k].group, v.events[k].time.value, v.order, p)
    ensures Plan(cal, v, k, now, false, gen) == []
    ensures Returns(cal, v, k, now, false, gen) <==> cal.daily && v.events[v.order[p]].time.None?
  {
    hide Plan, Returns, FollowersScan, FollowersOf, Execute, LockScan, UnlockedBy, RunFrom, ReturnsFrom;
    LeadIsTurn(cal, v, k, i, now, gen);
    hide ComesToLead, SyncPipeline;
    PlanOfLead(cal, v, k, i, now, gen);
    LockStopsAt(cal, v, v.specs[k].group, v.events[k].time.value, v.order, p);
  }

  /** A leader without a lease to delete waits for its followers in the same way. */
  lemma GatheringDecides(cal: Calendar, v: View, k: Name, i: nat, now: int, gen: Name, p: nat)
    requires cal.Valid() && v.Valid() && ComesToLead(cal, v, k, i, now, gen) && v.events[k].leader == Some(k)
    requires v.specs[k].created + 30 * SECOND <= now && !MustLock(v, k)
    requires FirstUngathered(v.events, k, LastAlways(cal.pipelines, i), v.order, p)
    ensures Plan(cal, v, k, now, false, gen) == []
    ensures Returns(cal, v, k, now, false, gen) <==> v.events[v.order[p]].time.None?
  {
    hide Plan, Returns, FollowersScan, FollowersOf, Execute, LockScan, UngatheredBy, RunFrom, ReturnsFrom;
    LeadIsTurn(cal, v, k, i, now, gen);
    hide ComesToLead, SyncPipeline;
    PlanOfLead(cal, v, k, i, now, gen);
    GatherStopsAt(v.events, k, LastAlways(cal.pipelines, i), v.order, p);
  }

  /** A follower holds up its leader exactly if it has no time, or is neither Failed nor Cancelled and its first
      entry of the last Always pipeline before is missing, pending, running or unknown. */
  lemma UngatheredMeans(events: map<Name, Status>, k: Name, last: string, x: Name)
    ensures UngatheredBy(events, k, last, x) <==>
              && x in events && events[x].leader == Some(k)
              && (events[x].time.None? ||
                   (last != "" && !events[x].phase.Failed? && !events[x].phase.Cancelled? &&
                    forall s :: EntryIs(events[x].runs, last, s) ==> s.RunPending? || s.RunRunning? || s.RunUnknown?))
  {
    if x in events {
      var st := events[x];
      forall s ensures EntryIs(st.runs, last, s) <==> RunStatusOf(st, last) == Some(s) {
        EntryMeans(st, last, s);
      }
      hide EntryIs;
      if RunStatusOf(st, last).Some? {
        assert EntryIs(st.runs, last, RunStatusOf(st, last).value);
      }
    }
  }

  /** The pipeline a LeaderOnly one waits for is the nearest Always pipeline before it, if there is one. */
  lemma {:induction false} LastAlwaysMeans(pipelines: seq<Pipeline>, i: nat)
    requires i <= |pipelines|
    ensures (LastAlways(pipelines, i) == "" && forall j :: 0 <= j < i ==> pipelines[j].leaderOnly) ||
            exists j :: 0 <= j < i && !pipelines[j].leaderOnly && pipelines[j].name == LastAlways(pipelines, i)
              && forall l :: j < l < i ==> pipelines[l].leaderOnly
  {
    if i > 0 && pipelines[i - 1].leaderOnly {
      LastAlwaysMeans(pipelines, i - 1);
    }
  }
}
