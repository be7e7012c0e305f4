/** Which events a deletion strands: asleep, so that nothing but a notification makes them sync
    again, though their next sync would go on. */
module Stranded {
  import opened Prelude
  import opened CalendarDays
  import opened CalendarHours
  import opened CalendarTypes
  import opened EventSync
  import opened WakeUp
  import opened Deletion
  import opened Progress

  /** The sync of b writes nothing, and does not ask to come again. */
  ghost predicate Asleep(cal: Calendar, v: View, b: Name, now: int, gen: Name)
    requires Feasible(cal.days) && v.Valid()
  {
    Plan(cal, v, b, now, false, gen) == [] && !Returns(cal, v, b, now, false, gen)
  }

  // ------------------------------------------------------------------ where an event stands

  /** Time and phase are as the sync would set them, and there is something left to do. */
  ghost predicate UpToTime(cal: Calendar, v: View, b: Name, now: int)
    requires Feasible(cal.days) && v.Valid()
  {
    && b in v.events && v.events[b].time.Some? && !v.events[b].phase.Completed?
    && ProbeTime(cal, v, b, v.events[b], now) == Ok(v.events[b]) && ProbePhase(cal, b, v.events[b]) == v.events[b]
  }

  /** b holds the lease on its title, or has begun and does not need it any longer. */
  ghost predicate HasTitle(v: View, b: Name)
    requires v.Valid() && b in v.events
  {
    var key := NameLease(v.specs[b].title);
    (!v.events[b].phase.Unset? && !v.events[b].phase.Pending?) || (key in v.leases && v.leases[key] == b)
  }

  /** What syncing pipeline i of b does. */
  function Turn(cal: Calendar, v: View, b: Name, i: nat, now: int, gen: Name): StepResult
    requires Feasible(cal.days) && v.Valid() && b in v.events && v.events[b].time.Some? && i < |cal.pipelines|
  {
    SyncPipeline(cal, v, b, v.events[b], i, LastAlways(cal.pipelines, i), now, gen)
  }

  /** b is through with the pipelines before i. */
  ghost predicate ClearedTo(cal: Calendar, v: View, b: Name, i: nat, now: int, gen: Name)
    requires Feasible(cal.days) && v.Valid() && b in v.events && v.events[b].time.Some? && i <= |cal.pipelines|
  {
    forall j: nat :: j < i ==> Turn(cal, v, b, j, now, gen) == StepResult([], v.leases, Next(v.events[b], true))
  }

  lemma {:induction false} RunFromCleared(cal: Calendar, v: View, b: Name, j: nat, i: nat, now: int, gen: Name)
    requires Feasible(cal.days) && v.Valid() && b in v.events && v.events[b].time.Some? && j <= i <= |cal.pipelines|
    requires ClearedTo(cal, v, b, i, now, gen)
    ensures RunFrom(cal, v, b, v.events[b], j, now, gen) == RunFrom(cal, v, b, v.events[b], i, now, gen)
    ensures ReturnsFrom(cal, v, b, v.events[b], j, now, gen) == ReturnsFrom(cal, v, b, v.events[b], i, now, gen)
    decreases i - j
  {
    hide SyncPipeline;
    if j < i {
      RunFromCleared(cal, v, b, j + 1, i, now, gen);
      assert Turn(cal, v, b, j, now, gen) == StepResult([], v.leases, Next(v.events[b], true));
      assert v.(leases := v.leases) == v;
      assert [] + RunFrom(cal, v, b, v.events[b], j + 1, now, gen) == RunFrom(cal, v, b, v.events[b], j + 1, now, gen);
    }
  }

  lemma PlanOfSettled(cal: Calendar, v: View, b: Name, i: nat, now: int, gen: Name)
    requires Feasible(cal.days) && v.Valid() && UpToTime(cal, v, b, now) && HasTitle(v, b) && i <= |cal.pipelines|
    requires ClearedTo(cal, v, b, i, now, gen)
    ensures Plan(cal, v, b, now, false, gen) == RunFrom(cal, v, b, v.events[b], i, now, gen)
    ensures Returns(cal, v, b, now, false, gen) == ReturnsFrom(cal, v, b, v.events[b], i, now, gen)
  {
    hide RunFrom, ReturnsFrom, ProbeTime, ProbePhase, ClearedTo;
    RunFromCleared(cal, v, b, 0, i, now, gen);
    var a := AcquireLease(v, b, v.events[b]);
    assert a == Acquired([], v.leases, true) && v.(leases := a.leases) == v;
    assert [] + RunFrom(cal, v, b, v.events[b], 0, now, gen) == RunFrom(cal, v, b, v.events[b], 0, now, gen);
  }

  // ------------------------------------------------------------------ what holds an event back

  /** x is kept of its title, b runs after it, and it is not done. */
  ghost predicate AwaitedBy(cal: Calendar, v: View, b: Name, i: nat, x: Name)
    requires v.Valid() && b in v.events && i < |cal.pipelines|
  {
    var xs := ByTitle(v, v.order, Titles(v.specs[b].after));
    !cal.pipelines[i].ignoreAfter && x in xs && Kept(v, xs, x) && !PredecessorDone(cal, v, b, v.events[b], i, x)
  }

  ghost predicate MustLock(v: View, b: Name)
    requires b in v.specs
  {
    v.specs[b].group != "" && GroupLease(v.specs[b].group) in v.leases
  }

  /** The scan before the lock stops at x. */
  ghost predicate UnlockedBy(cal: Calendar, v: View, group: string, day: int, x: Name) {
    && x in v.events && x in v.specs && v.specs[x].group == group
    && ((cal.daily && v.events[x].time.None?)
        || (v.events[x].leader.None? && (cal.daily ==> SameDay(v.events[x].time.value, day, cal.zone))))
  }

  /** The scan of the followers stops at x. */
  ghost predicate UngatheredBy(events: map<Name, Status>, b: Name, last: string, x: Name) {
    && x in events && events[x].leader == Some(b)
    && (events[x].time.None? || (last != "" && !FollowerSettled(events[x], last)))
  }

  /** x is why b, at pipeline i, does not go on: as a predecessor, as an event that must have a
      leader before the group is locked, or as a follower. */
  ghost predicate HoldsBack(cal: Calendar, v: View, b: Name, i: nat, x: Name)
    requires v.Valid() && b in v.events && v.events[b].time.Some? && i < |cal.pipelines|
  {
    || AwaitedBy(cal, v, b, i, x)
    || (cal.pipelines[i].leaderOnly && v.events[b].leader == Some(b) &&
        if MustLock(v, b) then UnlockedBy(cal, v, v.specs[b].group, v.events[b].time.value, x)
        else UngatheredBy(v.events, b, LastAlways(cal.pipelines, i), x))
  }

  /** Nothing but other events keeps b from pipeline i: no leader to adopt, no time to wait for, and
      b does not go by what its leader does. */
  ghost predicate IsDue(cal: Calendar, v: View, b: Name, i: nat, now: int)
    requires Feasible(cal.days) && v.Valid() && b in v.events && v.events[b].time.Some? && i < |cal.pipelines|
  {
    var st := v.events[b];
    && ProbeLeader(cal, v, b, st) == Some(st) && !Early(cal, st, i, now)
    && (cal.pipelines[i].leaderOnly ==>
         st.leader.None? || (st.leader == Some(b) && v.specs[b].created + 30 * SECOND <= now))
  }

  /** The run of pipeline i is still to be made, seen, or followed up. */
  ghost predicate RunMoves(cal: Calendar, v: View, b: Name, i: nat, now: int, gen: Name)
    requires b in v.events && i < |cal.pipelines|
  {
    var r := Execute(cal, v, b, v.events[b], i, [], now, gen);
    r.writes != [] || (r.outcome.Next? && r.outcome.status != v.events[b])
  }

  /** Once nothing holds it back b has something to do at pipeline i. */
  ghost predicate HasTurn(cal: Calendar, v: View, b: Name, i: nat, now: int, gen: Name)
    requires v.Valid() && b in v.events && i < |cal.pipelines|
  {
    (cal.pipelines[i].leaderOnly && (v.events[b].leader.None? || MustLock(v, b))) || RunMoves(cal, v, b, i, now, gen)
  }

  lemma {:induction false} LockPassesExactly(cal: Calendar, v: View, group: string, day: int, xs: seq<Name>)
    requires forall k :: k in xs ==> k in v.specs && k in v.events
    ensures LockScan(cal, v, group, day, xs).Pass? <==> forall x :: x in xs ==> !UnlockedBy(cal, v, group, day, x)
    decreases |xs|
  {
    hide SameDay;
    if xs != [] {
      LockPassesExactly(cal, v, group, day, xs[1..]);
      assert xs[0] in xs && forall x :: x in xs[1..] ==> x in xs;
      if !UnlockedBy(cal, v, group, day, xs[0]) {
        assert LockScan(cal, v, group, day, xs) == LockScan(cal, v, group, day, xs[1..]);
        assert forall x :: x in xs ==> x == xs[0] || x in xs[1..];
      }
    }
  }

  lemma {:induction false} GatherPassesExactly(events: map<Name, Status>, b: Name, last: string, xs: seq<Name>)
    requires forall k :: k in xs ==> k in events
    ensures FollowersScan(events, b, last, xs).Pass? <==> forall x :: x in xs ==> !UngatheredBy(events, b, last, x)
    decreases |xs|
  {
    hide FollowerSettled;
    if xs != [] {
      GatherPassesExactly(events, b, last, xs[1..]);
      assert xs[0] in xs && forall x :: x in xs[1..] ==> x in xs;
      if !UngatheredBy(events, b, last, xs[0]) {
        assert FollowersScan(events, b, last, xs) == FollowersScan(events, b, last, xs[1..]);
        assert forall x :: x in xs ==> x == xs[0] || x in xs[1..];
      }
    }
  }

  /** The followers handed on do not decide whether a run moves. */
  lemma RollBackFollowers(v: View, b: Name, st: Status, p: Pipeline, f: seq<Name>, g: seq<Name>, gen: Name)
    ensures var r, s := RollBack(v, b, st, p, f, gen), RollBack(v, b, st, p, g, gen);
            r.outcome == s.outcome && (r.writes == [] <==> s.writes == [])
  {
    hide FirstRun;
  }

  lemma ExecuteFollowers(cal: Calendar, v: View, b: Name, st: Status, i: nat, f: seq<Name>, g: seq<Name>, now: int, gen: Name)
    requires i < |cal.pipelines|
    ensures var r, s := Execute(cal, v, b, st, i, f, now, gen), Execute(cal, v, b, st, i, g, now, gen);
            r.outcome == s.outcome && (r.writes == [] <==> s.writes == [])
  {
    hide RollBack, FirstRun, WaitForHours;
    RollBackFollowers(v, b, st, cal.pipelines[i], f, g, gen);
    RollBackFollowers(v, b, st.(phase := Cancelled), cal.pipelines[i], f, g, gen);
    RollBackFollowers(v, b, st.(phase := Failed), cal.pipelines[i], f, g, gen);
  }

  /** A step that does something. */
  ghost predicate Acts(v: View, b: Name, r: StepResult)
    requires b in v.events
  {
    r.writes != [] || (r.outcome.Next? && r.outcome.status != v.events[b])
  }

  ghost predicate Rests(v: View, b: Name, r: StepResult)
    requires b in v.events
  {
    r.writes == [] && (r.outcome.Halt? || r.outcome == Next(v.events[b], false))
  }

  lemma AfterDoneExactly(cal: Calendar, v: View, b: Name, i: nat)
    requires v.Valid() && b in v.events && i < |cal.pipelines|
    ensures cal.pipelines[i].ignoreAfter || AfterDone(cal, v, b, v.events[b], i) <==> forall x :: !AwaitedBy(cal, v, b, i, x)
  {
    hide PredecessorDone, Latest;
    var xs := ByTitle(v, v.order, Titles(v.specs[b].after));
    if !cal.pipelines[i].ignoreAfter && AfterDone(cal, v, b, v.events[b], i) {
      forall x ensures !AwaitedBy(cal, v, b, i, x) {
        assert x in xs && Kept(v, xs, x) ==> PredecessorDone(cal, v, b, v.events[b], i, x);
      }
    } else if !cal.pipelines[i].ignoreAfter {
      var x :| x in xs && Kept(v, xs, x) && !PredecessorDone(cal, v, b, v.events[b], i, x);
      assert AwaitedBy(cal, v, b, i, x);
    }
  }

  lemma LeaderTurn(cal: Calendar, v: View, b: Name, i: nat, now: int, gen: Name)
    requires Feasible(cal.days) && v.Valid() && b in v.events && v.events[b].time.Some? && i < |cal.pipelines|
    requires cal.pipelines[i].leaderOnly && v.events[b].leader == Some(b) && v.specs[b].created + 30 * SECOND <= now
    requires HasTurn(cal, v, b, i, now, gen)
    ensures var r := SyncLeaderOnly(cal, v, b, v.events[b], i, LastAlways(cal.pipelines, i), now, gen);
            if exists x :: (if MustLock(v, b) then UnlockedBy(cal, v, v.specs[b].group, v.events[b].time.value, x)
                            else UngatheredBy(v.events, b, LastAlways(cal.pipelines, i), x))
            then Rests(v, b, r) else Acts(v, b, r)
  {
    hide LockScan, FollowersScan, FollowersOf, Execute, UnlockedBy, UngatheredBy;
    var last := LastAlways(cal.pipelines, i);
    if MustLock(v, b) {
      LockPassesExactly(cal, v, v.specs[b].group, v.events[b].time.value, v.order);
      assert forall x :: UnlockedBy(cal, v, v.specs[b].group, v.events[b].time.value, x) ==> x in v.order by {
        UnlockersAreListed(cal, v, v.specs[b].group, v.events[b].time.value);
      }
    } else {
      GatherPassesExactly(v.events, b, last, v.order);
      assert forall x :: UngatheredBy(v.events, b, last, x) ==> x in v.order by {
        UngatheredAreListed(v, b, last);
      }
      ExecuteFollowers(cal, v, b, v.events[b], i, [], FollowersOf(v.events, b, v.order), now, gen);
    }
  }

  lemma UnlockersAreListed(cal: Calendar, v: View, group: string, day: int)
    requires v.Valid()
    ensures forall x :: UnlockedBy(cal, v, group, day, x) ==> x in v.order
  {
    hide SameDay;
  }

  lemma UngatheredAreListed(v: View, b: Name, last: string)
    requires v.Valid()
    ensures forall x :: UngatheredBy(v.events, b, last, x) ==> x in v.order
  {
    hide FollowerSettled;
  }

  /** Where b is due and has its turn, it acts exactly if no event holds it back. */
  lemma ActsUnlessHeld(cal: Calendar, v: View, b: Name, i: nat, now: int, gen: Name)
    requires Feasible(cal.days) && v.Valid() && b in v.events && v.events[b].time.Some? && i < |cal.pipelines|
    requires IsDue(cal, v, b, i, now) && HasTurn(cal, v, b, i, now, gen)
    ensures if exists x :: HoldsBack(cal, v, b, i, x) then Rests(v, b, Turn(cal, v, b, i, now, gen)) else Acts(v, b, Turn(cal, v, b, i, now, gen))
  {
    hide SyncLeaderOnly, Execute, AfterDone, Early, AwaitedBy, UnlockedBy, UngatheredBy, ProbeLeader;
    AfterDoneExactly(cal, v, b, i);
    if x :| AwaitedBy(cal, v, b, i, x) {
      assert HoldsBack(cal, v, b, i, x);
    } else if cal.pipelines[i].leaderOnly {
      if v.events[b].leader == Some(b) {
        LeaderTurn(cal, v, b, i, now, gen);
        if x :| if MustLock(v, b) then UnlockedBy(cal, v, v.specs[b].group, v.events[b].time.value, x)
                else UngatheredBy(v.events, b, LastAlways(cal.pipelines, i), x) {
          assert HoldsBack(cal, v, b, i, x);
        }
      } else {
        ElectionActs(cal, v, b, i, now, gen);
      }
    }
  }

  lemma ElectionActs(cal: Calendar, v: View, b: Name, i: nat, now: int, gen: Name)
    requires v.Valid() && b in v.events && v.events[b].time.Some? && i < |cal.pipelines| && v.events[b].leader.None?
    ensures Acts(v, b, SyncLeaderOnly(cal, v, b, v.events[b], i, LastAlways(cal.pipelines, i), now, gen))
  {
    hide GatherAndRun, LockScan;
  }

  // ------------------------------------------------------------------ what is seen once a is gone

  /** No other listed event has the title of a, so that nothing takes its place. */
  ghost predicate OnlyOfTitle(v: View, a: Name)
    requires v.Valid() && a in v.specs
  {
    forall x :: x in v.events && v.specs[x].title == v.specs[a].title ==> x == a
  }

  /** a does not hold the lease of b's group. */
  ghost predicate LeaseIsNot(v: View, b: Name, a: Name)
    requires b in v.specs
  {
    MustLock(v, b) ==> v.leases[GroupLease(v.specs[b].group)] != a
  }

  lemma {:induction false} WithoutJoins(xs: seq<Name>, ys: seq<Name>, a: Name)
    ensures Without(xs + ys, a) == Without(xs, a) + Without(ys, a)
    decreases |xs|
  {
    if xs == [] {
      assert xs + ys == ys;
    } else {
      WithoutJoins(xs[1..], ys, a);
      assert (xs + ys)[1..] == xs[1..] + ys;
    }
  }

  lemma WithoutLast(xs: seq<Name>, a: Name)
    requires xs != []
    ensures var n := |xs| - 1;
            Without(xs, a) == if xs[n] == a then Without(xs[..n], a) else Without(xs[..n], a) + [xs[n]]
  {
    var n := |xs| - 1;
    assert xs == xs[..n] + [xs[n]];
    WithoutJoins(xs[..n], [xs[n]], a);
    assert Without([xs[n]], a) == if xs[n] == a then [] else [xs[n]];
  }

  lemma {:induction false} ByTitleOfGone(v: View, w: View, xs: seq<Name>, titles: set<string>, a: Name)
    requires w.specs == v.specs && forall k :: k in xs ==> k in v.specs
    ensures ByTitle(w, Without(xs, a), titles) == Without(ByTitle(v, xs, titles), a)
    decreases |xs|
  {
    if xs != [] {
      ByTitleOfGone(v, w, xs[1..], titles, a);
      var first, rest := if v.specs[xs[0]].title in titles then [xs[0]] else [], ByTitle(v, xs[1..], titles);
      WithoutJoins(first, rest, a);
      WithoutHead(xs, a);
      if xs[0] != a {
        assert Without(first, a) == first;
      } else {
        assert Without(first, a) == [] && [] + Without(rest, a) == Without(rest, a);
      }
    }
  }

  lemma {:induction false} LatestIsOfTitle(v: View, xs: seq<Name>, title: string)
    requires forall k :: k in xs ==> k in v.specs && k in v.events
    ensures var best := Latest(v, xs, title);
            best.Some? ==> best.value in xs && v.specs[best.value].title == title
    decreases |xs|
  {
    if xs != [] {
      LatestIsOfTitle(v, xs[..|xs| - 1], title);
    }
  }

  lemma {:induction false} LatestOfGone(v: View, w: View, xs: seq<Name>, title: string, a: Name)
    requires w.specs == v.specs && w.events == v.events - {a}
    requires (forall k :: k in xs ==> k in v.specs && k in v.events) && a in v.specs && v.specs[a].title != title
    ensures Latest(w, Without(xs, a), title) == Latest(v, xs, title)
    decreases |xs|
  {
    if xs != [] {
      hide Without;
      var n := |xs| - 1;
      LatestOfGone(v, w, xs[..n], title, a);
      LatestIsOfTitle(v, xs[..n], title);
      WithoutLast(xs, a);
      var ys := Without(xs, a);
      assert xs[n] != a ==> ys[..|ys| - 1] == Without(xs[..n], a) && ys[|ys| - 1] == xs[n];
    }
  }

  lemma DoneOfGone(cal: Calendar, v: View, a: Name, b: Name, i: nat, x: Name)
    requires v.Valid() && Gone(v, a).Valid() && b in v.events && a != b && x in v.events && x != a && i < |cal.pipelines|
    ensures PredecessorDone(cal, Gone(v, a), b, v.events[b], i, x) == PredecessorDone(cal, v, b, v.events[b], i, x)
  {
  }

  lemma AwaitedOfGone(cal: Calendar, v: View, a: Name, b: Name, i: nat, x: Name)
    requires v.Valid() && Gone(v, a).Valid() && a in v.events && b in v.events && a != b && i < |cal.pipelines| && OnlyOfTitle(v, a)
    ensures AwaitedBy(cal, Gone(v, a), b, i, x) <==> x != a && AwaitedBy(cal, v, b, i, x)
  {
    hide PredecessorDone, Latest;
    var w, titles := Gone(v, a), Titles(v.specs[b].after);
    var xs := ByTitle(v, v.order, titles);
    ByTitleOfGone(v, w, v.order, titles, a);
    assert ByTitle(w, w.order, titles) == Without(xs, a);
    if x in xs && x != a {
      LatestOfGone(v, w, xs, v.specs[x].title, a);
      DoneOfGone(cal, v, a, b, i, x);
    }
  }

  lemma HeldOfGone(cal: Calendar, v: View, a: Name, b: Name, i: nat, x: Name)
    requires v.Valid() && Gone(v, a).Valid() && a in v.events && b in v.events && a != b && i < |cal.pipelines|
    requires v.events[b].time.Some? && OnlyOfTitle(v, a) && LeaseIsNot(v, b, a)
    ensures HoldsBack(cal, Gone(v, a), b, i, x) <==> x != a && HoldsBack(cal, v, b, i, x)
  {
    hide AwaitedBy, FollowerSettled, SameDay;
    AwaitedOfGone(cal, v, a, b, i, x);
  }

  lemma LeaderOfGone(cal: Calendar, v: View, a: Name, b: Name)
    requires v.Valid() && Gone(v, a).Valid() && a in v.events && b in v.events && a != b && v.events[b].time.Some? && LeaseIsNot(v, b, a)
    ensures ProbeLeader(cal, Gone(v, a), b, v.events[b]) == ProbeLeader(cal, v, b, v.events[b])
  {
    hide SameDay;
  }

  lemma TurnOfGone(cal: Calendar, v: View, a: Name, b: Name, i: nat, now: int, gen: Name)
    requires Feasible(cal.days) && v.Valid() && Gone(v, a).Valid() && a in v.events && b in v.events && a != b && i < |cal.pipelines|
    requires v.events[b].time.Some? && LeaseIsNot(v, b, a)
    ensures IsDue(cal, Gone(v, a), b, i, now) == IsDue(cal, v, b, i, now)
    ensures HasTurn(cal, Gone(v, a), b, i, now, gen) == HasTurn(cal, v, b, i, now, gen)
  {
    hide ProbeLeader, Early, Execute;
    LeaderOfGone(cal, v, a, b);
    ExecuteReads(cal, v, Gone(v, a), b, v.events[b], i, [], now, gen);
  }

  lemma AfterOfGone(cal: Calendar, v: View, a: Name, b: Name, j: nat)
    requires v.Valid() && Gone(v, a).Valid() && a in v.events && b in v.events && a != b && j < |cal.pipelines| && OnlyOfTitle(v, a)
    requires cal.pipelines[j].ignoreAfter || AfterDone(cal, v, b, v.events[b], j)
    ensures cal.pipelines[j].ignoreAfter || AfterDone(cal, Gone(v, a), b, v.events[b], j)
  {
    hide AfterDone, AwaitedBy;
    AfterDoneExactly(cal, v, b, j);
    AfterDoneExactly(cal, Gone(v, a), b, j);
    forall x ensures !AwaitedBy(cal, Gone(v, a), b, j, x) {
      AwaitedOfGone(cal, v, a, b, j, x);
    }
  }

  lemma TurnIs(cal: Calendar, v: View, b: Name, j: nat, now: int, gen: Name)
    requires Feasible(cal.days) && v.Valid() && b in v.events && v.events[b].time.Some? && j < |cal.pipelines|
    ensures var st := v.events[b];
            Turn(cal, v, b, j, now, gen) == StepResult([], v.leases, Next(st, true)) <==>
              && ProbeLeader(cal, v, b, st) == Some(st) && !Early(cal, st, j, now)
              && (cal.pipelines[j].ignoreAfter || AfterDone(cal, v, b, st, j))
              && (if cal.pipelines[j].leaderOnly then SyncLeaderOnly(cal, v, b, st, j, LastAlways(cal.pipelines, j), now, gen)
                  else Execute(cal, v, b, st, j, [], now, gen)) == StepResult([], v.leases, Next(st, true))
  {
    hide ProbeLeader, Early, Execute, AfterDone, SyncLeaderOnly;
  }

  /** Pipelines that b is through with it is through with still, unless it needs a as its leader. */
  lemma ClearedOfGone(cal: Calendar, v: View, a: Name, b: Name, j: nat, now: int, gen: Name)
    requires Feasible(cal.days) && v.Valid() && Gone(v, a).Valid() && a in v.events && b in v.events && a != b && j < |cal.pipelines|
    requires v.events[b].time.Some? && OnlyOfTitle(v, a) && LeaseIsNot(v, b, a)
    requires cal.pipelines[j].leaderOnly ==> v.events[b].leader != Some(a)
    requires Turn(cal, v, b, j, now, gen) == StepResult([], v.leases, Next(v.events[b], true))
    ensures Turn(cal, Gone(v, a), b, j, now, gen) == StepResult([], Gone(v, a).leases, Next(v.events[b], true))
  {
    hide ProbeLeader, Early, Execute, AfterDone, SyncLeaderOnly, SyncPipeline, Turn, LeaseIsNot, OnlyOfTitle;
    LeaderOfGone(cal, v, a, b);
    TurnIs(cal, v, b, j, now, gen);
    TurnIs(cal, Gone(v, a), b, j, now, gen);
    AfterOfGone(cal, v, a, b, j);
    if cal.pipelines[j].leaderOnly {
      LeaderOnlyOfGone(cal, v, a, b, j, now, gen);
    } else {
      ExecuteReads(cal, v, Gone(v, a), b, v.events[b], j, [], now, gen);
    }
  }

  lemma LeaderOnlyOfGone(cal: Calendar, v: View, a: Name, b: Name, j: nat, now: int, gen: Name)
    requires v.Valid() && Gone(v, a).Valid() && a in v.events && b in v.events && a != b && j < |cal.pipelines|
    requires v.events[b].time.Some? && LeaseIsNot(v, b, a) && v.events[b].leader != Some(a)
    requires SyncLeaderOnly(cal, v, b, v.events[b], j, LastAlways(cal.pipelines, j), now, gen) == StepResult([], v.leases, Next(v.events[b], true))
    ensures SyncLeaderOnly(cal, Gone(v, a), b, v.events[b], j, LastAlways(cal.pipelines, j), now, gen) ==
              StepResult([], Gone(v, a).leases, Next(v.events[b], true))
  {
    hide GatherAndRun, LockScan, RunStatusOf;
    if v.events[b].leader == Some(b) {
      LeadsLocked(cal, v, b, j, now, gen);
      hide SyncLeaderOnly;
      GatherOfGone(cal, v, a, b, j, now, gen);
      LeadsGathered(cal, Gone(v, a), b, j, now, gen);
    }
  }

  /** A leader that is through has locked its group. */
  lemma LeadsLocked(cal: Calendar, v: View, b: Name, j: nat, now: int, gen: Name)
    requires v.Valid() && b in v.events && j < |cal.pipelines| && v.events[b].time.Some? && v.events[b].leader == Some(b)
    requires SyncLeaderOnly(cal, v, b, v.events[b], j, LastAlways(cal.pipelines, j), now, gen) == StepResult([], v.leases, Next(v.events[b], true))
    ensures !MustLock(v, b) && v.specs[b].created + 30 * SECOND <= now
    ensures GatherAndRun(cal, v, b, v.events[b], j, LastAlways(cal.pipelines, j), [], now, gen) == StepResult([], v.leases, Next(v.events[b], true))
  {
    hide Execute, LockScan, FollowersScan, FollowersOf;
  }

  lemma LeadsGathered(cal: Calendar, v: View, b: Name, j: nat, now: int, gen: Name)
    requires v.Valid() && b in v.events && j < |cal.pipelines| && v.events[b].time.Some? && v.events[b].leader == Some(b)
    requires !MustLock(v, b) && v.specs[b].created + 30 * SECOND <= now
    ensures SyncLeaderOnly(cal, v, b, v.events[b], j, LastAlways(cal.pipelines, j), now, gen) ==
              GatherAndRun(cal, v, b, v.events[b], j, LastAlways(cal.pipelines, j), [], now, gen)
  {
    hide GatherAndRun, LockScan;
  }

  lemma GatherOfGone(cal: Calendar, v: View, a: Name, b: Name, j: nat, now: int, gen: Name)
    requires v.Valid() && Gone(v, a).Valid() && b in v.events && a != b && j < |cal.pipelines|
    requires GatherAndRun(cal, v, b, v.events[b], j, LastAlways(cal.pipelines, j), [], now, gen) == StepResult([], v.leases, Next(v.events[b], true))
    ensures GatherAndRun(cal, Gone(v, a), b, v.events[b], j, LastAlways(cal.pipelines, j), [], now, gen) ==
              StepResult([], Gone(v, a).leases, Next(v.events[b], true))
  {
    hide FollowersScan, FollowersOf, Execute, UngatheredBy, Collected, Without;
    var w, st, last := Gone(v, a), v.events[b], LastAlways(cal.pipelines, j);
    GatherPassesExactly(v.events, b, last, v.order);
    GatherPassesExactly(w.events, b, last, w.order);
    forall x ensures UngatheredBy(w.events, b, last, x) ==> UngatheredBy(v.events, b, last, x) && x in v.order {
      UngatheredOfGone(v, a, b, last, x);
    }
    var f, g := FollowersOf(v.events, b, v.order), FollowersOf(w.events, b, w.order);
    ExecuteReads(cal, v, w, b, st, j, g, now, gen);
    ExecuteFollowers(cal, v, b, st, j, f, g, now, gen);
    assert OnlyRuns(w, b, st, Execute(cal, w, b, st, j, g, now, gen));
  }

  lemma UngatheredOfGone(v: View, a: Name, b: Name, last: string, x: Name)
    requires v.Valid()
    ensures UngatheredBy(Gone(v, a).events, b, last, x) ==> UngatheredBy(v.events, b, last, x) && x in v.order
  {
    hide FollowerSettled;
  }

  // ------------------------------------------------------------------ exactly whom a deletion strands

  lemma RunOfTurn(cal: Calendar, v: View, b: Name, i: nat, now: int, gen: Name)
    requires Feasible(cal.days) && v.Valid() && b in v.events && v.events[b].time.Some? && i < |cal.pipelines|
    ensures Acts(v, b, Turn(cal, v, b, i, now, gen)) ==> RunFrom(cal, v, b, v.events[b], i, now, gen) != []
    ensures Rests(v, b, Turn(cal, v, b, i, now, gen)) ==> RunFrom(cal, v, b, v.events[b], i, now, gen) == []
  {
    hide SyncPipeline;
  }

  /** Where b stands: through with the pipelines before i, due at i, with something to do there. */
  ghost predicate StandsAt(cal: Calendar, v: View, b: Name, i: nat, now: int, gen: Name)
    requires Feasible(cal.days) && v.Valid()
  {
    && i < |cal.pipelines| && UpToTime(cal, v, b, now) && HasTitle(v, b) && ClearedTo(cal, v, b, i, now, gen)
    && IsDue(cal, v, b, i, now) && HasTurn(cal, v, b, i, now, gen)
  }

  /** An event that stands at pipeline i writes something exactly if no event holds it back. */
  lemma StandingActs(cal: Calendar, v: View, b: Name, i: nat, now: int, gen: Name)
    requires Feasible(cal.days) && v.Valid() && StandsAt(cal, v, b, i, now, gen)
    ensures Plan(cal, v, b, now, false, gen) != [] <==> forall x :: !HoldsBack(cal, v, b, i, x)
  {
    hide Plan, Turn, RunFrom, ReturnsFrom, HoldsBack, Acts, Rests, ClearedTo, IsDue, HasTurn, Returns;
    PlanOfSettled(cal, v, b, i, now, gen);
    ActsUnlessHeld(cal, v, b, i, now, gen);
    RunOfTurn(cal, v, b, i, now, gen);
  }

  /** Deleting a strands an event b that sleeps at pipeline i exactly if nothing but a holds it back:
      then its next sync would write something, and nothing brings it about. */
  lemma StrandedExactly(cal: Calendar, v: View, a: Name, b: Name, i: nat, now: int, gen: Name)
    requires Feasible(cal.days) && v.Valid() && a in v.events && b in v.events && a != b
    requires StandsAt(cal, v, b, i, now, gen) && Asleep(cal, v, b, now, gen)
    requires OnlyOfTitle(v, a) && LeaseIsNot(v, b, a)
    requires v.events[b].leader == Some(a) ==> forall j: nat :: j < i ==> !cal.pipelines[j].leaderOnly
    requires Gone(v, a).Valid() && UpToTime(cal, Gone(v, a), b, now)
    ensures exists x :: HoldsBack(cal, v, b, i, x)
    ensures Plan(cal, Gone(v, a), b, now, false, gen) != [] <==> forall x :: HoldsBack(cal, v, b, i, x) ==> x == a
  {
    hide Plan, HoldsBack, Turn, IsDue, HasTurn, UpToTime, Returns;
    var w := Gone(v, a);
    StandingActs(cal, v, b, i, now, gen);
    SettledHasTime(cal, v, b, now);
    forall j: nat | j < i ensures Turn(cal, w, b, j, now, gen) == StepResult([], w.leases, Next(v.events[b], true)) {
      ClearedOfGone(cal, v, a, b, j, now, gen);
    }
    TurnOfGone(cal, v, a, b, i, now, gen);
    StandingActs(cal, w, b, i, now, gen);
    forall x ensures HoldsBack(cal, w, b, i, x) <==> x != a && HoldsBack(cal, v, b, i, x) {
      HeldOfGone(cal, v, a, b, i, x);
    }
  }

  lemma SettledHasTime(cal: Calendar, v: View, b: Name, now: int)
    requires Feasible(cal.days) && v.Valid() && UpToTime(cal, v, b, now)
    ensures b in v.events && v.events[b].time.Some?
  {
    hide ProbeTime, ProbePhase;
  }

  /** b waits for its title: another listed event holds the lease and is not over. */
  ghost predicate AwaitsTitle(v: View, b: Name, holder: Name)
    requires v.Valid() && b in v.events
  {
    var key := NameLease(v.specs[b].title);
    && (v.events[b].phase.Unset? || v.events[b].phase.Pending?)
    && key in v.leases && v.leases[key] == holder && holder != b && holder in v.events
    && v.specs[holder].created <= v.specs[b].created && !Terminal(v.events[holder].phase)
  }

  /** An event that waits for its title sleeps, and the deletion of a strands it exactly if a is the
      holder: with the lease collected it could take it. */
  lemma TitleStrandedExactly(cal: Calendar, v: View, a: Name, b: Name, holder: Name, now: int, gen: Name)
    requires Feasible(cal.days) && v.Valid() && a in v.events && b in v.events && a != b
    requires UpToTime(cal, v, b, now) && AwaitsTitle(v, b, holder)
    requires Gone(v, a).Valid() && UpToTime(cal, Gone(v, a), b, now)
    ensures Asleep(cal, v, b, now, gen)
    ensures Plan(cal, Gone(v, a), b, now, false, gen) != [] <==> holder == a
  {
    hide RunFrom, ReturnsFrom, ProbeTime, ProbePhase, AcquireLease;
    TitleRefused(v, b, holder);
    TitleOfGone(v, a, b, holder);
  }

  lemma TitleRefused(v: View, b: Name, holder: Name)
    requires v.Valid() && b in v.events && AwaitsTitle(v, b, holder)
    ensures AcquireLease(v, b, v.events[b]) == Acquired([], v.leases, false) && !HolderUnlisted(v, b, v.events[b])
  {
  }

  lemma TitleOfGone(v: View, a: Name, b: Name, holder: Name)
    requires v.Valid() && Gone(v, a).Valid() && a in v.events && b in v.events && a != b && AwaitsTitle(v, b, holder)
    ensures var t := AcquireLease(Gone(v, a), b, v.events[b]);
            if holder == a then t.ok && t.writes == [CreateLease(NameLease(v.specs[b].title), b)] else !t.ok && t.writes == []
  {
  }

  // ------------------------------------------------------------------ times that do not hang on a

  lemma {:induction false} ProbeOneOfGone(cal: Calendar, v: View, w: View, xs: seq<Name>, offset: Offset, a: Name, t: int, t': int)
    requires Feasible(cal.days) && w.events == v.events - {a} && (forall k :: k in xs ==> k in v.events) && t' <= t
    requires ProbeOne(cal, v, xs, offset, t).Reached?
    ensures var r := ProbeOne(cal, w, Without(xs, a), offset, t');
            r.Reached? && t' <= r.time <= ProbeOne(cal, v, xs, offset, t).time
    decreases |xs|
  {
    hide GetTimeWithOffset;
    if xs != [] {
      WithoutHead(xs, a);
      var when := GetTimeWithOffset(v.events[xs[0]].time.value, offset, cal.zone, cal.days).value;
      var later := if when > t then when else t;
      ProbeOneOfGone(cal, v, w, xs[1..], offset, a, later, if xs[0] == a || when <= t' then t' else when);
    }
  }

  /** With a gone an event waits for no later time. */
  lemma {:induction false} ProbeAllOfGone(cal: Calendar, v: View, a: Name, after: seq<RunAfter>, t: int, t': int)
    requires Feasible(cal.days) && v.Valid() && Gone(v, a).Valid() && t' <= t && ProbeAll(cal, v, after, t).Reached?
    ensures var r := ProbeAll(cal, Gone(v, a), after, t');
            r.Reached? && t' <= r.time <= ProbeAll(cal, v, after, t).time
    decreases |after|
  {
    hide ProbeOne, Without;
    if after != [] {
      var w, titles := Gone(v, a), {after[0].title};
      ByTitleOfGone(v, w, v.order, titles, a);
      var xs := ByTitle(v, v.order, titles);
      ProbeOneOfGone(cal, v, w, xs, after[0].offset, a, t, t');
      ProbeAllOfGone(cal, v, a, after[1..], ProbeOne(cal, v, xs, after[0].offset, t).time,
                     ProbeOne(cal, w, Without(xs, a), after[0].offset, t').time);
    }
  }

  /** An event that has begun keeps its time; so does one that asks for no time of its own and whose
      listed predecessors all have one. */
  lemma SettledOfGone(cal: Calendar, v: View, a: Name, b: Name, now: int)
    requires Feasible(cal.days) && v.Valid() && Gone(v, a).Valid() && a != b && UpToTime(cal, v, b, now)
    requires || (!v.events[b].phase.Unset? && !v.events[b].phase.Pending?)
             || (v.specs[b].time.None? && forall x :: x in v.events && v.specs[x].title in Titles(v.specs[b].after) ==> v.events[x].time.Some?)
    ensures UpToTime(cal, Gone(v, a), b, now)
  {
    hide ProbeAll, Without, ProbePhase;
    var st, after := v.events[b], v.specs[b].after;
    if (st.phase.Unset? || st.phase.Pending?) && (after == [] || v.specs[b].created + 15 * SECOND <= now) {
      if ProbeAll(cal, v, after, st.time.value).NotYet? {
        var p := ProbeAllWaitsFor(cal, v, after, st.time.value);
      }
      ProbeAllOfGone(cal, v, a, after, st.time.value, st.time.value);
    }
  }
}
