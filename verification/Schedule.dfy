/** Convergence of probeTime: events that wait for each other's times settle on one schedule,
    in whatever fair order they are synced. */
module Schedule {
  import opened Prelude
  import opened CalendarDays
  import opened CalendarTypes
  import opened EventSync
  import opened WakeUp
  import opened Progress

  /** Event k takes its time from event p. */
  predicate TakesFrom(v: View, k: Name, p: Name) {
    k in v.specs && p in v.specs && p in v.events && v.specs[p].title in Titles(v.specs[k].after)
  }

  /** Pending events with a time of their own, past the first seconds, and no cycle in runAfter. */
  ghost predicate Schedulable(cal: Calendar, v: View, rank: Name -> nat, now: int) {
    && Feasible(cal.days) && v.Valid()
    && (forall k :: k in v.events ==>
         && (v.events[k].phase.Unset? || v.events[k].phase.Pending?) && v.specs[k].time.Some?
         && (v.specs[k].after != [] ==> v.specs[k].created + 15 * SECOND <= now)
         && forall a :: a in v.specs[k].after ==> GoodOffset(a.offset))
    && (forall k, p :: k in v.events && TakesFrom(v, k, p) ==> rank(p) < rank(k))
  }

  /** One probeTime of event k. */
  function Touch(cal: Calendar, v: View, k: Name, now: int): View
    requires Feasible(cal.days) && v.Valid()
  {
    if k !in v.events then v
    else
      match ProbeTime(cal, v, k, v.events[k], now)
      case Err => v
      case Ok(st) => v.(events := v.events[k := st])
  }

  function TouchAll(cal: Calendar, v: View, xs: seq<Name>, now: int): (w: View)
    requires Feasible(cal.days) && v.Valid()
    ensures w.Valid() && w.specs == v.specs && w.order == v.order && w.events.Keys == v.events.Keys
    decreases |xs|
  {
    if xs == [] then v else TouchAll(cal, Touch(cal, v, xs[0], now), xs[1..], now)
  }

  function TouchRounds(cal: Calendar, v: View, rounds: seq<seq<Name>>, now: int): (w: View)
    requires Feasible(cal.days) && v.Valid()
    ensures w.Valid() && w.specs == v.specs && w.order == v.order && w.events.Keys == v.events.Keys
  {
    if rounds == [] then v
    else
      var n := |rounds| - 1;
      TouchAll(cal, TouchRounds(cal, v, rounds[..n], now), rounds[n], now)
  }

  /** The time is set, and another probeTime would leave it. */
  ghost predicate Fixed(cal: Calendar, v: View, k: Name, now: int)
    requires Feasible(cal.days) && v.Valid()
  {
    k in v.events && v.events[k].time.Some? && ProbeTime(cal, v, k, v.events[k], now) == Ok(v.events[k])
  }

  ghost predicate FixedBelow(cal: Calendar, v: View, rank: Name -> nat, r: nat, now: int)
    requires Feasible(cal.days) && v.Valid()
  {
    forall k :: k in v.events && rank(k) < r ==> Fixed(cal, v, k, now)
  }

  // ------------------------------------------------------------------ what a time depends on

  lemma {:induction false} SameTimes(cal: Calendar, v: View, w: View, after: seq<RunAfter>, t: int)
    requires Feasible(cal.days) && v.Valid() && w.Valid() && w.specs == v.specs && w.order == v.order && w.events.Keys == v.events.Keys
    requires forall p :: p in v.events && v.specs[p].title in Titles(after) ==> w.events[p] == v.events[p]
    ensures ProbeAll(cal, v, after, t) == ProbeAll(cal, w, after, t)
    decreases |after|
  {
    hide ProbeOne;
    if after != [] {
      var xs := ByTitle(v, v.order, {after[0].title});
      ByTitleOfSpecs(v, w, v.order, {after[0].title});
      assert after[0].title in Titles(after);
      SameProbe(cal, v, w, xs, after[0].offset, t);
      var probe := ProbeOne(cal, v, xs, after[0].offset, t);
      if probe.Reached? {
        assert forall a :: a in after[1..] ==> a in after;
        SameTimes(cal, v, w, after[1..], probe.time);
      }
    }
  }

  lemma {:induction false} OneReached(cal: Calendar, v: View, xs: seq<Name>, offset: Offset, t: int)
    requires Feasible(cal.days) && GoodOffset(offset) && forall k :: k in xs ==> k in v.events && v.events[k].time.Some?
    ensures ProbeOne(cal, v, xs, offset, t).Reached?
    decreases |xs|
  {
    if xs != [] {
      var when := GetTimeWithOffset(v.events[xs[0]].time.value, offset, cal.zone, cal.days).value;
      OneReached(cal, v, xs[1..], offset, if when > t then when else t);
    }
  }

  lemma {:induction false} AllReached(cal: Calendar, v: View, after: seq<RunAfter>, t: int)
    requires Feasible(cal.days) && v.Valid() && forall a :: a in after ==> GoodOffset(a.offset)
    requires forall p :: p in v.events && v.specs[p].title in Titles(after) ==> v.events[p].time.Some?
    ensures ProbeAll(cal, v, after, t).Reached?
    decreases |after|
  {
    hide ProbeOne;
    if after != [] {
      assert after[0].title in Titles(after);
      var xs := ByTitle(v, v.order, {after[0].title});
      OneReached(cal, v, xs, after[0].offset, t);
      assert forall a :: a in after[1..] ==> a in after;
      AllReached(cal, v, after[1..], ProbeOne(cal, v, xs, after[0].offset, t).time);
    }
  }

  // ------------------------------------------------------------------ one probeTime

  lemma TouchKeeps(cal: Calendar, v: View, rank: Name -> nat, k: Name, now: int)
    requires Schedulable(cal, v, rank, now)
    ensures Schedulable(cal, Touch(cal, v, k, now), rank, now)
    ensures forall j :: j in v.events && j != k ==> Touch(cal, v, k, now).events[j] == v.events[j]
  {
    hide ProbeAll;
  }

  /** Once what k takes its time from is set, one probeTime fixes k. */
  lemma TouchFixes(cal: Calendar, v: View, rank: Name -> nat, k: Name, now: int)
    requires Schedulable(cal, v, rank, now) && k in v.events
    requires forall p :: TakesFrom(v, k, p) ==> v.events[p].time.Some?
    ensures Touch(cal, v, k, now).Valid() && Fixed(cal, Touch(cal, v, k, now), k, now)
  {
    hide ProbeAll, GetTimeWithOffset, Titles;
    var spec, w := v.specs[k], Touch(cal, v, k, now);
    TouchKeeps(cal, v, rank, k, now);
    assert forall p :: p in v.events && v.specs[p].title in Titles(spec.after) ==> TakesFrom(v, k, p) && p != k;
    AllReached(cal, v, spec.after, spec.time.value);
    SameTimes(cal, v, w, spec.after, spec.time.value);
  }

  /** A fixed time stays, since what it was taken from is fixed too. */
  lemma FixedStays(cal: Calendar, v: View, rank: Name -> nat, r: nat, j: Name, k: Name, now: int)
    requires Schedulable(cal, v, rank, now) && FixedBelow(cal, v, rank, r, now) && k in v.events && Fixed(cal, v, k, now)
    requires forall p :: TakesFrom(v, k, p) ==> rank(p) < r
    ensures Touch(cal, v, j, now).Valid() && Fixed(cal, Touch(cal, v, j, now), k, now)
  {
    hide ProbeAll, Titles;
    var spec, w := v.specs[k], Touch(cal, v, j, now);
    TouchKeeps(cal, v, rank, j, now);
    if j != k {
      forall p | p in v.events && v.specs[p].title in Titles(spec.after) ensures w.events[p] == v.events[p] {
        assert TakesFrom(v, k, p);
        assert p == j ==> Fixed(cal, v, j, now);
      }
      SameTimes(cal, v, w, spec.after, spec.time.value);
    } else {
      assert w.events == v.events;
    }
  }

  lemma BelowStays(cal: Calendar, v: View, rank: Name -> nat, r: nat, j: Name, now: int)
    requires Schedulable(cal, v, rank, now) && FixedBelow(cal, v, rank, r, now)
    ensures Touch(cal, v, j, now).Valid() && FixedBelow(cal, Touch(cal, v, j, now), rank, r, now)
  {
    hide Fixed, ProbeTime;
    TouchKeeps(cal, v, rank, j, now);
    forall k | k in v.events && rank(k) < r ensures Fixed(cal, Touch(cal, v, j, now), k, now) {
      FixedStays(cal, v, rank, r, j, k, now);
    }
  }

  // ------------------------------------------------------------------ rounds

  /** After all events below rank r are fixed, syncing xs fixes those of rank r among xs. */
  lemma {:induction false} RoundFixes(cal: Calendar, v: View, rank: Name -> nat, r: nat, xs: seq<Name>, now: int)
    requires Schedulable(cal, v, rank, now) && FixedBelow(cal, v, rank, r, now)
    ensures var w := TouchAll(cal, v, xs, now);
            && Schedulable(cal, w, rank, now) && FixedBelow(cal, w, rank, r, now)
            && (forall k :: k in w.events && rank(k) == r && (k in xs || Fixed(cal, v, k, now)) ==> Fixed(cal, w, k, now))
    decreases |xs|
  {
    hide Fixed, ProbeTime, Touch;
    if xs != [] {
      var u := Touch(cal, v, xs[0], now);
      TouchKeeps(cal, v, rank, xs[0], now);
      BelowStays(cal, v, rank, r, xs[0], now);
      TouchNames(cal, v, xs[0], now);
      forall k | k in u.events && rank(k) == r && (k == xs[0] || Fixed(cal, v, k, now)) ensures Fixed(cal, u, k, now) {
        RankFixes(cal, v, rank, r, xs[0], k, now);
      }
      RoundFixes(cal, u, rank, r, xs[1..], now);
      assert forall k :: k in xs ==> k == xs[0] || k in xs[1..];
    }
  }

  lemma TouchNames(cal: Calendar, v: View, k: Name, now: int)
    requires Feasible(cal.days) && v.Valid()
    ensures Touch(cal, v, k, now).events.Keys == v.events.Keys
  {
  }

  lemma RankFixes(cal: Calendar, v: View, rank: Name -> nat, r: nat, j: Name, k: Name, now: int)
    requires Schedulable(cal, v, rank, now) && FixedBelow(cal, v, rank, r, now) && k in v.events && rank(k) == r
    requires k == j || Fixed(cal, v, k, now)
    ensures Touch(cal, v, j, now).Valid() && Fixed(cal, Touch(cal, v, j, now), k, now)
  {
    assert forall p :: TakesFrom(v, k, p) ==> rank(p) < r;
    if k == j {
      assert forall p :: TakesFrom(v, k, p) ==> Fixed(cal, v, p, now);
      TouchFixes(cal, v, rank, k, now);
    } else {
      FixedStays(cal, v, rank, r, j, k, now);
    }
  }

  ghost predicate Fair(v: View, rounds: seq<seq<Name>>) {
    forall i, k :: 0 <= i < |rounds| && k in v.events ==> k in rounds[i]
  }

  /** n fair rounds fix all events of depth less than n. */
  lemma {:induction false} RoundsFix(cal: Calendar, v: View, rank: Name -> nat, rounds: seq<seq<Name>>, now: int)
    requires Schedulable(cal, v, rank, now) && Fair(v, rounds)
    ensures var w := TouchRounds(cal, v, rounds, now);
            Schedulable(cal, w, rank, now) && FixedBelow(cal, w, rank, |rounds|, now)
    decreases |rounds|
  {
    hide Fixed, Touch, TouchAll, FixedBelow;
    if rounds == [] {
      NoneBelow(cal, v, rank, now);
    } else {
      var n := |rounds| - 1;
      RoundsFix(cal, v, rank, rounds[..n], now);
      var u := TouchRounds(cal, v, rounds[..n], now);
      RoundFixes(cal, u, rank, n, rounds[n], now);
      OneMoreBelow(cal, TouchAll(cal, u, rounds[n], now), rank, n, now);
    }
  }

  lemma NoneBelow(cal: Calendar, v: View, rank: Name -> nat, now: int)
    requires Feasible(cal.days) && v.Valid()
    ensures FixedBelow(cal, v, rank, 0, now)
  {
  }

  lemma OneMoreBelow(cal: Calendar, v: View, rank: Name -> nat, r: nat, now: int)
    requires Feasible(cal.days) && v.Valid() && FixedBelow(cal, v, rank, r, now)
    requires forall k :: k in v.events && rank(k) == r ==> Fixed(cal, v, k, now)
    ensures FixedBelow(cal, v, rank, r + 1, now)
  {
    hide Fixed;
  }

  // ------------------------------------------------------------------ the schedule

  /** The time event k would get from event p by runAfter entry a. */
  ghost predicate Lower(cal: Calendar, v: View, times: map<Name, int>, k: Name, a: RunAfter, p: Name, t: int)
    requires Feasible(cal.days)
  {
    && k in v.specs && a in v.specs[k].after && p in v.events && p in v.specs && v.specs[p].title == a.title
    && p in times && GetTimeWithOffset(times[p], a.offset, cal.zone, cal.days) == Ok(t)
  }

  /** Every event starts at its own time or, where that is later, at the latest time its
      predecessors give it. */
  ghost predicate IsSchedule(cal: Calendar, v: View, times: map<Name, int>)
    requires Feasible(cal.days) && v.Valid()
  {
    && times.Keys == v.events.Keys
    && forall k :: k in times && v.specs[k].time.Some? ==>
         && times[k] >= v.specs[k].time.value
         && (forall a, p, t :: Lower(cal, v, times, k, a, p, t) ==> times[k] >= t)
         && (times[k] == v.specs[k].time.value || exists a, p :: Lower(cal, v, times, k, a, p, times[k]))
  }

  /** Without cycles there is one schedule. */
  lemma {:induction false} ScheduleIsUnique(cal: Calendar, v: View, rank: Name -> nat, now: int, x: map<Name, int>, y: map<Name, int>, k: Name)
    requires Schedulable(cal, v, rank, now) && IsSchedule(cal, v, x) && IsSchedule(cal, v, y) && k in v.events
    ensures x[k] == y[k]
    decreases rank(k)
  {
    forall a, p, t | Lower(cal, v, x, k, a, p, t) ensures Lower(cal, v, y, k, a, p, t) {
      assert TakesFrom(v, k, p);
      ScheduleIsUnique(cal, v, rank, now, x, y, p);
    }
    forall a, p, t | Lower(cal, v, y, k, a, p, t) ensures Lower(cal, v, x, k, a, p, t) {
      assert TakesFrom(v, k, p);
      ScheduleIsUnique(cal, v, rank, now, x, y, p);
    }
  }

  function TimesOf(v: View): map<Name, int> {
    map k | k in v.events && v.events[k].time.Some? :: v.events[k].time.value
  }

  lemma {:induction false} OneIsMax(cal: Calendar, v: View, xs: seq<Name>, offset: Offset, t: int)
    requires Feasible(cal.days) && forall k :: k in xs ==> k in v.events
    requires ProbeOne(cal, v, xs, offset, t).Reached?
    ensures var r := ProbeOne(cal, v, xs, offset, t).time;
            && r >= t
            && (forall p :: p in xs ==> v.events[p].time.Some?)
            && (forall p, u :: p in xs && GetTimeWithOffset(v.events[p].time.value, offset, cal.zone, cal.days) == Ok(u) ==> r >= u)
            && (r == t || exists p :: p in xs && GetTimeWithOffset(v.events[p].time.value, offset, cal.zone, cal.days) == Ok(r))
    decreases |xs|
  {
    hide GetTimeWithOffset;
    if xs != [] {
      var when := GetTimeWithOffset(v.events[xs[0]].time.value, offset, cal.zone, cal.days).value;
      OneIsMax(cal, v, xs[1..], offset, if when > t then when else t);
      assert forall p :: p in xs ==> p == xs[0] || p in xs[1..];
    }
  }

  /** The last word of a probe over all runAfter entries is the latest of the times given. */
  lemma {:induction false} AllIsMax(cal: Calendar, v: View, after: seq<RunAfter>, t: int)
    requires Feasible(cal.days) && v.Valid() && ProbeAll(cal, v, after, t).Reached?
    ensures var r := ProbeAll(cal, v, after, t).time;
            && r >= t
            && (forall a, p, u :: Gives(cal, v, after, a, p, u) ==> r >= u)
            && (r == t || exists a, p :: Gives(cal, v, after, a, p, r))
    decreases |after|
  {
    hide ProbeOne, GetTimeWithOffset;
    if after != [] {
      var r, xs := ProbeAll(cal, v, after, t).time, ByTitle(v, v.order, {after[0].title});
      var first := ProbeOne(cal, v, xs, after[0].offset, t).time;
      OneIsMax(cal, v, xs, after[0].offset, t);
      AllIsMax(cal, v, after[1..], first);
      forall a, p, u | Gives(cal, v, after, a, p, u) ensures r >= u {
        if a == after[0] {
          assert p in xs;
        } else {
          assert a in after[1..] && Gives(cal, v, after[1..], a, p, u);
        }
      }
      if r != first {
        var a, p :| Gives(cal, v, after[1..], a, p, r);
        assert Gives(cal, v, after, a, p, r);
      } else if first != t {
        var p :| p in xs && GetTimeWithOffset(v.events[p].time.value, after[0].offset, cal.zone, cal.days) == Ok(first);
        assert Gives(cal, v, after, after[0], p, r);
      }
    }
  }

  ghost predicate Gives(cal: Calendar, v: View, after: seq<RunAfter>, a: RunAfter, p: Name, t: int)
    requires Feasible(cal.days) && v.Valid()
  {
    && a in after && p in v.events && v.specs[p].title == a.title && v.events[p].time.Some?
    && GetTimeWithOffset(v.events[p].time.value, a.offset, cal.zone, cal.days) == Ok(t)
  }

  lemma FixedIsSchedule(cal: Calendar, v: View, rank: Name -> nat, now: int)
    requires Schedulable(cal, v, rank, now) && forall k :: k in v.events ==> Fixed(cal, v, k, now)
    ensures IsSchedule(cal, v, TimesOf(v))
  {
    var times := TimesOf(v);
    assert times.Keys == v.events.Keys by {
      assert forall k :: k in v.events ==> Fixed(cal, v, k, now);
    }
    hide GetTimeWithOffset;
    forall k | k in times
      ensures times[k] >= v.specs[k].time.value
      ensures forall a, p, t :: Lower(cal, v, times, k, a, p, t) ==> times[k] >= t
      ensures times[k] == v.specs[k].time.value || exists a, p :: Lower(cal, v, times, k, a, p, times[k])
    {
      assert forall p :: p in v.events ==> Fixed(cal, v, p, now);
      TimeIsMax(cal, v, rank, k, now);
      if times[k] != v.specs[k].time.value {
        var a, p :| Gives(cal, v, v.specs[k].after, a, p, times[k]);
        assert Lower(cal, v, times, k, a, p, times[k]);
      }
      forall a, p, t | Lower(cal, v, times, k, a, p, t) ensures times[k] >= t {
        assert Gives(cal, v, v.specs[k].after, a, p, t);
      }
    }
  }

  lemma TimeIsMax(cal: Calendar, v: View, rank: Name -> nat, k: Name, now: int)
    requires Schedulable(cal, v, rank, now) && Fixed(cal, v, k, now) && forall p :: p in v.events ==> v.events[p].time.Some?
    ensures var r, after, t := v.events[k].time.value, v.specs[k].after, v.specs[k].time.value;
            && r >= t
            && (forall a, p, u :: Gives(cal, v, after, a, p, u) ==> r >= u)
            && (r == t || exists a, p :: Gives(cal, v, after, a, p, r))
  {
    hide ProbeAll, GetTimeWithOffset;
    var after, t := v.specs[k].after, v.specs[k].time.value;
    AllReached(cal, v, after, t);
    AllIsMax(cal, v, after, t);
  }

  /** Convergence. Whatever the order within them, as many rounds as the graph is deep leave
      every event at the time the schedule gives it, and further syncs change nothing. */
  lemma ScheduleConverges(cal: Calendar, v: View, rank: Name -> nat, rounds: seq<seq<Name>>, now: int)
    requires Schedulable(cal, v, rank, now) && Fair(v, rounds) && forall k :: k in v.events ==> rank(k) < |rounds|
    ensures var w := TouchRounds(cal, v, rounds, now);
            && IsSchedule(cal, v, TimesOf(w))
            && forall k :: Touch(cal, w, k, now) == w
  {
    hide Fixed, ProbeTime, GetTimeWithOffset, TouchAll;
    RoundsFix(cal, v, rank, rounds, now);
    var w := TouchRounds(cal, v, rounds, now);
    assert forall k :: k in w.events ==> Fixed(cal, w, k, now);
    FixedIsSchedule(cal, w, rank, now);
    SameSchedule(cal, v, w, TimesOf(w));
    forall k ensures Touch(cal, w, k, now) == w {
      FixedIsLeft(cal, w, k, now);
    }
  }

  lemma FixedIsLeft(cal: Calendar, w: View, k: Name, now: int)
    requires Feasible(cal.days) && w.Valid() && (k in w.events ==> Fixed(cal, w, k, now))
    ensures Touch(cal, w, k, now) == w
  {
    hide ProbeTime;
    if k in w.events {
      assert w.events[k := w.events[k]] == w.events;
    }
  }

  lemma SameSchedule(cal: Calendar, v: View, w: View, times: map<Name, int>)
    requires Feasible(cal.days) && v.Valid() && w.Valid() && w.specs == v.specs && w.events.Keys == v.events.Keys
    requires IsSchedule(cal, w, times)
    ensures IsSchedule(cal, v, times)
  {
    hide GetTimeWithOffset;
    assert forall k, a, p, t :: Lower(cal, v, times, k, a, p, t) == Lower(cal, w, times, k, a, p, t);
  }

  /** Two fair orders lead to the same times. */
  lemma OrderDoesNotMatter(cal: Calendar, v: View, rank: Name -> nat, x: seq<seq<Name>>, y: seq<seq<Name>>, now: int)
    requires Schedulable(cal, v, rank, now) && Fair(v, x) && Fair(v, y)
    requires forall k :: k in v.events ==> rank(k) < |x| && rank(k) < |y|
    ensures TimesOf(TouchRounds(cal, v, x, now)) == TimesOf(TouchRounds(cal, v, y, now))
  {
    hide TouchRounds, TimesOf, IsSchedule, Touch;
    ScheduleConverges(cal, v, rank, x, now);
    ScheduleConverges(cal, v, rank, y, now);
    var a, b := TimesOf(TouchRounds(cal, v, x, now)), TimesOf(TouchRounds(cal, v, y, now));
    assert a.Keys == v.events.Keys && b.Keys == v.events.Keys by { hide *; ScheduleKeys(cal, v, a); ScheduleKeys(cal, v, b); }
    forall k | k in a ensures a[k] == b[k] {
      ScheduleIsUnique(cal, v, rank, now, a, b, k);
    }
  }

  lemma ScheduleKeys(cal: Calendar, v: View, times: map<Name, int>)
    requires Feasible(cal.days) && v.Valid() && IsSchedule(cal, v, times)
    ensures times.Keys == v.events.Keys
  {
  }
}
