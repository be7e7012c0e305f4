/** What a sync makes of time and phase before it looks at any pipeline, event by event and entry by
    entry. */
module Probes {
  import opened Prelude
  import opened CalendarDays
  import opened CalendarTypes
  import opened EventSync
  import opened Schedule

  // ------------------------------------------------------------------ the time

  /** p is a listed event that runAfter entry a of k names. */
  ghost predicate Precedes(v: View, k: Name, a: RunAfter, p: Name) {
    k in v.specs && p in v.specs && a in v.specs[k].after && p in v.events && v.specs[p].title == a.title
  }

  ghost predicate HasNoTime(v: View, p: Name) {
    p in v.events && v.events[p].time.None?
  }

  /** The time p has, with the offset asked for, in the calendar's zone. */
  ghost predicate TimeFrom(cal: Calendar, v: View, a: RunAfter, p: Name, t: int)
    requires Feasible(cal.days)
  {
    p in v.events && v.events[p].time.Some? && GetTimeWithOffset(v.events[p].time.value, a.offset, cal.zone, cal.days) == Ok(t)
  }

  ghost predicate BadFrom(cal: Calendar, v: View, a: RunAfter, p: Name)
    requires Feasible(cal.days)
  {
    p in v.events && v.events[p].time.Some? && GetTimeWithOffset(v.events[p].time.value, a.offset, cal.zone, cal.days).Err?
  }

  /** The latest of t and what the predecessors give. */
  ghost predicate IsLatest(cal: Calendar, v: View, k: Name, t: int, latest: int)
    requires Feasible(cal.days)
  {
    && t <= latest
    && (forall a, p, u :: Precedes(v, k, a, p) && TimeFrom(cal, v, a, p, u) ==> u <= latest)
    && (latest == t || exists a, p :: Precedes(v, k, a, p) && TimeFrom(cal, v, a, p, latest))
  }

  lemma {:induction false} OneStops(cal: Calendar, v: View, xs: seq<Name>, offset: Offset, t: int)
    requires Feasible(cal.days) && forall k :: k in xs ==> k in v.events
    ensures var r := ProbeOne(cal, v, xs, offset, t);
            && (r.NotYet? ==> exists p :: p in xs && v.events[p].time.None?)
            && (r.Bad? ==>
                 exists p :: p in xs && v.events[p].time.Some? && GetTimeWithOffset(v.events[p].time.value, offset, cal.zone, cal.days).Err?)
            && (r.Reached? ==>
                 forall p :: p in xs ==> v.events[p].time.Some? && GetTimeWithOffset(v.events[p].time.value, offset, cal.zone, cal.days).Ok?)
    decreases |xs|
  {
    hide GetTimeWithOffset;
    if xs != [] && v.events[xs[0]].time.Some? {
      var when := GetTimeWithOffset(v.events[xs[0]].time.value, offset, cal.zone, cal.days);
      if when.Ok? {
        OneStops(cal, v, xs[1..], offset, if when.value > t then when.value else t);
        assert forall p :: p in xs ==> p == xs[0] || p in xs[1..];
      }
    }
  }

  /** Why a probe over the entries of runAfter stops, if it does. */
  lemma {:induction false} AllStops(cal: Calendar, v: View, k: Name, after: seq<RunAfter>, t: int)
    requires Feasible(cal.days) && v.Valid() && k in v.events && forall a :: a in after ==> a in v.specs[k].after
    ensures var r := ProbeAll(cal, v, after, t);
            && (r.NotYet? ==> exists a, p :: Precedes(v, k, a, p) && HasNoTime(v, p))
            && (r.Bad? ==> exists a, p :: Precedes(v, k, a, p) && BadFrom(cal, v, a, p))
    decreases |after|
  {
    hide ProbeOne, GetTimeWithOffset;
    if after != [] {
      var a, xs := after[0], ByTitle(v, v.order, {after[0].title});
      OneStops(cal, v, xs, a.offset, t);
      match ProbeOne(cal, v, xs, a.offset, t)
      case NotYet =>
        var p :| p in xs && v.events[p].time.None?;
        assert Precedes(v, k, a, p) && HasNoTime(v, p);
      case Bad =>
        var p :| p in xs && v.events[p].time.Some? && GetTimeWithOffset(v.events[p].time.value, a.offset, cal.zone, cal.days).Err?;
        assert Precedes(v, k, a, p) && BadFrom(cal, v, a, p);
      case Reached(t') => AllStops(cal, v, k, after[1..], t');
    }
  }

  lemma {:induction false} NothingStops(cal: Calendar, v: View, k: Name, after: seq<RunAfter>, t: int, a: RunAfter, p: Name)
    requires Feasible(cal.days) && v.Valid() && ProbeAll(cal, v, after, t).Reached?
    requires Precedes(v, k, a, p) && a in after
    ensures !HasNoTime(v, p) && !BadFrom(cal, v, a, p)
    decreases |after|
  {
    hide ProbeOne, GetTimeWithOffset;
    var xs := ByTitle(v, v.order, {after[0].title});
    if a == after[0] {
      assert p in xs;
      OneStops(cal, v, xs, a.offset, t);
    } else {
      NothingStops(cal, v, k, after[1..], ProbeOne(cal, v, xs, after[0].offset, t).time, a, p);
    }
  }

  /** The time an event has without its predecessors. */
  function OwnTime(spec: Spec, st: Status, now: int): int {
    match spec.time
    case Some(t) => t
    case None => if st.time.Some? then st.time.value else now
  }

  /** The time of an event that has started is its own. Before, nothing happens in the first 15 seconds if
      there is someone to run after; then the time is the latest of its own and what the
      predecessors give, provided that they all have one. */
  lemma TimeMeans(cal: Calendar, v: View, k: Name, now: int)
    requires Feasible(cal.days) && v.Valid() && k in v.events
    ensures var st, spec, r := v.events[k], v.specs[k], ProbeTime(cal, v, k, v.events[k], now);
            var own := OwnTime(spec, st, now);
            if !st.phase.Unset? && !st.phase.Pending? then r == Ok(st.(time := Some(own)))
            else if spec.after != [] && now < spec.created + 15 * SECOND then r == Ok(st)
            else
              && (r.Err? ==> exists a, p :: Precedes(v, k, a, p) && BadFrom(cal, v, a, p))
              && (r.Ok? ==>
                   || (r.value == st && exists a, p :: Precedes(v, k, a, p) && HasNoTime(v, p))
                   || (exists t :: IsLatest(cal, v, k, own, t) && r.value == st.(time := Some(t))
                        && forall a, p :: Precedes(v, k, a, p) ==> !HasNoTime(v, p) && !BadFrom(cal, v, a, p)))
  {
    hide ProbeAll, GetTimeWithOffset;
    var st, spec := v.events[k], v.specs[k];
    var own := OwnTime(spec, st, now);
    AllStops(cal, v, k, spec.after, own);
    var r := ProbeAll(cal, v, spec.after, own);
    if r.Reached? {
      LatestIsProbed(cal, v, k, own);
      forall a, p | Precedes(v, k, a, p) ensures !HasNoTime(v, p) && !BadFrom(cal, v, a, p) {
        NothingStops(cal, v, k, spec.after, own, a, p);
      }
    }
  }

  lemma LatestIsProbed(cal: Calendar, v: View, k: Name, own: int)
    requires Feasible(cal.days) && v.Valid() && k in v.events && ProbeAll(cal, v, v.specs[k].after, own).Reached?
    ensures IsLatest(cal, v, k, own, ProbeAll(cal, v, v.specs[k].after, own).time)
  {
    hide ProbeAll, GetTimeWithOffset;
    var after := v.specs[k].after;
    var t := ProbeAll(cal, v, after, own).time;
    AllIsMax(cal, v, after, own);
    forall a, p, u | Precedes(v, k, a, p) && TimeFrom(cal, v, a, p, u) ensures u <= t {
      assert Gives(cal, v, after, a, p, u);
    }
    if t != own {
      var a, p :| Gives(cal, v, after, a, p, t);
      assert Precedes(v, k, a, p) && TimeFrom(cal, v, a, p, t);
    }
  }

  // ------------------------------------------------------------------ the phase

  /** The last entry of a pipeline has completed. */
  ghost predicate LastEntryCompleted(runs: seq<Run>, pipeline: string) {
    exists x :: 0 <= x < |runs| && runs[x].pipeline == pipeline && runs[x].status.RunCompleted?
      && forall y :: x < y < |runs| ==> runs[y].pipeline != pipeline
  }

  lemma {:induction false} LastCompletedMeans(runs: seq<Run>, pipeline: string)
    ensures LastCompleted(runs, pipeline) <==> LastEntryCompleted(runs, pipeline)
    decreases |runs|
  {
    if runs != [] {
      var n := |runs| - 1;
      LastCompletedMeans(runs[..n], pipeline);
      if runs[n].pipeline != pipeline && LastEntryCompleted(runs[..n], pipeline) {
        var x :| 0 <= x < n && runs[..n][x].pipeline == pipeline && runs[..n][x].status.RunCompleted?
          && forall y :: x < y < n ==> runs[..n][y].pipeline != pipeline;
        assert forall y :: x < y < n ==> runs[y] == runs[..n][y];
      }
      if runs[n].pipeline != pipeline && LastEntryCompleted(runs, pipeline) {
        var x :| 0 <= x < |runs| && runs[x].pipeline == pipeline && runs[x].status.RunCompleted?
          && forall y :: x < y < |runs| ==> runs[y].pipeline != pipeline;
        assert runs[..n][x] == runs[x] && forall y :: x < y < n ==> runs[..n][y] == runs[y];
      }
    }
  }

  /** An event without entries is Pending, whatever it was. A follower whose last entries of all Always
      pipelines have completed is Completed. Otherwise the phase stays; nothing else changes. */
  lemma PhaseMeans(cal: Calendar, k: Name, st: Status)
    ensures var through := st.leader.Some? && st.leader != Some(k)
              && forall j :: 0 <= j < |cal.pipelines| && !cal.pipelines[j].leaderOnly ==> LastEntryCompleted(st.runs, cal.pipelines[j].name);
            ProbePhase(cal, k, st) == st.(phase := if st.runs == [] then Pending else if through then Completed else st.phase)
  {
    hide LastCompleted, LastEntryCompleted;
    forall j | 0 <= j < |cal.pipelines|
      ensures LastCompleted(st.runs, cal.pipelines[j].name) == LastEntryCompleted(st.runs, cal.pipelines[j].name)
    {
      LastCompletedMeans(st.runs, cal.pipelines[j].name);
    }
  }

  // ------------------------------------------------------------------ what the sync writes of it

  /** A sync that finds another time or phase writes these and nothing more; one that cannot tell the time
      writes nothing and comes again. */
  lemma ProbesAreWritten(cal: Calendar, v: View, k: Name, now: int, paused: bool, gen: Name)
    requires Feasible(cal.days) && v.Valid() && k in v.events
    ensures var st, writes, probe := v.events[k], Plan(cal, v, k, now, paused, gen), ProbeTime(cal, v, k, v.events[k], now);
            && (probe.Err? ==> writes == [] && Returns(cal, v, k, now, paused, gen))
            && (probe.Ok? ==>
                 var probed := ProbePhase(cal, k, probe.value);
                 && (probed != st ==> writes == [UpdateStatus(k, probed)] && !Returns(cal, v, k, now, paused, gen))
                 && (probed == st && st.time.None? ==> writes == [] && Returns(cal, v, k, now, paused, gen)))
  {
    hide ProbeTime, ProbePhase, RunFrom, AcquireLease;
  }
}
