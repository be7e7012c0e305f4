/** What runAfter means, event by event and entry by entry: whom an event waits for before it runs a
    pipeline, and for what. */
module RunAfter {
  import opened Prelude
  import opened CalendarTypes
  import opened EventSync
  import opened Segments

  // ------------------------------------------------------------------ entries

  /** The first entry of a pipeline has this status. */
  ghost predicate EntryIs(runs: seq<Run>, pipeline: string, status: RunStatus) {
    exists x :: 0 <= x < |runs| && runs[x].pipeline == pipeline && runs[x].status == status
      && forall y :: 0 <= y < x ==> runs[y].pipeline != pipeline
  }

  lemma EntryMeans(st: Status, pipeline: string, status: RunStatus)
    ensures RunStatusOf(st, pipeline) == Some(status) <==> EntryIs(st.runs, pipeline, status)
  {
    var first := FirstRun(st.runs, pipeline);
    if x :| 0 <= x < |st.runs| && st.runs[x].pipeline == pipeline && forall y :: 0 <= y < x ==> st.runs[y].pipeline != pipeline {
      assert first.Some? && !(first.value < x) && !(x < first.value);
    }
  }

  /** Nothing in particular asked for: the whole event. */
  ghost predicate Finished(ev: Status, pipeline: string) {
    if pipeline == "" then ev.phase.Completed? else EntryIs(ev.runs, pipeline, RunCompleted)
  }

  // ------------------------------------------------------------------ the latest of a title

  ghost predicate Timed(v: View, e: Name, title: string) {
    e in v.specs && e in v.events && v.specs[e].title == title && v.events[e].time.Some?
  }

  /** Position p holds the first of the latest events of a title. */
  ghost predicate LatestAt(v: View, xs: seq<Name>, title: string, p: int) {
    && 0 <= p < |xs| && Timed(v, xs[p], title)
    && forall q :: 0 <= q < |xs| && Timed(v, xs[q], title) ==>
         || v.events[xs[q]].time.value < v.events[xs[p]].time.value
         || (v.events[xs[q]].time.value == v.events[xs[p]].time.value && p <= q)
  }

  lemma {:induction false} LatestMeans(v: View, xs: seq<Name>, title: string)
    requires forall k :: k in xs ==> k in v.specs && k in v.events
    ensures Latest(v, xs, title).None? ==> forall q :: 0 <= q < |xs| ==> !Timed(v, xs[q], title)
    ensures Latest(v, xs, title).Some? ==> exists p :: LatestAt(v, xs, title, p) && xs[p] == Latest(v, xs, title).value
    decreases |xs|
  {
    if xs != [] {
      var n := |xs| - 1;
      var before, best := xs[..n], Latest(v, xs[..n], title);
      LatestMeans(v, before, title);
      if best.None? {
        if Timed(v, xs[n], title) {
          assert LatestAt(v, xs, title, n);
        }
      } else {
        var p :| LatestAt(v, before, title, p) && before[p] == best.value;
        assert Timed(v, before[p], title);
        if Timed(v, xs[n], title) && v.events[xs[n]].time.value > v.events[best.value].time.value {
          NewLatest(v, xs, title, p);
        } else {
          OldLatest(v, xs, title, p);
        }
      }
    }
  }

  lemma NewLatest(v: View, xs: seq<Name>, title: string, p: int)
    requires xs != [] && LatestAt(v, xs[..|xs| - 1], title, p) && Timed(v, xs[|xs| - 1], title)
    requires v.events[xs[|xs| - 1]].time.value > v.events[xs[p]].time.value
    ensures LatestAt(v, xs, title, |xs| - 1)
  {
    var before := xs[..|xs| - 1];
    assert forall q :: 0 <= q < |before| ==> xs[q] == before[q];
  }

  lemma OldLatest(v: View, xs: seq<Name>, title: string, p: int)
    requires xs != [] && LatestAt(v, xs[..|xs| - 1], title, p)
    requires Timed(v, xs[|xs| - 1], title) ==> v.events[xs[|xs| - 1]].time.value <= v.events[xs[p]].time.value
    ensures LatestAt(v, xs, title, p)
  {
    var before := xs[..|xs| - 1];
    assert forall q :: 0 <= q < |before| ==> xs[q] == before[q];
  }

  lemma {:induction false} ByTitleLast(v: View, xs: seq<Name>, titles: set<string>)
    requires xs != [] && forall k :: k in xs ==> k in v.specs
    ensures var n := |xs| - 1;
            ByTitle(v, xs, titles) == ByTitle(v, xs[..n], titles) + (if v.specs[xs[n]].title in titles then [xs[n]] else [])
    decreases |xs|
  {
    var n := |xs| - 1;
    if n > 0 {
      ByTitleLast(v, xs[1..], titles);
      assert xs[1..][..n - 1] == xs[..n][1..];
    }
  }

  /** Other titles do not matter to the latest of a title. */
  lemma {:induction false} LatestOfAll(v: View, xs: seq<Name>, titles: set<string>, title: string)
    requires (forall k :: k in xs ==> k in v.specs && k in v.events) && title in titles
    ensures Latest(v, ByTitle(v, xs, titles), title) == Latest(v, xs, title)
    decreases |xs|
  {
    if xs != [] {
      var n := |xs| - 1;
      LatestOfAll(v, xs[..n], titles, title);
      ByTitleLast(v, xs, titles);
      var ys := ByTitle(v, xs, titles);
      if v.specs[xs[n]].title in titles {
        assert ys[..|ys| - 1] == ByTitle(v, xs[..n], titles) && ys[|ys| - 1] == xs[n];
      } else {
        assert ys == ByTitle(v, xs[..n], titles);
      }
    }
  }

  /** e has no time yet, or is the first listed of the latest events of its title. */
  ghost predicate Counts(v: View, e: Name)
    requires v.Valid() && e in v.events
  {
    v.events[e].time.None? || exists p :: LatestAt(v, v.order, v.specs[e].title, p) && v.order[p] == e
  }

  lemma KeptMeans(v: View, titles: set<string>, e: Name)
    requires v.Valid() && e in v.events && v.specs[e].title in titles
    ensures e in ByTitle(v, v.order, titles) && (Kept(v, ByTitle(v, v.order, titles), e) <==> Counts(v, e))
  {
    var title := v.specs[e].title;
    LatestOfAll(v, v.order, titles, title);
    LatestMeans(v, v.order, title);
    if p :| LatestAt(v, v.order, title, p) && v.order[p] == e {
      var q :| LatestAt(v, v.order, title, q) && v.order[q] == Latest(v, v.order, title).value;
      assert Timed(v, v.order[p], title) && Timed(v, v.order[q], title);
    }
  }

  // ------------------------------------------------------------------ what is asked for

  /** The last runAfter entry for a title is the one that counts. */
  ghost predicate AskedAt(after: seq<RunAfter>, title: string, pipeline: string, j: int) {
    && 0 <= j < |after| && after[j].title == title && after[j].pipeline == pipeline
    && forall l :: j < l < |after| ==> after[l].title != title
  }

  ghost predicate AsksFor(after: seq<RunAfter>, title: string, pipeline: string) {
    exists j :: AskedAt(after, title, pipeline, j)
  }

  lemma AskedBefore(after: seq<RunAfter>, title: string, pipeline: string, j: int)
    requires after != [] && after[|after| - 1].title != title
    ensures AskedAt(after, title, pipeline, j) <==> AskedAt(after[..|after| - 1], title, pipeline, j)
  {
    var n := |after| - 1;
    assert forall l :: 0 <= l < n ==> after[..n][l] == after[l];
  }

  lemma {:induction false} AfterPipelineMeans(after: seq<RunAfter>, title: string, pipeline: string)
    requires title in Titles(after)
    ensures AsksFor(after, title, pipeline) <==> AfterPipeline(after, title) == pipeline
    decreases |after|
  {
    var n := |after| - 1;
    if after[n].title == title {
      assert AskedAt(after, title, after[n].pipeline, n);
    } else {
      var a :| a in after && a.title == title;
      assert a in after[..n];
      AfterPipelineMeans(after[..n], title, pipeline);
      hide AskedAt;
      forall j ensures AskedAt(after, title, pipeline, j) <==> AskedAt(after[..n], title, pipeline, j) {
        AskedBefore(after, title, pipeline, j);
      }
    }
  }

  /** w is where a name stands among the pipelines; a name that is none of theirs counts as the first. */
  ghost predicate StandsFor(pipelines: seq<Pipeline>, name: string, w: int) {
    || (0 <= w < |pipelines| && pipelines[w].name == name)
    || (w == 0 && forall j :: 0 <= j < |pipelines| ==> pipelines[j].name != name)
  }

  lemma IndexMeans(cal: Calendar, name: string, w: int)
    requires cal.Valid()
    ensures StandsFor(cal.pipelines, name, w) <==> IndexOf(cal.pipelines, name) == w
  {
    if i :| 0 <= i < |cal.pipelines| && cal.pipelines[i].name == name {
      IndexOfName(cal.pipelines, i);
    } else {
      UnknownName(cal.pipelines, name);
    }
  }

  /** Before pipeline i of k, event e has come to what k asks of it. Apart from the cohort that is the
      pipeline named, or the whole event; within the cohort it is the end of the segment that holds
      i, or the pipeline named if it lies in that segment; and of a follower nothing where only the
      leader runs i. */
  ghost predicate HasCome(cal: Calendar, v: View, k: Name, i: nat, e: Name)
    requires v.Valid() && k in v.events && e in v.events && i < |cal.pipelines|
  {
    var ev, st := v.events[e], v.events[k];
    forall want :: AsksFor(v.specs[k].after, v.specs[e].title, want) ==>
      if ev.leader.None? || ev.leader != st.leader then Finished(ev, want)
      else if cal.pipelines[i].leaderOnly && ev.leader != Some(e) then true
      else
        forall b, t, w :: IsSegment(cal.pipelines, b, t) && b <= i <= t && StandsFor(cal.pipelines, want, w) ==>
          EntryIs(ev.runs, if want == "" || w < b || t < w then cal.pipelines[t].name else want, RunCompleted)
  }

  lemma DoneMeans(cal: Calendar, v: View, k: Name, i: nat, e: Name)
    requires cal.Valid() && v.Valid() && k in v.events && e in v.events && i < |cal.pipelines|
    requires v.specs[e].title in Titles(v.specs[k].after)
    ensures PredecessorDone(cal, v, k, v.events[k], i, e) <==> HasCome(cal, v, k, i, e)
  {
    var ev, want := v.events[e], AfterPipeline(v.specs[k].after, v.specs[e].title);
    AfterPipelineMeans(v.specs[k].after, v.specs[e].title, want);
    var b, t, w := SegmentBegin(cal.pipelines, i), SegmentEnd(cal.pipelines, i), IndexOf(cal.pipelines, want);
    SegmentIsMaximal(cal.pipelines, i, b, t);
    IndexMeans(cal, want, w);
    EntryMeans(ev, want, RunCompleted);
    EntryMeans(ev, WithinSegment(cal.pipelines, i, want), RunCompleted);
    forall other | AsksFor(v.specs[k].after, v.specs[e].title, other) ensures other == want {
      AfterPipelineMeans(v.specs[k].after, v.specs[e].title, other);
    }
    forall b', t', w' | IsSegment(cal.pipelines, b', t') && b' <= i <= t' && StandsFor(cal.pipelines, want, w')
      ensures b' == b && t' == t && w' == w
    {
      SegmentIsMaximal(cal.pipelines, i, b', t');
      IndexMeans(cal, want, w');
    }
  }

  /** Pipeline i of k need not wait for anyone, exactly if every listed event of a title asked for that
      counts for its title has come to what is asked of it. */
  lemma AfterDoneMeans(cal: Calendar, v: View, k: Name, i: nat)
    requires cal.Valid() && v.Valid() && k in v.events && i < |cal.pipelines|
    ensures AfterDone(cal, v, k, v.events[k], i) <==>
              forall e :: e in v.events && v.specs[e].title in Titles(v.specs[k].after) && Counts(v, e) ==> HasCome(cal, v, k, i, e)
  {
    hide Kept, Counts, PredecessorDone, HasCome, Latest;
    var titles := Titles(v.specs[k].after);
    var xs := ByTitle(v, v.order, titles);
    forall e | e in v.events && v.specs[e].title in titles
      ensures e in xs && (Kept(v, xs, e) <==> Counts(v, e)) && (PredecessorDone(cal, v, k, v.events[k], i, e) <==> HasCome(cal, v, k, i, e))
    {
      KeptMeans(v, titles, e);
      DoneMeans(cal, v, k, i, e);
    }
  }
}
