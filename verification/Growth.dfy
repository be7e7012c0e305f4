/** How the cluster can change: the facts that, once true, stay true. */
module Growth {
  import opened Prelude
  import opened CalendarTypes
  import opened Protocol

  // ------------------------------------------------------------------ one status

  ghost predicate RunsGrow(a: seq<Run>, b: seq<Run>) {
    && |a| <= |b|
    && forall x :: 0 <= x < |a| ==>
         && a[x].name == b[x].name && a[x].pipeline == b[x].pipeline
         && (a[x].status.RunCompleted? ==> b[x].status.RunCompleted?)
         && (IsSettled(a[x].status) ==> IsSettled(b[x].status))
  }

  /** Entries keep name and pipeline, a completed one stays completed and a settled one
      settled, a leader is never changed, a time never lost, a terminal phase never left. */
  ghost predicate Grows(a: Status, b: Status) {
    && RunsGrow(a.runs, b.runs)
    && (a.leader.Some? ==> b.leader == a.leader)
    && (a.time.Some? ==> b.time.Some?)
    && (Terminal(a.phase) ==> Terminal(b.phase))
  }

  /** a is an earlier version of b. */
  ghost predicate Older(a: Status, b: Status) {
    a.rv <= b.rv && (a.rv == b.rv ==> a == b) && Grows(a, b)
  }

  lemma OlderIsTransitive(a: Status, b: Status, c: Status)
    requires Older(a, b) && Older(b, c)
    ensures Older(a, c)
  {
  }

  ghost predicate RunOlder(a: TektonRun, b: TektonRun) {
    && a.event == b.event && a.pipeline == b.pipeline && a.followers == b.followers
    && (Ended(a.status) ==> b.status == a.status)
  }

  /** The first entry of a pipeline stays the first, and what it has come to is kept. */
  lemma CompletionGrows(a: Status, b: Status, pipeline: string)
    requires RunsGrow(a.runs, b.runs)
    ensures FirstRun(a.runs, pipeline).Some? ==> FirstRun(b.runs, pipeline) == FirstRun(a.runs, pipeline)
    ensures RunStatusOf(a, pipeline) == Some(RunCompleted) ==> RunStatusOf(b, pipeline) == Some(RunCompleted)
    ensures Settled(RunStatusOf(a, pipeline)) ==> Settled(RunStatusOf(b, pipeline))
  {
    var fa, fb := FirstRun(a.runs, pipeline), FirstRun(b.runs, pipeline);
    if fa.Some? {
      assert b.runs[fa.value].pipeline == pipeline;
      assert fb.Some?;
      assert forall x :: 0 <= x < fa.value ==> b.runs[x].pipeline != pipeline;
    }
  }

  // ------------------------------------------------------------------ the system

  ghost predicate Extends(s: System, t: System) {
    && (forall k :: k in s.specs ==> k in t.specs && t.specs[k] == s.specs[k])
    && (forall k :: k in s.events ==> k in t.events && Older(s.events[k], t.events[k]))
    && (forall k :: k in s.specs && k in t.alive ==> k in s.alive)
    && (forall k :: k in s.cache && k in t.alive ==> k in t.cache && Older(s.cache[k], t.cache[k]))
    && (forall n :: n in s.tekton ==> n in t.tekton && RunOlder(s.tekton[n], t.tekton[n]))
    && (forall n :: n in s.seen ==> n in t.seen && RunOlder(s.seen[n], t.seen[n]))
    && (forall n :: n in s.owner ==> n in t.owner && t.owner[n] == s.owner[n])
  }
}
