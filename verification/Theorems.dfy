/** What every run of the system shows, with any number of workers, lagging caches, and
    workers stopping between any two writes. */
module Theorems {
  import opened Prelude
  import opened CalendarTypes
  import opened EventSync
  import opened Protocol
  import opened Growth
  import opened Invariant
  import opened Safety
  import opened Exclusion

  /** States i of runs from the empty cluster. */
  ghost predicate History(cal: Calendar, states: seq<System>, actions: seq<Action>) {
    cal.Valid() && cal.HasAlways() && IsRun(cal, states, actions) && Init(states[0])
  }

  // ------------------------------------------------------------------ Tekton runs

  /** One Tekton run at most for an event and a pipeline, rollbacks included, and only under
      the name the event's status records for that pipeline. */
  lemma AtMostOneTektonRun(cal: Calendar, states: seq<System>, actions: seq<Action>, n: nat, a: Name, b: Name)
    requires History(cal, states, actions) && n < |states|
    requires a in states[n].tekton && b in states[n].tekton
    requires states[n].tekton[a].event == states[n].tekton[b].event
    requires states[n].tekton[a].pipeline == states[n].tekton[b].pipeline
    ensures a == b && HasEntry(states[n], states[n].tekton[a].event, a, states[n].tekton[a].pipeline)
  {
    hide Do, Enabled;
    RunInv(cal, states, actions, n);
  }

  /** From any state to any later one: entries keep their names, pipelines and completion, a
      leader is written once, a terminal phase is never left. */
  lemma StatusOnlyGrows(cal: Calendar, states: seq<System>, actions: seq<Action>, m: nat, n: nat, k: Name)
    requires History(cal, states, actions) && m <= n < |states| && k in states[m].events
    ensures k in states[n].events && Older(states[m].events[k], states[n].events[k])
  {
    hide Do, Enabled, Inv;
    RunExtends(cal, states, actions, m, n);
  }

  // ------------------------------------------------------------------ pipeline order

  /** An entry for pipeline j means that every earlier pipeline is completed: in the event's
      own runs, or, for a LeaderOnly pipeline of a follower, in its leader's. */
  lemma PipelinesRunInOrder(cal: Calendar, states: seq<System>, actions: seq<Action>, n: nat, k: Name, j: nat, i: nat)
    requires History(cal, states, actions) && n < |states| && k in states[n].events
    requires i < j < |cal.pipelines| && FirstRun(states[n].events[k].runs, cal.pipelines[j].name).Some?
    ensures var s, st, p := states[n], states[n].events[k], cal.pipelines[i].name;
            || RunStatusOf(st, p) == Some(RunCompleted)
            || (cal.pipelines[i].leaderOnly && st.leader.Some? && st.leader != Some(k) && st.leader.value in s.events
                && RunStatusOf(s.events[st.leader.value], p) == Some(RunCompleted))
  {
    hide Do, Enabled, Inv;
    RunInv(cal, states, actions, n);
    InvGood(cal, states[n], k);
    assert PassedUpTo(cal, states[n], k, states[n].events[k], j);
    assert Passed(cal, states[n], k, states[n].events[k], i);
  }

  /** A completed event has completed every Always pipeline, and a leader every pipeline; it
      stays so for ever. */
  lemma CompletedMeansCompleted(cal: Calendar, states: seq<System>, actions: seq<Action>, m: nat, n: nat, k: Name, i: nat)
    requires History(cal, states, actions) && m <= n < |states| && k in states[m].events && i < |cal.pipelines|
    requires states[m].events[k].phase.Completed?
    requires !cal.pipelines[i].leaderOnly || states[m].events[k].leader == Some(k)
    ensures k in states[n].events && RunStatusOf(states[n].events[k], cal.pipelines[i].name) == Some(RunCompleted)
    ensures Terminal(states[n].events[k].phase)
  {
    hide Do, Enabled, Inv;
    RunInv(cal, states, actions, m);
    InvGood(cal, states[m], k);
    assert Finished(cal, k, states[m].events[k]);
    RunExtends(cal, states, actions, m, n);
    CompletionGrows(states[m].events[k], states[n].events[k], cal.pipelines[i].name);
  }

  /** A completed entry is true: Tekton did complete the run of that name. */
  lemma CompletedEntryIsTrue(cal: Calendar, states: seq<System>, actions: seq<Action>, n: nat, k: Name, x: nat)
    requires History(cal, states, actions) && n < |states| && k in states[n].events && x < |states[n].events[k].runs|
    requires states[n].events[k].runs[x].status.RunCompleted?
    ensures var name := states[n].events[k].runs[x].name;
            && name in states[n].tekton && states[n].tekton[name].status.RunCompleted?
  {
    hide Do, Enabled;
    RunInv(cal, states, actions, n);
    InvGood(cal, states[n], k);
    assert EntryTrue(states[n], states[n].events[k].runs[x]);
  }

  /** A Failed event has an entry of a pipeline of the calendar whose Tekton run failed, a Cancelled
      one an entry whose Tekton run was cancelled. */
  lemma BadPhaseIsTrue(cal: Calendar, states: seq<System>, actions: seq<Action>, n: nat, k: Name)
    requires History(cal, states, actions) && n < |states| && k in states[n].events
    requires states[n].events[k].phase.Failed? || states[n].events[k].phase.Cancelled?
    ensures var s, st := states[n], states[n].events[k];
            exists x, j :: 0 <= x < |st.runs| && 0 <= j < |cal.pipelines| && st.runs[x].pipeline == cal.pipelines[j].name
              && st.runs[x].name in s.tekton
              && s.tekton[st.runs[x].name].status == if st.phase.Failed? then RunFailed else RunCancelled
  {
    hide Do, Enabled, Inv;
    var s, st := states[n], states[n].events[k];
    RunInv(cal, states, actions, n);
    InvGood(cal, s, k);
    InvDomains(cal, s);
    assert PhaseTrue(cal, s, k, st);
    var x, j :| EndedBadly(cal, s, st, x, j, st.phase);
    assert st.runs[x].name in s.tekton;
  }

  // ------------------------------------------------------------------ events of one title

  lemma {:induction false} RunNames(cal: Calendar, states: seq<System>, actions: seq<Action>, n: nat)
    requires History(cal, states, actions) && n < |states|
    ensures Inv(cal, states[n]) && NameInv(states[n])
  {
    hide Do, Enabled, Inv;
    RunInv(cal, states, actions, n);
    if n > 0 {
      RunNames(cal, states, actions, n - 1);
      StepNames(cal, states[n - 1], actions[n - 1]);
    }
  }

  ghost predicate UnderWay(s: System, k: Name) {
    k in s.events && k in s.alive && s.events[k].runs != [] && !Terminal(s.events[k].phase)
  }

  /** Of all existing events of one title at most one has runs and is not over, and it holds
      the lease of the title. */
  lemma SameTitleExclusion(cal: Calendar, states: seq<System>, actions: seq<Action>, n: nat, a: Name, b: Name)
    requires History(cal, states, actions) && n < |states|
    requires UnderWay(states[n], a) && UnderWay(states[n], b)
    requires a in states[n].specs && b in states[n].specs && states[n].specs[a].title == states[n].specs[b].title
    ensures a == b && Holds(states[n], a)
  {
    hide Do, Enabled;
    RunNames(cal, states, actions, n);
  }

  /** The lease of a title passes on only after its holder is over or gone, and never to an
      event created before the holder. */
  lemma SuccessorIsYounger(cal: Calendar, states: seq<System>, actions: seq<Action>, n: nat, title: string)
    requires History(cal, states, actions) && n + 1 < |states|
    requires NameLease(title) in states[n].leases && NameLease(title) in states[n + 1].leases
    requires states[n].leases[NameLease(title)] != states[n + 1].leases[NameLease(title)]
    ensures var s, a, b := states[n], states[n].leases[NameLease(title)], states[n + 1].leases[NameLease(title)];
            && a in s.specs && b in s.specs && s.specs[a].created <= s.specs[b].created
            && (a in s.alive ==> a in s.events && Terminal(s.events[a].phase))
  {
    hide Inv, Do, Enabled;
    RunInv(cal, states, actions, n);
    OnlyCommitsMove(cal, states[n], actions[n], NameLease(title));
    HeadJustified(cal, states[n], actions[n].key);
    InvDomains(cal, states[n]);
  }

  lemma OnlyCommitsMove(cal: Calendar, s: System, a: Action, key: LeaseKey)
    requires cal.Valid() && Enabled(cal, s, a) && key in s.leases
    ensures var t := Do(cal, s, a);
            key in t.leases && t.leases[key] != s.leases[key] ==>
              && a.Commit? && a.key in s.inflight && s.inflight[a.key] != []
              && Accepts(s, s.inflight[a.key][0]) && t.leases == Apply(s, s.inflight[a.key][0]).leases
  {
    hide Plan, Accepts, Apply;
  }

  lemma WriteKeepsTitle(cal: Calendar, s: System, k: Name, w: Write, title: string)
    requires k in s.specs && Justified(cal, s, k, w) && Accepts(s, w) && NameLease(title) in s.leases
    ensures NameLease(title) in Apply(s, w).leases
  {
    hide GoodStatus, HasEntry;
  }

  /** The lease of a title is never deleted, only collected once its holder is gone. */
  lemma TitleIsCollected(cal: Calendar, s: System, a: Action, title: string)
    requires cal.Valid() && Inv(cal, s) && Enabled(cal, s, a)
    requires NameLease(title) in s.leases && NameLease(title) !in Do(cal, s, a).leases
    ensures a == Collect(NameLease(title)) && s.leases[NameLease(title)] !in s.alive
  {
    hide Inv, Plan, Accepts, Apply, Justified, SetRun, Cancellable, ViewOf;
    if a.Commit? {
      hide *;
      CommitKeepsTitle(cal, s, a.key, title);
    }
  }

  lemma CommitKeepsTitle(cal: Calendar, s: System, k: Name, title: string)
    requires cal.Valid() && Inv(cal, s) && Enabled(cal, s, Commit(k)) && NameLease(title) in s.leases
    ensures NameLease(title) in Do(cal, s, Commit(k)).leases
  {
    hide Inv, Plan, Accepts, Apply, Justified, ViewOf;
    if Accepts(s, s.inflight[k][0]) {
      HeadJustified(cal, s, k);
      WriteKeepsTitle(cal, s, k, s.inflight[k][0], title);
    }
  }

  lemma HolderIsKnown(cal: Calendar, s: System, title: string)
    requires Inv(cal, s) && NameLease(title) in s.leases
    ensures s.leases[NameLease(title)] in s.specs
  {
    hide GoodStatus, Justified;
    assert LeaseFits(s, NameLease(title), s.leases[NameLease(title)]);
  }

  /** While the lease of a title is not collected its holders, one after another, are created one
      after another: over any stretch of a run the last holder is not older than the first. */
  lemma {:induction false} HoldersGetYounger(cal: Calendar, states: seq<System>, actions: seq<Action>, m: nat, n: nat, title: string)
    requires History(cal, states, actions) && m <= n < |states|
    requires forall i :: m <= i <= n ==> NameLease(title) in states[i].leases
    ensures var a, b := states[m].leases[NameLease(title)], states[n].leases[NameLease(title)];
            && a in states[m].specs && a in states[n].specs && b in states[n].specs
            && states[n].specs[a].created <= states[n].specs[b].created
    decreases n
  {
    hide Inv, Do, Enabled;
    RunInv(cal, states, actions, n);
    HolderIsKnown(cal, states[n], title);
    if m < n {
      HoldersGetYounger(cal, states, actions, m, n - 1, title);
      RunExtends(cal, states, actions, n - 1, n);
      if states[n - 1].leases[NameLease(title)] != states[n].leases[NameLease(title)] {
        SuccessorIsYounger(cal, states, actions, n - 1, title);
      }
    }
  }

  /** The order breaks only where the lease was collected in between, after its holder was gone. */
  lemma OlderHolderFollowsCollection(cal: Calendar, states: seq<System>, actions: seq<Action>, m: nat, n: nat, title: string) returns (i: nat)
    requires History(cal, states, actions) && m <= n < |states|
    requires NameLease(title) in states[m].leases && NameLease(title) in states[n].leases
    requires var a, b := states[m].leases[NameLease(title)], states[n].leases[NameLease(title)];
             a in states[n].specs && b in states[n].specs && states[n].specs[b].created < states[n].specs[a].created
    ensures m <= i < n && actions[i] == Collect(NameLease(title))
    ensures NameLease(title) in states[i].leases && states[i].leases[NameLease(title)] !in states[i].alive
  {
    hide Inv, Do, Enabled;
    if forall i :: m <= i <= n ==> NameLease(title) in states[i].leases {
      HoldersGetYounger(cal, states, actions, m, n, title);
    }
    i := m;
    while NameLease(title) in states[i + 1].leases
      invariant m <= i < n && forall j :: m <= j <= i ==> NameLease(title) in states[j].leases
      decreases n - i
    {
      i := i + 1;
      if i == n {
        assert forall j :: m <= j <= n ==> NameLease(title) in states[j].leases;
      }
    }
    RunInv(cal, states, actions, i);
    TitleIsCollected(cal, states[i], actions[i], title);
  }

  /** An event the controller deletes for being older than the holder never had a run. */
  lemma DeletedEventNeverRan(cal: Calendar, states: seq<System>, actions: seq<Action>, n: nat, k: Name)
    requires History(cal, states, actions) && n < |actions|
    requires actions[n] == Commit(k) && states[n].inflight[k][0].DeleteEvent? && k in states[n].alive
    ensures k in states[n].events && states[n].events[k].runs == []
    ensures forall t :: t in states[n].tekton ==> states[n].tekton[t].event != k
  {
    hide Do, GoodStatus, Justified;
    var s := states[n];
    RunNames(cal, states, actions, n);
    assert PlanClaims(s, k, s.inflight[k]);
    assert s.inflight[k][0] in s.inflight[k];
    forall t | t in s.tekton ensures s.tekton[t].event != k {
      assert HasEntry(s, s.tekton[t].event, t, s.tekton[t].pipeline);
    }
  }
}
