/** Groups on a cluster: who leads whom, who holds the lease of a group, and what one action can
    change of that. */
module Groups {
  import opened Prelude
  import opened CalendarTypes
  import opened EventSync
  import opened Protocol
  import opened Growth
  import opened Invariant
  import opened Safety
  import opened Theorems

  /** An existing event that has leader l. */
  ghost predicate Member(s: System, l: Name, m: Name) {
    m in s.alive && m in s.events && s.events[m].leader == Some(l)
  }

  /** An event with this status has an entry of its own for LeaderOnly pipeline j. */
  ghost predicate Started(cal: Calendar, st: Status, j: nat) {
    j < |cal.pipelines| && cal.pipelines[j].leaderOnly && FirstRun(st.runs, cal.pipelines[j].name).Some?
  }

  ghost predicate HoldsGroup(s: System, l: Name)
    requires l in s.specs
  {
    var key := GroupLease(s.specs[l].group);
    s.specs[l].group != "" && key in s.leases && s.leases[key] == l
  }

  ghost predicate SameGroup(s: System, a: Name, b: Name)
    requires a in s.specs && b in s.specs
  {
    s.specs[a].group != "" && s.specs[a].group == s.specs[b].group
  }

  // ------------------------------------------------------------------ one sync of a group at a time

  /** No sync of the group begins while another is on its way. Other groups may be at work. */
  ghost predicate Groupwise(s: System, a: Action) {
    a.Begin? && a.key in s.specs ==> forall k :: k in s.inflight && k in s.specs ==> !SameGroup(s, a.key, k)
  }

  ghost predicate GroupwiseHistory(cal: Calendar, states: seq<System>, actions: seq<Action>) {
    History(cal, states, actions) && forall i :: 0 <= i < |actions| ==> Groupwise(states[i], actions[i])
  }

  // ------------------------------------------------------------------ what one action does

  /** The write an action makes, if the API server takes it. */
  ghost function Written(s: System, a: Action): Option<Write> {
    if a.Commit? && a.key in s.inflight && s.inflight[a.key] != [] && Accepts(s, s.inflight[a.key][0])
    then Some(s.inflight[a.key][0]) else None
  }

  ghost predicate Updates(s: System, a: Action, e: Name) {
    Written(s, a).Some? && Written(s, a).value.UpdateStatus? && Written(s, a).value.event == e
  }

  /** Only its own sync gives an event a leader or an entry. */
  ghost predicate EventsMove(s: System, a: Action, t: System) {
    && (forall e :: e in t.events && e !in s.events ==> t.events[e] == Fresh)
    && (forall e :: e in s.events ==> e in t.events)
    && (forall e :: e in s.events && Updates(s, a, e) ==>
         a.key == e && e in s.alive && s.events[e].rv == Written(s, a).value.status.rv
         && t.events == s.events[e := Written(s, a).value.status.(rv := s.events[e].rv + 1)])
    && (forall e :: e in s.events && !Updates(s, a, e) ==>
         t.events[e].leader == s.events[e].leader && SamePipelines(s.events[e].runs, t.events[e].runs))
  }

  /** The lease of a group appears and goes with a sync of the group, or with its holder. */
  ghost predicate LeasesMove(s: System, a: Action, t: System) {
    forall group ::
      var key := GroupLease(group);
      && (key in t.leases && !(key in s.leases && s.leases[key] == t.leases[key]) ==>
           && group != "" && a.Commit? && Written(s, a) == Some(CreateLease(key, a.key)) && t.leases[key] == a.key && key !in s.leases
           && a.key in s.specs && s.specs[a.key].group == group)
      && (key in s.leases && key !in t.leases ==>
           || s.leases[key] !in s.alive
           || (Written(s, a) == Some(DeleteLease(key)) && a.key in s.specs && s.specs[a.key].group == group))
      && (Written(s, a) == Some(DeleteLease(key)) ==> key !in t.leases)
      && (a.Commit? && Written(s, a) == Some(CreateLease(key, a.key)) ==> key in t.leases && t.leases[key] == a.key)
  }

  ghost predicate PlansMove(cal: Calendar, s: System, a: Action, t: System)
    requires cal.Valid()
  {
    forall k :: k in t.inflight ==>
      || (a.Begin? && a.key == k && ViewOf(s, a.order).Valid() && k in s.specs
          && t.inflight[k] == Plan(cal, ViewOf(s, a.order), k, a.now, a.paused, a.gen))
      || (a == Commit(k) && Written(s, a).Some? && t.inflight[k] == s.inflight[k][1..])
      || (a != Commit(k) && !(a.Begin? && a.key == k) && k in s.inflight && t.inflight[k] == s.inflight[k])
  }

  /** A Tekton run is made by a sync of its event, and keeps its followers. */
  ghost predicate RunsMove(s: System, a: Action, t: System) {
    forall n :: n in t.tekton ==>
      var run := t.tekton[n];
      || (n in s.tekton && s.tekton[n].event == run.event && s.tekton[n].pipeline == run.pipeline && s.tekton[n].followers == run.followers)
      || (a.Commit? && run.event == a.key && Written(s, a) == Some(CreateRun(n, a.key, run.pipeline, run.followers)))
  }

  /** The lister learns what is stored, and forgets only what is gone. */
  ghost predicate CacheMoves(s: System, a: Action, t: System) {
    && (forall k :: k in t.cache ==>
         (k in s.cache && t.cache[k] == s.cache[k]) || (k in s.events && t.cache[k] == s.events[k] && t.events == s.events))
    && (forall k :: k in s.cache && k in t.alive && k in s.specs ==> k in t.cache)
    && (a.Commit? || a.Begin? ==> t.cache == s.cache)
  }

  /** All that one action can do to groups. */
  ghost predicate Moves(cal: Calendar, s: System, a: Action, t: System)
    requires cal.Valid()
  {
    && EventsMove(s, a, t) && LeasesMove(s, a, t) && PlansMove(cal, s, a, t) && RunsMove(s, a, t) && CacheMoves(s, a, t)
    && (forall k :: k in s.specs ==> k in t.specs && t.specs[k] == s.specs[k])
    && (forall k :: k in s.specs && k in t.alive ==> k in s.alive)
  }

  // ------------------------------------------------------------------ why

  lemma EventsStay(s: System, a: Action, t: System)
    requires t.events == s.events && (Written(s, a).Some? ==> !Written(s, a).value.UpdateStatus?)
    ensures EventsMove(s, a, t)
  {
  }

  lemma UpdateEvents(cal: Calendar, s: System, a: Action, st: Status)
    requires a.Commit? && Written(s, a) == Some(UpdateStatus(a.key, st))
    ensures EventsMove(s, a, NewVersion(s, a.key, st))
  {
  }

  lemma WriteEvents(cal: Calendar, s: System, a: Action)
    requires cal.Valid() && Inv(cal, s) && Enabled(cal, s, a) && a.Commit? && Written(s, a).Some?
    ensures EventsMove(s, a, Apply(s, Written(s, a).value))
  {
    hide Inv, GoodStatus, HasEntry, Grows, EventsMove, Enabled;
    var w := Written(s, a).value;
    HeadJustified(cal, s, a.key);
    if w.UpdateStatus? {
      UpdateEvents(cal, s, a, w.status);
    } else {
      EventsStay(s, a, Apply(s, w));
    }
  }

  lemma WriteLeases(cal: Calendar, s: System, a: Action)
    requires cal.Valid() && Inv(cal, s) && Enabled(cal, s, a) && a.Commit? && Written(s, a).Some?
    ensures LeasesMove(s, a, Apply(s, Written(s, a).value))
  {
    hide Inv, GoodStatus, HasEntry, Grows;
    HeadJustified(cal, s, a.key);
  }

  lemma WriteRuns(cal: Calendar, s: System, a: Action)
    requires cal.Valid() && Inv(cal, s) && Enabled(cal, s, a) && a.Commit? && Written(s, a).Some?
    ensures RunsMove(s, a, Apply(s, Written(s, a).value))
  {
    hide Inv, GoodStatus, HasEntry, Grows;
    HeadJustified(cal, s, a.key);
  }

  lemma CancelKeepsPipelines(st: Status, x: nat)
    requires x < |st.runs|
    ensures SetRun(st, x, RunCancelled).leader == st.leader && SamePipelines(st.runs, SetRun(st, x, RunCancelled).runs)
  {
  }

  lemma CancelEvents(cal: Calendar, s: System, a: Action)
    requires cal.Valid() && Enabled(cal, s, a) && a.RequestCancel?
    ensures EventsMove(s, a, Do(cal, s, a))
  {
    hide SetRun, Cancellable, Plan;
    CancelKeepsPipelines(s.events[a.key], a.index);
  }

  lemma CreateEvents(cal: Calendar, s: System, a: Action)
    requires cal.Valid() && Domains(s) && Enabled(cal, s, a) && a.Create?
    ensures EventsMove(s, a, Do(cal, s, a))
  {
    hide Plan;
  }

  lemma SameEvents(cal: Calendar, s: System, a: Action)
    requires cal.Valid() && Enabled(cal, s, a) && !a.RequestCancel? && !a.Create? && (a.Commit? ==> Written(s, a).None?)
    ensures Do(cal, s, a).events == s.events && Written(s, a).None?
  {
    hide Plan, Accepts, Apply, SetRun, Cancellable, ViewOf;
    OnlyCommitsWrite(s, a);
    if a.Commit? {
      hide *;
      RefusedDoes(cal, s, a);
    }
  }

  lemma EventsMoved(cal: Calendar, s: System, a: Action)
    requires cal.Valid() && Inv(cal, s) && Enabled(cal, s, a)
    ensures EventsMove(s, a, Do(cal, s, a))
  {
    hide Inv, Plan, Accepts, Apply, SetRun, Cancellable, EventsMove;
    if a.Commit? && Written(s, a).Some? {
      WriteEvents(cal, s, a);
      CommitDoes(cal, s, a);
      MovedAlike(s, a, Apply(s, Written(s, a).value), Do(cal, s, a));
    } else if a.RequestCancel? {
      CancelEvents(cal, s, a);
    } else if a.Create? {
      InvDomains(cal, s);
      CreateEvents(cal, s, a);
    } else {
      SameEvents(cal, s, a);
      EventsStay(s, a, Do(cal, s, a));
    }
  }

  lemma CommitDoes(cal: Calendar, s: System, a: Action)
    requires cal.Valid() && Enabled(cal, s, a) && a.Commit? && Written(s, a).Some?
    ensures Accepts(s, Written(s, a).value)
    ensures Do(cal, s, a) == Apply(s, Written(s, a).value).(inflight := s.inflight[a.key := s.inflight[a.key][1..]])
  {
    hide Plan, Accepts, Apply;
  }

  lemma RefusedDoes(cal: Calendar, s: System, a: Action)
    requires cal.Valid() && Enabled(cal, s, a) && a.Commit? && Written(s, a).None?
    ensures Do(cal, s, a) == s.(inflight := s.inflight - {a.key})
  {
    hide Plan, Accepts, Apply;
  }

  lemma MovedAlike(s: System, a: Action, t: System, u: System)
    requires u == t.(inflight := u.inflight)
    ensures EventsMove(s, a, t) ==> EventsMove(s, a, u)
    ensures LeasesMove(s, a, t) ==> LeasesMove(s, a, u)
    ensures RunsMove(s, a, t) ==> RunsMove(s, a, u)
  {
    hide Written;
  }

  /** Without a write only the collector touches leases, and only Tekton its runs. */
  lemma OthersDo(cal: Calendar, s: System, a: Action)
    requires cal.Valid() && Enabled(cal, s, a) && Written(s, a).None?
    ensures var t := Do(cal, s, a);
            && (if a.Collect? then s.leases[a.lease] !in s.alive && t.leases == s.leases - {a.lease} else t.leases == s.leases)
            && (if a.Progress? then t.tekton == s.tekton[a.name := s.tekton[a.name].(status := a.status)] else t.tekton == s.tekton)
  {
    hide Plan, Accepts, Apply, SetRun, Cancellable, ViewOf, Written;
    if a.Commit? {
      hide *;
      RefusedDoes(cal, s, a);
    }
  }

  lemma LeasesMoved(cal: Calendar, s: System, a: Action)
    requires cal.Valid() && Inv(cal, s) && Enabled(cal, s, a)
    ensures LeasesMove(s, a, Do(cal, s, a))
  {
    hide Inv, Do, Written, Enabled;
    if a.Commit? && Written(s, a).Some? {
      hide *;
      WriteLeases(cal, s, a);
      CommitDoes(cal, s, a);
      MovedAlike(s, a, Apply(s, Written(s, a).value), Do(cal, s, a));
    } else {
      OnlyCommitsWrite(s, a);
      OthersDo(cal, s, a);
    }
  }

  lemma OnlyCommitsWrite(s: System, a: Action)
    ensures Written(s, a).Some? ==> a.Commit?
  {
  }

  lemma RunsMoved(cal: Calendar, s: System, a: Action)
    requires cal.Valid() && Inv(cal, s) && Enabled(cal, s, a)
    ensures RunsMove(s, a, Do(cal, s, a))
  {
    hide Inv, Do, Written;
    if a.Commit? && Written(s, a).Some? {
      hide *;
      WriteRuns(cal, s, a);
      CommitDoes(cal, s, a);
      MovedAlike(s, a, Apply(s, Written(s, a).value), Do(cal, s, a));
    } else {
      OnlyCommitsWrite(s, a);
      OthersDo(cal, s, a);
    }
  }

  lemma WriteElse(s: System, w: Write)
    requires Accepts(s, w)
    ensures var t := Apply(s, w);
            t.inflight == s.inflight && t.cache == s.cache && t.specs == s.specs && t.alive <= s.alive
  {
  }

  lemma PlansMoved(cal: Calendar, s: System, a: Action)
    requires cal.Valid() && Enabled(cal, s, a)
    ensures PlansMove(cal, s, a, Do(cal, s, a))
  {
    hide Plan, Accepts, Apply, SetRun, Cancellable;
    if a.Commit? && Written(s, a).Some? {
      CommitDoes(cal, s, a);
      WriteElse(s, Written(s, a).value);
    }
  }

  lemma CacheMoved(cal: Calendar, s: System, a: Action)
    requires cal.Valid() && Enabled(cal, s, a)
    ensures CacheMoves(s, a, Do(cal, s, a))
  {
    hide Plan, Accepts, Apply, SetRun, Cancellable, ViewOf;
    if a.Commit? && Written(s, a).Some? {
      hide *;
      CommitCache(cal, s, a);
    }
  }

  lemma CommitCache(cal: Calendar, s: System, a: Action)
    requires cal.Valid() && Enabled(cal, s, a) && a.Commit? && Written(s, a).Some?
    ensures CacheMoves(s, a, Do(cal, s, a))
  {
    hide Do, Apply;
    CommitDoes(cal, s, a);
    WriteElse(s, Written(s, a).value);
  }

  lemma MovesOf(cal: Calendar, s: System, a: Action)
    requires cal.Valid() && cal.HasAlways() && Inv(cal, s) && Enabled(cal, s, a)
    ensures Moves(cal, s, a, Do(cal, s, a))
  {
    hide Inv, Do, Enabled, EventsMove, LeasesMove, PlansMove, RunsMove, CacheMoves;
    EventsMoved(cal, s, a);
    LeasesMoved(cal, s, a);
    RunsMoved(cal, s, a);
    PlansMoved(cal, s, a);
    CacheMoved(cal, s, a);
    StepInv(cal, s, a);
    InvDomains(cal, s);
  }

  /** The steps of a run, seen from groups. */
  lemma StepMoves(cal: Calendar, s: System, a: Action) returns (t: System)
    requires cal.Valid() && cal.HasAlways() && Inv(cal, s) && Enabled(cal, s, a)
    ensures t == Do(cal, s, a) && Moves(cal, s, a, t) && Inv(cal, t) && Extends(s, t) && Domains(s) && Domains(t)
  {
    hide *;
    t := Do(cal, s, a);
    MovesOf(cal, s, a);
    StepInv(cal, s, a);
    InvDomains(cal, s);
    InvDomains(cal, t);
  }

  /** What a sync is about to write is justified, and if it is made from the stored version,
      good and grown from it. */
  lemma PlannedIsGood(cal: Calendar, s: System, k: Name, w: Write)
    requires Inv(cal, s) && k in s.inflight && w in s.inflight[k]
    ensures k in s.specs && k in s.events && Justified(cal, s, k, w)
  {
    hide GoodStatus, HasEntry, Grows;
    var i :| 0 <= i < |s.inflight[k]| && s.inflight[k][i] == w;
    assert Justified(cal, s, k, s.inflight[k][i]);
  }

  /** If the version a planned status was made from is still the stored one after a step, it was
      before, and the step has left the event alone. */
  lemma StillCurrent(cal: Calendar, s: System, t: System, k: Name, w: Write)
    requires Inv(cal, s) && Extends(s, t) && k in s.inflight && w in s.inflight[k] && w.UpdateStatus?
    requires k in t.events && t.events[k].rv == w.status.rv
    ensures k in s.events && t.events[k] == s.events[k]
  {
    hide Inv, GoodStatus, HasEntry, Grows;
    PlannedIsGood(cal, s, k, w);
  }
}
