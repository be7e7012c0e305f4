/** Safety over whole runs, for any number of workers, lagging caches and stops between writes. */
module Safety {
  import opened Prelude
  import opened CalendarTypes
  import opened EventSync
  import opened Protocol
  import opened Growth
  import opened Invariant
  import opened PlanSound

  // ------------------------------------------------------------------ a step, seen from the invariant

  ghost predicate NewRunsRecorded(s: System, t: System) {
    forall n :: n in t.tekton ==>
      || (n in s.tekton && t.tekton[n].event == s.tekton[n].event && t.tekton[n].pipeline == s.tekton[n].pipeline)
      || HasEntry(s, t.tekton[n].event, n, t.tekton[n].pipeline)
  }

  ghost predicate NewStatusesGood(cal: Calendar, s: System, t: System)
    requires Domains(s) && Domains(t)
  {
    forall k :: k in t.events ==>
      (k in s.events && t.events[k] == s.events[k]) || GoodStatus(cal, t, k, t.events[k])
  }

  ghost predicate NewPlansJustified(cal: Calendar, s: System, t: System)
    requires Domains(s) && Domains(t)
  {
    forall k, i :: k in t.inflight && 0 <= i < |t.inflight[k]| ==>
      (k in s.inflight && t.inflight[k][i] in s.inflight[k]) || Justified(cal, t, k, t.inflight[k][i])
  }

  /** What a step adds must be good; what was there stays good by itself. */
  lemma Frame(cal: Calendar, s: System, t: System)
    requires Inv(cal, s) && Extends(s, t) && Domains(t) && CachesLag(t) && LeasesFit(t)
    requires NewRunsRecorded(s, t) && NewStatusesGood(cal, s, t) && NewPlansJustified(cal, s, t)
    ensures Inv(cal, t)
  {
    hide GoodStatus, Justified, Extends, HasEntry, CachesLag, LeasesFit;
    forall n | n in t.tekton ensures HasEntry(t, t.tekton[n].event, n, t.tekton[n].pipeline) {
      EntryStays(s, t, t.tekton[n].event, n, t.tekton[n].pipeline);
    }
    forall k | k in t.events ensures GoodStatus(cal, t, k, t.events[k]) {
      if k in s.events && t.events[k] == s.events[k] {
        GoodStays(cal, s, t, k, t.events[k]);
      }
    }
    forall k, i | k in t.inflight && 0 <= i < |t.inflight[k]| ensures Justified(cal, t, k, t.inflight[k][i]) {
      if k in s.inflight && t.inflight[k][i] in s.inflight[k] {
        JustifiedStays(cal, s, t, k, t.inflight[k][i]);
      }
    }
  }

  // ------------------------------------------------------------------ API writes

  lemma VersionIsFree(cal: Calendar, s: System, k: Name, st: Status)
    requires k in s.specs && GoodStatus(cal, s, k, st)
    ensures GoodStatus(cal, s, k, st.(rv := st.rv + 1))
  {
    var st' := st.(rv := st.rv + 1);
    forall x, j | 0 <= x < |st'.runs| && 0 <= j < |cal.pipelines| && st'.runs[x].pipeline == cal.pipelines[j].name
      ensures (cal.pipelines[j].leaderOnly ==> st'.leader == Some(k)) && PassedUpTo(cal, s, k, st', j)
    {
      assert st.runs[x].pipeline == cal.pipelines[j].name;
      OrderKept(cal, s, k, st, st', j);
    }
    if st.phase.Failed? || st.phase.Cancelled? {
      var x, j :| EndedBadly(cal, s, st, x, j, st.phase);
      assert EndedBadly(cal, s, st', x, j, st'.phase);
    }
  }

  ghost function NewVersion(s: System, k: Name, st: Status): System {
    s.(events := s.events[k := st.(rv := st.rv + 1)])
  }

  lemma NewVersionExtends(s: System, k: Name, st: Status)
    requires Domains(s) && k in s.events && s.events[k].rv == st.rv && Grows(s.events[k], st)
    ensures Extends(s, NewVersion(s, k, st))
  {
    assert Older(s.events[k], NewVersion(s, k, st).events[k]);
  }

  lemma NewVersionLags(s: System, k: Name, st: Status)
    requires Domains(s) && CachesLag(s) && k in s.events && Older(s.events[k], st.(rv := st.rv + 1))
    ensures CachesLag(NewVersion(s, k, st))
  {
    hide Grows;
    var t := NewVersion(s, k, st);
    forall e | e in t.cache ensures Older(t.cache[e], t.events[e]) {
      if e == k {
        OlderIsTransitive(s.cache[e], s.events[e], t.events[e]);
      }
    }
  }

  /** A new version of one status. */
  lemma StatusStep(cal: Calendar, s: System, k: Name, st: Status)
    requires Inv(cal, s) && k in s.events && s.events[k].rv == st.rv
    requires Grows(s.events[k], st) && GoodStatus(cal, s, k, st)
    ensures Inv(cal, NewVersion(s, k, st)) && Extends(s, NewVersion(s, k, st))
  {
    hide GoodStatus, Justified, HasEntry, Extends, CachesLag;
    var t := NewVersion(s, k, st);
    NewVersionExtends(s, k, st);
    assert Older(s.events[k], st.(rv := st.rv + 1));
    NewVersionLags(s, k, st);
    VersionIsFree(cal, s, k, st);
    GoodStays(cal, s, t, k, t.events[k]);
    assert LeasesFit(t);
    Frame(cal, s, t);
  }

  lemma LeaseStep(cal: Calendar, s: System, leases: map<LeaseKey, Name>)
    requires Inv(cal, s) && forall key :: key in leases ==> LeaseFits(s, key, leases[key])
    ensures var t := s.(leases := leases);
            Inv(cal, t) && Extends(s, t)
  {
    hide GoodStatus, Justified, HasEntry;
    var t := s.(leases := leases);
    assert Extends(s, t);
    assert LeasesFit(t);
    Frame(cal, s, t);
  }

  lemma TektonStep(cal: Calendar, s: System, name: Name, run: TektonRun)
    requires Inv(cal, s)
    requires if name in s.tekton then RunOlder(s.tekton[name], run) else HasEntry(s, run.event, name, run.pipeline)
    ensures var t := s.(tekton := s.tekton[name := run]);
            Inv(cal, t) && Extends(s, t)
  {
    hide GoodStatus, Justified, HasEntry;
    var t := s.(tekton := s.tekton[name := run]);
    assert Extends(s, t);
    assert LeasesFit(t);
    Frame(cal, s, t);
  }

  lemma AliveStep(cal: Calendar, s: System, k: Name)
    requires Inv(cal, s)
    ensures var t := s.(alive := s.alive - {k});
            Inv(cal, t) && Extends(s, t)
  {
    hide GoodStatus, Justified, HasEntry;
    var t := s.(alive := s.alive - {k});
    assert Extends(s, t);
    assert LeasesFit(t);
    Frame(cal, s, t);
  }

  /** Fewer writes still to make. */
  lemma PlanStep(cal: Calendar, s: System, inflight: map<Name, seq<Write>>)
    requires Inv(cal, s)
    requires forall k :: k in inflight ==> k in s.inflight && forall w :: w in inflight[k] ==> w in s.inflight[k]
    ensures var t := s.(inflight := inflight);
            Inv(cal, t) && Extends(s, t)
  {
    hide GoodStatus, Justified, HasEntry;
    var t := s.(inflight := inflight);
    assert Extends(s, t);
    assert LeasesFit(t);
    Frame(cal, s, t);
  }

  lemma ApplyInv(cal: Calendar, s: System, k: Name, w: Write)
    requires Inv(cal, s) && k in s.specs && Justified(cal, s, k, w) && Accepts(s, w)
    ensures Inv(cal, Apply(s, w)) && Extends(s, Apply(s, w)) && Apply(s, w).inflight == s.inflight
  {
    hide GoodStatus, Inv, Extends;
    match w
    case UpdateStatus(_, st) => StatusStep(cal, s, k, st);
    case DeleteEvent(_) => AliveStep(cal, s, k);
    case CreateLease(key, holder) => LeaseStepOne(cal, s, key, holder);
    case TakeLease(key, previous, holder) => LeaseStepOne(cal, s, key, holder);
    case DeleteLease(key) => LeaseStepLess(cal, s, key);
    case CreateRun(name, e, pipeline, followers) =>
      TektonStep(cal, s, name, TektonRun(e, pipeline, RunPending, false, followers));
    case CancelRun(name) => TektonStep(cal, s, name, s.tekton[name].(stopping := true));
  }

  lemma LeaseStepOne(cal: Calendar, s: System, key: LeaseKey, holder: Name)
    requires Inv(cal, s) && LeaseFits(s, key, holder)
    ensures var t := s.(leases := s.leases[key := holder]);
            Inv(cal, t) && Extends(s, t)
  {
    LeaseStep(cal, s, s.leases[key := holder]);
  }

  lemma LeaseStepLess(cal: Calendar, s: System, key: LeaseKey)
    requires Inv(cal, s)
    ensures var t := s.(leases := s.leases - {key});
            Inv(cal, t) && Extends(s, t)
  {
    LeaseStep(cal, s, s.leases - {key});
  }

  lemma ExtendsIsTransitive(s: System, t: System, u: System)
    requires Domains(s) && Domains(t) && Extends(s, t) && Extends(t, u)
    ensures Extends(s, u)
  {
    hide Older;
    forall n | n in s.tekton ensures n in u.tekton && RunOlder(s.tekton[n], u.tekton[n]) {
      assert RunOlder(s.tekton[n], t.tekton[n]) && RunOlder(t.tekton[n], u.tekton[n]);
    }
    forall n | n in s.seen ensures n in u.seen && RunOlder(s.seen[n], u.seen[n]) {
      assert RunOlder(s.seen[n], t.seen[n]) && RunOlder(t.seen[n], u.seen[n]);
    }
    forall k | k in s.events ensures k in u.events && Older(s.events[k], u.events[k]) {
      OlderIsTransitive(s.events[k], t.events[k], u.events[k]);
    }
    forall k | k in s.specs && k in u.alive ensures k in s.alive {
      assert k in t.specs;
    }
    forall k | k in s.cache && k in u.alive ensures k in u.cache && Older(s.cache[k], u.cache[k]) {
      assert k in t.specs;
      OlderIsTransitive(s.cache[k], t.cache[k], u.cache[k]);
    }
  }

  // ------------------------------------------------------------------ each action

  lemma NamingStep(cal: Calendar, s: System, gen: Name, k: Name)
    requires Inv(cal, s) && gen !in s.owner
    ensures var t := s.(owner := s.owner[gen := k]);
            Inv(cal, t) && Extends(s, t)
  {
    hide GoodStatus, Justified, HasEntry, Extends, CachesLag;
    var t := s.(owner := s.owner[gen := k]);
    NamingExtends(s, gen, k);
    CachesUntouched(s, t);
    assert LeasesFit(t);
    Frame(cal, s, t);
  }

  lemma NewPlanStep(cal: Calendar, s: System, k: Name, plan: seq<Write>)
    requires Inv(cal, s) && k in s.specs && forall w :: w in plan ==> Justified(cal, s, k, w)
    ensures var t := s.(inflight := s.inflight[k := plan]);
            Inv(cal, t) && Extends(s, t)
  {
    hide GoodStatus, Justified, HasEntry, Extends, CachesLag;
    var t := s.(inflight := s.inflight[k := plan]);
    InflightExtends(s, t);
    CachesUntouched(s, t);
    assert LeasesFit(t);
    forall i | 0 <= i < |plan| ensures Justified(cal, t, k, plan[i]) {
      JustifiedStays(cal, s, t, k, plan[i]);
    }
    Frame(cal, s, t);
  }

  lemma InflightExtends(s: System, t: System)
    requires t == s.(inflight := t.inflight)
    ensures Extends(s, t)
  {
  }

  lemma BeginStep(cal: Calendar, s: System, a: Action)
    requires cal.Valid() && cal.HasAlways() && Inv(cal, s) && a.Begin? && Enabled(cal, s, a)
    ensures Inv(cal, Do(cal, s, a)) && Extends(s, Do(cal, s, a))
  {
    hide Plan, Inv, Justified, Extends;
    var plan := Plan(cal, ViewOf(s, a.order), a.key, a.now, a.paused, a.gen);
    PlanJustified(cal, s, a.order, a.key, a.now, a.paused, a.gen);
    NamingStep(cal, s, a.gen, a.key);
    var named := s.(owner := s.owner[a.gen := a.key]);
    NewPlanStep(cal, named, a.key, plan);
    InvDomains(cal, s);
    InvDomains(cal, named);
    ExtendsIsTransitive(s, named, Do(cal, s, a));
  }

  lemma CachesUntouched(s: System, t: System)
    requires Domains(s) && Domains(t) && CachesLag(s)
    requires t.cache == s.cache && t.seen == s.seen && t.events == s.events && t.tekton == s.tekton
    ensures CachesLag(t)
  {
  }

  lemma CommitStep(cal: Calendar, s: System, k: Name)
    requires cal.Valid() && Inv(cal, s) && Enabled(cal, s, Commit(k))
    ensures Inv(cal, Do(cal, s, Commit(k))) && Extends(s, Do(cal, s, Commit(k)))
  {
    hide GoodStatus, HasEntry, Inv, Extends, Apply, Accepts, Justified;
    var w, rest := s.inflight[k][0], s.inflight[k][1..];
    if Accepts(s, w) {
      HeadJustified(cal, s, k);
      ApplyInv(cal, s, k, w);
      PlanStep(cal, Apply(s, w), s.inflight[k := rest]);
      InvDomains(cal, s); InvDomains(cal, Apply(s, w));
      ExtendsIsTransitive(s, Apply(s, w), Do(cal, s, Commit(k)));
    } else {
      PlanStep(cal, s, s.inflight - {k});
    }
  }

  lemma HeadJustified(cal: Calendar, s: System, k: Name)
    requires Inv(cal, s) && k in s.inflight && s.inflight[k] != []
    ensures k in s.specs && Justified(cal, s, k, s.inflight[k][0])
  {
  }

  lemma InvDomains(cal: Calendar, s: System)
    requires Inv(cal, s)
    ensures Domains(s) && CachesLag(s)
  {
  }

  lemma RefreshStep(cal: Calendar, s: System, k: Name)
    requires Inv(cal, s) && k in s.events
    ensures var t := s.(cache := s.cache[k := s.events[k]]);
            Inv(cal, t) && Extends(s, t)
  {
    hide GoodStatus, Justified, HasEntry, Extends, LeasesFit;
    var t := s.(cache := s.cache[k := s.events[k]]);
    ListersExtend(s, t);
    assert LeasesFit(t) by { hide *; LeasesUntouched(s, t); }
    Frame(cal, s, t);
  }

  /** The listers only move forward. */
  lemma ListersExtend(s: System, t: System)
    requires t == s.(cache := t.cache, seen := t.seen)
    requires forall k :: k in s.cache && k in s.alive ==> k in t.cache && Older(s.cache[k], t.cache[k])
    requires forall n :: n in s.seen ==> n in t.seen && RunOlder(s.seen[n], t.seen[n])
    ensures Extends(s, t)
  {
  }

  lemma LeasesUntouched(s: System, t: System)
    requires LeasesFit(s) && t.leases == s.leases && t.specs == s.specs
    ensures LeasesFit(t)
  {
  }

  lemma ForgetStep(cal: Calendar, s: System, k: Name)
    requires Inv(cal, s) && k in s.events && k !in s.alive
    ensures var t := s.(cache := s.cache - {k});
            Inv(cal, t) && Extends(s, t)
  {
    hide GoodStatus, Justified, HasEntry;
    var t := s.(cache := s.cache - {k});
    assert Extends(s, t);
    assert LeasesFit(t);
    Frame(cal, s, t);
  }

  lemma ObserveStep(cal: Calendar, s: System, k: Name)
    requires cal.Valid() && Inv(cal, s) && Enabled(cal, s, Observe(k))
    ensures Inv(cal, Do(cal, s, Observe(k))) && Extends(s, Do(cal, s, Observe(k)))
  {
    hide Inv, Extends;
    if k in s.alive {
      RefreshStep(cal, s, k);
    } else {
      ForgetStep(cal, s, k);
    }
  }

  lemma ObserveRunStep(cal: Calendar, s: System, n: Name)
    requires cal.Valid() && Inv(cal, s) && Enabled(cal, s, ObserveRun(n))
    ensures Inv(cal, Do(cal, s, ObserveRun(n))) && Extends(s, Do(cal, s, ObserveRun(n)))
  {
    hide GoodStatus, Justified, HasEntry, Extends, LeasesFit, Plan;
    var t := Do(cal, s, ObserveRun(n));
    ListersExtend(s, t);
    assert LeasesFit(t) by { hide *; LeasesUntouched(s, t); }
    Frame(cal, s, t);
  }

  ghost function Created(s: System, k: Name, spec: Spec): System {
    s.(specs := s.specs[k := spec], events := s.events[k := Fresh], alive := s.alive + {k})
  }

  lemma CreatedExtends(s: System, k: Name, spec: Spec)
    requires Domains(s) && CachesLag(s) && k !in s.specs
    ensures Extends(s, Created(s, k, spec)) && Domains(Created(s, k, spec)) && CachesLag(Created(s, k, spec))
  {
  }

  lemma FreshIsGood(cal: Calendar, s: System, k: Name)
    requires k in s.specs
    ensures GoodStatus(cal, s, k, Fresh)
  {
  }

  lemma CreateStep(cal: Calendar, s: System, k: Name, spec: Spec)
    requires cal.Valid() && Inv(cal, s) && Enabled(cal, s, Create(k, spec))
    ensures Inv(cal, Do(cal, s, Create(k, spec))) && Extends(s, Do(cal, s, Create(k, spec)))
  {
    hide GoodStatus, Justified, HasEntry, Extends, CachesLag;
    var t := Created(s, k, spec);
    CreatedExtends(s, k, spec);
    FreshIsGood(cal, t, k);
    assert LeasesFit(t);
    Frame(cal, s, t);
  }

  lemma CancelStep(cal: Calendar, s: System, k: Name, x: nat)
    requires cal.Valid() && Inv(cal, s) && Enabled(cal, s, RequestCancel(k, x))
    ensures Inv(cal, Do(cal, s, RequestCancel(k, x))) && Extends(s, Do(cal, s, RequestCancel(k, x)))
  {
    hide GoodStatus, Extends, Grows;
    var st := SetRun(s.events[k], x, RunCancelled);
    assert GoodStatus(cal, s, k, s.events[k]) by { hide *; InvGood(cal, s, k); }
    SetRunReplaces(cal, s, k, s.events[k], x, RunCancelled);
    StatusStep(cal, s, k, st);
  }

  lemma InvGood(cal: Calendar, s: System, k: Name)
    requires Inv(cal, s) && k in s.events
    ensures k in s.specs && GoodStatus(cal, s, k, s.events[k])
  {
  }

  /** The invariant is kept, and nothing is taken back, by every action of every worker,
      user and machine. */
  lemma StepInv(cal: Calendar, s: System, a: Action)
    requires cal.Valid() && cal.HasAlways() && Inv(cal, s) && Enabled(cal, s, a)
    ensures Inv(cal, Do(cal, s, a)) && Extends(s, Do(cal, s, a))
  {
    hide Inv, Extends, Plan, Apply, Accepts, SetRun, Older;
    match a
    case Begin(_, _, _, _, _) => BeginStep(cal, s, a);
    case Commit(k) => CommitStep(cal, s, k);
    case Stop(k) => PlanStep(cal, s, s.inflight - {k});
    case Observe(k) => ObserveStep(cal, s, k);
    case ObserveRun(n) => ObserveRunStep(cal, s, n);
    case Create(k, spec) => CreateStep(cal, s, k, spec);
    case Delete(k) => AliveStep(cal, s, k);
    case Collect(key) => LeaseStepLess(cal, s, key);
    case Progress(n, status) => TektonStep(cal, s, n, s.tekton[n].(status := status));
    case RequestCancel(k, x) => CancelStep(cal, s, k, x);
  }

  lemma {:induction false} RunInv(cal: Calendar, states: seq<System>, actions: seq<Action>, n: nat)
    requires cal.Valid() && cal.HasAlways() && IsRun(cal, states, actions) && Init(states[0]) && n < |states|
    ensures Inv(cal, states[n])
  {
    hide Inv, Do, Enabled;
    if n == 0 {
      InitInv(cal, states[0]);
    } else {
      RunInv(cal, states, actions, n - 1);
      StepInv(cal, states[n - 1], actions[n - 1]);
    }
  }

  lemma InitInv(cal: Calendar, s: System)
    requires Init(s)
    ensures Inv(cal, s)
  {
  }

  lemma {:induction false} RunExtends(cal: Calendar, states: seq<System>, actions: seq<Action>, m: nat, n: nat)
    requires cal.Valid() && cal.HasAlways() && IsRun(cal, states, actions) && Init(states[0]) && m <= n < |states|
    ensures Extends(states[m], states[n]) && Inv(cal, states[m]) && Inv(cal, states[n])
  {
    hide Inv, Do, Enabled;
    RunInv(cal, states, actions, m);
    RunInv(cal, states, actions, n);
    if m == n {
      ExtendsItself(states[m]);
    } else {
      RunExtends(cal, states, actions, m, n - 1);
      StepInv(cal, states[n - 1], actions[n - 1]);
      InvDomains(cal, states[m]);
      InvDomains(cal, states[n - 1]);
      ExtendsIsTransitive(states[m], states[n - 1], states[n]);
    }
  }

  lemma ExtendsItself(s: System)
    ensures Extends(s, s)
  {
  }
}
