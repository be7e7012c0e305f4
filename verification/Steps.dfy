/** Runs put together step by step: what a chain of actions leads to from a given state. */
module Steps {
  import opened CalendarTypes
  import opened EventSync
  import opened Protocol
  import opened Growth
  import opened Invariant
  import opened Safety
  import opened Groups
  import opened Scenes

  /** How carefully syncs begin: at any time; while no other sync of the group is on its way; or
      with at most so many workers, and, if current, with listers that show exactly what is stored. */
  datatype Care = Any | OneOfGroup | Workers(count: nat, current: bool)

  ghost predicate Careful(care: Care, s: System, a: Action) {
    match care
    case Any => true
    case OneOfGroup => Groupwise(s, a)
    case Workers(count, current) =>
      a.Begin? ==>
        && |s.inflight| < count
        && (current ==> s.seen == s.tekton && s.cache.Keys == s.alive && forall k :: k in s.alive ==> k in s.events && s.cache[k] == s.events[k])
  }

  /** Actions taken with such care lead from s to t. */
  ghost predicate Leads(cal: Calendar, care: Care, s: System, actions: seq<Action>, t: System)
    requires cal.Valid()
    decreases |actions|
  {
    if actions == [] then s == t
    else
      var n := |actions| - 1;
      exists u :: Leads(cal, care, s, actions[..n], u) && Enabled(cal, u, actions[n]) && Careful(care, u, actions[n]) && t == Do(cal, u, actions[n])
  }

  /** Some run leads from s to t. */
  ghost predicate Reaches(cal: Calendar, care: Care, s: System, t: System) {
    cal.Valid() && exists actions :: Leads(cal, care, s, actions, t)
  }

  lemma Itself(cal: Calendar, care: Care, s: System)
    requires cal.Valid()
    ensures Reaches(cal, care, s, s)
  {
    assert Leads(cal, care, s, [], s);
  }

  lemma Then(cal: Calendar, care: Care, s: System, t: System, a: Action) returns (u: System)
    requires Reaches(cal, care, s, t) && Enabled(cal, t, a) && Careful(care, t, a)
    ensures u == Do(cal, t, a) && Reaches(cal, care, s, u)
  {
    hide Do, Enabled, Careful;
    var actions :| Leads(cal, care, s, actions, t);
    u := Do(cal, t, a);
    var more := actions + [a];
    assert more[..|actions|] == actions;
    assert Leads(cal, care, s, more, u);
  }

  /** Such a chain is a run of the system, with the same care at every step. */
  lemma {:induction false} LeadsIsRun(cal: Calendar, care: Care, s: System, actions: seq<Action>, t: System) returns (states: seq<System>)
    requires cal.Valid() && Leads(cal, care, s, actions, t)
    ensures IsRun(cal, states, actions) && states[0] == s && states[|actions|] == t
    ensures forall i :: 0 <= i < |actions| ==> Careful(care, states[i], actions[i])
    decreases |actions|
  {
    hide Do, Enabled, Careful;
    if actions == [] {
      states := [s];
    } else {
      var n := |actions| - 1;
      var u :| Leads(cal, care, s, actions[..n], u) && Enabled(cal, u, actions[n]) && Careful(care, u, actions[n]) && t == Do(cal, u, actions[n]);
      var before := LeadsIsRun(cal, care, s, actions[..n], u);
      assert actions[..n] + [actions[n]] == actions;
      states := before + [t];
    }
  }

  lemma {:induction false} LeadsKeeps(cal: Calendar, care: Care, s: System, actions: seq<Action>, t: System)
    requires cal.Valid() && cal.HasAlways() && Inv(cal, s) && Leads(cal, care, s, actions, t)
    ensures Inv(cal, t) && Extends(s, t)
    decreases |actions|
  {
    hide Do, Enabled, Careful, Inv, Extends;
    if actions == [] {
      ExtendsItself(s);
    } else {
      var n := |actions| - 1;
      var u :| Leads(cal, care, s, actions[..n], u) && Enabled(cal, u, actions[n]) && Careful(care, u, actions[n]) && t == Do(cal, u, actions[n]);
      LeadsKeeps(cal, care, s, actions[..n], u);
      StepInv(cal, u, actions[n]);
      InvDomains(cal, s);
      InvDomains(cal, u);
      ExtendsIsTransitive(s, u, t);
    }
  }

  lemma ReachesKeeps(cal: Calendar, care: Care, s: System, t: System)
    requires cal.HasAlways() && Inv(cal, s) && Reaches(cal, care, s, t)
    ensures Inv(cal, t) && Extends(s, t)
  {
    hide Inv, Leads, Extends;
    var actions :| Leads(cal, care, s, actions, t);
    LeadsKeeps(cal, care, s, actions, t);
  }

  // ------------------------------------------------------------------ steps worth a name

  lemma Adds(cal: Calendar, care: Care, o: System, s: System, k: Name, spec: Spec) returns (t: System)
    requires Reaches(cal, care, o, s) && k !in s.specs
    ensures Reaches(cal, care, o, t)
    ensures t == s.(specs := s.specs[k := spec], events := s.events[k := Fresh], alive := s.alive + {k}, cache := s.cache[k := Fresh])
  {
    hide Reaches;
    t := Then(cal, care, o, s, Create(k, spec));
    t := Then(cal, care, o, t, Observe(k));
  }

  lemma Syncs(cal: Calendar, care: Care, o: System, s: System, a: Action, plan: seq<Write>) returns (t: System)
    requires Reaches(cal, care, o, s) && a.Begin? && cal.Valid()
    requires a.key in s.specs && a.key !in s.inflight && a.gen !in s.owner && ViewOf(s, a.order).Valid() && Careful(care, s, a)
    requires Plan(cal, ViewOf(s, a.order), a.key, a.now, a.paused, a.gen) == plan
    ensures Reaches(cal, care, o, t) && t == s.(inflight := s.inflight[a.key := plan], owner := s.owner[a.gen := a.key])
  {
    hide Plan, Reaches;
    t := Then(cal, care, o, s, a);
  }

  lemma Writes(cal: Calendar, care: Care, o: System, s: System, k: Name, w: Write, rest: seq<Write>) returns (t: System)
    requires Reaches(cal, care, o, s) && k in s.inflight && s.inflight[k] == [w] + rest && Accepts(s, w)
    ensures Reaches(cal, care, o, t) && t == Apply(s, w).(inflight := s.inflight[k := rest])
  {
    hide Reaches, Accepts, Apply;
    t := Then(cal, care, o, s, Commit(k));
  }

  lemma Stops(cal: Calendar, care: Care, o: System, s: System, k: Name) returns (t: System)
    requires Reaches(cal, care, o, s) && k in s.inflight
    ensures Reaches(cal, care, o, t) && t == s.(inflight := s.inflight - {k})
  {
    hide Reaches;
    t := Then(cal, care, o, s, Stop(k));
  }

  lemma Observes(cal: Calendar, care: Care, o: System, s: System, k: Name) returns (t: System)
    requires Reaches(cal, care, o, s) && k in s.events && k in s.alive
    ensures Reaches(cal, care, o, t) && t == s.(cache := s.cache[k := s.events[k]])
  {
    hide Reaches;
    t := Then(cal, care, o, s, Observe(k));
  }

  lemma Ends(cal: Calendar, care: Care, o: System, s: System, k: Name) returns (t: System)
    requires Reaches(cal, care, o, s) && k in s.inflight && k in s.events && k in s.alive
    ensures Reaches(cal, care, o, t) && t == s.(inflight := s.inflight - {k}, cache := s.cache[k := s.events[k]])
  {
    t := Stops(cal, care, o, s, k);
    t := Observes(cal, care, o, t, k);
  }

  /** The first sync of an event that runs after nothing, to its end. */
  lemma FirstSync(cal: Calendar, care: Care, o: System, s: System, k: Name, order: seq<Name>, now: int, gen: Name) returns (t: System)
    requires Reaches(cal, care, o, s) && cal.Valid() && k in s.specs && k !in s.inflight && s.specs[k].after == []
    requires k in s.events && s.events[k] == Fresh && k in s.alive && k in s.cache && s.cache[k] == Fresh
    requires gen !in s.owner && ViewOf(s, order).Valid() && Careful(care, s, Begin(k, order, now, false, gen))
    ensures Reaches(cal, care, o, t)
    ensures var st := Waiting(1, if s.specs[k].time.Some? then s.specs[k].time.value else now);
            t == s.(events := s.events[k := st], cache := s.cache[k := st], owner := s.owner[gen := k])
  {
    hide Plan, Reaches, Careful;
    var st := Waiting(0, if s.specs[k].time.Some? then s.specs[k].time.value else now);
    PlanOfFresh(cal, ViewOf(s, order), k, now, gen);
    t := Syncs(cal, care, o, s, Begin(k, order, now, false, gen), [UpdateStatus(k, st)]);
    t := OneUpdate(cal, care, o, t, k, st);
    assert t.inflight == s.inflight;
  }

  /** A sync that only writes a status, to its end. */
  lemma OneUpdate(cal: Calendar, care: Care, o: System, s: System, k: Name, st: Status) returns (t: System)
    requires Reaches(cal, care, o, s) && k in s.inflight && s.inflight[k] == [UpdateStatus(k, st)]
    requires k in s.events && k in s.alive && s.events[k].rv == st.rv
    ensures Reaches(cal, care, o, t)
    ensures var new_ := st.(rv := st.rv + 1);
            t == s.(events := s.events[k := new_], cache := s.cache[k := new_], inflight := s.inflight - {k})
  {
    hide Reaches;
    assert s.inflight[k] == [UpdateStatus(k, st)] + [];
    t := Writes(cal, care, o, s, k, UpdateStatus(k, st), []);
    t := Ends(cal, care, o, t, k);
    assert t.inflight == s.inflight - {k};
  }
}
