/** The other half of the freeze: a group that is not locked can always gain a follower. Together
    with Freeze this says exactly when the followers of a leader are fixed. */
module Thaw {
  import opened Prelude
  import opened CalendarTypes
  import opened EventSync
  import opened Protocol
  import opened Growth
  import opened Invariant
  import opened Safety
  import opened Exclusion
  import opened Theorems
  import opened Undisturbed
  import opened Groups
  import opened Freeze
  import opened Scenes
  import opened Steps

  /** No run from s, taken with such care, adds a follower of l. */
  ghost predicate Frozen(cal: Calendar, care: Care, s: System, l: Name) {
    forall t, e :: Reaches(cal, care, s, t) && Member(t, l, e) ==> Member(s, l, e)
  }

  lemma LockedIsFrozen(cal: Calendar, care: Care, s: System, l: Name)
    requires cal.Valid() && cal.HasAlways() && Inv(cal, s) && Locked(s, l)
    ensures Frozen(cal, care, s, l)
  {
    hide Inv, Locked, Careful, Leads;
    forall t, e | Reaches(cal, care, s, t) && Member(t, l, e) ensures Member(s, l, e) {
      var actions :| Leads(cal, care, s, actions, t);
      var states := LeadsIsRun(cal, care, s, actions, t);
      LockedForGood(cal, states, actions, 0, |actions|, l);
      assert NoNewMembers(s, t, l);
    }
  }

  // ------------------------------------------------------------------ there is always another name

  lemma {:induction false} LongerThanAll(names: set<string>) returns (n: nat)
    ensures forall x :: x in names ==> |x| < n
    decreases |names|
  {
    if names == {} {
      n := 0;
    } else {
      var x :| x in names;
      n := LongerThanAll(names - {x});
      n := if n > |x| then n else |x| + 1;
    }
  }

  lemma NewName(names: set<string>) returns (name: string)
    ensures name !in names
  {
    var n := LongerThanAll(names);
    name := seq(n, _ => 'a');
  }

  /** Some listing of a cache. */
  lemma {:induction false} Listing(names: set<Name>) returns (order: seq<Name>)
    ensures forall k :: k in order <==> k in names
    ensures forall i, j | 0 <= i < j < |order| :: order[i] != order[j]
    decreases |names|
  {
    if names == {} {
      order := [];
    } else {
      var x :| x in names;
      order := Listing(names - {x});
      order := order + [x];
    }
  }

  // ------------------------------------------------------------------ the lease is held

  /** A user creates one more event of the group, on the leader's day and with a title of its own,
      and its first sync runs to its end. */
  lemma Joins(cal: Calendar, care: Care, s: System, l: Name, e: Name, spec: Spec) returns (t: System)
    requires cal.Valid() && l in s.alive && l in s.events && l in s.specs && s.cache.Keys <= s.specs.Keys && e !in s.specs && e !in s.inflight
    requires spec.after == [] && spec.time.Some?
    requires care.Any? || (care.OneOfGroup? && forall k :: k in s.inflight && k in s.specs ==> s.specs[k].group != spec.group)
    ensures Reaches(cal, care, s, t)
    ensures t.specs == s.specs[e := spec] && t.alive == s.alive + {e} && t.leases == s.leases && t.inflight == s.inflight
    ensures t.events == s.events[e := Waiting(1, spec.time.value)]
    ensures t.cache == s.cache[l := s.events[l]][e := Waiting(1, spec.time.value)]
  {
    hide Reaches;
    Itself(cal, care, s);
    t := Observes(cal, care, s, s, l);
    t := Adds(cal, care, s, t, e, spec);
    var order := Listing(t.cache.Keys);
    var gen := NewName(t.owner.Keys);
    t := FirstSync(cal, care, s, t, e, order, 0, gen);
  }

  /** Its second sync adopts the holder of the lease. */
  lemma Adopts(cal: Calendar, care: Care, o: System, s: System, l: Name, e: Name) returns (t: System)
    requires cal.Valid() && |cal.pipelines| > 0 && Reaches(cal, care, o, s) && s.cache.Keys <= s.specs.Keys
    requires e in s.specs && s.specs[e].after == [] && s.specs[e].group != "" && e !in s.inflight && e in s.alive
    requires e in s.events && e in s.cache && s.cache[e] == s.events[e] && s.specs[e].time.Some?
    requires s.events[e] == Waiting(1, s.specs[e].time.value) && NameLease(s.specs[e].title) !in s.leases
    requires GroupLease(s.specs[e].group) in s.leases && s.leases[GroupLease(s.specs[e].group)] == l
    requires l in s.cache && s.cache[l].time == s.specs[e].time
    requires care.Any? || (care.OneOfGroup? && forall k :: k in s.inflight && k in s.specs ==> s.specs[k].group != s.specs[e].group)
    ensures Reaches(cal, care, o, t) && Member(t, l, e)
  {
    hide Reaches, Plan;
    var order := Listing(s.cache.Keys);
    var gen := NewName(s.owner.Keys);
    var title, update := NameLease(s.specs[e].title), UpdateStatus(e, s.events[e].(leader := Some(l)));
    PlanToAdopt(cal, ViewOf(s, order), e, l, 0, gen);
    t := Syncs(cal, care, o, s, Begin(e, order, 0, false, gen), [CreateLease(title, e)] + [update]);
    t := Writes(cal, care, o, t, e, CreateLease(title, e), [update]);
    assert t.inflight[e] == [update] + [];
    t := Writes(cal, care, o, t, e, update, []);
  }

  lemma TimeOfLeader(cal: Calendar, s: System, l: Name)
    requires Inv(cal, s) && l in s.events && s.events[l].leader.Some?
    ensures s.events[l].time.Some?
  {
    hide Inv;
    InvGood(cal, s, l);
    assert PhaseTrue(cal, s, l, s.events[l]);
  }

  lemma SomePipeline(cal: Calendar)
    requires cal.HasAlways()
    ensures |cal.pipelines| > 0
  {
  }

  /** While l holds the lease of its group it can gain a follower. */
  lemma HeldIsOpen(cal: Calendar, care: Care, s: System, l: Name) returns (t: System, e: Name)
    requires cal.Valid() && cal.HasAlways() && Inv(cal, s) && Domains(s)
    requires l in s.alive && s.events[l].leader == Some(l) && HoldsGroup(s, l)
    requires care.Any? || (care.OneOfGroup? && forall k :: k in s.inflight ==> s.specs[k].group != s.specs[l].group)
    ensures Reaches(cal, care, s, t) && Member(t, l, e) && e !in s.specs
  {
    hide Inv, Reaches;
    TimeOfLeader(cal, s, l);
    SomePipeline(cal);
    e := NewName(s.specs.Keys);
    var title := NewName(set key | key in s.leases && key.NameLease? :: key.title);
    assert NameLease(title) !in s.leases;
    t := Joins(cal, care, s, l, e, Spec(title, s.specs[l].group, 0, s.events[l].time, []));
    t := Adopts(cal, care, s, t, l, e);
  }

  // ------------------------------------------------------------------ a sync is on its way

  /** Whether writes are accepted does not depend on the syncs on their way. */
  lemma {:induction false} AcceptedElsewhere(s: System, t: System, writes: seq<Write>)
    requires t == s.(inflight := t.inflight) && AllAccepted(s, writes)
    ensures AllAccepted(t, writes)
    decreases |writes|
  {
    if writes != [] {
      hide AllAccepted;
      HeadAccepted(s, t, writes);
      AcceptedElsewhere(Apply(s, writes[0]), Apply(t, writes[0]), writes[1..]);
    }
  }

  lemma HeadAccepted(s: System, t: System, writes: seq<Write>)
    requires t == s.(inflight := t.inflight) && AllAccepted(s, writes) && writes != []
    ensures Accepts(s, writes[0]) && Accepts(t, writes[0]) && AllAccepted(Apply(s, writes[0]), writes[1..])
    ensures Apply(t, writes[0]) == Apply(s, writes[0]).(inflight := t.inflight)
  {
    hide Accepts, Apply;
    SameWrite(s, t, writes[0]);
  }

  lemma SameWrite(s: System, t: System, w: Write)
    requires t == s.(inflight := t.inflight) && Accepts(s, w)
    ensures Accepts(t, w) && Apply(t, w) == Apply(s, w).(inflight := t.inflight)
  {
  }

  /** If the API server takes the writes of a sync in turn, the sync comes to each of them. */
  lemma {:induction false} ComesTo(cal: Calendar, o: System, s: System, k: Name, w: Write) returns (u: System)
    requires Reaches(cal, Any, o, s) && k in s.inflight && w in s.inflight[k] && AllAccepted(s, s.inflight[k])
    ensures Reaches(cal, Any, o, u) && k in u.inflight && u.inflight[k] != [] && u.inflight[k][0] == w && Accepts(u, w)
    ensures (forall x :: x in s.inflight[k] ==> !x.DeleteEvent?) ==> u.alive == s.alive
    decreases |s.inflight[k]|
  {
    hide Reaches, AllAccepted;
    var plan := s.inflight[k];
    HeadAccepted(s, s, plan);
    if plan[0] == w {
      u := s;
    } else {
      assert plan == [plan[0]] + plan[1..];
      var v := Writes(cal, Any, o, s, k, plan[0], plan[1..]);
      AcceptedElsewhere(Apply(s, plan[0]), v, plan[1..]);
      if !plan[0].DeleteEvent? {
        AliveAfter(s, plan[0]);
      }
      u := ComesTo(cal, o, v, k, w);
    }
  }

  lemma AliveAfter(s: System, w: Write)
    requires Accepts(s, w) && !w.DeleteEvent?
    ensures Apply(s, w).alive == s.alive
  {
  }

  /** A sync that would adopt l, and whose writes are taken, does. */
  lemma AdoptionIsOpen(cal: Calendar, s: System, l: Name, e: Name, w: Write) returns (t: System)
    requires cal.Valid() && e in s.inflight && w in s.inflight[e] && AllAccepted(s, s.inflight[e]) && WouldAdopt(s, l, e, w)
    ensures Reaches(cal, Any, s, t) && Member(t, l, e) && !Member(s, l, e)
  {
    hide Reaches, AllAccepted;
    Itself(cal, Any, s);
    var u := ComesTo(cal, s, s, e, w);
    assert u.inflight[e] == [w] + u.inflight[e][1..];
    t := Writes(cal, Any, s, u, e, w, u.inflight[e][1..]);
  }

  /** A sync of l that would create the lease for it, and whose writes are taken, lets another in. */
  lemma ElectionIsOpen(cal: Calendar, s: System, l: Name) returns (t: System, e: Name)
    requires cal.Valid() && cal.HasAlways() && Inv(cal, s) && Domains(s) && NameInv(s)
    requires l in s.alive && s.events[l].leader == Some(l) && s.specs[l].group != "" && !NoElection(s, l) && AllAccepted(s, s.inflight[l])
    ensures Reaches(cal, Any, s, t) && Member(t, l, e) && e !in s.specs
  {
    hide Inv, Reaches, AllAccepted;
    var create := CreateLease(GroupLease(s.specs[l].group), l);
    Itself(cal, Any, s);
    ElectsAlive(s, l);
    var u := ComesTo(cal, s, s, l, create);
    assert u.inflight[l] == [create] + u.inflight[l][1..];
    var v := Writes(cal, Any, s, u, l, create, u.inflight[l][1..]);
    ReachesKeeps(cal, Any, s, v);
    InvDomains(cal, v);
    LeaderStays(s, v, l);
    SpecsStay(s, v, l);
    t, e := HeldIsOpen(cal, Any, v, l);
    Onwards(cal, Any, s, v, t);
  }

  lemma SpecsStay(s: System, t: System, l: Name)
    requires Extends(s, t) && l in s.specs
    ensures l in t.specs && t.specs[l] == s.specs[l] && s.specs.Keys <= t.specs.Keys
  {
  }

  /** A plan that elects does not delete its event. */
  lemma ElectsAlive(s: System, l: Name)
    requires Domains(s) && NameInv(s) && l in s.inflight && CreateLease(GroupLease(s.specs[l].group), l) in s.inflight[l]
    ensures forall x :: x in s.inflight[l] ==> !x.DeleteEvent?
  {
    hide Claimed, Acquires;
    assert PlanClaims(s, l, s.inflight[l]);
  }

  lemma {:induction false} LeadsOnwards(cal: Calendar, care: Care, s: System, a: seq<Action>, u: System, b: seq<Action>, t: System)
    requires cal.Valid() && Leads(cal, care, s, a, u) && Leads(cal, care, u, b, t)
    ensures Leads(cal, care, s, a + b, t)
    decreases |b|
  {
    hide Do, Enabled, Careful;
    if b == [] {
      assert a + b == a;
    } else {
      var n := |b| - 1;
      var v :| Leads(cal, care, u, b[..n], v) && Enabled(cal, v, b[n]) && Careful(care, v, b[n]) && t == Do(cal, v, b[n]);
      LeadsOnwards(cal, care, s, a, u, b[..n], v);
      assert (a + b)[..|a + b| - 1] == a + b[..n] && (a + b)[|a + b| - 1] == b[n];
    }
  }

  lemma Onwards(cal: Calendar, care: Care, s: System, u: System, t: System)
    requires Reaches(cal, care, s, u) && Reaches(cal, care, u, t)
    ensures Reaches(cal, care, s, t)
  {
    hide Leads;
    var a :| Leads(cal, care, s, a, u);
    var b :| Leads(cal, care, u, b, t);
    LeadsOnwards(cal, care, s, a, u, b, t);
  }

  // ------------------------------------------------------------------ exactly when

  /** A leader that exists, leads itself within a group, and is not taken for leaderless by the lister. */
  ghost predicate SettledLeader(s: System, l: Name) {
    && l in s.alive && l in s.specs && l in s.events && s.specs[l].group != ""
    && s.events[l].leader == Some(l) && NotLeaderless(s, l)
  }

  lemma OpenIsNotFrozen(cal: Calendar, s: System, l: Name)
    requires cal.Valid() && cal.HasAlways() && Inv(cal, s) && Domains(s) && NameInv(s) && SettledLeader(s, l) && !Locked(s, l)
    requires forall k :: k in s.inflight && SameGroup(s, k, l) ==> AllAccepted(s, s.inflight[k])
    ensures !Frozen(cal, Any, s, l)
  {
    hide Inv, Reaches, AllAccepted, WouldAdopt;
    if HoldsGroup(s, l) {
      var t, e := HeldIsOpen(cal, Any, s, l);
    } else if !NoAdoption(s, l) {
      var e, w :| e in s.inflight && w in s.inflight[e] && WouldAdopt(s, l, e, w);
      AdoptionIsInGroup(cal, s, l, e, w);
      var t := AdoptionIsOpen(cal, s, l, e, w);
    } else {
      var t, e := ElectionIsOpen(cal, s, l);
    }
  }

  /** The followers of a leader are fixed, whatever happens next, exactly if it is locked: it does
      not hold the lease of its group, and no sync on its way would adopt it or create that lease
      for it. For every reachable state, any number of workers and any lag, if the syncs of the
      group that are on their way, if any, find their writes accepted. */
  lemma FreezeIsExact(cal: Calendar, states: seq<System>, actions: seq<Action>, n: nat, l: Name)
    requires History(cal, states, actions) && n < |states| && SettledLeader(states[n], l)
    requires forall k :: k in states[n].inflight && k in states[n].specs && SameGroup(states[n], k, l) ==>
               AllAccepted(states[n], states[n].inflight[k])
    ensures Frozen(cal, Any, states[n], l) <==> Locked(states[n], l)
  {
    hide Inv, Do, Enabled, Locked, Frozen, NameInv, SettledLeader;
    RunNames(cal, states, actions, n);
    RunInv(cal, states, actions, n);
    InvDomains(cal, states[n]);
    if Locked(states[n], l) {
      LockedIsFrozen(cal, Any, states[n], l);
    } else {
      OpenIsNotFrozen(cal, states[n], l);
    }
  }

  lemma UnheldIsLocked(cal: Calendar, s: System, l: Name)
    requires Inv(cal, s) && SettledLeader(s, l) && !HoldsGroup(s, l)
    requires forall k :: k in s.inflight && k in s.specs ==> !SameGroup(s, k, l)
    ensures Locked(s, l)
  {
    hide Inv, WouldAdopt;
    forall e, w | e in s.inflight && w in s.inflight[e] ensures !WouldAdopt(s, l, e, w) {
      if WouldAdopt(s, l, e, w) {
        AdoptionIsInGroup(cal, s, l, e, w);
      }
    }
    assert SameGroup(s, l, l);
  }

  /** While no sync of the group is on its way: the followers are fixed exactly if the leader does not
      hold the lease, both if syncs may begin at any time and if only one of a group at a time may. */
  lemma LockIsExact(cal: Calendar, states: seq<System>, actions: seq<Action>, n: nat, l: Name, care: Care)
    requires History(cal, states, actions) && n < |states| && SettledLeader(states[n], l) && !care.Workers?
    requires forall k :: k in states[n].inflight && k in states[n].specs ==> !SameGroup(states[n], k, l)
    ensures Frozen(cal, care, states[n], l) <==> !HoldsGroup(states[n], l)
  {
    hide Inv, Do, Enabled, Locked;
    var s := states[n];
    RunInv(cal, states, actions, n);
    InvDomains(cal, s);
    if HoldsGroup(s, l) {
      hide Reaches, IsRun;
      var t, e := HeldIsOpen(cal, care, s, l);
    } else {
      UnheldIsLocked(cal, s, l);
      LockedIsFrozen(cal, care, s, l);
    }
  }
}
