/** The lease of a group: who creates it, and how often. */
module GroupLeases {
  import opened Prelude
  import opened CalendarDays
  import opened CalendarTypes
  import opened EventSync
  import opened Protocol
  import opened Growth
  import opened Invariant
  import opened Safety
  import opened Undisturbed
  import opened GroupPlan
  import opened Theorems
  import opened Groups
  import opened Freeze
  import opened Followers

  /** The action creates the lease of l's group for l. */
  ghost predicate Creates(s: System, a: Action, l: Name)
    requires l in s.specs
  {
    a == Commit(l) && Written(s, a) == Some(CreateLease(GroupLease(s.specs[l].group), l))
  }

  // ------------------------------------------------------------------ plans on their way

  /** Writes still to be made come in the order of their plan, and their event is listed. */
  ghost predicate InTurn(s: System, k: Name, plan: seq<Write>)
    requires k in s.specs
  {
    UpdateIsLast(plan) && UpdateFollows(plan, CreateLease(GroupLease(s.specs[k].group), k))
  }

  ghost predicate AllInTurn(s: System)
    requires Domains(s)
  {
    Listed(s) && forall k :: k in s.inflight ==> InTurn(s, k, s.inflight[k])
  }

  lemma NothingInTurn(s: System, k: Name)
    requires k in s.specs
    ensures InTurn(s, k, [])
  {
  }

  lemma RestInTurn(s: System, k: Name)
    requires k in s.specs && k in s.inflight && s.inflight[k] != [] && InTurn(s, k, s.inflight[k])
    ensures InTurn(s, k, s.inflight[k][1..])
    ensures var plan, create := s.inflight[k], CreateLease(GroupLease(s.specs[k].group), k);
            && (plan[0].UpdateStatus? ==> plan == [plan[0]])
            && (plan[0] == create ==> |plan| == 2 && plan[1].UpdateStatus?)
  {
    var plan, rest := s.inflight[k], s.inflight[k][1..];
    assert forall i :: 0 <= i < |rest| ==> rest[i] == plan[i + 1];
  }

  lemma StepInTurn(cal: Calendar, s: System, a: Action)
    requires cal.Valid() && cal.HasAlways() && Inv(cal, s) && Enabled(cal, s, a) && Domains(s) && AllInTurn(s)
    ensures Domains(Do(cal, s, a)) && AllInTurn(Do(cal, s, a))
  {
    hide Inv, Do, Enabled, Plan, EventsMove, LeasesMove, RunsMove, CacheMoves, InTurn, Listed, Extends;
    var t := StepMoves(cal, s, a);
    if a.Begin? {
      BeginsOnly(cal, s, a);
    }
    StepListed(cal, s, a, t);
    WrittenIsPlanned(s, a);
    forall k | k in t.inflight ensures InTurn(t, k, t.inflight[k]) {
      if a.Begin? && a.key == k {
        BeginInTurn(cal, s, a);
      } else if a == Commit(k) {
        RestInTurn(s, k);
      }
      TurnIsLocal(s, t, k, t.inflight[k]);
    }
  }

  lemma TurnIsLocal(s: System, t: System, k: Name, plan: seq<Write>)
    requires k in s.specs && k in t.specs && t.specs[k] == s.specs[k] && InTurn(s, k, plan)
    ensures InTurn(t, k, plan)
  {
    hide UpdateIsLast, UpdateFollows;
  }

  lemma BeginInTurn(cal: Calendar, s: System, a: Action)
    requires cal.Valid() && a.Begin? && ViewOf(s, a.order).Valid() && a.key in s.specs
    ensures InTurn(s, a.key, Plan(cal, ViewOf(s, a.order), a.key, a.now, a.paused, a.gen))
  {
    hide Plan, UpdateShape, RunShape, MayLock, UpdateFollows, UpdateIsLast;
    var v, k := ViewOf(s, a.order), a.key;
    if k in v.events {
      PlanHasShape(cal, v, k, a.now, a.paused, a.gen);
    } else {
      NoPlan(cal, v, k, a.now, a.paused, a.gen);
      NothingInTurn(s, k);
    }
  }

  lemma {:induction false} RunInTurn(cal: Calendar, states: seq<System>, actions: seq<Action>, n: nat)
    requires History(cal, states, actions) && n < |states|
    ensures Inv(cal, states[n]) && Domains(states[n]) && AllInTurn(states[n])
  {
    hide Inv, Do, Enabled, AllInTurn;
    RunInv(cal, states, actions, n);
    InvDomains(cal, states[n]);
    if n == 0 {
      NothingOnItsWay(states[0]);
    } else {
      RunInTurn(cal, states, actions, n - 1);
      StepInTurn(cal, states[n - 1], actions[n - 1]);
    }
  }

  lemma NothingOnItsWay(s: System)
    requires Init(s) && Domains(s)
    ensures AllInTurn(s)
  {
  }

  // ------------------------------------------------------------------ a lease is its holder's own

  /** At step i a sync of l began, its lister showed l leaderless, and l's leader in s is what it was then. */
  ghost predicate BeganLeaderless(states: seq<System>, actions: seq<Action>, i: int, s: System, l: Name) {
    && 0 <= i < |actions| && i < |states| && actions[i].Begin? && actions[i].key == l
    && l in states[i].cache && states[i].cache[l].leader.None?
    && l in states[i].events && l in s.events && s.events[l].leader == states[i].events[l].leader
  }

  ghost predicate WouldLead(s: System, l: Name)
    requires l in s.specs
  {
    l in s.inflight && CreateLease(GroupLease(s.specs[l].group), l) in s.inflight[l]
  }

  lemma StepLeads(cal: Calendar, s: System, a: Action, l: Name)
    requires cal.Valid() && cal.HasAlways() && Inv(cal, s) && Enabled(cal, s, a) && Domains(s) && AllInTurn(s)
    requires l in Do(cal, s, a).specs && WouldLead(Do(cal, s, a), l)
    ensures l in s.events && l in Do(cal, s, a).events && Do(cal, s, a).events[l].leader == s.events[l].leader
    ensures if a.Begin? && a.key == l then l in s.cache && s.cache[l].leader.None? else WouldLead(s, l)
  {
    hide Inv, Do, Enabled, Plan, LeasesMove, RunsMove, CacheMoves, InTurn, Listed, Extends;
    var t := StepMoves(cal, s, a);
    OnlyCommitsWrite(s, a);
    WrittenIsPlanned(s, a);
    if a.Begin? && a.key == l {
      PlansToLead(cal, s, a);
      BeginsOnly(cal, s, a);
    } else if a == Commit(l) {
      RestInTurn(s, l);
    }
  }

  /** If no sync of l was about to create the lease at step b and one is at step n, it began since. */
  lemma {:induction false} RunLeads(cal: Calendar, states: seq<System>, actions: seq<Action>, b: nat, n: nat, l: Name) returns (i: nat)
    requires History(cal, states, actions) && b <= n < |states|
    requires l in states[b].specs ==> !WouldLead(states[b], l)
    requires l in states[n].specs && WouldLead(states[n], l)
    ensures b <= i < n && BeganLeaderless(states, actions, i, states[n], l)
    ensures l in states[i + 1].specs && WouldLead(states[i + 1], l)
    decreases n
  {
    hide Inv, Do, Enabled, AllInTurn, WouldLead;
    if n == b {
      assert false;
    } else {
      RunInTurn(cal, states, actions, n - 1);
      StepLeads(cal, states[n - 1], actions[n - 1], l);
      if actions[n - 1].Begin? && actions[n - 1].key == l {
        i := n - 1;
      } else {
        i := RunLeads(cal, states, actions, b, n - 1, l);
      }
    }
  }

  /** With any number of workers and any lag: a group lease is created by a sync of its holder
      alone. That sync began when its lister showed the holder leaderless, and the leader the holder
      has stored is still the one of that moment; so none, if the lister was right. */
  lemma LeaseIsOwn(cal: Calendar, states: seq<System>, actions: seq<Action>, n: nat, group: string) returns (i: nat)
    requires History(cal, states, actions) && n < |actions|
    requires GroupLease(group) !in states[n].leases && GroupLease(group) in states[n + 1].leases
    ensures var l := states[n + 1].leases[GroupLease(group)];
            && l in states[n].specs && states[n].specs[l].group == group && group != ""
            && Creates(states[n], actions[n], l) && i < n && BeganLeaderless(states, actions, i, states[n], l)
  {
    hide Inv, Do, Enabled, AllInTurn, EventsMove, RunsMove, CacheMoves, PlansMove, BeganLeaderless;
    RunInTurn(cal, states, actions, n);
    var t := StepMoves(cal, states[n], actions[n]);
    var l := states[n + 1].leases[GroupLease(group)];
    WrittenIsPlanned(states[n], actions[n]);
    i := RunLeads(cal, states, actions, 0, n, l);
  }

  // ------------------------------------------------------------------ and created once

  /** A lock scan leaves l out only where the lister shows a leader for it. */
  ghost predicate SeesCreator(cal: Calendar, s: System, a: Action, l: Name) {
    Skips(cal, s, a, l) ==> s.cache[l].leader.Some?
  }

  /** l has created the lease of its group: it holds it until the lister shows a leader for l, and
      no sync is about to delete the lease before. */
  ghost predicate Created(s: System, l: Name)
    requires l in s.specs
  {
    var key := GroupLease(s.specs[l].group);
    && s.specs[l].group != ""
    && (l in s.alive ==>
         && l in s.cache && (HoldsGroup(s, l) || s.cache[l].leader.Some?)
         && (s.cache[l].leader.None? ==> forall k :: k in s.inflight && k in s.specs && SameGroup(s, k, l) ==> DeleteLease(key) !in s.inflight[k])
         && !WouldLead(s, l))
  }

  lemma JustCreated(cal: Calendar, s: System, a: Action, t: System, l: Name)
    requires cal.Valid() && Inv(cal, s) && Domains(s) && Domains(t) && AllInTurn(s) && Alone(s) && Moves(cal, s, a, t)
    requires l in s.specs && s.specs[l].group != "" && Creates(s, a, l)
    ensures Created(t, l)
  {
    hide Inv, Plan, EventsMove, RunsMove, InTurn, UpdateIsLast, UpdateFollows;
    WrittenIsPlanned(s, a);
    RestInTurn(s, l);
    assert forall w :: w in s.inflight[l][1..] ==> w.UpdateStatus?;
    forall k | k in t.inflight && k in t.specs && SameGroup(t, k, l) ensures k == l {
      assert SameGroup(s, k, l);
    }
  }

  /** A sync that begins finds the lease or a leader of l, and locks only past l. */
  lemma BeginCreated(cal: Calendar, s: System, a: Action, l: Name)
    requires cal.Valid() && Domains(s) && a.Begin? && ViewOf(s, a.order).Valid() && a.key in s.specs && l in s.specs && l in s.alive
    requires Created(s, l) && SeesCreator(cal, s, a, l) && SameGroup(s, a.key, l)
    ensures var plan, key := Plan(cal, ViewOf(s, a.order), a.key, a.now, a.paused, a.gen), GroupLease(s.specs[l].group);
            && (s.cache[l].leader.None? ==> DeleteLease(key) !in plan)
            && (a.key == l ==> CreateLease(key, l) !in plan)
  {
    hide Plan, UpdateShape, RunShape, UpdateIsLast, UpdateFollows, LockScan, SameDay;
    var v, k, key := ViewOf(s, a.order), a.key, GroupLease(s.specs[l].group);
    var plan := Plan(cal, v, k, a.now, a.paused, a.gen);
    if k !in v.events {
      NoPlan(cal, v, k, a.now, a.paused, a.gen);
    } else {
      PlanHasShape(cal, v, k, a.now, a.paused, a.gen);
      if DeleteLease(key) in plan {
        assert MayLock(cal, v, k, v.events[k]);
        ScanPassed(cal, v, s.specs[l].group, v.events[k].time.value, a.order, l);
      }
    }
  }

  lemma StepCreated(cal: Calendar, s: System, a: Action, l: Name)
    requires cal.Valid() && cal.HasAlways() && Inv(cal, s) && Enabled(cal, s, a) && SeesCreator(cal, s, a, l)
    requires l in s.specs && Created(s, l)
    ensures l in Do(cal, s, a).specs && Created(Do(cal, s, a), l)
  {
    hide Inv, Do, Enabled, Plan, EventsMove, RunsMove, Skips, Older;
    var t := StepMoves(cal, s, a);
    var key := GroupLease(s.specs[l].group);
    WrittenIsPlanned(s, a);
    if l in t.alive {
      assert l in s.alive;
      if HoldsGroup(s, l) {
        hide LeasesMove;
        HoldStays(s, a, t, l);
      }
      LeaderStaysListed(s, t, l);
      forall k | k in t.inflight && k in t.specs && SameGroup(t, k, l)
        ensures t.cache[l].leader.None? ==> DeleteLease(key) !in t.inflight[k]
        ensures k == l ==> CreateLease(key, l) !in t.inflight[k]
      {
        if a.Begin? && a.key == k {
          BeginCreated(cal, s, a, l);
        }
      }
      assert SameGroup(t, l, l);
    }
  }

  lemma LeaderStaysListed(s: System, t: System, l: Name)
    requires Extends(s, t) && l in s.cache && l in t.alive
    ensures l in t.cache && (s.cache[l].leader.Some? ==> t.cache[l].leader.Some?)
  {
  }

  lemma {:induction false} RunCreated(cal: Calendar, states: seq<System>, actions: seq<Action>, m: nat, n: nat, l: Name)
    requires GroupwiseHistory(cal, states, actions) && m < n < |states|
    requires forall i :: m < i < n ==> SeesCreator(cal, states[i], actions[i], l)
    requires l in states[m].specs && states[m].specs[l].group != "" && Creates(states[m], actions[m], l)
    ensures l in states[n].specs && Created(states[n], l)
    decreases n
  {
    hide Inv, Do, Enabled, AllInTurn, FreezeInv, Created, Moves, SeesCreator, Creates;
    if m + 1 < n {
      RunCreated(cal, states, actions, m, n - 1, l);
      RunInv(cal, states, actions, n - 1);
      StepCreated(cal, states[n - 1], actions[n - 1], l);
    } else {
      RunInTurn(cal, states, actions, m);
      RunFreeze(cal, states, actions, m);
      FreezeParts(cal, states[m]);
      var t := StepMoves(cal, states[m], actions[m]);
      JustCreated(cal, states[m], actions[m], t, l);
    }
  }

  /** A group lease is created at most once for each holder, if no two syncs of one group are on
      their way at once, and groups are not daily, or no lock scan leaves out a holder that the
      lister shows leaderless. Whoever creates it a second time was deleted before the sync that
      does so began, and still shown by the lister, without a leader. */
  lemma LeaseIsCreatedOnce(cal: Calendar, states: seq<System>, actions: seq<Action>, m: nat, n: nat, l: Name) returns (i: nat)
    requires GroupwiseHistory(cal, states, actions) && m < n < |actions|
    requires cal.daily ==> forall i :: m < i < n ==> SeesCreator(cal, states[i], actions[i], l)
    requires l in states[m].specs && Creates(states[m], actions[m], l)
    requires l in states[n].specs && Creates(states[n], actions[n], l)
    ensures l !in states[n].alive
    ensures m < i < n && actions[i].Begin? && actions[i].key == l
    ensures l !in states[i].alive && l in states[i].cache && states[i].cache[l].leader.None?
  {
    hide Inv, Do, Enabled, Created, Plan, AllInTurn;
    CreatorHasGroup(cal, states, actions, m, l);
    CreatorIsDone(cal, states, actions, m, l);
    i := RunLeads(cal, states, actions, m + 1, n, l);
    RunCreated(cal, states, actions, m, i + 1, l);
    GoneBefore(cal, states, actions, i, l);
    RunExtends(cal, states, actions, i, n);
    InvDomains(cal, states[i]);
  }

  lemma CreatorIsDone(cal: Calendar, states: seq<System>, actions: seq<Action>, m: nat, l: Name)
    requires History(cal, states, actions) && m < |actions| && l in states[m].specs && Creates(states[m], actions[m], l)
    ensures l in states[m + 1].specs && !WouldLead(states[m + 1], l)
  {
    hide Inv, Do, Enabled, InTurn, Listed, Plan, EventsMove, LeasesMove, RunsMove, CacheMoves;
    var s, a := states[m], actions[m];
    RunInTurn(cal, states, actions, m);
    var t := StepMoves(cal, s, a);
    WrittenIsPlanned(s, a);
    RestInTurn(s, l);
    assert forall w :: w in s.inflight[l][1..] ==> w.UpdateStatus?;
  }

  lemma GoneBefore(cal: Calendar, states: seq<System>, actions: seq<Action>, i: nat, l: Name)
    requires History(cal, states, actions) && i < |actions| && actions[i].Begin?
    requires l in states[i + 1].specs && Created(states[i + 1], l) && WouldLead(states[i + 1], l)
    ensures l !in states[i].alive
  {
    hide Do, Enabled;
    BeginsOnly(cal, states[i], actions[i]);
  }

  lemma CreatorHasGroup(cal: Calendar, states: seq<System>, actions: seq<Action>, m: nat, l: Name)
    requires History(cal, states, actions) && m < |actions| && l in states[m].specs && Creates(states[m], actions[m], l)
    ensures states[m].specs[l].group != ""
  {
    hide Inv, Do, Enabled, GoodStatus;
    RunInv(cal, states, actions, m);
    WrittenIsPlanned(states[m], actions[m]);
    HeadJustified(cal, states[m], l);
  }
}
