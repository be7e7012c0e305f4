/** Runs with one worker that show why the assumptions on days and deletions are needed: a daily
    group whose list of followers is incomplete, a group lease that its holder creates twice, and
    one that a deleted holder creates again. Each starts from the empty cluster. */
module Days {
  import opened Prelude
  import opened CalendarDays
  import opened CalendarTypes
  import opened EventSync
  import opened Protocol
  import opened Groups
  import opened Scenes
  import opened Steps

  const NOW: int := 2 * DAY
  const GLEASE := GroupLease("g")
  const EMPTY := System(map[], map[], {}, map[], map[], map[], map[], map[], map[])

  function SpecOn(title: string, day: int): Spec {
    Spec(title, "g", 0, Some(day * DAY), [])
  }

  function WaitsOn(rv: nat, day: int): Status {
    Waiting(rv, day * DAY)
  }

  function LedOn(rv: nat, day: int, l: Name): Status {
    Status(rv, Pending, Some(day * DAY), Some(l), [])
  }

  function GatheringOn(rv: nat, day: int, l: Name): Status {
    Status(rv, Pending, Some(day * DAY), Some(l), [Run("r", "gather", RunPending)])
  }

  ghost predicate At(daily: bool, care: Care, o: System, s: System) {
    Reaches(Two(daily), care, o, s)
  }

  function Begins(k: Name, order: seq<Name>, gen: Name): Action {
    Begin(k, order, NOW, false, gen)
  }

  // ------------------------------------------------------------------ what one event does

  /** An event is created, and its first sync sets phase and time. */
  lemma Appears(daily: bool, care: Care, o: System, s: System, k: Name, day: int, order: seq<Name>, gen: Name) returns (t: System)
    requires At(daily, care, o, s) && k !in s.specs && k !in s.inflight && gen !in s.owner
    ensures t == s.(specs := s.specs[k := SpecOn(k, day)], events := s.events[k := WaitsOn(1, day)], alive := s.alive + {k},
                    cache := s.cache[k := WaitsOn(1, day)], owner := s.owner[gen := k])
    requires var u := s.(specs := s.specs[k := SpecOn(k, day)], events := s.events[k := Fresh], alive := s.alive + {k}, cache := s.cache[k := Fresh]);
             ViewOf(u, order).Valid() && Careful(care, u, Begins(k, order, gen))
    ensures At(daily, care, o, t)
  {
    hide Reaches, Careful;
    TwoIsValid(daily);
    t := Adds(Two(daily), care, o, s, k, SpecOn(k, day));
    t := FirstSync(Two(daily), care, o, t, k, order, NOW, gen);
    assert t.events == s.events[k := WaitsOn(1, day)] && t.cache == s.cache[k := WaitsOn(1, day)];
  }

  /** k sees no lease of its group, on a title that is its own. */
  ghost predicate MayLead(s: System, k: Name, day: int, order: seq<Name>, gen: Name) {
    && k in s.specs && s.specs[k] == SpecOn(k, day) && k !in s.inflight && gen !in s.owner && ViewOf(s, order).Valid()
    && k in s.cache && s.cache[k] == WaitsOn(1, day) && day <= 1
    && GLEASE !in s.leases && (NameLease(k) in s.leases ==> s.leases[NameLease(k)] == k)
  }

  /** What the sync of k plans. */
  lemma LeadPlan(daily: bool, s: System, k: Name, day: int, order: seq<Name>, gen: Name)
    requires MayLead(s, k, day, order, gen)
    ensures Two(daily).Valid()
    ensures var title := if NameLease(k) in s.leases then [] else [CreateLease(NameLease(k), k)];
            Plan(Two(daily), ViewOf(s, order), k, NOW, false, gen) == title + [CreateLease(GLEASE, k), UpdateStatus(k, LedOn(1, day, k))]
  {
    hide Plan;
    TwoIsValid(daily);
    PlanToElect(daily, ViewOf(s, order), k, NOW, gen);
  }

  /** From its lease on, the sync of k goes one write further and stops before its status. */
  lemma TakesGroup(daily: bool, care: Care, o: System, s: System, k: Name, update: Write) returns (t: System)
    requires At(daily, care, o, s) && k in s.inflight && s.inflight[k] == [CreateLease(GLEASE, k), update] && GLEASE !in s.leases
    ensures At(daily, care, o, t) && t == s.(leases := s.leases[GLEASE := k], inflight := s.inflight - {k})
  {
    hide Reaches;
    assert s.inflight[k] == [CreateLease(GLEASE, k)] + [update];
    t := Writes(Two(daily), care, o, s, k, CreateLease(GLEASE, k), [update]);
    t := Stops(Two(daily), care, o, t, k);
    assert t.inflight == s.inflight - {k};
  }

  lemma LeadBegins(daily: bool, care: Care, o: System, s: System, k: Name, day: int, order: seq<Name>, gen: Name) returns (t: System)
    requires At(daily, care, o, s) && MayLead(s, k, day, order, gen) && Careful(care, s, Begins(k, order, gen))
    ensures GLEASE !in s.leases && k !in s.inflight && (NameLease(k) in s.leases ==> s.leases[NameLease(k)] == k)
    ensures At(daily, care, o, t)
    ensures var writes := [CreateLease(GLEASE, k), UpdateStatus(k, LedOn(1, day, k))];
            t == s.(inflight := s.inflight[k := if NameLease(k) in s.leases then writes else [CreateLease(NameLease(k), k)] + writes],
                    owner := s.owner[gen := k])
  {
    hide Reaches, Careful, Plan;
    LeadPlan(daily, s, k, day, order, gen);
    var writes := [CreateLease(GLEASE, k), UpdateStatus(k, LedOn(1, day, k))];
    assert [] + writes == writes;
    t := Syncs(Two(daily), care, o, s, Begins(k, order, gen),
               if NameLease(k) in s.leases then writes else [CreateLease(NameLease(k), k)] + writes);
  }

  /** The sync of k takes its leases and stops before it writes its status. */
  lemma TakesLease(daily: bool, care: Care, o: System, s: System, k: Name, day: int, order: seq<Name>, gen: Name) returns (t: System)
    requires At(daily, care, o, s) && MayLead(s, k, day, order, gen) && Careful(care, s, Begins(k, order, gen))
    ensures At(daily, care, o, t)
    ensures t == s.(leases := s.leases[NameLease(k) := k][GLEASE := k], owner := s.owner[gen := k])
  {
    hide At, Careful, MayLead;
    t := LeadBegins(daily, care, o, s, k, day, order, gen);
    if NameLease(k) in s.leases {
      t := TakesGroup(daily, care, o, t, k, UpdateStatus(k, LedOn(1, day, k)));
      assert s.leases[NameLease(k) := k] == s.leases;
    } else {
      t := TakesBoth(daily, care, o, t, k, UpdateStatus(k, LedOn(1, day, k)));
    }
    assert t.inflight == s.inflight;
  }

  lemma TakesBoth(daily: bool, care: Care, o: System, s: System, k: Name, update: Write) returns (t: System)
    requires At(daily, care, o, s) && k in s.inflight && GLEASE !in s.leases && NameLease(k) !in s.leases
    requires s.inflight[k] == [CreateLease(NameLease(k), k)] + [CreateLease(GLEASE, k), update]
    ensures At(daily, care, o, t) && t == s.(leases := s.leases[NameLease(k) := k][GLEASE := k], inflight := s.inflight - {k})
  {
    hide Reaches;
    t := Writes(Two(daily), care, o, s, k, CreateLease(NameLease(k), k), [CreateLease(GLEASE, k), update]);
    t := TakesGroup(daily, care, o, t, k, update);
    assert t.inflight == s.inflight - {k};
  }

  /** The same to its end. */
  lemma Leads(daily: bool, care: Care, o: System, s: System, k: Name, day: int, order: seq<Name>, gen: Name) returns (t: System)
    requires At(daily, care, o, s) && MayLead(s, k, day, order, gen) && Careful(care, s, Begins(k, order, gen))
    requires NameLease(k) !in s.leases && k in s.alive && k in s.events && s.events[k].rv == 1
    ensures At(daily, care, o, t)
    ensures t == s.(leases := s.leases[NameLease(k) := k][GLEASE := k], owner := s.owner[gen := k],
                    events := s.events[k := LedOn(2, day, k)], cache := s.cache[k := LedOn(2, day, k)])
  {
    hide At, Careful, MayLead;
    t := LeadBegins(daily, care, o, s, k, day, order, gen);
    t := LeadWrites(daily, care, o, t, k, day);
    assert t.inflight == s.inflight;
  }

  lemma LeadWrites(daily: bool, care: Care, o: System, s: System, k: Name, day: int) returns (t: System)
    requires At(daily, care, o, s) && k in s.inflight && GLEASE !in s.leases && NameLease(k) !in s.leases
    requires s.inflight[k] == [CreateLease(NameLease(k), k)] + [CreateLease(GLEASE, k), UpdateStatus(k, LedOn(1, day, k))]
    requires k in s.alive && k in s.events && s.events[k].rv == 1
    ensures At(daily, care, o, t)
    ensures t == s.(leases := s.leases[NameLease(k) := k][GLEASE := k], inflight := s.inflight - {k},
                    events := s.events[k := LedOn(2, day, k)], cache := s.cache[k := LedOn(2, day, k)])
  {
    hide Reaches;
    var update := UpdateStatus(k, LedOn(1, day, k));
    t := Writes(Two(daily), care, o, s, k, CreateLease(NameLease(k), k), [CreateLease(GLEASE, k), update]);
    assert t.inflight[k] == [CreateLease(GLEASE, k)] + [update];
    t := Writes(Two(daily), care, o, t, k, CreateLease(GLEASE, k), [update]);
    t := OneUpdate(Two(daily), care, o, t, k, LedOn(1, day, k));
    assert t.inflight == s.inflight - {k};
  }

  /** y, of another day than the holder x, is about to adopt it. */
  ghost predicate MayAdopt(s: System, gen: Name) {
    && ViewOf(s, ["x", "y"]).Valid() && gen !in s.owner
    && "y" in s.specs && s.specs["y"] == SpecOn("y", 1) && "y" !in s.inflight && s.cache["y"] == WaitsOn(1, 1)
    && NameLease("y") !in s.leases && GLEASE in s.leases && s.leases[GLEASE] == "x" && s.cache["x"].time == Some(0)
  }

  lemma AdoptBegins(care: Care, o: System, s: System, gen: Name) returns (t: System)
    requires At(true, care, o, s) && Careful(care, s, Begins("y", ["x", "y"], gen)) && MayAdopt(s, gen)
    ensures NameLease("y") !in s.leases && "y" !in s.inflight
    ensures At(true, care, o, t)
    ensures t == s.(inflight := s.inflight["y" := [CreateLease(NameLease("y"), "y"), UpdateStatus("y", LedOn(1, 1, "x"))]],
                    owner := s.owner[gen := "y"])
  {
    hide Reaches, Careful, Plan;
    TwoIsValid(true);
    PlanToElect(true, ViewOf(s, ["x", "y"]), "y", NOW, gen);
    t := Syncs(Two(true), care, o, s, Begins("y", ["x", "y"], gen),
               [CreateLease(NameLease("y"), "y"), UpdateStatus("y", LedOn(1, 1, "x"))]);
  }

  lemma AdoptWrites(care: Care, o: System, s: System) returns (t: System)
    requires At(true, care, o, s) && "y" in s.inflight && NameLease("y") !in s.leases
    requires s.inflight["y"] == [CreateLease(NameLease("y"), "y"), UpdateStatus("y", LedOn(1, 1, "x"))]
    requires "y" in s.alive && "y" in s.events && s.events["y"].rv == 1
    ensures At(true, care, o, t)
    ensures t == s.(events := s.events["y" := LedOn(2, 1, "x")], leases := s.leases[NameLease("y") := "y"], inflight := s.inflight - {"y"})
  {
    hide Reaches;
    var update := UpdateStatus("y", LedOn(1, 1, "x"));
    assert s.inflight["y"] == [CreateLease(NameLease("y"), "y")] + [update];
    t := Writes(Two(true), care, o, s, "y", CreateLease(NameLease("y"), "y"), [update]);
    assert t.inflight["y"] == [update] + [];
    t := Writes(Two(true), care, o, t, "y", update, []);
    t := Stops(Two(true), care, o, t, "y");
    assert t.inflight == s.inflight - {"y"};
  }

  /** y is led by x all the same; the lister does not see it yet. */
  lemma AdoptsUnseen(care: Care, o: System, s: System, gen: Name) returns (t: System)
    requires At(true, care, o, s) && Careful(care, s, Begins("y", ["x", "y"], gen)) && MayAdopt(s, gen)
    requires "y" in s.alive && "y" in s.events && s.events["y"] == WaitsOn(1, 1)
    ensures At(true, care, o, t)
    ensures t == s.(events := s.events["y" := LedOn(2, 1, "x")], leases := s.leases[NameLease("y") := "y"], owner := s.owner[gen := "y"])
  {
    hide At, Careful, MayAdopt;
    t := AdoptBegins(care, o, s, gen);
    t := AdoptWrites(care, o, t);
    assert t.inflight == s.inflight;
  }

  /** What x, leader of its group on day 0, sees: itself and, maybe, y of day 1 without a leader. */
  ghost predicate XLeads(v: View) {
    && v.Valid() && "x" in v.events && v.events["x"] == LedOn(2, 0, "x") && v.specs["x"] == SpecOn("x", 0)
    && GLEASE in v.leases && NameLease("x") in v.leases && v.leases[NameLease("x")] == "x"
    && (v.order == ["x"] || (v.order == ["x", "y"] && v.events["y"] == WaitsOn(1, 1) && v.specs["y"] == SpecOn("y", 1)))
  }

  lemma LockPlan(v: View, gen: Name)
    requires XLeads(v)
    ensures Feasible(Two(true).days)
    ensures Plan(Two(true), v, "x", NOW, false, gen) ==
              [DeleteLease(GLEASE), UpdateStatus("x", LedOn(2, 0, "x").(runs := [Run(gen, "gather", RunPending)]))]
  {
    hide Plan;
    assert v.order[1..] == [] || (v.order[1..] == ["y"] && v.order[1..][1..] == []);
    assert LockScan(Two(true), v, "g", 0, []).Pass? && FollowersScan(v.events, "x", "", []).Pass?;
    if v.order != ["x"] {
      assert !SameDay(DAY, 0, 0);
      assert LockScan(Two(true), v, "g", 0, ["y"]).Pass? && FollowersScan(v.events, "x", "", ["y"]).Pass?;
    }
    assert LockScan(Two(true), v, "g", 0, v.order).Pass? && FollowersScan(v.events, "x", "", v.order).Pass?;
    hide LockScan, FollowersScan;
    PlanToLock(true, v, "x", NOW, gen);
  }

  /** x deletes the lease, and its sync stops before it writes its status. */
  lemma Unlocks(care: Care, o: System, s: System, order: seq<Name>, gen: Name) returns (t: System)
    requires At(true, care, o, s) && Careful(care, s, Begins("x", order, gen)) && XLeads(ViewOf(s, order))
    requires "x" in s.specs && "x" !in s.inflight && gen !in s.owner
    ensures At(true, care, o, t) && t == s.(leases := s.leases - {GLEASE}, owner := s.owner[gen := "x"])
  {
    hide Reaches, Careful, Plan;
    TwoIsValid(true);
    LockPlan(ViewOf(s, order), gen);
    var update := UpdateStatus("x", LedOn(2, 0, "x").(runs := [Run(gen, "gather", RunPending)]));
    t := Syncs(Two(true), care, o, s, Begins("x", order, gen), [DeleteLease(GLEASE), update]);
    assert t.inflight["x"] == [DeleteLease(GLEASE)] + [update];
    t := Writes(Two(true), care, o, t, "x", DeleteLease(GLEASE), [update]);
    t := Stops(Two(true), care, o, t, "x");
    assert t.inflight == s.inflight;
  }

  /** x deletes the lease and records its run. */
  lemma Locks(care: Care, o: System, s: System, order: seq<Name>) returns (t: System)
    requires At(true, care, o, s) && Careful(care, s, Begins("x", order, "r")) && XLeads(ViewOf(s, order))
    requires "x" in s.specs && "x" !in s.inflight && "r" !in s.owner && "x" in s.alive && "x" in s.events && s.events["x"].rv == 2
    ensures At(true, care, o, t)
    ensures t == s.(events := s.events["x" := GatheringOn(3, 0, "x")], cache := s.cache["x" := GatheringOn(3, 0, "x")],
                    leases := s.leases - {GLEASE}, owner := s.owner["r" := "x"])
  {
    hide Reaches, Careful, Plan;
    TwoIsValid(true);
    LockPlan(ViewOf(s, order), "r");
    t := Syncs(Two(true), care, o, s, Begins("x", order, "r"), [DeleteLease(GLEASE), UpdateStatus("x", GatheringOn(2, 0, "x"))]);
    hide At, XLeads;
    t := LockWrites(care, o, t);
    assert t.inflight == s.inflight;
  }

  lemma LockWrites(care: Care, o: System, s: System) returns (t: System)
    requires At(true, care, o, s) && "x" in s.inflight && s.inflight["x"] == [DeleteLease(GLEASE), UpdateStatus("x", GatheringOn(2, 0, "x"))]
    requires GLEASE in s.leases && "x" in s.alive && "x" in s.events && s.events["x"].rv == 2
    ensures At(true, care, o, t)
    ensures t == s.(events := s.events["x" := GatheringOn(3, 0, "x")], cache := s.cache["x" := GatheringOn(3, 0, "x")],
                    leases := s.leases - {GLEASE}, inflight := s.inflight - {"x"})
  {
    hide Reaches;
    var update := UpdateStatus("x", GatheringOn(2, 0, "x"));
    assert s.inflight["x"] == [DeleteLease(GLEASE)] + [update];
    t := Writes(Two(true), care, o, s, "x", DeleteLease(GLEASE), [update]);
    t := OneUpdate(Two(true), care, o, t, "x", GatheringOn(2, 0, "x"));
    assert t.inflight == s.inflight - {"x"};
  }

  lemma RunPlan(v: View, gen: Name)
    requires v.Valid() && v.order == ["x", "y"] && v.events["x"] == GatheringOn(3, 0, "x") && v.specs["x"] == SpecOn("x", 0)
    requires v.events["y"] == WaitsOn(1, 1) && v.specs["y"] == SpecOn("y", 1)
    requires GLEASE !in v.leases && NameLease("x") in v.leases && v.leases[NameLease("x")] == "x" && "r" !in v.tekton
    ensures Feasible(Two(true).days) && Plan(Two(true), v, "x", NOW, false, gen) == [CreateRun("r", "x", "gather", ["x"])]
  {
    hide Plan;
    assert v.order[1..] == ["y"] && ["y"][1..] == [];
    assert FollowersScan(v.events, "x", "", []).Pass? && FollowersOf(v.events, "x", []) == [];
    assert FollowersScan(v.events, "x", "", ["y"]).Pass? && FollowersOf(v.events, "x", ["y"]) == [];
    assert FollowersScan(v.events, "x", "", v.order).Pass? && FollowersOf(v.events, "x", v.order) == ["x"];
    hide FollowersScan, FollowersOf;
    PlanToRun(true, v, "x", "r", NOW, gen);
  }

  // ------------------------------------------------------------------ a list that is incomplete

  const ONE := Workers(1, false)

  const XALONE := System(
    map["x" := SpecOn("x", 0)], map["x" := LedOn(2, 0, "x")], {"x"}, map[NameLease("x") := "x", GLEASE := "x"], map[],
    map["x" := LedOn(2, 0, "x")], map[], map[], map["0" := "x", "1" := "x"])

  lemma XAlone(care: Care)
    requires care.Workers? && care.count > 0
    ensures At(true, care, EMPTY, XALONE)
  {
    hide Reaches;
    TwoIsValid(true);
    Itself(Two(true), care, EMPTY);
    var t := Appears(true, care, EMPTY, EMPTY, "x", 0, ["x"], "0");
    t := Leads(true, care, EMPTY, t, "x", 0, ["x"], "1");
    assert t == XALONE;
  }

  /** x leads on day 0, y of day 1 has appeared. */
  const XANDY := System(
    map["x" := SpecOn("x", 0), "y" := SpecOn("y", 1)], map["x" := LedOn(2, 0, "x"), "y" := WaitsOn(1, 1)], {"x", "y"},
    map[NameLease("x") := "x", GLEASE := "x"], map[], map["x" := LedOn(2, 0, "x"), "y" := WaitsOn(1, 1)], map[], map[],
    map["0" := "x", "1" := "x", "2" := "y"])

  lemma XAndY()
    ensures At(true, ONE, EMPTY, XANDY)
  {
    hide Reaches;
    XAlone(ONE);
    var t := Appears(true, ONE, EMPTY, XALONE, "y", 1, ["x", "y"], "2");
    assert t.events == XANDY.events && t.cache == XANDY.cache && t.specs == XANDY.specs && t.owner == XANDY.owner && t.alive == XANDY.alive;
  }

  /** x, which sees y without a leader, hands on a list without y. */
  lemma HandsOnAlone(o: System, s: System, gen: Name) returns (t: System)
    requires At(true, ONE, o, s) && ViewOf(s, ["x", "y"]).Valid() && s.cache["x"] == GatheringOn(3, 0, "x") && s.cache["y"] == WaitsOn(1, 1)
    requires "x" in s.specs && s.specs["x"] == SpecOn("x", 0) && "y" in s.specs && s.specs["y"] == SpecOn("y", 1)
    requires GLEASE !in s.leases && NameLease("x") in s.leases && s.leases[NameLease("x")] == "x"
    requires "r" !in s.tekton && "r" !in s.seen && s.inflight == map[] && gen !in s.owner
    ensures At(true, ONE, o, t) && t.events == s.events && t.alive == s.alive
    ensures t.tekton == s.tekton["r" := TektonRun("x", "gather", RunPending, false, ["x"])]
  {
    hide Reaches, Plan;
    TwoIsValid(true);
    RunPlan(ViewOf(s, ["x", "y"]), gen);
    var run := CreateRun("r", "x", "gather", ["x"]);
    t := Syncs(Two(true), ONE, o, s, Begins("x", ["x", "y"], gen), [run]);
    assert t.inflight["x"] == [run] + [];
    t := Writes(Two(true), ONE, o, t, "x", run, []);
  }

  const ADOPTED := System(
    map["x" := SpecOn("x", 0), "y" := SpecOn("y", 1)], map["x" := LedOn(2, 0, "x"), "y" := LedOn(2, 1, "x")], {"x", "y"},
    map[NameLease("x") := "x", GLEASE := "x", NameLease("y") := "y"], map[], map["x" := LedOn(2, 0, "x"), "y" := WaitsOn(1, 1)],
    map[], map[],
    map["0" := "x", "1" := "x", "2" := "y", "3" := "y"])

  lemma YAdoptsUnseen()
    ensures At(true, ONE, EMPTY, ADOPTED)
  {
    hide At;
    XAndY();
    AdoptedIs();
    var t := AdoptsUnseen(ONE, EMPTY, XANDY, "3");
  }

  lemma AdoptedIs()
    ensures ADOPTED.events == XANDY.events["y" := LedOn(2, 1, "x")] && ADOPTED.leases == XANDY.leases[NameLease("y") := "y"]
    ensures ADOPTED.owner == XANDY.owner["3" := "y"]
  {
  }

  const LOCKED := System(
    map["x" := SpecOn("x", 0), "y" := SpecOn("y", 1)], map["x" := GatheringOn(3, 0, "x"), "y" := LedOn(2, 1, "x")], {"x", "y"},
    map[NameLease("x") := "x", NameLease("y") := "y"], map[], map["x" := GatheringOn(3, 0, "x"), "y" := WaitsOn(1, 1)], map[],
    map[],
    map["0" := "x", "1" := "x", "2" := "y", "3" := "y", "r" := "x"])

  lemma AdoptedLeads()
    ensures XLeads(ViewOf(ADOPTED, ["x", "y"])) && Careful(ONE, ADOPTED, Begins("x", ["x", "y"], "r"))
  {
  }

  lemma XLocks()
    ensures At(true, ONE, EMPTY, LOCKED)
  {
    hide At, XLeads, Careful;
    YAdoptsUnseen();
    AdoptedLeads();
    LockedIs();
    LockedLeases();
    var t := Locks(ONE, EMPTY, ADOPTED, ["x", "y"]);
  }

  lemma LockedIs()
    ensures LOCKED.events == ADOPTED.events["x" := GatheringOn(3, 0, "x")] && LOCKED.cache == ADOPTED.cache["x" := GatheringOn(3, 0, "x")]
  {
  }

  lemma LockedLeases()
    ensures LOCKED.leases == ADOPTED.leases - {GLEASE} && LOCKED.owner == ADOPTED.owner["r" := "x"]
  {
  }

  /** With one worker, a daily group and a lister that lags, a follower of another day is not on the
      list: the lock scan did not wait for the lister to show it. */
  lemma DailyListIsIncomplete()
    ensures exists t ::
      && Reaches(Two(true), Workers(1, false), EMPTY, t)
      && Member(t, "x", "y") && "r" in t.tekton && t.tekton["r"].event == "x" && t.tekton["r"].followers == ["x"]
  {
    hide Reaches;
    XLocks();
    var t := HandsOnAlone(EMPTY, LOCKED, "4");
    assert At(true, ONE, EMPTY, t) && Member(t, "x", "y");
  }

  // ------------------------------------------------------------------ a lease created twice

  /** From the empty cluster a run leads to a state in which y holds the lease of its group, on to
      one in which nobody does, and on to t, in which y holds it again. */
  ghost predicate CreatedTwice(daily: bool, care: Care, y: Name, t: System) {
    exists first, between ::
      && Reaches(Two(daily), care, EMPTY, first) && Reaches(Two(daily), care, first, between) && Reaches(Two(daily), care, between, t)
      && y in first.specs && HoldsGroup(first, y) && GLEASE !in between.leases && y in t.specs && HoldsGroup(t, y)
  }

  const EAGER := Workers(1, true)

  const UNLOCKED := System(
    map["x" := SpecOn("x", 0)], map["x" := LedOn(2, 0, "x")], {"x"}, map[NameLease("x") := "x"], map[],
    map["x" := LedOn(2, 0, "x")], map[], map[], map["0" := "x", "1" := "x", "2" := "x"])

  lemma XUnlocks()
    ensures At(true, EAGER, EMPTY, UNLOCKED)
  {
    hide Reaches;
    XAlone(EAGER);
    var t := Unlocks(EAGER, EMPTY, XALONE, ["x"], "2");
    assert t.leases == UNLOCKED.leases && t.owner == UNLOCKED.owner;
  }

  const YAPPEARED := System(
    map["x" := SpecOn("x", 0), "y" := SpecOn("y", 1)], map["x" := LedOn(2, 0, "x"), "y" := WaitsOn(1, 1)], {"x", "y"},
    map[NameLease("x") := "x"], map[], map["x" := LedOn(2, 0, "x"), "y" := WaitsOn(1, 1)], map[], map[],
    map["0" := "x", "1" := "x", "2" := "x", "3" := "y"])

  lemma YAppears()
    ensures At(true, EAGER, EMPTY, YAPPEARED)
  {
    hide Reaches;
    XUnlocks();
    var t := Appears(true, EAGER, EMPTY, UNLOCKED, "y", 1, ["x", "y"], "3");
    assert t.events == YAPPEARED.events && t.cache == YAPPEARED.cache && t.specs == YAPPEARED.specs;
    assert t.owner == YAPPEARED.owner && t.alive == YAPPEARED.alive;
  }

  const TAKEN := System(
    map["x" := SpecOn("x", 0), "y" := SpecOn("y", 1)], map["x" := LedOn(2, 0, "x"), "y" := WaitsOn(1, 1)], {"x", "y"},
    map[NameLease("x") := "x", NameLease("y") := "y", GLEASE := "y"], map[],
    map["x" := LedOn(2, 0, "x"), "y" := WaitsOn(1, 1)], map[], map[],
    map["0" := "x", "1" := "x", "2" := "x", "3" := "y", "4" := "y"])

  lemma AppearedMayLead()
    ensures MayLead(YAPPEARED, "y", 1, ["x", "y"], "4") && Careful(EAGER, YAPPEARED, Begins("y", ["x", "y"], "4"))
  {
  }

  lemma YTakes()
    ensures At(true, EAGER, EMPTY, TAKEN)
  {
    hide At, MayLead, Careful;
    YAppears();
    AppearedMayLead();
    var t := TakesLease(true, EAGER, EMPTY, YAPPEARED, "y", 1, ["x", "y"], "4");
    assert t.leases == TAKEN.leases && t.owner == TAKEN.owner;
  }

  const FREED := System(
    map["x" := SpecOn("x", 0), "y" := SpecOn("y", 1)], map["x" := LedOn(2, 0, "x"), "y" := WaitsOn(1, 1)], {"x", "y"},
    map[NameLease("x") := "x", NameLease("y") := "y"], map[],
    map["x" := LedOn(2, 0, "x"), "y" := WaitsOn(1, 1)], map[], map[],
    map["0" := "x", "1" := "x", "2" := "x", "3" := "y", "4" := "y", "5" := "x"])

  lemma TakenLeads()
    ensures XLeads(ViewOf(TAKEN, ["x", "y"])) && Careful(EAGER, TAKEN, Begins("x", ["x", "y"], "5"))
  {
  }

  lemma XFrees()
    ensures At(true, EAGER, TAKEN, FREED)
  {
    hide Reaches, XLeads, Careful;
    TwoIsValid(true);
    Itself(Two(true), EAGER, TAKEN);
    TakenLeads();
    var t := Unlocks(EAGER, TAKEN, TAKEN, ["x", "y"], "5");
    assert t.leases == FREED.leases && t.owner == FREED.owner;
  }

  lemma FreedMayLead()
    ensures MayLead(FREED, "y", 1, ["x", "y"], "6") && Careful(EAGER, FREED, Begins("y", ["x", "y"], "6"))
  {
  }

  lemma YTakesAgain() returns (t: System)
    ensures At(true, EAGER, FREED, t) && t.specs == FREED.specs && t.alive == FREED.alive
    ensures GLEASE in t.leases && t.leases[GLEASE] == "y"
  {
    hide Reaches, MayLead, Careful;
    TwoIsValid(true);
    Itself(Two(true), EAGER, FREED);
    FreedMayLead();
    t := TakesLease(true, EAGER, FREED, FREED, "y", 1, ["x", "y"], "6");
  }

  /** In a daily group, with one worker and listers that show exactly what is stored, an event that
      exists all the time creates the lease twice: its sync stops before it writes its status, and
      the lock scan of x, which leads another day, leaves it out. */
  lemma DailyLeaseIsCreatedTwice()
    ensures exists t :: CreatedTwice(true, Workers(1, true), "y", t) && "y" in t.alive
  {
    hide Reaches;
    YTakes();
    XFrees();
    var t := YTakesAgain();
    assert HoldsGroup(TAKEN, "y") && HoldsGroup(t, "y");
    assert CreatedTwice(true, EAGER, "y", t);
  }

  // ------------------------------------------------------------------ a deleted holder

  const YALONE := System(
    map["y" := SpecOn("y", 1)], map["y" := WaitsOn(1, 1)], {"y"}, map[NameLease("y") := "y", GLEASE := "y"], map[],
    map["y" := WaitsOn(1, 1)], map[], map[], map["0" := "y", "1" := "y"])

  lemma YAlone()
    ensures At(false, ONE, EMPTY, YALONE)
  {
    hide Reaches;
    TwoIsValid(false);
    Itself(Two(false), ONE, EMPTY);
    var t := Appears(false, ONE, EMPTY, EMPTY, "y", 1, ["y"], "0");
    t := TakesLease(false, ONE, EMPTY, t, "y", 1, ["y"], "1");
    assert t == YALONE;
  }

  const YGONE := System(
    map["y" := SpecOn("y", 1)], map["y" := WaitsOn(1, 1)], {}, map[NameLease("y") := "y"], map[],
    map["y" := WaitsOn(1, 1)], map[], map[], map["0" := "y", "1" := "y"])

  lemma YIsDeleted()
    ensures At(false, ONE, YALONE, YGONE)
  {
    hide Reaches;
    TwoIsValid(false);
    Itself(Two(false), ONE, YALONE);
    var t := Then(Two(false), ONE, YALONE, YALONE, Delete("y"));
    t := Then(Two(false), ONE, YALONE, t, Collect(GLEASE));
    assert t.alive == YGONE.alive && t.leases == YGONE.leases;
  }

  /** Also where groups are not daily, with one worker: a deleted event that the lister still shows
      creates the lease again. */
  lemma DeletedHolderCreatesAgain()
    ensures exists t :: CreatedTwice(false, Workers(1, false), "y", t) && "y" !in t.alive && "y" in t.cache
  {
    hide Reaches;
    YAlone();
    YIsDeleted();
    TwoIsValid(false);
    Itself(Two(false), ONE, YGONE);
    var t := TakesLease(false, ONE, YGONE, YGONE, "y", 1, ["y"], "2");
    assert HoldsGroup(YALONE, "y") && HoldsGroup(t, "y");
    assert CreatedTwice(false, ONE, "y", t);
  }
}
