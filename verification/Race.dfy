/** Two workers are enough to break the freeze. The run below starts from the empty cluster,
    every sync begins with caches that show exactly what is stored, and no write fails. */
module Race {
  import opened Prelude
  import opened CalendarDays
  import opened CalendarTypes
  import opened EventSync
  import opened Protocol
  import opened Groups
  import opened Scenes
  import opened Steps

  const TWO := Two(false)
  const NOW: int := 100 * SECOND
  const CARE := Workers(2, true)

  function SpecOf(title: string): Spec {
    Spec(title, "g", 0, None, [])
  }

  function Led(rv: nat): Status {
    Status(rv, Pending, Some(NOW), Some("x"), [])
  }

  function Gathering(rv: nat): Status {
    Status(rv, Pending, Some(NOW), Some("x"), [Run("r", "gather", RunPending)])
  }

  const EMPTY := System(map[], map[], {}, map[], map[], map[], map[], map[], map[])
  const XLEASE := NameLease("x")
  const YLEASE := NameLease("y")
  const GLEASE := GroupLease("g")

  ghost predicate At(o: System, s: System) {
    Reaches(TWO, CARE, o, s)
  }

  function Begins(k: Name, order: seq<Name>, gen: Name): Action {
    Begin(k, order, NOW, false, gen)
  }

  // ------------------------------------------------------------------ x is elected

  const CREATED := System(
    map["x" := SpecOf("x")], map["x" := Waiting(1, NOW)], {"x"}, map[], map[], map["x" := Waiting(1, NOW)], map[], map[],
    map["0" := "x"])

  lemma XIsCreated()
    ensures At(EMPTY, CREATED)
  {
    hide Reaches, Plan;
    TwoIsValid(false);
    Itself(TWO, CARE, EMPTY);
    var t := Adds(TWO, CARE, EMPTY, EMPTY, "x", SpecOf("x"));
    t := FirstSync(TWO, CARE, EMPTY, t, "x", ["x"], NOW, "0");
    assert t == CREATED;
  }

  const ELECTED := System(
    map["x" := SpecOf("x")], map["x" := Led(2)], {"x"}, map[XLEASE := "x", GLEASE := "x"], map[], map["x" := Led(2)], map[], map[],
    map["0" := "x", "1" := "x"])

  lemma XIsElected()
    ensures At(EMPTY, ELECTED)
  {
    hide Reaches, Plan;
    XIsCreated();
    TwoIsValid(false);
    PlanToElect(false, ViewOf(CREATED, ["x"]), "x", NOW, "1");
    var t := Syncs(TWO, CARE, EMPTY, CREATED, Begins("x", ["x"], "1"), [CreateLease(XLEASE, "x"), CreateLease(GLEASE, "x"), UpdateStatus("x", Led(1))]);
    t := ElectionWrites(EMPTY, t);
    assert t == ELECTED;
  }

  lemma ElectionWrites(o: System, s: System) returns (t: System)
    requires At(o, s) && "x" in s.inflight && s.inflight["x"] == [CreateLease(XLEASE, "x"), CreateLease(GLEASE, "x"), UpdateStatus("x", Led(1))]
    requires s.leases == map[] && "x" in s.events && s.events["x"].rv == 1 && "x" in s.alive
    ensures At(o, t)
    ensures t == s.(events := s.events["x" := Led(2)], cache := s.cache["x" := Led(2)],
                    leases := map[XLEASE := "x"][GLEASE := "x"], inflight := s.inflight - {"x"})
  {
    hide Reaches;
    t := Writes(TWO, CARE, o, s, "x", CreateLease(XLEASE, "x"), [CreateLease(GLEASE, "x"), UpdateStatus("x", Led(1))]);
    t := Writes(TWO, CARE, o, t, "x", CreateLease(GLEASE, "x"), [UpdateStatus("x", Led(1))]);
    t := OneUpdate(TWO, CARE, o, t, "x", Led(1));
    assert t.inflight == s.inflight - {"x"};
  }

  // ------------------------------------------------------------------ two syncs on their way

  const XLOCKS: seq<Write> := [DeleteLease(GLEASE), UpdateStatus("x", Gathering(2))]
  const YADOPTS: seq<Write> := [CreateLease(YLEASE, "y"), UpdateStatus("y", Led(1))]

  const LOCKING := System(
    map["x" := SpecOf("x")], map["x" := Led(2)], {"x"}, map[XLEASE := "x", GLEASE := "x"], map[], map["x" := Led(2)], map[],
    map["x" := XLOCKS], map["0" := "x", "1" := "x", "r" := "x"])

  lemma XIsLocking()
    ensures At(EMPTY, LOCKING)
  {
    hide Reaches, Plan;
    XIsElected();
    TwoIsValid(false);
    var v := ViewOf(ELECTED, ["x"]);
    assert v.order[1..] == [];
    assert LockScan(TWO, v, "g", NOW, []).Pass? && FollowersScan(v.events, "x", "", []).Pass?;
    assert LockScan(TWO, v, "g", NOW, v.order).Pass? && FollowersScan(v.events, "x", "", v.order).Pass?;
    PlanToLock(false, v, "x", NOW, "r");
    var t := Syncs(TWO, CARE, EMPTY, ELECTED, Begins("x", ["x"], "r"), XLOCKS);
    assert t == LOCKING;
  }

  const YCREATED := System(
    map["x" := SpecOf("x"), "y" := SpecOf("y")], map["x" := Led(2), "y" := Waiting(1, NOW)], {"x", "y"},
    map[XLEASE := "x", GLEASE := "x"], map[], map["x" := Led(2), "y" := Waiting(1, NOW)], map[],
    map["x" := XLOCKS], map["0" := "x", "1" := "x", "r" := "x", "2" := "y"])

  lemma YIsCreated()
    ensures At(EMPTY, YCREATED)
  {
    hide Reaches, Plan;
    XIsLocking();
    TwoIsValid(false);
    var t := Adds(TWO, CARE, EMPTY, LOCKING, "y", SpecOf("y"));
    assert |t.inflight| == 1;
    t := FirstSync(TWO, CARE, EMPTY, t, "y", ["x", "y"], NOW, "2");
    assert t.events == YCREATED.events && t.cache == YCREATED.cache && t.alive == YCREATED.alive;
    assert t.specs == YCREATED.specs && t.owner == YCREATED.owner;
  }

  const BOTH := System(
    map["x" := SpecOf("x"), "y" := SpecOf("y")], map["x" := Led(2), "y" := Waiting(1, NOW)], {"x", "y"},
    map[XLEASE := "x", GLEASE := "x"], map[], map["x" := Led(2), "y" := Waiting(1, NOW)], map[],
    map["x" := XLOCKS, "y" := YADOPTS], map["0" := "x", "1" := "x", "r" := "x", "2" := "y", "3" := "y"])

  /** One worker is about to lock the group for x, the other to let y adopt x. */
  lemma BothInFlight()
    ensures At(EMPTY, BOTH)
  {
    hide Reaches, Plan;
    YIsCreated();
    TwoIsValid(false);
    assert |YCREATED.inflight| == 1;
    PlanToAdopt(TWO, ViewOf(YCREATED, ["x", "y"]), "y", "x", NOW, "3");
    var t := Syncs(TWO, CARE, EMPTY, YCREATED, Begins("y", ["x", "y"], "3"), YADOPTS);
    assert t == BOTH;
  }

  // ------------------------------------------------------------------ x locks and runs, and y adopts

  const LOCKED := System(
    map["x" := SpecOf("x"), "y" := SpecOf("y")], map["x" := Gathering(3), "y" := Waiting(1, NOW)], {"x", "y"},
    map[XLEASE := "x"], map[], map["x" := Gathering(3), "y" := Waiting(1, NOW)], map[],
    map["y" := YADOPTS], map["0" := "x", "1" := "x", "r" := "x", "2" := "y", "3" := "y"])

  lemma LockWrites(o: System, s: System) returns (t: System)
    requires At(o, s) && "x" in s.inflight && s.inflight["x"] == XLOCKS
    requires GLEASE in s.leases && "x" in s.alive && "x" in s.events && s.events["x"].rv == 2
    ensures At(o, t)
    ensures t == s.(events := s.events["x" := Gathering(3)], cache := s.cache["x" := Gathering(3)],
                    leases := s.leases - {GLEASE}, inflight := s.inflight - {"x"})
  {
    hide Reaches;
    t := Writes(TWO, CARE, o, s, "x", XLOCKS[0], [XLOCKS[1]]);
    t := OneUpdate(TWO, CARE, o, t, "x", Gathering(2));
    assert t.inflight == s.inflight - {"x"};
  }

  lemma XIsLocked()
    ensures At(EMPTY, LOCKED)
  {
    hide At;
    BothInFlight();
    var t := LockWrites(EMPTY, BOTH);
    assert t.events == LOCKED.events && t.cache == LOCKED.cache && t.leases == LOCKED.leases && t.inflight == LOCKED.inflight;
  }

  const XRUNS := CreateRun("r", "x", "gather", ["x"])

  /** What x, its group locked, sees while y is still about to adopt it. */
  ghost predicate XSeesItself(v: View) {
    && v.specs == map["x" := SpecOf("x"), "y" := SpecOf("y")] && v.order == ["x", "y"]
    && v.events == map["x" := Gathering(3), "y" := Waiting(1, NOW)] && v.leases == map[XLEASE := "x"] && v.tekton == map[]
  }

  lemma RunPlan(v: View)
    requires XSeesItself(v)
    ensures v.Valid() && Feasible(TWO.days) && Plan(TWO, v, "x", NOW, false, "4") == [XRUNS]
  {
    hide Plan;
    assert v.order[1..] == ["y"] && ["y"][1..] == [];
    assert FollowersScan(v.events, "x", "", ["y"]).Pass? && FollowersOf(v.events, "x", ["y"]) == [];
    assert FollowersScan(v.events, "x", "", v.order).Pass? && FollowersOf(v.events, "x", v.order) == ["x"];
    hide FollowersScan, FollowersOf;
    PlanToRun(false, v, "x", "r", NOW, "4");
  }

  /** x hands its followers on while y is still about to adopt it. */
  lemma XRuns(o: System, s: System) returns (t: System)
    requires At(o, s) && "x" in s.specs && "x" !in s.inflight && "4" !in s.owner && XSeesItself(ViewOf(s, ["x", "y"]))
    requires s.tekton == map[] && Careful(CARE, s, Begins("x", ["x", "y"], "4"))
    ensures At(o, t)
    ensures t == s.(tekton := map["r" := TektonRun("x", "gather", RunPending, false, ["x"])], owner := s.owner["4" := "x"],
                    inflight := s.inflight["x" := []])
  {
    hide Reaches, Plan, Careful, XSeesItself;
    TwoIsValid(false);
    RunPlan(ViewOf(s, ["x", "y"]));
    t := Syncs(TWO, CARE, o, s, Begins("x", ["x", "y"], "4"), [XRUNS]);
    assert t.inflight["x"] == [XRUNS] + [];
    t := Writes(TWO, CARE, o, t, "x", XRUNS, []);
    assert t.inflight == s.inflight["x" := []];
  }

  lemma XRunsAlone() returns (t: System)
    ensures At(LOCKED, t)
    ensures t == LOCKED.(tekton := map["r" := TektonRun("x", "gather", RunPending, false, ["x"])], owner := LOCKED.owner["4" := "x"],
                         inflight := LOCKED.inflight["x" := []])
  {
    hide Reaches;
    TwoIsValid(false);
    Itself(TWO, CARE, LOCKED);
    assert |LOCKED.inflight| == 1;
    t := XRuns(LOCKED, LOCKED);
  }

  lemma YAdoptsLate(o: System, s: System) returns (t: System)
    requires At(o, s) && "y" in s.alive && "y" in s.events && s.events["y"] == Waiting(1, NOW)
    requires YLEASE !in s.leases && "y" in s.inflight && s.inflight["y"] == YADOPTS
    ensures At(o, t) && t.alive == s.alive && t.events == s.events["y" := Led(2)] && t.tekton == s.tekton
  {
    hide Reaches;
    t := Writes(TWO, CARE, o, s, "y", YADOPTS[0], [YADOPTS[1]]);
    assert t.inflight["y"] == [YADOPTS[1]] + [];
    t := Writes(TWO, CARE, o, t, "y", YADOPTS[1], []);
  }

  /** With two workers the freeze fails: from the empty cluster, by steps taken with all care,
      a leader x starts its LeaderOnly pipeline and hands its only follower to the Tekton run,
      and only then y becomes a follower too. */
  lemma TwoWorkersBreakTheFreeze()
    ensures exists s, t ::
      && Reaches(TWO, Workers(2, true), EMPTY, s) && Reaches(TWO, Workers(2, true), s, t)
      && "x" in s.events && Started(TWO, s.events["x"], 0) && !Member(s, "x", "y")
      && Member(t, "x", "y") && "r" in t.tekton && t.tekton["r"].event == "x" && t.tekton["r"].followers == ["x"]
  {
    hide Reaches;
    XIsLocked();
    var t := XRunsAlone();
    t := YAdoptsLate(LOCKED, t);
    assert At(EMPTY, LOCKED) && Started(TWO, LOCKED.events["x"], 0);
  }
}
