/** A run to a stranded event: from the empty cluster, with one worker and listers that show exactly
    what is stored, b waits for a to be completed; a is deleted, and b is not woken. */
module Sleeper {
  import opened Prelude
  import opened CalendarDays
  import opened CalendarTypes
  import opened EventSync
  import opened Protocol
  import opened Scenes
  import opened Steps
  import opened Deletion
  import opened Stranded

  const PLAIN := Calendar([DEPLOY], false, Days([], []), [], 0)
  const ONE := Workers(1, true)
  const NOW: int := 100 * SECOND
  const EMPTY := System(map[], map[], {}, map[], map[], map[], map[], map[], map[])
  const FIRST := Spec("a", "", 0, None, [])
  const SECONDS := [RunAfter("a", "", NoOffset)]
  const NEXT := Spec("b", "", 0, None, SECONDS)
  const BLEASE := NameLease("b")

  ghost predicate At(o: System, s: System) {
    Reaches(PLAIN, ONE, o, s)
  }

  function Begins(k: Name, order: seq<Name>, gen: Name): Action {
    Begin(k, order, NOW, false, gen)
  }

  lemma PlainIsValid()
    ensures PLAIN.Valid() && PLAIN.HasAlways()
  {
    assert !PLAIN.pipelines[0].leaderOnly;
  }

  // ------------------------------------------------------------------ what b sees

  /** a waits, without runs, and b runs after it. */
  ghost predicate Pair(v: View) {
    && v.specs == map["a" := FIRST, "b" := NEXT] && v.order == ["a", "b"]
    && v.events.Keys == {"a", "b"} && v.events["a"] == Waiting(1, NOW) && v.tekton == map[]
  }

  lemma ListsA(v: View)
    requires Pair(v)
    ensures v.Valid() && ByTitle(v, v.order, {"a"}) == ["a"] && Titles(SECONDS) == {"a"}
  {
    assert v.order[1..] == ["b"] && ["b"][1..] == [];
    assert ByTitle(v, ["b"], {"a"}) == [];
    assert SECONDS[0] in SECONDS;
  }

  /** The time of a decides the time of b. */
  lemma TimeAfterA(v: View, t: int)
    requires Pair(v) && t >= NOW
    ensures v.Valid() && Feasible(PLAIN.days) && ProbeAll(PLAIN, v, SECONDS, t) == Reached(t)
  {
    ListsA(v);
    assert ["a"][1..] == [] && SECONDS[1..] == [];
    assert ProbeOne(PLAIN, v, ["a"], NoOffset, t) == Reached(t);
  }

  lemma FirstPlan(v: View, gen: Name)
    requires Pair(v) && v.events["b"] == Fresh
    ensures v.Valid() && Feasible(PLAIN.days) && Plan(PLAIN, v, "b", NOW, false, gen) == [UpdateStatus("b", Waiting(0, NOW))]
  {
    TimeAfterA(v, NOW);
  }

  lemma SettledB(v: View, now: int)
    requires Pair(v) && v.events["b"] == Waiting(1, NOW) && now >= NOW
    ensures v.Valid() && Feasible(PLAIN.days) && UpToTime(PLAIN, v, "b", now)
  {
    TimeAfterA(v, NOW);
  }

  lemma AIsAwaited(v: View, now: int, gen: Name)
    requires Pair(v) && v.events["b"] == Waiting(1, NOW) && now >= NOW
    ensures v.Valid() && Feasible(PLAIN.days)
    ensures HoldsBack(PLAIN, v, "b", 0, "a") && forall x :: HoldsBack(PLAIN, v, "b", 0, x) ==> x == "a"
    ensures Turn(PLAIN, v, "b", 0, now, gen) == Quiet(v, Next(v.events["b"], false))
  {
    ListsA(v);
    assert Latest(v, ["a"][..0], "a") == None && ["a"][..0] == [];
    assert Kept(v, ["a"], "a") && !PredecessorDone(PLAIN, v, "b", v.events["b"], 0, "a");
    assert !AfterDone(PLAIN, v, "b", v.events["b"], 0);
  }

  lemma TakePlan(v: View, gen: Name)
    requires Pair(v) && v.events["b"] == Waiting(1, NOW) && v.leases == map[]
    ensures v.Valid() && Feasible(PLAIN.days) && Plan(PLAIN, v, "b", NOW, false, gen) == [CreateLease(BLEASE, "b")]
  {
    hide SyncPipeline, ProbeTime;
    SettledB(v, NOW);
    var u := v.(leases := v.leases[BLEASE := "b"]);
    AIsAwaited(u, NOW, gen);
    assert RunFrom(PLAIN, u, "b", u.events["b"], 0, NOW, gen) == [];
  }

  /** b sleeps from now on, and stands at its pipeline. */
  lemma BSleeps(v: View, now: int, gen: Name)
    requires Pair(v) && v.events["b"] == Waiting(1, NOW) && v.leases == map[BLEASE := "b"] && now >= NOW
    ensures v.Valid() && Feasible(PLAIN.days) && Asleep(PLAIN, v, "b", now, gen) && StandsAt(PLAIN, v, "b", 0, now, gen)
  {
    hide SyncPipeline, ProbeTime, Plan, Returns;
    SettledB(v, now);
    AIsAwaited(v, now, gen);
    assert ClearedTo(PLAIN, v, "b", 0, now, gen);
    PlanOfSettled(PLAIN, v, "b", 0, now, gen);
    assert RunFrom(PLAIN, v, "b", v.events["b"], 0, now, gen) == [] && !ReturnsFrom(PLAIN, v, "b", v.events["b"], 0, now, gen);
    BHasTurn(v, now, gen);
  }

  lemma BHasTurn(v: View, now: int, gen: Name)
    requires Pair(v) && v.events["b"] == Waiting(1, NOW) && now >= NOW
    ensures v.Valid() && Feasible(PLAIN.days) && IsDue(PLAIN, v, "b", 0, now) && HasTurn(PLAIN, v, "b", 0, now, gen)
  {
    ListsA(v);
    assert |AddRun(v.events["b"], "deploy", gen).runs| == 1;
  }

  lemma BIsStranded(v: View, now: int, gen: Name)
    requires Pair(v) && v.events["b"] == Waiting(1, NOW) && v.leases == map[BLEASE := "b"] && now >= NOW
    ensures v.Valid() && Gone(v, "a").Valid() && Feasible(PLAIN.days)
    ensures Asleep(PLAIN, v, "b", now, gen) && Plan(PLAIN, Gone(v, "a"), "b", now, false, gen) != []
  {
    hide Asleep, StandsAt, Plan, UpToTime, HoldsBack, Turn;
    BSleeps(v, now, gen);
    GoneIsValid(v, "a");
    SettledB(v, now);
    SettledOfGone(PLAIN, v, "a", "b", now);
    AIsAwaited(v, now, gen);
    StrandedExactly(PLAIN, v, "a", "b", 0, now, gen);
  }

  // ------------------------------------------------------------------ the run

  const AALONE := System(
    map["a" := FIRST], map["a" := Waiting(1, NOW)], {"a"}, map[], map[], map["a" := Waiting(1, NOW)], map[], map[], map["0" := "a"])

  const BCREATED := System(
    map["a" := FIRST, "b" := NEXT], map["a" := Waiting(1, NOW), "b" := Fresh], {"a", "b"},
    map[], map[], map["a" := Waiting(1, NOW), "b" := Fresh], map[], map[], map["0" := "a"])

  const BTIMED := System(
    map["a" := FIRST, "b" := NEXT], map["a" := Waiting(1, NOW), "b" := Waiting(1, NOW)], {"a", "b"},
    map[], map[], map["a" := Waiting(1, NOW), "b" := Waiting(1, NOW)], map[], map[], map["0" := "a", "1" := "b"])

  const BASLEEP := System(
    map["a" := FIRST, "b" := NEXT], map["a" := Waiting(1, NOW), "b" := Waiting(1, NOW)], {"a", "b"},
    map[BLEASE := "b"], map[], map["a" := Waiting(1, NOW), "b" := Waiting(1, NOW)], map[], map[], map["0" := "a", "1" := "b", "2" := "b"])

  const AGONE := System(
    map["a" := FIRST, "b" := NEXT], map["a" := Waiting(1, NOW), "b" := Waiting(1, NOW)], {"b"},
    map[BLEASE := "b"], map[], map["b" := Waiting(1, NOW)], map[], map[], map["0" := "a", "1" := "b", "2" := "b"])

  lemma AAppears()
    ensures At(EMPTY, BCREATED)
  {
    hide Reaches;
    PlainIsValid();
    Itself(PLAIN, ONE, EMPTY);
    var t := Adds(PLAIN, ONE, EMPTY, EMPTY, "a", FIRST);
    t := FirstSync(PLAIN, ONE, EMPTY, t, "a", ["a"], NOW, "0");
    assert t == AALONE;
    t := Adds(PLAIN, ONE, EMPTY, AALONE, "b", NEXT);
    assert t == BCREATED;
  }

  lemma BIsTimed()
    ensures At(EMPTY, BTIMED)
  {
    hide Reaches, Plan;
    AAppears();
    PlainIsValid();
    FirstPlan(ViewOf(BCREATED, ["a", "b"]), "1");
    var t := Syncs(PLAIN, ONE, EMPTY, BCREATED, Begins("b", ["a", "b"], "1"), [UpdateStatus("b", Waiting(0, NOW))]);
    t := OneUpdate(PLAIN, ONE, EMPTY, t, "b", Waiting(0, NOW));
    assert t.events == BTIMED.events && t.cache == BTIMED.cache && t.inflight == BTIMED.inflight && t.owner == BTIMED.owner;
  }

  lemma BFallsAsleep()
    ensures At(EMPTY, BASLEEP)
  {
    hide Reaches, Plan;
    BIsTimed();
    PlainIsValid();
    TakePlan(ViewOf(BTIMED, ["a", "b"]), "2");
    var t := Syncs(PLAIN, ONE, EMPTY, BTIMED, Begins("b", ["a", "b"], "2"), [CreateLease(BLEASE, "b")]);
    assert t.inflight["b"] == [CreateLease(BLEASE, "b")] + [];
    t := Writes(PLAIN, ONE, EMPTY, t, "b", CreateLease(BLEASE, "b"), []);
    t := Stops(PLAIN, ONE, EMPTY, t, "b");
    assert t.leases == BASLEEP.leases && t.inflight == BASLEEP.inflight && t.owner == BASLEEP.owner;
  }

  lemma AGoes()
    ensures At(BASLEEP, AGONE)
  {
    hide Reaches;
    PlainIsValid();
    Itself(PLAIN, ONE, BASLEEP);
    var t := Then(PLAIN, ONE, BASLEEP, BASLEEP, Delete("a"));
    t := Then(PLAIN, ONE, BASLEEP, t, Observe("a"));
    assert t.alive == AGONE.alive && t.cache == AGONE.cache;
  }

  /** From s on b sleeps, at any time and under any name for its run; t is s once a is deleted and
      the lister has seen it, and there b would go on. */
  ghost predicate Strands(s: System, t: System) {
    && ViewOf(s, ["a", "b"]).Valid() && ViewOf(t, ["b"]) == Gone(ViewOf(s, ["a", "b"]), "a") && ViewOf(t, ["b"]).Valid()
    && Feasible(PLAIN.days)
    && forall now, gen :: now >= NOW ==>
         && Asleep(PLAIN, ViewOf(s, ["a", "b"]), "b", now, gen)
         && Plan(PLAIN, ViewOf(t, ["b"]), "b", now, false, gen) != []
  }

  lemma DeletionStrands()
    ensures exists s, t :: Reaches(PLAIN, Workers(1, true), EMPTY, s) && Reaches(PLAIN, Workers(1, true), s, t) && Strands(s, t)
  {
    hide Reaches, Plan, Asleep;
    BFallsAsleep();
    AGoes();
    GoneIs();
    forall now, gen | now >= NOW
      ensures Asleep(PLAIN, ViewOf(BASLEEP, ["a", "b"]), "b", now, gen)
      ensures Plan(PLAIN, ViewOf(AGONE, ["b"]), "b", now, false, gen) != []
    {
      BIsStranded(ViewOf(BASLEEP, ["a", "b"]), now, gen);
    }
    assert Strands(BASLEEP, AGONE);
  }

  lemma GoneIs()
    ensures ViewOf(BASLEEP, ["a", "b"]).Valid() && ViewOf(AGONE, ["b"]).Valid() && Feasible(PLAIN.days)
    ensures ViewOf(AGONE, ["b"]) == Gone(ViewOf(BASLEEP, ["a", "b"]), "a")
    ensures Pair(ViewOf(BASLEEP, ["a", "b"]))
  {
    hide Collected, WakeUp.Without;
    PairAsleep();
    ListWithoutA();
    LeasesOfA();
    GoneIsValid(ViewOf(BASLEEP, ["a", "b"]), "a");
  }

  lemma PairAsleep()
    ensures Pair(ViewOf(BASLEEP, ["a", "b"])) && ViewOf(BASLEEP, ["a", "b"]).Valid()
  {
    ListsA(ViewOf(BASLEEP, ["a", "b"]));
  }

  lemma ListWithoutA()
    ensures WakeUp.Without(["a", "b"], "a") == ["b"]
  {
    assert ["a", "b"][1..] == ["b"] && ["b"][1..] == [];
    assert WakeUp.Without(["b"], "a") == ["b"];
  }

  lemma LeasesOfA()
    ensures Collected(ViewOf(BASLEEP, ["a", "b"]), "a") == AGONE.leases && BASLEEP.cache - {"a"} == AGONE.cache
  {
  }
}
