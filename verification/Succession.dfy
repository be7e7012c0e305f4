/** The order of holders breaks with a collected lease: from the empty cluster, with one worker and
    listers that show exactly what is stored, an older event follows a deleted younger one. */
module Succession {
  import opened Prelude
  import opened CalendarDays
  import opened CalendarTypes
  import opened EventSync
  import opened Protocol
  import opened Scenes
  import opened Steps

  const TWO := Two(false)
  const ONE := Workers(1, true)
  const NOW: int := 100 * SECOND
  const TITLE := NameLease("t")
  const EMPTY := System(map[], map[], {}, map[], map[], map[], map[], map[], map[])

  function SpecOf(created: int): Spec {
    Spec("t", "g", created, Some(0), [])
  }

  const OLD := SpecOf(0)
  const YOUNG := SpecOf(1)

  ghost predicate At(o: System, s: System) {
    Reaches(TWO, ONE, o, s)
  }

  function Begins(k: Name, order: seq<Name>, gen: Name): Action {
    Begin(k, order, NOW, false, gen)
  }

  /** A waiting event that finds no lease. */
  ghost predicate MayTake(s: System, k: Name, order: seq<Name>, gen: Name) {
    && k in s.specs && (s.specs[k] == OLD || s.specs[k] == YOUNG) && k !in s.inflight && gen !in s.owner
    && ViewOf(s, order).Valid() && k in s.cache && s.cache[k] == Waiting(1, 0)
    && TITLE !in s.leases && GroupLease("g") !in s.leases
  }

  lemma TakePlan(s: System, k: Name, order: seq<Name>, gen: Name)
    requires MayTake(s, k, order, gen)
    ensures TWO.Valid()
    ensures Plan(TWO, ViewOf(s, order), k, NOW, false, gen) ==
              [CreateLease(TITLE, k)] + [CreateLease(GroupLease("g"), k), UpdateStatus(k, Waiting(1, 0).(leader := Some(k)))]
  {
    hide Plan;
    TwoIsValid(false);
    PlanToElect(false, ViewOf(s, order), k, NOW, gen);
  }

  /** The sync of k takes the lease on its title and stops. */
  lemma Takes(o: System, s: System, k: Name, order: seq<Name>, gen: Name) returns (t: System)
    requires At(o, s) && MayTake(s, k, order, gen) && Careful(ONE, s, Begins(k, order, gen))
    ensures At(o, t) && t == s.(leases := s.leases[TITLE := k], owner := s.owner[gen := k])
  {
    hide Reaches, Careful, Plan;
    TakePlan(s, k, order, gen);
    var rest := [CreateLease(GroupLease("g"), k), UpdateStatus(k, Waiting(1, 0).(leader := Some(k)))];
    t := Syncs(TWO, ONE, o, s, Begins(k, order, gen), [CreateLease(TITLE, k)] + rest);
    t := Writes(TWO, ONE, o, t, k, CreateLease(TITLE, k), rest);
    t := Stops(TWO, ONE, o, t, k);
    assert t.inflight == s.inflight;
  }

  const OLDONE := System(
    map["a" := OLD], map["a" := Waiting(1, 0)], {"a"}, map[], map[], map["a" := Waiting(1, 0)], map[], map[], map["0" := "a"])

  const TWINS := System(
    map["a" := OLD, "b" := YOUNG], map["a" := Waiting(1, 0), "b" := Waiting(1, 0)], {"a", "b"},
    map[], map[], map["a" := Waiting(1, 0), "b" := Waiting(1, 0)], map[], map[], map["0" := "a", "1" := "b"])

  lemma OldAppears()
    ensures At(EMPTY, OLDONE)
  {
    hide Reaches;
    TwoIsValid(false);
    Itself(TWO, ONE, EMPTY);
    var t := Adds(TWO, ONE, EMPTY, EMPTY, "a", OLD);
    t := FirstSync(TWO, ONE, EMPTY, t, "a", ["a"], NOW, "0");
    assert t == OLDONE;
  }

  lemma YoungAppears()
    ensures At(EMPTY, TWINS)
  {
    hide Reaches;
    OldAppears();
    TwoIsValid(false);
    var t := Adds(TWO, ONE, EMPTY, OLDONE, "b", YOUNG);
    t := FirstSync(TWO, ONE, EMPTY, t, "b", ["a", "b"], NOW, "1");
    assert t.specs == TWINS.specs && t.events == TWINS.events && t.cache == TWINS.cache;
    assert t.alive == TWINS.alive && t.owner == TWINS.owner;
  }

  const TAKEN := TWINS.(leases := map[TITLE := "b"], owner := map["0" := "a", "1" := "b", "2" := "b"])

  lemma YoungTakes()
    ensures At(EMPTY, TAKEN)
  {
    hide Reaches;
    YoungAppears();
    var t := Takes(EMPTY, TWINS, "b", ["a", "b"], "2");
    assert t.leases == TAKEN.leases && t.owner == TAKEN.owner;
  }

  const LEFT := System(
    map["a" := OLD, "b" := YOUNG], map["a" := Waiting(1, 0), "b" := Waiting(1, 0)], {"a"},
    map[], map[], map["a" := Waiting(1, 0)], map[], map[], map["0" := "a", "1" := "b", "2" := "b"])

  /** The holder is deleted, its lease collected, and the lister sees it. */
  lemma YoungGoes()
    ensures At(TAKEN, LEFT)
  {
    hide Reaches;
    TwoIsValid(false);
    Itself(TWO, ONE, TAKEN);
    var t := Then(TWO, ONE, TAKEN, TAKEN, Delete("b"));
    t := Then(TWO, ONE, TAKEN, t, Collect(TITLE));
    t := Then(TWO, ONE, TAKEN, t, Observe("b"));
    assert t.leases == LEFT.leases && t.alive == LEFT.alive && t.cache == LEFT.cache;
  }

  /** Of two events of one title, the first holds the lease in s and the second in t. */
  ghost predicate Passes(s: System, t: System, first: Name, second: Name) {
    && TITLE in s.leases && s.leases[TITLE] == first && TITLE in t.leases && t.leases[TITLE] == second
    && first in s.specs && second in s.specs && t.specs == s.specs
  }

  /** b, created after a, holds the lease of their title while both exist; then b is deleted, and a
      holds it. */
  lemma OlderFollowsYounger()
    ensures exists s, t :: Reaches(TWO, Workers(1, true), EMPTY, s) && Reaches(TWO, Workers(1, true), s, t) && Passes(s, t, "b", "a")
                           && s.specs["a"].created < s.specs["b"].created && {"a", "b"} <= s.alive && "b" !in t.alive
  {
    hide Reaches;
    YoungTakes();
    YoungGoes();
    var t := Takes(TAKEN, LEFT, "a", ["a"], "3");
    assert At(EMPTY, TAKEN) && At(TAKEN, t) && Passes(TAKEN, t, "b", "a");
  }
}
