/** The release controller's bookkeeping: the phase and its conditions, and the history of
    revisions. From pkg/controller/release/controller.go. */
module Release {
  import opened Prelude

  datatype Phase = NoPhase | Pending | Spawning | Running | Succeeded | Failed | Disabled

  datatype Kind = DeployerReady | Deployed | Checked | InitStage | DiffStage | RunStage | TestStage

  datatype Truth = True | False | Unknown

  datatype Condition = Condition(kind: Kind, status: Truth, since: int)

  datatype DeployerPhase = NotSet | Waiting | Creating | Progressing | Up

  datatype Status = Status(phase: Phase, observed: int, deployer: Option<DeployerPhase>, conditions: seq<Condition>)

  datatype Spec = Spec(generation: int, disabled: bool)

  // ------------------------------------------------------------------ the phase

  predicate SaysSucceeded(c: Condition) {
    (c.kind.Checked? || c.kind.TestStage?) && c.status.True?
  }

  predicate SaysFailed(c: Condition) {
    c.status.False? && (c.kind.InitStage? || c.kind.DiffStage? || c.kind.RunStage? || c.kind.TestStage? || c.kind.Checked?)
  }

  function ReleasePhase(spec: Spec, st: Status): Phase {
    var n := |st.conditions|;
    if st.observed < spec.generation then Pending
    else if spec.disabled then Disabled
    else if st.phase.Succeeded? && n > 0 && SaysSucceeded(st.conditions[n - 1]) then Succeeded
    else if st.phase.Failed? && n > 0 && SaysFailed(st.conditions[n - 1]) then Failed
    else if st.deployer.None? || st.deployer.value.NotSet? || st.deployer.value.Waiting? then Pending
    else if st.deployer.value.Creating? || st.deployer.value.Progressing? then Spawning
    else if st.phase.Spawning? || n == 0 then Running
    else if SaysSucceeded(st.conditions[n - 1]) then Succeeded
    else if SaysFailed(st.conditions[n - 1]) then Failed
    else Running
  }

  /** The last condition says that the release has come out well, or badly. */
  ghost predicate EndsIn(st: Status, says: Condition -> bool) {
    st.conditions != [] && says(st.conditions[|st.conditions| - 1])
  }

  ghost predicate DeployerUp(st: Status) {
    st.deployer.Some? && st.deployer.value.Up?
  }

  ghost predicate DeployerComing(st: Status) {
    st.deployer.Some? && (st.deployer.value.Creating? || st.deployer.value.Progressing?)
  }

  /** When a release is in which phase: an outcome needs a last condition that says so and, unless
      it is the phase already, a deployer that is up and was not just spawning. */
  lemma PhaseByEvidence(spec: Spec, st: Status)
    ensures var phase := ReleasePhase(spec, st);
            var live := st.observed >= spec.generation && !spec.disabled;
            var well, badly := EndsIn(st, SaysSucceeded), EndsIn(st, SaysFailed);
            var kept := (st.phase.Succeeded? && well) || (st.phase.Failed? && badly);
            && (phase.Succeeded? <==> live && well && (st.phase.Succeeded? || (DeployerUp(st) && !st.phase.Spawning?)))
            && (phase.Failed? <==> live && badly && (st.phase.Failed? || (DeployerUp(st) && !st.phase.Spawning?)))
            && (phase.Running? <==> live && DeployerUp(st) && !kept && (st.phase.Spawning? || (!well && !badly)))
            && (phase.Spawning? <==> live && DeployerComing(st) && !kept)
            && (phase.Disabled? <==> st.observed >= spec.generation && spec.disabled)
            && (phase.Pending? <==> st.observed < spec.generation || (live && !DeployerUp(st) && !DeployerComing(st) && !kept))
  {
    assert !(EndsIn(st, SaysSucceeded) && EndsIn(st, SaysFailed));
  }

  /** Setting the phase; on the way into Running a marker is appended. */
  function PhaseStep(spec: Spec, st: Status, now: int): Status {
    var phase := ReleasePhase(spec, st);
    var marked := if phase.Running? && !st.phase.Running? then st.conditions + [Condition(DeployerReady, True, now)] else st.conditions;
    st.(phase := phase, conditions := marked)
  }

  /** Setting the phase twice is setting it once, whatever the time. */
  lemma PhaseStepIsIdempotent(spec: Spec, st: Status, now: int, later: int)
    ensures PhaseStep(spec, PhaseStep(spec, st, now), later) == PhaseStep(spec, st, now)
  {
    var once := PhaseStep(spec, st, now);
    if once.phase.Running? && !st.phase.Running? {
      assert once.conditions[|once.conditions| - 1].kind.DeployerReady?;
    }
  }

  // ------------------------------------------------------------------ pruning

  ghost predicate Mentions(conditions: seq<Condition>, kind: Kind) {
    exists c :: c in conditions && c.kind == kind
  }

  /** The last condition of each kind, in order. */
  function Prune(conditions: seq<Condition>): (r: seq<Condition>)
  {
    if conditions == [] then []
    else
      var rest := Prune(conditions[1..]);
      if exists c | c in conditions[1..] :: c.kind == conditions[0].kind then rest else [conditions[0]] + rest
  }

  lemma {:induction false} PruneKeepsKinds(conditions: seq<Condition>, kind: Kind)
    ensures Mentions(Prune(conditions), kind) <==> Mentions(conditions, kind)
  {
    if conditions != [] {
      PruneKeepsKinds(conditions[1..], kind);
      var first, rest := conditions[0], Prune(conditions[1..]);
      assert conditions == [first] + conditions[1..];
      if Mentions(conditions[1..], kind) {
        var c :| c in rest && c.kind == kind;
        assert c in Prune(conditions);
      }
      if Mentions(conditions, kind) && !Mentions(conditions[1..], kind) {
        assert first.kind == kind;
        assert first in Prune(conditions);
      }
    }
  }

  lemma {:induction false} PruneAddsNothing(conditions: seq<Condition>)
    ensures forall c :: c in Prune(conditions) ==> c in conditions
  {
    if conditions != [] {
      PruneAddsNothing(conditions[1..]);
    }
  }

  /** Pruning leaves one condition of each kind that was there, namely the last, and the last
      condition of all stays the last. */
  lemma {:induction false} PruneIsExact(conditions: seq<Condition>)
    ensures var r := Prune(conditions);
            && (forall i, j :: 0 <= i < j < |r| ==> r[i].kind != r[j].kind)
            && (conditions != [] ==> r != [] && r[|r| - 1] == conditions[|conditions| - 1])
            && (forall c :: c in r <==> exists i :: LastOfKind(conditions, i, c))
  {
    var r := Prune(conditions);
    if conditions != [] {
      var first, rest := conditions[0], conditions[1..];
      PruneIsExact(rest);
      PruneKeepsKinds(rest, first.kind);
      assert (exists c | c in rest :: c.kind == first.kind) <==> Mentions(rest, first.kind);
      forall c ensures c in r <==> exists i :: LastOfKind(conditions, i, c) {
        LastOfKindSteps(conditions, c);
      }
    }
  }

  ghost predicate LastOfKind(conditions: seq<Condition>, i: int, c: Condition) {
    && 0 <= i < |conditions| && conditions[i] == c
    && forall j :: i < j < |conditions| ==> conditions[j].kind != c.kind
  }

  lemma LastOfKindSteps(conditions: seq<Condition>, c: Condition)
    requires conditions != []
    ensures (exists i :: LastOfKind(conditions, i, c)) <==>
              (exists i :: LastOfKind(conditions[1..], i, c)) || (c == conditions[0] && !Mentions(conditions[1..], c.kind))
  {
    var rest := conditions[1..];
    if i :| LastOfKind(conditions, i, c) {
      if i > 0 {
        assert forall j :: i - 1 < j < |rest| ==> rest[j] == conditions[j + 1];
        assert LastOfKind(rest, i - 1, c);
      } else {
        assert forall j :: 0 <= j < |rest| ==> rest[j] == conditions[j + 1];
      }
    }
    if i :| LastOfKind(rest, i, c) {
      assert forall j :: i + 1 < j < |conditions| ==> conditions[j] == rest[j - 1];
      assert LastOfKind(conditions, i + 1, c);
    }
    if c == conditions[0] && !Mentions(rest, c.kind) {
      assert forall j :: 0 < j < |conditions| ==> conditions[j] == rest[j - 1] && rest[j - 1] in rest;
      assert LastOfKind(conditions, 0, c);
    }
  }

  lemma {:induction false} PruneIsIdempotent(conditions: seq<Condition>)
    ensures Prune(Prune(conditions)) == Prune(conditions)
  {
    if conditions != [] {
      var first, rest := conditions[0], Prune(conditions[1..]);
      PruneIsIdempotent(conditions[1..]);
      PruneKeepsKinds(conditions[1..], first.kind);
      assert (exists c | c in conditions[1..] :: c.kind == first.kind) <==> Mentions(conditions[1..], first.kind);
      assert (exists c | c in rest :: c.kind == first.kind) <==> Mentions(rest, first.kind);
      assert ([first] + rest)[1..] == rest;
    }
  }

  /** The marker follows the deployer: true while it is up, false while it is not. */
  function Refresh(conditions: seq<Condition>, deployer: DeployerPhase, now: int): (r: seq<Condition>)
    ensures |r| == |conditions|
    ensures forall i :: 0 <= i < |r| ==> r[i].kind == conditions[i].kind
    ensures forall i :: 0 <= i < |r| && !r[i].kind.DeployerReady? ==> r[i] == conditions[i]
  {
    seq(|conditions|, i requires 0 <= i < |conditions| =>
      var c := conditions[i];
      if !c.kind.DeployerReady? then c
      else if deployer.Up? && c.status.False? then Condition(DeployerReady, True, now)
      else if !deployer.Up? && c.status.True? then Condition(DeployerReady, False, now)
      else c)
  }

  /** A marker that is known to be right or wrong tells whether the deployer is up. */
  ghost predicate Truthful(c: Condition, deployer: DeployerPhase) {
    c.kind.DeployerReady? && !c.status.Unknown? ==> (c.status.True? <==> deployer.Up?)
  }

  /** Of several markers the last one is kept, and brought up to date: it changes, and takes the time,
      only if it was wrong. */
  lemma MarkerFollows(conditions: seq<Condition>, m: nat, deployer: DeployerPhase, now: int)
    requires m < |conditions| && LastOfKind(conditions, m, conditions[m]) && conditions[m].kind.DeployerReady?
    ensures var r, c := Refresh(Prune(conditions), deployer, now), conditions[m];
            && (forall i, j :: 0 <= i < j < |r| ==> r[i].kind != r[j].kind)
            && (forall x :: x in r ==> Truthful(x, deployer))
            && (if Truthful(c, deployer) then c in r else Condition(DeployerReady, if deployer.Up? then True else False, now) in r)
  {
    hide Prune;
    PruneIsExact(conditions);
    var kept := Prune(conditions);
    assert conditions[m] in kept by {
      assert exists i :: LastOfKind(conditions, i, conditions[m]);
    }
    var i :| 0 <= i < |kept| && kept[i] == conditions[m];
    assert Refresh(kept, deployer, now)[i] in Refresh(kept, deployer, now);
  }

  // ------------------------------------------------------------------ the marker over a run

  /** What happens to a release: a step of a sync, or something from outside. */
  datatype Action =
    | SetPhase(now: int)
    | ObserveDeployer(deployer: DeployerPhase)
    | PruneConditions(deployer: DeployerPhase, now: int)
    | Report(condition: Condition)
    | Edit(spec: Spec)

  datatype State = State(spec: Spec, status: Status)

  function Step(s: State, a: Action): State {
    match a
    case SetPhase(now) => s.(status := PhaseStep(s.spec, s.status, now))
    case ObserveDeployer(d) => s.(status := s.status.(deployer := Some(d), observed := s.spec.generation))
    case PruneConditions(d, now) => s.(status := s.status.(conditions := Refresh(Prune(s.status.conditions), d, now)))
    case Report(c) => s.(status := s.status.(conditions := s.status.conditions + [c]))
    case Edit(spec) => s.(spec := spec)
  }

  ghost predicate IsRun(states: seq<State>, actions: seq<Action>) {
    |states| == |actions| + 1 && forall i :: 0 <= i < |actions| ==> states[i + 1] == Step(states[i], actions[i])
  }

  /** The last condition is the marker, and the phase does not claim an outcome. */
  ghost predicate Marked(st: Status) {
    && st.conditions != [] && st.conditions[|st.conditions| - 1].kind.DeployerReady?
    && !st.phase.Succeeded? && !st.phase.Failed?
  }

  lemma EnteringMarks(spec: Spec, st: Status, now: int)
    requires !st.phase.Running? && PhaseStep(spec, st, now).phase.Running?
    ensures Marked(PhaseStep(spec, st, now))
  {
  }

  lemma StepKeepsMark(s: State, a: Action)
    requires Marked(s.status) && !a.Report?
    ensures Marked(Step(s, a).status)
  {
    hide ReleasePhase;
    PruneIsExact(s.status.conditions);
    PhaseByEvidence(s.spec, s.status);
    assert !EndsIn(s.status, SaysSucceeded) && !EndsIn(s.status, SaysFailed);
  }

  /** Once the release has entered Running, it is neither Succeeded nor Failed before the
      deployer reports something new, whatever else happens. */
  lemma {:induction false} NoOutcomeWithoutReport(states: seq<State>, actions: seq<Action>, m: nat, n: nat)
    requires IsRun(states, actions) && m < n < |states|
    requires actions[m].SetPhase? && !states[m].status.phase.Running? && states[m + 1].status.phase.Running?
    requires forall i :: m < i < n ==> !actions[i].Report?
    ensures Marked(states[n].status)
    decreases n
  {
    hide Marked, Step, PhaseStep;
    if n == m + 1 {
      EntersRunning(states[m], actions[m]);
    } else {
      NoOutcomeWithoutReport(states, actions, m, n - 1);
      StepKeepsMark(states[n - 1], actions[n - 1]);
    }
  }

  lemma EntersRunning(s: State, a: Action)
    requires a.SetPhase? && !s.status.phase.Running? && Step(s, a).status.phase.Running?
    ensures Marked(Step(s, a).status)
  {
    EnteringMarks(s.spec, s.status, a.now);
  }

  /** Every marker says yes or no. */
  ghost predicate Known(conditions: seq<Condition>) {
    forall c :: c in conditions && c.kind.DeployerReady? ==> !c.status.Unknown?
  }

  lemma StepKeepsKnown(s: State, a: Action)
    requires Known(s.status.conditions) && !(a.Report? && a.condition.kind.DeployerReady?)
    ensures Known(Step(s, a).status.conditions)
    ensures a.PruneConditions? ==> forall c :: c in Step(s, a).status.conditions && c.kind.DeployerReady? ==> (c.status.True? <==> a.deployer.Up?)
  {
    hide ReleasePhase, Prune;
    if a.PruneConditions? {
      PruneAddsNothing(s.status.conditions);
    }
  }

  /** Over any run in which nobody else reports markers: after every sync that gets to the end, the marker
      is True if the deployer was up, and False if not. */
  lemma {:induction false} MarkerIsTruthful(states: seq<State>, actions: seq<Action>, n: nat)
    requires IsRun(states, actions) && Known(states[0].status.conditions) && n < |states|
    requires forall i :: 0 <= i < n ==> !(actions[i].Report? && actions[i].condition.kind.DeployerReady?)
    ensures Known(states[n].status.conditions)
    ensures n > 0 && actions[n - 1].PruneConditions? ==>
              forall c :: c in states[n].status.conditions && c.kind.DeployerReady? ==> (c.status.True? <==> actions[n - 1].deployer.Up?)
  {
    hide Step, Known;
    if n > 0 {
      MarkerIsTruthful(states, actions, n - 1);
      StepKeepsKnown(states[n - 1], actions[n - 1]);
    }
  }
}
