/** One sync of one event, as a function of what the controller sees: the API writes it makes,
    in order. A sync that fails, panics or is stopped makes a prefix of them. */
module EventSync {
  import opened Prelude
  import opened CalendarDays
  import opened CalendarHours
  import opened CalendarTypes

  /** A scan over listed events passes, asks to wait, or stops on a missing time. */
  datatype Verdict = Pass | Wait | Panic

  /** How syncEventPipeline ends: no status write, or a status and whether the pipeline is done. */
  datatype Outcome = Halt | Next(status: Status, done: bool)

  datatype StepResult = StepResult(writes: seq<Write>, leases: map<LeaseKey, Name>, outcome: Outcome)

  // ------------------------------------------------------------------ pipelineGroups

  function SegmentBegin(pipelines: seq<Pipeline>, i: nat): (b: nat)
    requires i < |pipelines|
    ensures b <= i
  {
    if pipelines[i].leaderOnly || i == 0 || pipelines[i - 1].leaderOnly then i
    else SegmentBegin(pipelines, i - 1)
  }

  function SegmentEnd(pipelines: seq<Pipeline>, i: nat): (e: nat)
    requires i < |pipelines|
    ensures i <= e < |pipelines|
    decreases |pipelines| - i
  {
    if pipelines[i].leaderOnly || i + 1 == |pipelines| || pipelines[i + 1].leaderOnly then i
    else SegmentEnd(pipelines, i + 1)
  }

  /** The index the original looks up in a map, where an unknown name has index 0. */
  function IndexOf(pipelines: seq<Pipeline>, name: string): nat {
    if pipelines == [] then 0
    else
      var n := |pipelines| - 1;
      if pipelines[n].name == name then n else IndexOf(pipelines[..n], name)
  }

  // ------------------------------------------------------------------ runAfter

  /** Listed events whose title is one of those asked for. */
  function ByTitle(v: View, order: seq<Name>, titles: set<string>): (r: seq<Name>)
    requires forall k :: k in order ==> k in v.specs
    ensures forall k :: k in r <==> k in order && v.specs[k].title in titles
  {
    if order == [] then []
    else (if v.specs[order[0]].title in titles then [order[0]] else []) + ByTitle(v, order[1..], titles)
  }

  /** The event filterEvents keeps for a title: the first with the latest time. */
  function Latest(v: View, xs: seq<Name>, title: string): Option<Name>
    requires forall k :: k in xs ==> k in v.specs && k in v.events
  {
    if xs == [] then None
    else
      var n := |xs| - 1;
      var best := Latest(v, xs[..n], title);
      if v.specs[xs[n]].title != title || v.events[xs[n]].time.None? then best
      else if best.None? || best.value !in v.events || v.events[best.value].time.None? then Some(xs[n])
      else if v.events[xs[n]].time.value > v.events[best.value].time.value then Some(xs[n])
      else best
  }

  predicate Kept(v: View, xs: seq<Name>, e: Name)
    requires forall k :: k in xs ==> k in v.specs && k in v.events
    requires e in xs
  {
    v.events[e].time.None? || Latest(v, xs, v.specs[e].title) == Some(e)
  }

  function Titles(after: seq<RunAfter>): set<string> {
    set a | a in after :: a.title
  }

  /** The pipeline a runAfter entry names for a title; the last entry wins. */
  function AfterPipeline(after: seq<RunAfter>, title: string): string {
    if after == [] then ""
    else
      var n := |after| - 1;
      if after[n].title == title then after[n].pipeline else AfterPipeline(after[..n], title)
  }

  predicate AfterDone(cal: Calendar, v: View, k: Name, st: Status, i: nat)
    requires v.Valid() && k in v.events && i < |cal.pipelines|
  {
    var xs := ByTitle(v, v.order, Titles(v.specs[k].after));
    forall e | e in xs :: Kept(v, xs, e) ==> PredecessorDone(cal, v, k, st, i, e)
  }

  predicate PredecessorDone(cal: Calendar, v: View, k: Name, st: Status, i: nat, e: Name)
    requires v.Valid() && k in v.events && e in v.events && i < |cal.pipelines|
  {
    var ev, want := v.events[e], AfterPipeline(v.specs[k].after, v.specs[e].title);
    if ev.leader.None? || ev.leader != st.leader then PipelineCompleted(ev, want)
    else if cal.pipelines[i].leaderOnly && ev.leader != Some(e) then true
    else PipelineCompleted(ev, WithinSegment(cal.pipelines, i, want))
  }

  /** Inside one cohort an event waits for the whole run of Always pipelines around i, unless
      the pipeline asked for lies in it. */
  function WithinSegment(pipelines: seq<Pipeline>, i: nat, want: string): string
    requires i < |pipelines|
  {
    var b, e, w := SegmentBegin(pipelines, i), SegmentEnd(pipelines, i), IndexOf(pipelines, want);
    if want == "" || b > w || e < w then pipelines[e].name else want
  }

  // ------------------------------------------------------------------ probeTime and probePhase

  datatype Probe = Reached(time: int) | NotYet | Bad

  function ProbeOne(cal: Calendar, v: View, xs: seq<Name>, offset: Offset, t: int): Probe
    requires Feasible(cal.days) && forall k :: k in xs ==> k in v.events
  {
    if xs == [] then Reached(t)
    else if v.events[xs[0]].time.None? then NotYet
    else
      match GetTimeWithOffset(v.events[xs[0]].time.value, offset, cal.zone, cal.days)
      case Err => Bad
      case Ok(when) => ProbeOne(cal, v, xs[1..], offset, if when > t then when else t)
  }

  function ProbeAll(cal: Calendar, v: View, after: seq<RunAfter>, t: int): Probe
    requires Feasible(cal.days) && v.Valid()
  {
    if after == [] then Reached(t)
    else
      match ProbeOne(cal, v, ByTitle(v, v.order, {after[0].title}), after[0].offset, t)
      case Reached(t') => ProbeAll(cal, v, after[1..], t')
      case NotYet => NotYet
      case Bad => Bad
  }

  function ProbeTime(cal: Calendar, v: View, k: Name, st: Status, now: int): Result<Status>
    requires Feasible(cal.days) && v.Valid() && k in v.events
  {
    var spec := v.specs[k];
    var t := if spec.time.Some? then spec.time.value else if st.time.Some? then st.time.value else now;
    if !st.phase.Unset? && !st.phase.Pending? then Ok(st.(time := Some(t)))
    else if spec.after != [] && spec.created + 15 * SECOND > now then Ok(st)
    else
      match ProbeAll(cal, v, spec.after, t)
      case Bad => Err
      case NotYet => Ok(st)
      case Reached(t') => Ok(st.(time := Some(t')))
  }

  /** The map probePhase builds keeps the last entry of a pipeline, not the first. */
  predicate LastCompleted(runs: seq<Run>, pipeline: string) {
    runs != [] &&
    var n := |runs| - 1;
    if runs[n].pipeline == pipeline then runs[n].status.RunCompleted? else LastCompleted(runs[..n], pipeline)
  }

  predicate AllAlwaysCompleted(cal: Calendar, st: Status) {
    forall i | 0 <= i < |cal.pipelines| && !cal.pipelines[i].leaderOnly :: LastCompleted(st.runs, cal.pipelines[i].name)
  }

  function ProbePhase(cal: Calendar, k: Name, st: Status): Status {
    if st.runs == [] then st.(phase := Pending)
    else if st.leader.None? || st.leader == Some(k) then st
    else if AllAlwaysCompleted(cal, st) then st.(phase := Completed)
    else st
  }

  // ------------------------------------------------------------------ the same-name lease

  datatype Acquired = Acquired(writes: seq<Write>, leases: map<LeaseKey, Name>, ok: bool)

  function AcquireLease(v: View, k: Name, st: Status): Acquired
    requires v.Valid() && k in v.events
  {
    var key := NameLease(v.specs[k].title);
    if !st.phase.Unset? && !st.phase.Pending? then Acquired([], v.leases, true)
    else if key !in v.leases then Acquired([CreateLease(key, k)], v.leases[key := k], true)
    else
      var holder := v.leases[key];
      if holder == k then Acquired([], v.leases, true)
      else if holder !in v.events then Acquired([], v.leases, false)
      else if v.specs[k].created < v.specs[holder].created then Acquired([DeleteEvent(k)], v.leases, false)
      else if !Terminal(v.events[holder].phase) then Acquired([], v.leases, false)
      else Acquired([TakeLease(key, holder, k)], v.leases[key := k], true)
  }

  // ------------------------------------------------------------------ the group lease

  /** probeLeader: None stands for the panic on a leader without a time. */
  function ProbeLeader(cal: Calendar, v: View, k: Name, st: Status): Option<Status>
    requires v.Valid() && k in v.events && st.time.Some?
  {
    var key := GroupLease(v.specs[k].group);
    if v.specs[k].group == "" || st.leader.Some? || key !in v.leases || v.leases[key] !in v.events then Some(st)
    else
      var lead := v.events[v.leases[key]];
      if !cal.daily then Some(st.(leader := Some(v.leases[key])))
      else if lead.time.None? then None
      else if SameDay(lead.time.value, st.time.value, cal.zone) then Some(st.(leader := Some(v.leases[key])))
      else Some(st)
  }

  function LeaderElect(v: View, k: Name, st: Status): (r: StepResult)
    requires v.Valid() && k in v.events && st.leader.None?
    ensures OnlyPipeline(v, k, st, r)
  {
    var key := GroupLease(v.specs[k].group);
    if v.specs[k].group == "" then StepResult([], v.leases, Next(st.(leader := Some(k)), false))
    else if key in v.leases then StepResult([], v.leases, Next(st.(leader := Some(v.leases[key])), false))
    else StepResult([CreateLease(key, k)], v.leases[key := k], Next(st.(leader := Some(k)), false))
  }

  /** lockLeader's scan: every event of the group, on the leader's day if groups are daily,
      must have a leader already. */
  function LockScan(cal: Calendar, v: View, group: string, day: int, xs: seq<Name>): Verdict
    requires forall k :: k in xs ==> k in v.specs && k in v.events
  {
    if xs == [] then Pass
    else
      var ev := v.events[xs[0]];
      if v.specs[xs[0]].group != group then LockScan(cal, v, group, day, xs[1..])
      else if cal.daily && ev.time.None? then Panic
      else if cal.daily && !SameDay(ev.time.value, day, cal.zone) then LockScan(cal, v, group, day, xs[1..])
      else if ev.leader.None? then Wait
      else LockScan(cal, v, group, day, xs[1..])
  }

  /** getFollowersParams' scan: every follower has settled the pipeline, or has failed. */
  function FollowersScan(events: map<Name, Status>, leader: Name, last: string, xs: seq<Name>): Verdict
    requires forall k :: k in xs ==> k in events
  {
    if xs == [] then Pass
    else
      var ev := events[xs[0]];
      if ev.leader != Some(leader) then FollowersScan(events, leader, last, xs[1..])
      else if ev.time.None? then Panic
      else if last == "" || FollowerSettled(ev, last) then FollowersScan(events, leader, last, xs[1..])
      else Wait
  }

  predicate FollowerSettled(ev: Status, last: string) {
    ev.phase.Failed? || ev.phase.Cancelled? || Settled(RunStatusOf(ev, last))
  }

  function FollowersOf(events: map<Name, Status>, leader: Name, xs: seq<Name>): (r: seq<Name>)
    requires forall k :: k in xs ==> k in events
    ensures forall k :: k in r <==> k in xs && events[k].leader == Some(leader)
  {
    if xs == [] then []
    else (if events[xs[0]].leader == Some(leader) then [xs[0]] else []) + FollowersOf(events, leader, xs[1..])
  }

  // ------------------------------------------------------------------ what a pipeline may write

  /** A Tekton run is only made under a name and for a pipeline the status already holds. */
  ghost predicate RunWrite(k: Name, runs: seq<Run>, w: Write) {
    match w
    case CreateRun(name, e, pipeline, _) =>
      e == k && exists x :: 0 <= x < |runs| && runs[x].name == name && runs[x].pipeline == pipeline
    case CancelRun(_) => true
    case _ => false
  }

  ghost predicate OnlyRuns(v: View, k: Name, st: Status, r: StepResult) {
    && r.leases == v.leases
    && (r.outcome.Next? ==> r.outcome.status.rv == st.rv && r.outcome.status.leader == st.leader)
    && forall w :: w in r.writes ==> RunWrite(k, st.runs, w)
  }

  ghost predicate SamePipelines(a: seq<Run>, b: seq<Run>) {
    |b| == |a| && forall x :: 0 <= x < |a| ==> a[x].pipeline == b[x].pipeline
  }

  /** At most one entry is added, for the pipeline named, and the others keep theirs. */
  ghost predicate MayAdd(a: seq<Run>, b: seq<Run>, pipeline: string) {
    || SamePipelines(a, b)
    || (|b| == |a| + 1 && b[..|a|] == a && b[|a|].pipeline == pipeline)
  }

  /** Running a pipeline concerns that pipeline and its rollback, with the followers given. */
  ghost predicate ForPipeline(p: Pipeline, followers: seq<Name>, st: Status, r: StepResult) {
    && (r.outcome.Next? ==>
         MayAdd(st.runs, r.outcome.status.runs, p.name) || MayAdd(st.runs, r.outcome.status.runs, p.rollback))
    && forall w :: w in r.writes && w.CreateRun? ==>
         w.followers == followers && (w.pipeline == p.name || w.pipeline == p.rollback)
  }

  /** The group lease is only created by k, for k, and only the lease of k's group is deleted. */
  ghost predicate PipelineWrite(group: string, k: Name, runs: seq<Run>, w: Write) {
    || RunWrite(k, runs, w)
    || (group != "" && (w == CreateLease(GroupLease(group), k) || w == DeleteLease(GroupLease(group))))
  }

  ghost predicate OnlyPipeline(v: View, k: Name, st: Status, r: StepResult)
    requires k in v.specs
  {
    var group := v.specs[k].group;
    && (forall key :: key in r.leases ==>
         (key in v.leases && r.leases[key] == v.leases[key]) || (group != "" && key == GroupLease(group) && r.leases[key] == k))
    && (r.outcome.Next? ==> r.outcome.status.rv == st.rv)
    && forall w :: w in r.writes ==> PipelineWrite(group, k, st.runs, w)
  }

  // ------------------------------------------------------------------ running a pipeline

  function SetRun(st: Status, x: nat, s: RunStatus): Status
    requires x < |st.runs|
  {
    st.(runs := st.runs[x := st.runs[x].(status := s)])
  }

  function AddRun(st: Status, pipeline: string, gen: Name): Status {
    st.(runs := st.runs + [Run(gen, pipeline, RunPending)])
  }

  function Quiet(v: View, outcome: Outcome): StepResult {
    StepResult([], v.leases, outcome)
  }

  function Stopping(v: View, name: Name): seq<Write>
    requires name in v.tekton
  {
    if v.tekton[name].stopping then [] else [CancelRun(name)]
  }

  function RollBack(v: View, k: Name, st: Status, p: Pipeline, followers: seq<Name>, gen: Name): (r: StepResult)
    ensures OnlyRuns(v, k, st, r)
    ensures ForPipeline(p, followers, st, r)
  {
    match FirstRun(st.runs, p.rollback)
    case None => Quiet(v, Next(AddRun(st, p.rollback, gen), false))
    case Some(x) =>
      var run := st.runs[x];
      if run.status.RunCompleted? || run.status.RunFailed? then Quiet(v, Next(st, false))
      else if run.name !in v.tekton then
        if run.status.RunCancelled? then Quiet(v, Next(st, false))
        else StepResult([CreateRun(run.name, k, p.rollback, followers)], v.leases, Next(st, false))
      else
        var s := v.tekton[run.name].status;
        if Ended(s) then Quiet(v, Next(SetRun(st, x, s), false))
        else if run.status.RunCancelled? then StepResult(Stopping(v, run.name), v.leases, Next(st, false))
        else Quiet(v, Next(SetRun(st, x, s), false))
  }

  function Execute(cal: Calendar, v: View, k: Name, st: Status, i: nat, followers: seq<Name>, now: int, gen: Name): (r: StepResult)
    requires i < |cal.pipelines|
    ensures OnlyRuns(v, k, st, r)
    ensures ForPipeline(cal.pipelines[i], followers, st, r)
  {
    var p := cal.pipelines[i];
    match FirstRun(st.runs, p.name)
    case None => Quiet(v, Next(AddRun(st, p.name, gen), false))
    case Some(x) =>
      var run := st.runs[x];
      if run.status.RunCompleted? then Quiet(v, Next(st, true))
      else if run.name !in v.tekton then ExecuteUnseen(cal, v, k, st, i, x, followers, now, gen)
      else ExecuteSeen(cal, v, k, st, i, x, followers, gen)
  }

  /** The lister has no Tekton run under the name the status holds. */
  function ExecuteUnseen(cal: Calendar, v: View, k: Name, st: Status, i: nat, x: nat, followers: seq<Name>, now: int, gen: Name): (r: StepResult)
    requires i < |cal.pipelines| && x < |st.runs| && st.runs[x].pipeline == cal.pipelines[i].name
    ensures OnlyRuns(v, k, st, r)
    ensures ForPipeline(cal.pipelines[i], followers, st, r)
  {
    var p, run := cal.pipelines[i], st.runs[x];
    match run.status
    case RunCancelled => Quiet(v, Next(st, false))
    case RunFailed => Quiet(v, Next(if p.rollback != "" && p.autoRollback then SetRun(st, x, RunRollback) else st, false))
    case RunRollback => RollBack(v, k, st, p, followers, gen)
    case _ =>
      if WaitForHours(now, cal.hours, cal.zone) > 0 then Quiet(v, Halt)
      else StepResult([CreateRun(run.name, k, p.name, followers)], v.leases, Next(st, false))
  }

  /** The lister has the Tekton run: its state decides the phase and the entry. */
  function ExecuteSeen(cal: Calendar, v: View, k: Name, st: Status, i: nat, x: nat, followers: seq<Name>, gen: Name): (r: StepResult)
    requires i < |cal.pipelines| && x < |st.runs| && st.runs[x].name in v.tekton
    ensures OnlyRuns(v, k, st, r)
    ensures ForPipeline(cal.pipelines[i], followers, st, r)
  {
    var p, run := cal.pipelines[i], st.runs[x];
    var s: RunStatus := v.tekton[run.name].status;
    var st' := st.(phase := if s.RunCancelled? then Cancelled else if s.RunFailed? then Failed else Running);
    if s.RunCompleted? then Quiet(v, Next(SetRun(st', x, RunCompleted), true))
    else if (s.RunCancelled? || s.RunFailed?) && run.status.RunRollback? then
      RollBack(v, k, st', p, followers, gen)
    else if s.RunCancelled? then Quiet(v, Next(SetRun(st', x, RunCancelled), false))
    else if s.RunFailed? then
      Quiet(v, Next(SetRun(st', x, if p.rollback != "" && p.autoRollback then RunRollback else RunFailed), false))
    else if run.status.RunCancelled? then StepResult(Stopping(v, run.name), v.leases, Next(st', false))
    else Quiet(v, Next(SetRun(st', x, s), false))
  }

  /** A LeaderOnly pipeline: elect, follow, or lock the group and run. */
  function SyncLeaderOnly(cal: Calendar, v: View, k: Name, st: Status, i: nat, last: string, now: int, gen: Name): (r: StepResult)
    requires v.Valid() && k in v.events && st.time.Some? && i < |cal.pipelines|
    ensures OnlyPipeline(v, k, st, r)
  {
    if st.leader.None? then LeaderElect(v, k, st)
    else if st.leader != Some(k) then
      if st.leader.value !in v.events then Quiet(v, Halt)
      else Quiet(v, Next(st, RunStatusOf(v.events[st.leader.value], cal.pipelines[i].name) == Some(RunCompleted)))
    else if v.specs[k].created + 30 * SECOND > now then Quiet(v, Halt)
    else if v.specs[k].group == "" || GroupLease(v.specs[k].group) !in v.leases then
      GatherAndRun(cal, v, k, st, i, last, [], now, gen)
    else
      match LockScan(cal, v, v.specs[k].group, st.time.value, v.order)
      case Panic => Quiet(v, Halt)
      case Wait => Quiet(v, Next(st, false))
      case Pass =>
        var key := GroupLease(v.specs[k].group);
        GatherAndRun(cal, v.(leases := v.leases - {key}), k, st, i, last, [DeleteLease(key)], now, gen)
  }

  function GatherAndRun(cal: Calendar, v: View, k: Name, st: Status, i: nat, last: string, writes: seq<Write>, now: int, gen: Name): (r: StepResult)
    requires v.Valid() && k in v.events && i < |cal.pipelines|
    ensures r.leases == v.leases && (r.outcome.Next? ==> r.outcome.status.rv == st.rv)
    ensures forall w :: w in r.writes ==> w in writes || RunWrite(k, st.runs, w)
  {
    match FollowersScan(v.events, k, last, v.order)
    case Panic => StepResult(writes, v.leases, Halt)
    case Wait => StepResult(writes, v.leases, Next(st, false))
    case Pass =>
      var r := Execute(cal, v, k, st, i, FollowersOf(v.events, k, v.order), now, gen);
      r.(writes := writes + r.writes)
  }

  predicate Early(cal: Calendar, st: Status, i: nat, now: int)
    requires Feasible(cal.days) && st.time.Some? && i < |cal.pipelines|
  {
    match GetTimeWithOffset(st.time.value, cal.pipelines[i].offset, cal.zone, cal.days)
    case Err => true
    case Ok(when) => when > now
  }

  function SyncPipeline(cal: Calendar, v: View, k: Name, st: Status, i: nat, last: string, now: int, gen: Name): (r: StepResult)
    requires Feasible(cal.days) && v.Valid() && k in v.events && st.time.Some? && i < |cal.pipelines|
    ensures OnlyPipeline(v, k, st, r)
  {
    match ProbeLeader(cal, v, k, st)
    case None => Quiet(v, Halt)
    case Some(st') =>
      if st' != st then Quiet(v, Next(st', false))
      else if Early(cal, st, i, now) then Quiet(v, Halt)
      else if !cal.pipelines[i].ignoreAfter && !AfterDone(cal, v, k, st, i) then Quiet(v, Next(st, false))
      else if cal.pipelines[i].leaderOnly then SyncLeaderOnly(cal, v, k, st, i, last, now, gen)
      else Execute(cal, v, k, st, i, [], now, gen)
  }

  // ------------------------------------------------------------------ the whole sync

  /** The last Always pipeline before i, or "" if there is none. */
  function LastAlways(pipelines: seq<Pipeline>, i: nat): string
    requires i <= |pipelines|
  {
    if i == 0 then "" else if !pipelines[i - 1].leaderOnly then pipelines[i - 1].name else LastAlways(pipelines, i - 1)
  }

  function RunFrom(cal: Calendar, v: View, k: Name, st: Status, i: nat, now: int, gen: Name): seq<Write>
    requires Feasible(cal.days) && v.Valid() && k in v.events && st.time.Some? && i <= |cal.pipelines|
    decreases |cal.pipelines| - i
  {
    if i == |cal.pipelines| then
      if st.phase.Completed? then [] else [UpdateStatus(k, st.(phase := Completed))]
    else
      var r := SyncPipeline(cal, v, k, st, i, LastAlways(cal.pipelines, i), now, gen);
      match r.outcome
      case Halt => r.writes
      case Next(st', done) =>
        if st' != st then r.writes + [UpdateStatus(k, st')]
        else if !done then r.writes
        else r.writes + RunFrom(cal, v.(leases := r.leases), k, st, i + 1, now, gen)
  }

  /** syncHandler: everything one sync of event k writes, in order. */
  function Plan(cal: Calendar, v: View, k: Name, now: int, paused: bool, gen: Name): seq<Write>
    requires Feasible(cal.days) && v.Valid()
  {
    if k !in v.events then []
    else
      var st := v.events[k];
      match ProbeTime(cal, v, k, st, now)
      case Err => []
      case Ok(timed) =>
        var probed := ProbePhase(cal, k, timed);
        if probed != st then [UpdateStatus(k, probed)]
        else if st.time.None? || paused || st.phase.Completed? then []
        else
          var a := AcquireLease(v, k, st);
          if !a.ok then a.writes
          else a.writes + RunFrom(cal, v.(leases := a.leases), k, st, 0, now, gen)
  }

  // ------------------------------------------------------------------ what becomes of the key

  /** acquireLease fails where the lister does not show who holds the lease. */
  predicate HolderUnlisted(v: View, k: Name, st: Status)
    requires k in v.specs
  {
    var key := NameLease(v.specs[k].title);
    (st.phase.Unset? || st.phase.Pending?) && key in v.leases && v.leases[key] != k && v.leases[key] !in v.events
  }

  /** The pipelines end the sync with a delay, an error or a panic. */
  predicate ReturnsFrom(cal: Calendar, v: View, k: Name, st: Status, i: nat, now: int, gen: Name)
    requires Feasible(cal.days) && v.Valid() && k in v.events && st.time.Some? && i <= |cal.pipelines|
    decreases |cal.pipelines| - i
  {
    i < |cal.pipelines| &&
    var r := SyncPipeline(cal, v, k, st, i, LastAlways(cal.pipelines, i), now, gen);
    match r.outcome
    case Halt => true
    case Next(st', done) => st' == st && done && ReturnsFrom(cal, v.(leases := r.leases), k, st, i + 1, now, gen)
  }

  /** Even if all its writes are taken the sync asks for its event to be synced again: in five
      seconds without a time, after a delay, after an error, or because it panics and the program
      starts anew. */
  predicate Returns(cal: Calendar, v: View, k: Name, now: int, paused: bool, gen: Name)
    requires Feasible(cal.days) && v.Valid()
  {
    k in v.events &&
    var st := v.events[k];
    match ProbeTime(cal, v, k, st, now)
    case Err => true
    case Ok(timed) =>
      ProbePhase(cal, k, timed) == st &&
      if st.time.None? then true
      else if paused || st.phase.Completed? then false
      else
        var a := AcquireLease(v, k, st);
        HolderUnlisted(v, k, st) || (a.ok && ReturnsFrom(cal, v.(leases := a.leases), k, st, 0, now, gen))
  }
}
