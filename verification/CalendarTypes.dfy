/** The objects the event controller reads and writes, reduced to the fields its decisions use. */
module CalendarTypes {
  import opened Prelude
  import opened CalendarDays
  import opened CalendarHours

  type Name = string

  // ------------------------------------------------------------------ the calendar

  datatype Pipeline = Pipeline(
    name: string, leaderOnly: bool, ignoreAfter: bool, offset: Offset, rollback: string, autoRollback: bool)

  datatype Calendar = Calendar(pipelines: seq<Pipeline>, daily: bool, days: Days, hours: seq<Window>, zone: int) {
    /** Pipeline names are distinct, non-empty and different from the rollback names. */
    ghost predicate Valid() {
      && Feasible(days)
      && (forall i | 0 <= i < |pipelines| :: pipelines[i].name != "")
      && (forall i, j | 0 <= i < j < |pipelines| :: pipelines[i].name != pipelines[j].name)
      && (forall i, j | 0 <= i < |pipelines| && 0 <= j < |pipelines| :: pipelines[i].name != pipelines[j].rollback)
    }

    /** Some pipeline runs for every event, so an event that finished has a run to show. */
    ghost predicate HasAlways() {
      exists i :: 0 <= i < |pipelines| && !pipelines[i].leaderOnly
    }
  }

  // ------------------------------------------------------------------ events

  datatype Phase = Unset | Pending | Running | Completed | Failed | Cancelled

  predicate Terminal(p: Phase) {
    p.Completed? || p.Failed? || p.Cancelled?
  }

  datatype RunStatus =
    | RunPending | RunRunning | RunUnknown
    | RunCompleted | RunCancelled | RunFailed
    | RunRollback

  /** A Tekton run in one of these states stays there. */
  predicate Ended(s: RunStatus) {
    s.RunCompleted? || s.RunFailed? || s.RunCancelled?
  }

  datatype Run = Run(name: Name, pipeline: string, status: RunStatus)

  /** The status of an event; rv is the resource version of the object. */
  datatype Status = Status(rv: nat, phase: Phase, time: Option<int>, leader: Option<Name>, runs: seq<Run>)

  datatype RunAfter = RunAfter(title: string, pipeline: string, offset: Offset)

  /** What users fix when they create an event. The title is its name within the calendar;
      an empty group means none. */
  datatype Spec = Spec(title: string, group: string, created: int, time: Option<int>, after: seq<RunAfter>)

  // ------------------------------------------------------------------ leases and Tekton runs

  datatype LeaseKey = NameLease(title: string) | GroupLease(group: string)

  /** Tekton itself knows no rollback. */
  type TektonStatus = s: RunStatus | !s.RunRollback? witness RunPending

  datatype TektonRun = TektonRun(event: Name, pipeline: string, status: TektonStatus, stopping: bool, followers: seq<Name>)

  /** An API write of one sync. A status update carries the version it was computed from. */
  datatype Write =
    | UpdateStatus(event: Name, status: Status)
    | DeleteEvent(event: Name)
    | CreateLease(key: LeaseKey, holder: Name)
    | TakeLease(key: LeaseKey, previous: Name, holder: Name)
    | DeleteLease(key: LeaseKey)
    | CreateRun(name: Name, event: Name, pipeline: string, followers: seq<Name>)
    | CancelRun(name: Name)

  /** What a sync can see: the listers' caches, in some listing order, and the leases. */
  datatype View = View(
    specs: map<Name, Spec>, order: seq<Name>, events: map<Name, Status>,
    leases: map<LeaseKey, Name>, tekton: map<Name, TektonRun>)
  {
    ghost predicate Valid() {
      && events.Keys <= specs.Keys
      && (forall k :: k in order <==> k in events)
      && (forall i, j | 0 <= i < j < |order| :: order[i] != order[j])
    }
  }

  // ------------------------------------------------------------------ runs of one pipeline

  /** The first entry of a pipeline, as every search over status.pipelineRuns finds it. */
  function FirstRun(runs: seq<Run>, pipeline: string): (r: Option<nat>)
    ensures r.Some? ==> r.value < |runs| && runs[r.value].pipeline == pipeline
    ensures r.Some? ==> forall i :: 0 <= i < r.value ==> runs[i].pipeline != pipeline
    ensures r.None? ==> forall i :: 0 <= i < |runs| ==> runs[i].pipeline != pipeline
  {
    FirstRunFrom(runs, pipeline, 0)
  }

  function FirstRunFrom(runs: seq<Run>, pipeline: string, i: nat): (r: Option<nat>)
    requires i <= |runs|
    requires forall j :: 0 <= j < i ==> runs[j].pipeline != pipeline
    ensures r.Some? ==> r.value < |runs| && runs[r.value].pipeline == pipeline
    ensures r.Some? ==> forall j :: 0 <= j < r.value ==> runs[j].pipeline != pipeline
    ensures r.None? ==> forall j :: 0 <= j < |runs| ==> runs[j].pipeline != pipeline
    decreases |runs| - i
  {
    if i == |runs| then None
    else if runs[i].pipeline == pipeline then Some(i)
    else FirstRunFrom(runs, pipeline, i + 1)
  }

  function RunStatusOf(st: Status, pipeline: string): Option<RunStatus> {
    match FirstRun(st.runs, pipeline)
    case None => None
    case Some(i) => Some(st.runs[i].status)
  }

  /** pipelineCompleted: an empty pipeline asks for the whole event. */
  predicate PipelineCompleted(st: Status, pipeline: string) {
    if pipeline == "" then st.phase.Completed? else RunStatusOf(st, pipeline) == Some(RunCompleted)
  }

  /** A run a LeaderOnly pipeline does not wait for any longer. */
  predicate IsSettled(s: RunStatus) {
    s.RunCompleted? || s.RunCancelled? || s.RunFailed? || s.RunRollback?
  }

  predicate Settled(s: Option<RunStatus>) {
    s.Some? && IsSettled(s.value)
  }
}
