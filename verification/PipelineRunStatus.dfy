/** getPipelineRunStatus of pkg/controller/calendar/pipelinerun.go: what a Tekton run has come
    to, by its conditions. */
module PipelineRunStatus {
  import opened Prelude
  import opened CalendarTypes

  /** A condition of a PipelineRun; None where a field is missing. */
  datatype Condition = Condition(reason: Option<string>, status: Option<string>)

  predicate GoesOn(c: Condition) {
    c.reason == Some("Started") || c.reason == Some("Running")
  }

  /** A run counts as cancelled only under this one reason, whatever the status. */
  predicate WasCancelled(c: Condition) {
    c.reason == Some("PipelineRunCancelled")
  }

  predicate HasFailed(c: Condition) {
    c.reason.Some? && !GoesOn(c) && !WasCancelled(c) && c.status == Some("False")
  }

  predicate HasCompleted(c: Condition) {
    (c.reason == Some("Succeeded") || c.reason == Some("Completed")) && c.status.Some? && c.status != Some("False")
  }

  predicate Says(c: Condition) {
    GoesOn(c) || WasCancelled(c) || HasFailed(c) || HasCompleted(c)
  }

  /** Condition i is the first that says anything. */
  ghost predicate Decides(conditions: seq<Condition>, i: int) {
    0 <= i < |conditions| && Says(conditions[i]) && forall j :: 0 <= j < i ==> !Says(conditions[j])
  }

  /** The first condition that says anything decides; without conditions the run is pending, and
      if none says anything its state is unknown. */
  method Classify(conditions: Option<seq<Condition>>) returns (status: TektonStatus)
    ensures status.RunPending? <==> conditions.None?
    ensures conditions.Some? ==>
              var cs := conditions.value;
              && (status.RunUnknown? <==> forall j :: 0 <= j < |cs| ==> !Says(cs[j]))
              && (status.RunRunning? <==> exists i :: Decides(cs, i) && GoesOn(cs[i]))
              && (status.RunCancelled? <==> exists i :: Decides(cs, i) && WasCancelled(cs[i]))
              && (status.RunFailed? <==> exists i :: Decides(cs, i) && HasFailed(cs[i]))
              && (status.RunCompleted? <==> exists i :: Decides(cs, i) && HasCompleted(cs[i]))
  {
    if conditions.None? {
      return RunPending;
    }
    var cs := conditions.value;
    for i := 0 to |cs|
      invariant forall j :: 0 <= j < i ==> !Says(cs[j])
    {
      var c := cs[i];
      if c.reason.None? {
        continue;
      }
      var reason := c.reason.value;
      if reason == "Started" || reason == "Running" {
        assert Decides(cs, i);
        return RunRunning;
      }
      if reason == "PipelineRunCancelled" {
        assert Decides(cs, i);
        return RunCancelled;
      }
      if c.status.None? {
        continue;
      }
      if c.status.value == "False" {
        assert Decides(cs, i);
        return RunFailed;
      }
      if reason != "Succeeded" && reason != "Completed" {
        continue;
      }
      assert Decides(cs, i);
      return RunCompleted;
    }
    return RunUnknown;
  }
}
