# The release calendar controller, modelled in Dafny

A release calendar runs many release events through one list of pipelines. Nothing coordinates
the events but Kubernetes leases and what each event writes into its own status. This project
models that protocol, the working-time arithmetic it relies on, the strvals parser and value
merging of the deployer, and the bookkeeping of the release controller, and proves what they
promise.

## How the model is laid out

**The calendar protocol.** `EventSync` is what one `syncHandler` call writes, as a function of
what it sees. `EventController` is the same sync as the program performs it: an object that reads
listers, changes a copy of the event in place, loops, and sends API writes one by one. Each of its
methods is proved against its function in `EventSync`; if the API server stops accepting, what was
sent is a prefix of the plan. What those functions mean is said without them, event by event and entry
by entry: `Probes` tells which time and phase a sync sets, `RunAfter` whom an event waits for, `Starts`
which gates every Tekton run that a sync makes or stops has passed, `Turns` and `Leading` what a sync
does with an event that has come so far.
`Protocol` puts any number of such syncs on a cluster: stored events
and leases, informer caches that lag, syncs in flight that commit one write at a time and may stop
between any two, users, Tekton and the garbage collector. `Growth`, `Invariant`, `PlanSound`,
`Safety` and `Exclusion` carry the invariants, `Theorems` states what holds in every reachable
state. Groups come next. `GroupPlan` is what one sync plans for its group, `Groups` what one action
can change of it. `Barrier`, `Freeze` and `GroupLeases` prove, for any number of workers and any
lag of the listers, what a LeaderOnly pipeline may count on; where that needs that no two syncs of
one group are on their way at once, or that a lister is not behind, the theorem says so, and `Race`
and `Days` are runs from the empty cluster, built with `Scenes` and `Steps`, that go wrong
otherwise. `Followers` says when a list of followers is complete (`Followers.NothingSkipped` tells
where its condition on skipped days asks nothing), `Thaw` proves the converse of the freeze.
`Progress` (with `Segments` and `Undisturbed`) excludes deadlock, `WakeUp` lost wake-ups on adding and
updating events; `Deletion` and `Stranded` say what deleting one leaves asleep, and `Sleeper` is a run
to such an event. `Schedule` settles the times of events that wait for each other. `Succession` is a
run in which the lease of a title goes to an older event. `Edges` holds inputs on which the assumptions
below are needed.

**Working time.** `CalendarDays` and `CalendarHours`. An instant is a number of nanoseconds, a zone
a fixed number of hours, and the epoch was a Thursday (`CalendarDays.WeekdaysFollow`).

**Values.** `Strvals` is the parser as functions of the text that is left, `StrvalsParser` the
parser that consumes its buffer, `StrvalsText` tells by positions in the text what a stretch of it is,
`StrvalsGrammar` says which texts are accepted and what each does, `StrvalsRoundTrip` is a printer and the
round trip, `StrvalsEnd` what becomes of an empty value at the end of the input, `Values` merging and
escaped commas. What Go changes in place through aliases (inner maps, list elements, also on
the error paths) is written out in the functions.

**Releases.** `Release` is the phase and its conditions, `ReleaseController` the part of the sync
that keeps them and the revision history. Setting the phase twice is setting it once
(`Release.PhaseStepIsIdempotent`).

## What is assumed

- The calendar and the spec of an event are fixed. One calendar is modelled; its pipeline names
  are distinct, not empty and no rollback names. For the safety theorems some pipeline is run by
  every event; `Edges.PhaseFlips` shows why.
- Some weekday is allowed, or there are no restrictions on days (`CalendarDays.Feasible`);
  otherwise the search for a fitting day has no end (`CalendarDays.FeasibleIsExact`).
- Tekton runs that have ended stay as they are, and are not deleted. Users change nothing in a
  status but request the cancellation of a run.
- The labels of an event say what its spec says, groups are compared in one case, the cluster
  of a pipeline does not change, and its template exists.
- The lease on a title and the lease on a group are different objects. `Edges.LeasesCollide` says
  exactly when they are not.
- Names generated for runs are new, and the name of an event is not used again once it is deleted.
- What one sync reads is taken together at its start. The program asks the API server for a lease
  each time it needs one, so that a sync may see a lease change between two of its steps; the model
  reads all leases when the sync begins. The listers may lag by any amount.
- Caches move forward only: an informer never shows an older version after a newer one.

## Where the code and its documentation differ

- `pkg/apis/fleet/v1alpha2/types.go:123` promises offsets such as `-1d,10:00`. The code hands the
  first part to Go's duration parser, which knows no days, so such an offset is an error. The
  model follows the code: `BadOffset`.
- The examples above `pipelineGroups` (`pkg/controller/calendar/util.go:142-146`) list ends before
  begins; the function returns begins first. The model follows the code.
- The comment at `pkg/controller/calendar/group.go:103` takes a missing lease to mean that nobody else
  can join. `cmd/calendar/main.go:95` starts two workers, and then a sync that is already on its way
  still can (`Race.TwoWorkersBreakTheFreeze`). It holds if no two syncs of one group are on their way
  at once (`Freeze.FrozenFollowers`), and in general exactly under the condition of
  `Thaw.FreezeIsExact`.
- In a daily group the scan before the lock leaves out events of other days, while the election at
  `pkg/controller/calendar/group.go:49-92` does not look at the day. So the scan can miss a follower
  that the lister does not show yet (`Days.DailyListIsIncomplete`), and free the lease of an event
  that has not recorded its leader (`Days.DailyLeaseIsCreatedTwice`).

## Model

| member | source | states |
|---|---|---|
| CalendarDays.FitsInForward | pkg/controller/calendar/util.go:246-272 | ends, keeps the time of day, and gives the first fitting day on or after the given one |
| CalendarDays.FitsInBackward | pkg/controller/calendar/util.go:274-300 | the same, looking back |
| CalendarDays.SearchIsShort | pkg/controller/calendar/util.go:246-300 | either search takes less than 7 * (distinct skipped days + 1) days |
| CalendarDays.FeasibleIsExact | pkg/controller/calendar/util.go:246-300 | from any day on some day fits exactly if some weekday is allowed or nothing is restricted; otherwise neither search has an answer |
| CalendarDays.ComputeTimeWithOffset | pkg/controller/calendar/util.go:45-95 | the loops, day by day, compute the offset function used everywhere else, errors included; what that function is, OffsetInZone, OffsetFromAnyDay and ClockKeepsDay say |
| CalendarDays.OffsetIsAddition | pkg/controller/calendar/util.go:61-85 | from a fitting day, an offset of either sign is plain addition on the timeline with the days off cut out |
| CalendarDays.OffsetsCompose | pkg/controller/calendar/util.go:61-85 | +x then +y is +(x+y) for all signs, and +x then -x comes back |
| CalendarDays.WholeDays | pkg/controller/calendar/util.go:61-72 | n whole days ahead is the same time on the n-th later fitting day |
| CalendarDays.EverydayOffset | pkg/controller/calendar/util.go:45-95 | without restrictions on days an offset is ordinary addition, in every zone |
| CalendarDays.OffsetInZone | pkg/controller/calendar/util.go:50-95 | in every zone: from a day that fits there, an offset is addition of working time on that zone's days, and any other than zero ends on a day that fits there |
| CalendarDays.OffsetFromAnyDay | pkg/controller/calendar/util.go:61-85 | from any day, and exactly: the first day's worth is added as it is and moved to the nearest fitting day of the zone, the rest is addition of working time |
| CalendarDays.ClockKeepsDay | pkg/controller/calendar/util.go:87-92 | the hh:mm part sets the time of day on the very day of the zone that the duration reached; what cannot be parsed is an error |
| CalendarDays.RestrictionsAdd | pkg/controller/calendar/util.go:246-300 | what ranges of weekdays and skipped days allow, range by range and day by day |
| CalendarDays.SameDayIsLocal | pkg/controller/calendar/util.go:213-215 | two instants are on one day exactly if no midnight of the zone lies between them |
| CalendarHours.InCalendarHours | pkg/controller/calendar/util.go:97-135 | the loop over windows computes the wait, stopping at the first window that lets in |
| CalendarHours.LetsInIsExact | pkg/controller/calendar/util.go:115-127 | the hour test means "inside the window, also past midnight" for all instants exactly if one end of the window is at most 24 |
| CalendarHours.WaitIsExact | pkg/controller/calendar/util.go:97-135 | for proper windows the wait is 0 exactly inside a window, is less than a day, and leads to the first instant inside any, so one wait is enough |
| CalendarHours.ClosedWindowsNeverOpen | pkg/controller/calendar/util.go:115-134 | windows that close before they open make every sync wait |
| Segments.PipelineGroups | pkg/controller/calendar/util.go:147-180 | the two loops give each pipeline the names of the first and last of its segment, and the index of every name |
| Segments.SegmentIsMaximal | pkg/controller/calendar/util.go:147-180 | that segment is the one run of Always pipelines around it that cannot be extended, or the LeaderOnly pipeline alone |
| Segments.IndexesAgree | pkg/controller/calendar/util.go:149-153 | a look-up in the index map, 0 for unknown names, is the index of the name |
| PipelineRunStatus.Classify | pkg/controller/calendar/pipelinerun.go:203-291 | each of the six states exactly when: the first condition whose reason and status say anything decides, Pending without conditions, Unknown if none says anything |
| Probes.TimeMeans | pkg/controller/calendar/event_controller.go:775-827 | the time probed: an event's own once it has started, none within 15 seconds of a creation that names predecessors, then the latest of its own and what they give in the calendar's zone, provided each has a time and an offset that makes sense |
| Probes.PhaseMeans | pkg/controller/calendar/event_controller.go:747-773 | the phase probed: Pending without entries, Completed for a follower whose last entries of all Always pipelines have completed, otherwise as it was |
| Probes.ProbesAreWritten | pkg/controller/calendar/event_controller.go:242-261 | another time or phase is all a sync writes; without a time it comes again |
| Turns.TitleDecides | pkg/controller/calendar/event.go:16-102 | the lease on the title as a table, over the whole plan: created, taken over, waited for, or the event deleted, and never touched by an event that holds it or has begun |
| Leading.AdoptionDecides | pkg/controller/calendar/group.go:17-47 | a leaderless event adopts the listed holder of its group's lease, in a daily group exactly if no midnight lies between them |
| Leading.ElectionDecides | pkg/controller/calendar/group.go:49-92 | at a LeaderOnly pipeline a leaderless event leads, and creates the lease, exactly if nobody holds it |
| Leading.FollowerGoesByLeader | pkg/controller/calendar/event_controller.go:389-425 | a follower passes a LeaderOnly pipeline exactly if the leader's first entry of it has completed, and sleeps before |
| Leading.LockDecides | pkg/controller/calendar/group.go:94-138 | a leader waits 30 seconds from its creation, and with the lease in hand deletes it first, exactly if every listed event of the group and day has a leader |
| Leading.LockWaits | pkg/controller/calendar/group.go:110-138 | before that it writes nothing, and comes again exactly where the first event in its way has no time |
| Leading.GatheringDecides | pkg/controller/calendar/event_controller.go:829-897 | likewise without a lease to delete, while a follower holds it up |
| Leading.UngatheredMeans | pkg/controller/calendar/event_controller.go:829-897 | a follower holds up its leader exactly if it is neither Failed nor Cancelled and its first entry of the last Always pipeline is not over |
| RunAfter.AfterDoneMeans | pkg/controller/calendar/event_controller.go:349-387 | nobody holds a pipeline back exactly if every listed event that is the first of the latest of a title asked for, or has no time, shows the first entry of the pipeline asked for as completed, or the phase where none is; within a cohort, of the end of the segment |
| Starts.RunsAreAdmitted | pkg/controller/calendar/event_controller.go:330-622 | for any view: a Tekton run that a sync makes or stops belongs to a pipeline whose offset is reached, that runAfter lets through and before which all are completed; with the entry it is made or stopped for, and never while paused |
| Starts.RunsStartInTime | pkg/controller/calendar/event_controller.go:510-522 | the run of a pipeline is made only within the calendar's hours and not before its offset, a LeaderOnly one for exactly the listed followers, all settled |
| Starts.PausedStandsStill | pkg/controller/calendar/event_controller.go:242-261 | a paused event gets at most the time and phase it would get anyway |
| Turns.OffsetDecides | pkg/controller/calendar/event_controller.go:341-347 | before its offset is reached, an event that has come to a pipeline writes nothing and comes again |
| Turns.FirstIsRecorded | pkg/controller/calendar/event_controller.go:476-500 | an event whose turn has come first records a pending entry under a new name, and nothing else |
| Turns.HoursDecide | pkg/controller/calendar/event_controller.go:510-545 | and then makes that run, under the name recorded, exactly within the calendar's hours; outside them it writes nothing and comes again |
| Turns.OverWithoutRun | pkg/controller/calendar/event_controller.go:496-512 | without a Tekton run a cancelled entry stays, a failed one is marked for rollback exactly where that is the policy |
| Turns.RunDecides | pkg/controller/calendar/event_controller.go:551-622 | what Tekton says of the current run, as a table: phase, entry, rollback and the request to stop, once |
| Turns.RollbackDecides | pkg/controller/calendar/pipelinerun.go:106-177 | what follows on an entry marked for rollback, as a table: entry, run, state and stop of the rollback |
| EventController.Event.GetPipelineRunStatusOrInit | pkg/controller/calendar/pipelinerun.go:179-199 | step of the refinement of EventSync, in place and write by write: the first entry of a pipeline, or one new entry at the end and nothing else changed |
| EventController.Event.ProbePhase | pkg/controller/calendar/event_controller.go:747-773 | step of the refinement of EventSync, in place and write by write: the phase an event's own runs imply, and no other field changed |
| EventController.Controller.ProbeTime | pkg/controller/calendar/event_controller.go:775-827 | step of the refinement of EventSync, in place and write by write: the time after all listed predecessors, or none yet, or an error |
| EventController.Controller.AcquireLease | pkg/controller/calendar/event.go:16-102 | step of the refinement of EventSync, in place and write by write: the lease on the title: created, held, taken over from an event that is over, or the older event deleted; errors stop |
| EventController.Controller.ProbeLeader | pkg/controller/calendar/group.go:17-47 | step of the refinement of EventSync, in place and write by write: adopts the holder of the group lease, on the same day if groups are daily |
| EventController.Controller.LeaderElect | pkg/controller/calendar/group.go:49-92 | step of the refinement of EventSync, in place and write by write: becomes leader, or adopts the holder, without looking at the day |
| EventController.Controller.LockLeader | pkg/controller/calendar/group.go:94-138 | step of the refinement of EventSync, in place and write by write: deletes the group lease once every event of the group has a leader |
| EventController.Controller.GetFollowersParams | pkg/controller/calendar/event_controller.go:829-897 | whether every follower has settled the pipeline, and exactly the followers, in listing order |
| EventController.SettledIn | pkg/controller/calendar/event_controller.go:870-888 | the first entry of the pipeline decides |
| EventController.Controller.FilterEvents | pkg/controller/calendar/util.go:184-211 | keeps exactly the latest event of each title and those without a time |
| EventController.Controller.RunAfterDone | pkg/controller/calendar/event_controller.go:349-387 | step of the refinement of EventSync, in place and write by write: whether every kept predecessor has completed what it must, the whole segment within a cohort; entry by entry this is AfterDoneMeans |
| EventController.Controller.RollbackEventPipeline | pkg/controller/calendar/pipelinerun.go:106-177 | step of the refinement of EventSync, in place and write by write: entry, run or cancellation of the rollback, one API write at most |
| EventController.Controller.CreateOrRollback | pkg/controller/calendar/event_controller.go:492-549 | step of the refinement of EventSync, in place and write by write: what happens to an entry whose Tekton run is not there; as tables these are HoursDecide, OverWithoutRun and RollbackDecides |
| EventController.Controller.TrackPipelineRun | pkg/controller/calendar/event_controller.go:551-622 | step of the refinement of EventSync, in place and write by write: what a Tekton run that is there makes of phase and entry; as tables these are RunDecides and RollbackDecides |
| EventController.Controller.ExecutePipeline | pkg/controller/calendar/event_controller.go:476-622 | step of the refinement of EventSync, in place and write by write: running one pipeline, from its entry on |
| EventController.Controller.SyncLeaderOnlyPipeline | pkg/controller/calendar/event_controller.go:389-456 | step of the refinement of EventSync, in place and write by write: elect, follow, or lock, gather and run |
| EventController.Controller.SyncEventPipeline | pkg/controller/calendar/event_controller.go:330-622 | step of the refinement of EventSync, in place and write by write: one pipeline of one sync: writes, leases, status, and whether to go on |
| EventController.Controller.SyncHandler | pkg/controller/calendar/event_controller.go:217-328 | whatever the API server does, what it was sent is a prefix of the plan, and all of it if it takes that many writes; and the key comes again exactly after a refused write, an error, a panic or a delay |
| EventController.Controller.EnqueueEvent | pkg/controller/calendar/event_controller.go:624-670 | adds exactly the event and its leader, and of the listed events those of its title, its followers, those that run after it and those of its group |
| PlanSound.PlanJustified | pkg/controller/calendar/event_controller.go:217-328 | every write a sync plans is justified by the state, however old what the sync saw is |
| Safety.StepInv | pkg/controller/calendar/event_controller.go:217-328 | every action of workers, users, Tekton and collector keeps the invariant and takes nothing back |
| Theorems.AtMostOneTektonRun | pkg/controller/calendar/pipelinerun.go:106-136 | in every reachable state an event has at most one Tekton run per pipeline, rollbacks included, under the name its status records |
| Theorems.StatusOnlyGrows | pkg/controller/calendar/event_controller.go:296-328 | entries keep name, pipeline and completion, the leader is written once, a terminal phase is never left |
| Theorems.PipelinesRunInOrder | pkg/controller/calendar/event_controller.go:296-319 | an entry for a pipeline means that every earlier one is completed, in its own runs or the leader's |
| Theorems.CompletedMeansCompleted | pkg/controller/calendar/event_controller.go:747-773 | phase Completed means all Always pipelines completed, for a leader all pipelines, for ever, by both routes that set it |
| Theorems.CompletedEntryIsTrue | pkg/controller/calendar/event_controller.go:582-588 | a completed entry names a Tekton run that did complete |
| Theorems.BadPhaseIsTrue | pkg/controller/calendar/event_controller.go:582-600 | in every reachable state phase Failed means an entry whose Tekton run failed, phase Cancelled one whose Tekton run was cancelled |
| Theorems.SameTitleExclusion | pkg/controller/calendar/event.go:16-102 | of all existing events of one title at most one has runs and is not over, and it holds the lease |
| Theorems.SuccessorIsYounger | pkg/controller/calendar/event.go:65-102 | one step: a lease that is there passes on only after its holder is over or gone, to an event not created earlier |
| Theorems.HoldersGetYounger | pkg/controller/calendar/event.go:29-102 | over any stretch of a run in which the lease of a title is not collected, its last holder was not created before its first |
| Theorems.OlderHolderFollowsCollection | pkg/controller/calendar/event.go:29-55 | the order of holders breaks only where the lease was collected in between, once its holder was gone |
| Succession.OlderFollowsYounger | pkg/controller/calendar/event.go:29-62 | one worker and up-to-date listers: an older event follows a younger holder that was deleted, since an absent lease is created without comparing |
| Theorems.DeletedEventNeverRan | pkg/controller/calendar/event.go:73-81 | an event deleted for being older than the holder has no entry and no Tekton run |
| GroupPlan.PlanHasShape | pkg/controller/calendar/event_controller.go:389-456 | when a plan may create or delete the lease of its group, adopt a leader, start a LeaderOnly pipeline, or hand on followers |
| Barrier.ListedHaveSettled | pkg/controller/calendar/event_controller.go:829-897 | for any number of workers and any lag: whoever is handed to the run of a LeaderOnly pipeline follows its leader and has settled the last Always pipeline before, or failed or was cancelled, for ever |
| Barrier.CohortBarrier | pkg/controller/calendar/event_controller.go:389-456 | likewise: an entry past LeaderOnly pipeline i means that the leader completed i, in its entry and in Tekton, and that everyone handed to that run has settled what comes before i |
| Freeze.LockedStaysFrozen | pkg/controller/calendar/group.go:17-138 | for any number of workers and any lag: once the group is locked and no sync on its way would adopt the leader, no event ever does |
| Freeze.FrozenFollowers | pkg/controller/calendar/group.go:94-138 | for any number of workers and any lag, if no two syncs of one group are on their way at once: a leader that has started a LeaderOnly pipeline is locked, and no event newly adopts it |
| Thaw.FreezeIsExact | pkg/controller/calendar/group.go:17-138 | in every reachable state in which the writes of the group's syncs on their way will be taken: no continuation adds a follower exactly if the leader is locked |
| Thaw.LockIsExact | pkg/controller/calendar/group.go:94-138 | while no sync of the group is on its way: no continuation adds a follower exactly if the leader does not hold the lease |
| Followers.FollowersAreComplete | pkg/controller/calendar/event_controller.go:829-897 | the followers handed to a LeaderOnly run are all there will ever be, with lagging listers, if syncs of one group do not overlap and no lock scan leaves out an event whose leader the lister does not show |
| Followers.CompleteExactlyIfShown | pkg/controller/calendar/event_controller.go:829-897 | daily or not: the list a sync makes is complete for ever exactly if its lister shows every stored follower |
| Followers.WholeCohortBarrier | pkg/controller/calendar/event_controller.go:389-456 | where lists are complete, every existing member of the cohort has settled what comes before a LeaderOnly pipeline that someone is past |
| Days.DailyListIsIncomplete | pkg/controller/calendar/group.go:117-127 | one worker, a daily group and a lagging lister: a follower of another day is missing from the list |
| GroupLeases.LeaseIsOwn | pkg/controller/calendar/group.go:49-92 | for any number of workers and any lag: a group lease is created by a sync of its holder alone, which began when the lister showed the holder leaderless, and the stored leader has not changed since |
| GroupLeases.LeaseIsCreatedOnce | pkg/controller/calendar/group.go:49-92 | if syncs of one group do not overlap, and groups are not daily or no lock scan leaves out a holder shown leaderless: whoever creates its lease a second time had been deleted before that sync began and was still listed |
| Days.DailyLeaseIsCreatedTwice | pkg/controller/calendar/group.go:94-138 | one worker and up-to-date listers in a daily group: an event that exists throughout creates its lease twice |
| Days.DeletedHolderCreatesAgain | pkg/controller/calendar/group.go:49-92 | one worker, not daily: a deleted event that is still listed creates its lease again |
| Race.TwoWorkersBreakTheFreeze | cmd/calendar/main.go:95 | from the empty cluster, with fresh caches and no failing write, two workers lead to a follower that the LeaderOnly run was not handed |
| Steps.LeadsIsRun | cmd/calendar/main.go:95 | the steps of these histories form a run of the system, taken with the stated care |
| Undisturbed.UndisturbedSync | pkg/controller/calendar/event_controller.go:217-328 | from caches that have caught up the API server takes every write of a sync in turn |
| Progress.SomeoneMoves | pkg/controller/calendar/event_controller.go:349-456 | once the lock scan passes, following what holds a member back, to an earlier segment, the leader or a predecessor, ends at a member that can advance |
| Progress.ScanMoves | pkg/controller/calendar/group.go:110-130 | while the lock scan waits, a leaderless event of the group, or an event without a time that it waits for at one remove or more, can advance |
| Progress.NoDeadlock | pkg/controller/calendar/event_controller.go:349-456 | while a member of an unhindered cohort is not completed, the next sync of a member, of a leaderless event of the group, or of an event still without a time writes something the API server takes, or Tekton is at work |
| WakeUp.NoLostWakeUp | pkg/controller/calendar/event_controller.go:624-670 | after an add or update, an event that is not notified would do exactly what it would have done before |
| Deletion.OthersLoseNothing | pkg/controller/calendar/event_controller.go:112-123 | an event that enqueueEvent for a would not notify plans, once a is deleted and its leases are collected, exactly what it planned before |
| Stranded.StrandedExactly | pkg/controller/calendar/event_controller.go:263-266 | deletions notify nobody: of the others, an event that has something to do at its pipeline, with its time set and no delay, error or panic to bring it back, is stranded by the deletion of a exactly if a alone holds it back, as predecessor, leaderless event of its group or follower |
| Stranded.TitleStrandedExactly | pkg/controller/calendar/event.go:75-102 | an event that waits for the lease on its title sleeps, and is stranded by the deletion of a exactly if a holds the lease |
| Sleeper.DeletionStrands | pkg/controller/calendar/event_controller.go:112-123 | one worker and up-to-date listers: from the empty cluster to an event that sleeps at any later time, and would go on once the event it waits for is deleted |
| Schedule.ScheduleConverges | pkg/controller/calendar/event_controller.go:775-827 | as many fair rounds as the graph is deep leave every event at its own time or the latest its predecessors give it, and nothing changes after |
| Schedule.ScheduleIsUnique | pkg/controller/calendar/event_controller.go:775-827 | without cycles there is one such schedule |
| Schedule.OrderDoesNotMatter | pkg/controller/calendar/event_controller.go:775-827 | any two fair orders lead to the same times |
| Edges.LeasesCollide | pkg/controller/calendar/group.go:22 | the lease names of a title and a group are equal exactly if the calendar is in lower case and the title is the group in lower case |
| Edges.PhaseFlips | pkg/controller/calendar/event_controller.go:747-752 | where only the leader runs anything, the sync of a Pending follower that is through declares it Completed, and its next sync puts it back to Pending |
| StrvalsParser.Parser.RunesUntil | pkg/util/strvals/parser.go:390-408 | reads up to a stop rune, undoing escapes, and leaves the rest in the buffer |
| StrvalsText.RunesMean | pkg/util/strvals/parser.go:390-408 | for any text: it ends at the first stop rune that no unescaped backslash precedes, or at the end, and keeps all runes but the backslashes that escape |
| StrvalsText.ValueMeans | pkg/util/strvals/parser.go:346-350 | a value that is no list runs to the first such comma |
| StrvalsText.BracedListReads | pkg/util/strvals/parser.go:352-388 | every non-empty list of strings, escaped, joined by commas and put in braces, reads as exactly these in their order, and takes one comma behind it along |
| StrvalsText.BracedLine | pkg/util/strvals/parser.go:352-388 | the line k={...} sets k to the list of exactly these strings |
| StrvalsText.ListFailsExactly | pkg/util/strvals/parser.go:366-377 | a list fails exactly if no closing brace follows that is not escaped |
| StrvalsText.BracedListIsWritten | pkg/util/strvals/parser.go:153-229 | assigned under any path that fits, the list is written there whole, and fails where the path does not fit |
| StrvalsText.LiteralsAre | pkg/util/strvals/parser.go:415-447 | which texts are true, false and null, letter by letter; any other is an integer or itself |
| StrvalsText.NumbersAre | pkg/util/strvals/parser.go:440-444 | which texts are integers, and which integer |
| StrvalsText.NoValueFails | pkg/util/strvals/parser.go:207-210 | a path followed by a comma instead of an equals sign fails, a plain key having been set to an empty value |
| StrvalsGrammar.KeyIsExact | pkg/util/strvals/parser.go:153-344 | for every text and map: the parser accepts a key and value exactly if the text spells a path whose tail is a value and which fits the map, empty keys included; and what it then writes and leaves to read |
| StrvalsGrammar.PutIsGrow | pkg/util/strvals/parser.go:153-344 | without empty keys that is plain writing under the path |
| StrvalsParser.Parser.KeyIndex | pkg/util/strvals/parser.go:261-271 | the index up to a bracket, None at the end of the input or if it is no number |
| StrvalsParser.Parser.ValList | pkg/util/strvals/parser.go:352-388 | a list, or the reason why there is none, with the buffer untouched if a value follows; what the list is, BracedListReads and ListFailsExactly say |
| StrvalsParser.Parser.Key | pkg/util/strvals/parser.go:153-229 | one key: the map it leaves, what is left to read, and how it ended, also on every error path |
| StrvalsParser.Parser.ListItem | pkg/util/strvals/parser.go:272-344 | one list item, likewise, panics told from errors |
| StrvalsParser.Parser.Parse | pkg/util/strvals/parser.go:132-143 | keys until the input ends, which is success, or one fails |
| StrvalsRoundTrip.KeyGrows | pkg/util/strvals/parser.go:153-229 | an assignment with an escaped path writes its value under that path, and fails exactly where a value on the way does not fit |
| StrvalsRoundTrip.ItemGrows | pkg/util/strvals/parser.go:272-344 | the same from a list item on |
| StrvalsRoundTrip.GrowTwice | pkg/util/strvals/parser.go:153-344 | writing below something written replaces it by what it becomes |
| StrvalsRoundTrip.ParsePrinted | pkg/util/strvals/parser.go:56-62 | every tree of non-empty maps and lists with string leaves, printed leaf by leaf in any order of its keys, parses back to itself |
| StrvalsEnd.EmptyAtTheEnd | pkg/util/strvals/parser.go:309-327 | for every path that fits: what an empty value at the end of the input leaves, and that it reads like one before a comma exactly if the path ends in an index, or no index directly before a field lies beyond the list it finds |
| StrvalsEnd.EmptyAtTheEndIsLost | pkg/util/strvals/parser.go:309-327 | the shortest such loss, a field in a new list item |
| StrvalsRoundTrip.IntegersReadBack | pkg/util/strvals/parser.go:415-447 | every 64-bit integer, written out, is read as that integer |
| Values.MergeMaps | pkg/util/values/values.go:228-245 | the loops, in whatever order, compute the merge |
| Values.MergeAtPath | pkg/util/values/values.go:228-245 | at every path the right side wins, maps merge, and the left side shows where the right says nothing and has no leaf on the way |
| Values.MergeIsIdempotent | pkg/util/values/values.go:228-245 | merging a map with itself, or with nothing on either side, changes nothing |
| Values.MergeIsAssociative | pkg/util/values/values.go:228-245 | associative exactly if, wherever the three hold a map, a non-map and a map, the last has everything the first has |
| Values.EscapingIsExact | pkg/util/values/values.go:190-195 | for a key that needs no escaping, escaping the commas preserves a value exactly if it has no backslash and does not start with a brace |
| Values.Overlay | pkg/util/strvals/parser.go:153-229 | setting a path of keys succeeds exactly if every existing proper prefix is a map; then it sets that path and nothing apart from it |
| Release.PruneIsExact | pkg/controller/release/controller.go:687-697 | pruning keeps the last condition of each kind and no other, and the last of all stays last |
| Release.MarkerFollows | pkg/controller/release/controller.go:687-711 | of several markers the last is kept, and changes, with its time, exactly if it does not say whether the deployer is up |
| Release.MarkerIsTruthful | pkg/controller/release/controller.go:698-711 | over any run in which nobody else reports markers: after each pruning the marker is True exactly if the deployer is up |
| Release.PruneIsIdempotent | pkg/controller/release/controller.go:687-697 | pruning twice is pruning once |
| Release.NoOutcomeWithoutReport | pkg/controller/release/controller.go:464-495 | over any run, after Running is entered the phase is neither Succeeded nor Failed until the deployer reports |
| ReleaseController.KeepLastOfKind | pkg/controller/release/controller.go:687-697 | the two loops over the conditions compute the pruning |
| ReleaseController.Controller.SiftRevisions | pkg/controller/release/controller.go:381-417 | deletes own revisions above the generation, outdated and duplicate ones at it, touches no other, and nothing if the history is in order |
| ReleaseController.Controller.TrimRevisions | pkg/controller/release/controller.go:720-736 | deletes exactly the oldest revisions beyond the limit |
| ReleaseController.TrimmedIsSettled | pkg/controller/release/controller.go:381-438 | what is left: one revision at the generation with the snapshot, none above, at most the limit, none older than a deleted one |
| ReleaseController.Controller.Sync | pkg/controller/release/controller.go:324-739 | a sync that runs to its end leaves such a history, a further one changes none of it, the marker survives every sync and says whether the deployer is up |

## Left out

- StrvalsGrammar.KeyIsExact: what a key leaves in the map where it fails; and where the input has ended, only whether anything; for paths without empty keys StrvalsEnd.EmptyAtTheEnd says what.
- Turns.RunDecides: with the other tables of Turns and Leading, for an event that has come so far without a write, as every sync that goes on does.
- Freeze.FrozenFollowers: not for two syncs of one group on their way at once, as two workers may have; there it is false (Race.TwoWorkersBreakTheFreeze), and Thaw.FreezeIsExact says when it holds.
- Thaw.FreezeIsExact: for a leader that the lister does not take for leaderless. A lister that does lets the leader create the lease of its group again, and whether its plan gets that far depends on the calendar.
- Thaw.LockIsExact: likewise for a leader that the lister does not take for leaderless.
- Thaw.FreezeIsExact: the writes of syncs on their way must be taken in turn; one that would adopt the leader, but has lost the lease on its title to another event, may or may not get it back.
- Progress.NoDeadlock: for runAfter entries that name no pipeline and point to members of the cohort, without failures, with leases of deleted events collected, and in daily groups with the lease held on the leader's day.
- GroupLeases.LeaseIsCreatedOnce: for daily groups the condition is sufficient; that without it a lease is created twice is shown on one run (Days.DailyLeaseIsCreatedTwice).
- GroupLeases.LeaseIsCreatedOnce: that a holder which was deleted, and is still listed, does create its lease again is shown on one run, not for every calendar.
- Progress.NoDeadlock: that only finitely many such syncs follow, so that every fair run ends with all members completed, is not claimed.
- Stranded.StrandedExactly: for a deleted event that is the only listed one of its title and does not hold the lease of the other's group. Stranded.StandingActs says of any view what an event at its pipeline does.
- Edges.PhaseFlips: of what any view shows; no run to such a view is given.
- WakeUp.NoLostWakeUp: adds and updates of events. Events of Tekton runs and calendars only put keys on the queue.
- Schedule.ScheduleConverges: for events that have a time of their own and are still pending.
- CalendarDays.ComputeTimeWithOffset: named time zones and daylight saving time; offsets are taken as parsed.
- Values.Overlay: paths of keys. Paths through lists are covered by StrvalsRoundTrip.KeyGrows, where a list element of another kind is replaced rather than kept.
- Parameters, results and templates of pipelines, the choice of the cluster, and start and completion times; so status writes of the program that change only results or times do not occur in the model.
- The parameter `followers`: in the program it stays set for Always pipelines that the same sync runs after a LeaderOnly one; the model hands followers to LeaderOnly runs alone.
- How long the delays are after which a key is queued again; that it is queued again is EventSync.Returns.
- The decoding of Tekton objects: PipelineRunStatus.Classify takes conditions as they are.
- Several calendars: events of other calendars take no part.
- Edits of specs and calendars while events run, and status edits by users other than cancellation.
- Files as values (the reader of ParseFile), the YAML output, and list indexes that do not fit into memory.
- Reading values from environment, files, config maps and secrets; only what is done with each value is modelled.
- Secrets, deployments, clean-up and credentials of the release controller: one input says whether they were up to date and one what phase the deployer has.
- Revision limits of 0 or below, for which the history promises nothing.
- Ties in sorting revisions: the model sorts in one order, the contracts hold for any.
- git-sync, the deployer plugins, webhooks, the HTTP proxy, metrics and admission: plumbing without decisions of this kind.
