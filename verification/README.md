# killport: observation, plan, apply and classic kill

A Dafny model of killport's core: what one observation of the machine says about a port,
how a plan is built from it and checked, how apply carries the plan out concurrently and
judges the result, the classic kill path, the Linux signal race under both, and the
parsers of the socket tables, of `lsof`, of port arguments and of `/proc/<pid>/stat`.

The parts follow the program's own form. Code that updates state step by step is a class
or a method with loops, proved against a specification function: the `collect*` methods
fill a `Collector`, `buildPlan` appends to a `Draft`, `classify` fills nested maps and
flips flags, `planKill` grows rows that share `Act` objects, `finishRows` mutates rows,
`parseLsof` is a parser object with a resetting flush, `decodeProcAddr` swaps bytes in an
array. Concurrent code is a step system: a run is a sequence of events, and everything the
outside world decides (what a provider answers, when the context is cancelled, which
goroutine or process moves next) is part of the event, so a statement about all event
sequences covers every schedule. External answers are parameters, and any of them may be
a failure.

| module | part of the program |
|---|---|
| `Text`, `Sorting`, `Counting`, `Domain` | strings and numbers, library sorts, sums over runs, shared values |
| `Observe` | `observe.go`: collecting a snapshot and projecting it onto a port |
| `Plan`, `PlanBuild`, `PlanCheck`, `PlanTheorems`, `PlanDecisions`, `ExitClass` | `plan.go`: the rules, `buildPlan`, `validatePlan`, what holds of every plan, and who is planned, refused and why |
| `Outcome`, `Occupants`, `ApplyResult` | `apply.go`: `classify`, what each status means, `observeOutcome`, the result document, the exit class, the time limits |
| `Scheduler`, `SchedulerInvariant`, `SchedulerTheorems` | `apply.go`: `applyPlan` and its goroutines as a step system |
| `ActionAccounting`, `ActionEvidence`, `ActionResults`, `ApplyRun` | counts, evidence, results and the result document over whole runs |
| `Replay` | many applies on one host, signals taken as atomic |
| `SignalRace`, `SignalPaths` | `procid_linux.go`: one signal as single steps between exits and PID reuse |
| `SharedHost`, `SharedRefinement` | many applies on one host, their signals made of those steps |
| `Binding`, `PlanToSignal` | from a listed owner to its identity, and from an observation to the signals sent for it |
| `KillRows`, `KillDraft`, `KillPlan`, `KillTheorems`, `KillExecute`, `KillRun`, `KillCommand` | `kill.go`: planning, executing, verifying, settling rows |
| `Listeners`, `Lsof`, `LsofOutput`, `LsofRoundTrip`, `LsofPorts`, `Sockets`, `PortSpecs`, `ProcStat` | the parsers |

## What was found

- **Executed actions.** The number of executed actions is the signals accepted plus the
  stops issued plus the panics before a call, less the stops that docker answered with
  "no such container" neither together with a deadline nor after a cancellation. The
  simpler count, which subtracts every "no such container" answer, is right exactly when
  no such answer is masked in that way (`SimpleCountExactly`; `SimpleCountFails` gives a
  run): the deadline is tested before the text of the answer. A stop is issued when its call
  is made, whether or not docker is then started; the count is that of actions really
  carried out exactly when docker was started every time as well (`RealCountExactly`,
  `RealCountFails`).
- **Stale processes.** A process that the action's own observation proves closed is never
  signalled once the identity lookup confirms it; it is signalled only if that lookup gave
  no answer, and then it can be (`StaleSignalledOnlyBlind`, `StaleSignalledWhenBlind`).
- **Docker and stale processes.** The comment in `noLongerHolds` (`apply.go:313-315`) says
  that a Docker failure cannot turn a proven stale action into a signal. It can, because
  the unattributed flag it reads is lifted by a container on the port: the proof is lost
  exactly when on some planned port only a container accounts for somebody
  (`DockerMattersExactly`; `DockerFailureSignals` gives an observation).
- **The fallback race.** The compare-then-kill fallback reaches another process if and only
  if the compared one exited and its PID was taken again between the last start-time read
  and the kill (`FallbackMissesExactly`, `MissesExactly`); a schedule that does so exists
  (`FallbackCanMiss`). The call takes it only when a pidfd cannot be opened or signalled
  through; otherwise it never reaches another process
  (`UnblockedReachesOnlyThePlanned`). Every answer of the call, also then, is
  one an atomic signal could have given (`SignalIsAtomic`), so apply cannot tell the
  difference: any number of applies on the real calls refines the same applies on atomic
  signals (`SharedRefinesAtomic`).
- **Listing and lookup.** An owner is listed at one moment and its start token is read later.
  The token is that of the listed process if and only if the PID was not given up and taken
  again in between; if it was, the classic kill signals another process than was listed
  (`BindsTheHolderExactly`, `SignalReachesTheHolderExactly`, `StrangerCanBeBound`).
- **The class of a plan.** As `docs/workflow.md:159` says, an endpoint with limited visibility
  always comes with a refusal, so that uncertain only comes from endpoints of which nothing
  was visible. The branch of `planClass` for an occupied endpoint without a resource never
  decides the class (`PlanClassExactly`).
- **Checker and builder.** Every built plan is accepted, and every resource, request and window
  that is accepted could have been built (`BuiltPlanIsValid`, `AcceptedCouldBePlanned`,
  `AcceptedRequestCouldBeMade`).
- **Polling.** The outcome is observed at most `5 * grace_seconds + 1` times, one fewer than
  the obvious bound.
- **Names of a PID.** Classic planning protects Docker's own processes by name, row by row.
  No row of a targeted PID is protected if and only if every row of a PID that may be acted
  on carries a name that allows it (`TargetsAreSafeExactly`); one name per PID is enough
  (`TargetsAreSafe`), two names can make a Docker process a target (`TwoNamesTarget`).
- **lsof layouts.** The order of name and state may change from entry to entry, not just from
  process to process; only a state printed right after an entry that has none is taken for
  that entry's (`LsofIsRead`, `MergedWhenTaken`).
- **Port arguments.** The comment above `parsePortSpecs` (`ports.go:34-36`) says that every
  argument is validated before any range is expanded. The code expands each argument before
  it looks at the next: on rejection it holds the ports of the arguments before the first bad
  one, which are none if and only if the first is bad (`NothingHeldExactly`), and may be all
  of them (`ExpandedBeforeRejected`). The bound the comment draws from it, 65535 entries,
  holds all the same (`ParsePortSpecs`).

## Model

| member | source | states |
|---|---|---|
| Observe.OccupiedMeans | internal/cli/observe.go:586-632 | an endpoint is occupied exactly when the table that was read has the port, or a live owner row, an invisible row or a container names it |
| Observe.UnseenIsNotFree | internal/cli/observe.go:678-690 | complete visibility without occupancy holds exactly when every provider answered, the table was read and lacks the port, and nobody names it |
| ActionEvidence.VisibilityMeans | internal/cli/observe.go:678-690 | each of the four visibilities, from provider failures, rows, table, containers and names |
| ActionEvidence.HiddenMeans | internal/cli/observe.go:619-626 | a hidden occupant is one the native sources conceal and no container accounts for |
| Observe.OwnersOfMembers | internal/cli/observe.go:596-617 | the owners of an endpoint are exactly those of its live rows |
| Observe.OwnersInFull | internal/cli/observe.go:594-617 | the owners are the attributed PIDs of the port that had not exited when they were looked up, each with the identity its lookup gave |
| Observe.OwnersAreAscending | internal/cli/observe.go:594-617 | no process is an owner of a port twice, and owners come in PID order |
| Observe.Collector.CollectOwnersUnix | internal/cli/observe.go:258-325 | lsof's rows when it works, else those of ss on Linux, else an owner error and no rows |
| Observe.Collector.CollectWindows | internal/cli/observe.go:431-473 | netstat gives table and rows, tasklist only names; names count as missing only when a row has a PID and tasklist failed |
| Observe.Collector.TakeRows | internal/cli/observe.go:449-458 | every row counts for the table and as an owner row, and whether any has a PID |
| Observe.Collector.NameRows | internal/cli/observe.go:469-472 | every row gets the listed name of its PID, or none |
| Observe.Collector.CollectDocker | internal/cli/observe.go:477-544 | containers are exactly the rows with an ID and a port of the protocol, in ID order; after any failure there are none |
| Observe.Collector.CollectIdentities | internal/cli/observe.go:562-572 | every attributed PID gets one identity, from one lookup, named by its first row |
| Observe.LookupOwnerMeans | internal/cli/observe.go:546-560 | which answers of a lookup leave an identity, one that is gone, denied, or missing; a start token only in the first case |
| Observe.Collect | internal/cli/observe.go:140-157 | every collection, whatever its providers answered, satisfies the invariant the projection relies on, and says which providers failed |
| Observe.ProjectOwners | internal/cli/observe.go:594-617 | the loop over rows with its `seen` map yields exactly the live PIDs in ascending order |
| Observe.SortedOwners | internal/cli/observe.go:595-617 | any sort by PID of the gathered owners is that one list |
| Observe.ProjectContainers | internal/cli/observe.go:589-593 | the containers that publish the port, in collection order |
| Observe.ProjectEndpoint | internal/cli/observe.go:586-632 | the program's projection equals the specification of an endpoint |
| ExitClass.WorstIgnoresOrder | internal/cli/plan.go:97-117 | the class that wins depends on which classes were raised, not on their order or number |
| ExitClass.WorstStep | internal/cli/plan.go:112-117 | raising one more class through worseExit keeps the winner |
| ExitClass.PrecedenceMeans | internal/cli/plan.go:96-117 | usage wins before failed, uncertain, needs-fresh-plan and ok |
| Plan.BookUses | internal/cli/plan.go:262-271 | a recorded resource lists exactly the requested ports on which its occupant was ruled usable |
| Plan.BookRefusals | internal/cli/plan.go:272-280 | the recorded refusals are exactly those ruled on some requested port, each once |
| PlanBuild.Draft.Apply | internal/cli/plan.go:262-280 | one verdict changes the resource map, the port's list and the refusals exactly as `use` and `refuse` do |
| PlanBuild.RulePort | internal/cli/plan.go:282-348 | one port's containers, owners and hidden occupant are recorded in that order |
| PlanBuild.PlanPort | internal/cli/plan.go:254-350 | the endpoint document of a port, and the book with that port's verdicts added |
| PlanBuild.Values | internal/cli/plan.go:352-354 | ranging over the resource map visits every entry once in no particular order |
| PlanBuild.PlanClass | internal/cli/plan.go:385-402 | the class is the worst raised by the endpoints and the refusals |
| PlanBuild.BuildPlan | internal/cli/plan.go:221-382 | the plan is one of the documents the specification allows for the observation |
| PlanDecisions.OwnerPlannedExactly | internal/cli/plan.go:298-345 | a visible owner is planned exactly when mode, name, PID and identity all allow it, and refused exactly when neither that holds nor a container explains it |
| PlanDecisions.ContainerPlannedExactly | internal/cli/plan.go:282-297 | a container is planned exactly when the mode is not native and its ID is full |
| PlanDecisions.PlannedFromOccupant | internal/cli/plan.go:282-345 | every resource is taken, with its name and identity, from an occupant shown on a requested port |
| PlanDecisions.PlannedActions | internal/cli/plan.go:200-350 | TERM, KILL or terminate as OS and force flag say; a grace is the least number of whole seconds that is enough |
| PlanDecisions.RefusalSaysWhy | internal/cli/plan.go:298-345 | the reason given for refusing a visible owner is true of it, whatever order the rules are tried in |
| PlanDecisions.HiddenIsRefused | internal/cli/plan.go:346-348 | an owner that is not visible is refused under PID 0, exactly when there is one |
| PlanDecisions.PlannedPortsAscend | internal/cli/plan.go:262-271 | a resource lists its ports in ascending order |
| PlanDecisions.PlanIsInOrder | internal/cli/plan.go:355-377 | containers by ID, then processes by PID; refusals by port, then PID |
| PlanDecisions.EndpointListsExactly | internal/cli/plan.go:254-350 | each endpoint of the document lists exactly the resources and refusals of its port |
| PlanDecisions.PlanClassMeans | internal/cli/plan.go:385-402 | failed, uncertain and ok as documented, and no other class |
| PlanDecisions.PlanClassExactly | internal/cli/plan.go:385-402 | failed exactly for a refusal or a failed provider, uncertain exactly when otherwise something was not visible at all; limited visibility always comes with a refusal |
| PlanCheck.CheckPorts | internal/cli/plan.go:457-463 | no complaint exactly when the ports are in range and strictly ascending |
| PlanCheck.CheckRequest | internal/cli/plan.go:440-463 | no complaint exactly when the request is well formed |
| PlanCheck.CheckNative | internal/cli/plan.go:492-523 | a process resource passes exactly when mode, PID, identity, ID, action and signal all fit |
| PlanCheck.CheckResource | internal/cli/plan.go:483-542 | a resource passes exactly when its ports were requested and its kind's rules hold |
| PlanCheck.ValidatePlan | internal/cli/plan.go:436-555 | accepts exactly the valid plans |
| PlanDecisions.AcceptedCouldBePlanned | internal/cli/plan.go:483-542 | every accepted resource is one that could have been planned from some observation under some options |
| PlanDecisions.AcceptedRequestCouldBeMade | internal/cli/plan.go:440-475 | every accepted request and window is one that accepted options give at some time |
| PlanTheorems.ProcIdInjective | internal/cli/plan.go:197 | a process resource ID determines PID and start token |
| PlanTheorems.IdKindsDiffer | internal/cli/plan.go:197-198 | no process ID is a container ID |
| PlanTheorems.PlannedIsUsable | internal/cli/plan.go:282-350 | every planned resource is a process or container the rules allow, on exactly the ports it lists |
| PlanTheorems.PlanIsDeterministic | internal/cli/plan.go:352-377 | two plans of one observation are equal, whatever order the map was walked in |
| PlanTheorems.WindowIsOk | internal/cli/plan.go:200-205 | times are cut down to whole seconds, and cutting both ends of the window keeps it within the limit |
| PlanTheorems.BuiltPlanIsValid | internal/cli/plan.go:436-555 | every plan buildPlan makes is accepted by validatePlan, in every mode and on every OS |
| PlanTheorems.ArgumentsGiveAcceptedPlan | internal/cli/plan.go:221-382 | the same from accepted port arguments, a collected snapshot and lookups that keep their contract |
| PlanTheorems.ContainerAccounting | internal/cli/plan.go:282-297 | each container on a requested port is planned or refused, never both, and when which |
| PlanTheorems.OwnerAccounting | internal/cli/plan.go:298-345 | each visible owner is exactly one of planned, refused, or Docker's own process behind a listed container |
| PlanTheorems.OkPlanCoversAll | internal/cli/plan.go:385-402 | class ok holds exactly when nothing is hidden and every other occupant is in a resource |
| Outcome.DefaultNeverTaken | internal/cli/apply.go:505-519 | the last branch of classify is dead for every snapshot, plan and port |
| Outcome.StatusCases | internal/cli/apply.go:505-519 | what each of the five statuses says about the judgements on the occupants |
| Outcome.FreeExactly | internal/cli/apply.go:419-526 | a port is reported free exactly when every source was read and none of them names it |
| Outcome.OriginalIsPlanned | internal/cli/apply.go:470-508 | "blocked by original" is only said when a planned occupant is still there |
| Occupants.OwnerJudgementMeans | internal/cli/apply.go:470-488 | each of the five judgements on an owner, independent of the order of the questions |
| Occupants.ContainerJudgementMeans | internal/cli/apply.go:489-501 | the same for containers |
| Occupants.OriginalExactly | internal/cli/apply.go:470-508 | "blocked by original" exactly when the planned incarnation, not refused there, or a planned container whose stop did not time out is still on the port |
| Occupants.StatusExactly | internal/cli/apply.go:470-519 | "blocked by refused owner" and "blocked by new owner" exactly when such an occupant is there and nothing worse |
| Occupants.BuiltPlanNamesOnce | internal/cli/plan.go:262-271 | a built plan names each process and container once, which the exact statuses need |
| Occupants.SurvivorIsOriginal | internal/cli/apply.go:470-508 | a planned process that is still shown on its port is reported as the original, for every built plan and all results |
| Occupants.UnseenStaysRefused | internal/cli/apply.go:502-508 | an owner that was and is not visible blocks the port as refused |
| Occupants.FreeInFull | internal/cli/apply.go:505-519 | free, row by row: all sources read, no table entry, only owners that had exited, no container |
| Occupants.HoldersExactly | internal/cli/apply.go:464-492 | the holders reported are exactly the visible owners and containers of the port |
| Outcome.Planned.Enter | internal/cli/apply.go:426-443 | one resource is entered on each of its ports, replacing what was there |
| Outcome.JudgeOwners | internal/cli/apply.go:470-488 | the flags after the owners are exactly the judgements on them |
| Outcome.JudgeContainers | internal/cli/apply.go:489-501 | the same for the containers, added to the flags so far |
| Outcome.Classify | internal/cli/apply.go:419-526 | the nested maps and flags yield the specified report for every requested port |
| ApplyResult.RaisedBy | internal/cli/apply.go:544-570 | the classes raised are exactly those of some result or some endpoint |
| ApplyResult.ClassIgnoresOrder | internal/cli/apply.go:544-570 | the class does not depend on the order of results or endpoints |
| ApplyResult.OkClassExactly | internal/cli/apply.go:544-570 | class ok means every result is harmless and every endpoint free and completely visible |
| ApplyResult.WorstFits | internal/cli/apply.go:544-570 | which results and endpoints make an apply failed, uncertain, needs-fresh-plan or ok |
| ApplyResult.ApplyClass | internal/cli/apply.go:544-570 | the loop returns the worst class raised |
| ApplyResult.ObserveOutcome | internal/cli/apply.go:400-413 | one observation when there is nothing to wait for; otherwise it goes on exactly while a port is not free, time is left and nothing was cancelled; at most 5 * grace + 1 times |
| ApplyResult.PassesTakeTime | internal/cli/apply.go:400-413 | passes that have not settled each took a poll interval |
| ApplyResult.GoneContainerHoldsNothing | internal/cli/apply.go:529-541 | a container reported gone holds none of the ports of the final observation |
| ApplyResult.VerifiedGoneIsTrue | internal/cli/apply.go:529-541 | a process is reported gone exactly when the lookup answered and did not show the planned start token, so only if it does not run; a container exactly when Docker answered and does not list it |
| ApplyResult.FinalResources | internal/cli/apply.go:204-207 | each final result is the action's own for its resource, reported gone only truly, and forced exactly when a signal other than TERM was delivered |
| ApplyResult.FinalClass | internal/cli/apply.go:214-222 | an interrupted apply is uncertain, any other has the class its results and endpoints call for |
| ApplyResult.FinishApply | internal/cli/apply.go:190-222 | the document: results, what is gone, statuses, how long it waited, and its class; exit 0 exactly when apply was not interrupted, every port is free and every result is not_attempted, signal_sent or stopped |
| ApplyRun.HarmlessExactly | internal/cli/apply.go:190-207 | all results of a finished run are harmless exactly when no event of it was harmful |
| ApplyRun.FinishRun | internal/cli/apply.go:161-222 | exit 0 holds exactly when the run skipped no resource, nothing harmful happened in it and every port is free; the executed count is that of its events |
| ApplyResult.FreeIsComplete | internal/cli/apply.go:419-526 | a free endpoint is completely visible, so freeness alone decides an endpoint's part of the class |
| ApplyResult.DeadlineNeverOverflows | internal/cli/apply.go:136-146 | for every plan that is accepted and small enough to be read, neither the deadline nor the time limit of any docker stop overflows 64 bits |
| ApplyResult.DeadlineExactly | internal/cli/apply.go:136-146 | the deadline is the grace period and 90 seconds for every wave of four resources, at most 10 minutes |
| ApplyResult.DeadlineIsSound | internal/cli/apply.go:136-146 | the deadline of an accepted plan lies between 90 seconds and 10 minutes and grows with resources and grace |
| SchedulerInvariant.RunKeeps | internal/cli/apply.go:161-188 | the invariant of slots, counters and result cells holds after every run |
| SchedulerInvariant.AtMostFourInFlight | internal/cli/apply.go:167-188 | in every reachable state at most four actions are in flight |
| SchedulerInvariant.FinishedMeans | internal/cli/apply.go:161-188 | when the dispatcher is done every resource has its own result, all slots are free and no goroutine is left |
| SchedulerTheorems.RunsAreBounded | internal/cli/apply.go:161-188 | every run is finite: at most 17 steps per resource and one more |
| SchedulerTheorems.NeverStuck | internal/cli/apply.go:167-188 | until the end some step is always possible |
| SchedulerTheorems.DispatcherWaitsExactly | internal/cli/apply.go:167-188 | the dispatcher waits exactly while four actions are in flight, and at the end for those that are left |
| SchedulerTheorems.FourCanRun | internal/cli/apply.go:166-188 | four actions, or all of a smaller plan, can be in flight at once |
| SchedulerTheorems.EveryAnswerIsTaken | internal/cli/apply.go:243-395 | each call accepts every answer, and only where it is made |
| SchedulerTheorems.OnceEach | internal/cli/apply.go:167-188 | each result is set exactly once and each resource is acted on at most once |
| SchedulerTheorems.AtMostFourAfterCancel | internal/cli/apply.go:243-272 | after a cancellation at most four further signals or stops are issued |
| ActionAccounting.BooksBalance | internal/cli/apply.go:190-199 | after every prefix of every run, phases and calls balance |
| ActionAccounting.ActionsAccounted | internal/cli/apply.go:190-199 | as many signal_sent results as accepted signals; executed actions are accepted signals, stops and early panics less the unmasked "no such container" answers |
| ActionAccounting.SimpleCountExactly | internal/cli/apply.go:366-395 | the count that subtracts every "no such container" is right exactly when none of them is masked |
| ActionAccounting.SimpleCountFails | internal/cli/apply.go:371-388 | a finished run on which that count is wrong |
| ActionAccounting.RealCountExactly | internal/cli/apply.go:331-395 | the executed count is that of the actions really carried out exactly when no "no such container" was masked and docker was started for every stop issued |
| ActionAccounting.RealCountFails | internal/cli/apply.go:358-388 | a finished run that counts a stop for which docker was never started |
| ActionEvidence.NoStaleSignal | internal/cli/apply.go:256-299 | a signal follows an observation made after the resource left the queue that did not prove it stale |
| ActionEvidence.NoStaleStop | internal/cli/apply.go:331-369 | a stop follows such an observation that showed the container running and publishing a planned port |
| ActionEvidence.ClosedIsNeverSignalled | internal/cli/apply.go:309-327 | wherever a signal is sent, what the action had observed and looked up did not show the process closed |
| ActionEvidence.ClosedSignalledWithoutLookup | internal/cli/apply.go:325-326 | when the lookup fails or names another incarnation the same observation can end in a signal, for any process of any plan |
| ActionEvidence.UnattributedMeans | internal/cli/observe.go:594-627 | what the unattributed flag means in terms of rows, table, identities and containers |
| ActionEvidence.ClosedIsProven | internal/cli/apply.go:309-324 | closed is proven exactly when both native sources were read, nobody on a planned port is unaccounted for, and no live row shows the PID on one |
| ActionEvidence.DockerMattersExactly | internal/cli/apply.go:309-324 | a Docker failure takes that proof away exactly when on some planned port only a container accounts for somebody; it never adds one |
| ActionEvidence.DockerFailureSignals | internal/cli/apply.go:313-326 | an observation on which a Docker failure turns a proven stale action into a signal |
| ActionEvidence.CheckNoLongerHolds | internal/cli/apply.go:309-327 | the nested loops decide noLongerHolds |
| ActionEvidence.DockerLists | internal/cli/apply.go:331-344 | the loops decide whether the container is listed and publishes a planned port |
| ActionEvidence.DecideAction | internal/cli/apply.go:254-369 | the order of the checks before a call gives the specified next step |
| ActionResults.NextCallExactly | internal/cli/apply.go:274-369 | after its lookup an action signals or stops exactly when what it had observed calls for it |
| ActionResults.ResultsMeanEvents | internal/cli/apply.go:243-395 | a resource of a finished run has each result exactly when the event that calls for it happened to its action |
| ActionResults.CallsAreCleared | internal/cli/apply.go:167-272 | an action that observes was admitted and entered, and one that calls had also resumed, before any cancellation |
| Replay.EveryDeliveryPlanned | internal/cli/apply.go:274-299 | over any interleaving of applies, exits and PID reuse, every signal reached a (PID, start) pair of the plan that sent it |
| Replay.DeliveriesSpareTheProtected | internal/cli/apply.go:274-284 | from an accepted plan no signal goes to PID 1 or below, killport itself or the Windows kernel |
| Replay.ExitIsFinal | internal/cli/system.go:42-48 | after an incarnation exited no apply of any plan delivers a signal for it |
| Replay.OwnRun | internal/cli/apply.go:161-188 | an apply among others runs as it would alone |
| Replay.OneSignalPerProcess | internal/cli/apply.go:161-188 | one apply of an accepted plan never signals the same process twice |
| Replay.StaleSignalledOnlyBlind | internal/cli/apply.go:309-327 | over all runs of all applies, a running process that its action saw closed is signalled only if the identity lookup had given no answer |
| Replay.StaleSignalledWhenBlind | internal/cli/apply.go:309-327 | and for any process of any plan such an unanswered lookup can end in the delivery of the signal |
| SignalRace.RaceRunKeeps | internal/cli/procid_linux.go:113-143 | the invariant of the open descriptor, the comparison and the signals sent, over every interleaving |
| SignalRace.PidfdReachesOnlyThePlanned | internal/cli/procid_linux.go:113-143 | at most one signal, one exactly on success, never for an invalid PID, and through the pidfd only to the planned start token |
| SignalPaths.ByPidOnlyWhenBlocked | internal/cli/procid_linux.go:113-143 | the call goes by PID only after a pidfd could not be opened or not be signalled through |
| SignalPaths.UnblockedReachesOnlyThePlanned | internal/cli/procid_linux.go:113-143 | otherwise every hit is through the pidfd and has the planned start token, whatever exits and reuses happen |
| SignalPaths.UndisturbedAnswer | internal/cli/procid_linux.go:96-143 | left alone, the call by either path delivers exactly to a running planned process, and says changed, gone or invalid exactly when that is so |
| SignalPaths.ErrorsAreFaults | internal/cli/procid_linux.go:69-143 | a permission or other error is answered exactly when a system call gave it or the PID is invalid |
| SignalPaths.CallEnds | internal/cli/procid_linux.go:113-143 | the call can always take its next step and ends after at most six |
| SignalRace.FallbackMissesExactly | internal/cli/procid_linux.go:92-105 | the fallback reaches another process if and only if an exit and reuse of the PID fall between the last read and the kill |
| SignalRace.FallbackCanMiss | internal/cli/procid_linux.go:92-105 | a schedule on which it does |
| SignalRace.MissesExactly | internal/cli/procid_linux.go:92-143 | over a whole call by either path, the process hit lacks the planned start token if and only if the PID was given up and taken again between comparison and kill |
| SignalRace.AnswersAreHonest | internal/cli/system.go:42-48 | an answer of gone or changed means the planned process does not run, now or later |
| SignalRace.AnswersAreJustified | internal/cli/procid_linux.go:107-143 | every answer was true at some moment of the call, that of a delivery by the fallback included |
| Replay.SignalIsAtomic | internal/cli/system.go:42-48 | every Linux SignalIfSame call answers as an atomic one could have at some moment of it |
| SharedHost.CallsRunAlone | internal/cli/procid_linux.go:113-143 | however the calls of many applies are interleaved, each stands where it would have come alone with the rest of the system |
| SharedHost.SharedDeliveriesAreSafe | internal/cli/procid_linux.go:113-143 | every call among many hits at most one process, only for a planned process, by PID only when the pidfd was unusable, through it only with the planned start token, and never a protected PID |
| SharedHost.SharedFallbackMissesExactly | internal/cli/procid_linux.go:92-105 | the fallback among other calls misses the process it compared, and the planned start token, exactly when that process exited and its PID was taken again |
| SharedRefinement.SharedRefinesAtomic | internal/cli/system.go:42-48 | applies on the Linux implementation, fallback included, refine applies on atomic signals: every run is matched by one with the same applies and processes |
| SharedRefinement.HitsAreDeliveries | internal/cli/system.go:42-48 | at every moment, calls under way included, atomic signals could have delivered what the calls report, and these are the processes really hit if and only if no PID was taken again between a comparison and its kill |
| Binding.BindsTheHolderExactly | internal/cli/observe.go:562-572 | the token a lookup binds is that of the process listed before if and only if its PID was not given up and taken again in between |
| Binding.StrangerCanBeBound | internal/cli/kill.go:189-203 | a schedule on which another process is bound |
| Binding.SignalReachesTheHolderExactly | internal/cli/kill.go:248-267 | a signal reaches the process that was listed on the port if and only if the PID was not taken again before the hit; through the pidfd, if and only if not between listing and lookup |
| PlanToSignal.PlannedWasShown | internal/cli/plan.go:282-350 | a planned process was shown, with its start token, as a live, unprotected owner on every port its resource lists |
| PlanToSignal.DeliveriesWereShown | internal/cli/apply.go:274-299 | a signal delivered for a plan built from an observation reaches only a process that this observation showed so on a requested port |
| KillRows.TargetsMeans | internal/cli/kill.go:121-216 | the targets are those of the rows, each once |
| KillRows.CapturingMeans | internal/cli/kill.go:225-242 | which answers of a lookup bind a start token, count as gone, as a platform without identities, or as unverifiable |
| KillDraft.Draft.KillAct | internal/cli/kill.go:189-203 | a PID's identity is captured once; an act whose lookup failed is remembered but never listed |
| KillDraft.Draft.AddListener | internal/cli/kill.go:157-213 | one listener adds its row, and an act exactly when it may be acted on |
| KillDraft.Draft.AddContainer | internal/cli/kill.go:142-156 | one container adds its row and shares one stop act |
| KillPlan.PlanKill | internal/cli/kill.go:124-216 | the rows show what listing and Docker call for and share one act per PID and container, in order of appearance |
| KillTheorems.TargetedExactly | internal/cli/kill.go:124-239 | a process is targeted exactly when a row on a requested port may be acted on, a container exactly when it publishes one, nothing twice |
| KillTheorems.TargetsAreSafeExactly | internal/cli/kill.go:100-175 | no row of a targeted process forbids acting on it if and only if the names of its rows agree, which the listing shows beforehand |
| KillTheorems.TargetsAreSafe | internal/cli/kill.go:100-112 | one name per PID is enough for that |
| KillTheorems.TwoNamesTarget | internal/cli/kill.go:163-175 | a listing with two names for a PID on which a Docker process is targeted |
| KillTheorems.RowsAreWellShaped | internal/cli/kill.go:132-213 | every row is planned with a target, refused with a reason, or a free port |
| KillTheorems.RefusedRowsSayWhy | internal/cli/kill.go:100-203 | the reason of a refused row is true of its listener |
| KillTheorems.RowsNameTheirOwners | internal/cli/kill.go:142-213 | a row has the key and name of its owner, and what is done for it is done to that owner |
| KillTheorems.EveryOwnerHasRow | internal/cli/kill.go:132-213 | every owner has a row under its key unless a container explains it, and a port has a free row exactly when it has no owner |
| KillExecute.Execute | internal/cli/kill.go:281-316 | under every schedule at most four acts run at once, every act is carried out once and keeps its own error; a dry run does nothing |
| KillExecute.OneCallEach | internal/cli/kill.go:281-316 | in whatever order the acts run, at most one call for each process and container |
| KillExecute.CallsExactly | internal/cli/kill.go:248-267 | a targeted process is signalled exactly with the start token its lookup gave, killed unchecked exactly where the platform has no identities, and left alone if it was gone; a targeted container is stopped |
| KillExecute.ErrorMeans | internal/cli/kill.go:248-316 | an act has an error exactly when its container was not stopped or its process neither signalled nor found gone |
| KillRun.OwnersOnPorts | internal/cli/kill.go:320-336 | the map has exactly the keys of the listeners and containers on the ports, whatever order Docker's map is walked in |
| KillRun.Settled | internal/cli/kill.go:340-347 | settled exactly when only tolerated owners are left |
| KillRun.Verify | internal/cli/kill.go:352-375 | at most 16 attempts; stops at the first unusable or settled one and returns exactly the owners it saw |
| KillRun.TallyRows | internal/cli/kill.go:419-433 | the first pass fails the rows of failed acts and tallies the rest |
| KillRun.TallyMeans | internal/cli/kill.go:415-433 | what the tally holds: ports acted on, tolerated owners, whether a stop was run |
| KillRun.Conclude | internal/cli/kill.go:438-463 | a row is killed or stopped only if its own owner is gone |
| KillRun.ExtraRows | internal/cli/kill.go:471-519 | one failed row for every remaining owner that has none |
| KillRun.AppendExtras | internal/cli/kill.go:468-488 | planned rows and added rows, each once, in order, and every remaining owner reported |
| KillCommand.InitialOwners | internal/cli/kill.go:378-389 | exactly the owners listed before anything was done |
| KillRun.RowOrder | internal/cli/kill.go:522-549 | the row order is a weak order, so the sort is well defined |
| KillRun.RowsInOrder | internal/cli/kill.go:522-549 | rows come by port; on a port the free row, then containers, then processes by PID |
| KillRun.FinishRows | internal/cli/kill.go:414-488 | every row's final state, every remaining owner reported, rows sorted |
| KillRun.LeftAreReported | internal/cli/kill.go:464-488 | every owner the last enumeration shows on a port acted on has a failed row under its own key |
| KillRun.GoneOwners | internal/cli/kill.go:438-463 | a killed or stopped row's own owner was absent |
| KillRun.CleanRun | internal/cli/kill.go:391-407 | without a failed row the last look found no owner on any port acted on |
| KillCommand.RunKill | internal/cli/kill.go:393-407 | the whole command: exactly the calls that listing, Docker and lookups call for; every row's end from its act and the last look; every added row; and what a run without failures shows |
| Listeners.NormalizeListeners | internal/cli/listeners.go:184-203 | the first row of every (port, PID), in key order |
| Listeners.NormalIsUnique | internal/cli/listeners.go:184-203 | there is only one such list |
| Listeners.NormalIsStable | internal/cli/listeners.go:184-203 | normalizing again changes nothing |
| Listeners.GroupByPort | internal/cli/listeners.go:205-211 | each port maps to its rows in order |
| Lsof.Parser.FlushEntry | internal/cli/listeners.go:240-266 | flush clears the pending entry and adds it if it is a new listening socket of a known process |
| Lsof.Parser.ReadLine | internal/cli/listeners.go:267-301 | one line of any kind moves the state as specified |
| Lsof.Parse | internal/cli/listeners.go:230-304 | the loop computes the fold over the lines |
| LsofRoundTrip.LsofIsRead | internal/cli/listeners.go:230-304 | any process blocks in any layout, with other lines in between, parse to the first occurrences of the listening sockets they are read as |
| LsofRoundTrip.LsofRoundTrips | internal/cli/listeners.go:230-304 | these are the sockets the entries stand for if and only if what is read has the same first occurrences |
| LsofRoundTrip.SeparableRoundTrips | internal/cli/listeners.go:230-304 | they are where no state is printed first right after an entry without one, in particular where every entry has its state |
| LsofRoundTrip.MergedWhenTaken | internal/cli/listeners.go:284-299 | an entry without a state loses its socket to the state of a connection printed right after it, unless a file line stands between them |
| LsofPorts.PortsRoundTrip | internal/cli/listeners.go:215-304 | sockets printed as host and port, among others, parse to exactly the ports listened on |
| LsofRoundTrip.FirstOnlyMeans | internal/cli/listeners.go:260-265 | exactly the first row of every key, each key once |
| LsofRoundTrip.FirstOnlyOrder | internal/cli/listeners.go:260-265 | in the order of the output |
| LsofRoundTrip.NormalOfParsed | internal/cli/listeners.go:148 | normalizing the parsed list is normalizing the sockets the output is read as |
| Sockets.SwapWords | internal/cli/sockets.go:114-117 | the in-place loop reverses the bytes of every word |
| Sockets.DecodeProcAddr | internal/cli/sockets.go:101-122 | returns the decoded address and port, or nothing |
| Sockets.DecodeInvertsPrint | internal/cli/sockets.go:99-122 | accepts exactly what a little-endian kernel prints, in either letter case, and gives the printed address and port back |
| Sockets.ParseProcNet | internal/cli/sockets.go:47-97 | the loop with its counters computes the specified result, errors included |
| Sockets.NoSocketsMeansNoRows | internal/cli/sockets.go:90-95 | no entries is the answer exactly when there are lines and none is a row |
| Sockets.RemotesNeverMatter | internal/cli/sockets.go:12-23 | replacing any remote column by another hex address and port changes nothing |
| Sockets.OccupiedPorts | internal/cli/sockets.go:27-35 | exactly the ports of the listening entries of the protocol |
| Sockets.TableRoundTrip | internal/cli/sockets.go:39-97 | the table printed for any sockets parses to those sockets in order, and the occupied ports follow |
| Sockets.ReadProcTables | internal/cli/observe.go:231-252 | the first table is required, the second may be missing, any other failure is an error |
| Sockets.HostRoundTrip | internal/cli/observe.go:231-252 | what is taken for occupied is exactly what the kernel's two tables list |
| PortSpecs.ParseDecimalPort | internal/cli/ports.go:14-31 | accepts exactly strictly decimal ports of at most nine digits |
| PortSpecs.PortRoundTrip | internal/cli/ports.go:14-31 | every port is accepted as printed and as nothing else |
| PortSpecs.DenotesOne | internal/cli/ports.go:39-66 | an argument denotes at most one range |
| PortSpecs.ParsePortSpecs | internal/cli/ports.go:37-73 | accepted exactly when every argument denotes a range; the ports are exactly those denoted, ascending, each once; never more than 65535 are held, and on rejection exactly those of the arguments before the first bad one |
| PortSpecs.NothingHeldExactly | internal/cli/ports.go:33-36 | nothing has been expanded on rejection if and only if the first argument is the bad one |
| PortSpecs.ExpandedBeforeRejected | internal/cli/ports.go:33-36 | arguments that are rejected after every port was expanded |
| PortSpecs.RangeRoundTrip | internal/cli/ports.go:48-62 | every range of ports is accepted as printed and denotes itself |
| PortSpecs.AcceptedPortsAreInRange | internal/cli/ports.go:33-36 | the ports the plan relies on: in range, at most 65535, at least one |
| ProcStat.StatRoundTrip | internal/cli/procid.go:22-43 | the start time is found whatever the command is called |

## Left out

- The command line, JSON, rendering, prompts and file writes (`cli.go`, `output.go`, most of `workflow.go`): input and output.
- `plan_id`, `observation_id` and `docker_context`: opaque text without a rule of its own.
- Error messages: a reason is a kind with its variable part, an error its class. Refusals are therefore ordered by kind and detail where the program compares the whole message; both are strict orders on the same distinct refusals.
- `isDockerInfra` is a parameter of the model (`Sys.infra`), so results hold for any name test.
- `provider_errors` lists, warnings and the scrubbing of provider text: they do not feed any decision.
- Running tools, their time limits and the check that Docker's endpoint is local: replaced by answers that may be a failure.
- Times are integer nanoseconds and whole seconds; RFC 3339 text is not modelled.
- The Windows and macOS implementations of `SignalIfSame` and `ProcessIdentity`: only their contract is used. In `SignalRace` a PID is free once its process is gone for good; zombies are not separate states.
- A panic is placed before or during a call, not between a signal that was delivered and its return.
- SharedRefinement.SharedRefinesAtomic: leaves out runs in which a (PID, start token) pair was used twice, since the host tells incarnations apart by it.
- `Collect` decides what one observation is made of; of the moments at which its providers are asked, only listing and lookup are told apart (`Binding`).
- The scheduler makes no fairness assumption: it proves that a step is possible and that runs are bounded, not how soon a step is taken.
- KillExecute.Execute: a goroutine makes its call and gives back its slot in one step; the answers of the outside world depend on the target alone, not on when it is called.
- KillRun.NativeOwners: says that a remaining owner is named after some row with its key; where several rows share a key it does not say which.
- KillPlan.PlanKill: the text of a row is its kind of reason and its name; the port and PID as text are not repeated.
- Sockets.ParseProcNet: starts from lines cut into fields, and keeps an address as its bytes.
- `parseSS`, `parseNetstat`, `parseMacNetstat`, `tasklist` output, `docker ps` text and `lsof` for UDP: further parsers of the same kind.
- The `--check` listing with its name categories: no protocol of its own.
