# Verified model of the Crossflow core

Crossflow runs workflows: graphs of operations that pass messages to each other inside sessions. This
project models five pieces of it and proves what they are meant to guarantee.

1. **Message intake with the step debugger.** Every operation has a first-in-first-out store of inputs,
   and every accepted message also puts a wake-up in a roster. While debugging is active, taking an input
   skips the inputs of paused sessions, records them as held back, and uses up one-shot permits.
   `Intake.dfy` and `Debugger.dfy` hold the classes and their specification functions, `IntakeMachine.dfy`
   all the ways in which deliveries, executions, debugger commands and cleanups can interleave. The
   results hold in every state of every run: no wake-up is lost (`Wakeups.dfy`), inputs are never
   reordered (`DebuggerOrder.dfy`), one debug step releases at most one message (`StepBudget.dfy`), a
   cleaned session stays clean (`SessionCleanup.dfy`), identities are not reused within 2^32 messages
   (`SequenceNumbers.dfy`). `Deliveries.dfy` says exactly what a delivery stores and wakes, `Pauses.dfy` exactly
   what gets paused, held back and let go. `DebugSteps.dfy` says exactly when a debug step achieves what it is meant to,
   and `StaleDeferrals.dfy` has runs in which it does not. `UnheldInputs.dfy` says exactly when an input that
   is not held back can lose its wake-up. Cleaning a session out of a buffer pushes its inputs newest first,
   as the code does (`src/input.rs:579-583`).
2. **Graph searches.** The memoised upstream search, the downstream search, and exactly when they agree
   (`Reachability.dfy`, `Downstream.dfy`).
3. **The nesting check** and the validations that rely on it, over an arena of operation maps
   (`Nesting.dfy`, `NestingCheck.dfy`, `TemplateUsage.dfy`).
4. **The execution flush.** `FlushMachine.dfy` is the flush one handler call at a time, where a handler may
   add anything to the rosters, the channel and the wake queue. `FlushConservation.dfy` and
   `FlushQueues.dfy` prove that nothing handed to any list gets lost and that each list is served in order,
   `FlushPhases.dfy` and `FlushProperties.dfy` when a flush does what and how much of it, `FlushOrder.dfy`,
   `FlushLimits.dfy` and `FlushChannel.dfy` how the channel and the deferrals are ordered, all over any number
   of flushes. `FinalOutputs.dfy` ties this to the outputs that tasks deliver.
   `FlushLoop.dfy` is the flush as nested loops, and every run of it is shown to be a run of the machine.
5. **The `wait_for` protocol.** A task and the closures it sends to the world share a callback and one
   sender. `WaitForMachine.dfy` has every action of the task, the world, the user and shutdown as a step,
   `WaitForProperties.dfy` and `WaitForAccess.dfy` what holds in every interleaving of them.
   `WaitForCode.dfy` is the loop of the task and the closures as code over what they share, which other
   threads may change between any two actions, and shows that it leaves this as the machine has it.

`Sessions.dfy` and `Roster.dfy` model the session hierarchy and the roster, which the first and fourth
piece share. `Runs.dfy` and `Paths.dfy` hold the induction over runs and the theory of walks in graphs,
`FlushRuns.dfy` what is needed to build runs of the flush.

State that the source updates in place is a class whose methods are proved against specification
functions. The machines are built from the same functions, so what is proved of their runs is about what
the methods do.

## Where the code differs from its documentation

- A debug step for an operation of a session is meant to have it take the oldest message that the session
  has there (`src/debug.rs:254-256`). But the session is ignored (`src/debug.rs:204-211`), and a deferral can
  be stale: its session has been cleaned out of the operation, or its input has been taken while the
  session was not paused.
  `DebugSteps.StepIngestsOldestIff` says exactly when a step, with or without an operation, does what it is
  meant to, and `DebugSteps.StepIngestsReleasedIff` when the message that it releases is taken. `Debugger.StepMayLeaveSession`,
  `StaleDeferrals.CleanedUpStaleStep` and `StaleDeferrals.StaleStepTakesNothing` are instances in which it
  does not.
- Every wake-up is meant to lead to its input being processed (`src/input.rs:270-276`), so an input that the
  debugger does not hold back should have one. It loses it to an execution that takes an input which is
  still recorded as held back. `UnheldInputs.StepUncoversIff` says exactly when a step does this,
  `UnheldInputs.UnheldAreAwake` that nothing else does, and `StaleDeferrals.StaleDeferralStrands` is an
  instance. It cannot happen if deferrals are let go after unpausing and before anything is executed
  (`UnheldInputs.SettledRunsAreTimely`), as they are when sessions are unpaused between flushes, since a
  flush lets them go before it executes anything (`src/flush.rs:98-113`).
- The downstream search is meant to find whatever is downstream (`src/operation.rs:830-834`), but does not
  follow named streams (`src/operation.rs:823-825`, `src/stream/named_stream.rs:72-84`).
  `Downstream.SearchCompleteIff` says exactly when it misses nothing, `Downstream.SearchesAgreeIff` when it
  agrees with the upstream search, and `Downstream.NamedStreamMissed` is an instance in which it does not.
- Final outputs are deferred so that streams come first (`src/input.rs:255-258`). With a limit on the channel
  they need not: `FlushLimits.StreamsFirstIffChannelUnlimited`. They still do in a run for as long as no
  collection stops at the limit: `FlushLimits.StreamsFirstWhileAllReceived`.
- A channel limit of L is meant for a whole flush (`src/flush.rs:68-71`), but up to L + 1 items are received
  in each collection (`src/flush.rs:266-280`). `FlushChannel.CollectionKeepsLimitIff` and
  `FlushChannel.FlushKeepsLimitIff` say exactly when the limit is kept, and in
  `FlushChannel.FlushCollectsTwice` a single flush receives 2 L + 2 items.
- The callback of `wait_for` is meant to be called once for each change (`src/channel.rs:278-280`). Once the
  reply is detached the task does not wait for changes at all (`src/channel.rs:397-400`):
  `WaitForProperties.KeepsPaceIffAttached`.

## Assumptions

- Entities, sessions and operation maps are identified by numbers. Operation maps are shared by pointer in
  the source, so one number stands for one place in memory.
- `Sessions.IsDescendentSession` and what calls it require an acyclic session hierarchy, without which the
  source does not terminate either.
- `DebuggerOrder.NeverReorders` and `Wakeups.NoLostWakeup` are about runs that never reuse the identity of a
  message that is still stored, held back or permitted. `SequenceNumbers.BoundedRunsNeverReuse` shows that
  every run in which no operation hands out more than 2^32 sequence numbers is one.
- Every execution of an operation makes one attempt to take an input, and may make more. An operation that
  ran without any attempt would use up a wake-up for nothing, and `Wakeups.NoLostWakeup` would not hold.
- `TemplateUsage.ValidateTemplateUsage` requires that scopes within scopes come to an end. In the source a
  scope owns its operations, so this always holds. `depth` is any measure that shows it.
- Hash maps and sets are visited in an arbitrary order: the order is a parameter, or the lists are given in
  that order.

## Model

| member | source | states |
|---|---|---|
| Sessions.IsDescendentSession | src/session.rs:139-157 | The climb through the parents terminates on an acyclic hierarchy and finds the parent exactly if it is an ancestor of the session or the session itself. |
| Sessions.GetSessionStack | src/trace.rs:834-843 | The stack runs from a session without parent down to the given one, each element the parent of the next. |
| Sessions.StackIsAncestry | src/trace.rs:834-843 | The element n places from the end is the n-th ancestor, and there are no other ancestors. |
| Sessions.DescendentIffInStack | src/session.rs:139-157 | A session is inside another exactly if the other is in its session stack. |
| Sessions.ContainmentIsPartialOrder | src/session.rs:139-157 | Being inside is reflexive, transitive and, on an acyclic hierarchy, antisymmetric. |
| Rosters.OperationRoster.Append | src/operation.rs:294-306 | All lists of the other roster move to the end of this one's, and the other roster is left empty. |
| Rosters.OperationRoster.ProcessDeferrals | src/operation.rs:319-323 | The deferred queue moves to the end of the queue in order. |
| Rosters.OperationRoster.Queue | src/operation.rs:255-257 | One wake-up is added at the end of the queue and nothing else changes. |
| Rosters.OperationRoster.Defer | src/operation.rs:263-265 | One wake-up is added at the end of the deferred queue and nothing else changes. |
| Rosters.OperationRoster.DeferDespawnSession | src/operation.rs:275-277 | One session is added to those to be despawned and nothing else changes. |
| Debugger.BreakPausesOne | src/debug.rs:119-139 | If a breakpoint applies to the session, exactly one debugged session that contains it is added to the paused ones, whichever is visited first; otherwise nothing changes. |
| Debugger.BreakPauses | src/debug.rs:119-139 | A session that a breakpoint applies to ends up paused, nothing gets unpaused, and at most one session is newly paused, which is debugged and contains it. |
| Debugger.Debug.Deactivate | src/debug.rs:69-76 | Debugging is inactive afterwards and the breakpoints remain set. |
| Debugger.Debug.StartDebuggingFor | src/debug.rs:79-84 | The session gets debugged, and paused if that is asked for. |
| Debugger.Debug.StopDebuggingFor | src/debug.rs:87-90 | The session is neither debugged nor paused by itself any more. |
| Debugger.Debug.Pause | src/debug.rs:95-99 | The session is added to the paused ones. |
| Debugger.Debug.Unpause | src/debug.rs:104-108 | The session is taken from the paused ones. |
| Debugger.Debug.EvaluateBreak | src/debug.rs:119-139 | The loop over the debugged sessions pauses as BreakPausesOne states, in any order of visiting them. |
| Debugger.Debug.IsPaused | src/debug.rs:142-150 | A session is paused exactly if it is inside one of the paused sessions. |
| Debugger.DebugRoster.IsAllowed | src/debug.rs:183-194 | A permit is used up by the request it is for; a request without one is recorded once. |
| Debugger.DebugRoster.PopNextInSession | src/debug.rs:196-217 | The deferral that PopsFirstInside or PopsFirstHeld states becomes a permit and its operation is queued; without one nothing changes. |
| Debugger.StepMayLeaveSession | src/debug.rs:204-211 | A concrete step for one session at an operation that releases a request of an unrelated session. |
| Debugger.DebugRoster.ReleaseUnpaused | src/debug.rs:220-232 | Exactly the deferrals of sessions that are still paused are kept, in order, and each of the others wakes its operation, in order. |
| Pauses.ScanPauses | src/input.rs:508-535 | A scan newly pauses only debugged sessions that contain the session of an input it has looked at, at most one for each, and leaves the session of every such input that the breakpoint applies to paused. |
| Pauses.TakePauses | src/input.rs:508-535 | A session that is paused only since an input was taken is inside a debugged session that also contains the session of an input looked at, and the operation is a breakpoint. |
| Pauses.TakeRecords | src/input.rs:508-535 | A take records exactly the inputs it has passed by and drops no record. |
| Pauses.WhatPauses | src/debug.rs:79-139 | Whatever the step, a session gets paused only by the user, or by taking from a breakpoint that has an input inside this debugged session stored. |
| Pauses.WhatUnpauses | src/debug.rs:69-108 | A session leaves the paused ones exactly if it is unpaused, no longer debugged, or the debugger is deactivated. |
| Pauses.WhatIsDebugged | src/debug.rs:69-90 | Breakpoints change only by being set, and sessions are debugged from the request for it until they are stopped or the debugger is deactivated. |
| Pauses.ReleasesUnpausedOnly | src/debug.rs:220-232 | Exactly the requests of sessions inside no paused one are let go, each with one wake-up, and exactly their operations are woken. |
| StepBudget.StepBudgetHolds | src/debug.rs:183-217 | In every run no request is held back twice or both held back and permitted, and the debug steps that popped a deferral number the inputs taken from paused sessions plus the outstanding permits. |
| StepBudget.ScanLedger | src/input.rs:508-535 | A scan uses up a permit exactly if it takes an input of a paused session, and then only that input's. |
| StepBudget.BreakpointNeedsPermit | src/input.rs:509-534 | No input of a session that a breakpoint applies to is taken there without using up its own permit, also right after an unpause. |
| Intake.FastPathRefinesScan | src/input.rs:502-548 | With debugging inactive, the scan would take the same input as the plain pop and leave pauses, deferrals and permits alone. |
| Intake.FindNext | src/input.rs:508-535 | The scan with its side effects, from the oldest input on, equals the recursive specification. |
| Intake.TryTakeInput | src/input.rs:487-551 | Both paths take the specified input out of the storage, keep the others in order, and leave the debugger as specified. |
| Intake.InputStorage.Push | src/input.rs:79-83 | The input goes to the end of the line with the next sequence number, which is the count of those handed out modulo 2^32. |
| Intake.InputStorage.IncrementSeq | src/input.rs:85-89 | The next sequence number is handed out and the counter wraps around. |
| Intake.InputStorage.ContainsSession | src/input.rs:73-77 | True exactly if some stored input belongs to the session. |
| Intake.SneakInput | src/input.rs:339-478 | A message is stored exactly if its session accepts it for the target and the target has storage; otherwise it is ignored, refused, leads to a despawn, or is an error, as the target has it. |
| Intake.GiveInput | src/input.rs:311-323 | The target is woken at once exactly if the message was accepted and nothing is deferred; the result is an error exactly if the session admits the message and the target is broken. |
| Intake.DeferInput | src/input.rs:325-337 | The same with a deferred wake-up: the queue stays as it is. |
| Deliveries.StoresIff | src/input.rs:350-445 | A delivery stores the message as the last one at its target exactly if the session takes it and the target has storage, and touches nothing else that is stored. |
| Deliveries.DeferWaits | src/input.rs:325-337 | A deferred delivery lengthens no queue, and adds its target at the end of the deferred queue exactly if the message is accepted. |
| Deliveries.GiveQueues | src/input.rs:311-323 | An immediate delivery lengthens no deferred queue, and adds its target at the end of the queue exactly if the message is accepted. |
| Intake.ExtractSession | src/input.rs:564-581 | Removing by index from the back leaves exactly what retaining the other sessions leaves, and yields every removed input once. |
| Intake.CleanupInputs | src/input.rs:553-616 | What is left are the other sessions' inputs in order; a buffer gets each removed input once, newest first, each with a new sequence number. |
| DebuggerOrder.ScanKeepsOrder | src/input.rs:509-548 | A scan takes an input with no older input of its session in the storage, or else holds back everything, and keeps deferrals and permits in storage order. |
| DebuggerOrder.FirstOfItsSession | src/input.rs:487-551 | What is taken, with or without debugging, is the oldest stored input of its session. |
| DebuggerOrder.ReleaseKeepsOrder | src/debug.rs:220-232 | Letting go of deferrals keeps deferrals and permits in storage order. |
| DebuggerOrder.PopKeepsOrder | src/debug.rs:196-217 | So does a debug step, with or without an operation. |
| DebuggerOrder.NeverReorders | src/input.rs:487-551 | In every run, for each operation and session, what has left followed by what is stored is what has arrived. |
| DebugSteps.TakesFirstFree | src/input.rs:502-548 | Whatever is recorded and however the debugged sessions are visited, the input taken is the oldest one that neither a pause nor a breakpoint holds or that has a permit. |
| DebugSteps.PopsFirstInside | src/debug.rs:204-214 | A step without an operation releases a deferral exactly if it is the first of its session or of one inside it; the others stay, and without one nothing changes. |
| DebugSteps.PopsFirstHeld | src/debug.rs:204-214 | A step for an operation releases a deferral exactly if it is the first of that operation. |
| DebugSteps.StepFreesDue | src/debug.rs:196-217 | A step frees exactly the inputs whose request is the first one held back at its operation or, if it names none, in its session. |
| DebugSteps.StepFreesOwn | src/debug.rs:196-217 | An input that a step without an operation newly frees belongs to its session or to one inside it. |
| DebugSteps.StepQueuesReleased | src/debug.rs:196-217 | A step queues the operation of the request it releases in the deferred roster, and changes nothing if there is none. |
| DebugSteps.StepIngestsReleasedIff | src/debug.rs:250-256 | The execution that a step has queued takes the released message exactly if it is still stored and no older input there would be taken without the step. |
| DebugSteps.StepIngestsOldestIff | src/debug.rs:250-256 | After a step, with or without an operation, an operation takes the oldest message that the session has there exactly if it is free or the one that the step is for, and no older one is either. |
| DebugSteps.StepIngestsHeldIff | src/debug.rs:250-256 | If all up to that message are held, it is taken exactly if the step is for it: it is the first one held back at the operation named, for whichever session, or else in the session. |
| DebugSteps.StepMattersIff | src/debug.rs:196-217 | A step changes what an operation takes next exactly if the released request is stored there and held, and no older input is free. |
| StaleDeferrals.StaleStepTakesNothing | src/debug.rs:196-217 | A run in which a step, with or without an operation, takes nothing although the session has a message stored and no older request is held back, and leaves a permit behind. |
| StaleDeferrals.CleanedUpStaleStep | src/input.rs:553-616 | A run in which a session is cleaned out of an operation and a step then only leaves a permit for the input that is gone. |
| StaleDeferrals.StaleDeferralStrands | src/debug.rs:220-232 | A run that ends with a message stored which is not held, has no wake-up, and does not get one when deferrals are let go. |
| UnheldInputs.StepUncoversIff | src/input.rs:487-551 | A step leaves an operation that has had as many wake-ups as unheld inputs with fewer exactly if it executes it on an input still recorded as held back, the numbers were equal, and nothing is newly held back. |
| UnheldInputs.UnheldAreAwake | src/input.rs:311-337 | In every run in which no execution takes an input still recorded as held back, each operation has at least as many wake-ups as inputs that are not held back. |
| UnheldInputs.UnheldHasWakeup | src/input.rs:311-337 | In such a run each input that is not held back has a wake-up. |
| UnheldInputs.PausedAreNotTaken | src/input.rs:508-535 | If everything recorded as held back belongs to a paused session, no execution takes an input that is recorded. |
| UnheldInputs.OnlyUnpausingUnsettles | src/debug.rs:69-108 | No step but unpausing, stopping or deactivating the debugger and moving sessions lets a recorded request belong to a session that is not paused. |
| UnheldInputs.SettledRunsAreTimely | src/flush.rs:98-109 | A run in which deferrals are let go after unpausing and before anything is executed never executes an operation on a recorded input. |
| Wakeups.ReleaseWakes | src/debug.rs:220-232 | Letting go of deferrals adds as many wake-ups of each operation as it removes deferrals. |
| Wakeups.TakeEffect | src/input.rs:487-551 | A take removes one input of one operation, or everything stored there is held back by the debugger. |
| Wakeups.NoLostWakeup | src/input.rs:311-337 | In every run, each operation's wake-ups in the rosters and its deferrals together number at least its stored inputs. |
| Wakeups.QuiescentMeansEmpty | src/operation.rs:255-265 | When no wake-up of an operation is left and nothing is held back there, its storage is empty. |
| SequenceNumbers.BoundedRunsNeverReuse | src/lib.rs:395-400 | A run in which no operation hands out more than 2^32 sequence numbers never reuses an identity that is still in play. |
| SessionCleanup.CleanedStaysClean | src/input.rs:339-371 | From a session's cleanup at an operation on, for as long as it is being cleaned or is gone, none of its inputs is stored there. |
| SessionCleanup.CleanupTakesOnlyOwn | src/input.rs:553-616 | Cleaning an operation takes every input of the session out of it and leaves every other input there and everywhere else. |
| SessionCleanup.CleanupNumbers | src/input.rs:579-583 | Every input taken out of a buffer uses up a sequence number, and otherwise none is used. |
| Reachability.OperationReachability.CheckUpstream | src/operation.rs:429-465 | The recursion on the shared memo terminates, computes the specified search, and investigates each operation at most once. |
| Reachability.OperationReachability.IsReachable | src/operation.rs:134-146 | An operation is active or some input, checked in order up to the first that is, is reachable. |
| Reachability.UpstreamIsGenuine | src/operation.rs:429-465 | A positive answer and every positive memo entry is right, and an error means that something upstream is missing. |
| Reachability.NegativeIsExhaustive | src/operation.rs:429-465 | After a negative answer everything newly investigated is idle and leads only to operations found not reachable. |
| Reachability.PositiveIsRecorded | src/operation.rs:429-465 | A positive answer is put into the memo, and meeting the operation again gives the same answer. |
| Reachability.FreshSearchIsExact | src/operation.rs:429-465 | With a fresh memo the answer on any finite graph is exactly whether an active operation lies upstream, and an error means that an operation upstream is missing. |
| Reachability.MemoEntryMayBeStale | src/operation.rs:429-465 | A concrete graph in which the memo keeps a negative entry for a reachable operation. |
| Reachability.CheckReachability | src/operation.rs:487-503 | The check starts with a fresh memo and so is exact. |
| Downstream.IsDownstreamOf | src/operation.rs:814-861 | The worklist terminates and finds the target exactly if it differs from the source and a path of single, fork or anonymous stream targets leads to it. |
| Downstream.IterationYieldsTargets | src/operation.rs:814-828 | What the search visits next are exactly the single target, failing that the targets of the fork, and the targets of anonymous streams. |
| Downstream.SearchCompleteIff | src/operation.rs:830-861 | The search from a source finds exactly what messages can reach, named streams included, exactly if the named streams of whatever it gets to lead nowhere that it does not get to. |
| Downstream.SearchCompleteEverywhereIff | src/operation.rs:830-861 | That is so from every source exactly if every target of a named stream can also be reached from its operation without one. |
| Downstream.NamedStreamMissed | src/stream/named_stream.rs:72-84 | A concrete operation fed through a named stream alone, for which the upstream search finds the source and the downstream search from the source does not find it. |
| Downstream.SearchesAgree | src/operation.rs:429-465 | If input lists and all target lists are inverse and only one operation is active, the upstream search finds it exactly from itself and from where its messages can get. |
| Downstream.SearchesAgreeIff | src/operation.rs:814-861 | Upstream and downstream search agree on all operations with nothing missing upstream exactly if named streams lead from the active one to no such operation that is not found anyway. |
| Nesting.SelfNestingFoundLate | src/diagram.rs:896-906 | The start nesting itself is noticed at once, a map further down nesting itself one level late. |
| Nesting.ChildRanksLower | src/diagram.rs:896-906 | Going one level deeper lowers a rank of unused maps, in which a map met twice counts half a level. |
| Nesting.ExpandingIsCheaper | src/diagram.rs:859-861 | Replacing a path by those one level deeper lowers the number of paths still to be looked at. |
| NestingCheck.ChildErrorJustified | src/diagram.rs:884-906 | An error of one turn names a real nesting path that ends on a map it has been through, or a missing template that is used. |
| NestingCheck.ChildOperationsAre | src/diagram.rs:403-423 | An operation nests the operations of its scope or of its template, all others nest none, and it is an error exactly if the template is missing. |
| NestingCheck.NoErrorMeansAcyclic | src/diagram.rs:852-864 | If all paths are followed to their ends without error, no map is nested inside itself. |
| NestingCheck.EverywhereIsExact | src/diagram.rs:852-906 | Following all paths without error is the same as: nothing nested is nested inside itself, every template exists, and every nested map has the property asked for. |
| NestingCheck.CheckCircularOperationDependency | src/diagram.rs:852-864 | The check terminates, accepts exactly the diagrams without circular nesting in which all templates resolve, and justifies its errors. |
| NestingCheck.ValidateOperationName | src/diagram.rs:842-850 | A name is refused exactly if it is reserved. |
| NestingCheck.ValidateTemplateNames | src/diagram.rs:814-822 | Accepts exactly if no template has a reserved name or uses one directly. |
| NestingCheck.ValidateNestedNames | src/diagram.rs:731-740 | The worklist without a visited set terminates after the nesting check and accepts exactly if no nested map uses a reserved name. |
| NestingCheck.ValidateOperationNames | src/diagram.rs:729-744 | All checks together accept exactly if nesting is acyclic, all templates resolve, and no reserved name occurs in a nested map, as a template name or directly in a template. |
| TemplateUsage.SoundIffChildren | src/diagram.rs:749-770 | A map passes the nesting check exactly if its templates exist and every map it nests passes. |
| TemplateUsage.ExpandingIsLessWork | src/diagram.rs:749-770 | Replacing a map by what it nests leaves less work, even if nothing is known about it but that its templates pass. |
| TemplateUsage.ValidateTemplate | src/diagram.rs:826-829 | Accepts a template exactly if it exists and passes the nesting check. |
| TemplateUsage.ValidateTemplateUsage | src/diagram.rs:749-770 | Terminates with no check passed before it, and accepts exactly what the nesting check of the whole diagram accepts. |
| FlushConservation.FlushConserves | src/flush.rs:90-197 | In every run and for each list (executions, woken tasks, unblocks, despawns, disposals, reachability checks), how often an entry has been handed over equals how often it was served plus how often it waits in the roster, the deferred roster, the deferred queues or the wake queue, also when a flush hits its limit and the next one picks up. |
| FlushConservation.ExecutedAreServed | src/flush.rs:154-159 | The operations executed are exactly those taken off the front of the queue, in order. |
| FlushQueues.AwakenedInOrder | src/flush.rs:177-183 | In every run, all tasks ever woken occur in the order in which they were woken among those awakened followed by those still in line, also across flushes. |
| FlushQueues.ServedInOrder | src/flush.rs:116-249 | In every run, the entries handed to a list of the flush's roster once it has taken over what was left before occur in that order among those served followed by those still in line. |
| FlushPhases.LeavesListIff | src/flush.rs:148-183 | A list is left exactly if it is empty, or it is the queue and the loop limit is reached, and the lists follow each other as in the loop. |
| FlushPhases.TakesOverIff | src/flush.rs:111-143 | The deferred roster is taken over in every collection and before the loop; at all other times it only grows, by what a flush postpones among others. |
| FlushPhases.FlushEndsIff | src/flush.rs:117-143 | In every run a flush ends exactly if its roster is empty at the top of the loop or its executions and passes together have reached the loop limit. |
| FlushPhases.DisposalsAfterEmptyChannel | src/flush.rs:185-195 | In every run, disposals and reachability are looked at only after a collection at the end of a pass has found the channel empty, with no handler of a list in between. |
| FlushPhases.EmptyChannelLeadsToDisposals | src/flush.rs:185-195 | A collection at the end of a pass is followed by the disposals exactly if it has found the channel empty, and otherwise by the next pass. |
| FlushProperties.FlushIsBounded | src/flush.rs:115-176 | With a loop limit L of at least 1, a flush executes at most max(1, L - 1) entries of the queue and makes at most L passes. |
| FlushOrder.StreamsBeforeFinalOutputs | src/flush.rs:154-195 | Without limits, from any moment of any run on, the deferrals of that moment are still deferred or are in line behind all stream targets in the channel at that moment, which are in the order of the channel. |
| FlushOrder.ExecutedAfterStreams | src/flush.rs:154-159 | When any of those deferrals has been executed, all of those stream targets have been executed before it, in order. |
| FlushLimits.StreamsFirstWhileAllReceived | src/flush.rs:116-195 | Whatever the limits, from any moment of any run on and for as long as no collection stops at the channel limit, each output deferred by then is still deferred or in line behind all stream targets in the channel by then. |
| FlushLimits.StreamsFirstUnderAnyLoopLimit | src/flush.rs:116-195 | Without a channel limit this is so in every run, whatever the loop limit, across flushes. |
| FlushLimits.LimitedChannelOvertakes | src/flush.rs:260-283 | With any channel limit some run queues an output whose stream item has not been received. |
| FlushLimits.LimitedChannelRunsOutputFirst | src/flush.rs:260-283 | The next pass of that run executes the output first. |
| FlushLimits.StreamsFirstIffChannelUnlimited | src/flush.rs:260-283 | Outputs stay behind streams in every run exactly if the channel is not limited. |
| FinalOutputs.DeliveryAppends | src/input.rs:311-337 | What a delivery adds to a roster does not depend on what is in it, so a delivery is something a handler adds. |
| FinalOutputs.FinishingDefers | src/operation/operate_task.rs:253-259 | When a task finishes, its output is deferred and not queued, while the channel has all that the task has sent. |
| FinalOutputs.OutputsComeLast | src/operation/operate_task.rs:253-259 | Whatever the limits, for as long as no collection stops at the channel limit, the output of a finished task is still deferred or in line behind the target of every stream item it has sent. |
| FinalOutputs.OutputsComeLastByDefault | src/operation/operate_task.rs:253-259 | Without limits it is so in every run, with the stream targets in the order in which the items were sent. |
| FlushChannel.ReceivedIsLost | src/flush.rs:260-281 | Over any number of steps in which nothing is sent, what is received is what the channel loses. |
| FlushChannel.CollectionReceives | src/flush.rs:260-281 | When nothing is sent meanwhile, a collection receives everything, or L + 1 items if there are more than the limit L. |
| FlushChannel.CollectionKeepsLimitIff | src/flush.rs:266-280 | A collection then keeps within its limit exactly if there are no more items than that when it begins. |
| FlushChannel.FlushKeepsLimitIff | src/flush.rs:68-71 | A whole flush then keeps within the limit exactly if there are no more items than that when it begins. |
| FlushChannel.FlushCollectsTwice | src/flush.rs:260-281 | With any limit L some run has a single flush that receives 2 L + 2 items. |
| FlushLoop.FlushExecution.ReceiveAll | src/flush.rs:260-281 | The loop takes the steps of the machine, L + 1 items at most, and says whether it stopped at the limit. |
| FlushLoop.FlushExecution.CollectFromChannels | src/flush.rs:251-366 | Receiving, queueing the deferrals, and taking over the deferred roster and the woken tasks are steps of the machine, in that order. |
| FlushLoop.FlushExecution.ProcessDisposals | src/flush.rs:220-249 | Notifying all listeners and then validating all scopes are steps of the machine. |
| FlushLoop.FlushExecution.Pass | src/flush.rs:117-195 | One pass of the loop takes the steps of the machine, or postpones everything. |
| FlushLoop.FlushExecution.Flush | src/flush.rs:90-197 | The nested loops as a whole take exactly the steps of the machine, whatever the handlers do. |
| WaitForProperties.ProtocolIsSafe | src/channel.rs:373-473 | In every interleaving, with panics and shutdown at any point: the sender is in exactly one place, at most one closure is there to evaluate the callback, no call follows one that returned a value, and at most that one value is replied. |
| WaitForProperties.NothingGoesMissing | src/channel.rs:402-463 | The branches for a missing sender and a poisoned callback are never taken, putting the sender back overwrites nothing, and a returned value is sent or about to be sent with the sender at hand. |
| WaitForProperties.NeverAbandoned | src/channel.rs:384-470 | Unless something is shut down or panics: while the reply is detached or its receiver is there, the sender is not dropped before a reply, and the task or the world has a step to take. |
| WaitForProperties.CallsFollowChanges | src/channel.rs:384-470 | Unless the reply is detached, the callback is called once and then at most once for each change that was waited for. |
| WaitForProperties.FirstCallDecides | src/channel.rs:382-394 | If the first call returns a value or panics, that value or nothing is replied, it is the only call, and no task is ever spawned and no other closure sent. |
| WaitForProperties.KeepsPaceIffAttached | src/channel.rs:397-400 | While a wait is on in an ordinary run, calls stay within one of the changes in all its continuations without a further detach exactly if it is not detached. |
| WaitForProperties.CallMore | src/channel.rs:397-400 | From any state of an ordinary run in which the wait is on and detached, the callback may be called any number of times more without a further change. |
| WaitForCode.Wait.RunTask | src/channel.rs:396-465 | For every run of the protocol, whatever other threads do in between, the loop of the task leaves the mutexes, the channel and the reports as the run has them. |
| WaitForCode.Wait.AwaitChange | src/channel.rs:402-431 | So does taking the sender, waiting with it in hand, and putting it back or returning. |
| WaitForCode.Wait.RunNextClosure | src/channel.rs:437-456 | So does a closure in the world that calls the callback and then replies or reports what was seen. |
| WaitForCode.Wait.RunWorld | src/channel.rs:382-456 | For every run from the beginning, the world that runs the first closure and then those of the task leaves what is shared as the run has it. |
| WaitForAccess.UndecidedLeavesThen | src/channel.rs:114-139 | As long as every call says that it is not time yet, `then` has not been touched. |
| WaitForAccess.OnlyLastAttemptUsesThen | src/channel.rs:112-139 | The first attempt that is not too early decides: `then` is taken out exactly if it is ready, the result is the value of `then` or the error of a failed view, and there is none if a callback panics. |
| WaitForAccess.ThenRunsAtMostOnce | src/channel.rs:102-143 | In every run no attempt follows one that is not too early, `then` is taken out once exactly if that one is ready, the branch for a missing `then` is never taken, and a reply comes from `then` or from a failed view. |

## Left out

- Entities, components, commands, observers, despawning and error reports of the ECS: the world is a map from entities to what matters about them.
- Progress marks of series, tracing of messages, `session_changes`, and what `finalize_series_cancel` does besides refusing the message.
- `sneak_input` called on its own: its callers promise to run the operation themselves (`src/input.rs:270-276`).
- Buffers: what a buffer keeps of what is pushed into it, and the failure of such a push. The operations of joins, collects, trims, scopes, gates and buffer access, including `ignore_accessor`; reachability is "active, or some input is reachable".
- Intake.CleanupInputs: a buffer records every push, since what `force_push` keeps is decided in code outside of this model.
- `cleanup_finished` and `garbage_cleanup`: they are part of the handler calls they follow, which may add anything to the rosters.
- `OperationRoster::purge`: it removes the wake-ups of a despawned operation, of which there are none in the machines.
- Service lifecycles, unused targets and the single-threaded poll at the end of collecting from the channels are part of the handler calls there, and so is releasing unpaused inputs before the loop.
- FlushQueues.ServedInOrder: entries handed to a list while the first collection of a flush runs are not ordered against what earlier flushes have left, which is put behind them (`src/flush.rs:314`).
- FlushProperties.FlushIsBounded: the parameters stay the same during a flush, although the source reads them again in each pass.
- FlushLoop.FlushExecution.Flush: what the handlers do is given by a list with one entry for each step, so a flush that would not end is covered for any number of steps. Without limits it need not end.
- FlushLimits.StreamsFirstUnderAnyLoopLimit: does not order the stream targets among each other, because a target left for the next flush is queued behind what that flush receives first.
- Waiting for a change of a buffer and for the executor is left to the choice of the next step of `wait_for`. The waiting of the accessor and its `seen` marks are outside.
- WaitForCode.Wait.RunTask: the turns are finitely many, so a wait that never ends is covered for any number of steps.
- Delivery queues, promises, Python bindings, middleware, schemas, the builder and the diagram editor.
