# Verification model of go-actorlib

go-actorlib is a small Go library of actors: one goroutine owns an entity and runs the commands
that other goroutines send it through a bounded channel. Around that core stand a supervisor that
restarts children, a registry of named actors, a priority mailbox, a middleware chain and a stack
of behaviours. This project states what the concurrent code guarantees and proves it.

## How the model is built

Concurrent code is a transition system: an event is one channel operation, one atomic load, store
or compare-and-swap, one critical section, or the return (or panic) of a hook, handler or child.
A `select` is one event per case. Contexts and timers may fire at any moment. A theorem about
runs is about every sequence of enabled events, so about every interleaving of any number of
senders, stoppers, askers, monitors and callers.

Most of the code is also written in its own imperative form and tied to these systems. Every atomic
action in the methods of `GoActors.GoActor` is an event of `ActorMachine`, and between two of them
an arbitrary run of the other goroutines happens. The critical sections of
`Supervision.Supervisor` do what the events of `SupervisorMachine` do to the state under the mutex,
and its gates pass exactly when those events are enabled. `Commands.GoCommand` goes through the
cells of the step relation, the methods of `ActorSystems.ActorSystem` make the steps of the
registry (`StopEverything` runs its stop loop undisturbed; its interleavings are in
`StopAllMachine`), and the mailbox, the pipeline and the behaviour stack are proved against their
step functions. `ask.New` and `Await` are events of `AskMachine` only.

| files | what they hold |
|---|---|
| `ActorMachine`, `ActorTheorems`, `ActorWord`, `ActorFinality`, `ActorIntake`, `GoActor` | the actor: `Start`, the loop goroutine, `Receive`, `Stop` |
| `Command`, `AskMachine`, `AskTheorems` | the one-shot command, and actor + commands + readers together |
| `RestartWindow` | the restart limiter |
| `SupervisorMachine`, `SupervisorVersions`, `SupervisorTheorems`, `SupervisorLimit`, `SupervisorDuties`, `SupervisorQuiescence`, `SupervisorWaves`, `SupervisorOwnership`, `SupervisorStopAll`, `SupervisorCoverage`, `SupervisorRuns`, `Supervisor` | the supervisor |
| `ActorRegistry`, `ActorSystem`, `StopAllMachine` | the registry and concurrent `StopAll` |
| `Mailbox`, `Middleware`, `Behavior` | priority mailbox, middleware chain, behaviour stack |

### Assumptions

- `Start` is not called again before the first call's loop has stored `Started` (its guard is a check,
  not a compare-and-swap); the `OnError` hook does not panic; each command is sent once and its
  result has one reader.
- In the ask model the handler is the base one, which only calls `Execute`, and the entity is
  touched only by delegates.
- A child's `Start` gives a new reference each time; its `Done` may fire at any moment, and the
  state read from it may be any state. Times are integers and the clock does not go backwards.
  The restart strategy is one of the two declared values.
- go-datalib's heap is a bag that gives out some least element of the comparator.
- Adjacent actions of one goroutine are one event where delaying the first to the second changes
  nothing that others can see: a recover and its store of `Panicked`; a `select` case on a closed
  channel, a done context or a timer and the store of the state that follows it; the install of a
  reference and the launch of its monitor.

### Where the code and its documentation disagree

- `pkg/actor/goactor.go:62-76` calls the four last states terminal. Each can be overwritten, and
  `ActorFinality` has a run from a new actor for each. `Done`, `StoppedWithError` and `Canceled` are
  final exactly when the loop is past its hook and a stopper that won has returned
  (`LastStateIsFinalIff`); `Panicked` exactly when the loop is past its selects and no stopper has
  yet to store its state (`PanickedIsFinalIff`).
- `pkg/actor/goactor.go:58-60` says that a stopping actor accepts no new message. A sender that
  loaded `Started` before may still get one in (`StoppingActorAccepts` has a run); `IntakeIsOverIff`
  says exactly when none can.
- `pkg/command/gocommand.go:170` says that the state never moves backwards. That holds for the
  first `Execute`. A second one goes back to `Started`, and its close panics past the recovery
  (`ExecuteTwice` is such a client).
- `pkg/supervision/strategy.go:21-23` speaks of restarts within the window; refused attempts occupy
  the window too (`RefusalsCount` has a history; `GrantedIffRoom` the exact condition).
- The repository's README advises to place `Recovery` first. With that Recovery alone a message
  whose handler panicked is never counted by `Metrics` (`pkg/middleware/metrics.go:19` speaks of all messages processed);
  `RecoveryFirstLosesTheCount` is that chain, `MetricsCountsIff` the exact condition.

## Model

| member | source | states |
|---|---|---|
| ActorMachine.InvRun | pkg/actor/goactor.go:384-466 | over every run of any number of goroutines: the loop's position fixes which channels are closed and what the state word may be; at most one stopper has won; accepted messages are exactly those on their way through the actor; each accepted message belongs to one call that returned nil |
| ActorTheorems.MessageConservation | pkg/actor/goactor.go:263-287 | in every reachable state: accepted = executed, then at most one message held between the selects or thrown away there, then the buffer (within its size), in order; a call that returned an error was never executed, none is executed twice |
| ActorWord.WordIsLastStored | pkg/actor/goactor.go:379-466 | after any run from a new actor the state word is what the last storing event of the run named (the store of Started, the winning compare-and-swap, its stopper's two stores, the store of a loop that saw its context done, the recovery of a panic), or Initialized without one; so it is Panicked if and only if that event is a panic |
| ActorWord.UndisturbedIsStarted | pkg/actor/goactor.go:319-331 | a launched actor without panics, stops or a done context is Started, lets every `Receive` into its select and the first `Stop` win |
| ActorWord.ReceiveAnswers | pkg/actor/goactor.go:263-340 | the exact condition of each answer of `Receive`, by the event of its call and the state word that its load found |
| ActorWord.SelectIsOpen | pkg/actor/goactor.go:274-286 | a `Receive` at its select is freed by room, a closed `stop` or its own context, and by a timer exactly when one is configured |
| ActorWord.HooksRan | pkg/actor/goactor.go:379-466 | over every run: which hooks have run at which point, `BeforeStop` exactly for a loop that saw `stop`, `AfterStop` exactly for the stopper that returned nil, and the handler once for every executed message |
| ActorTheorems.FrozenIntake | pkg/actor/goactor.go:319-340 | once the state has left Started only calls already in their select can get a message in, nobody joins them, and when none is left the accepted sequence never changes again |
| ActorIntake.IntakeIsOverIff | pkg/actor/goactor.go:263-287 | once the state has left Started, no continuation accepts a message if and only if no call is in its select, or the buffer is full and the loop can no longer come to its outer select |
| ActorIntake.StoppingActorAccepts | pkg/actor/goactor.go:58-60 | a run from a new actor in which a message enters in state Stopping |
| ActorIntake.QueuedMessageAdvances | pkg/actor/goactor.go:398-427 | without shutdown, the message at place k of the buffer has been executed once the loop has made 3(k + 2) actions of its own, whatever senders and stoppers do |
| ActorIntake.LoopGoesOn | pkg/actor/goactor.go:384-427 | while a message is queued and nothing shuts the actor down, the loop has an action of its own enabled |
| ActorIntake.OnWayOutOnlyWhenShut | pkg/actor/goactor.go:398-420 | the loop leaves its selects only when `stop` is closed or the context is done, over every run |
| ActorIntake.StopClosesIff | pkg/actor/goactor.go:442-447 | once the state has left Started, `stop` is closed in some continuation if and only if a `Stop` has won before; so after a panic without a winner no `Stop` ever wins and the loop leaves only when its context ends |
| ActorTheorems.CutOff | pkg/actor/goactor.go:398-427 | after `stop` is closed or the context is done no message is ever executed again, whichever case the outer select picks |
| ActorTheorems.DiscardsOnlyWhenShut | pkg/actor/goactor.go:409-420 | a message is thrown away only by an actor that is shutting down |
| ActorTheorems.ShutdownTerminates | pkg/actor/goactor.go:384-428 | once shutdown has begun every action of the loop lowers a rank and nothing raises it, so in any continuation the loop takes at most that many actions |
| ActorTheorems.ShutdownProgresses | pkg/actor/goactor.go:385-413 | during shutdown the loop always has an action of its own enabled until it has closed `done` |
| ActorTheorems.LifecycleInvariant | pkg/actor/goactor.go:442-466 | at most one `Stop` wins; no channel is closed twice; Stopping means a stopper is under way; Done means the loop has exited |
| ActorTheorems.StartedNotReentered | pkg/actor/goactor.go:390-391 | a launched actor that has left Started never returns to it, so every later `Stop` is refused and every later `Receive` returns the right error |
| ActorTheorems.FinalAfterStop | pkg/actor/goactor.go:452-466 | after the winning `Stop` returned, the state stays among Done, StoppedWithError, Canceled and Panicked in every continuation |
| ActorTheorems.PanickedStaysWhenSettled | pkg/actor/goactor.go:549-559 | Panicked never changes again once the loop is past its selects and no stopper has yet to store its state |
| ActorTheorems.PanickedOverwrittenUnlessSettled | pkg/actor/goactor.go:74-76 | in every other case there is a run that overwrites Panicked |
| ActorFinality.PanickedIsFinalIff | pkg/actor/goactor.go:74-76 | in a reachable state Panicked is kept by every continuation if and only if the actor is settled |
| ActorFinality.LastStateIsFinalIff | pkg/actor/goactor.go:62-72 | in a reachable state Done, StoppedWithError or Canceled is kept by every continuation if and only if the loop is past its hook and a stopper that won has returned |
| ActorFinality.EndRun | pkg/actor/goactor.go:289-305 | over every run: Done comes from a stopper that stored it, Canceled from a loop that left, StoppedWithError from either |
| ActorFinality.PanickedIsNotTerminal | pkg/actor/goactor.go:379-390 | a run in which a panic in `BeforeStart` is overwritten by Started |
| ActorFinality.DoneIsNotTerminal | pkg/actor/goactor.go:453-463 | a run in which a panic in `AfterStop` overwrites Done |
| ActorFinality.StoppedWithErrorIsNotTerminal | pkg/actor/goactor.go:455-463 | a run in which a panic in `BeforeStop` overwrites the StoppedWithError of a stopper that timed out |
| ActorFinality.CanceledIsNotTerminal | pkg/actor/goactor.go:452-454 | a run in which a waiting stopper overwrites Canceled with Done |
| GoActors.OthersLeaveMine | pkg/actor/goactor.go:263-466 | no run of other goroutines changes what a goroutine's own code relies on between two of its actions, reopens a channel or revives a context |
| GoActors.GoActor.Receive | pkg/actor/goactor.go:319-340 | whatever runs in between: nil exactly when the channel took the message; nil command and left-Started give their own errors |
| GoActors.GoActor.ProcessExecutable | pkg/actor/goactor.go:263-287 | each case of the sender's select is the machine's step for it, and the call's outcome is the recorded one |
| GoActors.GoActor.Stop | pkg/actor/goactor.go:442-466 | nil only for the call whose compare-and-swap won, and then the state is final; a mismatch exactly when it lost, as it always does after Started was left |
| GoActors.GoActor.AwaitDone | pkg/actor/goactor.go:449-463 | the select on `done` and the timer, then `AfterStop`: a call that returns has stored its state and run the hook |
| GoActors.GoActor.Start | pkg/actor/goactor.go:354-384 | on a new actor it succeeds exactly for a provided entity, and then the loop is launched whether or not `BeforeStart` panicked; a second call, once the first has stored Started, is refused and does nothing |
| GoActors.GoActor.Enter | pkg/actor/goactor.go:390-396 | the store of Started, the close of `ready` and `AfterStart` bring a launched loop to its outer select |
| GoActors.GoActor.Run | pkg/actor/goactor.go:384-428 | the endless loop, any number of turns: when it exits `done` and `ready` are closed, and with a done context it exits within one turn |
| GoActors.GoActor.Turn | pkg/actor/goactor.go:398-427 | if shutdown had begun before the turn, the turn exits the loop |
| GoActors.GoActor.Inner | pkg/actor/goactor.go:409-426 | the taken message is executed exactly when neither the context nor `stop` has ended; otherwise nothing runs and the loop exits |
| GoActors.GoActor.LeaveByCtx | pkg/actor/goactor.go:289-305 | leaving by the context executes nothing more and closes `done` |
| GoActors.GoActor.LeaveByStop | pkg/actor/goactor.go:403-408 | leaving by `stop` runs `BeforeStop`, executes nothing more and closes `done` even if the hook panics |
| GoActors.GoActor.Handle | pkg/actor/goactor.go:421-424 | exactly the held message is executed; a panic in the handler stores Panicked, a normal return leaves the state word as the other goroutines left it, and both return the loop to its select |
| Commands.FreshRun | pkg/command/gocommand.go:190-221 | on a fresh command the steps end in the outcome for the delegate's result, the state goes Created, Started, terminal and never back, and only the last step closes the channel |
| Commands.GoCommand.Execute | pkg/command/gocommand.go:190-221 | fresh: no panic escapes, state, error, value and channel are those of each of the four ways to end, and every intermediate cell is that of the step relation; executed before: the state goes back to Started and a panic escapes, always |
| Commands.GoCommand.ExecuteTwice | pkg/command/gocommand.go:165-175 | a client whose second `Execute` takes a terminal command back to Started and panics past the recovery |
| Commands.GoCommand.Guarded | pkg/command/gocommand.go:199-218 | the part under the deferred recovery: the same cells step by step, and a panic escapes exactly when the channel was closed already |
| Commands.GoCommand.SyncState | pkg/command/gocommand.go:133-138 | state and error change together and nothing else does |
| AskMachine.RunKeeps | pkg/ask/ask.go:43-81 | over every run of actor, commands and readers: the entity is the fold of the applied delegates, and every cell and reader matches the stage of its command and what its delegate did at its place |
| AskTheorems.AsksLinearize | pkg/actor/goactor.go:398-427 | the entity is the result of the delegates applied one after another in the order the channel accepted them; every ask that returned a value got its own delegate's result at its place in that sequence; every ask that returned its command's error has a delegate that returns that error, or panics, at its place, or that was never applied (cancelled) |
| AskTheorems.AwaitAgreesWithExecute | pkg/ask/ask.go:60-81 | every answer is (value, nil), (zero, the command's recorded error, which is what its delegate did) or (zero, context error or timeout), never (zero, nil); a command that is over closed its channel exactly once; a result is never lost while its reader waits |
| AskTheorems.GivesUpIff | pkg/ask/ask.go:76-79 | `Await` returns its context's error exactly when its context ended at its select, and the ask timeout exactly when its timer fired there |
| AskTheorems.StateMovesForward | pkg/command/gocommand.go:165-175 | in any interleaving a command's state goes only Created, Started, terminal, and state and error of a terminal one stay |
| AskTheorems.RealTimeOrder | pkg/ask/ask.go:43-57 | an ask that returned its delegate's value, error or panic before another was issued precedes it in the sequence, in every continuation |
| AskTheorems.ActorRun | pkg/actor/goactor.go:263-466 | every run with commands and readers is, seen at the actor, a run of the actor machine, so its theorems carry over |
| AskTheorems.AppliedInOrder | pkg/actor/goactor.go:421-424 | the applied delegates are those of a prefix of the accepted messages, in order |
| RestartWindow.WindowIsRecentHistory | pkg/supervision/supervisor.go:267-278 | the list trimmed attempt by attempt equals the filter of the whole attempt history, granted and refused, to the last window |
| RestartWindow.SinceExact | pkg/supervision/supervisor.go:273-278 | that filter keeps exactly the entries not before the cutoff, as many as there are |
| RestartWindow.GrantedIffRoom | pkg/supervision/supervisor.go:280-284 | an attempt is granted exactly when it and all attempts of the window before it are at most the maximum |
| RestartWindow.RefusalsCount | pkg/supervision/strategy.go:21-23 | a history in which an attempt is refused although the window before it contains no granted restart |
| RestartWindow.AtMostMaxPerWindow | pkg/supervision/strategy.go:21-28 | no closed interval as long as the window contains more than the maximum of granted restarts |
| SupervisorTheorems.RestartsAreLimited | pkg/supervision/supervisor.go:261-287 | both hold in every reachable state of the supervisor, for any interleaving of terminations |
| SupervisorLimit.GateDecides | pkg/supervision/supervisor.go:261-295 | after any run a goroutine at its gate ends if and only if the supervisor is stopped, or the attempts of the run in the last window, this one included and the refused ones counted, are more than `MaxRestarts`; otherwise it starts the terminated child or begins a wave, as the strategy says |
| SupervisorLimit.BegunAreLimited | pkg/supervision/strategy.go:21-28 | along any run, no closed interval as long as the window holds more restarts that really began than `MaxRestarts` |
| SupervisorDuties.EveryWatcherIsTold | pkg/supervision/supervisor.go:243-259 | handling a termination calls every watcher registered at the read once and in order; a clean one is then over without a restart, any other comes to the gate |
| SupervisorDuties.StartAllTriesInOrder | pkg/supervision/supervisor.go:182-200 | a `StartAll` that has returned tried its children in order up to the first failure or the last child, and installed exactly those that succeeded |
| SupervisorDuties.RestartAllIsAWave | pkg/supervision/supervisor.go:303-328 | a `restartAll` that has ended raised every child's version in order and stopped exactly the references it captured, and only then tried every child in order, failures or not, installing those that succeeded |
| SupervisorDuties.RestartOneTriesOnce | pkg/supervision/supervisor.go:297-301 | a `restartOne` that has ended tried its child once and installed it if that succeeded |
| SupervisorTheorems.NoCascade | pkg/supervision/supervisor.go:309-320 | a reference `restartAll` captured while it ran is never handled: no watcher is called for it and every monitor of it fails its check, now and in every continuation, however many restarts overlap |
| SupervisorTheorems.StopsOnlyTargetsOrDone | pkg/supervision/supervisor.go:312-316 | whatever `restartAll` is about to stop is such a reference or had terminated before |
| SupervisorWaves.HandledLaterIff | pkg/supervision/supervisor.go:222-241 | a termination not handled yet is handled in some continuation if and only if the reference's version is still its child's and its monitor has not ended: that decides whether a second failure starts a wave of its own |
| SupervisorTheorems.VersionsGrow | pkg/supervision/supervisor.go:208-212 | a child's version never goes back, and while it stands still its reference does too |
| SupervisorTheorems.VersionsNameIncarnations | pkg/supervision/supervisor.go:202-218 | every installed reference has a version of its own among the references of its child |
| SupervisorTheorems.MonitorsAreCoherent | pkg/supervision/supervisor.go:222-241 | monitors of a child hold distinct versions; one whose version is current watches the child's current reference, installed with that version |
| SupervisorTheorems.HandledAtMostStarted | pkg/supervision/supervisor.go:243-254 | no termination is handled twice and no watcher called twice for one, so neither exceeds the child's successful starts |
| SupervisorVersions.RunKeeps | pkg/supervision/supervisor.go:182-328 | the invariant behind these, over every run and both strategies, across every gap in which the lock is free |
| SupervisorVersions.CurrentIsNew | pkg/supervision/supervisor.go:228-237 | a monitor that passes the check handles a terminated reference that was never handled before and that no `restartAll` captured |
| SupervisorQuiescence.StopBoundsStarts | pkg/supervision/supervisor.go:331-340 | once stopped, no goroutine joins those that can still call `spec.Start`, and each further start uses up a bound fixed at that moment |
| SupervisorQuiescence.QuietIffNobodyPastTheGate | pkg/supervision/supervisor.go:261-287 | no child is started after the stop in any continuation if and only if no goroutine was past the gate with a start left |
| SupervisorQuiescence.StopShutsForGood | pkg/supervision/supervisor.go:337 | after a `StopAll` passed its gate no continuation lets an `Add`, `StartAll`, `StopAll` or restart through theirs |
| SupervisorStopAll.StopAllStopsEveryChild | pkg/supervision/supervisor.go:342-354 | however restarts interleave, a `StopAll` that has returned took one turn per child, last added first, and stopped exactly the references that children had at their turns, in that order |
| SupervisorCoverage.StopAllCoversIff | pkg/supervision/supervisor.go:331-356 | in every interleaving that lets `StopAll` return, each child's reference at that moment is one it stopped, if and only if at its gate no goroutine had a start left or a started child to install |
| SupervisorRuns.StopAllMissesAnInstall | pkg/supervision/supervisor.go:202-212 | a run, under every policy, in which no start is left at the gate and yet `StopAll` misses a child that is installed after its turn |
| SupervisorOwnership.SingleOwner | pkg/supervision/supervisor.go:182-218 | OneForOne, one `StartAll`: in every reachable state at most one goroutine starts, monitors or handles a child, and at most one incarnation is not done |
| SupervisorOwnership.IncarnationsFollowOneAnother | pkg/supervision/supervisor.go:222-245 | a child is started only when every earlier incarnation is done, every seen termination passes the check, and the state read belongs to the incarnation that terminated |
| SupervisorRuns.OneIncarnationIff | pkg/supervision/supervisor.go:303-327 | with one `StartAll`, a child has at most one running incarnation in every reachable state exactly under the OneForOne policies |
| SupervisorRuns.TwoIncarnations | pkg/supervision/supervisor.go:303-327 | a run, under every AllForOne policy, that leaves two installed incarnations of a child running, neither captured by a restart |
| SupervisorRuns.OwnStateIff | pkg/supervision/supervisor.go:243-254 | with one `StartAll`, every termination is handled with the state of the reference that terminated exactly under the OneForOne policies |
| SupervisorRuns.ReadsAnotherState | pkg/supervision/supervisor.go:244-245 | a run, under every AllForOne policy, in which a termination is handled with a later incarnation's state |
| SupervisorOwnership.RunKeeps | pkg/supervision/supervisor.go:182-301 | the ownership invariant behind these, over every run |
| Supervision.Supervisor.Add | pkg/supervision/supervisor.go:150-174 | the first failing check decides the error and nothing changes; otherwise exactly one child is added at the end |
| Supervision.Supervisor.StartAllGate | pkg/supervision/supervisor.go:185-192 | passes exactly when the machine lets a `StartAll` in, with the children that its new goroutine works on |
| Supervision.Supervisor.InstallRef | pkg/supervision/supervisor.go:208-212 | changes one child, by the machine's step, and returns its new version |
| Supervision.Supervisor.IsCurrent | pkg/supervision/supervisor.go:230-235 | sends the monitor where the machine's check does; if it passes, the terminated reference is the child's current one, was never handled before and was not stopped by a `restartAll` |
| Supervision.Supervisor.PassGate | pkg/supervision/supervisor.go:261-287 | the list becomes the recent attempts with this one (on a clock that does not go back), the verdict follows from it, and it is the machine's step |
| Supervision.Supervisor.BumpVersion | pkg/supervision/supervisor.go:311-314 | raises one child's version and captures its reference in one critical section |
| Supervision.Supervisor.StopAllGate | pkg/supervision/supervisor.go:332-340 | passes exactly when the machine lets a `StopAll` in, with the children its new goroutine works on, and from then on every gate is shut in every continuation |
| ActorRegistry.RegistryRefinesList | pkg/system/system.go:67-166 | over any sequence of calls, with re-registration, map and tombstoned order give every answer of a plain ordered list; the names in the slots stay duplicate-free and exactly the map's keys |
| ActorRegistry.TombstoneRemoves | pkg/system/system.go:155-163 | emptying a name's slot and deleting it from the map removes its entry from the list and keeps the order of the others |
| ActorRegistry.WithoutRemoves | pkg/system/system.go:155-163 | what leaves the list is one entry, that of the name, and the others keep their order |
| ActorRegistry.SnapshotIsReverse | pkg/system/system.go:196-205 | the stop list is the list read backwards |
| ActorSystems.ActorSystem.RegisterActor | pkg/system/system.go:67-94 | the first failing check decides the error and nothing changes; otherwise the listing grows by this entry at its end; the registry stays valid |
| ActorSystems.ActorSystem.UnregisterActor | pkg/system/system.go:143-166 | the error is decided by the flag and the listing; otherwise exactly this name's entry leaves the listing; the registry stays valid |
| ActorSystems.ActorSystem.Unlink | pkg/system/system.go:157-163 | the in-place loop empties the first slot that holds the name and no other |
| ActorSystems.ActorSystem.Find | pkg/system/system.go:101-115 | the lookup of `send` and `Get`: stopped, not listed, or the actor listed under the name; it changes nothing |
| ActorSystems.ActorSystem.Count | pkg/system/system.go:227-232 | the map's size is the length of the list |
| ActorSystems.ActorSystem.BeginStop | pkg/system/system.go:179-210 | the critical section takes the listing backwards and leaves the registry empty and stopped |
| ActorSystems.ActorSystem.StopList | pkg/system/system.go:194-205 | the loop from the last slot computes the snapshot |
| ActorSystems.ActorSystem.StopEverything | pkg/system/system.go:178-224 | every listed entry is stopped once and reported, last first, whatever errors occur; the errors returned are exactly those of the failed stops, all of them and in order; a second call does nothing |
| ActorSystems.ActorSystem.StopEntries | pkg/system/system.go:212-224 | the announcement, then one stop and one event per entry; the errors are those of the failed stops, all and in order |
| ActorSystems.FailuresAreAll | pkg/system/system.go:214-223 | the collected errors stand for strictly increasing places of the list, exactly those whose stop failed |
| StopAllMachine.StopAllLinearizes | pkg/system/system.go:175-224 | of any number of concurrent callers, once there is one, exactly one has passed and all others are rejected; what has been done so far is exactly the trace up to its position over the listing of its gate, backwards; every later registry call was answered ErrSystemStopped |
| StopAllMachine.TraceAt | pkg/system/event.go:36-45 | in that trace SystemStopping comes first and entry k's stop and event stand at their own two places |
| Mailbox.LeastIsFront | pkg/mailbox/priority.go:63-74 | while numbers grow within each priority, any least element of the heap is the earliest message of the most urgent priority, and taking it keeps that so |
| Mailbox.FrontServesLevels | pkg/mailbox/priority.go:49-51 | taking the front takes the head of the most urgent non-empty queue and leaves every other queue alone |
| Mailbox.DrainIsStableSort | pkg/mailbox/priority.go:49-51 | taking fronts until the queues are empty yields the same messages by priority, in order of arrival within each |
| Mailbox.DrainingSorts | pkg/mailbox/priority.go:106-117 | in any history of pops, whichever least elements the heap picks, as many pops as there are messages hand out exactly that stable sort, and the heap ends empty |
| Mailbox.MailboxRefinesQueues | pkg/mailbox/priority.go:78-136 | over any history with fewer than 2^64 accepted pushes every answer is that of one FIFO queue per priority, whichever least element the heap picks; what is held is what was accepted and not popped, and a positive `maxSize` is never exceeded |
| Mailbox.RefusedIff | pkg/mailbox/priority.go:82-88 | in any history a push is refused if and only if a close came before or the accepted pushes not yet popped equal a positive `maxSize` |
| Mailbox.NewMailboxAccepts | pkg/mailbox/priority.go:76-88 | a new mailbox accepts its first `maxSize` pushes, and without a positive `maxSize` all |
| Mailbox.PushedThenDrained | pkg/mailbox/priority.go:49-117 | pushes of a new mailbox followed by as many pops come out as the stable sort of what was pushed, by the priorities given |
| Mailbox.PushInOrderIff | pkg/mailbox/priority.go:90-95 | a push keeps its queue in order if and only if the counter does not wrap or the queue is empty |
| Mailbox.WrapServesNewestFirst | pkg/mailbox/priority.go:46 | after a wrap the newest message is served before an older one of its priority |
| Mailbox.ClosedHistory | pkg/mailbox/priority.go:131-136 | in every history after a close each push is refused, and the pops hand out what was held at the close in the order of the drain, to the last message; what is not popped is still held |
| Mailbox.PriorityMailbox.Push | pkg/mailbox/priority.go:78-104 | accepted exactly when open and below a positive `maxSize`; then the message with its priority and the next number is added and the token is in the channel; refused, nothing changes |
| Mailbox.PriorityMailbox.Pop | pkg/mailbox/priority.go:108-117 | nothing exactly when empty; otherwise one message leaves, and none held is before it by priority and then by number |
| Mailbox.PriorityMailbox.Close | pkg/mailbox/priority.go:132-136 | blocks pushes and loses no queued message |
| Middleware.Chain | pkg/actor/middleware.go:18-25 | the backward loop computes the right-to-left fold |
| Middleware.FoldAppend | pkg/actor/middleware.go:27-35 | middlewares appended by a later option lie inside the earlier ones: composing in two steps is composing once |
| Middleware.Pipeline.WithMiddleware | pkg/actor/middleware.go:30-35 | over any base handler, the chain built next is the earlier chain around the chain of the new middlewares |
| Middleware.Pipeline.BuildHandler | pkg/actor/middleware.go:40-51 | with or without middleware the handler is the fold over the base handler |
| Middleware.NormalRun | pkg/actor/middleware.go:15-17 | for any list of middlewares a run without panic is all pre-steps in order, the handler, all post-steps in reverse |
| Middleware.PresExact | pkg/actor/middleware.go:15-17 | the pre-steps are those of the plain middlewares, each once, from the outside in |
| Middleware.PostsExact | pkg/actor/middleware.go:15-17 | the post-steps are those of the plain middlewares and of Metrics, each once, from the inside out |
| Middleware.PanicRun | pkg/middleware/recovery.go:25-45 | for a panic at any place: the enclosing pre-steps, what ran inside, then exactly the post-steps outside the innermost enclosing Recovery; the actor's own recovery is reached if and only if no Recovery encloses the place |
| Middleware.MetricsCountsIff | pkg/middleware/metrics.go:50-61 | Metrics counts a message that panicked if and only if a Recovery around the place of the panic lies inside Metrics, or Metrics had returned before |
| Middleware.RecoveryFirstLosesTheCount | pkg/middleware/metrics.go:19-22 | in the chain Recovery, Metrics a panic in the handler is recovered and the message is not counted |
| Behavior.NestedKeepsBelow | pkg/actor/behavior.go:22-42 | a sequence that works only on its own handlers leaves everything below them as it was |
| Behavior.BlockRestoresStack | pkg/actor/behavior.go:34-42 | a block from `Become` to its matching `Unbecome`, with anything nested inside, restores the whole stack |
| Behavior.CurrentIsLastGiven | pkg/actor/behavior.go:17-32 | after a `Become` or `BecomeReplace` and anything nested after it, the handler given is the current one, above what lay below before |
| Behavior.UnbecomesUncover | pkg/actor/behavior.go:34-42 | any number of `Unbecome`s uncover the handlers in turn, down to the initial one, which stays |
| Behavior.BehaviorStack.Current | pkg/actor/behavior.go:17-20 | the top of a stack that is never empty |
| Behavior.BehaviorStack.DoBecome | pkg/actor/behavior.go:22-26 | the given handler is on top of what was there, in place or on a larger array, over whatever an earlier pop left in the slot |
| Behavior.BehaviorStack.DoBecomeReplace | pkg/actor/behavior.go:28-32 | the given handler is on top of what lay below the old one |
| Behavior.BehaviorStack.DoUnbecome | pkg/actor/behavior.go:34-42 | pops and reports true exactly when more than the base handler is left |

## Left out

- GoActors.GoActor.Run: follows the endless loop for a given number of turns; ActorIntake.OnWayOutOnlyWhenShut says that it leaves only on shutdown. No fairness is assumed: ActorIntake.QueuedMessageAdvances bounds the loop's own actions, not the time they take.
- GoActors.GoActor.Receive: a sender that stays blocked is an outcome of its own; what a caller's goroutine does while blocked is not modelled.
- Mailbox.MailboxRefinesQueues: stated below 2^64 accepted pushes, where the counter cannot wrap; PushInOrderIff and WrapServesNewestFirst say what a wrap does. The heap itself is go-datalib's, which is not part of this model.
- Middleware.PanicRun: at most one panic per message, and every middleware calls `next` exactly once; a panic of Recovery's own logging and `runtime.Goexit` are not modelled.
- Middleware.MetricsCountsIff: counting only; the duration sums and their 64-bit wrap are not modelled.
- SupervisorOwnership.SingleOwner: one `StartAll`; several overlapping calls of `StartAll` start every child several times, by design of the callers.
- RestartWindow.AtMostMaxPerWindow: the clock does not go backwards, as Go's monotone clock reading ensures.
- Supervision.Supervisor.PassGate: `Add`, the gates and the other critical sections are in imperative form; the loops of `StartAll`, `restartAll` and `StopAll`, which run across gaps in the lock, are events of the transition system only.
- The supervisor's `uint64` versions are unbounded numbers; 2^64 restarts of one child are not modelled.
- The errors that the supervisor's `StopAll` joins, and the delivery of restart errors to their callbacks.
- The composition of real actor states with restart decisions: the state read from a terminated child may be any state here, so nothing is said about which terminations of an actor count as clean.
- How many restart waves a burst of failures causes: SupervisorWaves.HandledLaterIff says which of its terminations are handled, not how they are counted.
- `WaitReady`, the delivery of an event to each handler, `Spawn` and its events.
- Signals, logging, dead letters, `actorref`, `dispatch`, `spawn`, `startnew`, hooks that do nothing: thin forwarding or easy members.
- Generics, reflection, `context.Value`, functional options and error texts; errors are enumerations.
