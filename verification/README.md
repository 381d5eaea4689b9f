# Ayatsuri: verified models

Ayatsuri runs DAG workflows and lets language-model agents drive them. This project models, in Dafny,
the parts of it whose correctness is spread over many steps, and proves what those parts promise.
`dafny verify dfyconfig.toml` checks everything.

| file | part of the system |
|---|---|
| `AutomataState`, `AutomataSteps` | the record of an automata; every command, tick, spec change, reconcile pass and tool call as a step on it |
| `AutomataSafety`, `AutomataRuns`, `AutomataDelivery`, `AutomataProperties`, `AutomataTasks` | the lifecycle invariant, the fate of queued turn messages, waiting, pausing, the schedule and the task lists, over whole runs |
| `AutomataScenarios` | concrete runs from a new record in which a property fails |
| `AutomataEdits`, `AutomataPasses`, `AutomataService` | the service methods that perform the steps field by field and loop by loop; the object is always in a state of a run |
| `AgentHistory`, `AgentRepair`, `AgentLoop` | the history sent to the model, the repair of stored histories, the turn loop with interrupts and the depth limit |
| `ChatQueue` | the merged chat queue, its flush protocol and its transfer to a new session |
| `SubPub`, `SessionStream` | the subscriber list compacted in place, and snapshot plus live stream under all interleavings |
| `ShellScan`, `ShellSegments`, `BashPolicy` | the two shell scanners, and the bash rules they feed |
| `OAuthRefresh`, `SessionCreate` | the double-checked refresh and the idempotent creation of a session, as protocols of any number of callers |
| `OAuthManager`, `SessionApi` | the calls themselves, with others running in between: each is a run of its protocol |
| `ProviderCache`, `HistoryCsv`, `SlugId`, `CopilotBlock` | the cache key and bounded cache, CSV output, unique slugs, the marked block in a text file |
| `Text`, `Decimal` | trimming, joining and printed numbers, shared by the others |

Objects whose methods change fields are classes here too, and each method is proved against a function
of the old state; the theorems are about those functions. What the model provider, the tools, the clock,
the random generator, the regular expression engine, the hash, the file system and the session and run
stores answer is an argument, so every theorem holds for all their answers, failing writes included.

## What the proofs found

Where a property one would expect does not hold, the code is modelled as it is, a lemma gives the input
or run that breaks it, and another lemma gives the exact condition under which it holds.

- A controller runtime saves the copy of the record it was given. If the operator wrote meanwhile, that
  save takes the new turn message off the disk (`MessageLossIsReachable`). The messages on disk are never lost or
  reordered if and only if no tool call saved a copy with outdated messages (`RunBalancedIffUpToDate`).
- The agent session has the text of pending messages before the record says so. If the enqueue fails with the text kept
  (the loop of the session is gone by then), or the flush of the session or the save behind it fails, the messages stay
  pending and the next pass gives them again (`GivenTwiceIsReachable`, `GivenTwiceByFailedEnqueue`). No message is lost,
  reordered or given twice if and only if none of these and no outdated save happens (`RunAccountedIffWhole`); each
  message handed over was accepted (`HandedOverWasAccepted`).
- The same outdated save takes the remembered schedule minute back (`MinuteCanGoBack`), and then two scheduled cycles
  can start in one minute (`TwoCyclesInOneMinute`). The minute never goes back if and only if no tool call saves an
  older one (`MinuteNeverGoesBackIff`), and then every scheduled cycle has a minute of its own
  (`OneScheduledCyclePerMinute`). Two cycles share a minute if and only if a tick fires in the minute of the cycle before
  (`OwnMinutesIff`), which takes a disk that has gone back behind it (`AgainMeansBack`).
- A spec change that finds the automata waiting with turn messages pending clears the prompt and the run but
  leaves it waiting (`StrandingIsReachable`); no reconcile pass moves it again (`StrandedStays`). In a run, disk and
  copies always have a cause for waiting if and only if no spec change of that kind is written
  (`RunCausedIffNeverStrands`).
- Deleting the last task template is undone by the next load, which makes the running tasks the templates; the deleted
  one is back if and only if it is one of them (`DeletedTemplateReturns`).
- The turn loop leaves the last tool calls unanswered when it reaches 50 rounds. From then on every request of the
  same loop is malformed; all requests before are well formed. Repairing what any turns left behind makes it well formed
  if and only if no answered call has an empty id (`RunTurns`, `RepairMendsIff`).
- Repair is idempotent if and only if no tool call has an empty id (`RepairIdempotentIff`).
- A message published out of order is dropped for a subscriber that has a later one; a subscriber misses nothing if and
  only if the numbers new to it were published in increasing order (`NothingMissedIffInOrder`).
- During a rotation of the session a text queued on the old manager between the copy of its queue and the switch
  stays behind (`LateTextIsLost`). A flush that has rotated and then finds no target session puts its text back into the
  old manager, which serves no more (`RestoredTextIsLost`), and the new one waits for that flush until it is evicted
  (`BlockedUntilEvicted`). An eviction drops the texts that wait (`EvictedTextIsLost`). A flush whose loop is gone has
  recorded its text and puts it back all the same (`HalfDeliveredComesTwice`). Texts are conserved, with at most one
  flush in flight, if and only if every action is up to date in this sense (`RunGoodIffUpToDate`).
- Splitting a segment again gives that segment if and only if it has no carriage return before a line feed; a quoted
  one can survive the first split (`ResplitIff`, `ResplitCanChange`).
- A disabled rule has no say in a decision but can change the name that a denial reports for an unnamed rule behind it
  (`ReportedNameIff`).
- If the store rejects a new session and the session is evicted from memory, a second request for the same ID is
  accepted, even for another user (`UnreliableStoreAcceptsTwice`). At most one request ever creates the session if and
  only if no request goes past an empty or unreadable store after an acceptance (`CreatedOnceIffNeverBlind`).
- Documentation and code differ in one place: `UniqueID` is documented never to exceed 128 characters and always to be
  new. It exceeds them if and only if the base has 118 characters and the base and all 999,999,998 numbered candidates
  are taken, and it is not new if and only if the last resort behind them is taken as well (`UniqueId`).

## Model

| member | source | states |
|---|---|---|
| `AutomataService.Service.EnsureState` | internal/automata/service_state.go:111-170 | loading: rejects task lists that are not acceptable, adjusts the record to the kind, fills lost templates from tasks, and saves exactly when something changed; a failed save leaves the disk alone |
| `AutomataEdits.NormalizePersistedTaskTemplates` | internal/automata/tasklist.go:12-46 | the loop with its set of seen ids accepts exactly the lists with descriptions and distinct ids, and trims every description |
| `AutomataEdits.NormalizePersistedTasks` | internal/automata/tasklist.go:48-85 | the same for the running tasks |
| `AutomataEdits.FindTaskTemplateIndex` | internal/automata/tasklist.go:136-143 | the first template with the id, or -1 |
| `AutomataService.Service.RequestStart` | internal/automata/service_commands.go:18-71 | the call is one step of a run, for every number of writes that succeed: the object was and is in a state of the run it logged, and it fails exactly if the step is refused or a write fails |
| `AutomataService.Service.Pause` | internal/automata/service_commands.go:73-98 | the same for a pause, remembering the state paused from |
| `AutomataService.Service.Resume` | internal/automata/service_commands.go:100-133 | the same for a resume, back to waiting for a prompt, to idle for an idle service, or to running with a message to wake the agent |
| `AutomataService.Service.SubmitHumanResponse` | internal/automata/service_commands.go:135-167 | the same for an answer, which only the open prompt takes |
| `AutomataService.Service.CreateTask` | internal/automata/service_commands.go:169-197 | the same for a new template |
| `AutomataService.Service.UpdateTask` | internal/automata/service_commands.go:199-276 | the same for an edited task; an edit that changes nothing is neither written nor an error |
| `AutomataService.Service.DeleteTask` | internal/automata/service_commands.go:285-300 | the same for a template taken out |
| `AutomataEdits.EditTask` | internal/automata/service_commands.go:208-258 | editing template and running task in place: refused, unchanged or written exactly as the step says, with a message only for a task ticked or reopened while active |
| `AutomataService.Service.ReorderTasks` | internal/automata/service_commands.go:302-337 | the same for a new order of the templates |
| `AutomataEdits.PickTemplates` | internal/automata/service_commands.go:314-334 | the loop with its set of seen ids returns the templates in the wanted order, or nothing on an empty, repeated or unknown id |
| `AutomataService.Service.RequestReflect` | internal/automata/service_commands.go:339-370 | the same for the two writes of a requested reflection |
| `AutomataService.Service.SubmitOperatorMessage` | internal/automata/service_commands.go:372-432 | the same for a message queued behind the others; an idle service starts a cycle first |
| `AutomataService.Service.HandleTick` | internal/automata/service_schedule.go:29-82 | the same for a schedule tick, which writes nothing, the minute, the minute with an error, or a new cycle; a tick that is skipped is no error |
| `AutomataEdits.ScheduleListDueAt` | internal/automata/service_schedule.go:84-91 | true exactly if some schedule entry is due in that minute |
| `AutomataService.Service.ResetState` | internal/automata/service_state.go:59-81 | the same for a reset, which touches nothing if the old session could not be cleaned up |
| `AutomataService.Service.ResetForSpecChange` | internal/automata/service_state.go:83-109 | the same for a spec change, with its message only if none was pending |
| `AutomataEdits.ReachSession` | internal/automata/controller.go:255-287 | which session a turn ends up in, with a missing session created again, or the error |
| `AutomataService.Service.BeginTurn` | internal/automata/controller.go:246-316 | a turn start writes once and hands over or keeps the pending messages; the runtime then points at that record even if the write failed |
| `AutomataService.Service.FlushPending` | internal/automata/controller.go:238-244 | pending messages, if any, start a turn; disk, copies and error are those of the pass |
| `AutomataService.Service.ReconcileCurrentRun` | internal/automata/controller.go:173-236 | what a look at the child run writes and whether it fails, for every answer of the run store |
| `AutomataService.Service.FinishRun` | internal/automata/controller.go:185-235 | a child run that ended is saved as a turn message first, then the turn starts; a failed first save ends it there |
| `AutomataService.Service.ReconcileLoaded` | internal/automata/controller.go:121-158 | a pass over an automata that is neither paused nor reflecting nor answered, with its error |
| `AutomataService.Service.ReconcileResponse` | internal/automata/controller.go:109-119 | a stored response becomes a turn message, saved before the pass goes on |
| `AutomataService.Service.ReconcileReflecting` | internal/automata/controller.go:731-832 | reflection starts, goes on or ends, with its error |
| `AutomataService.Service.ReconcileDefinition` | internal/automata/controller.go:94-159 | a whole reconcile pass is one step of a run, after any number of successful writes: disk and runtime copies are those of the run, and it fails exactly if the run lookup or a write fails |
| `AutomataService.Service.RunAllowedDag` | internal/automata/controller.go:579-631 | a tool call is one step of a run: it changes the copy its runtime points at and saves it; it fails exactly if it is refused or its write fails |
| `AutomataService.Service.RetryCurrentRun` | internal/automata/controller.go:633-638 | the same for a retry, refused without an earlier run |
| `AutomataService.Service.RequestHumanInput` | internal/automata/controller.go:648-674 | the same for a prompt, refused while a run or a prompt is open |
| `AutomataService.Service.FinishAutomata` | internal/automata/controller.go:676-708 | the same for finishing, which clears prompt, messages and run |
| `AutomataService.ServiceLosesNothing` | internal/automata/controller.go:393-397 | so the theorems about runs are theorems about the object: its record keeps the invariant, and while no outdated copy is saved it has every message that was queued and not removed |
| `AutomataState.InitialState` | internal/automata/types.go:325-333 | a new record satisfies the lifecycle invariant and has acceptable lists |
| `AutomataSafety.EnterSound` | internal/automata/service_state.go:111-170 | loading keeps the invariant, the pending messages and the cause of waiting |
| `AutomataSafety.StartTurnSound` | internal/automata/controller.go:246-316 | a turn start either keeps all pending messages in order or hands over exactly their joined text, which the session then has; the session has a text whose messages are kept exactly if the enqueue failed behind it or the session could not be flushed |
| `AutomataSafety.ReconcileSound` | internal/automata/controller.go:94-244 | every write of a reconcile pass keeps the invariant and accounts for the messages |
| `AutomataSafety.CommandSound` | internal/automata/service_commands.go:18-476 | so does every write of every command, tick, reset and spec change |
| `AutomataSafety.ToolSound` | internal/automata/controller.go:579-708 | so does every tool call, on whatever copy it is made |
| `AutomataSafety.CommandGives` | internal/automata/controller.go:246-316 | every step gives the session at most once, failed enqueues that keep the text included, and then exactly the messages pending before its last write |
| `AutomataRuns.EveryRunKeepsInvariant` | internal/automata/controller.go:94-301 | in every run from a new record, with any interleaving, failing writes and stale copies, the record on disk and every copy: never both run and prompt, a run only while active, a prompt only while waiting for it or paused, idle, finished and reflecting carry nothing, and a waiting reason has its prompt or run |
| `AutomataRuns.StepBalancedIffUpToDate` | internal/automata/controller.go:393-397 | a step accounts for every queued message if and only if it does not save a copy with outdated messages |
| `AutomataRuns.RunBalancedIffUpToDate` | internal/automata/service_commands.go:534-544 | over a whole run, the messages that left the disk as handed over or dropped on purpose, followed by those pending, are all messages queued, in order, if and only if no outdated copy was saved |
| `AutomataRuns.OutdatedSaveLosesMessages` | internal/automata/controller.go:579-631 | a tool call on a copy without the newer messages takes them off the disk and no book entry says so |
| `AutomataScenarios.MessageLossIsReachable` | internal/automata/controller.go:393-397 | there is such a run from a new record: a cycle, a turn, an operator message, a tool call |
| `AutomataDelivery.HandedOverWasAccepted` | internal/automata/controller.go:263-300 | in every run, each message that left the disk as handed over was accepted by the session, at its place |
| `AutomataDelivery.StepAccountedIff` | internal/automata/controller.go:263-301 | a step keeps every message neither lost nor reordered, given at most once and not pending once given, if and only if it saves no outdated copy and no failed enqueue, flush or save leaves a text pending that the session has |
| `AutomataDelivery.RunAccountedIffWhole` | internal/automata/controller.go:263-301 | the same for whole runs from a new record |
| `AutomataScenarios.GivenTwiceIsReachable` | internal/automata/controller.go:288-301 | a run in which the flush fails once and the session accepts the same message twice |
| `AutomataScenarios.GivenTwiceByFailedEnqueue` | internal/agent/session.go:620-633 | the same without a flush or a save that fails: the enqueue reports an error behind the text |
| `AutomataProperties.WaitingHasCauseUnlessStranded` | internal/automata/service_state.go:83-109 | a command, tick or pass leaves an automata waiting for a prompt or a run, if it waits, if and only if it is not a spec change that finds it waiting with messages pending |
| `AutomataProperties.StepCausedIff` | internal/automata/service_state.go:83-109 | the same of any step, tool calls included, for the disk and all copies |
| `AutomataProperties.RunCausedIffNeverStrands` | internal/automata/service_state.go:83-109 | over a whole run disk and copies always have a cause for waiting if and only if no spec change of that kind is written |
| `AutomataScenarios.StrandingIsReachable` | internal/automata/service_state.go:83-109 | a run from a new record that strands: a child run waits, the operator writes, the spec changes |
| `AutomataProperties.StrandedStays` | internal/automata/controller.go:94-159 | an automata waiting for nothing is not moved by any reconcile pass |
| `AutomataProperties.ResumeUndoesPause` | internal/automata/service_commands.go:73-133 | resume after pause restores the record, but for a message that wakes the agent, and running instead of waiting for a child run |
| `AutomataProperties.QuietTickChangesOnlyMinute` | internal/automata/service_schedule.go:29-82 | a tick that finds a prompt, a run, pending messages or session activity changes nothing but the minute, and the error if the configuration is invalid |
| `AutomataProperties.StepMovesMinute` | internal/automata/service_schedule.go:29-66 | between resets only a tick, to its own minute, or a saved copy moves the remembered minute, and a cycle starts only with a tick that moves it |
| `AutomataProperties.StepKeepsMinuteIff` | internal/automata/controller.go:579-674 | with ticks that do not go back, a step takes the remembered minute back if and only if it saves a copy that remembers an older one |
| `AutomataProperties.MinuteNeverGoesBackIff` | internal/automata/service_schedule.go:29-66 | the same for whole runs |
| `AutomataProperties.CyclesInOrder` | internal/automata/service_schedule.go:29-66 | even with old copies saved, scheduled cycles never go back in time |
| `AutomataProperties.OneScheduledCyclePerMinute` | internal/automata/service_commands.go:452-476 | with ticks that do not go back, no reset and no older minute saved, scheduled cycles have strictly increasing minutes |
| `AutomataProperties.CyclesGrowIff` | internal/automata/service_schedule.go:29-66 | a step starts a scheduled cycle exactly if it is such a tick and its writes succeed |
| `AutomataProperties.OwnMinutesIff` | internal/automata/service_schedule.go:29-66 | with ticks that do not go back and no reset, scheduled cycles have strictly increasing minutes if and only if no tick that is due, configured and finds nothing going on comes in the minute of the last cycle while the record remembers another |
| `AutomataProperties.AgainMeansBack` | internal/automata/service_schedule.go:36-41 | a second cycle in a minute means that the disk has gone back behind that minute |
| `AutomataScenarios.MinuteCanGoBack` | internal/automata/controller.go:648-674 | a run in which a tool call takes the minute from 2 back to 1 |
| `AutomataScenarios.TwoCyclesInOneMinute` | internal/automata/service_schedule.go:29-66 | and its continuation, with ticks that do not go back, in which two cycles start in minute 2 |
| `AutomataTasks.PickExactly` | internal/automata/service_commands.go:302-337 | a wanted order is accepted if and only if its trimmed ids are distinct ids of templates; the result follows it |
| `AutomataTasks.ReorderIsPermutation` | internal/automata/service_commands.go:302-337 | an accepted reordering is a permutation of the templates in the wanted order, and changes nothing else |
| `AutomataTasks.DeletedTemplateReturns` | internal/automata/service_state.go:111-147 | after a deletion the next load has the other templates, or the running tasks if none is left; the deleted one is among them if and only if it was the last and is a running task |
| `AutomataTasks.EveryRunCanBeLoaded` | internal/automata/tasklist.go:12-85 | no run leads to task lists the next load rejects |
| `AgentHistory.RepairOrphanedToolCalls` | internal/agent/session.go:985-1025 | the nested index loop computes the repaired history block by block |
| `AgentHistory.CollectAnswered` | internal/agent/session.go:999-1008 | the inner loop stops behind the run of tool results and has exactly the ids answered in it |
| `AgentHistory.CancelUnanswered` | internal/agent/session.go:1010-1019 | one cancelled result for every call without an answer, in call order |
| `AgentHistory.WellFormedAt` | internal/agent/loop.go:566-668 | in a well-formed history every message is followed at once by exactly the results of its calls, in order, and then by something else |
| `AgentHistory.UnansweredStaysMalformed` | internal/agent/loop.go:611-614 | tool calls followed by something other than a result cannot be mended by appending |
| `AgentRepair.RepairAnswersEverything` | internal/agent/session.go:985-1025 | after repair every call is answered in the results right after its message |
| `AgentRepair.RepairOnlyAdds` | internal/agent/session.go:985-1025 | the input is kept in order; only cancelled results are put in, one for each orphaned call |
| `AgentRepair.RepairChangesNothingIff` | internal/agent/session.go:985-1025 | repair is the identity if and only if every call has an id and an answer in its place |
| `AgentRepair.RepairKeepsWellFormed` | internal/agent/session.go:985-1025 | a well-formed history with call ids is left alone |
| `AgentRepair.RepairIdempotentIff` | internal/agent/session.go:985-1025 | a second repair changes nothing if and only if no call has an empty id |
| `AgentRepair.RepairMendsUnansweredTail` | internal/agent/session.go:969-1025 | a history that ends in unanswered calls, as the depth limit leaves it, becomes well formed |
| `AgentRepair.RepairMendsIff` | internal/agent/session.go:985-1025 | where every message is followed by exactly its results or by none, the repaired history is well formed if and only if no answered call has an empty id |
| `AgentLoop.Loop.ActivateQueuedTurn` | internal/agent/loop.go:394-406 | queued messages join the history in order and earlier interrupts are forgotten, only if no turn is active |
| `AgentLoop.Loop.RecordCancelledToolResults` | internal/agent/loop.go:664-668 | one cancelled result per call, in order |
| `AgentLoop.Loop.ExecuteToolCalls` | internal/agent/loop.go:619-662 | a beginning of the calls is run, each with its own output recorded in order; it stops short only for a pausing tool or an interrupt, and at most one call starts after an interrupt |
| `AgentLoop.Loop.SendRequest` | internal/agent/loop.go:341-392 | the request is the prompt followed by the whole history; the answer is recorded, an error only ends the work |
| `AgentLoop.Loop.RunBatch` | internal/agent/loop.go:573-589 | whether it ran fully, was interrupted or paused, every call of a batch has exactly one result, in call order |
| `AgentLoop.Loop.HandleToolCalls` | internal/agent/loop.go:566-615 | at most 50 further requests; what it appends is well formed, but for the last message if the depth limit ended it |
| `AgentLoop.Loop.ProcessLLMRequest` | internal/agent/loop.go:316-337 | between 1 and 51 requests, and a model that never stops reaches the limit with exactly 51 |
| `AgentLoop.Loop.RunTurn` | internal/agent/loop.go:262-280 | a whole turn: working is false at its end, at most 51 requests, each the old history plus an answered part of the turn; at most one request or tool call starts after an interrupt, and only an interrupt that arrived after activation cuts the turn |
| `AgentLoop.Loop.RunTurns` | internal/agent/loop.go:229-300 | all turns of a loop: a turn's requests are well formed if and only if no earlier turn hit the depth limit; whatever history is left, its repair is well formed if and only if no answered call has an empty id |
| `AgentLoop.TurnRequests` | internal/agent/loop.go:341-392 | what a turn sends is well formed exactly if what it started from was |
| `AgentLoop.StuckMalformed` | internal/agent/loop.go:611-614 | a message left unanswered with something else behind it makes the history malformed for good |
| `ChatQueue.SessionManager.EnqueueChatMessage` | internal/agent/session.go:584-640 | the text goes to an open prompt, onto the queue if the agent works, a flush is in progress or text waits, or into a turn at once; an interrupt is requested exactly for a queued text while the agent works; a loop gone meanwhile is an error that leaves the text with the session |
| `ChatQueue.SessionManager.BeginQueuedChatFlush` | internal/agent/session.go:668-678 | drains all texts joined, and marks the flush, unless one is marked or nothing waits |
| `ChatQueue.SessionManager.RestoreQueuedChatInput` | internal/agent/session.go:681-691 | puts the text back in front and clears the mark; nothing is put back for an empty text |
| `ChatQueue.SessionManager.CompleteQueuedChatFlush` | internal/agent/session.go:694-698 | clears the mark only |
| `ChatQueue.SessionManager.TransferTo` | internal/agent/api.go:1407-1416 | the new manager has the queue and the mark of the old one |
| `ChatQueue.StepGoodIffUpToDate` | internal/agent/api.go:1540-1595 | an action keeps delivered, in-flight and waiting text equal to what arrived, with at most one flush in flight, if and only if it works on the serving manager, a switch finds the copy accurate, an eviction finds nothing waiting and no flush, and no text is recorded and put back |
| `ChatQueue.RunGoodIffUpToDate` | internal/agent/api.go:1356-1431 | the same for whole runs, across any number of rotations and evictions |
| `ChatQueue.CarefulRunsConserve` | internal/agent/session.go:605-698 | any interleaving of enqueue, begin, restore, deliver, rotation and eviction conserves the text as long as the old queue is not touched during a rotation, a text goes back where the session is served, and an evicted manager holds nothing |
| `ChatQueue.LandedStale` | internal/agent/api.go:1563-1571 | a text put back into a manager that serves no more is lost, and the serving one stays marked |
| `ChatQueue.LateTextIsLost` | internal/agent/api.go:1407-1428 | a run in which a text queued between copy and switch stays behind |
| `ChatQueue.RestoredTextIsLost` | internal/agent/api.go:1557-1571 | a run in which a flush rotates, finds no target and loses its text |
| `ChatQueue.EvictedTextIsLost` | internal/agent/api.go:1838-1880 | a run in which the manager is evicted with a text waiting |
| `ChatQueue.HalfDeliveredComesTwice` | internal/agent/session.go:584-600 | a run in which a text is recorded, put back because the loop is gone, and delivered again |
| `ChatQueue.BlockedUntilEvicted` | internal/agent/session.go:668-674 | after a lost flush the serving manager is blocked and delivers nothing exactly until it is evicted |
| `SubPub.Publisher.Subscribe` | internal/agent/subpub.go:66-82 | appends to the list, in a larger array if need be |
| `SubPub.Publisher.Visit` | internal/agent/subpub.go:116-130 | what publishing does to one subscriber |
| `SubPub.Publisher.Compact` | internal/agent/subpub.go:111-132 | the loop over the aliased slice keeps exactly those who stay, in their order |
| `SubPub.Publisher.Publish` | internal/agent/subpub.go:111-132 | list and subscribers afterwards |
| `SubPub.Publisher.Broadcast` | internal/agent/subpub.go:136-151 | the same for a message outside the numbering |
| `SubPub.StayingExactly` | internal/agent/subpub.go:115-131 | on the list afterwards are exactly the live subscribers that had the message or had room |
| `SubPub.StayingInOrder` | internal/agent/subpub.go:115-131 | they keep their order |
| `SessionStream.EveryRunGood` | internal/agent/session.go:745-753 | for new and reactivated sessions, under every interleaving of append, publish, broadcast, subscribe, receive and cancel: nobody on the list has a closed channel, and what a subscriber got or has waiting are exactly the record numbers published while it was listed |
| `SessionStream.StreamFollowsSnapshot` | internal/agent/session.go:745-753 | a subscriber's numbers strictly increase and none is in its snapshot |
| `SessionStream.NothingMissedIffInOrder` | internal/agent/subpub.go:121-129 | a subscriber of any run has everything published while it listened and not in its snapshot if and only if those numbers came in increasing order |
| `SessionStream.StreamIsGapless` | internal/agent/session.go:1061-1068 | with publications in number order from wherever the session started, what it got is a gapless beginning of the numbers after its snapshot |
| `SessionStream.SnapshotPlusStreamIsAll` | internal/agent/session.go:745-753 | with all of them published, a listed subscriber has every stored message in the snapshot or in the stream, never in both |
| `SessionStream.OutOfOrderIsMissed` | internal/agent/subpub.go:121-124 | two messages published in the wrong order: the first is never received |
| `ShellScan.SplitShellCommandSegments` | internal/agent/policy.go:278-350 | the byte loop computes the trimmed non-empty pieces between active separators; its quote flags are the state after the text so far |
| `ShellScan.HasUnsupportedShellConstructs` | internal/agent/policy.go:352-400 | true exactly if an unescaped construct outside the quotes that disable it is there; its quote flags are the same state |
| `ShellSegments.PiecesAreLossless` | internal/agent/policy.go:299-346 | pieces and separators in turn are the whole text, and only the six separators are cut out |
| `ShellSegments.SegmentHasNoActive` | internal/agent/policy.go:278-350 | a segment scanned on its own from the beginning has no active separator, is not empty and is trimmed |
| `ShellSegments.ResplitIff` | internal/agent/policy.go:278-350 | splitting a segment again gives that segment if and only if it has no carriage return before a line feed |
| `ShellSegments.ResplitCanChange` | internal/agent/policy.go:279 | a quoted carriage return for which it does not |
| `ShellSegments.ScannersAgree` | internal/agent/policy.go:278-400 | a command has an unsupported construct if and only if one of its segments, on its own, has one |
| `BashPolicy.CompileEnabledBashRules` | internal/agent/policy.go:242-261 | the enabled rules in order, or the first enabled one whose pattern does not compile |
| `BashPolicy.MatchCompiledBashRule` | internal/agent/policy.go:263-271 | the first rule that matches |
| `BashPolicy.FirstMatchDecides` | internal/agent/policy.go:242-271 | matching the compiled rules finds the first enabled rule that matches, with its name and action, or says that none does |
| `BashPolicy.JudgeSegments` | internal/agent/policy.go:206-233 | allowed if and only if every segment is allowed by its first matching rule or by the default; a denial names the first segment that is not, and the rule |
| `BashPolicy.EvaluateBashPolicyResolved` | internal/agent/policy.go:170-234 | every outcome explained: tool off, unreadable input, empty command, unsupported construct, broken pattern, decision |
| `BashPolicy.DisabledRulesDoNotMatter` | internal/agent/policy.go:242-248 | removing the disabled rules changes neither decision nor compilation |
| `BashPolicy.ReportedNameIff` | internal/agent/policy.go:254-258 | it keeps the reported name if and only if the rule has a name or no rule before it is disabled |
| `BashPolicy.ValidateToolPolicy` | internal/agent/policy.go:102-139 | drops exactly the unknown tools, lists exactly the problems there are, and accepts exactly the valid policies |
| `BashPolicy.ValidPolicyNeverFails` | internal/agent/policy.go:102-139 | an accepted policy never makes an evaluation fail on a pattern |
| `OAuthRefresh.PresentedAtMostOncePerFailure` | internal/agentoauth/manager.go:225-274 | whatever any number of callers, the clock, logins, logouts and failing reads and writes of the store do, a refresh token is presented at most once more than it failed |
| `OAuthRefresh.NoTokenTwice` | internal/agentoauth/manager.go:225-274 | with refreshes and store writes succeeding, no token is presented twice |
| `OAuthRefresh.AtMostOneRefresh` | internal/agentoauth/manager.go:225-306 | one credential and an answer good to the end: its token is presented at most once; if the stored credential changed it was presented once and what is stored is not due |
| `OAuthRefresh.ExactlyOneRefresh` | internal/agentoauth/manager.go:225-306 | an expired credential causes exactly one refresh: as soon as one caller has returned, its token was presented exactly once, another credential that is not due is stored, and whoever returned has that one |
| `OAuthRefresh.LateCallerUsesRenewed` | internal/agentoauth/manager.go:242-259 | a caller that comes or looks again behind the refresh gets the new credential without another |
| `OAuthManager.Manager.EnsureValid` | internal/agentoauth/manager.go:225-274 | a whole call, with others running at every point where the code lets them, is a run of the protocol and keeps its invariant; what it returns is what the protocol returned to it |
| `OAuthManager.Manager.FirstLook` | internal/agentoauth/manager.go:234-247 | the look before the lock: an unreadable store, no credential, one that is not due, one without a token, or wait |
| `OAuthManager.Manager.SecondLook` | internal/agentoauth/manager.go:253-265 | the look behind the lock: only a credential that can be read and is still due is presented |
| `OAuthManager.Manager.SaveAnswer` | internal/agentoauth/manager.go:268-273 | the new credential is stored and returned, or neither |
| `SessionApi.Api.CreateSession` | internal/agent/api.go:1150-1240 | a whole call, with others running between its steps, is a run of the protocol and ends with the outcome it returns; with a dependable store it is a run of the reliable kind |
| `SessionApi.Api.LookUp` | internal/agent/api.go:1169-1190 | an active or stored session ends the request, for its owner as already existing, for others as a bad request |
| `SessionCreate.OneMakerIffSighted` | internal/agent/api.go:1169-1240 | a step leaves at most one request creating the session if and only if it does not go past an empty or unreadable store after an acceptance |
| `SessionCreate.CreatedOnceIffNeverBlind` | internal/agent/api.go:1150-1240 | the same for whole runs, whatever the store does |
| `SessionCreate.BlindIsAccepted` | internal/agent/api.go:1180-1240 | a request that does go past it is accepted too, next to the first |
| `SessionCreate.AcceptedAtMostOnce` | internal/agent/api.go:1150-1240 | with a reliable store, however requests for one ID interleave, at most one is accepted, all that succeed have the same user, and that is the stored owner |
| `SessionCreate.UnreliableStoreAcceptsTwice` | internal/agent/api.go:439-455 | a failed write and an eviction: two users are both accepted |
| `ProviderCache.KeyTextInjective` | internal/agent/provider_cache.go:120-129 | configs with the same key text are equal in all four fields |
| `ProviderCache.HashedKeysDistinguish` | internal/agent/provider_cache.go:120-129 | with an injective hash, different configs have different keys |
| `ProviderCache.Cache.EvictIfFull` | internal/agent/provider_cache.go:109-116 | a full cache loses one entry, whichever; any other keeps all |
| `ProviderCache.Cache.Set` | internal/agent/provider_cache.go:47-56 | the entry is stored for exactly this config, at most one other is lost, and the size stays within the maximum |
| `ProviderCache.Cache.GetOrCreate` | internal/agent/provider_cache.go:59-88 | a hit returns what was stored for exactly this config; a miss stores what was created, an error nothing |
| `ProviderCache.Cache.Invalidate` | internal/agent/provider_cache.go:91-96 | removes this config's entry and no other |
| `ProviderCache.Cache.InvalidateAll` | internal/agent/provider_cache.go:99-103 | removes all |
| `HistoryCsv.RenderHistoryCsv` | internal/cmd/history.go:471-488 | the output is the header line and one line of six escaped fields per run |
| `HistoryCsv.CsvRoundTrip` | internal/cmd/history.go:471-519 | reading the output by section 2 of RFC 4180 gives back every row and every field, whatever they contain |
| `HistoryCsv.ReadField` | internal/cmd/history.go:506-519 | an escaped field, with the separator behind it, reads back as the field |
| `SlugId.PatternIsValid` | internal/agent/slug.go:13-32 | whatever the slug pattern matches is a valid slug |
| `SlugId.ValidHasPattern` | internal/agent/slug.go:13-32 | and every valid slug matches it |
| `SlugId.GeneratedIsValid` | internal/agent/slug.go:38-43 | a generated slug is empty or valid |
| `SlugId.ValidIsFixed` | internal/agent/slug.go:38-43 | a valid slug is its own slug |
| `SlugId.UniqueId` | internal/agent/slug.go:51-75 | the result is the first unused of the base and the numbered candidates, or the last resort if all are taken; exactly when it is longer than 128 characters, when it is not new, and when it is a valid slug; with fewer than 999,999,999 existing IDs it is new and within 128 |
| `SlugId.TruncatedValidIff` | internal/agent/slug.go:56-58 | shortening a long slug leaves a slug if and only if the cut does not come right behind a hyphen |
| `CopilotBlock.InstallCopilot` | internal/cmd/ai.go:387-413 | the file built by the branches for no file, no marks and one pair of marks |
| `CopilotBlock.InspectMeans` | internal/cmd/ai.go:422-447 | counting and searching tell apart exactly: no marks, one ordered pair at these positions, anything else |
| `CopilotBlock.InstallWorksIff` | internal/cmd/ai.go:387-447 | an installation works if and only if the file is missing, has no marks or has one ordered pair |
| `CopilotBlock.InstalledParts` | internal/cmd/ai.go:402-413 | all text outside the old block is kept; a first installation adds only newlines around the block |
| `CopilotBlock.InstallIsIdempotent` | internal/cmd/ai.go:387-413 | content without marks leaves exactly one ordered pair, and a second installation changes nothing |
| `CopilotBlock.SecondInstallIff` | internal/cmd/ai.go:387-447 | a second installation leaves the file alone if and only if the content holds no marks |

## Left out

- A record file that does not exist yet: runs start from the new record that loading would write.
- `Duplicate`, which starts a new record with the templates of another: runs start without templates and get them by `CreateTask`.
- Overlap of two calls on one record: a command, tool call or reconcile pass is one step, ended by a failing write at any of its saves.
- The requesting user of most commands, the audit notes, and timestamps that no guard reads.
- Stored task states other than open and done, and times missing from a stored list, which are filled in.
- OAuthManager.Manager.SecondLook: a credential without a token is refused here at once; the source still calls the provider, which refuses it before anything is sent.
- SessionStream.StreamIsGapless: a reactivated session starts at the highest stored number; the source falls back to the number of messages if the store cannot tell it, which is not modelled.
- Prompt texts, message builders and the transcript of a reflection: any text.
- A second loop of the same session: `clearLoop` does not check which loop it clears; one loop's life is modelled.
- External messages in the middle of a turn: they arrive between turns, as do changes of provider and prompt; a loop keeps one prompt here.
- Sequence numbers the loop keeps for display and its usage totals.
- `Subscribe` without a snapshot, which draws its number outside the lock and has no caller in the service.
- Several IDs or providers at once: the lock, the claim and the session maps are modelled for one of each, since different keys do not meet.
- Deletion of stored sessions; sessions are only evicted from memory and taken up again.
- ProviderCache.Cache.GetOrCreate: takes the two looks under the read and the write lock as one, because the second repeats the first.
- A provider that answers a refresh with a token it issued before: it never does in the protocol, and a call takes such an answer for a refusal.
- Login flows before the code exchange, their expiry, and the parsing of redirect URLs.
- HistoryCsv.RenderRows: demands a header that needs no quoting, because the source's header is a constant of that kind.
- Lower-casing and blanks beyond ASCII in slugs, commands and task texts; a character stands for a byte.
- Matching by regular expressions and SHA-256: any predicate and any injective function.
- Formatting of status, time, duration and parameters in the history: any text.
- Reading and writing of files, HTTP and SSE, heartbeats, timers and logging.
- Queue dispatch, retry backoff, coordinator and worker wiring and the command line: mostly wrappers around stores or floating-point arithmetic.
