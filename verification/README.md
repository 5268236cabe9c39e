# Verified model of the agent runtime's protocols

A Dafny model of the parts of the runtime in which a mistake would be silent: small protocols run by several
threads under locks, and a few algorithms whose specification is not their text. Each module follows one source
file or one component of it.

- `ImportAudit` (with `Graphs` and `Ordering`): the strongly connected component finder of the kernel import audit,
  Tarjan's algorithm over shared index, low-link, stack and active structures.
- `EventBus`: event numbering, the bounded replay window, bounded subscriber queues and their overflow path, for the
  `Last-Event-ID` reconnection of Server-Sent Events (section 9.2 of the WHATWG HTML standard).
- `Control` and `ControlWait`: the external-control protocol, with delegation generations as fencing tokens, admission
  budgets, repeatable requests, crashes between two commits, and the condition-variable wait.
- `ConnectionStatus`: asynchronous probes fenced by future, generation and revision, with a last-good fallback.
- `WriterFailover`: the loop that shares one turn budget among provider attempts.
- `DesktopStartup`: the window's startup, with its lock, gate, deadlines and late reports.
- `Approvals` and `RunRegistry`: the durable decision on a shell command, its card in memory, the approval generation,
  tickets, the gate Stop shares with claims and spawns, and the stop flags of registered and unregistered runs.
- `WriterLease` and `ShellBarrier`: two barriers of the application context.
- `TypePrecision`: the alias fixed point of the dynamic-type gate.
- `Rescue`: materialising legacy chat rows.
- `RunawayGuard`, `ContextCompaction`, `ShellApproval` (with `Text`): loop detection, tool-group partitioning, and the
  printer and validators of shell commands.
- `Collections`: optional values and facts about finite sets that the others share.

## How the model is built

Code that changes things in place is a class with the source's fields. Where several threads meet, each lock section
is a function on a value that holds those fields and, where needed, history (events emitted, items taken, what became
of a record). The class's methods are proved to compute that function, and the main results are proved of every
sequence of such steps, so they hold of every interleaving of lock sections. Beside them each section has a statement of
exactly when it takes effect, what it then leaves behind and what it leaves alone. Collaborators that are not modelled are
parameters: the clock, the answers of callbacks, whether a thread could be started, SHA-256, integer parsing.

## Properties that do not hold as one would expect

Each is kept as the code has it, shown at an input or a run, and bounded by an exact condition.

- A subscriber queue of capacity 1 loses events silently; every other capacity never does
  (`EventBus.CapacityOneLoses`, `EventBus.SafeCapacities`).
- A replay answer can be incomplete without saying so when the cursor is 0 or nothing is retained
  (`EventBus.FreshCursorMisses`, `EventBus.EmptyWindowMisses`, `EventBus.ReplayHonestIff`).
- Creating a conversation whose derived id was imported from a UI session sets its generation back to 1, and a task
  that was fenced, and never cancelled, becomes dispatchable again (`Control.FenceReopens`); exactly when this cannot
  happen any more is `Control.FencedForeverIff`, `Control.RevokedForeverIff` and `Control.NeverDecreasesIff`.
- A UI takeover fails to revoke when a client has already used its request id, or when the service stops before its
  cancellations, which a repeated takeover does not make up for (`Control.UsedIdBlocksTakeover`,
  `Control.CutShortLeavesTask`, `Control.TakeoverRevokesIff`, `Control.RepeatedTakeoverIsIdle`).
- An operator's send is admitted in a conversation that is not delegated, and is then refused at dispatch
  (`Control.OperatorSendIsRefused`, `Control.DispatchIff`).
- `close` can leave an observer parked until its timeout: exactly one that is past its draining check
  (`ControlWait.CloseStrandsAnObserver`, `ControlWait.CloseStrandsIff`).
- A retry whose thread cannot be started may fail a newer startup, or replace its message
  (`DesktopStartup.SpawnFailureHitsNewerStartup`, `DesktopStartup.SpawnFailureIsFencedIff`).
- A Stop of everything does not stop a command whose verdict cannot be recorded, one whose card is not in memory yet,
  or, while closing, one that has no ticket yet (`Approvals.StopAllMisses`, `Approvals.StopAllIsFinalIff`).
- A Stop of one run does not stop a command of that run which was claimed while no card of the run is left, once the
  run has ended (`Approvals.StopMissesClaimed`, `Approvals.StopRunIsFinalIff`); and after a Stop that finds no run no
  command can be allowed (`Approvals.LateCommandIsRefused`).
- A card with an old stamp is not stopped by it: when it is allowed, its claim goes by the current generation
  (`Approvals.OldStampCanStillRun`, `Approvals.NeverPassesIff`).
- Merging two chat rows of one identity can change that identity, and can lose the larger sequence number
  (`Rescue.UncoveringExample`, `Rescue.MergeKeepsIdentityIff`, `Rescue.MaximumLost`, `Rescue.GroupHasMaximumIff`); so
  materialising is not idempotent in general (`Rescue.NotIdempotentInGeneral`), and the rows that can cause it are
  known exactly (`Rescue.HarmlessIff`).
- The comment on grouping says a stray tool message joins the previous call's group; that branch is never taken, since
  a call's group already holds the whole run of tool messages after it (`ContextCompaction.Group`).
- An event record is not stripped by its validator: a whole command that begins or ends with white space is accepted
  although no producer makes it (`ShellApproval.PaddedIsAccepted`, `ShellApproval.WholeIsProducedIff`).

## Model

| member | source | states |
|---|---|---|
| `ImportAudit.Components` | tools/kernel_import_audit.py:97-129 | for every graph whose edges stay inside its keys, the result lists exactly the strongly connected components of size at least two, each sorted and without repeats, the list sorted and without repeats |
| `ImportAudit.ComponentsAreUnique` | tools/kernel_import_audit.py:97-98 | that promise determines the result |
| `ImportAudit.ComponentFinder.Visit` | tools/kernel_import_audit.py:105-124 | a visit keeps the search invariant, leaves older stack and index entries alone, and reports exactly the components of the vertices it settles |
| `ImportAudit.ComponentFinder.Explore` | tools/kernel_import_audit.py:109-114 | after the loop over successors the low-link is attained by a reachable stack vertex and no edge out of the new stack part undercuts it |
| `ImportAudit.ComponentFinder.Enter` | tools/kernel_import_audit.py:106-108 | indexing and pushing a vertex starts a visit without settling anything |
| `ImportAudit.ComponentFinder.Follow` | tools/kernel_import_audit.py:110-114 | one successor, visited, still active or settled, extends what the low-link accounts for by that edge |
| `ImportAudit.ComponentFinder.Leave` | tools/kernel_import_audit.py:115-124 | both outcomes of the low-link test end the visit with the invariant and an exact report |
| `ImportAudit.ComponentFinder.Settle` | tools/kernel_import_audit.py:116-124 | the popped group is one component, reported when it has at least two members |
| `ImportAudit.ComponentFinder.PopGroup` | tools/kernel_import_audit.py:116-122 | pops exactly the stack from the source upwards and keeps `active` equal to the stack's elements |
| `ImportAudit.TopIsComponent` | tools/kernel_import_audit.py:115-122 | when low-link equals index, the top of the stack is exactly the strongly connected component of the source |
| `ImportAudit.VisitAll` | tools/kernel_import_audit.py:126-128 | after the outer loop every vertex is settled and the report is exact |
| `ImportAudit.Add` | tools/kernel_import_audit.py:62-65 | an import of a scanned module becomes one edge, with its line and the scope its counters select; nothing else is added, nothing is lost, and edges never leave the scanned modules |
| `ImportAudit.ScopeGraph` | tools/kernel_import_audit.py:135-138 | the graph has all modules as keys, is closed, and has exactly the edges whose scope is selected |
| `ImportAudit.WiderScopeKeepsCycles` | tools/kernel_import_audit.py:132-139 | every cycle of a narrower scope lies inside one cycle of a wider scope |
| `EventBus.EmitRetains` | codey/app/event_bus.py:93-98 | the replay buffer is always the contiguous last events, numbered as emitted |
| `EventBus.ReplayHonestIff` | codey/app/event_bus.py:123-164 | the answer is exactly the events after the cursor up to the cutoff, or a resync marker stamped with the cutoff, if and only if the cursor is not behind the cutoff, or something is retained and the cursor is above 0 or nothing has been forgotten |
| `EventBus.ReplayAnswers` | codey/app/event_bus.py:142-164 | the answer itself at every cursor and cutoff: exactly the rows after a cursor that the window reaches; the expired marker, with how many events are gone, if and only if the cursor is above 0 and behind the window; the cursor-ahead marker if and only if it is past the cutoff |
| `EventBus.CursorsClamped` | codey/app/event_bus.py:129-141 | a cursor is what was given but never below 0, and a cutoff stays between 0 and the last event |
| `EventBus.FreshCursorMisses` | codey/app/event_bus.py:148-164 | a fresh client and a window of one: the second of two events is returned as if it were all |
| `EventBus.EmptyWindowMisses` | codey/app/event_bus.py:148-164 | nothing retained: a client that has seen the first of two events is told there is nothing more |
| `EventBus.PutDelivers` | codey/app/event_bus.py:166-219 | for every capacity but 1 and every interleaving with the consumer: taken and queued ids stay strictly increasing and genuine, the new event is enqueued, and every missing event is covered by a marker after all smaller ids |
| `EventBus.PutLosesOldest` | codey/app/event_bus.py:166-219 | for every capacity of 2 or more and every schedule: items leave only from the front, those discarded each being the oldest queued; none is discarded unless the first attempt found the queue full, and then at most what was above the room for two; the event follows, behind a marker if anything overflowed |
| `EventBus.MarkerCounts` | codey/app/event_bus.py:193-202 | that marker says how many items were discarded since the last one |
| `EventBus.EvictLosesOldest` | codey/app/event_bus.py:187-192 | eviction discards the oldest items only, and no more than are above the room it makes |
| `EventBus.IdleOverflow` | codey/app/event_bus.py:187-219 | with an idle consumer and a full queue exactly the two oldest go, and the marker counts them |
| `EventBus.SmallPut` | codey/app/event_bus.py:186-219 | a queue of any other capacity discards nothing queued; at capacity 1 the event itself is lost, and counted, exactly when the consumer did not empty the queue in time |
| `EventBus.RunSound` | codey/app/event_bus.py:93-109 | every run of emits and gets keeps window and delivery intact |
| `EventBus.SafeCapacities` | codey/app/event_bus.py:183-213 | no silent loss over every run, exactly for capacities other than 1 |
| `EventBus.CapacityOneLoses` | codey/app/event_bus.py:187-213 | two emits into an idle queue of capacity 1 lose the second without a marker |
| `EventBus.ReconnectLosesNothing` | codey/app/event_bus.py:111-164 | replay up to the subscription's cutoff followed by the live queue is strictly increasing and accounts for each event after the cursor, by delivery or by a later marker |
| `EventBus.NoMarkerNoGap` | codey/app/event_bus.py:195-202 | without a marker on the way, every event after the cursor is there |
| `EventBus.EventSubscriber.ConsumerRuns` | codey/app/event_bus.py:61-67 | a consumer takes from the front, in order |
| `EventBus.EventSubscriber.PutNowait` | codey/app/event_bus.py:172-176 | appends unless the queue is full, and says which |
| `EventBus.EventBus.constructor` | codey/app/event_bus.py:70-76 | a new bus is valid, with nothing emitted |
| `EventBus.EventBus.Emit` | codey/app/event_bus.py:93-109 | the bus stays valid for all its subscribers at once: one more event logged, and each subscriber's queue is the delivery of that event |
| `EventBus.EventBus.Record` | codey/app/event_bus.py:95-98 | numbers the event and keeps the window |
| `EventBus.EventBus.Deliver` | codey/app/event_bus.py:104-109 | whoever was served up to the event before is served up to the one just recorded, all subscribers at once |
| `EventBus.EventBus.Broadcast` | codey/app/event_bus.py:104-109 | delivers to every subscriber, each under its own schedule, touching nothing else |
| `EventBus.EventBus.PutForSubscriber` | codey/app/event_bus.py:166-219 | one delivery with the consumer running between any two queue operations |
| `EventBus.EventBus.EvictOldest` | codey/app/event_bus.py:187-192 | the eviction loop, with the consumer racing it, computes the eviction that `EvictLosesOldest` bounds |
| `EventBus.EventBus.MarkAndRetry` | codey/app/event_bus.py:193-219 | marker, retry and the counter, with the consumer racing them |
| `EventBus.EventBus.Subscribe` | codey/app/event_bus.py:111-116 | the new queue is empty, its cutoff is the current number, and the others keep their guarantees |
| `EventBus.EventBus.Unsubscribe` | codey/app/event_bus.py:118-121 | removes that subscriber and no other |
| `EventBus.EventBus.ReplayEventsAfter` | codey/app/event_bus.py:129-164 | computes the answer that `ReplayAnswers` determines |
| `Control.EveryRunIsGood` | codey/app/control_service.py:49-87 | from an empty database, over every run whatever happens: at most one task per conversation and request id, every receipt of a send names it, and the delegated admissions of a generation are at most one plus the revisions of an entry of that generation; no task is ahead of its conversation unless a generation was lowered; and generations increase, with every entry's own budget kept, if and only if no step recreated a conversation |
| `Control.NextKeepsGood` | codey/app/control_service.py:49-87 | a command, UI action, dispatch or drain keeps that invariant if and only if it does not create a conversation that is already configured past generation 0 without a creation receipt |
| `Control.RunIsGoodIff` | codey/app/control_service.py:49-87 | the same over every run: a broken order stays in the log |
| `Control.RunKeepsBudget` | codey/app/control_service.py:214-219 | over every run, with no assumption at all, the delegated admissions of a generation fit the budget of an entry of that generation |
| `Control.NextKeepsBoundsIff` | codey/app/control_service.py:112-132 | a step keeps every task within its conversation's generation, if and only if it lowers none below a task |
| `Control.RunKeepsBounds` | codey/app/control_service.py:112-132 | no task is ahead of its conversation over every run that lowers no generation |
| `Control.RunKeepsRequests` | codey/app/control_service.py:67-82 | one task per request and the receipts that name it survive every run, with no assumption on ids |
| `Control.Commits` | codey/app/control_service.py:67-82 | every action is at most two durable commits, each sound where it is made, the second not a configuration entry; the first repeats or lowers a generation exactly when the action recreates |
| `Control.OrdinaryNeverRecreates` | codey/app/control_conversations.py:51-68 | as long as imported sessions carry UI ids, nothing is ever recreated |
| `Control.AdmitBudget` | codey/app/control_service.py:214-219 | an admission that passes the budget check keeps every generation within its budget |
| `Control.GenerationNeverDecreases` | codey/app/control_service.py:112-132 | over every run from any state a conversation's generation does not decrease, unless a step is the one that lowers it |
| `Control.StepLowersGenerationIff` | codey/app/control_service.py:160-178 | the exact step that lowers a generation: creating an id that is configured past generation 1 and has no creation receipt |
| `Control.NeverDecreasesIff` | codey/app/control_service.py:160-178 | a generation can never go down in any future, if and only if it is at most 1, or the id is not a derived one, or its creation has a receipt |
| `Control.FencedForever` | codey/app/control_service.py:310-321 | once the generation has passed a task's, dispatch refuses it, and cancels it unless draining, after every run from any state that does not lower the generation |
| `Control.FencedForeverIff` | codey/app/control_service.py:310-321 | a fenced task is refused in every future, if and only if it is of generation 0 or its conversation cannot be recreated; draining does not decide it, since a service can be activated again |
| `Control.FenceReopens` | codey/app/control_conversations.py:51-68 | for every derived id, a run from an empty database after which a task that was fenced and never cancelled is dispatchable again |
| `Control.DispatchIff` | codey/app/control_service.py:310-321 | after every run in which its conversation is not recreated, an admitted task may be dispatched if and only if the service is not draining, no newer generation was written, and the configuration it was admitted under is delegated and unexpired, as it is for every delegated caller's admission |
| `Control.OperatorSendIsRefused` | codey/app/control_service.py:310-321 | an operator's send to an imported conversation that nobody delegated is admitted and then refused at dispatch |
| `Control.DispatchDoes` | codey/app/control_service.py:310-321 | from any state: a user's task passes unless the service drains, a controlled one only under the current unexpired delegation; a refused one is asked to stop, unless the service drains, and nothing else changes |
| `Control.SendIsAdmittedIff` | codey/app/control_service.py:200-249 | a first send adds its task, under the current generation and with its receipt, if and only if the caller is an operator or the controller of a delegated conversation, names the current generation, the service is not draining, collaborators accept, and unless it is an operator time and budget are left; otherwise nothing changes, with the code of the reason |
| `Control.BudgetIsUsable` | codey/app/control_service.py:214-219 | of any number of new requests of the controller exactly as many are admitted as the budget has left |
| `Control.CreateIff` | codey/app/control_service.py:160-178 | a creation makes a conversation that is delegated to the controller at generation 1 with the limits asked for, if and only if those are in range and collaborators accept |
| `Control.GrantIff` | codey/app/control_service.py:119-124 | a grant delegates again under a new generation, if and only if an operator asks, names the current one and stays in range |
| `Control.PauseStopsExactly` | codey/app/control_service.py:125-130 | a pause takes effect if and only if the caller controls the conversation or is an operator and names the current generation; it then stops exactly the unfinished controlled tasks of that conversation below the new generation, up to the point where the service stopped, and every other task is as it was |
| `Control.RepeatedPauseStopsExactly` | codey/app/control_service.py:70-77 | a repeated pause stops exactly the same kind of tasks and writes nothing |
| `Control.TakeoverStopsExactly` | codey/app/control_service.py:323-336 | a takeover stops exactly those tasks too, and does nothing to a conversation that is not delegated or whose request id is used |
| `Control.AdoptIff` | codey/app/control_conversations.py:51-68 | a UI session is adopted once, as nobody's delegation |
| `Control.OthersDo` | codey/app/control_service.py:43-47 | a task that ends, and a service that drains or is activated, change nothing else; what only the UI does is refused as a command |
| `Control.RunKeepsTasks` | codey/app/control_service.py:259-263 | tasks keep their conversation and lease, and cancellation is never taken back |
| `Control.DrainedAdmitsNothing` | codey/app/service.py:126-141 | a draining service that is not activated again goes on draining and admits no controlled task |
| `Control.RunKeepsLog` | codey/durable/control.py:49-58 | configuration entries are only appended |
| `Control.PauseRevokes` | codey/app/control_service.py:125-130 | a pause that answers, first or repeated after a stop at any point of its cancellations, leaves every earlier-generation controlled task terminal or cancelled |
| `Control.RevokedForever` | codey/app/control_service.py:259-269 | and so they stay over every run that does not lower the generation |
| `Control.RevokedForeverIff` | codey/app/control_service.py:259-269 | a revocation holds in every future, if and only if it reaches no further than generation 0 or the conversation cannot be recreated |
| `Control.DrainedStaysRevoked` | codey/app/service.py:126-141 | it also holds while the service drains |
| `Control.TakeoverRevokesIff` | codey/app/control_service.py:323-336 | a takeover of a delegated conversation ends the delegation if and only if its request id is unused; every earlier task is then cancelled if and only if the service did not stop before considering all that were unfinished |
| `Control.RepeatedTakeoverIsIdle` | codey/app/control_service.py:328-330 | a takeover cut short is not repaired by another, which changes nothing; what it left is refused at dispatch |
| `Control.UsedIdBlocksTakeover` | codey/app/control_service.py:331-333 | a send called `takeover_2` blocks the takeover of generation 1 |
| `Control.CutShortLeavesTask` | codey/app/control_service.py:333-334 | a takeover that stops before its first cancellation leaves a task uncancelled |
| `Control.SendIsIdempotent` | codey/app/control_service.py:200-210 | repeating a send, after any run whatever, admits nothing and answers with the first run; it always answers if the first did, and after a crash exactly when it is not cut short, its caller is still known, and no other request took the id |
| `Control.RunKeepsReceipts` | codey/durable/control.py:49-58 | receipts are written once: over every run what was answered stays recorded as it was |
| `Control.AnswerIsRepeated` | codey/app/control_service.py:70-77 | every command that was answered can be repeated after any run: it writes nothing and is answered as before; only a pause may still stop tasks |
| `Control.OtherContentIsRefused` | codey/durable/control.py:32-46 | the id of an answered request, with another caller or other content, is refused after any run and changes nothing |
| `Control.OtherSendIsRefused` | codey/app/control_service.py:205-208 | so is a send whose request was admitted with other content or for another caller, even before it has a receipt |
| `Control.OnlyItem` | codey/app/control_service.py:202-209 | the admitted task is the only one its request id finds |
| `Control.ControlService.Run` | codey/app/control_service.py:49-87 | one command on the fields computes the step the lemmas are about, keeps one task per request, and keeps the whole invariant exactly when it does not recreate |
| `Control.ControlService.Mutate` | codey/app/control_service.py:112-132 | the branches of a mutation |
| `Control.ControlService.SendInput` | codey/app/control_service.py:200-249 | computes the send that `SendIsAdmittedIff` decides |
| `Control.ControlService.CountGeneration` | codey/app/control_service.py:216-217 | counts exactly the controlled tasks of the conversation in that generation |
| `Control.ControlService.CancelEarlier` | codey/app/control_service.py:259-269 | the pass over all tasks computes the cancellations that `PauseStopsExactly` determines |
| `Control.ControlService.GetItem` | codey/app/control_service.py:205-205 | finds the task of a request id if there is one |
| `Control.ControlService.Find` | codey/durable/control.py:20-29 | the newest configuration entry |
| `Control.ControlService.Write` | codey/durable/control.py:49-58 | a receipt and an optional entry in one commit |
| `Control.ControlService.Takeover` | codey/app/control_service.py:323-336 | the takeover on the fields, stopped at any point of its cancellations, keeping the invariant |
| `Control.ControlService.Permits` | codey/app/control_service.py:310-321 | the dispatch check on the fields, with its cancellation |
| `ControlWait.RunKeepsInv` | codey/app/control_service.py:281-308 | the wait invariant over every interleaving of observers, commits, publications, timeouts and close |
| `ControlWait.ParkedMissesNothing` | codey/app/control_service.py:289-306 | a parked observer's sequence is the current one and its snapshot has every published commit |
| `ControlWait.PublishWakesAll` | codey/app/control_service.py:37-41 | a publication leaves nobody parked |
| `ControlWait.PublishIff` | codey/app/control_service.py:37-41 | a commit moves the sequence by one exactly while the service is subscribed, and disturbs nobody who does not wait |
| `ControlWait.EntersIff` | codey/app/control_service.py:286-287 | a caller is let in exactly while fewer than 16 are inside |
| `ControlWait.DecidesIff` | codey/app/control_service.py:296-306 | an observer leaves, with its slot, exactly with a reason or a draining service; otherwise it parks exactly if nothing was published since it looked |
| `ControlWait.LeavesWithin` | codey/app/control_service.py:288-308 | every observer inside can leave within five sections of its own |
| `ControlWait.SlotsConserved` | codey/app/control_service.py:286-308 | free slots and observers inside always add up to 16, on every exit |
| `ControlWait.CloseStrandsIff` | codey/app/control_service.py:43-47 | after a close that no activation follows, the observers that can be parked are exactly those that were past the draining check with the current sequence |
| `ControlWait.ActivatedCanPark` | codey/app/service.py:126-135 | draining alone excludes nobody: once the service is activated again every observer inside can park |
| `ControlWait.CloseStrandsAnObserver` | codey/app/control_service.py:43-47 | an interleaving that leaves an observer parked after the service has closed completely |
| `ConnectionStatus.EveryRunIsConsistent` | codey/app/connection_status.py:95-116 | in every run, last-good data belongs to the current revision, a ready status carries data of a success at that revision, and no probe publishes twice |
| `ConnectionStatus.SupersededForGood` | codey/app/connection_status.py:153-158 | a probe that is not current never is again |
| `ConnectionStatus.SupersededChangesNothing` | codey/app/connection_status.py:148-166 | such a probe changes nothing, whenever it finishes and whatever its publisher presents |
| `ConnectionStatus.Supersedes` | codey/app/connection_status.py:199-201 | a newer submit, an observation and close supersede |
| `ConnectionStatus.CurrentPublishes` | codey/app/connection_status.py:159-166 | a current probe publishes once; it shows its result, or, when it failed after an earlier success of this revision, that one's data as stale; no other provider changes |
| `ConnectionStatus.SubmitStarts` | codey/app/connection_status.py:95-116 | a submit starts a new current probe unless one of this revision still runs; a ready status of the same revision goes on being shown as stale, a new revision starts from nothing, and no other provider changes |
| `ConnectionStatus.ObserveShows` | codey/app/connection_status.py:196-206 | an observation is what is shown from then on, becomes or ends the last success, and leaves no probe current |
| `ConnectionStatus.CompleteRecords` | codey/app/connection_status.py:118-146 | a probe finishes once, with its first result |
| `ConnectionStatus.UndisturbedShows` | codey/app/connection_status.py:95-166 | undisturbed, what a probe found is shown and becomes the last success |
| `ConnectionStatus.CloseFreezes` | codey/app/connection_status.py:243-249 | after close nothing that is shown changes, over every run |
| `ConnectionStatus.CloseForgets` | codey/app/connection_status.py:243-249 | close forgets every probe and keeps what is shown |
| `ConnectionStatus.WaitForAgreesWithCallback` | codey/app/connection_status.py:219-233 | whatever happens between the late reads of `wait_for` and its publication, it publishes exactly what the callback would |
| `ConnectionStatus.CallbackPublishesIff` | codey/app/connection_status.py:148-166 | at any later time the callback changes the state if and only if its future is current and done and the coordinator is open |
| `ConnectionStatus.SecondPublisherIsIdle` | codey/app/connection_status.py:154-166 | after one of the two publishers the other changes nothing |
| `ConnectionStatus.Coordinator.SubmitProbe` | codey/app/connection_status.py:95-116 | the submit section on the dictionaries |
| `ConnectionStatus.Coordinator.PublishResult` | codey/app/connection_status.py:148-166 | the publish section on the dictionaries |
| `ConnectionStatus.Coordinator.ObserveCatalog` | codey/app/connection_status.py:196-206 | the observation section on the dictionaries |
| `ConnectionStatus.Coordinator.Shutdown` | codey/app/connection_status.py:243-249 | closes once and forgets the futures |
| `WriterFailover.Runner.Run` | codey/agents/writer_failover.py:113-161 | every attempt is offered at least one turn, exactly what the budget has left; another attempt starts only while turns are left; reported turns are the charges cut at the budget, and when attempts stay within their turns the charges never exceed it and nothing is cut; attempts are at most one more than the switches made, targets are new and pairwise distinct, and on failure every handle opened is closed. It fails only when the turns are spent, the switches are used up or the selection has just answered none; it is cancelled or raises only when its last callback did; and a provider it finishes with after a switch was connected and not refused by its canary |
| `WriterFailover.Runner.Attempts` | codey/agents/writer_failover.py:130-161 | the loop of attempts, with the same account of why it ends |
| `WriterFailover.Runner.Report` | codey/agents/writer_failover.py:144-161 | a success is recorded and reported, unless recording it raises |
| `WriterFailover.Runner.TryOnce` | codey/agents/writer_failover.py:130-161 | one attempt by its outcome: what is charged, who is tried and closed, and when another attempt follows |
| `WriterFailover.Runner.Conclude` | codey/agents/writer_failover.py:144-161 | a success is charged and reported, cut at the budget; a stop or another exception is not charged |
| `WriterFailover.Runner.SettleFailure` | codey/agents/writer_failover.py:146-156 | a failed attempt is charged at least one turn; another follows with a healthy provider, or the run ends because the turns are spent or nothing is left to try |
| `WriterFailover.Runner.ReplaceProvider` | codey/agents/writer_failover.py:147-153 | the failed provider is tried and closed, unless recording the failure raised; it gives up exactly then, when the turns are spent, or when nothing is left to try, and otherwise a healthy provider takes over |
| `WriterFailover.Runner.ActivateNext` | codey/agents/writer_failover.py:190-220 | ends with a healthy provider not tried before, within the switch limit; cancelled, when connecting was; with a callback's exception, when the last one raised; or failed, only when the switches are used up or the selection has just answered none; without a provider every handle opened is closed |
| `WriterFailover.Runner.TryCandidate` | codey/agents/writer_failover.py:198-220 | one candidate by what each callback does, including those that raise: which is selected, how it ends, and when another is tried |
| `WriterFailover.Runner.ConnectCandidate` | codey/agents/writer_failover.py:204-220 | connecting and probing it: ready exactly if the connection succeeds, the canary is not refused and nothing raises |
| `WriterFailover.Runner.Probe` | codey/agents/writer_failover.py:215-220 | healthy exactly if the canary is not refused and neither it nor the checkpoint raises; an exception leaves the handle open and current |
| `WriterFailover.Runner.InitialReconnect` | codey/agents/writer_failover.py:163-188 | reconnects whenever the connection succeeds, and otherwise goes through the same switch path |
| `WriterFailover.Runner.CloseCurrent` | codey/agents/writer_failover.py:222-226 | the current handle is closed once and forgotten |
| `WriterFailover.Runner.constructor` | codey/agents/writer_failover.py:94-111 | a new runner meets the resource invariant |
| `DesktopStartup.EveryInterleaving` | codey/app/desktop_startup.py:50-211 | a failed startup has no address and navigates nowhere, an address belongs to the current identity, and each identity is loaded at most once |
| `DesktopStartup.RunKeepsInv` | codey/app/desktop_startup.py:101-211 | the invariant behind it, over every interleaving |
| `DesktopStartup.UndisturbedLoads` | codey/app/desktop_startup.py:135-184 | whenever a shown window's startup may begin and is left alone, exactly its own identity is loaded |
| `DesktopStartup.RunKeepsWatched` | codey/app/desktop_startup.py:75-82 | over every interleaving, a startup that waits for the window or for the page has a deadline |
| `DesktopStartup.WaitingEnds` | codey/app/desktop_startup.py:84-89 | so none waits for ever: the deadline that is armed fails it, with its message |
| `DesktopStartup.FailureIff` | codey/app/desktop_startup.py:91-99 | a failure of the current startup of an open window ends whatever it was waiting for, with at most 2000 characters of its message; any other changes nothing |
| `DesktopStartup.ReportsFail` | codey/app/desktop_startup.py:84-211 | an expired deadline, a page's report, an error of navigation and one of preparation are such failures of the current startup |
| `DesktopStartup.ReadyEndsWait` | codey/app/desktop_startup.py:198-204 | after the report that the page is ready no deadline and no late report changes anything |
| `DesktopStartup.BeginsIff` | codey/app/desktop_startup.py:135-155 | a startup begins if and only if the window is open, it is the first or follows a failure, nothing is being prepared, and the deadline it needs could be armed; it shows nothing of an earlier one |
| `DesktopStartup.DeliversIff` | codey/app/desktop_startup.py:101-120 | an address is handed over if and only if the window is open, shown and bound and nothing failed or navigates; a new deadline then runs |
| `DesktopStartup.ShowAndClose` | codey/app/desktop_startup.py:50-67 | a shown window no longer waits to be shown, and a closed one waits for nothing |
| `DesktopStartup.GateIsGivenBack` | codey/app/desktop_startup.py:161-196 | a run gives the gate back once, when it is done or its thread could not start, and sets the address exactly while it is current and nothing failed |
| `DesktopStartup.GateFreezesTrace` | codey/app/desktop_startup.py:135-163 | while the gate is held the trace does not change and is the holder's |
| `DesktopStartup.StaleIsIgnored` | codey/app/desktop_startup.py:84-99 | results, deadlines and reports of an older identity or token change nothing shown |
| `DesktopStartup.ReplacedForGood` | codey/app/desktop_startup.py:176-211 | a replaced startup stays without effect for the rest of the session |
| `DesktopStartup.SpawnFailureIsFencedIff` | codey/app/desktop_startup.py:186-196 | a retry's failure to start its thread affects only its own startup exactly when that is current, or the window is closed, or the current one has failed with the same message |
| `DesktopStartup.SpawnFailureHitsNewerStartup` | codey/app/desktop_startup.py:191-194 | an interleaving in which it fails a newer startup |
| `DesktopStartup.Startup.BeginRun` | codey/app/desktop_startup.py:135-155 | the begin section, and that success means this call took the gate |
| `DesktopStartup.Startup.EndRun` | codey/app/desktop_startup.py:178-183 | the final section of a run |
| `DesktopStartup.Startup.DeliverPage` | codey/app/desktop_startup.py:101-133 | claims the address once and arms the deadline |
| `DesktopStartup.Startup.Fail` | codey/app/desktop_startup.py:91-99 | fails the current identity only, with the message cut to its length |
| `DesktopStartup.Startup.ArmDeadline` | codey/app/desktop_startup.py:75-82 | a fresh token for the current identity |
| `DesktopStartup.Startup.ExpireDeadline` | codey/app/desktop_startup.py:84-89 | acts only on the armed token |
| `DesktopStartup.Startup.ReportReady` | codey/app/desktop_startup.py:198-204 | acts only on the navigating identity |
| `DesktopStartup.Startup.ReportFailed` | codey/app/desktop_startup.py:206-211 | acts only on the navigating identity |
| `Approvals.FateIsFinal` | codey/app/approval_registry.py:38-41 | a card leaves memory at most once: decided, taken by a claim, expired, replaced or lost with the process |
| `Approvals.RunKeepsInv` | codey/app/approval_registry.py:24-41 | over every run, restarts included: the cards in memory are exactly those still waiting, none stamped ahead; every ticket, gate holder and spawn belongs to one claim of an allowed approval |
| `Approvals.SpawnedOnceIfAllowed` | codey/app/shell_approval_workflow.py:290-330 | an approval is spawned at most once, and only if somebody allowed it |
| `Approvals.DecisionIsFinal` | codey/durable/model.py:192-214 | no approval is forgotten or changes hands; denied, abandoned and settled are final, and what was claimed is never claimed again |
| `Approvals.AcceptDecides` | codey/app/shell_approval_workflow.py:290-330 | a verdict, allowing or denying, takes effect if and only if the gate is free, nothing else stands against it, the approval is undecided and its run is not stopped: it is durable, and that card and no other is gone |
| `Approvals.DeniedForGood` | codey/app/shell_approval_workflow.py:321-329 | a denied command is not run in any future |
| `Approvals.AddPutsCard` | codey/app/approval_registry.py:32-36 | a card is added with the current generation, in the place of an older one of its approval |
| `Approvals.ClaimIff` | codey/app/context.py:674-699 | a claim is durable if and only if the approval is allowed and nothing stands against it |
| `Approvals.MintTakesCard` | codey/app/approval_registry.py:38-41 | the claim takes the card and gives the gate back, whether or not it yields a ticket |
| `Approvals.CheckUsesTicket` | codey/app/shell_service.py:377-383 | a check uses the ticket up, and the spawn may follow exactly if it passes |
| `Approvals.SettleIff` | codey/durable/model.py:192-214 | a claimed approval is settled exactly when it holds no ticket and not the gate |
| `Approvals.RestartKeepsOnlyLog` | codey/app/shell_approval_state.py:301-313 | after a restart only decisions are left; what was claimed is never run, and what was not still can be |
| `Approvals.SpawnStepIff` | codey/app/shell_service.py:377-394 | a process is started exactly by the spawn that follows a check that passed |
| `Approvals.CanBeSpawnedIff` | codey/app/shell_service.py:377-394 | a command that was not started can be in some future, if and only if it holds the gate for that, is undecided or allowed, or was claimed and has a licence of the current generation |
| `Approvals.GenerationNeverGoesBack` | codey/app/approval_registry.py:24-30 | while the process lives the generation does not go back |
| `Approvals.SelectedExactly` | codey/app/approval_registry.py:79-101 | an expiry takes exactly the matching records and keeps the others, once each |
| `Approvals.SelectedConcat` | codey/app/approval_registry.py:79-101 | in their order |
| `Approvals.ExpireTakesCards` | codey/app/shell_approval_state.py:348-390 | an expiry takes exactly the cards it selects, and none when a verdict that is due cannot be recorded |
| `Approvals.FailsIff` | codey/app/shell_approval_state.py:371-388 | which is when an undecided approval with a selected card is among those that cannot be recorded |
| `Approvals.PassesCheckIff` | codey/app/shell_service.py:377-383 | a ticket passes the final check, at any time after it was minted, if and only if it is unused, the gate is free, the generation is still that of its claim, and the flag its run is answered with is clear |
| `Approvals.ClaimGetsTicketIff` | codey/app/context.py:666-699 | whatever comes between its two halves, a claim yields a ticket if and only if the generation is the one it goes by, the card's or else the current one, and that source's flag is clear; the ticket is for that source or for the approval's own run |
| `Approvals.NeverPassesIff` | codey/app/shell_service.py:377-383 | a command can never be spawned again, in any future, if and only if its decision is closed, or it was claimed and has no licence of the current generation; neither the stamp of its card nor a stop flag decides it |
| `Approvals.OldStampCanStillRun` | codey/app/shell_approval_state.py:348-390 | an expiry that moves the generation does not stop an undecided approval it does not select, although its card has the old stamp |
| `Approvals.StopAllIsFinalIff` | codey/app/context.py:533-563 | a Stop of everything is final for an approval, if and only if it was claimed or closed; or undecided, with its card in memory and its verdict recorded; or allowed and queued, with every due verdict and its own recorded; while closing it stops tickets only |
| `Approvals.StopAllMisses` | codey/app/shell_approval_state.py:384-388 | a Stop whose verdict cannot be recorded, one between a request and its card, and one while closing leave the command runnable |
| `Approvals.StopFlags` | codey/app/context.py:533-563 | a Stop waits for the gate, then raises the flag it is about whatever becomes of the cards; while closing it decides nothing |
| `Approvals.StopRunIsFinalIff` | codey/app/context.py:533-562 | a Stop of one run is final for an approval, if and only if it was closed; or undecided, of a known run while not closing, with one of the run's cards and its verdict recorded; or queued in the run's session with every verdict recorded; or claimed, with a ticket that was out of date or that the moved generation puts out of date |
| `Approvals.AbortIsFinalIff` | codey/app/task_abort.py:30-33 | when the end of a run that was cut short is final for an approval: under the same conditions without the run's flag |
| `Approvals.StopMissesClaimed` | codey/app/context.py:533-562 | a command claimed before its run ended passes the check after a Stop of that run |
| `Approvals.StoppedWhileRegistered` | codey/app/run_registry.py:90-93 | while a stopped run stays registered and nothing clears its flag, none of its tickets passes the check |
| `Approvals.LateCommandIsRefused` | codey/app/run_registry.py:108-111 | after a Stop that found no run, a later command cannot be allowed although nothing stopped it |
| `RunRegistry.FlagAfter` | codey/app/run_registry.py:90-147 | exactly how each step changes the flag every id is answered with |
| `RunRegistry.ReservesIff` | codey/app/run_registry.py:224-241 | a reservation registers the run, current and with its flag clear, if and only if the id was not cancelled, its session has no run, and no Stop is pending that it gives way to |
| `RunRegistry.ReleaseForgets` | codey/app/run_registry.py:285-291 | a release removes that run only; if it was current, the newest other one is |
| `RunRegistry.ReplaceHandsOn` | codey/app/run_registry.py:133-146 | the new id gets the registration, the flag and the turn of the old one |
| `RunRegistry.CancelledIsRefused` | codey/app/run_registry.py:100-107 | over every run a cancelled id is not admitted as long as not too many others are cancelled after it |
| `RunRegistry.OldestIsForgotten` | codey/app/run_registry.py:104-107 | and the bound is exact: the oldest of 4096 is forgotten with the next one |
| `RunRegistry.NextKeepsValid` | codey/app/run_registry.py:100-147 | the order lists each registered run once and the current run is registered when any is |
| `RunRegistry.Runs.Stop` | codey/app/run_registry.py:100-113 | sets the target's flag, or the admission flag when no run is named or current, and notes a named id |
| `RunRegistry.Runs.NoteCancelled` | codey/app/run_registry.py:104-107 | the newest 4096 ids are kept, oldest dropped first |
| `RunRegistry.Runs.Clear` | codey/app/run_registry.py:115-122 | clears the target's flag, or the admission flag when the target is not registered |
| `RunRegistry.Runs.Admit` | codey/app/run_registry.py:224-241 | admits exactly an id that is neither cancelled nor registered in a session without a run, and clears the admission flag |
| `RunRegistry.Runs.Drop` | codey/app/run_registry.py:285-291 | forgets the run with its flag and makes the newest other run current |
| `RunRegistry.Runs.ReplaceActive` | codey/app/run_registry.py:133-146 | another id takes over the registration and its flag |
| `RunRegistry.Runs.StopFlagFor` | codey/app/run_registry.py:90-93 | the run's own flag while it is registered, the admission flag otherwise |
| `Approvals.ApprovalRegistry.Add` | codey/app/approval_registry.py:32-36 | stamps the record with the current generation at the place its id has, or at the end |
| `Approvals.ApprovalRegistry.Pop` | codey/app/approval_registry.py:38-41 | removes and returns that record and no other |
| `Approvals.ApprovalRegistry.PopMatching` | codey/app/approval_registry.py:79-101 | the snapshot loop removes exactly the matching records, in order |
| `Approvals.ApprovalRegistry.ExpireResults` | codey/app/approval_registry.py:79-123 | and moves the generation when something expired or no filter was given, after which nothing is pending |
| `Approvals.ApprovalRegistry.ExpireRecorded` | codey/app/shell_approval_state.py:384-390 | when a due verdict cannot be recorded every record stays and is put out of date; otherwise the expiry |
| `WriterLease.OneWriterPerProject` | codey/app/context.py:261-298 | under every interleaving, and even if the store grants a lease twice: a release lies between two successful acquisitions of a project, table and callers hold exactly the leases not yet leaving, and no lease is forgotten or used again |
| `WriterLease.NextKeepsConserved` | codey/app/context.py:274-288 | every lock section and store call keeps that account and moves each lease only forward, from flight to the table, out of it and back to the store |
| `WriterLease.SectionsDecide` | codey/app/context.py:261-298 | a check lets an acquisition on exactly while the project is free, an installation wins exactly if it still is, and a release takes the project's lease |
| `WriterLease.ProjectWriters.InstallLease` | codey/app/context.py:281-287 | succeeds exactly when the lease enters the table; otherwise the lease is back and the table unchanged |
| `WriterLease.ProjectWriters.PopLease` | codey/app/context.py:294-298 | pops the project's lease, which is then given back |
| `WriterLease.ProjectWriters.Acquire` | codey/app/context.py:261-288 | an undisturbed acquisition succeeds exactly when the project is free and the store grants a lease |
| `ShellBarrier.DrainedForGood` | codey/app/context.py:1033-1055 | the counter counts the running executions, and once the barrier returned true after the shutdown flag none is or becomes registered, although the flag is set outside the condition |
| `ShellBarrier.BarrierDecides` | codey/app/context.py:1033-1055 | until shutdown is requested every execution may begin, afterwards none; the barrier returns exactly when the last one has ended |
| `ShellBarrier.ShellExecutions.Begin` | codey/app/context.py:1033-1039 | registers unless shutdown was requested, and says which |
| `ShellBarrier.ShellExecutions.End` | codey/app/context.py:1041-1045 | counts one fewer, never below zero |
| `TypePrecision.Aliases` | tools/kernel_type_precision_gate.py:50-70 | for every tree, and however its nodes are enumerated, the loop stops at the least set that holds the imported names and is closed under assignment aliasing; as many passes as there are nodes always suffice |
| `TypePrecision.OrderIsIrrelevant` | tools/kernel_type_precision_gate.py:61-67 | the least set does not depend on the order of the nodes |
| `TypePrecision.Pass` | tools/kernel_type_precision_gate.py:61-67 | one in-place pass stays below every closed set, and leaves the size alone only at a fixed point |
| `TypePrecision.Walk` | tools/kernel_type_precision_gate.py:52-52 | visits every node of the tree exactly as often as it occurs |
| `TypePrecision.CountMonotone` | tools/kernel_type_precision_gate.py:73-107 | more aliases never lower a count |
| `TypePrecision.DynamicIff` | tools/kernel_type_precision_gate.py:73-107 | a node is dynamic if and only if a chain of looks, each into a place the gate reads and with strings read as types where it does so, ends at a use of `Any` or of an alias |
| `TypePrecision.CountsIff` | tools/kernel_type_precision_gate.py:73-107 | one look of that chain |
| `TypePrecision.ContributionIff` | tools/kernel_type_precision_gate.py:62-67 | an assignment makes its named targets dynamic exactly if its value is, and nothing else makes a name dynamic |
| `TypePrecision.ImportedIff` | tools/kernel_type_precision_gate.py:51-57 | the names and modules that imports bring in, as they are bound |
| `TypePrecision.ContributionMonotone` | tools/kernel_type_precision_gate.py:62-67 | nor what an assignment adds |
| `TypePrecision.ContributionStaysBelow` | tools/kernel_type_precision_gate.py:62-67 | what an assignment adds is in every closed set above, so the order within a pass does not matter |
| `Rescue.Materialize` | tools/rescue_legacy_chats.py:70-86 | the loop over rows and positions computes the fold, or stops at an unreadable sequence number |
| `Rescue.MaterializeGroups` | tools/rescue_legacy_chats.py:70-86 | the result is every anonymous row and one row per key, at its first position, each the fold of its own key's rows |
| `Rescue.LeadersLead` | tools/rescue_legacy_chats.py:77-85 | those positions are in order and each is anonymous or the first of its key |
| `Rescue.LeadersComplete` | tools/rescue_legacy_chats.py:82-85 | none is missing |
| `Rescue.GroupHasMaximumIff` | tools/rescue_legacy_chats.py:80-81 | for readable numbers of any sign a key's row carries the largest, if and only if not: the first is negative, some row states none, and no row states one that is not negative |
| `Rescue.MaximumLost` | tools/rescue_legacy_chats.py:80-81 | two rows whose merge says -1 although the largest is 0 |
| `Rescue.MergeKeepsMaximumIff` | tools/rescue_legacy_chats.py:80-81 | a merge carries the larger number if and only if the newer row states one or the older is not negative |
| `Rescue.MergeKeepsIdentityIff` | tools/rescue_legacy_chats.py:37-40 | a merge of equal identities keeps it if and only if the newer row does not uncover an older id |
| `Rescue.UncoveringExample` | tools/rescue_legacy_chats.py:81-81 | two rows whose merge has another identity |
| `Rescue.MergeKeepsType` | tools/rescue_legacy_chats.py:76-81 | a merge of one type keeps it |
| `Rescue.MergeTakesNewer` | tools/rescue_legacy_chats.py:80-81 | a merge has every field of either row, the newer value where both have one |
| `Rescue.NumbersReadBack` | tools/rescue_legacy_chats.py:37-40 | the decimal text of a number in an identity reads back as the number |
| `Rescue.ScalarsAsInPython` | tools/rescue_legacy_chats.py:37-40 | what identities and sequence numbers rest on: exactly None, False, 0 and the empty text are falsy, and a falsy sequence counts as 0 |
| `Rescue.UnchangedIff` | tools/rescue_legacy_chats.py:70-86 | a list is returned as it is if and only if its identified rows have different keys |
| `Rescue.MaterializeIsIdempotent` | tools/rescue_legacy_chats.py:70-86 | idempotent on every list without a row that has a blank stream id, no id, and an event key that looks like a stream's |
| `Rescue.HarmlessIff` | tools/rescue_legacy_chats.py:70-86 | row by row that condition is exact: a row is harmless in every list whose other rows meet it, if and only if it meets it itself |
| `Rescue.NotIdempotentInGeneral` | tools/rescue_legacy_chats.py:70-86 | three rows on which a second pass would fold again |
| `RunawayGuard.BlocksIff` | codey/agents/runaway_guard.py:167-175 | blocks if and only if the last records up to the threshold agree on call and result, or are reads of one call, or for a period of two to four the last two periods repeat with no change in one edit epoch |
| `RunawayGuard.ExactRepeatIff` | codey/agents/runaway_guard.py:79-108 | the first half, for every threshold |
| `RunawayGuard.ExactRepeatSays` | codey/agents/runaway_guard.py:88-107 | which of the two reasons is given |
| `RunawayGuard.RepeatComesFirst` | codey/agents/runaway_guard.py:167-175 | a repeat is answered as such even when it is a cycle too |
| `RunawayGuard.FirstCycleIff` | codey/agents/runaway_guard.py:111-155 | the second half, for every range of periods and number of cycles |
| `RunawayGuard.PeriodicCycleIff` | codey/agents/runaway_guard.py:111-120 | and for every range and number that may be asked for, periods from 1 and at least two cycles |
| `RunawayGuard.FirstCycleSays` | codey/agents/runaway_guard.py:134-154 | the shortest stuck period is reported; stop exactly with a shell call in the window, re-read exactly with an edit and no shell call |
| `RunawayGuard.SlicesAgreeIffShiftPeriodic` | codey/agents/runaway_guard.py:130-132 | comparing slices with the first one is shift periodicity, for any number of cycles |
| `RunawayGuard.OnlyTheTailMatters` | codey/agents/runaway_guard.py:167-175 | the whole decision depends on the last eight records, or the threshold's if more |
| `RunawayGuard.LoopGoesOn` | codey/agents/runaway_guard.py:118-132 | a stuck history that continues the same way stays stuck |
| `RunawayGuard.ProgressEndsCycles` | codey/agents/runaway_guard.py:126-129 | a change or a new edit epoch ends every cycle |
| `ContextCompaction.Group` | codey/agents/context_compaction.py:23-52 | the two loops compute the grouping, and the stray-tool branch is never taken |
| `ContextCompaction.GroupingIff` | codey/agents/context_compaction.py:23-28 | the grouping is the one way to cut 0..n-1 into consecutive groups in which a call owns exactly the run of tool messages after it and anything else is alone |
| `ContextCompaction.CompleteIff` | codey/agents/context_compaction.py:55-72 | a group with calls is complete if and only if an assistant makes them, only tool results follow, no id is blank, and calls and results pair off one to one |
| `ContextCompaction.AloneCompleteIff` | codey/agents/context_compaction.py:58-62 | a message without calls is complete by itself unless it is a tool result or its calls are no list |
| `ContextCompaction.PairedIff` | codey/agents/context_compaction.py:72-72 | the comparison of sizes and sets is that one-to-one pairing |
| `ContextCompaction.AcceptedIff` | codey/providers/api_chat.py:82-84 | a history is accepted exactly when every group is complete |
| `ContextCompaction.AcceptedSplit` | codey/providers/api_chat.py:105-109 | cut between groups, both parts of an accepted history are accepted |
| `ContextCompaction.AcceptedConcat` | codey/providers/api_chat.py:78-84 | accepted histories can be joined |
| `ContextCompaction.CompactionKeepsPairing` | codey/providers/api_chat.py:105-109 | whole groups of an accepted history may be replaced by any accepted messages |
| `ContextCompaction.CheckpointKeepsPairing` | codey/providers/api_chat.py:112-113 | a span of whole groups may be replaced by a checkpoint message: every group but perhaps the last stays complete, and if all were, all are |
| `ContextCompaction.OpenIff` | codey/providers/api_chat.py:88-102 | what that means for an unfinished history: every group but the last is complete |
| `ContextCompaction.DroppingCanJoin` | codey/agents/context_compaction.py:36-43 | in a history that is not accepted, dropping a message can join a call and a stray result |
| `ShellApproval.PreviewFits` | codey/agents/shell_approval.py:381-389 | for every limit the preview fits; it is the command exactly when that fits, else as much of the marker as has room, after as much of the command as is left without the white space that would end it; length and digest are those of the command |
| `ShellApproval.ProducedIsAccepted` | codey/agents/shell_approval.py:232-248 | the event validator accepts what the producer makes, unchanged, for every command and limit |
| `ShellApproval.EventIff` | codey/agents/shell_approval.py:325-369 | an event is accepted if and only if it carries the whole command with its length and digest, or a bounded preview of a longer one that shows the marker of the digest it carries |
| `ShellApproval.EventErrors` | codey/agents/shell_approval.py:325-344 | an event that is not well typed is refused for the first field that is missing or of another type |
| `ShellApproval.EventContentErrors` | codey/agents/shell_approval.py:345-363 | and one that is, for the first of its bounds, its shape and its digest that does not hold |
| `ShellApproval.PendingIff` | codey/agents/shell_approval.py:287-322 | a pending record is accepted if and only if its fields are those recomputed from its command, which are returned |
| `ShellApproval.PendingErrors` | codey/agents/shell_approval.py:287-322 | and refused for the first thing that is wrong: a field it lacks, the type of one, a digest in another form, or a field that is not the recomputed one |
| `ShellApproval.AcceptedIsStable` | codey/agents/shell_approval.py:251-284 | what either path returns makes an event record that is accepted unchanged |
| `ShellApproval.WholeIsProducedIff` | codey/agents/shell_approval.py:355-367 | an accepted whole event is a producer's if and only if its command neither begins nor ends with white space |
| `ShellApproval.PaddedIsAccepted` | codey/agents/shell_approval.py:355-367 | a padded command is accepted as an event and made by no producer |
| `ShellApproval.DisplayFixesDigest` | codey/agents/shell_approval.py:345-359 | where there is room for a digest, equal displays carry equal digests |

## Left out

- ControlWait.RunKeepsInv: the wait is a state machine on values, since its loop spans three lock sections of two
  locks; the real clock is a nondeterministic timeout.
- Approvals.RunKeepsInv: the gate, the log and the tickets are modelled on values; the approval registry and the run
  registry are classes. Why a decision or a claim is refused other than by status, gate and flag is one condition.
- ControlWait.CloseStrandsIff: for futures in which the closed service is not activated again;
  `ControlWait.ActivatedCanPark` says what an activation would allow.
- ShellBarrier.DrainedForGood: the wait loop of the barrier is the step at which it returns true; a timeout changes
  nothing. That every execution ends once, after it began, is taken from its caller.
- Of the event bus: observers, and queue failures other than full.
- Of the control commands: stop_run, answer_question, record_review, steering, model preferences and the ownership tree
  of cancelled runs; fingerprints are their content, so collisions are not modelled.
- Of connection status: the age test of refresh, emitted events, and the executor.
- Of Writer failover: the contents of checkpoints, handoff text and failure records.
- Of desktop startup: the startup documents and the exceptions of the window other than failing to load.
- Of the writer lease: the empty project, path resolution, and `close` racing with a release.
- Of the type gate: parsing; a syntax tree is given, with the parsed form of each quoted annotation in it.
- Of chat rescue: the alignment of archive and UI rows, and files.
- Of the runaway guard: how fingerprints and records are made, and the wording of reasons.
- Of the API chat adapter: everything but the acceptance of a history and what may be replaced in it.
- Of shell approval: analysis of commands, deferred calls, and limits that are not integers.
- Request parsing, routing, persistence, prompts, providers, Git and the live tools.
