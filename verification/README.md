# Verified model of the agent core

A Dafny 4.11 model of the parts of nanoinfra that keep state over many steps: the transcript
and its repair, the runner, the per-session dispatch, the memory log with its consumers, and
the walks over records. `dafny verify dfyconfig.toml` checks everything.

How the files follow the program:

- `Transcript`, `Windows`, `Governance`, `Pairing`, `Preparation`: what it means for tool calls and
  results to pair, the passes that prepare a history for a provider, and what the prepared copy is.
  The passes are methods over message objects, proved against recursive rules on values.
- `SessionStore`, `TurnRecovery`: saving a turn and restoring an interrupted one, as methods of a
  session, and a state machine of turns that may fail, be cancelled or crash at any step.
- `Runner`: one turn as a class with the loop's counters, and what each iteration makes of its state.
  Provider, hooks and users are arbitrary functions of how often they were asked, tools of the iteration,
  the position and the call.
- `Dispatch`, `DispatchSafety`, `DispatchRuns`, `DispatchQueues`, `DispatchRouting`, `DispatchWitnesses`,
  `AgentLoop`: the interleavings of the loop and its tasks. One action is one stretch of code without an
  await. `DispatchQueues` is about the registry of tasks that a command can cancel, `DispatchRouting`
  about where a message goes and in which order it is served, `DispatchWitnesses` holds the concrete
  runs, and `AgentLoop` the loop's tables as fields, with the code that updates them in place proved
  equal to the actions.
- `MemoryLog`, `MemoryRuns`, `DreamRun`: the log, its cursor, compaction and Dream's batch as a class;
  every order of appends, compactions, Dream runs and crashes as a state machine; and one Dream
  run as the method it is, proved to be such a run.
- `Consolidation`, `Remembered`: batches, chunks, raw dumps, and how far a session may forget; and that
  the notes about what it forgot reach Dream.
- `Batching`, `Redaction`, `RedactionBatches`, `ScrubbedRecords`, `Withholding`, `WithheldRecords`:
  two-pass batching for every pure walk, the record walks, what a scrubbed record is, read from its
  fields, and what a record keeps when nobody scrubbed it.
- `RuntimeContext`, `Requirements`: the context behind a user's content, and the dependency search.

## What the proofs found

- A task cancelled before its first step never runs its cleanup (`nanoinfra/agent/loop.py:1744-1747`
  creates it, `nanoinfra/agent/loop.py:1270-1281` cancels it), so deferred automation turns of its session
  can wait with nobody left to publish them. `DispatchWitnesses.ATurnIsStranded` is such a run;
  `DispatchRuns.StrandedOnlyByUnstartedCancel` shows that nothing else strands one.
- `nanoinfra/agent/memory.py:756-761` and `nanoinfra/agent/memory.py:1022-1028` say that Dream can show a raw
  entry whole because its cap is the bound on a raw part. The entry also holds a header, so the end of a
  full part is cut (`Consolidation.RawEntryShownIff`).
- A save keeps one result per call id, a checkpoint restore one per call. So a session is well paired
  throughout a run exactly when no checkpoint that is restored repeats a call id or has an empty one
  (`TurnRecovery.PairedThroughoutIff`; `TurnRecovery.ADoubledIdUnpairs` is a run that fails). The governor
  repairs the history before each request.
- The band of the history file is not always kept (`MemoryRuns.OverBandAfterAppendIff`): not while the
  Dream cursor does not read, not while the records are few among lines that do not parse, since the band
  counts lines and compaction counts records, and not while Dream's backlog alone exceeds it. In each of
  these cases the file grows to any length (`MemoryRuns.SpoiledLogGrows`, `MemoryRuns.UnparsableLogStays`,
  `MemoryRuns.UnreadLogGrows`).
- The new-session command, when it runs as a turn, cancels its own task and takes it out of the registry
  (`nanoinfra/command/builtin.py:317-320`, `nanoinfra/agent/loop.py:1270-1281`); the cancellation is
  swallowed there and the turn runs on. A stop that comes now waits for nothing, takes the queue of that
  turn (`nanoinfra/command/builtin.py:223`), and the turn's cleanup finds it gone
  (`nanoinfra/agent/loop.py:1837-1840`). `DispatchWitnesses.AQueueIsTaken` is such a run;
  `DispatchQueues.StopFindsQueueIff` and `DispatchQueues.UnpublishedOnlyByStop` say exactly when.
  Exclusion, the bound of the gate and the conservation of messages hold there too.
- The dependency search looks at a version only on the first visit of a name and its extras
  (`nanoinfra/optional_features.py:134-143`). A true answer is exact if and only if the requirements that
  share a name and extras agree about the installed version
  (`Requirements.RequirementInstalled`, `Requirements.ALaterBoundIsPassedOver`).

## Model

| member | source | states |
|---|---|---|
| Preparation.PrepareForModel | nanoinfra/agent/context_governance.py:78-92 | Main result. For any history, estimators and budget: the copy is the cleaned history with every call paired, each result as the bound leaves it or as its notice, whole while it fits, else its system messages and the tail the budget dictates; the users' messages and the conversation go on from some position, in order, all of it where nothing is cut; a sound history that needs no shortening is its own copy. It is well paired, names every call, keeps system messages, shows earlier compactions as notices, and no message object of the history is written |
| Preparation.PreparedIsCopy | nanoinfra/agent/context_governance.py:78-92 | From the decisions of the passes to the copy: a cut through the shaped list is a cut through the paired history |
| Preparation.CopyKeepsConversation | nanoinfra/agent/context_governance.py:78-92 | In the copy the messages of users are those of the history, and those of users and assistants are those of the cleaned history, from some position on and in order; from the first where nothing is cut |
| Preparation.SoundStays | nanoinfra/agent/context_governance.py:78-92 | A well-paired history with named calls, no placeholder, results within their bound and nothing to compact or cut comes back equal |
| Preparation.CleanedOne | nanoinfra/agent/context_governance.py:142-232 | What each message becomes before pairing: anybody else's stays; an assistant's goes if it is the placeholder between white space, loses the calls that name no tool, and goes if nothing is left of it |
| Preparation.ValidCallsOne | nanoinfra/agent/context_governance.py:180-232 | Which calls name a tool: those with a name that is text and not empty, in order |
| Pairing.TwoRoundsPair | nanoinfra/agent/context_governance.py:82-92 | Dropping, backfilling and dropping again is one pass: each assistant message, the first result of each of its calls from the run directly after it, a synthetic one for each call without, and no other result |
| Pairing.AnswersOne | nanoinfra/agent/context_governance.py:235-265 | Of a run exactly the first result for each declared id is kept |
| Pairing.FillsOne | nanoinfra/agent/context_governance.py:268-316 | Exactly one synthetic result per id without one, with its id and the name of the call, in the order of the calls |
| Preparation.SecondRoundPairs | nanoinfra/agent/context_governance.py:84-92 | Whatever the passes between the two rounds did to contents and cut off, the second drop alone pairs the list and the last backfill inserts nothing |
| Preparation.FirstRoundKeeps | nanoinfra/agent/context_governance.py:79-83 | After the first round of any history every call has a result and a usable name, and system messages are kept |
| Preparation.FirstRoundIdentity | nanoinfra/agent/context_governance.py:79-83 | A well-paired history with named calls and no bare placeholder comes through the first round unchanged |
| Governance.StripPlaceholders | nanoinfra/agent/context_governance.py:142-177 | Returns the history without bare placeholder messages, and only objects it was given |
| Governance.StripMalformed | nanoinfra/agent/context_governance.py:180-232 | Returns the history with malformed calls dropped, and messages left empty by that dropped; all writes are to copies |
| Governance.DropOrphans | nanoinfra/agent/context_governance.py:235-265 | The loop computes the recursive drop rule on the values; returns only given objects |
| Governance.CollectGaps | nanoinfra/agent/context_governance.py:272-302 | The collecting loop finds exactly the missing results, at the end of each run |
| Governance.RunningOffsetIsBackfill | nanoinfra/agent/context_governance.py:268-316 | Inserting the collected results one by one with a running offset is the recursive rule: after each assistant's run, one synthetic result per unanswered call |
| Governance.BackfillMissing | nanoinfra/agent/context_governance.py:268-316 | The method in place equals that rule, and inserts only new objects |
| Governance.ApplyToolResultBudget | nanoinfra/agent/context_governance.py:318-337 | Changes only result contents, on fresh copies |
| Governance.ApplyRecordedCompactions | nanoinfra/agent/context_governance.py:476-496 | Every recorded result is shown as its notice, everything else as it was, on fresh copies |
| Governance.InflightCandidates | nanoinfra/agent/context_governance.py:498-518 | Exactly the candidates, oldest first |
| Governance.CompactInflightOverflow | nanoinfra/agent/context_governance.py:339-398 | With no assumption on the estimator: an over-budget call ends at most at the target, or within the budget with only the newest candidate spared, or with every candidate recorded; notices and recorded ids are exactly those of the candidates taken |
| Governance.KeepRecent | nanoinfra/agent/context_governance.py:421-432 | The kept tail is the longest that fits, and never empty |
| Governance.SnipHistory | nanoinfra/agent/context_governance.py:400-445 | Exactly when the list itself is returned; else, in fresh objects, the system messages and a tail found from the longest that fits what they leave of the budget: from the first user message in it, else from the latest before it, else from its start, and there from the earliest legal position |
| Governance.SnipComplete | nanoinfra/agent/context_governance.py:400-474 | Cutting a complete history anywhere leaves every remaining call with its result |
| Transcript.DropPairsComplete | nanoinfra/agent/context_governance.py:235-265 | Dropping orphans from a history in which every call has a result gives a well-paired one |
| Transcript.BackfillCompletes | nanoinfra/agent/context_governance.py:268-316 | After a backfill every call has a result directly after it |
| Transcript.PairedIffFixpoint | nanoinfra/agent/context_governance.py:91-92 | A list is well paired if and only if drop and backfill both leave it as it is |
| Transcript.BackfillIdentityIff | nanoinfra/agent/context_governance.py:268-316 | A backfill inserts nothing if and only if every call has its result |
| Transcript.BackfillIdempotent | nanoinfra/agent/context_governance.py:268-316 | Backfilling twice is backfilling once |
| Transcript.DropIdempotent | nanoinfra/agent/context_governance.py:235-265 | Dropping twice is dropping once |
| Transcript.DropKeepsTheRest | nanoinfra/agent/context_governance.py:235-265 | A drop removes tool results only and keeps the order |
| Transcript.BackfillKeepsAll | nanoinfra/agent/context_governance.py:268-316 | A backfill keeps every message, in order |
| Transcript.OneRoundIsNotEnough | nanoinfra/agent/context_governance.py:91-92 | One drop and backfill does not pair every history (concrete history) |
| Windows.FindLegalMessageStart | nanoinfra/utils/helpers.py:503-519 | The earliest start from which every result answers a call of the window |
| Windows.RecentMessageStartIndex | nanoinfra/utils/helpers.py:477-500 | Which start: the last messages up to the limit, or, where these hold no user message and one is asked for, the latest user message, with what a channel delivered just before it |
| Windows.VisibleIsUnique | nanoinfra/agent/memory.py:1202-1227 | The start of what the replay shows is determined by the messages and the limit |
| Windows.LegalShift | nanoinfra/utils/helpers.py:503-519 | What starts at a legal start is legal on its own |
| SessionStore.Session.OpenToolCallIds | nanoinfra/utils/helpers.py:561-583 | The loop computes the ids of the last assistant message that have no result |
| SessionStore.Session.Save | nanoinfra/agent/loop.py:2669-2752 | Message after message: each assistant message that says or asks something, each result that is waited for, each user message that is no empty list and every other message has its record, nothing else is added; a record differs in content at most, a result's text shortened, blocks stored one for one, an empty result marked as omitted |
| SessionStore.SavedIsUnique | nanoinfra/agent/loop.py:2669-2752 | What a save makes of a session is determined by these rules |
| SessionStore.EntryIsStored | nanoinfra/agent/loop.py:2596-2667 | The record of a message: shortened text, stored blocks, placeholder for an inline image, or the omission note exactly for a result of no block |
| SessionStore.OpenIsWaiting | nanoinfra/utils/helpers.py:561-583 | An id is open exactly when the last assistant message declares it and no result since answers it |
| SessionStore.Session.RestoreRuntimeCheckpoint | nanoinfra/agent/loop.py:2827-2946 | Appends what the session does not already end with, and clears both markers |
| SessionStore.Session.RestorePendingUserTurn | nanoinfra/agent/loop.py:2948-2967 | Closes a dangling user message with an error reply, and clears the marker |
| SessionStore.Overlap | nanoinfra/agent/loop.py:2902-2914 | The largest overlap of the session's end with the restored messages |
| TurnRecovery.RestoreIsShortest | nanoinfra/agent/loop.py:2815-2825 | The restored session is the shortest extension of itself that ends with the restored messages, alike in everything but the time |
| TurnRecovery.RestoredAre | nanoinfra/agent/loop.py:2840-2900 | What a checkpoint is restored as: its assistant message as it was, each completed result with shortened text and stored blocks, then the messages for the pending calls |
| TurnRecovery.InterruptedOne | nanoinfra/agent/loop.py:2881-2900 | One more pending call has one more message, with its id, its name or "tool", and the note that it was interrupted |
| TurnRecovery.ReplayAddsNothing | nanoinfra/agent/loop.py:2902-2914 | Replaying a checkpoint the session already ends with adds nothing |
| TurnRecovery.SaveKeepsPaired | nanoinfra/agent/loop.py:2669-2752 | Saving a turn in which every call has a result keeps a well-paired session well paired |
| TurnRecovery.SaveKeepsResults | nanoinfra/agent/loop.py:2669-2752 | Saving a well-paired turn loses no result |
| TurnRecovery.RepeatedIdsAreSavedOnce | nanoinfra/agent/loop.py:2724-2735 | A second result for one id is not saved |
| TurnRecovery.RestoredPairedIff | nanoinfra/agent/loop.py:2840-2900 | What an emitted checkpoint restores is well paired if and only if its call ids are distinct and not empty |
| TurnRecovery.OverlapIsWhole | nanoinfra/agent/loop.py:2902-2914 | A well-paired session overlaps a restored turn wholly or not at all |
| TurnRecovery.RestoreKeepsPairedIff | nanoinfra/agent/loop.py:2827-2946 | Restoring an emitted checkpoint into a well-paired session leaves it well paired if and only if its call ids are distinct and not empty |
| TurnRecovery.RestoredEndsClosed | nanoinfra/agent/loop.py:2827-2946 | A restored session does not end with a user message |
| TurnRecovery.EveryTurnRecovers | nanoinfra/agent/loop.py:2783-2967 | Main result. After any run of begins, early saves, checkpoints with any call ids, saves, finishes, failures, cancellations and crashes the next turn begins with both markers clear and no dangling user message |
| TurnRecovery.StepPairedIff | nanoinfra/agent/loop.py:2669-2967 | The exact condition for one step: a well-paired session, in memory and stored, stays so if and only if the step restores no checkpoint whose call ids repeat or are empty |
| TurnRecovery.PairedThroughoutIff | nanoinfra/agent/loop.py:2669-2967 | Main result. A session is well paired throughout a run if and only if every checkpoint the run restores has distinct and non-empty call ids |
| TurnRecovery.CrashPairedIff | nanoinfra/agent/loop.py:2827-2946 | A turn that crashed after any emitted checkpoint is restored well paired if and only if its call ids are distinct and not empty |
| TurnRecovery.ADoubledIdUnpairs | nanoinfra/agent/loop.py:2869-2900 | A concrete response that gives two calls one id, and a crash: the restored session is not well paired |
| Runner.Turn.RunCore | nanoinfra/agent/runner.py:451-909 | Main result. For every provider, tool, hook and user the turn ends, with at most 4 * max_iterations + 1 requests; one iteration follows the other exactly until one ends the turn, and when they run out the list closes with the last answer asked for, or the fallback; at most five injection cycles and three length-recovery parts; the initial messages stay but for the last; a completed turn ends with its final checkpoint |
| Runner.Turn.Iterate | nanoinfra/agent/runner.py:515-866 | One iteration, from the answer on, leaves the state that ToolsAreRun and TextIsTaken speak of, and asks at most four times |
| Runner.ToolsAreRun | nanoinfra/agent/runner.py:547-648 | Main result. An answer with calls that finished with tool_calls, function_call or stop joins the list, with one result per call, in order, as the tool gave it, and what users wrote after that; both checkpoints are written and the counters start anew unless a call fails; then the error of the earliest one closes the list, and the turn stops unless somebody wrote |
| Runner.TextIsTaken | nanoinfra/agent/runner.py:653-866 | Every other answer is taken as text |
| Runner.AnswerIs | nanoinfra/agent/runner.py:1086-1127 | Which answer an iteration goes by, from what the provider responds |
| Runner.ValidsAre | nanoinfra/agent/runner.py:1086-1127 | Of the calls of a response exactly those with a usable name are left, in order |
| Runner.FirstErrorIs | nanoinfra/agent/runner.py:1485-1494 | The error is that of the earliest call that failed, and none exactly if none did |
| Runner.Turn.RequestModel | nanoinfra/agent/runner.py:1086-1127 | Exactly when the request is repeated, which answer is returned, and without which calls |
| Runner.Turn.RunTools | nanoinfra/agent/runner.py:547-648 | The list and the two checkpoints of an executed response, and that a fatal error leaves out the second |
| Runner.Turn.TryDrainInjections | nanoinfra/agent/runner.py:272-331 | The loop goes on exactly when something is taken; the whole state after it |
| Runner.DrainIs | nanoinfra/agent/runner.py:272-331 | What that state is: what is taken and where it goes, when the assistant message and its checkpoint are written, and how the counters move |
| Runner.InjectionsAre | nanoinfra/agent/runner.py:195-230 | What is injected: exactly the messages of users that say something, with their content, in order |
| Runner.InjectedOne | nanoinfra/agent/runner.py:230-270 | One more injection merges with a last user message where the two may be merged, and is appended else |
| Runner.Turn.AppendInjected | nanoinfra/agent/runner.py:195-270 | The list after folding each injection into the last user message or appending it |
| Runner.InjectedKeepsTheRest | nanoinfra/agent/runner.py:195-270 | Injections touch the last message only; where nothing merges they are appended as they are |
| Runner.TextBecomes | nanoinfra/agent/runner.py:669-720 | When a blank answer asks for another round, when for a last request, and which text is taken; an error, a cut, a refusal and a filtered answer may be blank |
| Runner.AnswerBecomes | nanoinfra/agent/runner.py:722-866 | Which of four a text becomes, a request for the rest, a turn that goes on with what users wrote, a reply with its checkpoint, or an end that failed or was blank, which users can still revive; and the whole list after each |
| Runner.ClosingIs | nanoinfra/agent/runner.py:1780-1792 | A closing text is the last thing said, in the place of a last reply or after the list, and all before stays |
| Runner.ClosedIs | nanoinfra/agent/runner.py:822-866 | How a turn that failed, was blank or has a text closes its list |
| Runner.Turn.AppendFinalMessage | nanoinfra/agent/runner.py:1780-1792 | The whole list: the final text takes the place of a last reply that says something else, is appended where the list ends otherwise, and every earlier message stays |
| Runner.Turn.TakeAnswer | nanoinfra/agent/runner.py:722-866 | The method leaves the state that AnswerBecomes speaks of, and a turn that stops here ends with a reply |
| Runner.Turn.Conclude | nanoinfra/agent/runner.py:669-866 | The method leaves the state that TextBecomes speaks of; a completed turn ends with its checkpoint |
| Runner.Turn.CloseOut | nanoinfra/agent/runner.py:866-895 | Out of iterations: what waits is taken, and the closing text is the last answer, if one was asked for, did not fail, named no call and says something, else the fallback |
| Runner.PartitionToolBatches | nanoinfra/agent/runner.py:1800-1823 | The batches are the calls in order, none empty, and only concurrency-safe calls share one |
| Runner.ExecuteTools | nanoinfra/agent/runner.py:1445-1494 | However batched, the results come back in call order, with the earliest error |
| Runner.InOrderIsComplete | nanoinfra/agent/runner.py:553-628 | What a turn appends has a result for every call |
| Runner.TurnResults | nanoinfra/agent/runner.py:553-648 | A response and its results are in call order, and both checkpoints have the shape the restore expects |
| Runner.SavedTurnKeepsPaired | nanoinfra/agent/runner.py:451-909 | Saving whatever a turn appended keeps a well-paired session well paired |
| DispatchRouting.EachGoesWhereItBelongs | nanoinfra/agent/loop.py:1672-1747 | Main result. In every reachable state, where a message goes that the loop does not handle itself: while a turn of its session runs whose queue no stop took, an automation turn waits at the back, a command runs at once in every mode, other text joins the turn in the injecting mode while fewer than 20 wait; all else, and everything while no such turn runs, gets exactly one new task; and nothing else changes |
| DispatchRouting.RoutePlaces | nanoinfra/agent/loop.py:268-291 | The same for one step from any state |
| DispatchRouting.PriorityRunsAtOnce | nanoinfra/agent/loop.py:1678-1689 | A control or priority command is run at once whatever is active; a stop asks the registered tasks of its session to cancel and waits for these |
| DispatchRouting.SessionOf | nanoinfra/agent/loop.py:1283-1287 | The session of a message: the one it names, else the shared one where sessions are unified, else its route; the pinned message names it |
| DispatchRouting.DeferredInOrder | nanoinfra/agent/automation_turns.py:66-80 | Over every run the deferred turns of a session are served first come, first served |
| DispatchRouting.InjectedInOrder | nanoinfra/agent/loop.py:1725-1738 | Over every run a turn takes what was injected first come, first served; what it leaves is taken by a stop or put back whole |
| DispatchRuns.QueuesHoldTheirKind | nanoinfra/agent/loop.py:268-291 | What may be in a queue: in an injection queue plain text of its session that no schedule sent, in the injecting mode only; in a deferred queue automation turns of its session |
| Dispatch.Pinned | nanoinfra/agent/loop.py:1283-1287 | Writing the effective key into a message does not change its effective key |
| DispatchRuns.StepKeepsInv | nanoinfra/agent/loop.py:1651-1861 | Every action of every reachable state keeps the invariant of the protocol |
| DispatchRuns.OneTurnPerSession | nanoinfra/agent/loop.py:3049-3055 | Main result. In every reachable state no two tasks of one session hold its lock, and tasks refer to the same lock exactly when they are of the same session, whatever the weak map collected |
| DispatchRuns.GateBoundsTurns | nanoinfra/agent/loop.py:1751-1766 | At most the configured number of turns runs |
| DispatchRuns.QueueOwnerHoldsLock | nanoinfra/agent/loop.py:1762-1766 | A published queue belongs to the one running turn of its session, which holds its lock; it is never longer than 20 |
| DispatchSafety.NoOtherQueue | nanoinfra/agent/loop.py:1830-1845 | A turn that ends finds its own queue published or none: never another's |
| DispatchQueues.StepRegistry | nanoinfra/agent/loop.py:1744-1747 | Every action keeps what the registry of cancellable tasks says: a task out of it was asked to cancel, and one that runs on out of it took itself out, lives through a shutdown, or is being waited for |
| DispatchQueues.PublishedUnlessTaken | nanoinfra/agent/loop.py:1830-1845 | Main result. In every reachable state the queue of a running turn is published if and only if no stop took it, and a stop only ever takes it from a turn that ran the new-session command itself, or during a shutdown |
| DispatchQueues.StopFindsQueueIff | nanoinfra/command/builtin.py:216-228 | A stop that ends finds a queue if and only if a turn of its session runs that is out of the registry and has its queue; every such turn ran the new-session command itself, or a shutdown has begun |
| DispatchQueues.UnpublishedOnlyByStop | nanoinfra/command/builtin.py:216-228 | The exact condition for one step: from a reachable state in which every running turn has its queue published, a step leaves one without if and only if a stop ends while a turn of its session runs |
| DispatchQueues.StopFindsNothing | nanoinfra/command/builtin.py:216-228 | In a run with no new-session command inside a turn and no shutdown, no stop that ends finds a queue |
| DispatchWitnesses.AQueueIsTaken | nanoinfra/command/builtin.py:317-320 | A concrete run in which a stop takes the queue of a turn that runs on without one |
| DispatchSafety.TakeLocked | nanoinfra/agent/loop.py:1761-1766 | A task that takes a free lock is the only holder of its session |
| DispatchSafety.CollectCore | nanoinfra/agent/loop.py:3049-3055 | Collecting an unreferenced lock changes no session's lock |
| DispatchSafety.StepPermits | nanoinfra/agent/loop.py:1751-1861 | Free permits and turns in the gate add up to the limit after every action |
| DispatchSafety.StepConserves | nanoinfra/agent/loop.py:1651-1861 | No action loses or doubles a message |
| DispatchRuns.NothingLost | nanoinfra/agent/loop.py:1651-1861 | Main result. In every reachable state a message is in as many places (bus, loop, task, deferred queue, consumed, cancelled) as often it arrived |
| DispatchRuns.StrandedOnlyByUnstartedCancel | nanoinfra/agent/loop.py:1830-1861 | The exact condition: a step from a safe state leaves a deferred turn with nobody to look at it if and only if it cancels the last such task before its first step |
| DispatchRuns.NothingStranded | nanoinfra/agent/automation_turns.py:66-80 | Main result. In a run that cancels only started tasks no deferred turn is ever stranded |
| DispatchWitnesses.ATurnIsStranded | nanoinfra/agent/loop.py:1744-1747 | Without that condition the claim fails: a concrete run, in which a stop is the next message after the turn |
| AgentLoop.Loop.GetSessionLock | nanoinfra/agent/loop.py:3049-3055 | The lock in the map, or a new one that is then in it |
| AgentLoop.Loop.DeferIfActive | nanoinfra/agent/automation_turns.py:140-157 | Defers, at the back of the queue, exactly the automation turns of an active session |
| AgentLoop.Loop.Route | nanoinfra/agent/loop.py:1687-1747 | The loop's tables after routing one message are those of the protocol's action, of which DispatchRouting.RoutePlaces says where the message is |
| AgentLoop.Loop.CancelActiveTasks | nanoinfra/agent/loop.py:1270-1276 | The session's tasks leave the registry, each asked to cancel, and are what the caller waits for |
| AgentLoop.Loop.FinishCommand | nanoinfra/command/builtin.py:223-230 | The tables after a stop has emptied the queue it found are those of the protocol's action |
| AgentLoop.Loop.Withdraw | nanoinfra/agent/loop.py:1837-1840 | The table after a turn ends is that of the protocol's action |
| AgentLoop.Loop.PopDeferred | nanoinfra/agent/automation_turns.py:66-80 | The front of the queue is taken, and an emptied queue removed |
| AgentLoop.Loop.PutBackLeftovers | nanoinfra/agent/loop.py:1841-1851 | What the turn did not take goes back in order, until it is all back or the bus is full |
| MemoryLog.MemoryStore.AllocateCursor | nanoinfra/agent/memory.py:513-529 | The loops compute the next cursor from counter, tail or scan |
| MemoryLog.MemoryStore.AppendHistory | nanoinfra/agent/memory.py:337-384 | The files after an append, and after an append whose compaction fails |
| MemoryLog.MemoryStore.CompactHistoryLocked | nanoinfra/agent/memory.py:577-602 | The files after a compaction; nothing is written when the Dream cursor does not read |
| MemoryLog.MemoryStore.DreamHistoryBatch | nanoinfra/agent/memory.py:767-794 | The longest front of the entries that fits the section, but at least one |
| MemoryLog.BatchIsUnique | nanoinfra/agent/memory.py:767-794 | That batch is determined by the entries |
| MemoryLog.CompactionDropsOnlyProcessed | nanoinfra/agent/memory.py:577-602 | For any file: compaction drops a front of the records, none beyond the Dream cursor, and keeps the limit |
| MemoryLog.OverBandIff | nanoinfra/agent/memory.py:386-403 | The exact condition, for any file: after the band check it is over the band if and only if it was, and the Dream cursor does not read, or the records are at most the limit, or those not known to be processed exceed the band |
| MemoryLog.RenderedIs | nanoinfra/agent/memory.py:767-794 | What Dream is shown of an entry: its time, and its content shortened to 16,000 characters where the mark of a raw dump stands first, behind white space at most, and to 1,000 elsewhere |
| MemoryLog.ShownWholeIff | nanoinfra/agent/memory.py:756-781 | What is shown determines an entry if and only if the entry is within its cap |
| MemoryRuns.NextIsFresh | nanoinfra/agent/memory.py:513-529 | With the counter lost or lagging and the tail unreadable or not, the next cursor is one more than the number of records ever appended |
| MemoryRuns.CursorsIncrease | nanoinfra/agent/memory.py:503-529 | Over any run no cursor is used twice and the file is strictly increasing |
| MemoryRuns.NothingLeavesUnseen | nanoinfra/agent/memory.py:577-602 | Main result. Over any run of appends, crashes, compactions and Dream runs, the batches of the completed runs, one after the other, followed by the unprocessed records of the file, are exactly the records ever appended |
| MemoryRuns.CursorNeverGoesBack | nanoinfra/agent/dream_run.py:148-154 | The Dream cursor never goes back, and moves exactly when a run completes |
| MemoryRuns.CompletionShrinksBacklog | nanoinfra/agent/dream_run.py:148-154 | A completed run takes its batch, not empty, off the front of the backlog |
| MemoryRuns.OnlyCompletionCommits | nanoinfra/agent/dream_run.py:95-154 | A run that fails, dies or is refused changes no file |
| MemoryRuns.OverBandAfterAppendIff | nanoinfra/agent/memory.py:386-403 | Main result. In every reachable state, an append leaves the file over its band if and only if it is written over it and the Dream cursor does not read, or the records are at most the limit, or the records Dream has still to see exceed the band |
| MemoryRuns.OverBandIsBacklog | nanoinfra/agent/memory.py:577-602 | A file that is over its band after an append, although its cursor reads and its records exceed the limit, is exactly what Dream has still to see |
| MemoryRuns.UnreadLogGrows | nanoinfra/agent/memory.py:577-602 | While Dream never runs, the file grows to any length |
| MemoryRuns.SpoiledLogGrows | nanoinfra/agent/memory.py:386-403 | Once the Dream cursor does not read, the file grows to any length |
| MemoryRuns.UnparsableLogStays | nanoinfra/agent/memory.py:386-403 | An append can leave a file of any length in which one line is a record |
| DreamRun.Memory.RunDream | nanoinfra/agent/dream_run.py:82-154 | Refused, with nothing changed, exactly while another run is under way; the cursor is set exactly when the run completed, to the last entry shown; and its steps, with appends in between, are a run of the memory protocol |
| DreamRun.Memory.BuildDreamPrompt | nanoinfra/agent/memory.py:796-830 | The next batch, and none when there is nothing or the cursor does not read |
| Consolidation.PickConsolidationBoundary | nanoinfra/agent/memory.py:1164-1184 | The earliest later user message before which enough tokens lie, else the last one, none exactly when there is none |
| Consolidation.ChunksWithinBudget | nanoinfra/agent/memory.py:1362-1389 | The chunks are the messages in order; each fits or is one message; none could have taken the next |
| Consolidation.RawPartsAreTheText | nanoinfra/agent/memory.py:1035-1047 | The parts of a dump concatenate to it |
| Consolidation.RawNotesHoldTheDump | nanoinfra/agent/memory.py:1010-1056 | The raw notes of a batch are numbered parts within the bound, and together hold the whole rendering of what anybody may see of it, scrubbed before it was cut |
| Consolidation.RawEntryShownIff | nanoinfra/agent/memory.py:756-781 | Dream is shown a raw entry whole if and only if header and part stay within 16,000 characters, so never a full part |
| Consolidation.Consolidator.SummarizeOneChunk | nanoinfra/agent/memory.py:1391-1442 | The summary exactly when the provider answered in full, else the raw dump of the whole batch |
| Consolidation.Consolidator.Archive | nanoinfra/agent/memory.py:1326-1360 | The chunks make up what anybody may see of the batch; each is asked for in turn, and has its summary, until one is not answered in full, and the dump of the whole batch follows; it succeeds exactly when all were |
| Consolidation.Consolidator.Advance | nanoinfra/agent/memory.py:1519-1540 | The session forgets exactly the archived batch, and what was appended meanwhile stays |
| Consolidation.Consolidator.ArchiveAndDie | nanoinfra/agent/memory.py:1519-1540 | A crash after any note of an archive forgets nothing and loses no note; the same messages are archived again |
| Consolidation.Consolidator.ReplayOverflowBoundary | nanoinfra/agent/memory.py:1196-1230 | Which boundary: where the replay of the tail starts, after its start was moved to a user message and to a legal position; none exactly when the tail is within the limit or shown from its beginning |
| Consolidation.Consolidator.Round | nanoinfra/agent/memory.py:1486-1545 | A round runs exactly when there is a boundary, and passes what lies before the one for the tokens to free; it goes on, with a new estimate, exactly after a summary |
| Consolidation.Consolidator.Rounds | nanoinfra/agent/memory.py:1484-1550 | At least one round exactly when the estimate is over the target and there is a boundary, the first up to the boundary for what it must free; they end only after five, with a prompt that fits, an estimate that says nothing, no boundary left, or a batch that had to be dumped |
| Consolidation.Consolidator.MaybeConsolidateByTokens | nanoinfra/agent/memory.py:1444-1555 | First what the replay hides is passed; then rounds run exactly when the estimate reaches the budget and exceeds the target and there is a boundary, and end as Rounds says; at most six batches, and the accounting of every passed batch holds |
| Consolidation.Consolidator.CompactIdleSession | nanoinfra/agent/memory.py:1578-1605 | Passes the tail as it was before the provider call, and no more |
| Consolidation.EveryPassedMessageIsCovered | nanoinfra/agent/memory.py:1326-1442 | Main result. Whatever ran, each message the session has passed lies in a batch whose notes summarize all of it or hold its raw dump |
| Remembered.PassedMessagesAreKept | nanoinfra/agent/memory.py:1010-1056 | Main result. Each message the session has passed lies in a batch whose every note Dream was shown or the file still holds, over any run of the log that wrote the notes |
| Batching.InOneBatch | nanoinfra/agent/redaction.py:1008-1069 | Fills exactly when the count matches and the second pass asks what the first collected; anything else raises |
| Batching.FilledIsDirect | nanoinfra/agent/redaction.py:1008-1069 | For every pure run and scrubber: a filled record is the one the per-text scrub makes, with the same questions in the same order |
| Batching.ObliviousNeverRaises | nanoinfra/agent/redaction.py:1008-1069 | A walk whose questions do not depend on the answers never raises over a faithful batch |
| RedactionBatches.MappingSame | nanoinfra/agent/redaction.py:367-384 | The mapping walk asks the same, and returns the same when answered alike |
| ScrubbedRecords.MessageIs | nanoinfra/agent/redaction.py:565-626 | Main result. The texts of a message are asked for, in order and with the class of its tool; the answer to each stands where the text stood, bounded in a bounded tool result; a changed call or thinking block loses its signature and says so; a credential result is one answer; every other key keeps its value |
| ScrubbedRecords.CheckpointIs | nanoinfra/agent/redaction.py:656-705 | The same for the assistant message, each completed result and each pending call of a checkpoint, never bounded |
| ScrubbedRecords.MappingIs | nanoinfra/agent/redaction.py:367-384 | Every string of a mapping, however nested, is the answer to itself, asked for in order; all else stays |
| ScrubbedRecords.MessageInBatch | nanoinfra/agent/redaction.py:1008-1069 | One batch over a message asks for its texts and fills in its scrubbed record |
| ScrubbedRecords.CheckpointInBatch | nanoinfra/agent/redaction.py:1008-1069 | The same for a checkpoint |
| ScrubbedRecords.MappingInBatch | nanoinfra/agent/redaction.py:1008-1069 | The same for a mapping |
| RedactionBatches.MessageSame | nanoinfra/agent/redaction.py:565-626 | The message walk asks the same, and returns the same when answered alike |
| RedactionBatches.CheckpointSame | nanoinfra/agent/redaction.py:656-705 | The checkpoint walk asks the same, and returns the same when answered alike |
| RedactionBatches.BatchIsDirect | nanoinfra/agent/redaction.py:1008-1069 | One batch over a mapping, a message or a checkpoint returns what the per-text scrub makes, and never raises |
| WithheldRecords.WithheldMessageIs | nanoinfra/agent/redaction.py:711-731 | Main result. A record that nobody scrubbed has a marker in the place of each text that is not empty and that the scrub would have asked about; arguments still parse; no call or thought that was replaced is signed, and it says so; every other key keeps its value |
| WithheldRecords.WithheldCheckpointIs | nanoinfra/agent/redaction.py:801-831 | The same for the assistant message, each completed result and each pending call of a checkpoint |
| WithheldRecords.MappingIsWithheld | nanoinfra/agent/redaction.py:734-741 | Every text of a mapping that is not empty, however nested, is the marker; all else stays |
| Withholding.WithheldAlikeIff | nanoinfra/agent/redaction.py:834-844 | Two values are withheld alike if and only if they differ in texts only, empty in both or neither |
| Withholding.WithheldIgnoresTexts | nanoinfra/agent/redaction.py:711-731 | Main result. Messages of the same shape that differ in scrubbed texts only are withheld alike |
| Withholding.WithheldKeepsIdentity | nanoinfra/agent/redaction.py:711-731 | Role, name, the id a result answers and the id of every call survive |
| Withholding.WithheldCheckpointKeepsIds | nanoinfra/agent/redaction.py:801-831 | The ids of pending calls and of the calls that completed results answer survive |
| Withholding.ScrubbedCallIsHonest | nanoinfra/agent/redaction.py:441-505 | A scrubbed call keeps its id, holds the answer, and is signed only if nothing changed |
| Withholding.WithheldCallIsHonest | nanoinfra/agent/redaction.py:899-929 | A withheld call keeps its id and is never signed |
| Withholding.UnsignedCall | nanoinfra/agent/redaction.py:480-505 | Unsigning removes every named signature inside and out, keeps all else, and marks exactly the calls that were signed |
| Withholding.ScrubbedBlockIsHonest | nanoinfra/agent/redaction.py:531-562 | A thinking block keeps its signature only if none of its text changed; a changed one says why |
| Withholding.WithheldBlockIsHonest | nanoinfra/agent/redaction.py:876-896 | The same for a withheld thinking block |
| RuntimeContext.DetachUndoesAppend | nanoinfra/runtime_context.py:165-226 | Detaching undoes appending if and only if the content is a block list or the suffix is not empty; a missing content reads as empty text |
| RuntimeContext.PublicIsDetached | nanoinfra/runtime_context.py:260-285 | The public view is what detaching leaves, or everything where nothing detaches |
| RuntimeContext.ReattachedOpens | nanoinfra/runtime_context.py:229-257 | A reattached context detaches again from the same content |
| RuntimeContext.MergeKeepsApart | nanoinfra/agent/runner.py:176-270 | What a merge shows is the left text, a blank line and the right text, or the left blocks and then the right ones; and its context is both contexts in order |
| RuntimeContext.MergeIs | nanoinfra/agent/runner.py:195-270 | What a merge is for any two messages: where both contexts detach, both contents and behind them both contexts, marked; where one does not, both contents as they stand under the marker of the left |
| RuntimeContext.MergesKeepApart | nanoinfra/agent/runner.py:176-270 | Main result. The same after any number of merges |
| RuntimeContext.AppendedIsTidy | nanoinfra/runtime_context.py:123-190 | What is appended to any content, from normalized blocks, meets the condition of the merge results |
| Requirements.RequirementInstalled | nanoinfra/optional_features.py:174-175 | Main result. Ends on every finite graph. True if and only if no requirement that is the first of its name and extras fails, the asked one among them; true says that everything reachable is installed, offers its extras and was first required in a version that is there; and a true answer is exact, nothing reachable failing at all, if and only if the requirements of one name and extras agree about the version |
| Requirements.Search.RequirementInstalled | nanoinfra/optional_features.py:127-147 | True settles every key the search adds, and the first requirement of each accepts what is installed; false names a path to one that fails, each on it the foremost of its key; a key visited before is passed over |
| Requirements.Search.ExtraDependenciesInstalled | nanoinfra/optional_features.py:150-171 | The same for what one extra brings in |
| Requirements.PathSettled | nanoinfra/optional_features.py:127-171 | A settled set that holds the start of a path holds the whole path |
| Requirements.ExtraInstalled | nanoinfra/optional_features.py:178-181 | True: every dependency is there in a version it accepts, nothing it reaches is missing, and the answer for it is exact where requirements agree. False: something one of them reaches fails |
| Requirements.ALaterBoundIsPassedOver | nanoinfra/optional_features.py:127-147 | A concrete machine on which the answer is true and a reachable requirement has the wrong version |

## Left out

- TurnRecovery.EveryTurnRecovers: says nothing of pairing, which fails for some checkpoints; TurnRecovery.PairedThroughoutIff says for which runs it holds.
- DispatchRuns.NothingStranded: assumes that cancelled tasks had started, which DispatchRuns.StrandedOnlyByUnstartedCancel shows to be needed.
- MemoryRuns.CursorsIncrease: other writers add lines that do not parse, but no records; MemoryLog's functions and the lemmas MemoryLog.CompactionDropsOnlyProcessed and MemoryLog.OverBandIff cover any file.
- Remembered.PassedMessagesAreKept: the text that is recorded of a note is an arbitrary function of the note, and that the log was written each note is a premise about the run of the log.
- Preparation.PrepareForModel: lists are values here, so that no pass changes a list it was given holds by construction; message objects live on the heap, and that none of the history is written is proved.
- Consolidation.Consolidator.Advance: sessions only grow while a batch is archived; the trimming of session files is not part of this model.
- RedactionBatches.BatchIsDirect: the walk of a provider state is not part of this model; Batching.FilledIsDirect covers any pure run.
- Cancellation inside the cleanup of a dispatched task is excluded; a task waiting there for room on the bus is modelled.
- The new-session command inside a turn goes on without waiting for the tasks it cancels, and may run more than once in a turn: the model allows more interleavings than the code. What it does to the session, and the cancelling of subagents, is not part of this model.
- The loop may go on after a shutdown has begun.
- Submitting an automation turn while the loop is not running, and the futures its submitter waits on.
- Whether a message is a control, a priority command or a dispatchable command is a fixed property of the message.
- The text a turn hands to delivery, which joins the parts of a cut answer: the list of messages is modelled.
- Exceptions that leave the runner, streaming, hooks beyond the final text, usage accounting, provider state and the texts of retry prompts.
- Token estimators, the compaction notice, the normalization of results, the scrubber and the summary prompt are arbitrary functions; the 85 percent target is computed exactly rather than in floating point.
- Latency, runtime-context markers and other metadata of saved entries; time stamps are compared as the code compares them, not at all.
- File bytes, fsync, file locks, JSON, git and the migration of old history files: a write happens at once, a crash before or after it.
- Reverting the Dream cursor through version control.
- Sanitizing of appended history text: the log is modelled from the text that is written.
- Internal turn continuation: what a turn publishes arrives like any other message.
- Text matching in the scrubber, and the events of the WebUI transcript.
- Canonical spelling of distribution names and extras: names are taken as already canonical.
- Prompt assembly, skills, delegation, channels, packaging and installation: no state of the kind modelled here.
