# Turns, permissions, usage and deliveries of the agent backend, verified

A Dafny model of the stateful cores of the Go backend and proofs of what they keep over every run. Each critical section under a mutex is one atomic step, and what reads in one and sets in another, as failTurn does, takes two; every interleaving of the steps is covered. `dafny verify dfyconfig.toml` checks the project.

A core that the program holds in fields is a class here too, whose methods are proved to do exactly what a specification function says (`Job`, `Permissions.Table`, `UsageAccounts.UsageAccumulator`, `AxObservation.AxState`, `Transcript.TranscriptBuffer`, `ToolCalls.ToolBoard`, `ToolExposure.ToolExposure`, `Rooms.Membership`, `TaskOwners.TaskOwners`, `Admission.Registry`). The properties are then proved of runs of those functions: a run is a sequence of events, of which one that cannot happen changes nothing, and the theorems quantify over all of them.

**The turn protocol.** `Turns` has the critical sections as functions on the job and on the turn its store keeps, `Job` carries them out on fields, and `TurnRuns` interleaves them with the threads that carry prompt calls, the connection, the agent, the store, the idle sweep and restarts of the program. `TurnAccounting`, `TurnEnds`, `TurnRetries`, `SteerOrder`, `SteerStore`, `SteerLoss`, `PromptResend`, `HeldUpdates` and `IdleStop` each prove one invariant over all steps; `TurnTheorems` puts them together and says what holds of every run; `TurnExamples` has runs that show where a promise stops. The protocol is the Prompt Turn of the Agent Client Protocol over JSON-RPC 2.0, whose section 5 asks for one response a request.

**The others.** `Permissions` is the race of answers, texts, stops, steers and ended calls for a pending request. `UsageAccounts` is the accounting of token usage. `AxListing`, `AxState` and `AxKeys` are the numbered accessibility listing, `AxRevision` the diff shown in its place, and `AxTwins` and `AxPages` what both say of a page observed again and again. `Transcript` and `TranscriptRuns` are the buffer in front of a thread's log. `ToolCalls` builds tool calls from sparse updates. `ToolExposure` is the local agent's tool loop, `Rooms` the bots' group delivery, `TaskOwners` whom background tasks report to, and `Admission` shutdown.

## What the proofs assume

- The agent queues prompts and answers them oldest first, and only prompts that were written. A response of an ended turn names no prompt of the current one.
- Updates of one connection arrive one at a time.
- A store call succeeds or fails as a whole. `KeepTurnSteers(n)` keeps the newest n, `ClaimTurn` fails if the thread is held, a turn's end removes the stored turn except at a shutdown, and storage adds what `AddUsage` is given.
- A prompt call of an ended turn is not sent into a later turn, and none is registered with a connection that ended or a process that was torn down. The second is stricter than the code, which registers a prompt before it tries to write it (`backend/internal/acp/prompt_tracking_conn.go:42-66`).
- A prompt's write, the note that it was sent and the close of its sent channel are one step. Its registration before the write is a step of its own.
- Request ids, prompt ids, process ids and the numbers that stand for channels are not reused. Timers may fire at any moment.
- Integers are unbounded, where the program has 64 bits.

## Where the code does less than it promises

Each of these is a result: the condition under which the promise holds is proved in both directions, and a run or input of the model shows how it fails.

- A steer that is registered and not yet written can be dropped from the stored turn by the reply to the prompt before it, though the agent has not taken it in (`backend/internal/acp/prompt_delivery.go:41-56`). A restart before the write then loses it: `TurnTheorems.NoSteerIsLost`, `TurnExamples.ASteerIsLost`.
- A turn stopped by a person ends as failed when its connection is found dead between its last call and its finish, or when the stop is recorded between failTurn's reading and its setting of the status: `TurnTheorems.StoppedEndsCancelled`, `TurnExamples.AStopEndsFailed`, `TurnExamples.ALateStopEndsFailed`.
- A permission request is answered without a response event when the store refuses the event, or when a stop or steer took it and its session is no longer registered; and without a request event when the store refuses that: `Permissions.SilentExactly`, `Permissions.AnnouncedExactly`, `Permissions.AResponseIsLeftOut`, `Permissions.AnEventIsNotStored`.
- A timer that finds its job gone drops the transcript it drained, and a write that fails drops its text or its event: `Transcript.LostExactly`, `Transcript.ATimerDropsText`, `Transcript.AWriteDropsText`.
- A negative usage delta lowers a scope and not what was written: `UsageAccounts.RecordingConserves`, `UsageAccounts.ANegativeDeltaBreaks`.
- A page in which two visible nodes hold one frame has a number twice once it is known, and is never shown as unchanged though it lists the same: `AxPages.PageUnchangedExactly`, `AxPages.ATwinIsNeverUnchanged`.
- A search that shares its call id with a later call of its round exposes tools to the run and not to the log, and so would one whose listing is not written out: `ToolExposure.ExposureAgrees`, `ToolExposure.ASharedIdDiffers`, `ToolExposure.AnUnwrittenListingDiffers`. The second is the code's own error path; no definition for which writing out fails is shown here.
- A launch that found no job can displace a process that another registered since, which shutdown then misses: `Admission.ShutdownMissesOnlyReplaced`, `Admission.ALaunchReplaces`.

## Model

| member | source | states |
|---|---|---|
| `TurnTheorems.CallsAreCounted` | backend/internal/acp/job.go:415-421 | In every run, while a turn is open, the calls it counts are those not yet sent, those on the wire, replies and failures not yet processed, and the agent's own run; and the turn is ending exactly when only answered calls are left. |
| `TurnTheorems.NormalEndLeavesNothing` | backend/internal/acp/turns.go:96-161 | Whatever step ends a turn that no stop was recorded on (a failed call aside), it leaves no call waiting, on the wire, answered or failed, and no run of the agent's own. |
| `TurnTheorems.EachTurnEndsOnce` | backend/internal/acp/turns.go:204-245 | Turns never overlap; a turn's done channel is closed at most once, and of the turns since the last start exactly those are signalled that are no longer under way or finishing. |
| `TurnTheorems.StoppedEndsCancelled` | backend/internal/acp/turns.go:351-366 | In every run, a stopped turn whose calls are over is cancelled for the reason it records, if and only if whoever set its status last says so: its turn, unless the last stop recorded after failTurn had read the turn's stop had another reason than was read; never a connection's end; and a stop that timed out, when the reason is a person's stop. Both are read off the events of the run. |
| `TurnExamples.ALateStopEndsFailed` | backend/internal/acp/turns.go:353-366 | A run in which a stop is recorded after failTurn has read that there is none, and the turn ends as failed with its connection alive. |
| `TurnExamples.AStopEndsFailed` | backend/internal/acp/lifecycle.go:231-240 | A run in which a person's stop is answered and the turn still ends as failed, because the connection is found dead before the turn finishes. |
| `TurnTheorems.RetriesAreBounded` | backend/internal/acp/session_failure.go:99-104 | Over all runs, restarts included, a turn sends at most three continuations, and those sent or waiting never exceed the retries its stored turn records. |
| `TurnTheorems.NoWaitAfterStop` | backend/internal/acp/turns.go:106-147 | Once a stop is recorded it stays for the rest of the turn, and no retry wait starts. |
| `TurnTheorems.StoppedWaitCancels` | backend/internal/acp/turns.go:69-83 | Once a turn that waits to retry is stopped, or the wait has found the stop, nothing is on the wire and no continuation is sent, whatever steps follow short of a restart, until the wait's own end leaves the turn cancelled for the reason it then records. |
| `TurnTheorems.SteersLeaveInOrder` | backend/internal/acp/send.go:356-362 | Only the oldest waiting call can be sent, and only while none is being written; what is unanswered is always the newest of what the turn was asked, in order. |
| `TurnTheorems.StoredSteersAreNewest` | backend/internal/acp/prompt_delivery.go:41-56 | In every run the steers a turn has stored are the newest of those it kept, whatever store writes fail. |
| `TurnTheorems.NoSteerIsLost` | backend/internal/acp/prompt_delivery.go:45-56 | A kept steer the agent has not begun is missing from the stored turn exactly while it is registered and not written and the store holds only those behind it; and exactly when in the run of the turn a reply was read in between (SteerLoss.Forgets) and no prompt was written since. |
| `SteerLoss.LostExactly` | backend/internal/acp/prompt_delivery.go:45-56 | The same for every world in which the accounts of calls, order and steers hold: lost if and only if one steer is registered, unwritten, kept, and the store holds as many steers as wait behind it. |
| `SteerLoss.CallsForget` | backend/internal/acp/prompt_delivery.go:18-30 | Of all steps that carry calls, exactly this one makes the store forget: the reply to the prompt before a kept steer that is registered and not written, with the store written. |
| `TurnExamples.ASteerIsLost` | backend/internal/acp/prompt_tracking_conn.go:42-66 | A run in which that happens: the steer was never written to the agent and the store has forgotten it. |
| `TurnTheorems.RestartGoesOn` | backend/internal/acp/recovery.go:60-73 | From the moment a turn was last under way, through its stop for a shutdown, the restart and whatever else begins no turn: unless a steer was so forgotten then, what is sent on ends with every kept steer that the agent had not begun, in order. |
| `TurnTheorems.InterruptedStays` | backend/internal/storage/json/turns.go:174-182 | What a turn's store held when the turn ended or the program stopped is there unchanged until the turn is finished for good or another begins. |
| `TurnTheorems.RestartsResendOnlyUnsent` | backend/internal/acp/recovery.go:23-31 | From then on the opening prompt is sent again exactly when it was not registered while the turn was last under way, left to the person exactly when it was and nothing showed that the agent has it, and otherwise continued. |
| `TurnTheorems.UpdatesApplyInOrder` | backend/internal/acp/agent_runs.go:218-252 | Updates applied, then the one in hand, then those held back, are exactly the updates received in order; and none is held back once no turn, finish or replay is left. |
| `TurnTheorems.RetiredIsIdle` | backend/internal/acp/idle.go:125-135 | In every run a process claimed for stopping has no turn, no finishing turn, no lease and no send under way. |
| `TurnTheorems.StepKeepsInv` | backend/internal/acp/job.go:366-421 | Every step of calls, updates, turns, stops and restarts keeps all the invariants of a thread together. |
| `TurnTheorems.RunsHold` | backend/internal/acp/send.go:139-257 | So they hold of every run. |
| `TurnTheorems.StepForgets` | backend/internal/acp/prompt_delivery.go:41-56 | Over all steps, not only those that carry calls, a steer becomes forgotten exactly by the reply described. |
| `SteerLoss.CallsKeepForgotten` | backend/internal/acp/prompt_delivery.go:32-39 | And it stays so through every other step of the calls until a prompt is written. |
| `TurnAccounting.CallsKeepAccount` | backend/internal/acp/turns.go:96-192 | Every step of the threads that carry calls keeps the account of a turn's calls. |
| `TurnAccounting.UpdatesKeepAccount` | backend/internal/acp/agent_runs.go:70-143 | So does every update, including the agent's own run starting and ending. |
| `TurnAccounting.LastCallCounts` | backend/internal/acp/turns.go:118-160 | The last call of a turn leaves it waiting to retry with one call and no stop recorded, or ends it without calls. |
| `SteerOrder.OnlyOldestSends` | backend/internal/acp/send.go:459-485 | Each steer waits for the sent channel of the one before it, so only the head of the queue may be registered, and only when no prompt is being written. |
| `SteerOrder.CallsKeepOrder` | backend/internal/acp/send.go:364-421 | Every step of the calls keeps the chain of waits: one link a steer, an opening prompt or continuation alone until it is written. |
| `SteerStore.DroppingKeeps` | backend/internal/acp/prompt_delivery.go:41-56 | Dropping what the agent took in keeps the stored steers the newest and every kept one behind the oldest registered prompt. |
| `SteerStore.CallsKeepSteers` | backend/internal/acp/send.go:364-421 | Every step of the calls keeps the stored steers in that relation to the calls outstanding. |
| `SteerLoss.RestartKeepsSteers` | backend/internal/acp/recovery.go:60-73 | With no steer lost, the message of a resumed turn ends with the kept steers not begun. |
| `PromptResend.RestartResends` | backend/internal/acp/recovery.go:23-73 | What a restart does with the opening prompt, for every world whose stored prompt is known: resent with the steers, left to the person, or continued with the steers. |
| `PromptResend.CallsKeepPrompts` | backend/internal/acp/prompt_delivery.go:58-72 | Every step of the calls keeps the stored prompt's state true: unset while the opening prompt waits, confirmed exactly when the turn observed it. |
| `TurnRetries.WaitingKeepsRetries` | backend/internal/acp/turns.go:130-147 | A retry is counted in the store before its wait starts, and a stopped or compacting turn makes none. |
| `TurnRetries.CallsKeepRetries` | backend/internal/acp/turns.go:69-141 | Every step of the calls keeps continuations within the stored retries. |
| `TurnEnds.CallsKeepStops` | backend/internal/acp/turns.go:96-192 | Every step of the calls keeps a stopped turn ending as stopped. |
| `TurnEnds.WatchersKeepStops` | backend/internal/acp/cancel.go:64-71 | Stops, and those that look at a status after a connection ended or a stop timed out and set it a step later, keep what is known of a stopped turn's status. |
| `TurnEnds.TurnsKeepSignals` | backend/internal/acp/turns.go:204-245 | Beginning, finishing and restarting keep one turn at a time, signalled once. |
| `HeldUpdates.AppliesOrHoldsBack` | backend/internal/acp/agent_runs.go:66-114 | An update is applied, or, when it reports work while the turn is ending, put in front of those held back; nothing else about their order changes. |
| `HeldUpdates.UpdatesKeepUpdates` | backend/internal/acp/agent_runs.go:218-252 | Every step of receiving, holding back, replaying and applying keeps the order of updates. |
| `IdleStop.TurnsKeepLeases` | backend/internal/acp/idle.go:107-135 | Sends, finishes and the idle sweep keep leases matching senders and a retired process idle. |
| `Job.JobState.ClaimTurn` | backend/internal/acp/send.go:262-272 | The turn starts and is stored, with its prompt unset and no steers, unless another holds the thread or it cannot be stored; then nothing changes. |
| `Job.JobState.SetPromptState` | backend/internal/acp/prompt_delivery.go:58-72 | The prompt's state is stored first, and the turn notes it only if that worked; an observed prompt, and a confirmation of one not sent, change nothing. |
| `Job.JobState.DropTakenSteers` | backend/internal/acp/prompt_delivery.go:45-56 | The store keeps the newest untaken steers, and the turn's count follows only if the write worked. |
| `Job.JobState.PromptSending` | backend/internal/acp/prompt_delivery.go:5-16 | A call moves from the unsent to the prompts, unless its state cannot be stored, which refuses the write. |
| `Job.JobState.PromptSent` | backend/internal/acp/prompt_delivery.go:32-39 | A call that went out opens the turn to steering and drops what was taken in. |
| `Job.JobState.PromptAnswered` | backend/internal/acp/prompt_delivery.go:18-30 | The response to a prompt of the turn confirms the prompt, takes it off the wire and drops what was taken in; any other changes nothing. |
| `Job.JobState.ReserveSteer` | backend/internal/acp/send.go:364-421 | A steer is refused without a running turn, before the latest prompt is out or when it cannot be stored; else it counts as a call, is kept unless it goes into the agent's own run, and waits for the steer before it. |
| `Job.JobState.CompletePromptCall` | backend/internal/acp/turns.go:96-161 | The new job and stored turn after a call ended, in each of its outcomes: ignored, handed off, waiting to retry, ended. |
| `Job.JobState.EndLastCall` | backend/internal/acp/turns.go:106-159 | How the last call ends the turn: stopped, cancelled, retried, failed, silent, or well. |
| `Job.JobState.Retry` | backend/internal/acp/turns.go:130-141 | A retry is made only if offered, not made by the provider, within three, not while compacting, and recorded. |
| `Job.JobState.WaitToRetry` | backend/internal/acp/job.go:619-628 | A waiting turn has one call, one more unsent, and is closed to steering. |
| `Job.JobState.EndRetryWait` | backend/internal/acp/job.go:630-636 | The wait ends, and its result is whether the turn was stopped meanwhile. |
| `Job.JobState.FailPromptCall` | backend/internal/acp/turns.go:175-192 | A failed call of the current turn ends all its calls; one of another turn, or of one without calls, does nothing. |
| `Job.JobState.SetState` | backend/internal/acp/job.go:342-354 | Status and reason are set, and a status out of progress ends compaction. |
| `Job.JobState.CancelReason` | backend/internal/acp/job.go:527-537 | The stop recorded on the turn, if any, which failTurn reads in a hold of the lock of its own. |
| `Job.JobState.BeginFinish` | backend/internal/acp/turns.go:204-218 | The first to finish the turn takes it from the job and marks it as finishing; others do nothing. |
| `Job.JobState.StoreFinish` | backend/internal/storage/json/turns.go:174-182 | The stored turn goes, except when the turn stopped for a shutdown. |
| `Job.JobState.EndFinish` | backend/internal/acp/turns.go:234-239 | The finish ends with the done channel's close. |
| `Job.JobState.RequestCancel` | backend/internal/acp/job.go:510-525 | A stop is recorded on a turn in progress, and a shutdown never replaces one. |
| `Job.JobState.StartAgentRun` | backend/internal/acp/agent_runs.go:70-114 | Work reported while the turn is ending is held back in front; else it starts a turn of its own unless one runs, the process is retired or closed, or the thread is taken. |
| `Job.JobState.EndWork` | backend/internal/acp/agent_runs.go:118-143 | The agent's own run ends once, failing the turn only when no steer joined it. |
| `Job.JobState.LoseAgentRun` | backend/internal/acp/agent_runs.go:147-162 | A closed connection ends the agent's own run. |
| `Job.JobState.DeferUpdate` | backend/internal/acp/agent_runs.go:244-252 | An update waits behind those held back, if any are. |
| `Job.JobState.TakeDeferred` | backend/internal/acp/agent_runs.go:220-241 | A replay takes the oldest update held back, unless another replays or a turn is ending, and stops holding back when none is left. |
| `Job.JobState.ApplyOutput` | backend/internal/acp/protocol.go:142-151 | What the turn writes confirms its prompt and, if it makes progress, clears the provider's own retries. |
| `Job.JobState.ApplyRetrying` | backend/internal/acp/session_failure.go:106-119 | A provider's own retry is remembered by its category. |
| `Job.JobState.Lease` | backend/internal/acp/idle.go:107-117 | A lease is refused once the process is retired, else counted. |
| `Job.JobState.Release` | backend/internal/acp/idle.go:119-123 | A release takes one lease off. |
| `Job.JobState.Retire` | backend/internal/acp/idle.go:125-135 | The process is retired only without a turn, a finish, leases or background tasks. |
| `Job.ActiveTurn.constructor` | backend/internal/acp/job.go:366-413 | A new turn has one call, unsent, and nothing kept, retried or stopped. |
| `Job.ActiveTurn.AgentRun` | backend/internal/acp/agent_runs.go:104-113 | The agent's own run has one call that is not to be sent, and is open to steering. |
| `Job.ThreadStore.SetTurnPromptState` | backend/internal/storage/json/turns.go:81-97 | A prompt's state is stored unless it is already confirmed; without a stored prompt the write fails. |
| `Job.ThreadStore.KeepTurnSteers` | backend/internal/storage/json/turns.go:149-158 | The stored turn keeps its newest n steers. |
| `Recovery.ResumeInterruptedTurn` | backend/internal/acp/recovery.go:15-77 | The request a restart sends for a stored turn, in all its cases: left to the person, a compaction redone, the prompt or a continuation with the steers behind it, retries carried over. |
| `Permissions.OneResponseEach` | backend/internal/acp/pending_permission.go:56-76 | Whatever races for a request, there is at most one request event and one response, in this order and the response only once the request is pending no more; a finished request has both, the response with the answer its call got, but for exactly those that a step of the run left out. What is left out for a session that is gone answers nothing. |
| `Permissions.SilentExactly` | backend/internal/acp/pending_permission.go:130-142 | For every run, a request that has its answer has no response event if and only if in the run the store refused the response, or that of its call's own withdrawal, or the stop or steer that took it responded while its session was not registered. |
| `Permissions.AnnouncedExactly` | backend/internal/acp/events.go:319-334 | For every run, a request whose call is past its announcement has its request event if and only if the store took it. |
| `Permissions.ListedExactly` | backend/internal/acp/pending_permission.go:105-128 | For every run, a request was taken as one of its session's if and only if a stop or steer of the session found it pending. |
| `Permissions.AResponseIsLeftOut` | backend/internal/acp/pending_permission.go:136-139 | A run in which a request is answered and no response published, its session being gone. |
| `Permissions.AnEventIsNotStored` | backend/internal/acp/event_publish.go:205-210 | Runs of a registered session in which the person's answer reaches the call and the log has the request event, the response, both or neither, as the store takes them. |
| `Permissions.TakenGoesOn` | backend/internal/acp/pending_permission.go:61-68 | A request that was taken is never stuck: until its call has the answer, a step brings it closer, whether the store takes its event or not. |
| `Permissions.SteerMakesWay` | backend/internal/acp/pending_permission.go:105-117 | After a person's steer no request of that session is pending while a second prompt call is outstanding. |
| `Permissions.AnswersAreOffered` | backend/internal/acp/events.go:104-162 | A call only ever gets an option that its request offers, or answers when it asks questions, or none. |
| `Permissions.RunsHold` | backend/internal/acp/pending_permission.go:26-142 | In every run a request is pending, withdrawn or taken by one resolver; what was published of it is just how far it got, without what the store refused or no session was there for. |
| `Permissions.Table.Register` | backend/internal/acp/pending_permission.go:46-52 | A request is registered unless its call ended or a second prompt call is outstanding. |
| `Permissions.Table.Withdraw` | backend/internal/acp/pending_permission.go:61-71 | A call takes its own request back only if no one else took it. |
| `Permissions.Table.TakeOf` | backend/internal/acp/pending_permission.go:119-128 | Exactly the pending requests of the session are taken, each once, and the others stay. |
| `Permissions.Table.AnswerInteractive` | backend/internal/acp/events.go:76-174 | Every refusal leaves the request pending, and an accepted answer, text or option takes it with that outcome. |
| `UsageAccounts.UsageIsConserved` | backend/internal/acp/usage_accumulator.go:20-59 | For each of the five counters, written plus pending always equals the sum of all scopes, dropped ones included, for any snapshots, nonnegative deltas and failed writes. |
| `UsageAccounts.RecordingConserves` | backend/internal/acp/usage_accumulator.go:26-59 | For any report whatever, recording keeps that account of a counter if and only if the report is empty or its counted delta does not take the scope below where it was. |
| `UsageAccounts.ANegativeDeltaBreaks` | backend/internal/acp/usage.go:108-126 | Two reports, the second with a negative delta, after which storage holds more than the scopes. |
| `UsageAccounts.WritesRise` | backend/internal/acp/usage.go:78-126 | A report writes exactly the rise of its scope's counter, never a fall. |
| `UsageAccounts.OrderDoesNotMatter` | backend/internal/acp/usage.go:400-428 | Two runs of snapshots with the same set of reports, in any order and number, have the same scopes and record the same in all. |
| `UsageAccounts.ScopesHoldPeaks` | backend/internal/acp/usage.go:400-428 | After any snapshots a scope's counter is the highest that was reported for it. |
| `UsageAccounts.RepeatsCountOnce` | backend/internal/acp/usage_accumulator.go:30-38 | A delta repeated back to back in its scope, whatever other scopes report in between, adds nothing to what is recorded. |
| `UsageAccounts.DeltasAddUp` | backend/internal/acp/usage_accumulator.go:30-38 | After any run of deltas a scope's counter is their sum, with every stretch of equal ones in a row taken once. |
| `UsageAccounts.DeltasAreRecorded` | backend/internal/acp/usage_accumulator.go:26-59 | And written plus pending is the sum of that over the scopes, whatever writes failed. |
| `UsageAccounts.UsageAccumulator.Record` | backend/internal/acp/usage_accumulator.go:26-59 | The scopes, pending amount and write after a report, for a write that works and one that fails. |
| `UsageAccounts.UsageAccumulator.StartTurn` | backend/internal/acp/usage_accumulator.go:20-24 | A turn's start drops the unnamed scope only. |
| `AxListing.NumbersAreIssued` | backend/internal/browsercontrol/accessibility.go:83-86 | After any observations distinct nodes have distinct numbers, all below the next one. |
| `AxListing.NumbersAreKept` | backend/internal/browsercontrol/accessibility.go:118-124 | A node seen in two observations in a row keeps its number; a new one gets a number never given before. |
| `AxListing.DroppedNumbersStayFree` | backend/internal/browsercontrol/accessibility.go:118-124 | A number dropped by one observation is in no later one. |
| `AxPages.EachNodeListedOnce` | backend/internal/browsercontrol/accessibility.go:102-146 | With distinct keys an observation lists a node twice if and only if two listed nodes of a frame hold a same frame that lists something. |
| `AxPages.ListsWhatIsReached` | backend/internal/browsercontrol/accessibility.go:107-146 | The walk of a frame, wherever it is nested, visits the least set of nodes that holds the roots and, with a node, its children, and lists exactly its visible ones. |
| `AxListing.AppendKeeps` | backend/internal/browsercontrol/accessibility.go:102-146 | What every single listing keeps, the whole walk over all nested frames keeps. |
| `AxTwins.WalkOnce` | backend/internal/browsercontrol/accessibility.go:109-136 | The walk lists only what is under the nodes it visited, and nothing twice but what two nodes hold. |
| `AxTwins.AppendTells` | backend/internal/browsercontrol/accessibility.go:113-131 | Every line shows a visible node, has as parent a line before it of the same frame or of the node that holds its frame, and is followed at once by what its node holds. |
| `AxTwins.AppendSame` | backend/internal/browsercontrol/accessibility.go:102-146 | A frame lists the same nodes in the same order wherever and after whatever it is listed. |
| `AxKeys.PlainKeysApart` | backend/internal/browsercontrol/accessibility.go:117-118 | When no id holds a colon and no frame occurs twice, all nodes of a page have different keys. |
| `AxObservation.AxState.AppendTree` | backend/internal/browsercontrol/accessibility.go:102-146 | The observation's fields after a frame and all frames nested in it are those of the listing function. |
| `AxObservation.AxState.Walk` | backend/internal/browsercontrol/accessibility.go:109-136 | So are they, with the nodes visited, after the walk from one node. |
| `AxObservation.AxState.constructor` | backend/internal/browsercontrol/accessibility.go:83-84 | An observation starts with no lines and the next number of the one before. |
| `AxRevision.RenderAXRevision` | backend/internal/browsercontrol/accessibility.go:175-218 | The revision shown is the whole listing, or what changed, or that nothing did, for any two listings. |
| `AxRevision.DiffLines` | backend/internal/browsercontrol/accessibility.go:196-209 | The lines added or changed, and the numbers that are gone. |
| `AxRevision.ShortFormAgrees` | backend/internal/browsercontrol/accessibility.go:192-218 | Whenever the short form is used, applying its lines to the previous numbers and texts gives exactly the current ones; for all listings. |
| `AxRevision.ShortFormKeepsOrder` | backend/internal/browsercontrol/accessibility.go:181-189 | And then the lines that stay have kept their order and their parents. |
| `AxRevision.UnchangedExactly` | backend/internal/browsercontrol/accessibility.go:214-216 | With distinct numbers before, the listing is shown as unchanged if and only if both are equal, not empty, and the whole was not asked for. |
| `AxRevision.RepeatsAreNeverUnchanged` | backend/internal/browsercontrol/accessibility.go:198-209 | A listing is shown as unchanged against itself exactly when its numbers are distinct. |
| `AxPages.UnchangedHadNoTwins` | backend/internal/browsercontrol/accessibility.go:181-189 | If a page is shown as unchanged, no two nodes held one frame before: now one of them would have to list it twice or the frame to have moved. |
| `AxPages.PageUnchangedExactly` | backend/internal/browsercontrol/accessibility.go:89-90 | From one observation of a page to the next, with no colon in an id and no frame twice, unchanged is shown if and only if both list the same, not nothing, the whole was not asked for, and no number stands twice. |
| `AxPages.ATwinIsNeverUnchanged` | backend/internal/browsercontrol/accessibility.go:126-128 | A page in which two nodes hold one frame, observed three times without a change: the listings are equal and yet not shown as unchanged. |
| `Transcript.NothingIsLost` | backend/internal/acp/transcript_buffer.go:128-256 | Until a timer with text finds its job gone or a write fails, published text, text in hand and text held back are, character by character and with the events in between, what was queued: nothing crosses a barrier, changes kind or order. |
| `Transcript.LostExactly` | backend/internal/acp/transcript_buffer.go:182-256 | That fails if and only if in the run a timer with text found its job no longer registered, or the write of text or of a barrier's event failed. |
| `Transcript.ATimerDropsText` | backend/internal/acp/transcript_buffer.go:192-204 | A run in which a chunk is queued and drained, its job is removed, and the chunk is written nowhere. |
| `Transcript.AWriteDropsText` | backend/internal/acp/event_publish.go:205-210 | A run in which a barrier's write of a chunk fails, that of its event does not, and the job is registered throughout. |
| `Transcript.ReadsBack` | backend/internal/acp/turn_result.go:95-153 | Between two moments at which all was published, the log has gained just what was given in between if and only if no such step was among those in between; the text read back from it is then the live text, of messages and of thoughts. |
| `Transcript.RestoreText` | backend/internal/acp/turn_result.go:102-125 | What the program reads back from a turn's events is their message and thought text. |
| `Transcript.StepMissing` | backend/internal/acp/transcript_buffer.go:128-256 | Every other step leaves what is written, in hand and held back as it was, in order, but for what it is given; and such a step takes out just the text or the event that it was to write. |
| `Transcript.TranscriptBuffer.TextRunId` | backend/internal/acp/transcript_buffer.go:158-180 | The run id of a chunk and the run left open. |
| `Transcript.TranscriptBuffer.Queue` | backend/internal/acp/transcript_buffer.go:128-142 | A chunk joins the last run exactly when kind and id match, else starts one. |
| `Transcript.TranscriptBuffer.Drain` | backend/internal/acp/transcript_buffer.go:206-228 | A drain takes all runs and stops the timer. |
| `Transcript.TranscriptBuffer.DrainBarrier` | backend/internal/acp/transcript_buffer.go:212-218 | A barrier's drain also closes the open run. |
| `TranscriptRuns.SameRunExactly` | backend/internal/acp/transcript_buffer.go:158-180 | Two chunks of a turn without ids of their own have the same run id if and only if no barrier, no chunk with an id and no text of the other kind came between. |
| `ToolCalls.StreamedIsTail` | backend/internal/acp/toolruntime.go:48-50 | Appending output chunk by chunk and trimming each time gives exactly the marked tail of the whole. |
| `ToolCalls.CallsSayTheirUpdates` | backend/internal/acp/protocol.go:99-135 | However its updates came, before or after the one that shows it, a call says what all of them in order say; one not shown yet has them all waiting. |
| `ToolCalls.OverlaidSaysLast` | backend/internal/acp/toolcontent.go:28-69 | Each field of a call overlaid from its updates is what they said of it last, an empty field clearing nothing, and its output is the tail of all they brought. |
| `ToolCalls.ToolBoard.RecordTool` | backend/internal/acp/protocol.go:99-135 | The calls and waiting updates after an update, which changes a call only if it says something new. |
| `ToolCalls.MergeToolCall` | backend/internal/acp/toolcontent.go:33-69 | Fields an update leaves out stay, and the others replace what was there. |
| `ToolCalls.MergeToolRuntime` | backend/internal/acp/toolruntime.go:38-59 | The same for a call's terminal, whose output is appended and trimmed. |
| `ToolCalls.ResolveDanglingToolCalls` | backend/internal/acp/turns.go:438-473 | After a stopped or failed turn every call has a terminal status; those that had one are unchanged, the others change only in status and time. |
| `ToolExposure.ExposureAgrees` | backend/internal/agent/tool_search.go:111-170 | After any complete rounds whatever, the live set of exposed tools is what a new run restores from the log if and only if, beyond what was exposed at first, what searches found and what the log makes of the rounds is the same; the log takes a result for a search's if the last call with its id in the round is one. |
| `ToolExposure.ToldExposureAgrees` | backend/internal/agent/tool_search.go:137-163 | When a call's id tells whether it is a search, that is so if and only if all that searches found was exposed at first or was written out by one of them. |
| `ToolExposure.WrittenExposureAgrees` | backend/internal/agent/agent.go:107-122 | So they agree with distinct call ids in each round and listings that can be written out. |
| `ToolExposure.RunsOnlyFound` | backend/internal/agent/agent.go:336-360 | After any rounds, a deferred tool is run if and only if the log it began with listed it or a search of an earlier round found it. |
| `ToolExposure.AnUnwrittenListingDiffers` | backend/internal/agent/tool_search.go:124-133 | A round after which they differ, because a listing could not be written out. |
| `ToolExposure.ASharedIdDiffers` | backend/internal/agent/tool_search.go:137-151 | A round after which they differ, because a search shares its id with a later call. |
| `ToolExposure.Complete` | backend/internal/agent/agent.go:70-125 | The tool loop ends with the messages of its complete rounds, at the first response without calls or when turns run out. |
| `ToolExposure.ToolExposure.constructor` | backend/internal/agent/tool_search.go:57-90 | A new run exposes what its messages listed. |
| `ToolExposure.ToolExposure.RestoreSearchResults` | backend/internal/agent/tool_search.go:137-151 | The exposed set is what the searches in the messages listed. |
| `ToolExposure.ToolExposure.ExposeSearchOutput` | backend/internal/agent/tool_search.go:153-163 | A listing exposes the deferred tools it names, other text none. |
| `ToolExposure.ToolExposure.ExecuteTool` | backend/internal/agent/agent.go:336-360 | A search notes what it finds without exposing it, and a deferred tool that is not exposed is refused. |
| `ToolExposure.ToolExposure.CommitSearchResults` | backend/internal/agent/tool_search.go:165-170 | What was found is exposed when the round is over. |
| `Rooms.ShownOnce` | backend/internal/bots/rooms.go:103-148 | The batches a member had saved are, one after the other, exactly what others posted from its start to what it has seen, whatever handing over and saving fail. |
| `Rooms.HandedOnce` | backend/internal/bots/rooms.go:90-148 | While no save fails a member is handed each of those posts once, in order. |
| `Rooms.SeenRises` | backend/internal/bots/rooms.go:128-147 | What a member has seen never goes back. |
| `Rooms.UnseenIsNext` | backend/internal/bots/rooms.go:187-212 | A member's next delivery, the first one too, takes exactly what others posted since what it has seen, or since its own last post when it was shown nothing yet. |
| `Rooms.FollowUpsAreBounded` | backend/internal/bots/rooms.go:54-88 | Between two posts from outside that are passed on, at most twelve of the members' are, whatever order posts are recorded and passed on in, and the deliveries started are at most thirteen times the members. |
| `Rooms.Unseen` | backend/internal/bots/rooms.go:187-212 | What is shown next and up to where: others' posts after the mark, or, before anything was shown, after the member's own last post. |
| `Rooms.Service.Admit` | backend/internal/bots/rooms.go:72-88 | A post from outside is passed on and restores the follow-ups; a member's spends one of twelve. |
| `Rooms.Membership.DeliverLocked` | backend/internal/bots/rooms.go:103-148 | A delivery hands over what is unseen to the turn under way or a queued one, and marks it seen only if that worked and was saved. |
| `TaskOwners.EachTaskOnce` | backend/internal/acp/task_owners.go:9-27 | Each owned task is at every moment in exactly one place: live, waiting, handed over or forgotten; so it is handed over at most once. |
| `TaskOwners.WaitsExactly` | backend/internal/acp/task_owners.go:42-80 | An ended task is there to be taken if and only if no work named it and fewer works ended since than it may outlast: two when it ended in a work, else one. |
| `TaskOwners.TaskOwners.Start` | backend/internal/acp/task_owners.go:34-40 | A task's owner is recorded under its id. |
| `TaskOwners.TaskOwners.End` | backend/internal/acp/task_owners.go:42-55 | An owned task that ends waits for one work, or two when one runs; others are ignored. |
| `TaskOwners.TaskOwners.Take` | backend/internal/acp/task_owners.go:57-68 | What the named ended tasks owe is returned in order, and those are forgotten. |
| `TaskOwners.TaskOwners.WorkEnded` | backend/internal/acp/task_owners.go:70-80 | A work's end counts down the waiting tasks and forgets those at zero. |
| `TaskOwners.TaskOwners.Idle` | backend/internal/acp/task_owners.go:82-92 | What the tasks that ended while no work ran owe together. |
| `Admission.NothingAfterClose` | backend/internal/acp/lifecycle.go:52-71 | Once Close has closed admission no reader is left and nothing is registered; once it has taken its processes nothing is launched or live. |
| `Admission.ShutdownMissesOnlyReplaced` | backend/internal/acp/lifecycle.go:52-71 | Every process ever registered was torn down or is closed by Close, if and only if the run has no step in which a launch registers one while its session has a live one. |
| `Admission.ShutdownMissesNothing` | backend/internal/acp/lifecycle.go:52-71 | When no session is launched, in any of the three ways, while it has a job or another launch, shutdown misses nothing. |
| `Admission.ResumesDoNotOverlap` | backend/internal/acp/resume.go:32-50 | A resume holds its session's lock and looks for its job, so resumes alone never launch a session twice at once. |
| `Admission.ALaunchReplaces` | backend/internal/acp/lifecycle.go:177-189 | A run in which a resume that found no job displaces the process of a spawn that registered since, which neither a teardown nor Close then finds. |
| `Admission.Registry.AddJob` | backend/internal/acp/lifecycle.go:177-189 | A job is registered, with its process if it has one. |
| `Admission.Registry.Teardown` | backend/internal/acp/lifecycle.go:145-170 | A session's job and process leave the registry together, and the process is the one to close. |
| `Admission.Registry.TakeProcesses` | backend/internal/acp/lifecycle.go:58-71 | Close takes all registered processes and leaves none. |

## Left out

- The wait of a steer for the prompt before it to be handed off after a permission was cancelled (`promptHandoff`): it only delays a send.
- Native steering and Grok interjections, the fallback in `runPrompt` that starts a turn when none exists, and local agents' turns: cases without harder invariants.
- A sent notice that arrives after the prompt's reply: the write, its notice and its channel are one step here.
- What a turn owes and to whom, parent visibility, plans, goals, titles, attention and status texts of a job.
- The check that a provider session id is present before a turn is resumed, and the joining of a resumed message's parts with blank lines: the parts are a sequence.
- Prompt ids as text, JSON decoding, redaction, name derivation and web results of tool calls, BM25 scores, tokenising and stemming: decoded values and arbitrary choices.
- Wall-clock time, retry delays and flush intervals: a timer is a step.
- The total and context fields of usage beyond carrying them along: they follow latest-wins and derived rules. Reading usage out of an adapter's message.
- The click targets of an observation, and formatting of a node beyond its number and indentation.
- `Transcript` follows one buffer, with what the log gets from it, for as long as anyone holds it; the order between a deleted buffer's text and its successor's is not stated. Tool output published late, and the counting of a result's readers.
- The answers shown in a permission's response, trimmed question by question: the outcome carries the answers the call gets.
- Joining of a member to a group, its thread, the prompt made of the posts, and mention parsing: the mentioned members are given.
- The recorded provider session id, with which the store refuses the second of two launches of one session for most agents: `Admission` lets both register.
- Recording session status at shutdown, and the closing of processes beyond which ones are closed.
- Rooms.HandedOnce: says nothing of a run in which a save fails; then the batch is handed again, and `Rooms.ShownOnce` says what is saved.
- ToolExposure.Complete: models a model's responses as given, and not the provider's errors or media.
- Transcript.ReadsBack: the events of a stretch of the log between two flushes stand for those the store returns as the latest turn's.
- The failed status that a thread's start sets when its first send is refused (`backend/internal/acp/start.go:63-72`), and a session's next job after its process was replaced: one job is modelled, with restarts of the program.
- The lookup of a session and the publishing that follows it in `Permissions` are one step. The log is the session's own; the copies that a parent's thread gets of its events are not modelled.
- A turn begun while its process has no connection any more, which runPrompt fails and finishes without setting its calls to zero (`backend/internal/acp/turns.go:30-35`): here a turn fails through a failed call.
