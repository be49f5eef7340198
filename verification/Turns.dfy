/**
The critical sections of one thread's turn, as functions on the job and on the
turn its store keeps. Each function is what one hold of `job.mu` does; module
Job carries the same steps out on fields, and module TurnRuns interleaves them.
Store writes take the outcome of the write (`ok`): a write happens whole or not
at all. Message content, titles, permissions and status texts are left to other
modules or out.
*/
module Turns {
  import opened Wrappers

  type TurnId = nat    // the identity of a turn's done channel
  type PromptId = nat  // the request id of a session/prompt call
  type Slot = nat      // the identity of a steer's sent channel

  const MAX_RETRIES: int := 3

  datatype Status = Starting | Running | Idle | Cancelled | Failed

  datatype StopReason = NoReason | EndTurn | StopCancelled | ServerShutdown | OtherReason(name: string)

  /** A provider failure that ended a turn: its category and whether it offers a retry. */
  datatype Failure = Failure(category: string, retryable: bool)

  datatype Turn = Turn(
    id: TurnId,
    promptCalls: int,
    unsent: int,
    prompts: set<PromptId>,
    kept: int,
    steerSent: Option<Slot>,
    firstPromptSent: bool,
    agentRun: bool,
    retries: int,
    retrying: bool,
    providerRetried: set<string>,
    cancelRequested: bool,
    cancelReason: StopReason,
    promptSending: bool,
    promptObserved: bool,
    allowSilence: bool)

  /** What the connection hands a thread's job, decoded. */
  datatype Update =
    | Output(content: nat, progress: bool)
    | Retrying(category: string)
    | Working
    | WorkEnded(failed: bool)

  datatype Job = Job(
    status: Status,
    stopReason: StopReason,
    compacting: bool,
    turn: Option<Turn>,
    finishing: Option<TurnId>,
    leases: int,
    retired: bool,
    deferred: Option<seq<Update>>,
    replaying: bool)

  datatype PromptState = Unset | Sending | Confirmed

  datatype StoredPrompt = StoredPrompt(message: seq<string>, state: PromptState)

  /** The turn a thread's record keeps, which is all of it that a restart finds. */
  datatype StoredTurn = StoredTurn(
    prompt: Option<StoredPrompt>,
    steers: seq<string>,
    retries: int,
    compacting: bool,
    allowSilence: bool)

  datatype Thread = Thread(job: Job, stored: Option<StoredTurn>)

  /** What a send asks of the turn it starts. */
  datatype TurnRequest = TurnRequest(
    message: seq<string>,
    retries: int,
    compacting: bool,
    allowSilence: bool,
    claimed: bool)

  // ---- The job ----

  predicate InProgress(status: Status) {
    status == Running || status == Starting
  }

  /** Whether every call of the job's turn was answered and the turn has yet to finish. */
  predicate Ending(job: Job) {
    || job.finishing.Some?
    || (job.turn.Some? && !job.turn.value.agentRun && job.turn.value.unsent == 0 && job.turn.value.prompts == {})
  }

  function BegunTurn(id: TurnId, retries: int, allowSilence: bool): Turn {
    Turn(id, 1, 1, {}, 0, None, false, false, retries, false, {}, false, NoReason, false, false, allowSilence)
  }

  function AgentRunTurn(id: TurnId): Turn {
    BegunTurn(id, 0, true).(agentRun := true, promptObserved := true, unsent := 0, firstPromptSent := true)
  }

  function BeginTurn(job: Job, turn: Turn, compacting: bool): Job {
    job.(status := Running, stopReason := NoReason, compacting := compacting, turn := Some(turn))
  }

  predicate SendConflict(job: Job, claimed: bool) {
    job.turn.Some? || job.finishing.Some? || (job.status == Starting && !claimed)
  }

  /** claimTurn: a send's turn starts unless another holds the thread or it cannot be stored. */
  function ClaimTurn(t: Thread, id: TurnId, req: TurnRequest, ok: bool): (r: (Thread, bool)) {
    if SendConflict(t.job, req.claimed) || !ok then (t, false)
    else
      var stored := StoredTurn(Some(StoredPrompt(req.message, Unset)), [], req.retries, req.compacting, req.allowSilence);
      (Thread(BeginTurn(t.job, BegunTurn(id, req.retries, req.allowSilence), req.compacting), Some(stored)), true)
  }

  // ---- Prompts on the wire ----

  /** setPromptStateLocked: records how far the turn's opening prompt got; false when the write failed. */
  function SetPromptState(t: Thread, state: PromptState, ok: bool): (r: (Thread, bool)) {
    if t.job.turn.None? then (t, true)
    else
      var turn := t.job.turn.value;
      if turn.promptObserved || (state == Confirmed && !turn.promptSending) then (t, true)
      else if !ok || t.stored.None? || t.stored.value.prompt.None? then (t, false)
      else
        var prompt := t.stored.value.prompt.value;
        var stored := if prompt.state == Confirmed then t.stored.value
                      else t.stored.value.(prompt := Some(prompt.(state := state)));
        var turn' := if state == Sending then turn.(promptSending := true)
                     else if state == Confirmed then turn.(promptObserved := true)
                     else turn;
        (Thread(t.job.(turn := Some(turn')), Some(stored)), true)
  }

  /** The newest n of steers, which is what KeepTurnSteers(n) leaves. */
  function Newest(steers: seq<string>, n: int): (r: seq<string>) {
    if n >= |steers| then steers else if n <= 0 then [] else steers[|steers| - n..]
  }

  function Untaken(turn: Turn): int {
    turn.unsent + if |turn.prompts| == 0 then 0 else |turn.prompts| - 1
  }

  /** dropTakenSteersLocked: the store forgets the steers the agent took in. */
  function DropTakenSteers(t: Thread, ok: bool): Thread
    requires t.job.turn.Some?
  {
    var turn := t.job.turn.value;
    var untaken := Untaken(turn);
    if turn.kept <= untaken || !ok then t
    else
      var stored := if t.stored.None? then None
                    else Some(t.stored.value.(steers := Newest(t.stored.value.steers, untaken)));
      Thread(t.job.(turn := Some(turn.(kept := untaken))), stored)
  }

  /** promptSending: a call is registered as on the wire before it is written; false refuses the write. */
  function PromptSending(t: Thread, id: PromptId, ok: bool): (r: (Thread, bool)) {
    var (t', recorded) := SetPromptState(t, Sending, ok);
    if !recorded || t'.job.turn.None? then (t', recorded)
    else
      var turn := t'.job.turn.value;
      (t'.(job := t'.job.(turn := Some(turn.(unsent := turn.unsent - 1, prompts := turn.prompts + {id})))), true)
  }

  /** promptSent: a call went out, which opens the turn to steering. */
  function PromptSent(t: Thread, ok: bool): Thread {
    if t.job.turn.None? then t
    else DropTakenSteers(t.(job := t.job.(turn := Some(t.job.turn.value.(firstPromptSent := true)))), ok)
  }

  /** promptAnswered: the connection read the response to a call. */
  function PromptAnswered(t: Thread, id: PromptId, stateOk: bool, dropOk: bool): Thread {
    if t.job.turn.None? || id !in t.job.turn.value.prompts then t
    else
      var t' := SetPromptState(t, Confirmed, stateOk).0;
      var turn := t'.job.turn.value;
      DropTakenSteers(t'.(job := t'.job.(turn := Some(turn.(prompts := turn.prompts - {id})))), dropOk)
  }

  // ---- Steering ----

  datatype SteerSlot = SteerSlot(turn: TurnId, after: Option<Slot>, sent: Slot)

  datatype SteerResult = Reserved(slot: SteerSlot) | TurnEnded | PromptPending | NotStored

  /** reserveSteer, for an agent that queues prompts. A steer into the agent's own run, which reports no take-in, is not kept. */
  function ReserveSteer(t: Thread, message: string, sent: Slot, ok: bool): (r: (Thread, SteerResult)) {
    if t.job.turn.None? || t.job.turn.value.promptCalls == 0 || !InProgress(t.job.status) then (t, TurnEnded)
    else
      var turn := t.job.turn.value;
      if turn.retrying || !turn.firstPromptSent then (t, PromptPending)
      else if !ok || t.stored.None? then (t, NotStored)
      else
        var keep := !turn.agentRun;
        var stored := if keep then t.stored.value.(steers := t.stored.value.steers + [message]) else t.stored.value;
        var turn' := turn.(promptCalls := turn.promptCalls + 1, unsent := turn.unsent + 1,
                           kept := if keep then turn.kept + 1 else turn.kept, steerSent := Some(sent));
        (Thread(t.job.(turn := Some(turn')), Some(stored)), Reserved(SteerSlot(turn.id, turn.steerSent, sent)))
  }

  // ---- How calls and turns end ----

  datatype Completion = Ignored | HandedOff | Waits | Ends(status: Status, reason: StopReason)

  /** retryDelay and recordRetry: whether the failure that ended the turn is retried. */
  predicate Retries(t: Thread, turn: Turn, failure: Failure, recorded: bool) {
    && failure.retryable && failure.category !in turn.providerRetried && turn.retries < MAX_RETRIES
    && !t.job.compacting && recorded && t.stored.Some?
  }

  function WaitToRetry(turn: Turn): Turn {
    turn.(retries := turn.retries + 1, retrying := true, promptCalls := 1, unsent := turn.unsent + 1, firstPromptSent := false)
  }

  /** What a call's end means for its turn: `visible` says that the turn has something to show, `recorded` that a retry can be stored. */
  function OutcomeOf(t: Thread, turn: Turn, reason: StopReason, failure: Option<Failure>, visible: bool, recorded: bool): Completion {
    if turn.promptCalls > 1 && !turn.cancelRequested then HandedOff
    else if turn.cancelRequested then Ends(Cancelled, turn.cancelReason)
    else if reason == StopCancelled then Ends(Cancelled, reason)
    else if failure.Some? then
      if Retries(t, turn, failure.value, recorded) then Waits else Ends(Failed, reason)
    else if reason == EndTurn && !t.job.compacting && !turn.allowSilence && !visible then Ends(Failed, reason)
    else Ends(Idle, reason)
  }

  /** The thread after a call of its turn ended so. */
  function Completed(t: Thread, turn: Turn, outcome: Completion): Thread {
    match outcome
    case Ignored => t
    case HandedOff => t.(job := t.job.(turn := Some(turn.(promptCalls := turn.promptCalls - 1))))
    case Waits =>
      Thread(t.job.(turn := Some(WaitToRetry(turn))),
             if t.stored.None? then None else Some(t.stored.value.(retries := turn.retries + 1)))
    case Ends(status, stop) =>
      t.(job := t.job.(turn := Some(turn.(promptCalls := 0)), status := status, stopReason := stop))
  }

  /** completePromptCall. */
  function CompletePromptCall(t: Thread, done: TurnId, reason: StopReason, failure: Option<Failure>,
                              visible: bool, recorded: bool): (r: (Thread, Completion))
  {
    if t.job.turn.None? || t.job.turn.value.id != done || t.job.turn.value.promptCalls == 0 then (t, Ignored)
    else
      var outcome := OutcomeOf(t, t.job.turn.value, reason, failure, visible, recorded);
      (Completed(t, t.job.turn.value, outcome), outcome)
  }

  /** retryPrompt's first hold of the lock: the wait ends, and the result says whether the turn was stopped meanwhile. */
  function EndRetryWait(t: Thread, done: TurnId): (r: (Thread, bool)) {
    if t.job.turn.None? || t.job.turn.value.id != done then (t, false)
    else (t.(job := t.job.(turn := Some(t.job.turn.value.(retrying := false)))), t.job.turn.value.cancelRequested)
  }

  /** failPromptCall's hold of the lock; the result says whether the turn now fails. */
  function FailPromptCall(t: Thread, done: TurnId): (r: (Thread, bool)) {
    if t.job.turn.None? || t.job.turn.value.id != done || t.job.turn.value.promptCalls == 0 then (t, false)
    else (t.(job := t.job.(turn := Some(t.job.turn.value.(promptCalls := 0)))), true)
  }

  function SetStatus(job: Job, status: Status, reason: StopReason): Job {
    job.(status := status, stopReason := reason, compacting := job.compacting && InProgress(status))
  }

  /** cancelReason, the first hold of failTurn's lock: the stop that is recorded on the turn, if any. */
  function StopOf(job: Job): Option<StopReason> {
    if job.turn.None? || !job.turn.value.cancelRequested then None
    else Some(if job.turn.value.cancelReason == NoReason then StopCancelled else job.turn.value.cancelReason)
  }

  /** What failTurn then sets: a turn that died after a stop request ends as cancelled, not failed. */
  function FailedAs(stop: Option<StopReason>): (r: (Status, StopReason)) {
    if stop.Some? then (Cancelled, stop.value) else (Failed, NoReason)
  }

  /** finishTurn's first hold of the lock; the result says whether this call finishes the turn. */
  function BeginFinish(job: Job, done: TurnId): (r: (Job, bool)) {
    if job.turn.None? || job.turn.value.id != done then (job, false)
    else (job.(turn := None, finishing := Some(done)), true)
  }

  /** FinishSessionTurn, or for a shutdown nothing: the stored turn goes on after the restart. */
  function StoreFinish(t: Thread): Thread {
    if t.job.stopReason == ServerShutdown then t else t.(stored := None)
  }

  function EndFinish(job: Job): Job {
    job.(finishing := None)
  }

  /** Whether a stop is recorded: on a turn in progress, and never a shutdown over an earlier stop. */
  predicate Records(job: Job, reason: StopReason) {
    job.turn.Some? && InProgress(job.status) && !(reason == ServerShutdown && job.turn.value.cancelRequested)
  }

  /** requestTurnCancel. */
  function RequestCancel(job: Job, reason: StopReason): Job {
    if !Records(job, reason) then job
    else job.(turn := Some(job.turn.value.(cancelRequested := true, cancelReason := reason)))
  }

  // ---- Runs the agent starts itself, and the updates held back meanwhile ----

  datatype RunStart = NotStarted | HeldBack | Started

  /** startAgentRun on a report of work: `open` that the process lives, `claimed` that no other turn holds the stored thread. */
  function StartAgentRun(t: Thread, report: Update, id: TurnId, admitted: bool, open: bool, claimed: bool): (r: (Thread, RunStart)) {
    if !admitted then (t, NotStarted)
    else if Ending(t.job) then
      (t.(job := t.job.(deferred := Some([report] + Held(t.job)))), HeldBack)
    else if t.job.turn.Some? || t.job.retired || !open || !claimed then (t, NotStarted)
    else
      (Thread(BeginTurn(t.job, AgentRunTurn(id), false), Some(StoredTurn(None, [], 0, false, true))), Started)
  }

  datatype WorkEnd = NoRun | RunFailed | RunCompleted

  /** endWork: the agent's own run ends with its report. */
  function EndWork(job: Job, failed: bool): (r: (Job, WorkEnd)) {
    if job.turn.None? then (job, NoRun)
    else
      var turn := job.turn.value;
      (job.(turn := Some(turn.(agentRun := false))),
       if !turn.agentRun then NoRun else if failed && turn.promptCalls <= 1 then RunFailed else RunCompleted)
  }

  /** watchAgentRun: the agent's own run is over when its connection closes first. */
  function LoseAgentRun(job: Job): Job {
    if job.turn.None? then job else job.(turn := Some(job.turn.value.(agentRun := false)))
  }

  function Held(job: Job): seq<Update> {
    if job.deferred.Some? then job.deferred.value else []
  }

  /** deferUpdate: an update waits while earlier ones do. */
  function DeferUpdate(job: Job, update: Update): (r: (Job, bool)) {
    if job.deferred.None? then (job, false)
    else (job.(deferred := Some(job.deferred.value + [update])), true)
  }

  datatype ReplayStep = ReplayStops | ReplayTakes(update: Update)

  /** The head of replayDeferred's loop. */
  function TakeDeferred(job: Job): (r: (Job, ReplayStep)) {
    if job.replaying || job.deferred.None? || Ending(job) then (job, ReplayStops)
    else if |job.deferred.value| == 0 then (job.(deferred := None), ReplayStops)
    else (job.(deferred := Some(job.deferred.value[1..]), replaying := true), ReplayTakes(job.deferred.value[0]))
  }

  /** applyJobUpdate on what the turn writes: the agent has its prompt, and with progress its provider's own retries are over. */
  function ApplyOutput(t: Thread, progress: bool, ok: bool): Thread {
    var t' := SetPromptState(t, Confirmed, ok).0;
    if t'.job.turn.None? || !progress then t'
    else t'.(job := t'.job.(turn := Some(t'.job.turn.value.(providerRetried := {}))))
  }

  function ApplyRetrying(job: Job, category: string): Job {
    if job.turn.None? then job
    else job.(turn := Some(job.turn.value.(providerRetried := job.turn.value.providerRetried + {category})))
  }

  // ---- Stopping an idle process ----

  function Lease(job: Job): (r: (Job, bool)) {
    if job.retired then (job, false) else (job.(leases := job.leases + 1), true)
  }

  function Release(job: Job): Job {
    job.(leases := job.leases - 1)
  }

  /** retire: the process is claimed for stopping when no turn, lease or background task holds it. */
  function Retire(job: Job, taskLive: bool): (r: (Job, bool)) {
    if job.retired || job.turn.Some? || job.finishing.Some? || job.leases > 0 || taskLive then (job, false)
    else (job.(retired := true), true)
  }
}
