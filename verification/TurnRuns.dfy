/**
Runs of one thread: every interleaving of the critical sections in module Turns
with the threads that carry prompt calls, the connection, the agent, the store,
the sweep that stops idle processes, and restarts.

Assumed of the world around the job: the agent queues prompts and answers them
oldest first; updates of a connection arrive one at a time; a store call fails or
succeeds whole; a call of an ended turn is not sent into a later turn; none is
registered with a connection that ended, though the program would register one
before its write fails; a prompt is written, noted as sent and its sent channel
closed in one step.
*/
module TurnRuns {
  import opened Wrappers
  import opened Turns
  import opened Recovery

  datatype CallKind = Opening(message: seq<string>) | Continuation | Steered(text: string, kept: bool)

  /** A prompt call: it may be sent once `after` is closed, and closes `sent` when it is on the wire. */
  datatype Call = Call(kind: CallKind, after: Option<Slot>, sent: Slot)

  /** A call registered with the connection; `written` once it is on the wire. */
  datatype Prompt = Prompt(id: PromptId, call: Call, written: bool)

  /**
  Open until the turn's last call ends; Failing between a failed call and
  failTurn; Settling once failTurn has read the turn's stop and before it sets
  the status; Ready for finishTurn.
  */
  datatype Closing = Open | Failing | Settling(status: Status, reason: StopReason) | Ready

  /** Who sets a job's status besides its turn: a connection's end, or a stop that the agent ignored. */
  datatype Watcher = OfConnection | OfStop

  /** One that is about to look at the status, or has looked and is about to set it. */
  datatype Observer = Looks(who: Watcher) | Sets(who: Watcher)

  datatype RetryPhase = NoRetry | WaitingToRetry | RetryStopped

  datatype Hand = Empty | Holds(update: Update) | Applied

  /**
  The job's status as others than its turn see and set it. `setBy` is who did so
  last since the turn's calls ended; `late`, whether the last stop recorded since
  failTurn read the turn's stop had another reason; `dead`, whether the
  connection ended or its process was torn down. `observers` look at the status
  then and may set it, and `stopsWaiting` are the stops that wait for their turn.
  */
  datatype Watch = Watch(
    setBy: Option<Watcher>,
    late: bool,
    dead: bool,
    observers: multiset<Observer>,
    stopsWaiting: nat)

  const NO_WATCH := Watch(None, false, false, multiset{}, 0)

  datatype World = World(
    thread: Thread,
    // The current turn's calls: waiting to be sent, on the wire, and answered
    // or failed but not yet processed; `reserved` is all it ever had.
    queue: seq<Call>,
    wire: seq<Prompt>,
    replies: nat,
    failures: nat,
    reserved: seq<Call>,
    closing: Closing,
    retry: RetryPhase,
    closedSlots: set<Slot>,
    nextTurn: TurnId,
    nextPrompt: PromptId,
    nextSlot: Slot,
    // How often each turn's done channel was closed, since turn `base` began.
    signals: multiset<TurnId>,
    base: TurnId,
    // Continuations sent after provider failures, restarts included.
    continuations: nat,
    watch: Watch,
    // Sends that hold the process, and the updates of the connection.
    senders: nat,
    received: seq<Update>,
    applied: seq<Update>,
    reader: Option<Update>,
    replay: Hand,
    replayers: nat)

  datatype ApplyChoices = ApplyChoices(ok: bool, admitted: bool, open: bool, claimed: bool)

  /** Steps of the threads that carry prompt calls. */
  datatype CallEvent =
    | Steer(message: string, ok: bool)
    | Register(index: nat, ok: bool)
    | Write(index: nat, dropOk: bool)
    | ReadResponse(id: PromptId, failed: bool, stateOk: bool, dropOk: bool)
    | Complete(done: TurnId, reason: StopReason, failure: Option<Failure>, visible: bool, recorded: bool)
    | Fail(done: TurnId)
    | ReadStop
    | SetEnded
    | EndWait
    | CompleteStopped
    | LoseConnection

  /** The steps that make, send and answer calls. */
  predicate Carries(e: CallEvent) {
    e.Steer? || e.Register? || e.Write? || e.ReadResponse?
  }

  /** Steps of the connection's updates. */
  datatype UpdateEvent =
    | Receive(update: Update)
    | ApplyReceived(choices: ApplyChoices)
    | TakeHeld
    | ApplyHeld(choices: ApplyChoices)
    | ReleaseHeld

  /** Steps that begin, stop and finish turns, stop the process, and restart the program. */
  datatype TurnEvent =
    | BeginSend
    | EndSend
    | Send(request: TurnRequest, ok: bool)
    | ResumeTurn(ok: bool)
    | Stop(reason: StopReason)
    | StopTimesOut
    | ConnectionEnds
    | Observe(who: Watcher)
    | SetObserved(who: Watcher)
    | BeginFinishing
    | StoreFinished
    | EndFinishing
    | RetireIdle(taskLive: bool)
    | Restart

  datatype Event = OfCalls(call: CallEvent) | OfUpdates(step: UpdateEvent) | OfTurns(turn: TurnEvent)

  const FRESH_JOB := Job(Idle, NoReason, false, None, None, 0, false, None, false)

  function Start(): World {
    World(Thread(FRESH_JOB, None), [], [], 0, 0, [], Open, NoRetry, {}, 0, 0, 0, multiset{}, 0, 0, NO_WATCH, 0, [], [], None, Empty, 0)
  }

  function Ids(wire: seq<Prompt>): set<PromptId> {
    set prompt | prompt in wire :: prompt.id
  }

  predicate MayRegister(w: World, index: nat) {
    && w.thread.job.turn.Some? && !w.watch.dead && w.retry == NoRetry && index < |w.queue|
    && (w.queue[index].after.None? || w.queue[index].after.value in w.closedSlots)
  }

  predicate CallEnabled(w: World, e: CallEvent) {
    var job := w.thread.job;
    match e
    case Steer(_, _) => true
    case Register(index, _) => MayRegister(w, index)
    case Write(index, _) => index < |w.wire| && !w.wire[index].written
    // The agent answers what was written, oldest first; a response of an ended turn names no prompt.
    case ReadResponse(id, _, _, _) => id in Ids(w.wire) ==> w.wire[0].id == id && w.wire[0].written
    case Complete(done, _, _, _, _) => job.turn.Some? && job.turn.value.id == done ==> w.replies > 0
    case Fail(done) => job.turn.Some? && job.turn.value.id == done ==> w.retry == NoRetry
    case ReadStop => w.closing == Failing
    case SetEnded => w.closing.Settling?
    case EndWait => job.turn.Some? && w.retry == WaitingToRetry
    case CompleteStopped => job.turn.Some? && w.retry == RetryStopped && w.closing == Open
    case LoseConnection => job.turn.Some? && job.turn.value.agentRun
  }

  predicate UpdateEnabled(w: World, e: UpdateEvent) {
    match e
    case Receive(_) => w.reader.None?
    case ApplyReceived(_) => w.reader.Some?
    case TakeHeld => w.replayers > 0
    case ApplyHeld(_) => w.replay.Holds?
    case ReleaseHeld => w.replay.Applied?
  }

  predicate TurnEnabled(w: World, e: TurnEvent) {
    var job := w.thread.job;
    match e
    case BeginSend => true
    case EndSend => w.senders > 0
    case Send(_, _) => w.senders > 0
    case ResumeTurn(_) => w.senders > 0 && Resume(w.thread.stored).Resumes?
    case Stop(reason) => reason == StopCancelled || reason == ServerShutdown
    case StopTimesOut => w.watch.stopsWaiting > 0
    case ConnectionEnds => true
    case Observe(who) => Looks(who) in w.watch.observers
    case SetObserved(who) => Sets(who) in w.watch.observers
    case BeginFinishing => job.turn.Some? && w.closing == Ready
    case StoreFinished => job.finishing.Some?
    case EndFinishing => job.finishing.Some?
    case RetireIdle(_) => true
    case Restart => true
  }

  predicate Enabled(w: World, e: Event) {
    match e
    case OfCalls(call) => CallEnabled(w, call)
    case OfUpdates(step) => UpdateEnabled(w, step)
    case OfTurns(turn) => TurnEnabled(w, turn)
  }

  /** The world after a turn began with the given calls waiting. */
  function Begun(w: World, thread: Thread, queue: seq<Call>, continuations: nat): World {
    w.(thread := thread, queue := queue, wire := [], replies := 0, failures := 0, reserved := queue, closing := Open,
       retry := NoRetry, nextTurn := w.nextTurn + 1, nextSlot := w.nextSlot + 1, continuations := continuations, watch := w.watch.(setBy := None, late := false))
  }

  function BeginTurnOf(w: World, request: TurnRequest, ok: bool, continuations: nat): World {
    var (thread, claimed) := ClaimTurn(w.thread, w.nextTurn, request, ok);
    if !claimed then w else Begun(w, thread, [Call(Opening(request.message), None, w.nextSlot)], continuations)
  }

  /** An update is applied, or goes back to the front of the updates held back; the result says which. */
  function Apply(w: World, update: Update, choices: ApplyChoices): (r: (World, bool)) {
    match update
    case Output(_, progress) => (w.(thread := ApplyOutput(w.thread, progress, choices.ok)), true)
    case Retrying(category) => (w.(thread := w.thread.(job := ApplyRetrying(w.thread.job, category))), true)
    case Working =>
      var (thread, result) := StartAgentRun(w.thread, update, w.nextTurn, choices.admitted, choices.open, choices.claimed);
      if result == Started then (Begun(w, thread, [], 0), true) else (w.(thread := thread), result == NotStarted)
    case WorkEnded(failed) =>
      var (job, result) := EndWork(w.thread.job, failed);
      var w' := w.(thread := w.thread.(job := job));
      (match result
       case NoRun => w'
       case RunFailed => w'.(failures := w.failures + 1)
       case RunCompleted => w'.(replies := w.replies + 1), true)
  }

  function SteerNext(w: World, message: string, ok: bool): World {
    var (thread, result) := ReserveSteer(w.thread, message, w.nextSlot, ok);
    if !result.Reserved? then w
    else
      var call := Call(Steered(message, !w.thread.job.turn.value.agentRun), result.slot.after, result.slot.sent);
      w.(thread := thread, queue := w.queue + [call], reserved := w.reserved + [call], nextSlot := w.nextSlot + 1)
  }

  function RegisterNext(w: World, index: nat, ok: bool): World
    requires MayRegister(w, index)
  {
    var (thread, send) := PromptSending(w.thread, w.nextPrompt, ok);
    if !send then w.(thread := thread)
    else
      var call := w.queue[index];
      w.(thread := thread, queue := w.queue[..index] + w.queue[index + 1..], wire := w.wire + [Prompt(w.nextPrompt, call, false)],
         nextPrompt := w.nextPrompt + 1, continuations := w.continuations + if call.kind.Continuation? then 1 else 0)
  }

  function WriteNext(w: World, index: nat, dropOk: bool): World
    requires index < |w.wire|
  {
    w.(thread := PromptSent(w.thread, dropOk), wire := w.wire[index := w.wire[index].(written := true)],
       closedSlots := w.closedSlots + {w.wire[index].call.sent})
  }

  function ResponseNext(w: World, id: PromptId, failed: bool, stateOk: bool, dropOk: bool): World {
    var w' := w.(thread := PromptAnswered(w.thread, id, stateOk, dropOk));
    if id !in Ids(w.wire) || w.wire == [] then w'
    else w'.(wire := w.wire[1..], replies := w.replies + if failed then 0 else 1, failures := w.failures + if failed then 1 else 0)
  }

  function CompleteNext(w: World, done: TurnId, reason: StopReason, failure: Option<Failure>, visible: bool, recorded: bool): World {
    var (thread, result) := CompletePromptCall(w.thread, done, reason, failure, visible, recorded);
    var w' := w.(thread := thread);
    match result
    case Ignored | HandedOff => w'
    case Waits =>
      var call := Call(Continuation, None, w.nextSlot);
      w'.(queue := w.queue + [call], reserved := w.reserved + [call], nextSlot := w.nextSlot + 1, retry := WaitingToRetry)
    case Ends(_, _) => w'.(closing := Ready, watch := w.watch.(setBy := None, late := false))
  }

  function CallNext(w: World, e: CallEvent): World
    requires CallEnabled(w, e)
  {
    var job := w.thread.job;
    match e
    case Steer(message, ok) => SteerNext(w, message, ok)
    case Register(index, ok) => RegisterNext(w, index, ok)
    case Write(index, dropOk) => WriteNext(w, index, dropOk)
    case ReadResponse(id, failed, stateOk, dropOk) => ResponseNext(w, id, failed, stateOk, dropOk)
    case Complete(done, reason, failure, visible, recorded) =>
      var current := job.turn.Some? && job.turn.value.id == done;
      CompleteNext(w.(replies := w.replies - if current then 1 else 0), done, reason, failure, visible, recorded)
    case Fail(done) =>
      var (thread, fails) := FailPromptCall(w.thread, done);
      w.(thread := thread, closing := if fails then Failing else w.closing)
    case ReadStop => w.(closing := Settling(FailedAs(StopOf(job)).0, FailedAs(StopOf(job)).1))
    case SetEnded => w.(thread := w.thread.(job := SetStatus(job, w.closing.status, w.closing.reason)), closing := Ready,
                        watch := w.watch.(setBy := None))
    case EndWait =>
      var (thread, stopped) := EndRetryWait(w.thread, job.turn.value.id);
      w.(thread := thread, retry := if stopped then RetryStopped else NoRetry)
    case CompleteStopped => CompleteNext(w, job.turn.value.id, StopCancelled, None, false, false)
    case LoseConnection => w.(thread := w.thread.(job := LoseAgentRun(job)), failures := w.failures + 1)
  }

  function UpdateNext(w: World, e: UpdateEvent): World
    requires UpdateEnabled(w, e)
  {
    var job := w.thread.job;
    match e
    case Receive(update) =>
      var (job', held) := DeferUpdate(job, update);
      w.(thread := w.thread.(job := job'), received := w.received + [update], reader := if held then None else Some(update))
    case ApplyReceived(choices) =>
      var (w', applied) := Apply(w, w.reader.value, choices);
      w'.(reader := None, applied := if applied then w.applied + [w.reader.value] else w.applied)
    case TakeHeld =>
      var (job', step) := TakeDeferred(job);
      w.(thread := w.thread.(job := job'), replayers := w.replayers - 1, replay := if step.ReplayTakes? then Holds(step.update) else w.replay)
    case ApplyHeld(choices) =>
      var (w', applied) := Apply(w, w.replay.update, choices);
      w'.(replay := Applied, applied := if applied then w.applied + [w.replay.update] else w.applied)
    case ReleaseHeld =>
      w.(thread := w.thread.(job := job.(replaying := false)), replay := Empty, replayers := w.replayers + 1)
  }

  function TurnNext(w: World, e: TurnEvent): World
    requires TurnEnabled(w, e)
  {
    var job := w.thread.job;
    match e
    case BeginSend =>
      var (job', leased) := Lease(job);
      if leased then w.(thread := w.thread.(job := job'), senders := w.senders + 1) else w
    case EndSend => w.(thread := w.thread.(job := Release(job)), senders := w.senders - 1)
    case Send(request, ok) => BeginTurnOf(w, request.(retries := 0), ok, 0)
    case ResumeTurn(ok) =>
      BeginTurnOf(w, Resume(w.thread.stored).request, ok, if w.thread.stored.None? then 0 else w.continuations)
    case Stop(reason) =>
      w.(thread := w.thread.(job := RequestCancel(job, reason)),
         watch := w.watch.(
           late := if w.closing.Settling? && Records(job, reason) then w.closing != Settling(Cancelled, reason) else w.watch.late,
           stopsWaiting := w.watch.stopsWaiting + if InProgress(job.status) && reason == StopCancelled then 1 else 0))
    // The connection is gone, or torn down, before anyone looks at the status.
    case StopTimesOut =>
      w.(watch := w.watch.(dead := true, stopsWaiting := w.watch.stopsWaiting - 1, observers := w.watch.observers + multiset{Looks(OfStop)}))
    case ConnectionEnds => w.(watch := w.watch.(dead := true, observers := w.watch.observers + multiset{Looks(OfConnection)}))
    case Observe(who) =>
      w.(watch := w.watch.(observers := w.watch.observers - multiset{Looks(who)}
           + if InProgress(job.status) == (who == OfStop) then multiset{Sets(who)} else multiset{}))
    case SetObserved(who) =>
      w.(thread := w.thread.(job := if who == OfStop then SetStatus(job, Cancelled, StopCancelled) else SetStatus(job, Failed, NoReason)),
         watch := w.watch.(setBy := if w.closing == Ready then Some(who) else w.watch.setBy,
                           observers := w.watch.observers - multiset{Sets(who)}))
    case BeginFinishing =>
      w.(thread := w.thread.(job := BeginFinish(job, job.turn.value.id).0), queue := [], wire := [], replies := 0, failures := 0,
         reserved := [], closing := Open, retry := NoRetry)
    case StoreFinished => w.(thread := StoreFinish(w.thread))
    case EndFinishing =>
      w.(thread := w.thread.(job := EndFinish(job)), signals := w.signals + multiset{job.finishing.value}, replayers := w.replayers + 1)
    case RetireIdle(taskLive) => w.(thread := w.thread.(job := Retire(job, taskLive).0))
    case Restart =>
      Start().(thread := Thread(FRESH_JOB, w.thread.stored), nextTurn := w.nextTurn, nextPrompt := w.nextPrompt, nextSlot := w.nextSlot,
               signals := w.signals, base := w.nextTurn, continuations := w.continuations)
  }

  function Next(w: World, e: Event): World
    requires Enabled(w, e)
  {
    match e
    case OfCalls(call) => CallNext(w, call)
    case OfUpdates(step) => UpdateNext(w, step)
    case OfTurns(turn) => TurnNext(w, turn)
  }

  /** What a run of events leads to; an event that cannot happen changes nothing. */
  function Run(events: seq<Event>): World {
    if events == [] then Start()
    else
      var w := Run(events[..|events| - 1]);
      var e := events[|events| - 1];
      if Enabled(w, e) then Next(w, e) else w
  }
}
