/** That turns end one after the other and once each, as stopped when stopped, and after at most three retries. */
module TurnEnds {
  import opened Wrappers
  import opened Turns
  import opened Recovery
  import opened TurnRuns
  import opened TurnAccounting

  // ---- One turn at a time, each signalled once ----

  /** Whether the job has yet to close the turn's done channel. */
  predicate Live(job: Job, id: TurnId) {
    (job.turn.Some? && job.turn.value.id == id) || job.finishing == Some(id)
  }

  ghost predicate SignalsMatch(job: Job, signals: multiset<TurnId>, base: TurnId, nextTurn: TurnId) {
    && base <= nextTurn
    && (job.turn.Some? ==> job.finishing.None? && base <= job.turn.value.id && job.turn.value.id + 1 == nextTurn)
    && (job.finishing.Some? ==> base <= job.finishing.value && job.finishing.value + 1 == nextTurn)
    && (forall id :: signals[id] <= 1)
    && (forall id: nat :: base <= id ==> (signals[id] == 1 <==> id < nextTurn && !Live(job, id)))
  }

  ghost predicate SignalledOnce(w: World) {
    SignalsMatch(w.thread.job, w.signals, w.base, w.nextTurn)
  }

  /** Whether two jobs hold the same turn and finish the same one. */
  predicate SameTurns(a: Job, b: Job) {
    && a.finishing == b.finishing && (a.turn.Some? <==> b.turn.Some?)
    && (a.turn.Some? ==> a.turn.value.id == b.turn.value.id)
  }

  lemma SameTurnsKeepSignals(a: Job, b: Job, signals: multiset<TurnId>, base: TurnId, nextTurn: TurnId)
    requires SameTurns(a, b) && SignalsMatch(a, signals, base, nextTurn)
    ensures SignalsMatch(b, signals, base, nextTurn)
  {
  }

  lemma BeginningKeepsSignals(a: Job, b: Job, signals: multiset<TurnId>, base: TurnId, nextTurn: TurnId)
    requires a.turn.None? && a.finishing.None? && SignalsMatch(a, signals, base, nextTurn)
    requires b.turn.Some? && b.finishing.None? && b.turn.value.id == nextTurn
    ensures SignalsMatch(b, signals, base, nextTurn + 1)
  {
  }

  lemma CompletionKeepsTurns(t: Thread, done: TurnId, reason: StopReason, failure: Option<Failure>, visible: bool, recorded: bool)
    ensures SameTurns(t.job, CompletePromptCall(t, done, reason, failure, visible, recorded).0.job)
  {
  }

  lemma SendingKeepsTurns(w: World, e: CallEvent)
    requires CallEnabled(w, e) && Carries(e)
    ensures var w' := CallNext(w, e);
            SameTurns(w.thread.job, w'.thread.job) && w'.signals == w.signals && w'.base == w.base && w'.nextTurn == w.nextTurn
  {
    match e {
      case Register(index, ok) => SendingCounts(w.thread, w.nextPrompt, ok);
      case ReadResponse(id, failed, stateOk, dropOk) => if w.thread.job.turn.Some? { AnsweringCounts(w.thread, id, stateOk, dropOk); }
      case _ =>
    }
  }

  predicate SameSignals(w: World, w': World) {
    SameTurns(w.thread.job, w'.thread.job) && w'.signals == w.signals && w'.base == w.base && w'.nextTurn == w.nextTurn
  }

  lemma CompleteKeepsTurns(w: World, done: TurnId, reason: StopReason, failure: Option<Failure>, visible: bool, recorded: bool)
    ensures SameSignals(w, CompleteNext(w, done, reason, failure, visible, recorded))
  {
    CompletionKeepsTurns(w.thread, done, reason, failure, visible, recorded);
  }

  lemma EndsKeepTurns(w: World, e: CallEvent)
    requires CallEnabled(w, e) && !Carries(e)
    ensures SameSignals(w, CallNext(w, e))
  {
    if e.Complete? {
      var w' := w.(replies := w.replies - if w.thread.job.turn.Some? && w.thread.job.turn.value.id == e.done then 1 else 0);
      assert CallNext(w, e) == CompleteNext(w', e.done, e.reason, e.failure, e.visible, e.recorded);
      CompleteKeepsTurns(w', e.done, e.reason, e.failure, e.visible, e.recorded);
    } else if e.CompleteStopped? {
      CompleteKeepsTurns(w, w.thread.job.turn.value.id, StopCancelled, None, false, false);
    }
  }

  lemma ApplyKeepsSignals(w: World, update: Update, choices: ApplyChoices)
    requires SignalledOnce(w)
    ensures SignalledOnce(Apply(w, update, choices).0)
  {
    var w' := Apply(w, update, choices).0;
    if update.Working? && StartAgentRun(w.thread, update, w.nextTurn, choices.admitted, choices.open, choices.claimed).1 == Started {
      BeginningKeepsSignals(w.thread.job, w'.thread.job, w.signals, w.base, w.nextTurn);
    } else {
      if update.Output? && w.thread.job.turn.Some? {
        PromptStateLeavesCounters(w.thread, Confirmed, choices.ok);
      }
      SameTurnsKeepSignals(w.thread.job, w'.thread.job, w.signals, w.base, w.nextTurn);
    }
  }

  lemma CallsKeepSignals(w: World, e: CallEvent)
    requires SignalledOnce(w) && CallEnabled(w, e)
    ensures SignalledOnce(CallNext(w, e))
  {
    if Carries(e) {
      SendingKeepsTurns(w, e);
    } else {
      EndsKeepTurns(w, e);
    }
    SameTurnsKeepSignals(w.thread.job, CallNext(w, e).thread.job, w.signals, w.base, w.nextTurn);
  }

  lemma UpdatesKeepSignals(w: World, e: UpdateEvent)
    requires SignalledOnce(w) && UpdateEnabled(w, e)
    ensures SignalledOnce(UpdateNext(w, e))
  {
    match e {
      case ApplyReceived(choices) => ApplyKeepsSignals(w, w.reader.value, choices);
      case ApplyHeld(choices) => ApplyKeepsSignals(w, w.replay.update, choices);
      case _ => SameTurnsKeepSignals(w.thread.job, UpdateNext(w, e).thread.job, w.signals, w.base, w.nextTurn);
    }
  }

  lemma BeginKeepsSignals(w: World, request: TurnRequest, ok: bool, continuations: nat)
    requires SignalledOnce(w)
    ensures SignalledOnce(BeginTurnOf(w, request, ok, continuations))
  {
    var w' := BeginTurnOf(w, request, ok, continuations);
    if ClaimTurn(w.thread, w.nextTurn, request, ok).1 {
      BeginningKeepsSignals(w.thread.job, w'.thread.job, w.signals, w.base, w.nextTurn);
    }
  }

  lemma TurnsKeepSignals(w: World, e: TurnEvent)
    requires SignalledOnce(w) && TurnEnabled(w, e)
    ensures SignalledOnce(TurnNext(w, e))
  {
    match e {
      case Send(request, ok) => BeginKeepsSignals(w, request.(retries := 0), ok, 0);
      case ResumeTurn(ok) =>
        BeginKeepsSignals(w, Resume(w.thread.stored).request, ok, if w.thread.stored.None? then 0 else w.continuations);
      case BeginFinishing =>
      case EndFinishing =>
      case Restart =>
      case _ => SameTurnsKeepSignals(w.thread.job, TurnNext(w, e).thread.job, w.signals, w.base, w.nextTurn);
    }
  }

  // ---- A stopped turn ends as stopped ----

  /** Whether the status says that the turn was stopped, for the reason it records. */
  predicate SaysStopped(status: Status, reason: StopReason, turn: Turn) {
    status == Cancelled && reason == turn.cancelReason
  }

  /**
  What failTurn is about to set, once it has read the turn's stop: the stop
  still recorded, unless the last one recorded since had another reason.
  */
  predicate SettlesAsStopped(turn: Turn, closing: Closing, late: bool)
    requires closing.Settling?
  {
    && !InProgress(closing.status)
    && (if turn.cancelRequested then late <==> !SaysStopped(closing.status, closing.reason, turn)
        else closing.status == Failed && !late)
  }

  /** How a stopped turn's status stands once its calls are over, by who set it last. */
  predicate StandsAsStopped(job: Job, turn: Turn, setBy: Option<Watcher>, late: bool) {
    match setBy
    case None => late <==> !SaysStopped(job.status, job.stopReason, turn)
    case Some(OfConnection) => job.status == Failed
    case Some(OfStop) => job.status == Cancelled && job.stopReason == StopCancelled
  }

  predicate EndsAsStopped(job: Job, closing: Closing, setBy: Option<Watcher>, late: bool) {
    job.turn.Some? ==>
      var turn := job.turn.value;
      && (turn.cancelRequested ==> turn.cancelReason != NoReason)
      && (closing == Open || closing == Failing ==> !late)
      && (closing.Settling? ==> SettlesAsStopped(turn, closing, late))
      && (closing == Ready ==> !InProgress(job.status) && (turn.cancelRequested ==> StandsAsStopped(job, turn, setBy, late)))
  }

  ghost predicate StopsHold(w: World) {
    EndsAsStopped(w.thread.job, w.closing, w.watch.setBy, w.watch.late)
  }

  /** What the account of stops reads of a job. */
  predicate SameStops(a: Job, b: Job) {
    && a.status == b.status && a.stopReason == b.stopReason && (a.turn.Some? <==> b.turn.Some?)
    && (a.turn.Some? ==> a.turn.value.cancelRequested == b.turn.value.cancelRequested && a.turn.value.cancelReason == b.turn.value.cancelReason)
  }

  /** A call's end settles the turn only out of progress, and a stopped turn only as cancelled for the reason recorded. */
  predicate Settles(turn: Turn, outcome: Completion) {
    outcome.Ends? ==> !InProgress(outcome.status) && (turn.cancelRequested ==> outcome.status == Cancelled && outcome.reason == turn.cancelReason)
  }

  lemma OutcomesSettle(t: Thread, turn: Turn, reason: StopReason, failure: Option<Failure>, visible: bool, recorded: bool)
    ensures Settles(turn, OutcomeOf(t, turn, reason, failure, visible, recorded))
  {
  }

  lemma CompletedStops(t: Thread, outcome: Completion, setBy: Option<Watcher>, late: bool)
    requires t.job.turn.Some? && EndsAsStopped(t.job, Open, setBy, late) && Settles(t.job.turn.value, outcome)
    ensures var t' := Completed(t, t.job.turn.value, outcome);
            if outcome.Ends? then EndsAsStopped(t'.job, Ready, None, false) else SameStops(t.job, t'.job)
  {
  }

  lemma CompleteKeepsStops(w: World, done: TurnId, reason: StopReason, failure: Option<Failure>, visible: bool, recorded: bool)
    requires StopsHold(w) && (Completes(w.thread, done) ==> w.closing == Open)
    requires w.thread.job.turn.Some? ==> w.thread.job.turn.value.promptCalls >= 0
    ensures StopsHold(CompleteNext(w, done, reason, failure, visible, recorded))
  {
    if Completes(w.thread, done) {
      OutcomesSettle(w.thread, w.thread.job.turn.value, reason, failure, visible, recorded);
      CompletedStops(w.thread, OutcomeOf(w.thread, w.thread.job.turn.value, reason, failure, visible, recorded), w.watch.setBy, w.watch.late);
    }
  }

  /** The calls' steps that settle nothing: they leave what the account of stops reads. */
  lemma SendingKeepsStops(w: World, e: CallEvent)
    requires CallEnabled(w, e) && Carries(e)
    ensures var w' := CallNext(w, e);
            SameStops(w.thread.job, w'.thread.job) && w'.closing == w.closing && w'.watch == w.watch
  {
    match e {
      case Register(index, ok) => SendingCounts(w.thread, w.nextPrompt, ok);
      case ReadResponse(id, failed, stateOk, dropOk) => if w.thread.job.turn.Some? { AnsweringCounts(w.thread, id, stateOk, dropOk); }
      case _ =>
    }
  }

  lemma CallsKeepStops(w: World, e: CallEvent)
    requires StopsHold(w) && CallsAccounted(w) && CallEnabled(w, e)
    ensures StopsHold(CallNext(w, e))
  {
    match e {
      case Complete(done, reason, failure, visible, recorded) =>
        var current := w.thread.job.turn.Some? && w.thread.job.turn.value.id == done;
        CompleteKeepsStops(w.(replies := w.replies - if current then 1 else 0), done, reason, failure, visible, recorded);
      case CompleteStopped => CompleteKeepsStops(w, w.thread.job.turn.value.id, StopCancelled, None, false, false);
      case _ => if Carries(e) { SendingKeepsStops(w, e); }
    }
  }

  lemma SameStopsKeep(w: World, w': World)
    requires StopsHold(w) && SameStops(w.thread.job, w'.thread.job)
    requires w'.closing == w.closing && w'.watch == w.watch
    ensures StopsHold(w')
  {
  }

  lemma ApplyKeepsStops(w: World, update: Update, choices: ApplyChoices)
    requires StopsHold(w)
    ensures StopsHold(Apply(w, update, choices).0)
  {
    var w' := Apply(w, update, choices).0;
    if update.Working? && StartAgentRun(w.thread, update, w.nextTurn, choices.admitted, choices.open, choices.claimed).1 == Started {
      assert w'.closing == Open && !w'.watch.late;
    } else {
      if update.Output? && w.thread.job.turn.Some? {
        PromptStateLeavesCounters(w.thread, Confirmed, choices.ok);
      }
      SameStopsKeep(w, w');
    }
  }

  lemma UpdatesKeepStops(w: World, e: UpdateEvent)
    requires StopsHold(w) && UpdateEnabled(w, e)
    ensures StopsHold(UpdateNext(w, e))
  {
    match e {
      case ApplyReceived(choices) => ApplyKeepsStops(w, w.reader.value, choices);
      case ApplyHeld(choices) => ApplyKeepsStops(w, w.replay.update, choices);
      case _ =>
    }
  }

  /** A stop, and those that look at the status and set it. */
  lemma WatchersKeepStops(w: World, e: TurnEvent)
    requires StopsHold(w) && TurnEnabled(w, e)
    requires e.Stop? || e.StopTimesOut? || e.ConnectionEnds? || e.Observe? || e.SetObserved?
    ensures StopsHold(TurnNext(w, e))
  {
  }

  lemma TurnsKeepStops(w: World, e: TurnEvent)
    requires StopsHold(w) && TurnEnabled(w, e)
    ensures StopsHold(TurnNext(w, e))
  {
    if e.Stop? || e.StopTimesOut? || e.ConnectionEnds? || e.Observe? || e.SetObserved? {
      WatchersKeepStops(w, e);
    }
  }
}
