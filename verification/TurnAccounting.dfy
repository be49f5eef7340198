/** What keeps a turn alive, when it ends, and that it ends once. */
module TurnAccounting {
  import opened Wrappers
  import opened Turns
  import opened Recovery
  import opened TurnRuns

  predicate DistinctIds(wire: seq<Prompt>) {
    forall i, j :: 0 <= i < j < |wire| ==> wire[i].id != wire[j].id
  }

  lemma IdsOfRest(wire: seq<Prompt>)
    requires wire != [] && DistinctIds(wire)
    ensures Ids(wire[1..]) == Ids(wire) - {wire[0].id}
  {
    forall id | id in Ids(wire) - {wire[0].id}
      ensures id in Ids(wire[1..])
    {
      var i :| 0 <= i < |wire| && wire[i].id == id;
      assert wire[1..][i - 1].id == id;
    }
    forall id | id in Ids(wire[1..])
      ensures id in Ids(wire) - {wire[0].id}
    {
      var i :| 0 <= i < |wire[1..]| && wire[1..][i].id == id;
      assert wire[i + 1].id == id;
    }
  }

  lemma IdsOfExtended(wire: seq<Prompt>, prompt: Prompt)
    ensures Ids(wire + [prompt]) == Ids(wire) + {prompt.id}
  {
    assert (wire + [prompt])[|wire|] == prompt;
    forall p | p in wire
      ensures p in wire + [prompt]
    {
    }
  }

  lemma IdsOfWritten(wire: seq<Prompt>, index: nat)
    requires index < |wire|
    ensures Ids(wire[index := wire[index].(written := true)]) == Ids(wire)
  {
    var wire' := wire[index := wire[index].(written := true)];
    forall id | id in Ids(wire)
      ensures id in Ids(wire')
    {
      var i :| 0 <= i < |wire| && wire[i].id == id;
      assert wire'[i].id == id;
    }
    forall id | id in Ids(wire')
      ensures id in Ids(wire)
    {
      var i :| 0 <= i < |wire'| && wire'[i].id == id;
      assert wire[i].id == id;
    }
  }

  /** The turn's prompts are the ids on the wire, each once, and the connection reuses none. */
  ghost predicate Registered(prompts: set<PromptId>, wire: seq<Prompt>, nextPrompt: PromptId) {
    prompts == Ids(wire) && DistinctIds(wire) && forall prompt :: prompt in wire ==> prompt.id < nextPrompt
  }

  /** Each call the turn counts is waiting, on the wire, answered or failed but not yet processed, or the agent's own run. */
  predicate Counted(turn: Turn, w: World) {
    && turn.unsent == |w.queue|
    && (if w.closing == Open then
          && turn.promptCalls == |w.queue| + |w.wire| + w.replies + w.failures + (if turn.agentRun then 1 else 0)
          && turn.promptCalls > 0
        else turn.promptCalls == 0)
  }

  /** While a turn waits to retry, or its stopped wait has yet to end it, it has one call, the unsent continuation. */
  predicate RetryHeld(turn: Turn, w: World) {
    && (turn.retrying <==> w.retry == WaitingToRetry)
    && (w.retry == WaitingToRetry ==> w.closing == Open)
    && (w.retry == RetryStopped ==> turn.cancelRequested)
    && (w.retry != NoRetry ==>
          && |w.queue| == 1 && w.queue[0].kind.Continuation? && w.wire == [] && w.replies == 0 && w.failures == 0
          && !turn.agentRun && !turn.firstPromptSent)
  }

  predicate NoTurn(w: World) {
    w.queue == [] && w.wire == [] && w.replies == 0 && w.failures == 0 && w.reserved == [] && w.closing == Open && w.retry == NoRetry
  }

  ghost predicate CallsAccounted(w: World) {
    match w.thread.job.turn
    case None => NoTurn(w)
    case Some(turn) => Registered(turn.prompts, w.wire, w.nextPrompt) && Counted(turn, w) && RetryHeld(turn, w)
  }

  // ---- What each critical section leaves of the counters ----

  /** The jobs differ at most in their turns. */
  predicate SameJob(a: Job, b: Job) {
    && a.status == b.status && a.stopReason == b.stopReason && a.compacting == b.compacting && a.finishing == b.finishing
    && a.leases == b.leases && a.retired == b.retired && a.deferred == b.deferred && a.replaying == b.replaying
  }

  /** The turns differ at most in their calls and in what they know of delivery: the prompts, the steers kept, the prompt's state. */
  predicate SameCourse(a: Turn, b: Turn) {
    && a.id == b.id && a.steerSent == b.steerSent && a.agentRun == b.agentRun && a.retries == b.retries && a.retrying == b.retrying
    && a.cancelRequested == b.cancelRequested && a.cancelReason == b.cancelReason && a.promptCalls == b.promptCalls
  }

  lemma PromptStateLeavesCounters(t: Thread, state: PromptState, ok: bool)
    requires t.job.turn.Some?
    ensures var t' := SetPromptState(t, state, ok).0;
            && SameJob(t.job, t'.job) && t'.job.turn.Some?
            && var turn, turn' := t.job.turn.value, t'.job.turn.value;
               SameCourse(turn, turn') && turn'.unsent == turn.unsent && turn'.prompts == turn.prompts && turn'.kept == turn.kept
               && turn'.firstPromptSent == turn.firstPromptSent
  {
  }

  lemma DroppingLeavesCounters(t: Thread, ok: bool)
    requires t.job.turn.Some?
    ensures var t' := DropTakenSteers(t, ok);
            && SameJob(t.job, t'.job) && t'.job.turn.Some?
            && var turn, turn' := t.job.turn.value, t'.job.turn.value;
               SameCourse(turn, turn') && turn'.unsent == turn.unsent && turn'.prompts == turn.prompts
               && turn'.firstPromptSent == turn.firstPromptSent
  {
  }

  /** Registering moves one call from the unsent to the prompts, or none. */
  lemma SendingCounts(t: Thread, id: PromptId, ok: bool)
    requires t.job.turn.Some?
    ensures var (t', send) := PromptSending(t, id, ok);
            && SameJob(t.job, t'.job) && t'.job.turn.Some?
            && var turn, turn' := t.job.turn.value, t'.job.turn.value;
               && SameCourse(turn, turn') && turn'.kept == turn.kept && turn'.firstPromptSent == turn.firstPromptSent
               && turn'.unsent == (if send then turn.unsent - 1 else turn.unsent)
               && turn'.prompts == if send then turn.prompts + {id} else turn.prompts
  {
    PromptStateLeavesCounters(t, Sending, ok);
    var (t', recorded) := SetPromptState(t, Sending, ok);
    if recorded {
      var turn := t'.job.turn.value;
      assert PromptSending(t, id, ok)
          == (t'.(job := t'.job.(turn := Some(turn.(unsent := turn.unsent - 1, prompts := turn.prompts + {id})))), true);
    } else {
      assert PromptSending(t, id, ok) == (t', false);
    }
  }

  lemma AnsweringCounts(t: Thread, id: PromptId, stateOk: bool, dropOk: bool)
    requires t.job.turn.Some?
    ensures var t' := PromptAnswered(t, id, stateOk, dropOk);
            && SameJob(t.job, t'.job) && t'.job.turn.Some?
            && var turn, turn' := t.job.turn.value, t'.job.turn.value;
               && SameCourse(turn, turn') && turn'.unsent == turn.unsent && turn'.firstPromptSent == turn.firstPromptSent
               && turn'.prompts == turn.prompts - {id}
  {
    PromptStateLeavesCounters(t, Confirmed, stateOk);
    if id in t.job.turn.value.prompts {
      var t' := SetPromptState(t, Confirmed, stateOk).0;
      var turn := t'.job.turn.value.(prompts := t'.job.turn.value.prompts - {id});
      DroppingLeavesCounters(t'.(job := t'.job.(turn := Some(turn))), dropOk);
    }
  }

  // ---- How a reply leaves the turn: with a call fewer, with only a continuation, or without calls ----

  predicate Completes(t: Thread, done: TurnId) {
    t.job.turn.Some? && t.job.turn.value.id == done && t.job.turn.value.promptCalls > 0
  }

  lemma OutcomeCounts(t: Thread, turn: Turn, reason: StopReason, failure: Option<Failure>, visible: bool, recorded: bool)
    ensures var outcome := OutcomeOf(t, turn, reason, failure, visible, recorded);
            && outcome != Ignored
            && (outcome == HandedOff <==> turn.promptCalls > 1 && !turn.cancelRequested)
            && (outcome == Waits ==> !turn.cancelRequested)
  {
  }

  lemma HandingOffCounts(t: Thread, done: TurnId, reason: StopReason, failure: Option<Failure>, visible: bool, recorded: bool)
    requires Completes(t, done) && t.job.turn.value.promptCalls > 1 && !t.job.turn.value.cancelRequested
    ensures var turn := t.job.turn.value;
            CompletePromptCall(t, done, reason, failure, visible, recorded)
            == (t.(job := t.job.(turn := Some(turn.(promptCalls := turn.promptCalls - 1)))), HandedOff)
  {
  }

  lemma LastCallCounts(t: Thread, done: TurnId, reason: StopReason, failure: Option<Failure>, visible: bool, recorded: bool)
    requires Completes(t, done) && (t.job.turn.value.promptCalls == 1 || t.job.turn.value.cancelRequested)
    ensures var (t', result) := CompletePromptCall(t, done, reason, failure, visible, recorded);
            var turn := t.job.turn.value;
            && (result == Waits ==> turn.promptCalls == 1 && !turn.cancelRequested && t'.job == t.job.(turn := Some(WaitToRetry(turn))))
            && (result != Waits ==> result.Ends? && t' == t.(job := t.job.(
                  turn := Some(turn.(promptCalls := 0)), status := result.status, stopReason := result.reason)))
  {
  }

  // ---- Every event keeps the account ----

  lemma RegisterKeepsAccount(w: World, index: nat, ok: bool)
    requires CallsAccounted(w) && MayRegister(w, index)
    ensures CallsAccounted(RegisterNext(w, index, ok))
  {
    SendingCounts(w.thread, w.nextPrompt, ok);
    IdsOfExtended(w.wire, Prompt(w.nextPrompt, w.queue[index], false));
  }

  lemma ResponseKeepsAccount(w: World, id: PromptId, failed: bool, stateOk: bool, dropOk: bool)
    requires CallsAccounted(w) && (id in Ids(w.wire) ==> w.wire[0].id == id)
    ensures CallsAccounted(ResponseNext(w, id, failed, stateOk, dropOk))
  {
    if w.thread.job.turn.Some? {
      AnsweringCounts(w.thread, id, stateOk, dropOk);
      if id in Ids(w.wire) {
        IdsOfRest(w.wire);
      }
    }
  }

  lemma HandingOffKeepsAccount(w: World, done: TurnId, reason: StopReason, failure: Option<Failure>, visible: bool, recorded: bool)
    requires CallsAccounted(w) && w.closing == Open && w.replies > 0
    requires Completes(w.thread, done) && w.thread.job.turn.value.promptCalls > 1 && !w.thread.job.turn.value.cancelRequested
    ensures CallsAccounted(CompleteNext(w.(replies := w.replies - 1), done, reason, failure, visible, recorded))
  {
    HandingOffCounts(w.thread, done, reason, failure, visible, recorded);
  }

  lemma WaitingKeepsAccount(w: World, done: TurnId, reason: StopReason, failure: Option<Failure>, visible: bool, recorded: bool)
    requires CallsAccounted(w) && w.closing == Open && w.replies > 0 && Completes(w.thread, done)
    requires CompletePromptCall(w.thread, done, reason, failure, visible, recorded).1 == Waits
    ensures CallsAccounted(CompleteNext(w.(replies := w.replies - 1), done, reason, failure, visible, recorded))
  {
    var turn := w.thread.job.turn.value;
    assert turn.promptCalls == 1 && !turn.cancelRequested && w.queue == [] && w.wire == [];
    LastCallCounts(w.thread, done, reason, failure, visible, recorded);
  }

  lemma LastCallKeepsAccount(w: World, done: TurnId, reason: StopReason, failure: Option<Failure>, visible: bool, recorded: bool)
    requires CallsAccounted(w) && w.closing == Open && w.replies > 0
    requires Completes(w.thread, done) && (w.thread.job.turn.value.promptCalls == 1 || w.thread.job.turn.value.cancelRequested)
    ensures CallsAccounted(CompleteNext(w.(replies := w.replies - 1), done, reason, failure, visible, recorded))
  {
    LastCallCounts(w.thread, done, reason, failure, visible, recorded);
    if CompletePromptCall(w.thread, done, reason, failure, visible, recorded).1 == Waits {
      WaitingKeepsAccount(w, done, reason, failure, visible, recorded);
    }
  }

  lemma CompleteKeepsAccount(w: World, done: TurnId, reason: StopReason, failure: Option<Failure>, visible: bool, recorded: bool)
    requires CallsAccounted(w)
    requires w.thread.job.turn.Some? && w.thread.job.turn.value.id == done && w.replies > 0
    ensures CallsAccounted(CompleteNext(w.(replies := w.replies - 1), done, reason, failure, visible, recorded))
  {
    var turn := w.thread.job.turn.value;
    if w.closing == Open {
      if turn.promptCalls > 1 && !turn.cancelRequested {
        HandingOffKeepsAccount(w, done, reason, failure, visible, recorded);
      } else {
        LastCallKeepsAccount(w, done, reason, failure, visible, recorded);
      }
    } else {
      assert CompletePromptCall(w.thread, done, reason, failure, visible, recorded) == (w.thread, Ignored);
    }
  }

  lemma CompleteStoppedKeepsAccount(w: World)
    requires CallsAccounted(w) && CallEnabled(w, CompleteStopped)
    ensures CallsAccounted(CallNext(w, CompleteStopped))
  {
    LastCallCounts(w.thread, w.thread.job.turn.value.id, StopCancelled, None, false, false);
  }

  lemma OutputKeepsAccount(w: World, progress: bool, ok: bool)
    requires CallsAccounted(w)
    ensures CallsAccounted(w.(thread := ApplyOutput(w.thread, progress, ok)))
  {
    if w.thread.job.turn.Some? {
      PromptStateLeavesCounters(w.thread, Confirmed, ok);
    }
  }

  lemma WorkingKeepsAccount(w: World, choices: ApplyChoices)
    requires CallsAccounted(w)
    ensures CallsAccounted(Apply(w, Working, choices).0)
  {
  }

  lemma WorkEndedKeepsAccount(w: World, failed: bool, choices: ApplyChoices)
    requires CallsAccounted(w)
    ensures CallsAccounted(Apply(w, WorkEnded(failed), choices).0)
  {
  }

  lemma ApplyKeepsAccount(w: World, update: Update, choices: ApplyChoices)
    requires CallsAccounted(w)
    ensures CallsAccounted(Apply(w, update, choices).0)
  {
    match update {
      case Output(_, progress) => OutputKeepsAccount(w, progress, choices.ok);
      case Retrying(_) =>
      case Working => WorkingKeepsAccount(w, choices);
      case WorkEnded(failed) => WorkEndedKeepsAccount(w, failed, choices);
    }
  }

  lemma WriteKeepsAccount(w: World, index: nat, dropOk: bool)
    requires CallsAccounted(w) && index < |w.wire| && !w.wire[index].written
    ensures CallsAccounted(WriteNext(w, index, dropOk))
  {
    IdsOfWritten(w.wire, index);
    var turn := w.thread.job.turn.value.(firstPromptSent := true);
    DroppingLeavesCounters(w.thread.(job := w.thread.job.(turn := Some(turn))), dropOk);
  }

  lemma CallsKeepAccount(w: World, e: CallEvent)
    requires CallsAccounted(w) && CallEnabled(w, e)
    ensures CallsAccounted(CallNext(w, e))
  {
    match e {
      case Register(index, ok) => RegisterKeepsAccount(w, index, ok);
      case Write(index, dropOk) => WriteKeepsAccount(w, index, dropOk);
      case ReadResponse(id, failed, stateOk, dropOk) => ResponseKeepsAccount(w, id, failed, stateOk, dropOk);
      case Complete(done, reason, failure, visible, recorded) =>
        if w.thread.job.turn.Some? && w.thread.job.turn.value.id == done {
          CompleteKeepsAccount(w, done, reason, failure, visible, recorded);
        }
      case CompleteStopped => CompleteStoppedKeepsAccount(w);
      case _ =>
    }
  }

  lemma UpdatesKeepAccount(w: World, e: UpdateEvent)
    requires CallsAccounted(w) && UpdateEnabled(w, e)
    ensures CallsAccounted(UpdateNext(w, e))
  {
    match e {
      case ApplyReceived(choices) => ApplyKeepsAccount(w, w.reader.value, choices);
      case ApplyHeld(choices) => ApplyKeepsAccount(w, w.replay.update, choices);
      case _ =>
    }
  }

  lemma TurnsKeepAccount(w: World, e: TurnEvent)
    requires CallsAccounted(w) && TurnEnabled(w, e)
    ensures CallsAccounted(TurnNext(w, e))
  {
  }
}
