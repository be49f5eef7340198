/** That a turn sends at most three continuations after provider failures, restarts included, and none once it is stopped. */
module TurnRetries {
  import opened Wrappers
  import opened Turns
  import opened Recovery
  import opened TurnRuns
  import opened TurnAccounting
  import opened TurnEnds

  function Continuations(calls: seq<Call>): nat {
    if calls == [] then 0 else Continuations(calls[..|calls| - 1]) + if calls[|calls| - 1].kind.Continuation? then 1 else 0
  }

  lemma {:induction false} ContinuationsWithout(calls: seq<Call>, index: nat)
    requires index < |calls|
    ensures Continuations(calls) == Continuations(calls[..index] + calls[index + 1..]) + if calls[index].kind.Continuation? then 1 else 0
    decreases |calls|
  {
    var last := |calls| - 1;
    if index == last {
      assert calls[..index] + calls[index + 1..] == calls[..last];
    } else {
      ContinuationsWithout(calls[..last], index);
      var rest := calls[..index] + calls[index + 1..];
      assert rest[..|rest| - 1] == calls[..last][..index] + calls[..last][index + 1..];
      assert rest[|rest| - 1] == calls[last];
    }
  }

  lemma ContinuationsWith(calls: seq<Call>, call: Call)
    ensures Continuations(calls + [call]) == Continuations(calls) + if call.kind.Continuation? then 1 else 0
  {
    assert (calls + [call])[..|calls|] == calls;
  }

  /** What the stored turn allows: at most as many continuations as the retries it records, and none sent while it compacts. */
  predicate Allows(stored: StoredTurn, sent: nat, waiting: nat, dead: bool) {
    && sent + waiting <= stored.retries <= MAX_RETRIES
    && (stored.compacting ==> sent == 0 && (!dead ==> waiting == 0))
  }

  /** The job knows its turn's retries, and that it compacts, until the connection is gone. */
  predicate StoredMatches(t: Thread, closing: Closing, dead: bool) {
    t.job.turn.Some? ==>
      && t.stored.Some? && t.stored.value.retries == t.job.turn.value.retries
      && (t.stored.value.compacting && closing == Open && !t.job.turn.value.cancelRequested && !dead ==> t.job.compacting)
  }

  predicate RetriesHold(w: World) {
    && w.continuations <= MAX_RETRIES
    && (w.thread.stored.Some? ==> Allows(w.thread.stored.value, w.continuations, Continuations(w.queue), w.watch.dead))
    && StoredMatches(w.thread, w.closing, w.watch.dead)
    && (w.watch.observers != multiset{} ==> w.watch.dead)
  }

  /** What the account of retries reads of a thread. */
  predicate SameRetries(a: Thread, b: Thread) {
    && (a.job.turn.Some? <==> b.job.turn.Some?) && (a.stored.Some? <==> b.stored.Some?)
    && (a.job.turn.Some? ==> a.job.turn.value.retries == b.job.turn.value.retries
                             && a.job.turn.value.cancelRequested == b.job.turn.value.cancelRequested)
    && a.job.compacting == b.job.compacting
    && (a.stored.Some? ==> a.stored.value.retries == b.stored.value.retries && a.stored.value.compacting == b.stored.value.compacting)
  }

  lemma PromptStateKeepsRetries(t: Thread, state: PromptState, ok: bool)
    ensures SameRetries(t, SetPromptState(t, state, ok).0)
  {
  }

  lemma DroppingKeepsRetries(t: Thread, ok: bool)
    requires t.job.turn.Some?
    ensures SameRetries(t, DropTakenSteers(t, ok))
  {
  }

  lemma AnsweringKeepsRetries(t: Thread, id: PromptId, stateOk: bool, dropOk: bool)
    ensures SameRetries(t, PromptAnswered(t, id, stateOk, dropOk))
  {
    if t.job.turn.Some? && id in t.job.turn.value.prompts {
      PromptStateKeepsRetries(t, Confirmed, stateOk);
      var t' := SetPromptState(t, Confirmed, stateOk).0;
      var turn := t'.job.turn.value.(prompts := t'.job.turn.value.prompts - {id});
      DroppingKeepsRetries(t'.(job := t'.job.(turn := Some(turn))), dropOk);
    }
  }

  lemma RegisterKeepsRetries(w: World, index: nat, ok: bool)
    requires RetriesHold(w) && MayRegister(w, index)
    ensures RetriesHold(RegisterNext(w, index, ok))
  {
    PromptStateKeepsRetries(w.thread, Sending, ok);
    ContinuationsWithout(w.queue, index);
  }

  lemma SteerKeepsRetries(w: World, message: string, ok: bool)
    requires RetriesHold(w)
    ensures RetriesHold(SteerNext(w, message, ok))
  {
    var (thread, result) := ReserveSteer(w.thread, message, w.nextSlot, ok);
    if result.Reserved? {
      ContinuationsWith(w.queue, Call(Steered(message, !w.thread.job.turn.value.agentRun), result.slot.after, result.slot.sent));
    }
  }

  lemma WriteKeepsRetries(w: World, index: nat, dropOk: bool)
    requires RetriesHold(w) && index < |w.wire|
    ensures RetriesHold(WriteNext(w, index, dropOk))
  {
    if w.thread.job.turn.Some? {
      var turn := w.thread.job.turn.value.(firstPromptSent := true);
      DroppingKeepsRetries(w.thread.(job := w.thread.job.(turn := Some(turn))), dropOk);
    }
  }

  lemma ResponseKeepsRetries(w: World, id: PromptId, failed: bool, stateOk: bool, dropOk: bool)
    requires RetriesHold(w)
    ensures RetriesHold(ResponseNext(w, id, failed, stateOk, dropOk))
  {
    AnsweringKeepsRetries(w.thread, id, stateOk, dropOk);
  }

  lemma SendingKeepsRetries(w: World, e: CallEvent)
    requires RetriesHold(w) && CallEnabled(w, e) && Carries(e)
    ensures RetriesHold(CallNext(w, e))
  {
    match e {
      case Steer(message, ok) => SteerKeepsRetries(w, message, ok);
      case Register(index, ok) => RegisterKeepsRetries(w, index, ok);
      case Write(index, dropOk) => WriteKeepsRetries(w, index, dropOk);
      case ReadResponse(id, failed, stateOk, dropOk) => ResponseKeepsRetries(w, id, failed, stateOk, dropOk);
    }
  }

  /** A retry is counted in the store before it waits, and a stopped or compacting turn makes none. */
  lemma WaitingKeepsRetries(t: Thread, reason: StopReason, failure: Option<Failure>, visible: bool, recorded: bool, sent: nat, waiting: nat,
                            dead: bool)
    requires t.job.turn.Some? && StoredMatches(t, Open, dead) && (t.stored.Some? ==> Allows(t.stored.value, sent, waiting, dead))
    requires OutcomeOf(t, t.job.turn.value, reason, failure, visible, recorded) == Waits
    ensures var t' := Completed(t, t.job.turn.value, Waits);
            t'.stored.Some? && Allows(t'.stored.value, sent, waiting + 1, dead) && StoredMatches(t', Open, dead)
  {
  }

  lemma CompleteKeepsRetries(w: World, done: TurnId, reason: StopReason, failure: Option<Failure>, visible: bool, recorded: bool)
    requires RetriesHold(w) && (Completes(w.thread, done) ==> w.closing == Open)
    requires w.thread.job.turn.Some? ==> w.thread.job.turn.value.promptCalls >= 0
    ensures RetriesHold(CompleteNext(w, done, reason, failure, visible, recorded))
  {
    if Completes(w.thread, done) {
      var outcome := OutcomeOf(w.thread, w.thread.job.turn.value, reason, failure, visible, recorded);
      OutcomesSettle(w.thread, w.thread.job.turn.value, reason, failure, visible, recorded);
      if outcome == Waits {
        WaitingKeepsRetries(w.thread, reason, failure, visible, recorded, w.continuations, Continuations(w.queue), w.watch.dead);
        ContinuationsWith(w.queue, Call(Continuation, None, w.nextSlot));
      }
    }
  }

  lemma CallsKeepRetries(w: World, e: CallEvent)
    requires RetriesHold(w) && CallsAccounted(w) && CallEnabled(w, e)
    ensures RetriesHold(CallNext(w, e))
  {
    match e {
      case Complete(done, reason, failure, visible, recorded) =>
        var current := w.thread.job.turn.Some? && w.thread.job.turn.value.id == done;
        CompleteKeepsRetries(w.(replies := w.replies - if current then 1 else 0), done, reason, failure, visible, recorded);
      case CompleteStopped => CompleteKeepsRetries(w, w.thread.job.turn.value.id, StopCancelled, None, false, false);
      case _ => if Carries(e) { SendingKeepsRetries(w, e); }
    }
  }

  lemma ApplyKeepsRetries(w: World, update: Update, choices: ApplyChoices)
    requires RetriesHold(w)
    ensures RetriesHold(Apply(w, update, choices).0)
  {
    if update.Output? {
      PromptStateKeepsRetries(w.thread, Confirmed, choices.ok);
    }
  }

  lemma UpdatesKeepRetries(w: World, e: UpdateEvent)
    requires RetriesHold(w) && UpdateEnabled(w, e)
    ensures RetriesHold(UpdateNext(w, e))
  {
    match e {
      case ApplyReceived(choices) => ApplyKeepsRetries(w, w.reader.value, choices);
      case ApplyHeld(choices) => ApplyKeepsRetries(w, w.replay.update, choices);
      case _ =>
    }
  }

  lemma BeginKeepsRetries(w: World, request: TurnRequest, ok: bool, continuations: nat)
    requires RetriesHold(w) && continuations <= request.retries <= MAX_RETRIES && (request.compacting ==> request.retries == 0)
    ensures RetriesHold(BeginTurnOf(w, request, ok, continuations))
  {
    ContinuationsWith([], Call(Opening(request.message), None, w.nextSlot));
    assert [] + [Call(Opening(request.message), None, w.nextSlot)] == [Call(Opening(request.message), None, w.nextSlot)];
  }

  lemma TurnsKeepRetries(w: World, e: TurnEvent)
    requires RetriesHold(w) && StopsHold(w) && SignalledOnce(w) && CallsAccounted(w) && TurnEnabled(w, e)
    ensures RetriesHold(TurnNext(w, e))
  {
    match e {
      case Send(request, ok) =>
        BeginKeepsRetries(w, request.(retries := 0), ok, 0);
      case ResumeTurn(ok) =>
        if w.thread.job.turn.None? {
          BeginKeepsRetries(w, Resume(w.thread.stored).request, ok, if w.thread.stored.None? then 0 else w.continuations);
        }
      case _ =>
    }
  }
}
