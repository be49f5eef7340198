/** That a restart sends a turn's opening prompt again only when the agent never had it. */
module PromptResend {
  import opened Wrappers
  import opened Turns
  import opened Recovery
  import opened TurnRuns
  import opened TurnAccounting
  import opened TurnEnds
  import opened SteerOrder

  /** Whether the turn's opening prompt was not yet registered with the connection. */
  predicate OpeningWaits(queue: seq<Call>) {
    queue != [] && queue[0].kind.Opening?
  }

  predicate OpensFirst(queue: seq<Call>) {
    forall i :: 0 < i < |queue| ==> !queue[i].kind.Opening?
  }

  /** The stored prompt knows how far the opening prompt got. */
  predicate PromptKnown(turn: Turn, prompt: Option<StoredPrompt>, queue: seq<Call>) {
    match prompt
    case None => turn.promptObserved && !OpeningWaits(queue)
    case Some(stored) =>
      && (stored.state == Unset <==> OpeningWaits(queue))
      && (stored.state == Confirmed <==> turn.promptObserved)
      && (OpeningWaits(queue) ==> queue[0].kind.message == stored.message)
      && (turn.promptSending ==> stored.state != Unset)
  }

  predicate PromptsKnown(w: World) {
    w.thread.job.turn.Some? ==>
      && w.thread.stored.Some? && OpensFirst(w.queue)
      && PromptKnown(w.thread.job.turn.value, w.thread.stored.value.prompt, w.queue)
  }

  predicate SamePrompt(a: Thread, b: Thread) {
    && (a.job.turn.Some? <==> b.job.turn.Some?) && (a.stored.Some? <==> b.stored.Some?)
    && (a.job.turn.Some? ==> a.job.turn.value.promptSending == b.job.turn.value.promptSending
                             && a.job.turn.value.promptObserved == b.job.turn.value.promptObserved)
    && (a.stored.Some? ==> a.stored.value.prompt == b.stored.value.prompt)
  }

  lemma SamePromptKnown(w: World, w': World)
    requires PromptsKnown(w) && SamePrompt(w.thread, w'.thread) && w'.queue == w.queue
    ensures PromptsKnown(w')
  {
  }

  lemma ConfirmingKnows(t: Thread, ok: bool, queue: seq<Call>)
    requires t.job.turn.Some? && t.stored.Some? && PromptKnown(t.job.turn.value, t.stored.value.prompt, queue)
    ensures var t' := SetPromptState(t, Confirmed, ok).0;
            t'.job.turn.Some? && t'.stored.Some? && PromptKnown(t'.job.turn.value, t'.stored.value.prompt, queue)
  {
  }

  lemma RegisteringKnows(t: Thread, ok: bool, queue: seq<Call>)
    requires t.job.turn.Some? && t.stored.Some? && PromptKnown(t.job.turn.value, t.stored.value.prompt, queue)
    requires queue != [] && OpensFirst(queue)
    ensures var (t', recorded) := SetPromptState(t, Sending, ok);
            && t'.job.turn.Some? && t'.stored.Some?
            && PromptKnown(t'.job.turn.value, t'.stored.value.prompt, if recorded then queue[1..] else queue)
  {
  }

  lemma DroppingKeepsPrompt(t: Thread, ok: bool)
    requires t.job.turn.Some?
    ensures SamePrompt(t, DropTakenSteers(t, ok))
  {
  }

  lemma RegisterKeepsPrompt(w: World, index: nat, ok: bool)
    requires PromptsKnown(w) && InOrder(w) && MayRegister(w, index)
    ensures PromptsKnown(RegisterNext(w, index, ok))
  {
    OnlyOldestSends(w, index);
    RegisteringKnows(w.thread, ok, w.queue);
    assert w.queue[..0] + w.queue[0 + 1..] == w.queue[1..];
  }

  lemma ResponseKeepsPrompt(w: World, e: CallEvent)
    requires PromptsKnown(w) && CallEnabled(w, e) && e.ReadResponse?
    ensures PromptsKnown(CallNext(w, e))
  {
    if w.thread.job.turn.Some? && e.id in w.thread.job.turn.value.prompts {
      ConfirmingKnows(w.thread, e.stateOk, w.queue);
      var t := SetPromptState(w.thread, Confirmed, e.stateOk).0;
      var turn := t.job.turn.value.(prompts := t.job.turn.value.prompts - {e.id});
      DroppingKeepsPrompt(t.(job := t.job.(turn := Some(turn))), e.dropOk);
    }
  }

  lemma CompletedKeepsPrompt(t: Thread, outcome: Completion)
    requires t.job.turn.Some?
    ensures SamePrompt(t, Completed(t, t.job.turn.value, outcome))
  {
  }

  lemma ContinuationKeepsPrompt(w: World, w': World, call: Call)
    requires PromptsKnown(w) && SamePrompt(w.thread, w'.thread) && w'.queue == w.queue + [call] && call.kind.Continuation?
    ensures PromptsKnown(w')
  {
    assert w.queue != [] ==> w'.queue[0] == w.queue[0];
  }

  lemma CompleteKeepsPrompt(w: World, done: TurnId, reason: StopReason, failure: Option<Failure>, visible: bool, recorded: bool)
    requires PromptsKnown(w) && (w.thread.job.turn.Some? ==> w.thread.job.turn.value.promptCalls >= 0)
    ensures PromptsKnown(CompleteNext(w, done, reason, failure, visible, recorded))
  {
    var w' := CompleteNext(w, done, reason, failure, visible, recorded);
    if Completes(w.thread, done) {
      var outcome := OutcomeOf(w.thread, w.thread.job.turn.value, reason, failure, visible, recorded);
      CompletedKeepsPrompt(w.thread, outcome);
      if outcome == Waits {
        ContinuationKeepsPrompt(w, w', Call(Continuation, None, w.nextSlot));
      } else {
        SamePromptKnown(w, w');
      }
    } else {
      assert w' == w;
    }
  }

  lemma EndsKeepPrompt(w: World, e: CallEvent)
    requires PromptsKnown(w) && CallsAccounted(w) && CallEnabled(w, e) && e.Complete?
    ensures PromptsKnown(CallNext(w, e))
  {
    var w' := w.(replies := w.replies - if w.thread.job.turn.Some? && w.thread.job.turn.value.id == e.done then 1 else 0);
    assert CallNext(w, e) == CompleteNext(w', e.done, e.reason, e.failure, e.visible, e.recorded);
    CompleteKeepsPrompt(w', e.done, e.reason, e.failure, e.visible, e.recorded);
  }

  lemma OtherCallsKeepPrompt(w: World, e: CallEvent)
    requires PromptsKnown(w) && CallEnabled(w, e) && (e.Steer? || e.Fail? || e.ReadStop? || e.SetEnded? || e.EndWait? || e.LoseConnection?)
    ensures PromptsKnown(CallNext(w, e))
  {
  }

  lemma CallsKeepPrompts(w: World, e: CallEvent)
    requires PromptsKnown(w) && InOrder(w) && CallsAccounted(w) && CallEnabled(w, e)
    ensures PromptsKnown(CallNext(w, e))
  {
    match e {
      case Register(index, ok) => RegisterKeepsPrompt(w, index, ok);
      case Write(index, dropOk) => if w.thread.job.turn.Some? { SamePromptKnown(w, CallNext(w, e)); }
      case ReadResponse(_, _, _, _) => ResponseKeepsPrompt(w, e);
      case Complete(_, _, _, _, _) => EndsKeepPrompt(w, e);
      case CompleteStopped => CompleteKeepsPrompt(w, w.thread.job.turn.value.id, StopCancelled, None, false, false);
      case _ => OtherCallsKeepPrompt(w, e);
    }
  }

  lemma ApplyKeepsPrompt(w: World, update: Update, choices: ApplyChoices)
    requires PromptsKnown(w)
    ensures PromptsKnown(Apply(w, update, choices).0)
  {
    if update.Output? && w.thread.job.turn.Some? {
      ConfirmingKnows(w.thread, choices.ok, w.queue);
    }
  }

  lemma UpdatesKeepPrompts(w: World, e: UpdateEvent)
    requires PromptsKnown(w) && UpdateEnabled(w, e)
    ensures PromptsKnown(UpdateNext(w, e))
  {
    match e {
      case ApplyReceived(choices) => ApplyKeepsPrompt(w, w.reader.value, choices);
      case ApplyHeld(choices) => ApplyKeepsPrompt(w, w.replay.update, choices);
      case _ => SamePromptKnown(w, UpdateNext(w, e));
    }
  }

  lemma TurnsKeepPrompts(w: World, e: TurnEvent)
    requires PromptsKnown(w) && SignalledOnce(w) && TurnEnabled(w, e)
    ensures PromptsKnown(TurnNext(w, e))
  {
    if !(e.Send? || e.ResumeTurn? || e.BeginFinishing? || e.StoreFinished? || e.Restart?) {
      SamePromptKnown(w, TurnNext(w, e));
    }
  }

  /**
  After a restart the opening prompt is sent again exactly when it was never
  registered, is left to the person exactly when it was registered and nothing
  showed that the agent has it, and otherwise its turn is told to continue.
  */
  lemma RestartResends(w: World)
    requires w.thread.job.turn.Some? && PromptsKnown(w)
    requires w.thread.stored.value.prompt.Some? && !w.thread.stored.value.compacting
    ensures var turn, stored := w.thread.job.turn.value, w.thread.stored.value;
            && (Resume(w.thread.stored).Unconfirmed? <==> !OpeningWaits(w.queue) && !turn.promptObserved)
            && (OpeningWaits(w.queue) ==>
                  Resume(w.thread.stored) == Resumes(TurnRequest(w.queue[0].kind.message + stored.steers, stored.retries, false, stored.allowSilence, false)))
            && (turn.promptObserved ==>
                  Resume(w.thread.stored) == Resumes(TurnRequest([CONTINUATION] + stored.steers, stored.retries, false, stored.allowSilence, false)))
  {
  }
}
