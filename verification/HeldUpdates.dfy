/** That updates held back while a turn ends are applied in the order they arrived, and that none stays held back for good. */
module HeldUpdates {
  import opened Wrappers
  import opened Turns
  import opened Recovery
  import opened TurnRuns
  import opened TurnAccounting

  function InHand(replay: Hand): seq<Update> {
    if replay.Holds? then [replay.update] else []
  }

  function BeingRead(reader: Option<Update>): seq<Update> {
    if reader.Some? then [reader.value] else []
  }

  /** What arrived and was not applied yet, in the order in which it will be. */
  function Pending(job: Job, reader: Option<Update>, replay: Hand): seq<Update> {
    InHand(replay) + BeingRead(reader) + Held(job)
  }

  /** Updates are held back only behind a turn, its end, or a replay under way; and then the connection hands over none. */
  predicate HeldBehind(job: Job, reader: Option<Update>, replay: Hand, replayers: nat) {
    && (job.replaying <==> replay != Empty)
    && (replay != Empty ==> job.deferred.Some?)
    && (job.deferred.Some? ==> reader.None?)
    && (job.deferred.Some? ==> job.turn.Some? || job.finishing.Some? || replay != Empty || replayers > 0)
  }

  predicate UpdatesInOrder(w: World) {
    && HeldBehind(w.thread.job, w.reader, w.replay, w.replayers)
    && w.received == w.applied + Pending(w.thread.job, w.reader, w.replay)
  }

  /** What the account of updates reads of a job: it may gain a turn, or move one to its finish. */
  predicate SameHeld(a: Job, b: Job) {
    && a.deferred == b.deferred && a.replaying == b.replaying
    && (a.turn.Some? || a.finishing.Some? ==> b.turn.Some? || b.finishing.Some?)
  }

  lemma SameHeldInOrder(w: World, w': World)
    requires UpdatesInOrder(w) && SameHeld(w.thread.job, w'.thread.job)
    requires w'.reader == w.reader && w'.replay == w.replay && w'.replayers == w.replayers
    requires w'.received == w.received && w'.applied == w.applied
    ensures UpdatesInOrder(w')
  {
  }

  lemma CompletionKeepsHeld(t: Thread, done: TurnId, reason: StopReason, failure: Option<Failure>, visible: bool, recorded: bool)
    ensures SameHeld(t.job, CompletePromptCall(t, done, reason, failure, visible, recorded).0.job)
  {
  }

  lemma SendingKeepsHeld(w: World, e: CallEvent)
    requires CallEnabled(w, e) && Carries(e)
    ensures var w' := CallNext(w, e);
            && SameHeld(w.thread.job, w'.thread.job) && w'.reader == w.reader && w'.replay == w.replay && w'.replayers == w.replayers
            && w'.received == w.received && w'.applied == w.applied
  {
    match e {
      case Register(index, ok) => SendingCounts(w.thread, w.nextPrompt, ok);
      case ReadResponse(id, failed, stateOk, dropOk) => if w.thread.job.turn.Some? { AnsweringCounts(w.thread, id, stateOk, dropOk); }
      case _ =>
    }
  }

  /** A step that leaves all that the account of updates reads. */
  predicate SameUpdates(w: World, w': World) {
    && SameHeld(w.thread.job, w'.thread.job) && w'.reader == w.reader && w'.replay == w.replay && w'.replayers == w.replayers
    && w'.received == w.received && w'.applied == w.applied
  }

  lemma CompleteKeepsHeld(w: World, done: TurnId, reason: StopReason, failure: Option<Failure>, visible: bool, recorded: bool)
    ensures SameUpdates(w, CompleteNext(w, done, reason, failure, visible, recorded))
  {
    CompletionKeepsHeld(w.thread, done, reason, failure, visible, recorded);
  }

  lemma EndsKeepHeld(w: World, e: CallEvent)
    requires CallEnabled(w, e) && !Carries(e)
    ensures SameUpdates(w, CallNext(w, e))
  {
    if e.Complete? {
      var w' := w.(replies := w.replies - if w.thread.job.turn.Some? && w.thread.job.turn.value.id == e.done then 1 else 0);
      assert CallNext(w, e) == CompleteNext(w', e.done, e.reason, e.failure, e.visible, e.recorded);
      CompleteKeepsHeld(w', e.done, e.reason, e.failure, e.visible, e.recorded);
    } else if e.CompleteStopped? {
      CompleteKeepsHeld(w, w.thread.job.turn.value.id, StopCancelled, None, false, false);
    }
  }

  lemma CallsKeepUpdates(w: World, e: CallEvent)
    requires UpdatesInOrder(w) && CallEnabled(w, e)
    ensures UpdatesInOrder(CallNext(w, e))
  {
    if Carries(e) {
      SendingKeepsHeld(w, e);
    } else {
      EndsKeepHeld(w, e);
    }
    SameHeldInOrder(w, CallNext(w, e));
  }

  /** An update is either applied, and then nothing else about the order changed, or put in front of those held back. */
  lemma AppliesOrHoldsBack(w: World, update: Update, choices: ApplyChoices)
    ensures var (w', applied) := Apply(w, update, choices);
            && w'.reader == w.reader && w'.replay == w.replay && w'.replayers == w.replayers
            && w'.received == w.received && w'.applied == w.applied
            && (applied ==> SameHeld(w.thread.job, w'.thread.job))
            && (!applied ==> && Ending(w.thread.job)
                             && w'.thread.job == w.thread.job.(deferred := Some([update] + Held(w.thread.job))))
  {
    if update.Output? && w.thread.job.turn.Some? {
      PromptStateLeavesCounters(w.thread, Confirmed, choices.ok);
    }
  }

  lemma ReceivingKeepsUpdates(w: World, update: Update)
    requires UpdatesInOrder(w) && w.reader.None?
    ensures UpdatesInOrder(UpdateNext(w, Receive(update)))
  {
    var w' := UpdateNext(w, Receive(update));
    assert Pending(w'.thread.job, w'.reader, w'.replay) == Pending(w.thread.job, w.reader, w.replay) + [update];
  }

  lemma ApplyingReceivedKeepsUpdates(w: World, choices: ApplyChoices)
    requires UpdatesInOrder(w) && w.reader.Some?
    ensures UpdatesInOrder(UpdateNext(w, ApplyReceived(choices)))
  {
    AppliesOrHoldsBack(w, w.reader.value, choices);
    assert Pending(w.thread.job, w.reader, w.replay) == [w.reader.value];
  }

  lemma TakingHeldKeepsUpdates(w: World)
    requires UpdatesInOrder(w) && w.replayers > 0
    ensures UpdatesInOrder(UpdateNext(w, TakeHeld))
  {
    var w' := UpdateNext(w, TakeHeld);
    assert Pending(w'.thread.job, w'.reader, w'.replay) == Pending(w.thread.job, w.reader, w.replay);
  }

  lemma ApplyingHeldKeepsUpdates(w: World, choices: ApplyChoices)
    requires UpdatesInOrder(w) && w.replay.Holds?
    ensures UpdatesInOrder(UpdateNext(w, ApplyHeld(choices)))
  {
    AppliesOrHoldsBack(w, w.replay.update, choices);
    var w' := UpdateNext(w, ApplyHeld(choices));
    var (applied, held) := (Apply(w, w.replay.update, choices).1, Held(w.thread.job));
    assert Pending(w.thread.job, w.reader, w.replay) == [w.replay.update] + held;
    assert Pending(w'.thread.job, w'.reader, w'.replay) == Held(w'.thread.job) == if applied then held else [w.replay.update] + held;
    assert w.applied + ([w.replay.update] + held) == (w.applied + [w.replay.update]) + held;
  }

  lemma UpdatesKeepUpdates(w: World, e: UpdateEvent)
    requires UpdatesInOrder(w) && UpdateEnabled(w, e)
    ensures UpdatesInOrder(UpdateNext(w, e))
  {
    match e {
      case Receive(update) => ReceivingKeepsUpdates(w, update);
      case ApplyReceived(choices) => ApplyingReceivedKeepsUpdates(w, choices);
      case TakeHeld => TakingHeldKeepsUpdates(w);
      case ApplyHeld(choices) => ApplyingHeldKeepsUpdates(w, choices);
      case ReleaseHeld =>
    }
  }

  lemma TurnsKeepUpdates(w: World, e: TurnEvent)
    requires UpdatesInOrder(w) && TurnEnabled(w, e)
    ensures UpdatesInOrder(TurnNext(w, e))
  {
    match e {
      case EndFinishing =>
      case Restart =>
      case _ => SameHeldInOrder(w, TurnNext(w, e));
    }
  }
}
