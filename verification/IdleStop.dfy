/** That a process claimed for idle stopping has, and will have, no turn, no finishing turn and no lease. */
module IdleStop {
  import opened Wrappers
  import opened Turns
  import opened Recovery
  import opened TurnRuns
  import opened TurnAccounting

  predicate RetiredIdle(job: Job, senders: nat) {
    && job.leases == senders
    && (job.retired ==> job.turn.None? && job.finishing.None? && job.leases == 0)
  }

  predicate StopsOnlyIdle(w: World) {
    RetiredIdle(w.thread.job, w.senders)
  }

  /** What the account of leases reads of a job: a turn or finish it has not had is no new one. */
  predicate SameLeases(a: Job, b: Job) {
    && a.leases == b.leases && a.retired == b.retired
    && (b.turn.Some? || b.finishing.Some? ==> a.turn.Some? || a.finishing.Some?)
  }

  lemma CompletionKeepsLeases(t: Thread, done: TurnId, reason: StopReason, failure: Option<Failure>, visible: bool, recorded: bool)
    ensures SameLeases(t.job, CompletePromptCall(t, done, reason, failure, visible, recorded).0.job)
  {
  }

  lemma SendingKeepsLeases(w: World, e: CallEvent)
    requires CallEnabled(w, e) && Carries(e)
    ensures SameLeases(w.thread.job, CallNext(w, e).thread.job) && CallNext(w, e).senders == w.senders
  {
    match e {
      case Register(index, ok) => SendingCounts(w.thread, w.nextPrompt, ok);
      case ReadResponse(id, failed, stateOk, dropOk) => if w.thread.job.turn.Some? { AnsweringCounts(w.thread, id, stateOk, dropOk); }
      case _ =>
    }
  }

  lemma CallsKeepLeases(w: World, e: CallEvent)
    requires StopsOnlyIdle(w) && CallEnabled(w, e)
    ensures StopsOnlyIdle(CallNext(w, e))
  {
    match e {
      case Complete(done, reason, failure, visible, recorded) => CompletionKeepsLeases(w.thread, done, reason, failure, visible, recorded);
      case CompleteStopped => CompletionKeepsLeases(w.thread, w.thread.job.turn.value.id, StopCancelled, None, false, false);
      case _ => if Carries(e) { SendingKeepsLeases(w, e); }
    }
  }

  lemma ApplyKeepsLeases(w: World, update: Update, choices: ApplyChoices)
    requires StopsOnlyIdle(w)
    ensures StopsOnlyIdle(Apply(w, update, choices).0)
  {
    if update.Output? && w.thread.job.turn.Some? {
      PromptStateLeavesCounters(w.thread, Confirmed, choices.ok);
    }
  }

  lemma UpdatesKeepLeases(w: World, e: UpdateEvent)
    requires StopsOnlyIdle(w) && UpdateEnabled(w, e)
    ensures StopsOnlyIdle(UpdateNext(w, e))
  {
    match e {
      case ApplyReceived(choices) => ApplyKeepsLeases(w, w.reader.value, choices);
      case ApplyHeld(choices) => ApplyKeepsLeases(w, w.replay.update, choices);
      case _ =>
    }
  }

  lemma TurnsKeepLeases(w: World, e: TurnEvent)
    requires StopsOnlyIdle(w) && TurnEnabled(w, e)
    ensures StopsOnlyIdle(TurnNext(w, e))
  {
  }
}
