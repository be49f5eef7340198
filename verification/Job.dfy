/**
A thread's job as the program holds it: fields updated in place under the job's
lock. Every method is one critical section and is proved to do what module
Turns says of it.
*/
module Job {
  import opened Wrappers
  import opened Turns

  /** The thread's record. Each write happens whole or, when it fails, not at all. */
  class ThreadStore {
    var turn: Option<StoredTurn>

    constructor ()
      ensures turn == None
    {
      turn := None;
    }

    method SetTurnPromptState(state: PromptState, ok: bool) returns (stored: bool)
      modifies this
      ensures stored == (ok && old(turn).Some? && old(turn).value.prompt.Some?)
      ensures !stored ==> turn == old(turn)
      ensures stored ==> turn == if old(turn).value.prompt.value.state == Confirmed then old(turn)
                                 else Some(old(turn).value.(prompt := Some(old(turn).value.prompt.value.(state := state))))
    {
      stored := ok && turn.Some? && turn.value.prompt.Some?;
      if stored && turn.value.prompt.value.state != Confirmed {
        turn := Some(turn.value.(prompt := Some(turn.value.prompt.value.(state := state))));
      }
    }

    method KeepTurnSteers(n: int)
      modifies this
      ensures turn == if old(turn).None? then None else Some(old(turn).value.(steers := Newest(old(turn).value.steers, n)))
    {
      if turn.Some? {
        turn := Some(turn.value.(steers := Newest(turn.value.steers, n)));
      }
    }
  }

  class ActiveTurn {
    const id: TurnId
    const allowSilence: bool
    var promptCalls: int
    var unsent: int
    var prompts: set<PromptId>
    var kept: int
    var steerSent: Option<Slot>
    var firstPromptSent: bool
    var agentRun: bool
    var retries: int
    var retrying: bool
    var providerRetried: set<string>
    var cancelRequested: bool
    var cancelReason: StopReason
    var promptSending: bool
    var promptObserved: bool

    function View(): Turn
      reads this
    {
      Turn(id, promptCalls, unsent, prompts, kept, steerSent, firstPromptSent, agentRun, retries, retrying,
           providerRetried, cancelRequested, cancelReason, promptSending, promptObserved, allowSilence)
    }

    constructor (id: TurnId, retries: int, allowSilence: bool)
      ensures View() == BegunTurn(id, retries, allowSilence)
    {
      this.id, this.retries, this.allowSilence := id, retries, allowSilence;
      promptCalls, unsent, prompts, kept, steerSent := 1, 1, {}, 0, None;
      firstPromptSent, agentRun, retrying, providerRetried := false, false, false, {};
      cancelRequested, cancelReason, promptSending, promptObserved := false, NoReason, false, false;
    }

    constructor AgentRun(id: TurnId)
      ensures View() == AgentRunTurn(id)
    {
      this.id, this.retries, this.allowSilence := id, 0, true;
      promptCalls, unsent, prompts, kept, steerSent := 1, 0, {}, 0, None;
      firstPromptSent, agentRun, retrying, providerRetried := true, true, false, {};
      cancelRequested, cancelReason, promptSending, promptObserved := false, NoReason, false, true;
    }
  }

  class JobState {
    const store: ThreadStore
    var status: Status
    var stopReason: StopReason
    var compacting: bool
    var turn: ActiveTurn?
    var finishing: Option<TurnId>
    var leases: int
    var retired: bool
    var deferred: Option<seq<Update>>
    var replaying: bool

    function View(): Thread
      reads this, store, turn
    {
      Thread(Job(status, stopReason, compacting, if turn == null then None else Some(turn.View()), finishing,
                 leases, retired, deferred, replaying), store.turn)
    }

    /** endingLocked, on the fields. */
    predicate EndingLocked()
      reads this, store, turn
      ensures EndingLocked() == Ending(View().job)
    {
      finishing.Some? || (turn != null && !turn.agentRun && turn.unsent == 0 && turn.prompts == {})
    }

    constructor (store: ThreadStore)
      ensures this.store == store && store.turn == old(store.turn)
      ensures View().job == Turns.Job(Idle, NoReason, false, None, None, 0, false, None, false)
    {
      this.store := store;
      status, stopReason, compacting, turn, finishing := Idle, NoReason, false, null, None;
      leases, retired, deferred, replaying := 0, false, None, false;
    }

    method ClaimTurn(id: TurnId, req: TurnRequest, ok: bool) returns (claimed: bool)
      modifies this, store
      ensures (View(), claimed) == Turns.ClaimTurn(old(View()), id, req, ok)
      ensures turn == old(turn) || fresh(turn)
    {
      if turn != null || finishing.Some? || (status == Starting && !req.claimed) || !ok {
        return false;
      }
      store.turn := Some(StoredTurn(Some(StoredPrompt(req.message, Unset)), [], req.retries, req.compacting, req.allowSilence));
      turn := new ActiveTurn(id, req.retries, req.allowSilence);
      status, stopReason, compacting := Running, NoReason, req.compacting;
      return true;
    }

    method SetPromptState(state: PromptState, ok: bool) returns (recorded: bool)
      modifies this, turn, store
      ensures (View(), recorded) == Turns.SetPromptState(old(View()), state, ok)
      ensures turn == old(turn)
    {
      if turn == null || turn.promptObserved || (state == Confirmed && !turn.promptSending) {
        return true;
      }
      recorded := store.SetTurnPromptState(state, ok);
      if recorded {
        if state == Sending {
          turn.promptSending := true;
        } else if state == Confirmed {
          turn.promptObserved := true;
        }
      }
    }

    method DropTakenSteers(ok: bool)
      requires turn != null
      modifies turn, store
      ensures View() == Turns.DropTakenSteers(old(View()), ok)
      ensures turn == old(turn)
    {
      var untaken := turn.unsent + if |turn.prompts| == 0 then 0 else |turn.prompts| - 1;
      if turn.kept <= untaken || !ok {
        return;
      }
      store.KeepTurnSteers(untaken);
      turn.kept := untaken;
    }

    method PromptSending(id: PromptId, ok: bool) returns (send: bool)
      modifies this, turn, store
      ensures (View(), send) == Turns.PromptSending(old(View()), id, ok)
      ensures turn == old(turn)
    {
      send := SetPromptState(Sending, ok);
      if send && turn != null {
        turn.unsent := turn.unsent - 1;
        turn.prompts := turn.prompts + {id};
      }
    }

    method PromptSent(ok: bool)
      modifies turn, store
      ensures View() == Turns.PromptSent(old(View()), ok)
      ensures turn == old(turn)
    {
      if turn != null {
        turn.firstPromptSent := true;
        DropTakenSteers(ok);
      }
    }

    method PromptAnswered(id: PromptId, stateOk: bool, dropOk: bool)
      modifies this, turn, store
      ensures View() == Turns.PromptAnswered(old(View()), id, stateOk, dropOk)
      ensures turn == old(turn)
    {
      if turn != null && id in turn.prompts {
        var _ := SetPromptState(Confirmed, stateOk);
        turn.prompts := turn.prompts - {id};
        DropTakenSteers(dropOk);
      }
    }

    method ReserveSteer(message: string, sent: Slot, ok: bool) returns (result: SteerResult)
      modifies turn, store
      ensures (View(), result) == Turns.ReserveSteer(old(View()), message, sent, ok)
      ensures turn == old(turn)
    {
      if turn == null || turn.promptCalls == 0 || (status != Running && status != Starting) {
        return TurnEnded;
      }
      if turn.retrying || !turn.firstPromptSent {
        return PromptPending;
      }
      if !ok || store.turn.None? {
        return NotStored;
      }
      result := PlaceSteer(message, sent);
    }

    /** The rest of ReserveSteer: the steer is stored, unless the agent's own run takes it, and goes last. */
    method PlaceSteer(message: string, sent: Slot) returns (result: SteerResult)
      requires turn != null && store.turn.Some?
      modifies turn, store
      ensures result == Reserved(SteerSlot(turn.id, old(turn.steerSent), sent)) && turn == old(turn)
      ensures var keep := !old(turn.agentRun);
              && turn.View() == old(turn.View()).(promptCalls := old(turn.promptCalls) + 1, unsent := old(turn.unsent) + 1,
                                                  kept := old(turn.kept) + (if keep then 1 else 0), steerSent := Some(sent))
              && store.turn == if keep then Some(old(store.turn).value.(steers := old(store.turn).value.steers + [message])) else old(store.turn)
    {
      if !turn.agentRun {
        store.turn := Some(store.turn.value.(steers := store.turn.value.steers + [message]));
        turn.kept := turn.kept + 1;
      }
      turn.promptCalls := turn.promptCalls + 1;
      turn.unsent := turn.unsent + 1;
      result := Reserved(SteerSlot(turn.id, turn.steerSent, sent));
      turn.steerSent := Some(sent);
    }

    method CompletePromptCall(done: TurnId, reason: StopReason, failure: Option<Failure>, visible: bool, recorded: bool)
      returns (result: Completion)
      modifies this, turn, store
      ensures (View(), result) == Turns.CompletePromptCall(old(View()), done, reason, failure, visible, recorded)
      ensures turn == old(turn)
    {
      if turn == null || turn.id != done || turn.promptCalls == 0 {
        return Ignored;
      }
      if turn.promptCalls > 1 && !turn.cancelRequested {
        turn.promptCalls := turn.promptCalls - 1;
        return HandedOff;
      }
      result := EndLastCall(reason, failure, visible, recorded);
    }

    method EndLastCall(reason: StopReason, failure: Option<Failure>, visible: bool, recorded: bool) returns (result: Completion)
      requires turn != null && (turn.promptCalls <= 1 || turn.cancelRequested)
      modifies this, turn, store
      ensures result == OutcomeOf(old(View()), old(turn.View()), reason, failure, visible, recorded)
      ensures View() == Completed(old(View()), old(turn.View()), result)
      ensures turn == old(turn)
    {
      var state, stop := Idle, reason;
      if turn.cancelRequested {
        state, stop := Cancelled, turn.cancelReason;
      } else if reason == StopCancelled {
        state := Cancelled;
      }
      if state != Idle {
      } else if failure.Some? {
        var waits := Retry(failure.value, recorded);
        if waits {
          return Waits;
        }
        state := Failed;
      } else if reason == EndTurn && !compacting && !turn.allowSilence && !visible {
        state := Failed;
      }
      turn.promptCalls := 0;
      status, stopReason := state, stop;
      return Ends(state, stop);
    }

    /** The retry of a failure that offers one, recorded before it waits. */
    method Retry(failure: Failure, recorded: bool) returns (waits: bool)
      requires turn != null
      modifies turn, store
      ensures waits == Retries(old(View()), old(turn.View()), failure, recorded)
      ensures View() == if waits then Completed(old(View()), old(turn.View()), Waits) else old(View())
    {
      var offered := failure.retryable && failure.category !in turn.providerRetried && turn.retries < MAX_RETRIES;
      if !offered || compacting || !recorded || store.turn.None? {
        return false;
      }
      store.turn := Some(store.turn.value.(retries := turn.retries + 1));
      WaitToRetry();
      return true;
    }

    method WaitToRetry()
      requires turn != null
      modifies turn
      ensures turn.View() == Turns.WaitToRetry(old(turn.View()))
    {
      turn.retries := turn.retries + 1;
      turn.retrying := true;
      turn.promptCalls := 1;
      turn.unsent := turn.unsent + 1;
      turn.firstPromptSent := false;
    }

    method EndRetryWait(done: TurnId) returns (stopped: bool)
      modifies turn
      ensures (View(), stopped) == Turns.EndRetryWait(old(View()), done)
      ensures turn == old(turn)
    {
      if turn == null || turn.id != done {
        return false;
      }
      turn.retrying := false;
      return turn.cancelRequested;
    }

    method FailPromptCall(done: TurnId) returns (fails: bool)
      modifies turn
      ensures (View(), fails) == Turns.FailPromptCall(old(View()), done)
      ensures turn == old(turn)
    {
      if turn == null || turn.id != done || turn.promptCalls == 0 {
        return false;
      }
      turn.promptCalls := 0;
      return true;
    }

    method SetState(state: Status, reason: StopReason)
      modifies this
      ensures View() == old(View()).(job := SetStatus(old(View()).job, state, reason))
      ensures turn == old(turn)
    {
      status, stopReason := state, reason;
      if state != Running && state != Starting {
        compacting := false;
      }
    }

    method CancelReason() returns (stop: Option<StopReason>)
      ensures stop == StopOf(View().job)
    {
      if turn == null || !turn.cancelRequested {
        return None;
      }
      if turn.cancelReason != NoReason {
        return Some(turn.cancelReason);
      }
      return Some(StopCancelled);
    }

    method BeginFinish(done: TurnId) returns (finishes: bool)
      modifies this
      ensures (View().job, finishes) == Turns.BeginFinish(old(View()).job, done)
      ensures store.turn == old(store.turn)
    {
      if turn == null || turn.id != done {
        return false;
      }
      finishing, turn := Some(done), null;
      return true;
    }

    method StoreFinish()
      modifies store
      ensures View() == Turns.StoreFinish(old(View()))
    {
      if stopReason != ServerShutdown {
        store.turn := None;
      }
    }

    method EndFinish()
      modifies this
      ensures View() == old(View()).(job := Turns.EndFinish(old(View()).job))
    {
      finishing := None;
    }

    method RequestCancel(reason: StopReason)
      modifies turn
      ensures View() == old(View()).(job := Turns.RequestCancel(old(View()).job, reason))
      ensures turn == old(turn)
    {
      if turn == null || (reason == ServerShutdown && turn.cancelRequested) {
        return;
      }
      if status == Running || status == Starting {
        turn.cancelRequested, turn.cancelReason := true, reason;
      }
    }

    method StartAgentRun(report: Update, id: TurnId, admitted: bool, open: bool, claimed: bool) returns (result: RunStart)
      modifies this, store
      ensures (View(), result) == Turns.StartAgentRun(old(View()), report, id, admitted, open, claimed)
      ensures turn == old(turn) || fresh(turn)
    {
      if !admitted {
        return NotStarted;
      }
      if EndingLocked() {
        deferred := Some([report] + if deferred.Some? then deferred.value else []);
        return HeldBack;
      }
      if turn != null || retired || !open || !claimed {
        return NotStarted;
      }
      store.turn := Some(StoredTurn(None, [], 0, false, true));
      turn := new ActiveTurn.AgentRun(id);
      status, stopReason, compacting := Running, NoReason, false;
      return Started;
    }

    method EndWork(failed: bool) returns (result: WorkEnd)
      modifies turn
      ensures (View().job, result) == Turns.EndWork(old(View()).job, failed)
      ensures turn == old(turn) && store.turn == old(store.turn)
    {
      if turn == null {
        return NoRun;
      }
      var run, steered := turn.agentRun, turn.promptCalls > 1;
      turn.agentRun := false;
      return if !run then NoRun else if failed && !steered then RunFailed else RunCompleted;
    }

    method LoseAgentRun()
      modifies turn
      ensures View() == old(View()).(job := Turns.LoseAgentRun(old(View()).job))
      ensures turn == old(turn)
    {
      if turn != null {
        turn.agentRun := false;
      }
    }

    method DeferUpdate(update: Update) returns (held: bool)
      modifies this
      ensures (View().job, held) == Turns.DeferUpdate(old(View()).job, update)
      ensures turn == old(turn) && store.turn == old(store.turn)
    {
      if deferred.None? {
        return false;
      }
      deferred := Some(deferred.value + [update]);
      return true;
    }

    method TakeDeferred() returns (result: ReplayStep)
      modifies this
      ensures (View().job, result) == Turns.TakeDeferred(old(View()).job)
      ensures turn == old(turn) && store.turn == old(store.turn)
    {
      if replaying || deferred.None? || EndingLocked() {
        return ReplayStops;
      }
      if |deferred.value| == 0 {
        deferred := None;
        return ReplayStops;
      }
      result := ReplayTakes(deferred.value[0]);
      deferred, replaying := Some(deferred.value[1..]), true;
    }

    method ApplyOutput(progress: bool, ok: bool)
      modifies this, turn, store
      ensures View() == Turns.ApplyOutput(old(View()), progress, ok)
      ensures turn == old(turn)
    {
      var _ := SetPromptState(Confirmed, ok);
      if turn != null && progress {
        turn.providerRetried := {};
      }
    }

    method ApplyRetrying(category: string)
      modifies turn
      ensures View() == old(View()).(job := Turns.ApplyRetrying(old(View()).job, category))
      ensures turn == old(turn)
    {
      if turn != null {
        turn.providerRetried := turn.providerRetried + {category};
      }
    }

    method Lease() returns (leased: bool)
      modifies this
      ensures (View().job, leased) == Turns.Lease(old(View()).job)
      ensures turn == old(turn) && store.turn == old(store.turn)
    {
      if retired {
        return false;
      }
      leases := leases + 1;
      return true;
    }

    method Release()
      modifies this
      ensures View() == old(View()).(job := Turns.Release(old(View()).job))
      ensures turn == old(turn)
    {
      leases := leases - 1;
    }

    method Retire(taskLive: bool) returns (stopping: bool)
      modifies this
      ensures (View().job, stopping) == Turns.Retire(old(View()).job, taskLive)
      ensures turn == old(turn) && store.turn == old(store.turn)
    {
      if retired || turn != null || finishing.Some? || leases > 0 || taskLive {
        return false;
      }
      retired := true;
      return true;
    }
  }
}
