/** What holds of a thread's turns in every run: the invariants together, and what they say to a caller. */
module TurnTheorems {
  import opened Wrappers
  import opened Turns
  import opened Recovery
  import opened TurnRuns
  import opened TurnAccounting
  import opened TurnEnds
  import opened TurnRetries
  import opened SteerOrder
  import opened SteerStore
  import opened SteerLoss
  import opened PromptResend
  import opened HeldUpdates
  import opened IdleStop

  ghost predicate Inv(w: World) {
    && CallsAccounted(w) && SignalledOnce(w) && StopsHold(w) && RetriesHold(w)
    && InOrder(w) && SteersKept(w) && PromptsKnown(w) && UpdatesInOrder(w) && StopsOnlyIdle(w)
  }

  lemma CallsKeepInv(w: World, e: CallEvent)
    requires Inv(w) && CallEnabled(w, e)
    ensures Inv(CallNext(w, e))
  {
    CallsKeepAccount(w, e);
    CallsKeepSignals(w, e);
    CallsKeepStops(w, e);
    CallsKeepRetries(w, e);
    CallsKeepOrder(w, e);
    CallsKeepSteers(w, e);
    CallsKeepPrompts(w, e);
    CallsKeepUpdates(w, e);
    CallsKeepLeases(w, e);
  }

  lemma UpdatesKeepInv(w: World, e: UpdateEvent)
    requires Inv(w) && UpdateEnabled(w, e)
    ensures Inv(UpdateNext(w, e))
  {
    UpdatesKeepAccount(w, e);
    UpdatesKeepSignals(w, e);
    UpdatesKeepStops(w, e);
    UpdatesKeepRetries(w, e);
    UpdatesKeepOrder(w, e);
    UpdatesKeepSteers(w, e);
    UpdatesKeepPrompts(w, e);
    UpdatesKeepUpdates(w, e);
    UpdatesKeepLeases(w, e);
  }

  lemma TurnsKeepInv(w: World, e: TurnEvent)
    requires Inv(w) && TurnEnabled(w, e)
    ensures Inv(TurnNext(w, e))
  {
    TurnsKeepAccount(w, e);
    TurnsKeepSignals(w, e);
    TurnsKeepStops(w, e);
    TurnsKeepRetries(w, e);
    TurnsKeepOrder(w, e);
    TurnsKeepSteers(w, e);
    TurnsKeepPrompts(w, e);
    TurnsKeepUpdates(w, e);
    TurnsKeepLeases(w, e);
  }

  lemma StepKeepsInv(w: World, e: Event)
    requires Inv(w) && Enabled(w, e)
    ensures Inv(Next(w, e))
  {
    match e {
      case OfCalls(call) => CallsKeepInv(w, call);
      case OfUpdates(step) => UpdatesKeepInv(w, step);
      case OfTurns(turn) => TurnsKeepInv(w, turn);
    }
  }

  lemma {:induction false} RunsHold(events: seq<Event>)
    ensures Inv(Run(events))
    decreases |events|
  {
    if events != [] {
      var w, e := Run(events[..|events| - 1]), events[|events| - 1];
      RunsHold(events[..|events| - 1]);
      if Enabled(w, e) {
        StepKeepsInv(w, e);
      }
    }
  }

  // ---- When a turn ends ----

  /** A turn counts exactly the calls that wait, are on the wire, were answered or failed but not processed, and the agent's own run. */
  lemma {:induction false} CallsAreCounted(events: seq<Event>)
    ensures var w := Run(events);
            w.thread.job.turn.Some? && w.closing == Open ==>
              var turn := w.thread.job.turn.value;
              && turn.unsent == |w.queue| && turn.prompts == Ids(w.wire) && |turn.prompts| == |w.wire|
              && turn.promptCalls == turn.unsent + |turn.prompts| + w.replies + w.failures + (if turn.agentRun then 1 else 0)
              && (Ending(w.thread.job) <==> turn.promptCalls == w.replies + w.failures)
  {
    RunsHold(events);
    var w := Run(events);
    if w.thread.job.turn.Some? {
      IdsCount(w.wire);
    }
  }

  /** A turn that no stop was recorded on ends, unless it fails, with nothing in flight. */
  lemma {:induction false} NormalEndLeavesNothing(events: seq<Event>, e: CallEvent)
    requires var w := Run(events);
             w.thread.job.turn.Some? && w.closing == Open && !w.thread.job.turn.value.cancelRequested && CallEnabled(w, e)
    ensures var w' := CallNext(Run(events), e);
            w'.closing == Ready ==>
              && w'.queue == [] && w'.wire == [] && w'.replies == 0 && w'.failures == 0 && w'.thread.job.turn.Some?
              && !w'.thread.job.turn.value.agentRun && Ending(w'.thread.job) && !InProgress(w'.thread.job.status)
  {
    RunsHold(events);
    var w := Run(events);
    CallsKeepAccount(w, e);
    CallsKeepStops(w, e);
    OnlyRepliesEnd(w, e);
    if e.Complete? && e.done == w.thread.job.turn.value.id {
      if w.thread.job.turn.value.promptCalls > 1 {
        HandedOffStays(w, e);
      } else {
        LastReplyEnds(w, e);
      }
    }
  }

  lemma OnlyRepliesEnd(w: World, e: CallEvent)
    requires CallsAccounted(w) && w.thread.job.turn.Some? && w.closing == Open && !w.thread.job.turn.value.cancelRequested && CallEnabled(w, e)
    ensures CallNext(w, e).closing == Ready ==> e.Complete? && e.done == w.thread.job.turn.value.id
  {
  }

  lemma HandedOffStays(w: World, e: CallEvent)
    requires CallsAccounted(w) && w.thread.job.turn.Some? && w.closing == Open && !w.thread.job.turn.value.cancelRequested && CallEnabled(w, e)
    requires e.Complete? && e.done == w.thread.job.turn.value.id && w.thread.job.turn.value.promptCalls > 1
    ensures CallNext(w, e).closing == Open
  {
    assert CallNext(w, e) == CompleteNext(w.(replies := w.replies - 1), e.done, e.reason, e.failure, e.visible, e.recorded);
    HandingOffCounts(w.thread, e.done, e.reason, e.failure, e.visible, e.recorded);
  }

  lemma LastReplyIsAlone(w: World, e: CallEvent)
    requires CallsAccounted(w) && w.thread.job.turn.Some? && w.closing == Open && CallEnabled(w, e)
    requires e.Complete? && e.done == w.thread.job.turn.value.id && w.thread.job.turn.value.promptCalls == 1
    ensures w.queue == [] && w.wire == [] && w.replies == 1 && w.failures == 0 && !w.thread.job.turn.value.agentRun
  {
  }

  lemma LastReplyEnds(w: World, e: CallEvent)
    requires CallsAccounted(w) && w.thread.job.turn.Some? && w.closing == Open && !w.thread.job.turn.value.cancelRequested && CallEnabled(w, e)
    requires e.Complete? && e.done == w.thread.job.turn.value.id && w.thread.job.turn.value.promptCalls == 1
    ensures var w' := CallNext(w, e);
            w'.closing == Ready ==>
              && w'.queue == [] && w'.wire == [] && w'.replies == 0 && w'.failures == 0 && w'.thread.job.turn.Some?
              && !w'.thread.job.turn.value.agentRun && Ending(w'.thread.job)
  {
    LastReplyIsAlone(w, e);
    assert CallNext(w, e) == CompleteNext(w.(replies := 0), e.done, e.reason, e.failure, e.visible, e.recorded);
    LastCallCounts(w.thread, e.done, e.reason, e.failure, e.visible, e.recorded);
  }

  /** Every turn's done channel closes once: at most one turn is under way, and those before it since the last start were signalled. */
  lemma {:induction false} EachTurnEndsOnce(events: seq<Event>)
    ensures var w := Run(events);
            && (forall id :: w.signals[id] <= 1)
            && (forall id: nat :: w.base <= id < w.nextTurn ==> (w.signals[id] == 1 <==> !Live(w.thread.job, id)))
            && (forall a, b :: Live(w.thread.job, a) && Live(w.thread.job, b) ==> a == b)
  {
    RunsHold(events);
  }

  // ---- Stops and retries ----

  /** Who set the status last in a run, since the calls of its turn were over; none, if but the turn did. */
  function LastSetter(events: seq<Event>): Option<Watcher> {
    if events == [] then None
    else
      var (before, w, e) := (events[..|events| - 1], Run(events[..|events| - 1]), events[|events| - 1]);
      if !Enabled(w, e) then LastSetter(before)
      else if w.closing != Ready then None
      else if e.OfTurns? && e.turn.SetObserved? then Some(e.turn.who)
      else LastSetter(before)
  }

  /** Whether the last stop recorded in a run since failTurn had read its turn's stop had another reason than was read. */
  predicate StoppedLate(events: seq<Event>) {
    if events == [] then false
    else
      var (before, w, e) := (events[..|events| - 1], Run(events[..|events| - 1]), events[|events| - 1]);
      if !Enabled(w, e) then StoppedLate(before)
      else if w.closing.Settling? && e.OfTurns? && e.turn.Stop? && Records(w.thread.job, e.turn.reason) then
        w.closing != Settling(Cancelled, e.turn.reason)
      else (w.closing.Settling? || w.closing == Ready) && StoppedLate(before)
  }

  /** What the world remembers of the run is who set the status last, and whether a stop came late. */
  predicate Remembers(w: World, events: seq<Event>) {
    && (w.closing == Ready ==> w.watch.setBy == LastSetter(events))
    && (w.thread.job.turn.Some? ==> (w.watch.late <==> StoppedLate(events)))
  }

  lemma CallsRemember(before: seq<Event>, e: CallEvent)
    requires var w := Run(before); CallsAccounted(w) && StopsHold(w) && Remembers(w, before) && CallEnabled(w, e)
    ensures var (w, w') := (Run(before), CallNext(Run(before), e));
            && (w'.closing == Ready ==> w'.watch.setBy == if w.closing == Ready then LastSetter(before) else None)
            && (w'.thread.job.turn.Some? ==> (w'.watch.late <==> (w.closing.Settling? || w.closing == Ready) && StoppedLate(before)))
  {
    if Carries(e) {
      SendingKeepsStops(Run(before), e);
    }
  }

  /** An update leaves what is remembered of a turn under way, and begins one with nothing to remember. */
  predicate SameMemory(w: World, w': World) {
    && w'.closing == w.closing
    && (if w.thread.job.turn.Some? then w'.watch == w.watch else w'.thread.job.turn.Some? ==> !w'.watch.late)
  }

  lemma ApplyKeepsMemory(w: World, update: Update, choices: ApplyChoices)
    requires CallsAccounted(w)
    ensures SameMemory(w, Apply(w, update, choices).0)
  {
    if update.Output? && w.thread.job.turn.Some? {
      PromptStateLeavesCounters(w.thread, Confirmed, choices.ok);
    }
  }

  lemma UpdatesKeepMemory(w: World, e: UpdateEvent)
    requires CallsAccounted(w) && UpdateEnabled(w, e)
    ensures SameMemory(w, UpdateNext(w, e))
  {
    match e {
      case ApplyReceived(choices) => ApplyKeepsMemory(w, w.reader.value, choices);
      case ApplyHeld(choices) => ApplyKeepsMemory(w, w.replay.update, choices);
      case _ =>
    }
  }

  lemma UpdatesRemember(before: seq<Event>, e: UpdateEvent)
    requires var w := Run(before); CallsAccounted(w) && StopsHold(w) && Remembers(w, before) && UpdateEnabled(w, e)
    ensures var (w, w') := (Run(before), UpdateNext(Run(before), e));
            && (w'.closing == Ready ==> w'.watch.setBy == if w.closing == Ready then LastSetter(before) else None)
            && (w'.thread.job.turn.Some? ==> (w'.watch.late <==> (w.closing.Settling? || w.closing == Ready) && StoppedLate(before)))
  {
    UpdatesKeepMemory(Run(before), e);
  }

  lemma TurnsRemember(before: seq<Event>, e: TurnEvent)
    requires var w := Run(before); CallsAccounted(w) && StopsHold(w) && Remembers(w, before) && TurnEnabled(w, e)
    requires Run(before + [OfTurns(e)]) == TurnNext(Run(before), e)
    ensures Remembers(Run(before + [OfTurns(e)]), before + [OfTurns(e)])
  {
    var all := before + [OfTurns(e)];
    assert all[..|all| - 1] == before && all[|all| - 1] == OfTurns(e);
  }

  lemma {:induction false} RunsRemember(events: seq<Event>)
    ensures Remembers(Run(events), events)
    decreases |events|
  {
    if events != [] {
      var before, e := events[..|events| - 1], events[|events| - 1];
      RunsRemember(before);
      RunsHold(before);
      assert events == before + [e];
      if Enabled(Run(before), e) {
        match e {
          case OfCalls(call) => CallsRemember(before, call);
          case OfUpdates(step) => UpdatesRemember(before, step);
          case OfTurns(turn) => TurnsRemember(before, turn);
        }
      }
    }
  }

  /**
  A stopped turn whose calls are over is cancelled for the reason it records,
  exactly unless its connection was found dead since, or the last stop recorded
  after failTurn had read the turn's stop had another reason than was read. A
  stop that timed out says as much for a person's stop, and not for a shutdown.
  */
  lemma {:induction false} StoppedEndsCancelled(events: seq<Event>)
    ensures var w := Run(events);
            w.thread.job.turn.Some? && w.closing == Ready && w.thread.job.turn.value.cancelRequested ==>
              (SaysStopped(w.thread.job.status, w.thread.job.stopReason, w.thread.job.turn.value)
               <==> match LastSetter(events)
                    case None => !StoppedLate(events)
                    case Some(OfConnection) => false
                    case Some(OfStop) => w.thread.job.turn.value.cancelReason == StopCancelled)
  {
    RunsHold(events);
    RunsRemember(events);
  }

  /** At most three continuations are ever sent for a turn, restarts included. */
  lemma {:induction false} RetriesAreBounded(events: seq<Event>)
    ensures var w := Run(events);
            && w.continuations <= MAX_RETRIES
            && (w.thread.stored.Some? ==> w.continuations + Continuations(w.queue) <= w.thread.stored.value.retries <= MAX_RETRIES)
  {
    RunsHold(events);
  }

  /** Once a stop is recorded it stays, and no retry wait starts. */
  lemma {:induction false} NoWaitAfterStop(events: seq<Event>, e: Event)
    requires var w := Run(events);
             Enabled(w, e) && w.thread.job.turn.Some? && w.thread.job.turn.value.cancelRequested
    ensures var w, w' := Run(events), Next(Run(events), e);
            w'.thread.job.turn.Some? ==>
              w'.thread.job.turn.value.cancelRequested && (w'.retry == WaitingToRetry ==> w.retry == WaitingToRetry)
  {
    RunsHold(events);
    var w := Run(events);
    match e {
      case OfCalls(call) => StoppedStays(w, call);
      case OfUpdates(step) => UpdatesKeepTurnUnderWay(w, step);
      case OfTurns(turn) => TurnsKeepStopped(w, turn);
    }
  }

  lemma StoppedStays(w: World, e: CallEvent)
    requires CallsAccounted(w) && CallEnabled(w, e) && w.thread.job.turn.Some? && w.thread.job.turn.value.cancelRequested
    ensures var w' := CallNext(w, e);
            && w'.thread.job.turn.Some? && w'.thread.job.turn.value.cancelRequested
            && (w'.retry == WaitingToRetry ==> w.retry == WaitingToRetry)
  {
    if Carries(e) {
      SendingKeepsStops(w, e);
    }
  }

  /** What the connection's updates leave of a turn under way. */
  predicate SameTurnUnderWay(w: World, w': World) {
    && SameStops(w.thread.job, w'.thread.job) && SameTurns(w.thread.job, w'.thread.job)
    && w'.wire == w.wire && w'.closing == w.closing && w'.retry == w.retry
    && w'.continuations == w.continuations
  }

  lemma ApplyKeepsTurnUnderWay(w: World, update: Update, choices: ApplyChoices)
    requires w.thread.job.turn.Some?
    ensures SameTurnUnderWay(w, Apply(w, update, choices).0)
  {
    if update.Output? {
      PromptStateLeavesCounters(w.thread, Confirmed, choices.ok);
    }
  }

  lemma UpdatesKeepTurnUnderWay(w: World, e: UpdateEvent)
    requires UpdateEnabled(w, e) && w.thread.job.turn.Some?
    ensures SameTurnUnderWay(w, UpdateNext(w, e))
  {
    match e {
      case ApplyReceived(choices) => ApplyKeepsTurnUnderWay(w, w.reader.value, choices);
      case ApplyHeld(choices) => ApplyKeepsTurnUnderWay(w, w.replay.update, choices);
      case _ =>
    }
  }

  lemma TurnsKeepStopped(w: World, e: TurnEvent)
    requires TurnEnabled(w, e) && w.thread.job.turn.Some? && w.thread.job.turn.value.cancelRequested
    ensures var w' := TurnNext(w, e);
            w'.thread.job.turn.Some? ==> w'.thread.job.turn.value.cancelRequested && (w'.retry == WaitingToRetry ==> w.retry == WaitingToRetry)
  {
  }

  /** A stopped turn waits to retry, or its wait has found the stop and has yet to end it; `sent` continuations went out before. */
  predicate WaitsStopped(w: World, id: TurnId, sent: nat) {
    && w.thread.job.turn.Some? && w.thread.job.turn.value.id == id && w.thread.job.turn.value.cancelRequested
    && w.closing == Open && w.retry != NoRetry && w.wire == [] && w.continuations == sent
  }

  /** The turn's calls are over, and it is cancelled for the reason it records. */
  predicate EndedStopped(w: World, id: TurnId, sent: nat) {
    && w.thread.job.turn.Some? && w.thread.job.turn.value.id == id && w.closing == Ready && w.continuations == sent
    && SaysStopped(w.thread.job.status, w.thread.job.stopReason, w.thread.job.turn.value)
  }

  lemma CallsKeepWaiting(w: World, e: CallEvent, id: TurnId, sent: nat)
    requires CallsAccounted(w) && CallEnabled(w, e) && WaitsStopped(w, id, sent) && !e.Complete? && !e.CompleteStopped?
    ensures WaitsStopped(CallNext(w, e), id, sent)
  {
  }

  lemma CompletesKeepWaiting(w: World, e: CallEvent, id: TurnId, sent: nat)
    requires CallsAccounted(w) && CallEnabled(w, e) && WaitsStopped(w, id, sent) && e.Complete?
    ensures WaitsStopped(CallNext(w, e), id, sent)
  {
    assert e.done != id;
    assert CallNext(w, e) == CompleteNext(w, e.done, e.reason, e.failure, e.visible, e.recorded);
  }

  lemma StoppedWaitEnds(w: World, id: TurnId, sent: nat)
    requires CallsAccounted(w) && CallEnabled(w, CompleteStopped) && WaitsStopped(w, id, sent)
    ensures EndedStopped(CallNext(w, CompleteStopped), id, sent)
  {
    LastCallCounts(w.thread, id, StopCancelled, None, false, false);
    OutcomesSettle(w.thread, w.thread.job.turn.value, StopCancelled, None, false, false);
  }

  lemma TurnsKeepWaiting(w: World, e: TurnEvent, id: TurnId, sent: nat)
    requires TurnEnabled(w, e) && WaitsStopped(w, id, sent) && !e.Restart?
    ensures WaitsStopped(TurnNext(w, e), id, sent)
  {
  }

  lemma UpdatesKeepWaiting(w: World, e: UpdateEvent, id: TurnId, sent: nat)
    requires UpdateEnabled(w, e) && WaitsStopped(w, id, sent)
    ensures WaitsStopped(UpdateNext(w, e), id, sent)
  {
    UpdatesKeepTurnUnderWay(w, e);
  }

  lemma CallsKeepOrEndWaiting(w: World, e: CallEvent, id: TurnId, sent: nat)
    requires CallsAccounted(w) && CallEnabled(w, e) && WaitsStopped(w, id, sent)
    ensures WaitsStopped(CallNext(w, e), id, sent) || EndedStopped(CallNext(w, e), id, sent)
  {
    if e.Complete? {
      CompletesKeepWaiting(w, e, id, sent);
    } else if e.CompleteStopped? {
      StoppedWaitEnds(w, id, sent);
    } else {
      CallsKeepWaiting(w, e, id, sent);
    }
  }

  lemma StoppedWaitStep(w: World, e: Event, id: TurnId, sent: nat)
    requires Inv(w) && Enabled(w, e) && e != OfTurns(Restart) && WaitsStopped(w, id, sent)
    ensures WaitsStopped(Next(w, e), id, sent) || EndedStopped(Next(w, e), id, sent)
  {
    match e {
      case OfCalls(call) => CallsKeepOrEndWaiting(w, call, id, sent);
      case OfUpdates(step) => UpdatesKeepWaiting(w, step, id, sent);
      case OfTurns(turn) => TurnsKeepWaiting(w, turn, id, sent);
    }
  }

  predicate WaitsAt(events: seq<Event>, later: seq<Event>, m: nat, id: TurnId, sent: nat)
    requires m <= |later|
  {
    WaitsStopped(Run(events + later[..m]), id, sent)
  }

  /** A run from a stopped wait: it holds for the first k steps, and either they are all or the next one ends the turn as stopped. */
  ghost predicate WaitsUntilEnd(events: seq<Event>, later: seq<Event>, id: TurnId, sent: nat, k: nat)
    requires k <= |later|
  {
    && (forall m :: 0 <= m <= k ==> WaitsAt(events, later, m, id, sent))
    && (k < |later| ==> EndedStopped(Run(events + later[..k + 1]), id, sent))
  }

  /**
  Once a turn that waits to retry is stopped, or a stopped wait is under way,
  nothing more is sent, whatever happens short of a restart, until the wait's own
  end leaves the turn cancelled for the reason it then records.
  */
  lemma {:induction false} StoppedWaitCancels(events: seq<Event>, later: seq<Event>) returns (k: nat)
    requires var w := Run(events);
             w.thread.job.turn.Some? && w.thread.job.turn.value.cancelRequested && w.closing == Open && w.retry != NoRetry
    requires OfTurns(Restart) !in later
    ensures k <= |later| && WaitsUntilEnd(events, later, Run(events).thread.job.turn.value.id, Run(events).continuations, k)
    decreases |later|
  {
    var id, sent := Run(events).thread.job.turn.value.id, Run(events).continuations;
    if later == [] {
      RunsHold(events);
      assert events + [] == events;
      return 0;
    }
    var before := later[..|later| - 1];
    k := StoppedWaitCancels(events, before);
    assert later == before + [later[|later| - 1]];
    if k < |before| {
      WaitEndedBefore(events, before, later[|later| - 1], id, sent, k);
    } else {
      assert before[..k] == before && later[..|before| + 1] == later;
      assert WaitsAt(events, before, k, id, sent);
      var waits := LastStepOfWait(events, later, id, sent);
      WaitGoesOn(events, before, later[|later| - 1], id, sent, waits);
      k := if waits then |later| else k;
    }
  }

  lemma WaitsBefore(events: seq<Event>, before: seq<Event>, e: Event, m: nat, id: TurnId, sent: nat)
    requires m <= |before|
    ensures WaitsAt(events, before + [e], m, id, sent) == WaitsAt(events, before, m, id, sent)
  {
    assert (before + [e])[..m] == before[..m];
  }

  lemma WaitEndedBefore(events: seq<Event>, before: seq<Event>, e: Event, id: TurnId, sent: nat, k: nat)
    requires k < |before| && WaitsUntilEnd(events, before, id, sent, k)
    ensures WaitsUntilEnd(events, before + [e], id, sent, k)
  {
    forall m | 0 <= m <= k
      ensures WaitsAt(events, before + [e], m, id, sent)
    {
      WaitsBefore(events, before, e, m, id, sent);
    }
    assert (before + [e])[..k + 1] == before[..k + 1];
  }

  lemma WaitGoesOn(events: seq<Event>, before: seq<Event>, e: Event, id: TurnId, sent: nat, waits: bool)
    requires WaitsUntilEnd(events, before, id, sent, |before|)
    requires if waits then WaitsAt(events, before + [e], |before| + 1, id, sent)
             else EndedStopped(Run(events + (before + [e])[..|before| + 1]), id, sent)
    ensures WaitsUntilEnd(events, before + [e], id, sent, if waits then |before| + 1 else |before|)
  {
    forall m | 0 <= m <= |before|
      ensures WaitsAt(events, before + [e], m, id, sent)
    {
      WaitsBefore(events, before, e, m, id, sent);
    }
  }

  /** One more step of a stopped wait; the result says whether the wait goes on. */
  lemma LastStepOfWait(events: seq<Event>, later: seq<Event>, id: TurnId, sent: nat) returns (waits: bool)
    requires later != [] && later[|later| - 1] != OfTurns(Restart) && WaitsStopped(Run(events + later[..|later| - 1]), id, sent)
    ensures if waits then WaitsStopped(Run(events + later), id, sent) else EndedStopped(Run(events + later), id, sent)
  {
    var all, e := events + later[..|later| - 1], later[|later| - 1];
    RunsHold(all);
    assert (events + later)[..|events + later| - 1] == all && (events + later)[|events + later| - 1] == e;
    if Enabled(Run(all), e) {
      StoppedWaitStep(Run(all), e, id, sent);
    }
    waits := WaitsStopped(Run(events + later), id, sent);
  }

  // ---- Steers ----

  /** Prompts leave oldest first, one at a time, and those not yet answered are the newest of what the turn was asked. */
  lemma {:induction false} SteersLeaveInOrder(events: seq<Event>)
    ensures var w := Run(events);
            && (forall i: nat :: MayRegister(w, i) ==> i == 0 && Unwritten(w.wire) == [])
            && (w.thread.job.turn.Some? ==> IsSuffix(Outstanding(w), w.reserved))
  {
    RunsHold(events);
    var w := Run(events);
    forall i: nat | MayRegister(w, i)
      ensures i == 0 && Unwritten(w.wire) == []
    {
      OnlyOldestSends(w, i);
    }
  }

  /** The stored steers are the newest that the turn kept. */
  lemma {:induction false} StoredSteersAreNewest(events: seq<Event>)
    ensures var w := Run(events);
            w.thread.job.turn.Some? ==> w.thread.stored.Some? && IsSuffix(w.thread.stored.value.steers, KeptTexts(w.reserved))
  {
    RunsHold(events);
  }

  /** Whether in a run the store forgot a steer of the turn under way that was registered, and no prompt was written since. */
  predicate Forgot(events: seq<Event>) {
    if events == [] then false
    else
      var (before, w, e) := (events[..|events| - 1], Run(events[..|events| - 1]), events[|events| - 1]);
      if !Enabled(w, e) then Forgot(before)
      else
        && w.thread.job.turn.Some? && Next(w, e).thread.job.turn.Some?
        && ((e.OfCalls? && Forgets(w, e.call)) || (Forgot(before) && !(e.OfCalls? && e.call.Write?)))
  }

  lemma StepForgets(w: World, e: Event)
    requires Inv(w) && Enabled(w, e) && (w.thread.job.turn.Some? ==> !ForgottenIn(w))
    ensures var w' := Next(w, e);
            w'.thread.job.turn.Some? ==>
              (ForgottenIn(w') <==> w.thread.job.turn.Some? && e.OfCalls? && Forgets(w, e.call))
  {
    match e {
      case OfCalls(call) => if w.thread.job.turn.Some? { CallsForget(w, call); }
      case OfUpdates(step) => UpdatesForgetNone(w, step);
      case OfTurns(turn) => TurnsForgetNone(w, turn);
    }
  }

  lemma StepKeepsForgotten(w: World, e: Event)
    requires Inv(w) && Enabled(w, e) && w.thread.job.turn.Some? && Next(w, e).thread.job.turn.Some? && ForgottenIn(w)
    ensures ForgottenIn(Next(w, e)) <==> !(e.OfCalls? && e.call.Write?)
  {
    match e {
      case OfCalls(call) => CallsKeepForgotten(w, call);
      case OfUpdates(step) => UpdatesKeepForgotten(w, step);
      case OfTurns(turn) => TurnsKeepForgotten(w, turn);
    }
  }

  /** A restart loses a steer exactly while the store has forgotten one that was registered and is still not written. */
  lemma {:induction false} NoSteerIsLost(events: seq<Event>)
    ensures var w := Run(events);
            w.thread.job.turn.Some? ==> w.thread.stored.Some? && (Lost(w) <==> ForgottenIn(w)) && (Lost(w) <==> Forgot(events))
    decreases |events|
  {
    RunsHold(events);
    var w := Run(events);
    if w.thread.job.turn.Some? {
      LostExactly(w);
      ForgotExactly(events);
    }
  }

  lemma {:induction false} ForgotExactly(events: seq<Event>)
    ensures Run(events).thread.job.turn.Some? ==> (ForgottenIn(Run(events)) <==> Forgot(events))
    ensures Run(events).thread.job.turn.None? ==> !Forgot(events)
    decreases |events|
  {
    if events != [] {
      var w, e := Run(events[..|events| - 1]), events[|events| - 1];
      ForgotExactly(events[..|events| - 1]);
      RunsHold(events[..|events| - 1]);
      if Enabled(w, e) && Next(w, e).thread.job.turn.Some? {
        if w.thread.job.turn.Some? && ForgottenIn(w) {
          StepKeepsForgotten(w, e);
        } else {
          StepForgets(w, e);
        }
      }
    }
  }

  // ---- Restarts ----

  predicate StoredStaysIn(w: World, w': World) {
    w'.thread.job.turn.None? ==> w'.thread.stored == w.thread.stored || w'.thread.stored.None?
  }

  lemma UpdatesKeepStored(w: World, e: UpdateEvent)
    requires UpdateEnabled(w, e)
    ensures StoredStaysIn(w, UpdateNext(w, e))
  {
    if (e.ApplyReceived? || e.ApplyHeld?) && w.thread.job.turn.Some? {
      UpdatesKeepTurnUnderWay(w, e);
    }
  }

  lemma TurnsKeepStored(w: World, e: TurnEvent)
    requires TurnEnabled(w, e)
    ensures StoredStaysIn(w, TurnNext(w, e))
  {
  }

  lemma StoredStays(w: World, e: Event)
    requires Enabled(w, e)
    ensures StoredStaysIn(w, Next(w, e))
  {
    match e {
      case OfCalls(call) => if CallNext(w, call).thread.job.turn.None? { CallsKeepStored(w, call); }
      case OfUpdates(step) => UpdatesKeepStored(w, step);
      case OfTurns(turn) => TurnsKeepStored(w, turn);
    }
  }

  lemma CallsKeepStored(w: World, e: CallEvent)
    requires CallEnabled(w, e) && CallNext(w, e).thread.job.turn.None?
    ensures CallNext(w, e).thread.stored == w.thread.stored
  {
  }

  /** No turn is under way from a moment on. */
  ghost predicate NoTurnSince(events: seq<Event>, later: seq<Event>) {
    forall k :: 0 < k <= |later| ==> Run(events + later[..k]).thread.job.turn.None?
  }

  lemma NoTurnBefore(events: seq<Event>, before: seq<Event>, e: Event)
    requires NoTurnSince(events, before + [e])
    ensures NoTurnSince(events, before) && Run(events + (before + [e])).thread.job.turn.None?
  {
    assert forall k :: 0 < k <= |before| ==> (before + [e])[..k] == before[..k];
    assert (before + [e])[..|before| + 1] == before + [e];
  }

  lemma LastStays(all: seq<Event>, e: Event)
    ensures StoredStaysIn(Run(all), Run(all + [e]))
  {
    assert (all + [e])[..|all + [e]| - 1] == all && (all + [e])[|all + [e]| - 1] == e;
    if Enabled(Run(all), e) {
      StoredStays(Run(all), e);
    }
  }

  /** What a turn's store held when it ended or the program stopped is there until the turn is finished for good or another begins. */
  lemma {:induction false} InterruptedStays(events: seq<Event>, later: seq<Event>)
    requires NoTurnSince(events, later)
    ensures Run(events + later).thread.stored == Run(events).thread.stored || Run(events + later).thread.stored.None?
    decreases |later|
  {
    if later == [] {
      assert events + later == events;
    } else {
      var before, e := later[..|later| - 1], later[|later| - 1];
      assert later == before + [e];
      NoTurnBefore(events, before, e);
      InterruptedStays(events, before);
      assert events + before + [e] == events + later;
      LastStays(events + before, e);
    }
  }

  /**
  What goes on after a restart or shutdown: every kept steer that the agent had
  not begun when the turn was last under way, last and in order, unless one was
  forgotten then.
  */
  lemma {:induction false} RestartGoesOn(events: seq<Event>, later: seq<Event>)
    requires Run(events).thread.job.turn.Some? && NoTurnSince(events, later)
    ensures var (w, stored) := (Run(events), Run(events + later).thread.stored);
            !Forgot(events) && stored.Some? && Resume(stored).Resumes? ==>
              IsSuffix(KeptTexts(NotTakenIn(w)), Resume(stored).request.message)
  {
    NoSteerIsLost(events);
    InterruptedStays(events, later);
    if !Forgot(events) {
      RestartKeepsSteers(Run(events));
    }
  }

  /**
  The opening prompt is sent again exactly when it was not registered while the
  turn was last under way, and is left to the person exactly when it was and
  nothing showed that the agent has it.
  */
  lemma {:induction false} RestartsResendOnlyUnsent(events: seq<Event>, later: seq<Event>)
    requires Run(events).thread.job.turn.Some? && NoTurnSince(events, later)
    ensures var (w, kept) := (Run(events), Run(events + later).thread.stored);
            kept.Some? && kept.value.prompt.Some? && !kept.value.compacting ==>
              && (Resume(kept).Unconfirmed? <==> !OpeningWaits(w.queue) && !w.thread.job.turn.value.promptObserved)
              && (OpeningWaits(w.queue) ==>
                    Resume(kept).Resumes? && Resume(kept).request.message == w.queue[0].kind.message + kept.value.steers)
              && (w.thread.job.turn.value.promptObserved ==>
                    Resume(kept).Resumes? && Resume(kept).request.message == [CONTINUATION] + kept.value.steers)
  {
    RunsHold(events);
    InterruptedStays(events, later);
    var w := Run(events);
    if w.thread.stored.value.prompt.Some? && !w.thread.stored.value.compacting {
      RestartResends(w);
    }
  }

  // ---- Updates and idle stopping ----

  /** Updates are applied in the order they arrived, and none is held back once no turn, finish or replay is left. */
  lemma {:induction false} UpdatesApplyInOrder(events: seq<Event>)
    ensures var w := Run(events);
            && w.received == w.applied + InHand(w.replay) + BeingRead(w.reader) + Held(w.thread.job)
            && (w.thread.job.turn.None? && w.thread.job.finishing.None? && w.replay == Empty && w.replayers == 0 ==>
                  w.thread.job.deferred.None?)
  {
    RunsHold(events);
    var w := Run(events);
    assert w.applied + Pending(w.thread.job, w.reader, w.replay) == w.applied + InHand(w.replay) + BeingRead(w.reader) + Held(w.thread.job);
  }

  /** A process claimed for stopping has no turn, no finish and no send under way. */
  lemma {:induction false} RetiredIsIdle(events: seq<Event>)
    ensures var w := Run(events);
            w.thread.job.retired ==> w.thread.job.turn.None? && w.thread.job.finishing.None? && w.thread.job.leases == 0 && w.senders == 0
  {
    RunsHold(events);
  }
}
