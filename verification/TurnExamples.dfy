/** Runs that show where a promise about turns stops: a steer lost by a restart, and stopped turns that end as failed. */
module TurnExamples {
  import opened Wrappers
  import opened Turns
  import opened Recovery
  import opened TurnRuns
  import opened TurnAccounting
  import opened SteerOrder
  import opened SteerStore
  import opened SteerLoss
  import opened TurnTheorems

  const REQUEST := TurnRequest(["first"], 0, false, false, false)

  const STARTED := [OfTurns(BeginSend), OfTurns(Send(REQUEST, true)), OfCalls(Register(0, true)), OfCalls(Write(0, true))]

  /** The steer is registered; before it is written the reply to the prompt before it is read. */
  const FORGETTING := [OfCalls(Steer("second", true)), OfCalls(Register(0, true)), OfCalls(ReadResponse(0, false, true, true))]

  /** The agent answers the stop, and its connection dies before the turn finishes. */
  const DYING := [OfTurns(Stop(StopCancelled)), OfCalls(ReadResponse(0, false, true, true)),
                  OfCalls(Complete(0, StopCancelled, None, false, true)),
                  OfTurns(ConnectionEnds), OfTurns(Observe(OfConnection)), OfTurns(SetObserved(OfConnection))]

  function Step(w: World, e: Event): World {
    if Enabled(w, e) then Next(w, e) else w
  }

  lemma RunStep(events: seq<Event>, e: Event)
    ensures Run(events + [e]) == Step(Run(events), e)
  {
    assert (events + [e])[..|events|] == events;
  }

  const OPENING := Call(Opening(["first"]), None, 0)
  const SECOND := Call(Steered("second", true), None, 1)
  const STORED := StoredTurn(Some(StoredPrompt(["first"], Unset)), [], 0, false, false)

  function Opened(): World {
    Begun(Start().(senders := 1), Thread(FRESH_JOB.(status := Running, turn := Some(BegunTurn(0, 0, false)), leases := 1), Some(STORED)), [OPENING], 0)
  }

  function Sent(): World {
    var turn := BegunTurn(0, 0, false).(unsent := 0, prompts := {0}, promptSending := true);
    Opened().(thread := Thread(Opened().thread.job.(turn := Some(turn)), Some(STORED.(prompt := Some(StoredPrompt(["first"], Sending))))),
              queue := [], wire := [Prompt(0, OPENING, false)], nextPrompt := 1)
  }

  function Prompted(): World {
    Sent().(thread := Sent().thread.(job := Sent().thread.job.(turn := Some(Sent().thread.job.turn.value.(firstPromptSent := true)))),
            wire := [Prompt(0, OPENING, true)], closedSlots := {0})
  }

  lemma OpenedRun()
    ensures Run(STARTED[..2]) == Opened()
  {
    RunStep([], STARTED[0]);
    RunStep(STARTED[..1], STARTED[1]);
    assert [] + [STARTED[0]] == STARTED[..1] && STARTED[..1] + [STARTED[1]] == STARTED[..2];
    assert Run([]) == Start();
    assert Step(Start(), STARTED[0]) == Start().(thread := Thread(FRESH_JOB.(leases := 1), None), senders := 1);
  }

  lemma SentRun()
    ensures Run(STARTED[..3]) == Sent()
  {
    OpenedRun();
    RunStep(STARTED[..2], STARTED[2]);
    assert STARTED[..2] + [STARTED[2]] == STARTED[..3];
    var w := Opened();
    assert MayRegister(w, 0) && w.queue[..0] + w.queue[0 + 1..] == [];
    assert w.wire + [Prompt(0, OPENING, false)] == [Prompt(0, OPENING, false)];
    var none: set<PromptId> := {};
    assert none + {0} == {0};
    assert PromptSending(w.thread, 0, true) == (Sent().thread, true);
  }

  lemma StartedRun()
    ensures Run(STARTED) == Prompted()
  {
    SentRun();
    RunStep(STARTED[..3], STARTED[3]);
    assert STARTED[..3] + [STARTED[3]] == STARTED;
  }

  // ---- A restart that loses a steer ----

  function Steering(): World {
    SteerNext(Prompted(), "second", true)
  }

  lemma SteeringIs()
    ensures var w := Steering();
            && w.queue == [SECOND] && w.wire == [Prompt(0, OPENING, true)] && w.retry == NoRetry
            && w.nextPrompt == 1 && w.thread.job.turn.Some? && w.thread.stored.Some? && w.thread.stored.value.prompt.Some?
  {
  }

  lemma SteeringRun()
    ensures Run(STARTED + FORGETTING[..1]) == Steering()
  {
    StartedRun();
    RunStep(STARTED, FORGETTING[0]);
    assert STARTED + [FORGETTING[0]] == STARTED + FORGETTING[..1];
  }

  lemma ForgettingRun()
    ensures var w := Run(STARTED + FORGETTING[..2]);
            w.wire == [Prompt(0, OPENING, true), Prompt(1, SECOND, false)] && w.queue == [] && w.thread.job.turn.Some?
  {
    SteeringRun();
    SteeringIs();
    RunStep(STARTED + FORGETTING[..1], FORGETTING[1]);
    assert STARTED + FORGETTING[..1] + [FORGETTING[1]] == STARTED + FORGETTING[..2];
    var w := Steering();
    SendingCounts(w.thread, 1, true);
    assert w.queue[..0] + w.queue[0 + 1..] == [];
  }

  lemma ForgettingStep(w: World)
    requires Inv(w) && w.thread.job.turn.Some? && w.queue == []
    requires w.wire == [Prompt(0, OPENING, true), Prompt(1, SECOND, false)]
    ensures var e := ReadResponse(0, false, true, true);
            CallEnabled(w, e) && Forgets(w, e) && !ForgottenIn(w)
            && CallNext(w, e).thread.job.turn.Some? && CallNext(w, e).wire == [Prompt(1, SECOND, false)] && CallNext(w, e).queue == []
  {
    assert w.wire[0].id in Ids(w.wire);
    AnsweringCounts(w.thread, 0, true, true);
  }

  /** A steer is lost: forgotten by the store, though it was never written to the agent. */
  lemma ASteerIsLost()
    ensures var w := Run(STARTED + FORGETTING);
            && w.thread.job.turn.Some? && w.thread.stored.Some? && Lost(w)
            && w.wire == [Prompt(1, SECOND, false)] && w.thread.stored.value.steers == []
  {
    ForgettingRun();
    var before, e := STARTED + FORGETTING[..2], FORGETTING[2];
    RunStep(before, e);
    assert before + [e] == STARTED + FORGETTING;
    RunsHold(before);
    ForgettingStep(Run(before));
    StepForgets(Run(before), e);
    NoSteerIsLost(STARTED + FORGETTING);
  }

  // ---- A stopped turn that ends as failed ----

  lemma StopRun()
    ensures var (w, was) := (Run(STARTED + DYING[..1]), Prompted());
            w == was.(thread := was.thread.(job := RequestCancel(was.thread.job, StopCancelled)), watch := NO_WATCH.(stopsWaiting := 1))
  {
    StartedRun();
    RunStep(STARTED, DYING[0]);
    assert STARTED + [DYING[0]] == STARTED + DYING[..1];
  }

  lemma StoppingRun()
    ensures var w := Run(STARTED + DYING[..2]);
            && w.wire == [] && w.queue == [] && w.replies == 1 && w.closing == Open && w.thread.job.turn.Some? && w.thread.job.turn.value.id == 0
            && w.thread.job.turn.value.promptCalls == 1 && w.thread.job.turn.value.cancelRequested && w.watch == NO_WATCH.(stopsWaiting := 1)
  {
    StopRun();
    RunStep(STARTED + DYING[..1], DYING[1]);
    assert STARTED + DYING[..1] + [DYING[1]] == STARTED + DYING[..2];
    var w := Run(STARTED + DYING[..1]);
    assert w.wire[0].id in Ids(w.wire);
    AnsweringCounts(w.thread, 0, true, true);
  }

  lemma StoppedRun()
    ensures var w := Run(STARTED + DYING[..3]);
            && w.thread.job.turn.Some? && w.thread.job.turn.value.cancelRequested && w.closing == Ready && w.thread.job.status == Cancelled
            && w.watch == NO_WATCH.(stopsWaiting := 1)
  {
    StoppingRun();
    RunStep(STARTED + DYING[..2], DYING[2]);
    assert STARTED + DYING[..2] + [DYING[2]] == STARTED + DYING[..3];
    var w := Run(STARTED + DYING[..2]);
    assert CallNext(w, DYING[2].call) == CompleteNext(w.(replies := 0), 0, StopCancelled, None, false, true);
    LastCallCounts(w.thread, 0, StopCancelled, None, false, true);
    assert OutcomeOf(w.thread, w.thread.job.turn.value, StopCancelled, None, false, true) == Ends(Cancelled, w.thread.job.turn.value.cancelReason);
  }

  lemma EndedRun()
    ensures var (w, was) := (Run(STARTED + DYING[..4]), Run(STARTED + DYING[..3]));
            w == was.(watch := was.watch.(dead := true, observers := multiset{Looks(OfConnection)}))
  {
    StoppedRun();
    RunStep(STARTED + DYING[..3], DYING[3]);
    assert STARTED + DYING[..3] + [DYING[3]] == STARTED + DYING[..4];
  }

  lemma ObservedRun()
    ensures var w := Run(STARTED + DYING[..5]);
            && w.thread.job.turn.Some? && w.thread.job.turn.value.cancelRequested && w.closing == Ready
            && Sets(OfConnection) in w.watch.observers
  {
    StoppedRun();
    EndedRun();
    RunStep(STARTED + DYING[..4], DYING[4]);
    assert STARTED + DYING[..4] + [DYING[4]] == STARTED + DYING[..5];
  }

  /** A turn stopped by the person, whose agent answered the stop, ends as failed when its connection dies before it finishes. */
  lemma AStopEndsFailed()
    ensures var w := Run(STARTED + DYING);
            && w.thread.job.turn.Some? && w.thread.job.turn.value.cancelRequested && w.closing == Ready && w.thread.job.status == Failed
  {
    ObservedRun();
    RunStep(STARTED + DYING[..5], DYING[5]);
    assert STARTED + DYING[..5] + [DYING[5]] == STARTED + DYING;
  }

  // ---- A stop that comes too late ----

  /** The call fails, failTurn finds no stop, and the stop is recorded before the status is set. */
  const MISSING := [OfCalls(Fail(0)), OfCalls(ReadStop), OfTurns(Stop(StopCancelled)), OfCalls(SetEnded)]

  lemma FailedRun()
    ensures var w := Run(STARTED + MISSING[..2]);
            && w.thread.job.turn.Some? && !w.thread.job.turn.value.cancelRequested && w.thread.job.status == Running
            && w.closing == Settling(Failed, NoReason) && !w.watch.dead
  {
    StartedRun();
    RunStep(STARTED, MISSING[0]);
    RunStep(STARTED + MISSING[..1], MISSING[1]);
    assert STARTED + [MISSING[0]] == STARTED + MISSING[..1] && STARTED + MISSING[..1] + [MISSING[1]] == STARTED + MISSING[..2];
  }

  lemma LateRun()
    ensures var w := Run(STARTED + MISSING[..3]);
            && w.thread.job.turn.Some? && w.thread.job.turn.value.cancelRequested && w.closing == Settling(Failed, NoReason)
            && !w.watch.dead && w.watch.late
  {
    FailedRun();
    RunStep(STARTED + MISSING[..2], MISSING[2]);
    assert STARTED + MISSING[..2] + [MISSING[2]] == STARTED + MISSING[..3];
  }

  /** A turn on which a stop was recorded ends as failed, though its connection is alive: failTurn had read that there was none. */
  lemma ALateStopEndsFailed()
    ensures var w := Run(STARTED + MISSING);
            && w.thread.job.turn.Some? && w.thread.job.turn.value.cancelRequested && w.closing == Ready && w.thread.job.status == Failed
            && !w.watch.dead && w.watch.late
  {
    LateRun();
    RunStep(STARTED + MISSING[..3], MISSING[3]);
    assert STARTED + MISSING[..3] + [MISSING[3]] == STARTED + MISSING;
  }
}
