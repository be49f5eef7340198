/**
When a restart loses a steer. The store counts every registered prompt but one
as taken in, so between a steer's registration and its write the reply to the
prompt before it can make the store forget the steer. That is the only way.
*/
module SteerLoss {
  import opened Wrappers
  import opened Turns
  import opened Recovery
  import opened TurnRuns
  import opened TurnAccounting
  import opened TurnEnds
  import opened SteerOrder
  import opened SteerStore

  /** The calls the agent has not begun: it works on the oldest prompt written to it. */
  function NotTakenIn(w: World): seq<Call> {
    if w.wire != [] && w.wire[0].written then Behind(w.wire, w.queue) else Outstanding(w)
  }

  predicate Holds(w: World) {
    w.thread.job.turn.Some? && w.thread.stored.Some?
  }

  /** Whether a restart now would lose a kept steer that the agent has not begun. */
  predicate Lost(w: World)
    requires Holds(w)
  {
    !IsSuffix(KeptTexts(NotTakenIn(w)), w.thread.stored.value.steers)
  }

  ghost predicate Accounts(w: World) {
    CallsAccounted(w) && InOrder(w) && SteersKept(w)
  }

  /** One steer is registered and unwritten, and the store has forgotten it. */
  predicate Forgotten(wire: seq<Prompt>, queue: seq<Call>, steers: seq<string>) {
    |wire| == 1 && !wire[0].written && IsKept(wire[0].call) && |steers| == |KeptTexts(queue)|
  }

  lemma OutstandingTexts(wire: seq<Prompt>, queue: seq<Call>)
    requires |wire| == 1
    ensures KeptTexts(CallsOf(wire) + queue) == (if IsKept(wire[0].call) then [wire[0].call.kind.text] else []) + KeptTexts(queue)
    ensures Behind(wire, queue) == queue
  {
    CallsOfRest(wire);
    KeptTextsOfSum([], [wire[0].call]);
    assert CallsOf(wire) == [] + [wire[0].call];
    KeptTextsOfSum(CallsOf(wire), queue);
    assert KeptTexts([wire[0].call]) == if IsKept(wire[0].call) then [wire[0].call.kind.text] else [];
    assert [] + queue == queue;
  }

  lemma NotTakenInCases(w: World)
    requires Holds(w) && InOrder(w)
    ensures NotTakenIn(w) == Behind(w.wire, w.queue) || (|w.wire| == 1 && !w.wire[0].written && NotTakenIn(w) == Outstanding(w))
  {
    if w.wire == [] {
      assert Outstanding(w) == w.queue;
    }
  }

  lemma UnwrittenLost(wire: seq<Prompt>, queue: seq<Call>, reserved: seq<Call>, steers: seq<string>)
    requires |wire| == 1 && IsSuffix(CallsOf(wire) + queue, reserved)
    requires IsSuffix(steers, KeptTexts(reserved)) && IsSuffix(KeptTexts(queue), steers)
    ensures !IsSuffix(KeptTexts(CallsOf(wire) + queue), steers) <==> IsKept(wire[0].call) && |steers| == |KeptTexts(queue)|
  {
    OutstandingTexts(wire, queue);
    KeptTextsOfSuffix(CallsOf(wire) + queue, reserved);
    SuffixesNest(KeptTexts(CallsOf(wire) + queue), steers, KeptTexts(reserved));
    assert [] + KeptTexts(queue) == KeptTexts(queue);
  }

  /** A steer is lost exactly while it is registered and not written and the store holds only those behind it. */
  lemma LostExactly(w: World)
    requires Holds(w) && Accounts(w)
    ensures Lost(w) <==> Forgotten(w.wire, w.queue, w.thread.stored.value.steers)
  {
    NotTakenInCases(w);
    if |w.wire| == 1 && !w.wire[0].written {
      OutstandingTexts(w.wire, w.queue);
      UnwrittenLost(w.wire, w.queue, w.reserved, w.thread.stored.value.steers);
    }
  }

  /** The reply to the prompt before a steer that is registered and not written, with the store told. */
  predicate Forgets(w: World, e: CallEvent) {
    e.ReadResponse? && e.dropOk && |w.wire| == 2 && e.id == w.wire[0].id && !w.wire[1].written && IsKept(w.wire[1].call)
  }

  predicate ForgottenIn(w: World) {
    w.thread.stored.Some? && Forgotten(w.wire, w.queue, w.thread.stored.value.steers)
  }

  lemma SteerForgetsNone(w: World, message: string, ok: bool)
    requires Holds(w) && !ForgottenIn(w)
    ensures !ForgottenIn(SteerNext(w, message, ok))
  {
    var (thread, result) := ReserveSteer(w.thread, message, w.nextSlot, ok);
    if result.Reserved? {
      var call := SteerNext(w, message, ok).queue[|w.queue|];
      KeptTextsOfSum(w.queue, [call]);
      assert KeptTexts([call]) == if IsKept(call) then [message] else [];
    }
  }

  lemma KeptTextsOfRest(calls: seq<Call>)
    requires calls != []
    ensures |KeptTexts(calls)| == |KeptTexts(calls[1..])| + if IsKept(calls[0]) then 1 else 0
  {
    assert calls == [calls[0]] + calls[1..];
    KeptTextsOfSum([calls[0]], calls[1..]);
    assert |KeptTexts([calls[0]])| == if IsKept(calls[0]) then 1 else 0;
  }

  lemma RegisterForgetsNone(w: World, index: nat, ok: bool)
    requires Holds(w) && Accounts(w) && MayRegister(w, index) && !ForgottenIn(w)
    ensures !ForgottenIn(RegisterNext(w, index, ok))
  {
    PromptStateKeepsSteers(w.thread, Sending, ok);
    OnlyOldestSends(w, index);
    KeptTextsOfRest(w.queue);
    assert w.queue[..0] + w.queue[0 + 1..] == w.queue[1..];
    if w.wire == [] {
      assert Behind(w.wire, w.queue) == w.queue;
    }
  }

  lemma WriteForgetsNone(w: World, index: nat, dropOk: bool)
    requires Holds(w) && Accounts(w) && index < |w.wire| && !w.wire[index].written
    ensures !ForgottenIn(WriteNext(w, index, dropOk))
  {
    WrittenWire(w.wire, index);
    var wire := WriteNext(w, index, dropOk).wire;
    assert |wire| == 1 ==> wire[0].written;
  }

  /** All that waits behind a kept steer is kept. */
  lemma BehindKeptSteer(w: World)
    requires Holds(w) && Accounts(w) && |w.wire| == 2 && !w.wire[1].written && IsKept(w.wire[1].call)
    ensures |KeptTexts(w.queue)| == |w.queue| && |w.queue| < w.thread.job.turn.value.kept
    ensures |w.thread.stored.value.steers| == w.thread.job.turn.value.kept
  {
    var wire, queue, reserved := w.wire, w.queue, w.reserved;
    CallsOfAt(wire);
    var at := |reserved| - |Outstanding(w)|;
    assert reserved[at + 1] == Outstanding(w)[1] == wire[1].call;
    forall i | 0 <= i < |queue|
      ensures IsKept(queue[i])
    {
      assert Chain(w)[i + 1] == queue[i] == Outstanding(w)[i + 2] == reserved[at + i + 2];
    }
    KeptTextsCount(queue);
    assert wire[1..] == [wire[1]];
    OutstandingTexts(wire[1..], queue);
  }

  lemma AnsweringDrops(t: Thread, id: PromptId, stateOk: bool, dropOk: bool)
    requires t.job.turn.Some? && t.stored.Some? && id in t.job.turn.value.prompts
    ensures var turn, t' := t.job.turn.value, PromptAnswered(t, id, stateOk, dropOk);
            var untaken := Untaken(turn.(prompts := turn.prompts - {id}));
            && t'.stored.Some?
            && t'.stored.value.steers == if turn.kept > untaken && dropOk then Newest(t.stored.value.steers, untaken)
                                         else t.stored.value.steers
  {
    PromptStateKeepsSteers(t, Confirmed, stateOk);
    PromptStateLeavesCounters(t, Confirmed, stateOk);
  }

  /** The reply read while a second prompt is registered leaves the store just the queued steers, if it is told. */
  lemma SecondAnswered(w: World, e: CallEvent)
    requires Holds(w) && Accounts(w) && CallEnabled(w, e) && e.ReadResponse? && e.id in Ids(w.wire)
    requires |w.wire| == 2 && !w.wire[1].written && IsKept(w.wire[1].call)
    ensures var stored := PromptAnswered(w.thread, e.id, e.stateOk, e.dropOk).stored;
            stored.Some? && (|stored.value.steers| == |KeptTexts(w.queue)| <==> e.dropOk)
  {
    BehindKeptSteer(w);
    IdsOfRest(w.wire);
    assert Ids(w.wire[1..]) == {w.wire[1].id};
    AnsweringDrops(w.thread, e.id, e.stateOk, e.dropOk);
  }

  lemma ResponseForgets(w: World, e: CallEvent)
    requires Holds(w) && Accounts(w) && !ForgottenIn(w) && CallEnabled(w, e) && e.ReadResponse?
    ensures ForgottenIn(CallNext(w, e)) <==> Forgets(w, e)
  {
    if e.id !in Ids(w.wire) {
      assert |w.wire| == 2 ==> w.wire[0].id in Ids(w.wire);
    } else if |w.wire| == 2 && !w.wire[1].written && IsKept(w.wire[1].call) {
      SecondAnswered(w, e);
      assert w.wire[1..] == [w.wire[1]];
    }
  }

  lemma CompleteForgetsNone(w: World, done: TurnId, reason: StopReason, failure: Option<Failure>, visible: bool, recorded: bool)
    requires Holds(w) && !ForgottenIn(w)
    requires Completes(w.thread, done) && w.thread.job.turn.value.promptCalls == 1 && !w.thread.job.turn.value.cancelRequested ==> w.wire == []
    ensures !ForgottenIn(CompleteNext(w, done, reason, failure, visible, recorded))
  {
    if Completes(w.thread, done) {
      var outcome := OutcomeOf(w.thread, w.thread.job.turn.value, reason, failure, visible, recorded);
      CompletedKeepsSteers(w.thread, outcome);
      OutcomeCounts(w.thread, w.thread.job.turn.value, reason, failure, visible, recorded);
    }
  }

  lemma OtherCallsForgetNone(w: World, e: CallEvent)
    requires Holds(w) && !ForgottenIn(w) && CallEnabled(w, e) && (e.Fail? || e.ReadStop? || e.SetEnded? || e.EndWait? || e.LoseConnection?)
    ensures !ForgottenIn(CallNext(w, e))
  {
  }

  lemma EndsForgetNone(w: World, e: CallEvent)
    requires Holds(w) && CallsAccounted(w) && !ForgottenIn(w) && CallEnabled(w, e) && e.Complete?
    ensures !ForgottenIn(CallNext(w, e))
  {
    var w' := w.(replies := w.replies - if w.thread.job.turn.value.id == e.done then 1 else 0);
    assert CallNext(w, e) == CompleteNext(w', e.done, e.reason, e.failure, e.visible, e.recorded);
    CompleteForgetsNone(w', e.done, e.reason, e.failure, e.visible, e.recorded);
  }

  lemma StoppedForgetsNone(w: World)
    requires Holds(w) && CallsAccounted(w) && !ForgottenIn(w) && CallEnabled(w, CompleteStopped)
    ensures !ForgottenIn(CallNext(w, CompleteStopped))
  {
    CompleteForgetsNone(w, w.thread.job.turn.value.id, StopCancelled, None, false, false);
  }

  lemma CallsForget(w: World, e: CallEvent)
    requires Holds(w) && Accounts(w) && !ForgottenIn(w) && CallEnabled(w, e)
    ensures ForgottenIn(CallNext(w, e)) <==> Forgets(w, e)
  {
    match e {
      case Steer(message, ok) => SteerForgetsNone(w, message, ok);
      case Register(index, ok) => RegisterForgetsNone(w, index, ok);
      case Write(index, dropOk) => WriteForgetsNone(w, index, dropOk);
      case ReadResponse(_, _, _, _) => ResponseForgets(w, e);
      case Complete(_, _, _, _, _) => EndsForgetNone(w, e);
      case CompleteStopped => StoppedForgetsNone(w);
      case _ => OtherCallsForgetNone(w, e);
    }
  }

  lemma ApplyForgetsNone(w: World, update: Update, choices: ApplyChoices)
    requires w.thread.job.turn.Some? ==> !ForgottenIn(w)
    ensures var w' := Apply(w, update, choices).0;
            w'.thread.job.turn.Some? ==> !ForgottenIn(w')
  {
    if update.Output? {
      PromptStateKeepsSteers(w.thread, Confirmed, choices.ok);
    }
  }

  lemma UpdatesForgetNone(w: World, e: UpdateEvent)
    requires UpdateEnabled(w, e) && (w.thread.job.turn.Some? ==> !ForgottenIn(w))
    ensures var w' := UpdateNext(w, e);
            w'.thread.job.turn.Some? ==> !ForgottenIn(w')
  {
    match e {
      case ApplyReceived(choices) => ApplyForgetsNone(w, w.reader.value, choices);
      case ApplyHeld(choices) => ApplyForgetsNone(w, w.replay.update, choices);
      case _ =>
    }
  }

  lemma TurnsForgetNone(w: World, e: TurnEvent)
    requires TurnEnabled(w, e) && (w.thread.job.turn.Some? ==> !ForgottenIn(w))
    ensures var w' := TurnNext(w, e);
            w'.thread.job.turn.Some? ==> !ForgottenIn(w')
  {
  }

  // ---- A forgotten steer stays so until it is written ----

  lemma SteerKeepsForgotten(w: World, message: string, ok: bool)
    requires Holds(w) && ForgottenIn(w)
    ensures ForgottenIn(SteerNext(w, message, ok))
  {
    var (thread, result) := ReserveSteer(w.thread, message, w.nextSlot, ok);
    if result.Reserved? {
      var call := SteerNext(w, message, ok).queue[|w.queue|];
      KeptTextsOfSum(w.queue, [call]);
      assert KeptTexts([call]) == if IsKept(call) then [message] else [];
    }
  }

  lemma EndsKeepForgotten(w: World, e: CallEvent)
    requires Holds(w) && CallsAccounted(w) && ForgottenIn(w) && CallEnabled(w, e) && e.Complete?
    ensures ForgottenIn(CallNext(w, e))
  {
    var w' := w.(replies := w.replies - if w.thread.job.turn.value.id == e.done then 1 else 0);
    assert CallNext(w, e) == CompleteNext(w', e.done, e.reason, e.failure, e.visible, e.recorded);
    if Completes(w.thread, e.done) {
      var outcome := OutcomeOf(w.thread, w.thread.job.turn.value, e.reason, e.failure, e.visible, e.recorded);
      OutcomeCounts(w.thread, w.thread.job.turn.value, e.reason, e.failure, e.visible, e.recorded);
      CompletedKeepsSteers(w.thread, outcome);
    }
  }

  lemma NoneRegistersBehind(w: World, index: nat)
    requires InOrder(w) && ForgottenIn(w)
    ensures !MayRegister(w, index)
  {
    if MayRegister(w, index) {
      OnlyOldestSends(w, index);
    }
  }

  lemma CallsKeepForgotten(w: World, e: CallEvent)
    requires Holds(w) && Accounts(w) && ForgottenIn(w) && CallEnabled(w, e)
    ensures ForgottenIn(CallNext(w, e)) <==> !e.Write?
  {
    match e {
      case Steer(message, ok) => SteerKeepsForgotten(w, message, ok);
      case Register(index, _) => NoneRegistersBehind(w, index);
      case Write(index, dropOk) => WriteForgetsNone(w, index, dropOk);
      case ReadResponse(id, _, _, _) => assert id !in Ids(w.wire);
      case Complete(_, _, _, _, _) => EndsKeepForgotten(w, e);
      case _ =>
    }
  }

  lemma ApplyKeepsForgotten(w: World, update: Update, choices: ApplyChoices)
    requires Holds(w) && ForgottenIn(w)
    ensures ForgottenIn(Apply(w, update, choices).0)
  {
    if update.Output? {
      PromptStateKeepsSteers(w.thread, Confirmed, choices.ok);
    }
  }

  lemma UpdatesKeepForgotten(w: World, e: UpdateEvent)
    requires Holds(w) && UpdateEnabled(w, e) && ForgottenIn(w)
    ensures ForgottenIn(UpdateNext(w, e))
  {
    match e {
      case ApplyReceived(choices) => ApplyKeepsForgotten(w, w.reader.value, choices);
      case ApplyHeld(choices) => ApplyKeepsForgotten(w, w.replay.update, choices);
      case _ =>
    }
  }

  lemma TurnsKeepForgotten(w: World, e: TurnEvent)
    requires SignalledOnce(w) && Holds(w) && TurnEnabled(w, e) && ForgottenIn(w) && TurnNext(w, e).thread.job.turn.Some?
    ensures ForgottenIn(TurnNext(w, e))
  {
  }

  /** What a restart goes on with ends with every kept steer the agent has not begun, in order, unless one is lost. */
  lemma RestartKeepsSteers(w: World)
    requires Holds(w) && !Lost(w)
    ensures Resume(w.thread.stored).Resumes? ==> IsSuffix(KeptTexts(NotTakenIn(w)), Resume(w.thread.stored).request.message)
  {
    var steers, untaken := w.thread.stored.value.steers, KeptTexts(NotTakenIn(w));
    if Resume(w.thread.stored).Resumes? {
      var message := Resume(w.thread.stored).request.message;
      if steers != [] {
        assert message == message[..|message| - |steers|] + steers;
        SuffixBehind(message[..|message| - |steers|], steers);
        SuffixTransitive(untaken, steers, message);
      } else {
        assert untaken == [];
      }
    }
  }
}
