/** That a turn's stored steers are its newest ones, and among them every kept steer its agent has not taken in, save one race. */
module SteerStore {
  import opened Wrappers
  import opened Turns
  import opened Recovery
  import opened TurnRuns
  import opened TurnAccounting
  import opened TurnEnds
  import opened SteerOrder

  predicate IsKept(call: Call) {
    call.kind.Steered? && call.kind.kept
  }

  /** The messages of the kept steers among calls, in order. */
  function KeptTexts(calls: seq<Call>): seq<string> {
    if calls == [] then []
    else KeptTexts(calls[..|calls| - 1]) + if IsKept(calls[|calls| - 1]) then [calls[|calls| - 1].kind.text] else []
  }

  lemma {:induction false} KeptTextsOfSum(a: seq<Call>, b: seq<Call>)
    ensures KeptTexts(a + b) == KeptTexts(a) + KeptTexts(b)
    decreases |b|
  {
    if b == [] {
      assert a + b == a;
    } else {
      KeptTextsOfSum(a, b[..|b| - 1]);
      assert (a + b)[..|a + b| - 1] == a + b[..|b| - 1];
    }
  }

  lemma {:induction false} KeptTextsCount(calls: seq<Call>)
    ensures |KeptTexts(calls)| <= |calls|
    ensures |KeptTexts(calls)| == |calls| <==> forall i :: 0 <= i < |calls| ==> IsKept(calls[i])
    decreases |calls|
  {
    if calls != [] {
      KeptTextsCount(calls[..|calls| - 1]);
    }
  }

  lemma KeptTextsOfSuffix(part: seq<Call>, whole: seq<Call>)
    requires IsSuffix(part, whole)
    ensures IsSuffix(KeptTexts(part), KeptTexts(whole))
  {
    var rest := whole[..|whole| - |part|];
    assert whole == rest + part;
    KeptTextsOfSum(rest, part);
  }

  lemma SuffixesNest<T>(a: seq<T>, b: seq<T>, whole: seq<T>)
    requires IsSuffix(a, whole) && IsSuffix(b, whole)
    ensures IsSuffix(a, b) <==> |a| <= |b|
  {
    if |a| <= |b| {
      assert b[|b| - |a|..] == whole[|whole| - |a|..];
    }
  }

  lemma SuffixTransitive<T>(a: seq<T>, b: seq<T>, c: seq<T>)
    requires IsSuffix(a, b) && IsSuffix(b, c)
    ensures IsSuffix(a, c)
  {
    assert c[|c| - |a|..] == c[|c| - |b|..][|b| - |a|..];
  }

  lemma NewestIsSuffix(steers: seq<string>, n: nat, untaken: seq<string>)
    requires IsSuffix(untaken, steers) && |untaken| <= n
    ensures IsSuffix(Newest(steers, n), steers) && IsSuffix(untaken, Newest(steers, n))
    ensures |Newest(steers, n)| == if n < |steers| then n else |steers|
  {
    SuffixesNest(untaken, Newest(steers, n), steers);
  }

  lemma {:induction false} IdsCount(wire: seq<Prompt>)
    requires DistinctIds(wire)
    ensures |Ids(wire)| == |wire|
    decreases |wire|
  {
    if wire != [] {
      IdsOfRest(wire);
      IdsCount(wire[1..]);
      assert wire[0].id in Ids(wire);
    }
  }

  /** The outstanding calls behind the oldest registered one, which the store's account takes the agent to work on. */
  function Behind(wire: seq<Prompt>, queue: seq<Call>): seq<Call> {
    if wire == [] then queue else CallsOf(wire[1..]) + queue
  }

  lemma BehindIsUntaken(turn: Turn, wire: seq<Prompt>, queue: seq<Call>)
    requires turn.prompts == Ids(wire) && DistinctIds(wire) && turn.unsent == |queue|
    ensures Untaken(turn) == |Behind(wire, queue)|
  {
    IdsCount(wire);
    if wire != [] {
      CallsOfAt(wire[1..]);
    }
  }

  /** The stored steers are the newest of those the turn kept, and hold the kept ones behind the oldest call on the wire. */
  predicate Keeps(turn: Turn, stored: Option<StoredTurn>, reserved: seq<Call>, behind: seq<Call>) {
    && stored.Some? && turn.kept == |stored.value.steers|
    && IsSuffix(stored.value.steers, KeptTexts(reserved)) && IsSuffix(KeptTexts(behind), stored.value.steers)
  }

  /** Steers into the agent's own run, which are not kept, come before those that are. */
  ghost predicate KeptComeLast(turn: Turn, reserved: seq<Call>) {
    && (forall i, j :: 0 <= i < j < |reserved| && IsKept(reserved[i]) && reserved[j].kind.Steered? ==> reserved[j].kind.kept)
    && (turn.agentRun ==> forall i :: 0 <= i < |reserved| ==> !IsKept(reserved[i]))
  }

  ghost predicate SteersKept(w: World) {
    w.thread.job.turn.Some? ==>
      var turn := w.thread.job.turn.value;
      Keeps(turn, w.thread.stored, w.reserved, Behind(w.wire, w.queue)) && KeptComeLast(turn, w.reserved)
  }

  /** Dropping what the agent took in keeps the rest. */
  lemma DroppingKeeps(t: Thread, ok: bool, reserved: seq<Call>, wire: seq<Prompt>, queue: seq<Call>)
    requires t.job.turn.Some? && t.job.turn.value.prompts == Ids(wire) && DistinctIds(wire) && t.job.turn.value.unsent == |queue|
    requires Keeps(t.job.turn.value, t.stored, reserved, Behind(wire, queue))
    ensures var t' := DropTakenSteers(t, ok);
            t'.job.turn.Some? && Keeps(t'.job.turn.value, t'.stored, reserved, Behind(wire, queue))
  {
    var turn := t.job.turn.value;
    var behind := Behind(wire, queue);
    BehindIsUntaken(turn, wire, queue);
    KeptTextsCount(behind);
    if turn.kept > Untaken(turn) && ok {
      NewestIsSuffix(t.stored.value.steers, |behind|, KeptTexts(behind));
      SuffixTransitive(Newest(t.stored.value.steers, |behind|), t.stored.value.steers, KeptTexts(reserved));
    }
  }

  // ---- Every event keeps the steers ----

  /** What the account of steers reads of a thread. */
  predicate SameSteers(a: Thread, b: Thread) {
    && (a.job.turn.Some? <==> b.job.turn.Some?) && (a.stored.Some? <==> b.stored.Some?)
    && (a.job.turn.Some? ==> a.job.turn.value.kept == b.job.turn.value.kept && (b.job.turn.value.agentRun ==> a.job.turn.value.agentRun))
    && (a.stored.Some? ==> a.stored.value.steers == b.stored.value.steers)
  }

  lemma SameSteersKeep(w: World, w': World)
    requires SteersKept(w) && SameSteers(w.thread, w'.thread)
    requires w'.queue == w.queue && w'.wire == w.wire && w'.reserved == w.reserved
    ensures SteersKept(w')
  {
  }

  lemma PromptStateKeepsSteers(t: Thread, state: PromptState, ok: bool)
    ensures SameSteers(t, SetPromptState(t, state, ok).0)
  {
  }

  lemma BehindRegistered(wire: seq<Prompt>, queue: seq<Call>, id: PromptId)
    requires queue != []
    ensures IsSuffix(Behind(wire + [Prompt(id, queue[0], false)], queue[1..]), Behind(wire, queue))
  {
    var prompt := Prompt(id, queue[0], false);
    if wire == [] {
      assert (wire + [prompt])[1..] == [];
    } else {
      assert (wire + [prompt])[1..] == wire[1..] + [prompt];
      assert (wire[1..] + [prompt])[..|wire| - 1] == wire[1..];
      assert Behind(wire + [prompt], queue[1..]) == Behind(wire, queue);
    }
  }

  lemma RegisterKeepsSteers(w: World, index: nat, ok: bool)
    requires SteersKept(w) && InOrder(w) && MayRegister(w, index)
    ensures SteersKept(RegisterNext(w, index, ok))
  {
    PromptStateKeepsSteers(w.thread, Sending, ok);
    OnlyOldestSends(w, index);
    SendingCounts(w.thread, w.nextPrompt, ok);
    if PromptSending(w.thread, w.nextPrompt, ok).1 {
      var w' := RegisterNext(w, index, ok);
      assert w'.queue == w.queue[1..];
      BehindRegistered(w.wire, w.queue, w.nextPrompt);
      KeptTextsOfSuffix(Behind(w'.wire, w'.queue), Behind(w.wire, w.queue));
      SuffixTransitive(KeptTexts(Behind(w'.wire, w'.queue)), KeptTexts(Behind(w.wire, w.queue)), w.thread.stored.value.steers);
    }
  }

  lemma BehindWritten(wire: seq<Prompt>, queue: seq<Call>, index: nat)
    requires index < |wire|
    ensures Behind(wire[index := wire[index].(written := true)], queue) == Behind(wire, queue)
  {
    var wire' := wire[index := wire[index].(written := true)];
    CallsOfAt(wire[1..]);
    CallsOfAt(wire'[1..]);
    assert CallsOf(wire'[1..]) == CallsOf(wire[1..]);
  }

  lemma WriteKeepsSteers(w: World, index: nat, dropOk: bool)
    requires SteersKept(w) && CallsAccounted(w) && index < |w.wire| && !w.wire[index].written
    ensures SteersKept(WriteNext(w, index, dropOk))
  {
    var turn := w.thread.job.turn.value.(firstPromptSent := true);
    var t := w.thread.(job := w.thread.job.(turn := Some(turn)));
    DroppingKeeps(t, dropOk, w.reserved, w.wire, w.queue);
    DroppingLeavesCounters(t, dropOk);
    BehindWritten(w.wire, w.queue, index);
  }

  lemma BehindAnswered(wire: seq<Prompt>, queue: seq<Call>)
    requires wire != []
    ensures IsSuffix(Behind(wire[1..], queue), Behind(wire, queue))
  {
    if |wire| == 1 {
      assert Behind(wire, queue) == queue;
    } else {
      CallsOfRest(wire[1..]);
      SuffixBehind([wire[1].call], Behind(wire[1..], queue));
      assert Behind(wire, queue) == [wire[1].call] + Behind(wire[1..], queue);
    }
  }

  lemma SuffixBehind<T>(front: seq<T>, part: seq<T>)
    ensures IsSuffix(part, front + part)
  {
  }

  lemma ResponseKeepsSteers(w: World, id: PromptId, failed: bool, stateOk: bool, dropOk: bool)
    requires w.thread.job.turn.Some? && SteersKept(w) && CallsAccounted(w) && (id in Ids(w.wire) ==> w.wire[0].id == id)
    ensures SteersKept(ResponseNext(w, id, failed, stateOk, dropOk))
  {
    AnsweringCounts(w.thread, id, stateOk, dropOk);
    if id in Ids(w.wire) {
      PromptStateKeepsSteers(w.thread, Confirmed, stateOk);
      PromptStateLeavesCounters(w.thread, Confirmed, stateOk);
      IdsOfRest(w.wire);
      BehindAnswered(w.wire, w.queue);
      KeptTextsOfSuffix(Behind(w.wire[1..], w.queue), Behind(w.wire, w.queue));
      SuffixTransitive(KeptTexts(Behind(w.wire[1..], w.queue)), KeptTexts(Behind(w.wire, w.queue)), w.thread.stored.value.steers);
      var t := SetPromptState(w.thread, Confirmed, stateOk).0;
      var turn := t.job.turn.value.(prompts := t.job.turn.value.prompts - {id});
      DroppingKeeps(t.(job := t.job.(turn := Some(turn))), dropOk, w.reserved, w.wire[1..], w.queue);
    } else {
      SameSteersKeep(w, ResponseNext(w, id, failed, stateOk, dropOk));
    }
  }

  lemma SteerKeepsSteers(w: World, message: string, ok: bool)
    requires SteersKept(w)
    ensures SteersKept(SteerNext(w, message, ok))
  {
    var (thread, result) := ReserveSteer(w.thread, message, w.nextSlot, ok);
    if result.Reserved? {
      var w' := SteerNext(w, message, ok);
      var call := w'.queue[|w.queue|];
      var steers := w.thread.stored.value.steers;
      assert Behind(w'.wire, w'.queue) == Behind(w.wire, w.queue) + [call];
      KeptTextsOfSum(Behind(w.wire, w.queue), [call]);
      KeptTextsOfSum(w.reserved, [call]);
      if IsKept(call) {
        assert KeptTexts([call]) == [message];
        SuffixWith(steers, KeptTexts(w.reserved), message);
        SuffixWith(KeptTexts(Behind(w.wire, w.queue)), steers, message);
      }
    }
  }

  lemma ContinuationKeepsSteers(w: World, w': World, call: Call)
    requires SteersKept(w) && SameSteers(w.thread, w'.thread) && call.kind.Continuation?
    requires w'.queue == w.queue + [call] && w'.wire == w.wire && w'.reserved == w.reserved + [call]
    ensures SteersKept(w')
  {
    if w.thread.job.turn.Some? {
      UnkeptAdds(Behind(w.wire, w.queue), call);
      UnkeptAdds(w.reserved, call);
      UnkeptComesLast(w.thread.job.turn.value, w'.thread.job.turn.value, w.reserved, call);
      assert Behind(w'.wire, w'.queue) == Behind(w.wire, w.queue) + [call];
    }
  }

  lemma UnkeptAdds(calls: seq<Call>, call: Call)
    requires !IsKept(call)
    ensures KeptTexts(calls + [call]) == KeptTexts(calls)
  {
    assert (calls + [call])[..|calls|] == calls;
  }

  lemma UnkeptComesLast(turn: Turn, turn': Turn, reserved: seq<Call>, call: Call)
    requires KeptComeLast(turn, reserved) && (turn'.agentRun ==> turn.agentRun) && !call.kind.Steered?
    ensures KeptComeLast(turn', reserved + [call])
  {
  }

  lemma CompleteKeepsSteers(w: World, done: TurnId, reason: StopReason, failure: Option<Failure>, visible: bool, recorded: bool)
    requires SteersKept(w) && (w.thread.job.turn.Some? ==> w.thread.job.turn.value.promptCalls >= 0)
    ensures SteersKept(CompleteNext(w, done, reason, failure, visible, recorded))
  {
    var w' := CompleteNext(w, done, reason, failure, visible, recorded);
    if Completes(w.thread, done) {
      var outcome := OutcomeOf(w.thread, w.thread.job.turn.value, reason, failure, visible, recorded);
      CompletedKeepsSteers(w.thread, outcome);
      if outcome == Waits {
        ContinuationKeepsSteers(w, w', Call(Continuation, None, w.nextSlot));
      } else {
        SameSteersKeep(w, w');
      }
    } else {
      assert w' == w;
    }
  }

  lemma CompletedKeepsSteers(t: Thread, outcome: Completion)
    requires t.job.turn.Some?
    ensures SameSteers(t, Completed(t, t.job.turn.value, outcome))
  {
  }

  /** The calls' steps that neither make, send nor answer a call. */
  lemma OtherCallsKeepSteers(w: World, e: CallEvent)
    requires SteersKept(w) && CallEnabled(w, e) && (e.Fail? || e.ReadStop? || e.SetEnded? || e.EndWait? || e.LoseConnection?)
    ensures SteersKept(CallNext(w, e))
  {
    SameSteersKeep(w, CallNext(w, e));
  }

  lemma SendingKeepsSteers(w: World, e: CallEvent)
    requires SteersKept(w) && InOrder(w) && CallsAccounted(w) && CallEnabled(w, e)
    requires Carries(e)
    ensures SteersKept(CallNext(w, e))
  {
    match e {
      case Steer(message, ok) => SteerKeepsSteers(w, message, ok);
      case Register(index, ok) => RegisterKeepsSteers(w, index, ok);
      case Write(index, dropOk) => WriteKeepsSteers(w, index, dropOk);
      case ReadResponse(id, failed, stateOk, dropOk) => if w.thread.job.turn.Some? { ResponseKeepsSteers(w, id, failed, stateOk, dropOk); }
    }
  }

  lemma EndsKeepSteers(w: World, e: CallEvent)
    requires SteersKept(w) && CallsAccounted(w) && CallEnabled(w, e) && e.Complete?
    ensures SteersKept(CallNext(w, e))
  {
    var w' := w.(replies := w.replies - if w.thread.job.turn.Some? && w.thread.job.turn.value.id == e.done then 1 else 0);
    SameSteersKeep(w, w');
    assert CallNext(w, e) == CompleteNext(w', e.done, e.reason, e.failure, e.visible, e.recorded);
    CompleteKeepsSteers(w', e.done, e.reason, e.failure, e.visible, e.recorded);
  }

  lemma CallsKeepSteers(w: World, e: CallEvent)
    requires SteersKept(w) && InOrder(w) && CallsAccounted(w) && CallEnabled(w, e)
    ensures SteersKept(CallNext(w, e))
  {
    if e.Complete? {
      EndsKeepSteers(w, e);
    } else if e.CompleteStopped? {
      CompleteKeepsSteers(w, w.thread.job.turn.value.id, StopCancelled, None, false, false);
    } else if Carries(e) {
      SendingKeepsSteers(w, e);
    } else {
      OtherCallsKeepSteers(w, e);
    }
  }

  lemma ApplyKeepsSteers(w: World, update: Update, choices: ApplyChoices)
    requires SteersKept(w)
    ensures SteersKept(Apply(w, update, choices).0)
  {
    var w' := Apply(w, update, choices).0;
    if update.Working? && StartAgentRun(w.thread, update, w.nextTurn, choices.admitted, choices.open, choices.claimed).1 == Started {
    } else {
      if update.Output? {
        PromptStateKeepsSteers(w.thread, Confirmed, choices.ok);
      }
      SameSteersKeep(w, w');
    }
  }

  lemma UpdatesKeepSteers(w: World, e: UpdateEvent)
    requires SteersKept(w) && UpdateEnabled(w, e)
    ensures SteersKept(UpdateNext(w, e))
  {
    match e {
      case ApplyReceived(choices) => ApplyKeepsSteers(w, w.reader.value, choices);
      case ApplyHeld(choices) => ApplyKeepsSteers(w, w.replay.update, choices);
      case _ => SameSteersKeep(w, UpdateNext(w, e));
    }
  }

  lemma BeginKeepsSteers(w: World, request: TurnRequest, ok: bool, continuations: nat)
    requires SteersKept(w)
    ensures SteersKept(BeginTurnOf(w, request, ok, continuations))
  {
    var call := Call(Opening(request.message), None, w.nextSlot);
    KeptTextsOfSum([], [call]);
    assert KeptTexts([call]) == [];
  }

  lemma TurnsKeepSteers(w: World, e: TurnEvent)
    requires SteersKept(w) && SignalledOnce(w) && TurnEnabled(w, e)
    ensures SteersKept(TurnNext(w, e))
  {
    match e {
      case Send(request, ok) => BeginKeepsSteers(w, request.(retries := 0), ok, 0);
      case ResumeTurn(ok) =>
        BeginKeepsSteers(w, Resume(w.thread.stored).request, ok, if w.thread.stored.None? then 0 else w.continuations);
      case BeginFinishing =>
      case StoreFinished =>
      case Restart =>
      case _ => SameSteersKeep(w, TurnNext(w, e));
    }
  }
}
