/** That a turn's prompts leave in the order they were made: each steer waits for the sent channel of the one before it. */
module SteerOrder {
  import opened Wrappers
  import opened Turns
  import opened Recovery
  import opened TurnRuns
  import opened TurnAccounting

  function CallsOf(wire: seq<Prompt>): seq<Call> {
    if wire == [] then [] else CallsOf(wire[..|wire| - 1]) + [wire[|wire| - 1].call]
  }

  lemma {:induction false} CallsOfAt(wire: seq<Prompt>)
    ensures |CallsOf(wire)| == |wire| && forall i :: 0 <= i < |wire| ==> CallsOf(wire)[i] == wire[i].call
    decreases |wire|
  {
    if wire != [] {
      CallsOfAt(wire[..|wire| - 1]);
    }
  }

  /** The call registered but not yet written, if any. */
  function Unwritten(wire: seq<Prompt>): seq<Call> {
    if wire != [] && !wire[|wire| - 1].written then [wire[|wire| - 1].call] else []
  }

  /** The calls still to be written, oldest first. */
  function Chain(w: World): seq<Call> {
    Unwritten(w.wire) + w.queue
  }

  /** Each call of the chain waits for the one before it, whose sent channel is open. */
  ghost predicate Linked(chain: seq<Call>, closedSlots: set<Slot>, nextSlot: Slot) {
    && (forall j :: 0 <= j < |chain| ==> chain[j].sent !in closedSlots && chain[j].sent < nextSlot)
    && (forall i, j :: 0 <= i < j < |chain| ==> chain[i].sent < chain[j].sent)
    && (forall j :: 0 < j < |chain| ==> chain[j].kind.Steered? && chain[j].after == Some(chain[j - 1].sent))
  }

  /** An opening prompt or continuation is alone until it is written; a steer made now waits for the last of the chain. */
  predicate Gated(chain: seq<Call>, turn: Turn) {
    chain != [] ==>
      && (!chain[0].kind.Steered? ==> |chain| == 1 && !turn.firstPromptSent)
      && (chain[|chain| - 1].kind.Steered? ==> turn.steerSent == Some(chain[|chain| - 1].sent))
  }

  predicate AllButLastWritten(wire: seq<Prompt>) {
    forall i :: 0 <= i < |wire| - 1 ==> wire[i].written
  }

  predicate IsSuffix<T(==)>(part: seq<T>, whole: seq<T>) {
    |part| <= |whole| && whole[|whole| - |part|..] == part
  }

  /** The calls are linked and gated, and on the wire and waiting is the newest of what was reserved, in its order. */
  ghost predicate Ordered(turn: Turn, wire: seq<Prompt>, chain: seq<Call>, calls: seq<Call>, closedSlots: set<Slot>, nextSlot: Slot,
                          reserved: seq<Call>)
  {
    AllButLastWritten(wire) && Linked(chain, closedSlots, nextSlot) && Gated(chain, turn) && IsSuffix(calls, reserved)
  }

  function Outstanding(w: World): seq<Call> {
    CallsOf(w.wire) + w.queue
  }

  ghost predicate SlotsIssued(closedSlots: set<Slot>, nextSlot: Slot) {
    forall slot :: slot in closedSlots ==> slot < nextSlot
  }

  ghost predicate InOrder(w: World) {
    && SlotsIssued(w.closedSlots, w.nextSlot)
    && (w.thread.job.turn.Some? ==>
          Ordered(w.thread.job.turn.value, w.wire, Chain(w), Outstanding(w), w.closedSlots, w.nextSlot, w.reserved))
  }

  // ---- What each step does to the chain ----

  lemma RegisteredWire(wire: seq<Prompt>, queue: seq<Call>, id: PromptId)
    requires queue != [] && Unwritten(wire) == [] && AllButLastWritten(wire)
    ensures var wire' := wire + [Prompt(id, queue[0], false)];
            && Unwritten(wire') + queue[1..] == Unwritten(wire) + queue
            && CallsOf(wire') + queue[1..] == CallsOf(wire) + queue
            && AllButLastWritten(wire')
  {
    var wire' := wire + [Prompt(id, queue[0], false)];
    assert wire'[..|wire|] == wire;
    assert CallsOf(wire') == CallsOf(wire) + [queue[0]];
  }

  lemma WrittenWire(wire: seq<Prompt>, index: nat)
    requires index < |wire| && !wire[index].written && AllButLastWritten(wire)
    ensures var wire' := wire[index := wire[index].(written := true)];
            && index == |wire| - 1 && Unwritten(wire) == [wire[index].call] && Unwritten(wire') == []
            && CallsOf(wire') == CallsOf(wire) && AllButLastWritten(wire')
  {
    var wire' := wire[index := wire[index].(written := true)];
    CallsOfAt(wire);
    CallsOfAt(wire');
    assert CallsOf(wire') == CallsOf(wire);
  }

  lemma AnsweredWire(wire: seq<Prompt>)
    requires wire != [] && wire[0].written && AllButLastWritten(wire)
    ensures Unwritten(wire[1..]) == Unwritten(wire) && AllButLastWritten(wire[1..])
  {
  }

  lemma {:induction false} CallsOfRest(wire: seq<Prompt>)
    requires wire != []
    ensures CallsOf(wire) == [wire[0].call] + CallsOf(wire[1..])
    decreases |wire|
  {
    if |wire| > 1 {
      CallsOfRest(wire[..|wire| - 1]);
      assert wire[..|wire| - 1][1..] == wire[1..][..|wire| - 2];
    }
  }

  lemma WrittenChain(chain: seq<Call>, closedSlots: set<Slot>, nextSlot: Slot)
    requires chain != [] && Linked(chain, closedSlots, nextSlot)
    ensures Linked(chain[1..], closedSlots + {chain[0].sent}, nextSlot)
  {
    assert forall j :: 0 <= j < |chain[1..]| ==> chain[1..][j] == chain[j + 1];
  }

  lemma ExtendedChain(chain: seq<Call>, closedSlots: set<Slot>, nextSlot: Slot, call: Call)
    requires Linked(chain, closedSlots, nextSlot) && SlotsIssued(closedSlots, nextSlot) && call.sent == nextSlot
    requires chain != [] ==> call.kind.Steered? && call.after == Some(chain[|chain| - 1].sent)
    ensures Linked(chain + [call], closedSlots, nextSlot + 1)
  {
  }

  lemma WrittenGate(chain: seq<Call>, closedSlots: set<Slot>, nextSlot: Slot, turn: Turn, turn': Turn)
    requires chain != [] && Linked(chain, closedSlots, nextSlot) && Gated(chain, turn) && turn'.steerSent == turn.steerSent
    ensures Gated(chain[1..], turn')
  {
    var rest := chain[1..];
    if rest != [] {
      assert rest[0] == chain[1] && rest[|rest| - 1] == chain[|chain| - 1];
    }
  }

  lemma SuffixWithout<T>(part: seq<T>, whole: seq<T>)
    requires part != [] && IsSuffix(part, whole)
    ensures IsSuffix(part[1..], whole)
  {
    assert whole[|whole| - |part|..][1..] == whole[|whole| - |part| + 1..];
  }

  lemma SuffixWith<T>(part: seq<T>, whole: seq<T>, x: T)
    requires IsSuffix(part, whole)
    ensures IsSuffix(part + [x], whole + [x])
  {
    assert (whole + [x])[|whole| - |part|..] == whole[|whole| - |part|..] + [x];
  }

  lemma Blocked(chain: seq<Call>, closedSlots: set<Slot>, nextSlot: Slot)
    requires Linked(chain, closedSlots, nextSlot)
    ensures forall at :: 0 < at < |chain| ==> chain[at].after.Some? && chain[at].after.value !in closedSlots
  {
    forall at | 0 < at < |chain|
      ensures chain[at].after.Some? && chain[at].after.value !in closedSlots
    {
      assert chain[at - 1].sent !in closedSlots;
    }
  }

  /** Only the oldest waiting call can be sent, and only while none is being written. */
  lemma OnlyOldestSends(w: World, index: nat)
    requires InOrder(w) && MayRegister(w, index)
    ensures index == 0 && Unwritten(w.wire) == []
  {
    Blocked(Chain(w), w.closedSlots, w.nextSlot);
    assert Chain(w)[|Unwritten(w.wire)| + index] == w.queue[index];
  }

  // ---- Every event keeps the order ----

  lemma RegisterKeepsOrder(w: World, index: nat, ok: bool)
    requires InOrder(w) && MayRegister(w, index)
    ensures InOrder(RegisterNext(w, index, ok))
  {
    OnlyOldestSends(w, index);
    SendingCounts(w.thread, w.nextPrompt, ok);
    RegisteredWire(w.wire, w.queue, w.nextPrompt);
    assert w.queue[..0] + w.queue[0 + 1..] == w.queue[1..];
  }

  lemma WriteKeepsOrder(w: World, index: nat, dropOk: bool)
    requires w.thread.job.turn.Some? && InOrder(w) && index < |w.wire| && !w.wire[index].written
    ensures InOrder(WriteNext(w, index, dropOk))
  {
    var turn := w.thread.job.turn.value;
    var w' := WriteNext(w, index, dropOk);
    DroppingLeavesCounters(w.thread.(job := w.thread.job.(turn := Some(turn.(firstPromptSent := true)))), dropOk);
    WrittenWire(w.wire, index);
    assert Chain(w') == w.queue == Chain(w)[1..] && Outstanding(w') == Outstanding(w);
    WrittenOrders(turn, w'.thread.job.turn.value, w.wire, w'.wire, Chain(w), Outstanding(w), w.closedSlots, w.nextSlot, w.reserved);
  }

  /** Once the oldest call is written the next one's wait is over. */
  lemma WrittenOrders(turn: Turn, turn': Turn, wire: seq<Prompt>, wire': seq<Prompt>, chain: seq<Call>, calls: seq<Call>,
                      closedSlots: set<Slot>, nextSlot: Slot, reserved: seq<Call>)
    requires Ordered(turn, wire, chain, calls, closedSlots, nextSlot, reserved)
    requires chain != [] && AllButLastWritten(wire') && turn'.steerSent == turn.steerSent
    ensures Ordered(turn', wire', chain[1..], calls, closedSlots + {chain[0].sent}, nextSlot, reserved)
    ensures chain[0].sent < nextSlot
  {
    WrittenChain(chain, closedSlots, nextSlot);
    WrittenGate(chain, closedSlots, nextSlot, turn, turn');
  }

  lemma ResponseKeepsOrder(w: World, id: PromptId, failed: bool, stateOk: bool, dropOk: bool)
    requires w.thread.job.turn.Some? && InOrder(w) && (id in Ids(w.wire) ==> w.wire[0].written)
    ensures InOrder(ResponseNext(w, id, failed, stateOk, dropOk))
  {
    AnsweringCounts(w.thread, id, stateOk, dropOk);
    if id in Ids(w.wire) {
      AnsweredWire(w.wire);
      CallsOfRest(w.wire);
      SuffixWithout(Outstanding(w), w.reserved);
      assert CallsOf(w.wire[1..]) + w.queue == Outstanding(w)[1..];
    }
  }

  lemma SteerKeepsOrder(w: World, message: string, ok: bool)
    requires InOrder(w)
    ensures InOrder(SteerNext(w, message, ok))
  {
    var (thread, result) := ReserveSteer(w.thread, message, w.nextSlot, ok);
    if result.Reserved? {
      var w' := SteerNext(w, message, ok);
      var call := w'.queue[|w.queue|];
      assert Chain(w') == Chain(w) + [call] && Outstanding(w') == Outstanding(w) + [call];
      SteeredOrders(w.thread.job.turn.value, w'.thread.job.turn.value, w.wire, Chain(w), Outstanding(w), w.closedSlots, w.nextSlot,
                    w.reserved, call);
    }
  }

  /** A steer waits for the one before it. */
  lemma SteeredOrders(turn: Turn, turn': Turn, wire: seq<Prompt>, chain: seq<Call>, calls: seq<Call>, closedSlots: set<Slot>, nextSlot: Slot,
                      reserved: seq<Call>, call: Call)
    requires Ordered(turn, wire, chain, calls, closedSlots, nextSlot, reserved) && SlotsIssued(closedSlots, nextSlot)
    requires call.kind.Steered? && call.after == turn.steerSent && call.sent == nextSlot
    requires turn.firstPromptSent && turn'.firstPromptSent && turn'.steerSent == Some(nextSlot)
    ensures Ordered(turn', wire, chain + [call], calls + [call], closedSlots, nextSlot + 1, reserved + [call])
  {
    ExtendedChain(chain, closedSlots, nextSlot, call);
    SuffixWith(calls, reserved, call);
    assert chain != [] ==> (chain + [call])[0] == chain[0];
  }

  /** What the order reads of a turn. */
  predicate SameGate(a: Turn, b: Turn) {
    a.steerSent == b.steerSent && a.firstPromptSent == b.firstPromptSent
  }

  /** A step that leaves the calls and the turn's gate leaves their order. */
  lemma SameCallsKeepOrder(w: World, w': World)
    requires InOrder(w) && w.thread.job.turn.Some? && w'.thread.job.turn.Some?
    requires SameGate(w.thread.job.turn.value, w'.thread.job.turn.value)
    requires w'.queue == w.queue && w'.wire == w.wire && w'.reserved == w.reserved
    requires w'.closedSlots == w.closedSlots && w'.nextSlot == w.nextSlot
    ensures InOrder(w')
  {
  }

  lemma CompletedGate(t: Thread, outcome: Completion)
    requires t.job.turn.Some? && outcome != Waits
    ensures var t' := Completed(t, t.job.turn.value, outcome);
            t'.job.turn.Some? && SameGate(t.job.turn.value, t'.job.turn.value)
  {
  }

  lemma WaitingKeepsOrder(w: World, w': World, call: Call)
    requires InOrder(w) && w.thread.job.turn.Some? && w.queue == [] && w.wire == [] && call == Call(Continuation, None, w.nextSlot)
    requires w'.thread.job.turn.Some? && !w'.thread.job.turn.value.firstPromptSent
    requires w'.queue == [call] && w'.wire == [] && w'.reserved == w.reserved + [call]
    requires w'.closedSlots == w.closedSlots && w'.nextSlot == w.nextSlot + 1
    ensures InOrder(w')
  {
    ExtendedChain([], w.closedSlots, w.nextSlot, call);
    SuffixWith([], w.reserved, call);
    assert [] + [call] == [call] && Chain(w') == [call] && Outstanding(w') == [call];
  }

  lemma CompleteKeepsOrder(w: World, done: TurnId, reason: StopReason, failure: Option<Failure>, visible: bool, recorded: bool)
    requires InOrder(w) && (w.thread.job.turn.Some? ==> w.thread.job.turn.value.promptCalls >= 0)
    requires Completes(w.thread, done) && w.thread.job.turn.value.promptCalls == 1 && !w.thread.job.turn.value.cancelRequested ==>
               w.queue == [] && w.wire == []
    ensures InOrder(CompleteNext(w, done, reason, failure, visible, recorded))
  {
    var w' := CompleteNext(w, done, reason, failure, visible, recorded);
    if Completes(w.thread, done) {
      var outcome := OutcomeOf(w.thread, w.thread.job.turn.value, reason, failure, visible, recorded);
      OutcomeCounts(w.thread, w.thread.job.turn.value, reason, failure, visible, recorded);
      if outcome == Waits {
        WaitingKeepsOrder(w, w', Call(Continuation, None, w.nextSlot));
      } else {
        CompletedGate(w.thread, outcome);
        SameCallsKeepOrder(w, w');
      }
    } else {
      assert w' == w;
    }
  }

  lemma CallsKeepOrder(w: World, e: CallEvent)
    requires InOrder(w) && CallsAccounted(w) && CallEnabled(w, e)
    ensures InOrder(CallNext(w, e))
  {
    match e {
      case Steer(message, ok) => SteerKeepsOrder(w, message, ok);
      case Register(index, ok) => RegisterKeepsOrder(w, index, ok);
      case Write(index, dropOk) => WriteKeepsOrder(w, index, dropOk);
      case ReadResponse(id, failed, stateOk, dropOk) => if w.thread.job.turn.Some? { ResponseKeepsOrder(w, id, failed, stateOk, dropOk); }
      case Complete(done, reason, failure, visible, recorded) =>
        var current := w.thread.job.turn.Some? && w.thread.job.turn.value.id == done;
        CompleteKeepsOrder(w.(replies := w.replies - if current then 1 else 0), done, reason, failure, visible, recorded);
      case CompleteStopped => CompleteKeepsOrder(w, w.thread.job.turn.value.id, StopCancelled, None, false, false);
      case _ =>
    }
  }

  /** A turn begins with at most its opening prompt waiting. */
  lemma BegunInOrder(w: World, thread: Thread, queue: seq<Call>, continuations: nat)
    requires SlotsIssued(w.closedSlots, w.nextSlot) && thread.job.turn.Some?
    requires queue == [] || (|queue| == 1 && !queue[0].kind.Steered? && queue[0].sent == w.nextSlot && !thread.job.turn.value.firstPromptSent)
    ensures InOrder(Begun(w, thread, queue, continuations))
  {
    var w' := Begun(w, thread, queue, continuations);
    assert Chain(w') == queue && Outstanding(w') == queue;
    assert w'.nextSlot !in w.closedSlots;
  }

  lemma ApplyKeepsOrder(w: World, update: Update, choices: ApplyChoices)
    requires InOrder(w)
    ensures InOrder(Apply(w, update, choices).0)
  {
    var w' := Apply(w, update, choices).0;
    if update.Working? && StartAgentRun(w.thread, update, w.nextTurn, choices.admitted, choices.open, choices.claimed).1 == Started {
      BegunInOrder(w, w'.thread, [], 0);
    } else if w.thread.job.turn.Some? {
      if update.Output? {
        PromptStateLeavesCounters(w.thread, Confirmed, choices.ok);
      }
      SameCallsKeepOrder(w, w');
    }
  }

  lemma UpdatesKeepOrder(w: World, e: UpdateEvent)
    requires InOrder(w) && UpdateEnabled(w, e)
    ensures InOrder(UpdateNext(w, e))
  {
    match e {
      case ApplyReceived(choices) => ApplyKeepsOrder(w, w.reader.value, choices);
      case ApplyHeld(choices) => ApplyKeepsOrder(w, w.replay.update, choices);
      case _ => if w.thread.job.turn.Some? { SameCallsKeepOrder(w, UpdateNext(w, e)); }
    }
  }

  lemma BeginKeepsOrder(w: World, request: TurnRequest, ok: bool, continuations: nat)
    requires InOrder(w)
    ensures InOrder(BeginTurnOf(w, request, ok, continuations))
  {
    var (thread, claimed) := ClaimTurn(w.thread, w.nextTurn, request, ok);
    if claimed {
      BegunInOrder(w, thread, [Call(Opening(request.message), None, w.nextSlot)], continuations);
    }
  }

  lemma TurnsKeepOrder(w: World, e: TurnEvent)
    requires InOrder(w) && TurnEnabled(w, e)
    ensures InOrder(TurnNext(w, e))
  {
    match e {
      case Send(request, ok) => BeginKeepsOrder(w, request.(retries := 0), ok, 0);
      case ResumeTurn(ok) =>
        BeginKeepsOrder(w, Resume(w.thread.stored).request, ok, if w.thread.stored.None? then 0 else w.continuations);
      case BeginFinishing =>
      case Restart =>
      case _ => OtherTurnsKeepOrder(w, e);
    }
  }

  lemma OtherTurnsKeepOrder(w: World, e: TurnEvent)
    requires InOrder(w) && TurnEnabled(w, e) && !(e.Send? || e.ResumeTurn? || e.BeginFinishing? || e.Restart?)
    ensures InOrder(TurnNext(w, e))
  {
    var w' := TurnNext(w, e);
    if w'.thread.job.turn.Some? {
      SameCallsKeepOrder(w, w');
    }
  }
}
