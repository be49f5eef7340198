/**
An agent's tool calls, built from sparse updates: later ones overlay what earlier
ones said, streamed terminal output is kept as its tail, and updates of a call
that cannot be shown yet wait for the one that creates it. Redaction and derived
names are the identity here, and text is a sequence of Unicode characters.
*/
module ToolCalls {
  import opened Wrappers

  const MAX_TEXT: nat := 8000
  const ELLIPSIS := "\U{2026}"

  /** tailToolText. */
  function Tail(s: string): string {
    if |s| <= MAX_TEXT then s else ELLIPSIS + s[|s| - MAX_TEXT..]
  }

  /** Empty fields are what an update leaves out; a time of zero is none. */
  datatype Runtime = Runtime(
    terminalId: string,
    cwd: string,
    elapsed: int,
    output: string,
    exitCode: Option<int>,
    exitSignal: Option<string>)

  datatype Call = Call(
    id: string,
    title: string,
    status: string,
    kind: string,
    name: string,
    content: seq<string>,
    locations: seq<string>,
    rawInput: seq<string>,
    rawOutput: string,
    runtime: Runtime,
    started: int,
    updated: int)

  const NO_RUNTIME := Runtime("", "", 0, "", None, None)
  const NO_CALL := Call("", "", "", "", "", [], [], [], "", NO_RUNTIME, 0, 0)

  function Over<T(==)>(before: seq<T>, after: seq<T>): seq<T> {
    if after != [] then after else before
  }

  function MergeRuntime(dst: Runtime, src: Runtime): Runtime {
    Runtime(Over(dst.terminalId, src.terminalId), Over(dst.cwd, src.cwd), if src.elapsed != 0 then src.elapsed else dst.elapsed,
            if src.output != "" then Tail(dst.output + src.output) else dst.output,
            if src.exitCode.Some? then src.exitCode else dst.exitCode, if src.exitSignal.Some? then src.exitSignal else dst.exitSignal)
  }

  /** mergeToolCall, as a value. */
  function Merge(dst: Call, src: Call): Call {
    Call(Over(dst.id, src.id), Over(dst.title, src.title), Over(dst.status, src.status), Over(dst.kind, src.kind), Over(dst.name, src.name),
         Over(dst.content, src.content), Over(dst.locations, src.locations), Over(dst.rawInput, src.rawInput), Over(dst.rawOutput, src.rawOutput),
         MergeRuntime(dst.runtime, src.runtime), if src.started != 0 && dst.started == 0 then src.started else dst.started,
         if src.updated != 0 then src.updated else dst.updated)
  }

  /** Whether an update says enough for its call to be shown without the one that creates it. */
  predicate CanMaterialize(src: Call) {
    src.content != [] || src.rawInput != [] || src.rawOutput != "" || src.locations != []
  }

  predicate EqualTranscript(a: Call, b: Call) {
    a == b.(updated := a.updated)
  }

  datatype Board = Board(calls: map<string, Call>, pending: map<string, Call>)

  function Pending(b: Board, id: string): Call {
    if id in b.pending then b.pending[id] else NO_CALL
  }

  /** The call after an update that shows it. */
  function Shown(b: Board, src: Call, now: int): Call {
    var call := if src.id in b.calls then b.calls[src.id] else NO_CALL;
    var joined := if src.id in b.pending then Merge(call, b.pending[src.id]) else call;
    Merge(if joined.started == 0 then joined.(started := now) else joined, src)
  }

  /** recordTool. */
  function Recorded(b: Board, update: Call, now: int, create: bool): Board {
    var src := update.(updated := now);
    if src.id !in b.calls && !create && !CanMaterialize(src) then
      b.(pending := b.pending[src.id := Merge(Pending(b, src.id), src)])
    else
      var call := Shown(b, src, now);
      Board(if src.id in b.calls && EqualTranscript(b.calls[src.id], call) then b.calls else b.calls[src.id := call], b.pending - {src.id})
  }

  class ToolBoard {
    var calls: map<string, Call>
    var pending: map<string, Call>

    function View(): Board
      reads this
    {
      Board(calls, pending)
    }

    constructor ()
      ensures View() == Board(map[], map[])
    {
      calls, pending := map[], map[];
    }

    method RecordTool(update: Call, now: int, create: bool) returns (changed: bool)
      modifies this
      ensures View() == Recorded(old(View()), update, now, create)
      ensures changed <==> calls != old(calls)
    {
      var src := update.(updated := now);
      var known := src.id in calls;
      if !known && !create && !CanMaterialize(src) {
        var waiting := if src.id in pending then pending[src.id] else NO_CALL;
        waiting := MergeToolCall(waiting, src);
        pending := pending[src.id := waiting];
        return false;
      }
      var call := if known then calls[src.id] else NO_CALL;
      if src.id in pending {
        call := MergeToolCall(call, pending[src.id]);
      }
      pending := pending - {src.id};
      if call.started == 0 {
        call := call.(started := now);
      }
      call := MergeToolCall(call, src);
      if known && EqualTranscript(calls[src.id], call) {
        return false;
      }
      calls := calls[src.id := call];
      return true;
    }
  }

  method MergeToolCall(dst: Call, src: Call) returns (call: Call)
    ensures call == Merge(dst, src)
  {
    call := OverlayTexts(dst, src);
    if |src.content| > 0 { call := call.(content := src.content); }
    if |src.locations| > 0 { call := call.(locations := src.locations); }
    if |src.rawInput| > 0 { call := call.(rawInput := src.rawInput); }
    var runtime := MergeToolRuntime(call.runtime, src.runtime);
    call := call.(runtime := runtime);
    if src.started != 0 && call.started == 0 { call := call.(started := src.started); }
    if src.updated != 0 { call := call.(updated := src.updated); }
  }

  method OverlayTexts(dst: Call, src: Call) returns (call: Call)
    ensures call == dst.(id := Over(dst.id, src.id), title := Over(dst.title, src.title), status := Over(dst.status, src.status),
                         kind := Over(dst.kind, src.kind), name := Over(dst.name, src.name), rawOutput := Over(dst.rawOutput, src.rawOutput))
  {
    call := dst;
    if src.id != "" { call := call.(id := src.id); }
    if src.title != "" { call := call.(title := src.title); }
    if src.status != "" { call := call.(status := src.status); }
    if src.kind != "" { call := call.(kind := src.kind); }
    if src.name != "" { call := call.(name := src.name); }
    if |src.rawOutput| > 0 { call := call.(rawOutput := src.rawOutput); }
  }

  method MergeToolRuntime(dst: Runtime, src: Runtime) returns (runtime: Runtime)
    ensures runtime == MergeRuntime(dst, src)
  {
    runtime := dst;
    if src.terminalId != "" { runtime := runtime.(terminalId := src.terminalId); }
    if src.cwd != "" { runtime := runtime.(cwd := src.cwd); }
    if src.elapsed != 0 { runtime := runtime.(elapsed := src.elapsed); }
    if src.output != "" { runtime := runtime.(output := Tail(runtime.output + src.output)); }
    if src.exitCode.Some? { runtime := runtime.(exitCode := src.exitCode); }
    if src.exitSignal.Some? { runtime := runtime.(exitSignal := src.exitSignal); }
  }

  // ---- The tail of what was streamed ----

  function Join(chunks: seq<string>): string {
    if chunks == [] then "" else Join(chunks[..|chunks| - 1]) + chunks[|chunks| - 1]
  }

  /** The output as it is kept: trimmed each time a chunk arrives. */
  function Streamed(chunks: seq<string>): string {
    if chunks == [] then ""
    else
      var last := chunks[|chunks| - 1];
      if last != "" then Tail(Streamed(chunks[..|chunks| - 1]) + last) else Streamed(chunks[..|chunks| - 1])
  }

  lemma TailOfSum(a: string, b: string)
    ensures Tail(Tail(a) + b) == Tail(a + b)
  {
    if |a| > MAX_TEXT {
      var kept := ELLIPSIS + a[|a| - MAX_TEXT..];
      assert (kept + b)[|kept + b| - MAX_TEXT..] == (a + b)[|a + b| - MAX_TEXT..];
    }
  }

  /** Trimming chunk by chunk keeps exactly the tail of the whole. */
  lemma {:induction false} StreamedIsTail(chunks: seq<string>)
    ensures Streamed(chunks) == Tail(Join(chunks))
    decreases |chunks|
  {
    if chunks != [] {
      var before, last := chunks[..|chunks| - 1], chunks[|chunks| - 1];
      StreamedIsTail(before);
      TailOfSum(Join(before), last);
      assert last == "" ==> Join(before) + last == Join(before);
    }
  }

  // ---- A call is what its updates say, in order ----

  datatype Update = Update(src: Call, now: int, create: bool)

  function Received(updates: seq<Update>): Board {
    if updates == [] then Board(map[], map[])
    else
      var last := updates[|updates| - 1];
      Recorded(Received(updates[..|updates| - 1]), last.src, last.now, last.create)
  }

  /** All updates of one call overlaid in order. */
  function Overlaid(updates: seq<Update>, id: string): Call {
    if updates == [] then NO_CALL
    else
      var (before, last) := (Overlaid(updates[..|updates| - 1], id), updates[|updates| - 1]);
      if last.src.id == id then Merge(before, last.src.(updated := last.now)) else before
  }

  /** The last of a call's updates that says anything in a field. */
  function LastSaid<T(==)>(updates: seq<Update>, id: string, field: Call -> seq<T>): seq<T> {
    if updates == [] then []
    else
      var last := updates[|updates| - 1].src;
      if last.id == id && field(last) != [] then field(last) else LastSaid(updates[..|updates| - 1], id, field)
  }

  /** The output that a call's updates bring, chunk by chunk. */
  function Outputs(updates: seq<Update>, id: string): seq<string> {
    if updates == [] then []
    else
      var last := updates[|updates| - 1].src;
      Outputs(updates[..|updates| - 1], id) + if last.id == id then [last.runtime.output] else []
  }

  lemma {:induction false} OutputIsStreamed(updates: seq<Update>, id: string)
    ensures Overlaid(updates, id).runtime.output == Streamed(Outputs(updates, id))
    decreases |updates|
  {
    if updates != [] {
      var before, last := updates[..|updates| - 1], updates[|updates| - 1].src;
      OutputIsStreamed(before, id);
      if last.id == id {
        assert (Outputs(before, id) + [last.runtime.output])[..|Outputs(before, id)|] == Outputs(before, id);
      } else {
        assert Outputs(updates, id) == Outputs(before, id);
      }
    }
  }

  /** Each field of the overlaid call is what its updates said of it last, and its output the tail of all they brought. */
  lemma {:induction false} OverlaidSaysLast(updates: seq<Update>, id: string)
    ensures var call := Overlaid(updates, id);
            && call.title == LastSaid(updates, id, (c: Call) => c.title) && call.status == LastSaid(updates, id, (c: Call) => c.status)
            && call.kind == LastSaid(updates, id, (c: Call) => c.kind) && call.name == LastSaid(updates, id, (c: Call) => c.name)
            && call.content == LastSaid(updates, id, (c: Call) => c.content) && call.locations == LastSaid(updates, id, (c: Call) => c.locations)
            && call.rawInput == LastSaid(updates, id, (c: Call) => c.rawInput) && call.rawOutput == LastSaid(updates, id, (c: Call) => c.rawOutput)
            && call.runtime.output == Tail(Join(Outputs(updates, id)))
    decreases |updates|
  {
    OutputIsStreamed(updates, id);
    StreamedIsTail(Outputs(updates, id));
    if updates != [] {
      OverlaidSaysLast(updates[..|updates| - 1], id);
    }
  }

  /** Alike but for when the call was first and last shown. */
  predicate SaysSame(a: Call, b: Call) {
    a == b.(started := a.started, updated := a.updated)
  }

  lemma TailOfTail(s: string)
    ensures Tail(Tail(s)) == Tail(s)
  {
    TailOfSum(s, "");
    assert Tail(s) + "" == Tail(s) && s + "" == s;
  }

  predicate Trimmed(call: Call) {
    call.runtime.output == Tail(call.runtime.output)
  }

  lemma MergeFromNothing(call: Call)
    requires Trimmed(call)
    ensures Merge(NO_CALL, call) == call
  {
    assert "" + call.runtime.output == call.runtime.output;
  }

  lemma MergeTrims(dst: Call, src: Call)
    requires Trimmed(dst)
    ensures Trimmed(Merge(dst, src))
  {
    TailOfTail(dst.runtime.output + src.runtime.output);
  }

  lemma MergeSaysSame(a: Call, b: Call, src: Call)
    requires SaysSame(a, b)
    ensures SaysSame(Merge(a, src), Merge(b, src))
  {
  }

  lemma {:induction false} OverlaidIsTrimmed(updates: seq<Update>, id: string)
    ensures Trimmed(Overlaid(updates, id))
    decreases |updates|
  {
    if updates != [] {
      var last := updates[|updates| - 1];
      OverlaidIsTrimmed(updates[..|updates| - 1], id);
      MergeTrims(Overlaid(updates[..|updates| - 1], id), last.src.(updated := last.now));
    }
  }

  /** Updates as the program decodes them: they say no start. */
  predicate Decoded(updates: seq<Update>) {
    forall u :: u in updates ==> u.src.started == 0
  }

  predicate Names(updates: seq<Update>, id: string) {
    exists u :: u in updates && u.src.id == id
  }

  /**
  However its updates came, early or late, a call that is shown says what all of
  them in order say, and one that is not yet shown has them all waiting.
  */
  lemma {:induction false} CallsSayTheirUpdates(updates: seq<Update>, id: string)
    requires Decoded(updates)
    ensures var b := Received(updates);
            && (id in b.calls ==> id !in b.pending && SaysSame(b.calls[id], Overlaid(updates, id)))
            && (id !in b.calls ==> Pending(b, id) == Overlaid(updates, id) && Overlaid(updates, id).started == 0)
    decreases |updates|
  {
    if updates != [] {
      var before, last := updates[..|updates| - 1], updates[|updates| - 1];
      CallsSayTheirUpdates(before, id);
      assert last in updates;
      var (b, src) := (Received(before), last.src.(updated := last.now));
      if src.id == id && (id in b.calls || last.create || CanMaterialize(src)) {
        OverlaidIsTrimmed(before, id);
        ShownSaysAll(b, src, last.now, Overlaid(before, id));
      }
    }
  }

  lemma ShownSaysAll(b: Board, src: Call, now: int, all: Call)
    requires src.id in b.calls ==> src.id !in b.pending && SaysSame(b.calls[src.id], all)
    requires src.id !in b.calls ==> Pending(b, src.id) == all && Trimmed(all)
    ensures SaysSame(Shown(b, src, now), Merge(all, src))
  {
    if src.id !in b.calls && src.id in b.pending {
      MergeFromNothing(all);
    }
    var call := if src.id in b.calls then b.calls[src.id] else NO_CALL;
    var joined := if src.id in b.pending then Merge(call, b.pending[src.id]) else call;
    MergeSaysSame(if joined.started == 0 then joined.(started := now) else joined, all, src);
  }

  // ---- Calls left open by a turn that stopped or failed ----

  function Lower(s: string): string {
    seq(|s|, i requires 0 <= i < |s| => if 'A' <= s[i] <= 'Z' then s[i] - 'A' + 'a' else s[i])
  }

  predicate Space(c: char) {
    c == ' ' || c == '\t' || c == '\n' || c == '\r'
  }

  function Trim(s: string): string {
    if s == "" then s else if Space(s[0]) then Trim(s[1..]) else if Space(s[|s| - 1]) then Trim(s[..|s| - 1]) else s
  }

  predicate Terminal(status: string) {
    Lower(Trim(status)) in {"completed", "complete", "failed", "cancelled", "canceled"}
  }

  lemma PlainStatus(status: string)
    requires status != "" && forall c :: c in status ==> 'a' <= c <= 'z'
    ensures Lower(Trim(status)) == status
  {
    assert status[0] in status && status[|status| - 1] in status;
    assert Trim(status) == status;
    assert forall i :: 0 <= i < |status| ==> status[i] in status;
  }

  lemma ClosingIsTerminal()
    ensures Terminal("failed") && Terminal("cancelled")
  {
    PlainStatus("failed");
    PlainStatus("cancelled");
  }

  function Closed(call: Call, status: string, now: int): Call {
    if Terminal(call.status) then call else call.(status := status, updated := now)
  }

  /** resolveDanglingToolCalls, for a turn that was stopped or failed: `updated` are the ids of the calls it closes. */
  method ResolveDanglingToolCalls(calls: map<string, Call>, failed: bool, now: int) returns (resolved: map<string, Call>, updated: set<string>)
    ensures resolved.Keys == calls.Keys && updated == (set id | id in calls && !Terminal(calls[id].status))
    ensures forall id :: id in calls ==> resolved[id] == Closed(calls[id], if failed then "failed" else "cancelled", now)
    ensures forall id :: id in resolved ==> Terminal(resolved[id].status)
  {
    var status := "cancelled";
    if failed {
      status := "failed";
    }
    ClosingIsTerminal();
    resolved, updated := calls, {};
    var left := calls.Keys;
    while left != {}
      invariant left <= calls.Keys && resolved.Keys == calls.Keys
      invariant forall id :: id in calls ==> resolved[id] == if id in left then calls[id] else Closed(calls[id], status, now)
      invariant updated == (set id | id in calls && id !in left && !Terminal(calls[id].status))
      decreases left
    {
      var id :| id in left;
      left := left - {id};
      if !Terminal(resolved[id].status) {
        resolved := resolved[id := resolved[id].(status := status, updated := now)];
        updated := updated + {id};
      }
    }
  }
}
