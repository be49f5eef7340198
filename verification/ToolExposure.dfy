/**
The local agent's tool loop: deferred tools may be called once a search in an
earlier round listed them, and a new run finds the same tools open by reading
the recorded messages. What a search finds and what tools return are choices.
*/
module ToolExposure {
  import opened Wrappers

  const SEARCH := "tool_search"

  datatype Call = Call(id: string, name: string)

  /** A tool result's content: one that reads as a completed search's listing, or any other text. */
  datatype Content = Listing(names: seq<string>) | Text(text: string)

  datatype Message = Assistant(calls: seq<Call>) | ToolResult(id: string, content: Content) | Other(text: string)

  /** What a search finds, and whether its listing can be written out; what another tool returns. */
  datatype Outcome = Refused(error: string) | Finds(names: seq<string>, written: bool) | Returns(content: Content)

  datatype Step = Step(call: Call, outcome: Outcome)

  datatype State = State(exposed: set<string>, pending: set<string>, messages: seq<Message>)

  function Names(names: seq<string>): set<string> {
    set name | name in names
  }

  /** executeTool: the search itself, the refusal of a deferred tool not yet exposed, or the tool. */
  function Answer(deferred: set<string>, exposed: set<string>, step: Step): Content {
    if step.call.name == SEARCH then
      match step.outcome
      case Finds(names, written) => if written then Listing(names) else Text("error")
      case _ => Text("error")
    else if step.call.name in deferred && step.call.name !in exposed then Text("deferred")
    else if step.outcome.Returns? then step.outcome.content
    else Text("error")
  }

  /** Whether the tool itself is run. */
  predicate Runs(deferred: set<string>, exposed: set<string>, step: Step) {
    step.call.name != SEARCH && (step.call.name in deferred ==> step.call.name in exposed)
  }

  function Found(step: Step): set<string> {
    if step.call.name == SEARCH && step.outcome.Finds? then Names(step.outcome.names) else {}
  }

  function Execute(deferred: set<string>, s: State, step: Step): State {
    s.(pending := s.pending + Found(step), messages := s.messages + [ToolResult(step.call.id, Answer(deferred, s.exposed, step))])
  }

  function ExecuteAll(deferred: set<string>, s: State, steps: seq<Step>): State {
    if steps == [] then s else Execute(deferred, ExecuteAll(deferred, s, steps[..|steps| - 1]), steps[|steps| - 1])
  }

  function CallsOf(steps: seq<Step>): seq<Call> {
    seq(|steps|, i requires 0 <= i < |steps| => steps[i].call)
  }

  function Commit(s: State): State {
    s.(exposed := s.exposed + s.pending, pending := {})
  }

  /** A round: the model's calls, their results, and then what they found. */
  function Round(deferred: set<string>, s: State, steps: seq<Step>): State {
    Commit(ExecuteAll(deferred, s.(messages := s.messages + [Assistant(CallsOf(steps))]), steps))
  }

  // ---- Reading the log ----

  /** The names of the calls read so far, by id, and what the searches among them listed. */
  datatype Reading = Reading(calls: map<string, string>, exposed: set<string>)

  function NameCalls(names: map<string, string>, calls: seq<Call>): map<string, string> {
    if calls == [] then names else NameCalls(names, calls[..|calls| - 1])[calls[|calls| - 1].id := calls[|calls| - 1].name]
  }

  function Read(deferred: set<string>, messages: seq<Message>): Reading {
    if messages == [] then Reading(map[], {})
    else
      var before := Read(deferred, messages[..|messages| - 1]);
      match messages[|messages| - 1]
      case Assistant(calls) => before.(calls := NameCalls(before.calls, calls))
      case ToolResult(id, content) =>
        if id in before.calls && before.calls[id] == SEARCH && content.Listing? then
          before.(exposed := before.exposed + (Names(content.names) * deferred))
        else before
      case Other(_) => before
  }

  /** What a new run finds exposed in the recorded messages. */
  function Restored(deferred: set<string>, messages: seq<Message>): set<string> {
    Read(deferred, messages).exposed
  }

  class ToolExposure {
    const deferred: set<string>
    var exposed: set<string>
    var pending: set<string>

    constructor (deferred: set<string>, messages: seq<Message>)
      ensures this.deferred == deferred && exposed == Restored(deferred, messages) && pending == {}
    {
      this.deferred, exposed, pending := deferred, {}, {};
      new;
      RestoreSearchResults(messages);
    }

    method RestoreSearchResults(messages: seq<Message>)
      requires exposed == {}
      modifies this
      ensures exposed == Restored(deferred, messages) && pending == old(pending)
    {
      var toolCalls: map<string, string> := map[];
      for i := 0 to |messages|
        invariant Reading(toolCalls, exposed) == Read(deferred, messages[..i])
        invariant pending == old(pending)
      {
        assert messages[..i + 1][..i] == messages[..i];
        match messages[i] {
          case Assistant(calls) =>
            ghost var before := toolCalls;
            for j := 0 to |calls|
              invariant toolCalls == NameCalls(before, calls[..j])
            {
              assert calls[..j + 1][..j] == calls[..j];
              toolCalls := toolCalls[calls[j].id := calls[j].name];
            }
            assert calls[..|calls|] == calls;
          case ToolResult(id, content) =>
            if id in toolCalls && toolCalls[id] == SEARCH {
              ExposeSearchOutput(content);
            }
          case Other(_) =>
        }
      }
      assert messages[..|messages|] == messages;
    }

    method ExposeSearchOutput(content: Content)
      modifies this
      ensures exposed == old(exposed) + if content.Listing? then Names(content.names) * deferred else {}
      ensures pending == old(pending)
    {
      if !content.Listing? {
        return;
      }
      for i := 0 to |content.names|
        invariant exposed == old(exposed) + (Names(content.names[..i]) * deferred) && pending == old(pending)
      {
        assert content.names[..i + 1] == content.names[..i] + [content.names[i]];
        if content.names[i] in deferred {
          exposed := exposed + {content.names[i]};
        }
      }
      assert content.names[..|content.names|] == content.names;
    }

    method ExecuteTool(step: Step) returns (content: Content)
      modifies this
      ensures content == Answer(deferred, exposed, step)
      ensures pending == old(pending) + Found(step) && exposed == old(exposed)
    {
      if step.call.name == SEARCH {
        if !step.outcome.Finds? {
          return Text("error");
        }
        var names := step.outcome.names;
        for i := 0 to |names|
          invariant pending == old(pending) + Names(names[..i]) && exposed == old(exposed)
        {
          assert names[..i + 1] == names[..i] + [names[i]];
          pending := pending + {names[i]};
        }
        assert names[..|names|] == names;
        return if step.outcome.written then Listing(names) else Text("error");
      }
      if step.call.name in deferred && step.call.name !in exposed {
        return Text("deferred");
      }
      return if step.outcome.Returns? then step.outcome.content else Text("error");
    }

    method CommitSearchResults()
      modifies this
      ensures exposed == old(exposed) + old(pending) && pending == {}
    {
      exposed, pending := exposed + pending, {};
    }
  }

  datatype Ending = Answered | OutOfTurns

  function Rounds(deferred: set<string>, s: State, rounds: seq<seq<Step>>): State {
    if rounds == [] then s else Round(deferred, Rounds(deferred, s, rounds[..|rounds| - 1]), rounds[|rounds| - 1])
  }

  function Begin(deferred: set<string>, messages: seq<Message>): State {
    State(Restored(deferred, messages), {}, messages)
  }

  /**
  The tool loop of Complete, for the responses the model gives: a response
  without calls ends it, and so does running out of turns.
  */
  method Complete(deferred: set<string>, messages: seq<Message>, responses: seq<seq<Step>>, maxTurns: nat)
    returns (ending: Ending, result: seq<Message>, rounds: nat)
    requires maxTurns <= |responses|
    ensures rounds <= maxTurns && (forall i :: 0 <= i < rounds ==> responses[i] != [])
    ensures var done := Rounds(deferred, Begin(deferred, messages), responses[..rounds]).messages;
            if ending == OutOfTurns then rounds == maxTurns && result == done
            else rounds < maxTurns && responses[rounds] == [] && result == done + [Assistant([])]
  {
    var exposure := new ToolExposure(deferred, messages);
    result := messages;
    rounds := 0;
    ghost var start := Begin(deferred, messages);
    for turn := 0 to maxTurns
      invariant rounds == turn && (forall i :: 0 <= i < rounds ==> responses[i] != [])
      invariant exposure.deferred == deferred && fresh(exposure)
      invariant State(exposure.exposed, exposure.pending, result) == Rounds(deferred, start, responses[..turn])
      invariant exposure.pending == {}
    {
      var steps := responses[turn];
      result := result + [Assistant(CallsOf(steps))];
      if |steps| == 0 {
        assert CallsOf(steps) == [];
        return Answered, result, turn;
      }
      ghost var before := State(exposure.exposed, exposure.pending, result);
      for i := 0 to |steps|
        invariant State(exposure.exposed, exposure.pending, result) == ExecuteAll(deferred, before, steps[..i])
      {
        assert steps[..i + 1][..i] == steps[..i];
        var content := exposure.ExecuteTool(steps[i]);
        result := result + [ToolResult(steps[i].call.id, content)];
      }
      assert steps[..|steps|] == steps;
      exposure.CommitSearchResults();
      rounds := turn + 1;
      assert responses[..turn + 1][..turn] == responses[..turn];
    }
    return OutOfTurns, result, maxTurns;
  }

  // ---- The log agrees with the live set ----

  function Listed(step: Step): set<string> {
    if step.call.name == SEARCH && step.outcome.Finds? && step.outcome.written then Names(step.outcome.names) else {}
  }

  function FoundIn(steps: seq<Step>): set<string> {
    if steps == [] then {} else FoundIn(steps[..|steps| - 1]) + Found(steps[|steps| - 1])
  }

  function ListedIn(steps: seq<Step>): set<string> {
    if steps == [] then {} else ListedIn(steps[..|steps| - 1]) + Listed(steps[|steps| - 1])
  }

  function FoundInAll(rounds: seq<seq<Step>>): set<string> {
    if rounds == [] then {} else FoundInAll(rounds[..|rounds| - 1]) + FoundIn(rounds[|rounds| - 1])
  }

  function ListedInAll(rounds: seq<seq<Step>>): set<string> {
    if rounds == [] then {} else ListedInAll(rounds[..|rounds| - 1]) + ListedIn(rounds[|rounds| - 1])
  }

  /** The name of the last call with an id. */
  function LastName(calls: seq<Call>, id: string): Option<string> {
    if calls == [] then None
    else if calls[|calls| - 1].id == id then Some(calls[|calls| - 1].name)
    else LastName(calls[..|calls| - 1], id)
  }

  /** What the log makes of one call's result in a round of calls: a result is a search's if the last call with its id is. */
  function ReadOf(deferred: set<string>, exposed: set<string>, calls: seq<Call>, step: Step): set<string> {
    var content := Answer(deferred, exposed, step);
    if LastName(calls, step.call.id) == Some(SEARCH) && content.Listing? then Names(content.names) * deferred else {}
  }

  function ReadIn(deferred: set<string>, exposed: set<string>, calls: seq<Call>, steps: seq<Step>): set<string> {
    if steps == [] then {}
    else ReadIn(deferred, exposed, calls, steps[..|steps| - 1]) + ReadOf(deferred, exposed, calls, steps[|steps| - 1])
  }

  /** What the log makes of rounds that begin with `start` exposed. */
  function ReadInAll(deferred: set<string>, start: set<string>, rounds: seq<seq<Step>>): set<string> {
    if rounds == [] then {}
    else
      var (before, last) := (rounds[..|rounds| - 1], rounds[|rounds| - 1]);
      ReadInAll(deferred, start, before) + ReadIn(deferred, start + FoundInAll(before), CallsOf(last), last)
  }

  lemma {:induction false} CallsAreNamed(names: map<string, string>, calls: seq<Call>, id: string)
    ensures LastName(calls, id).Some? ==> id in NameCalls(names, calls) && NameCalls(names, calls)[id] == LastName(calls, id).value
    ensures LastName(calls, id).None? ==>
              (id in NameCalls(names, calls) <==> id in names) && (id in names ==> NameCalls(names, calls)[id] == names[id])
    decreases |calls|
  {
    if calls != [] {
      CallsAreNamed(names, calls[..|calls| - 1], id);
    }
  }

  lemma {:induction false} CallHasName(calls: seq<Call>, i: nat)
    requires i < |calls|
    ensures LastName(calls, calls[i].id).Some?
    decreases |calls|
  {
    if i < |calls| - 1 && calls[|calls| - 1].id != calls[i].id {
      CallHasName(calls[..|calls| - 1], i);
    }
  }

  lemma ReadOne(deferred: set<string>, messages: seq<Message>, message: Message)
    ensures var (before, after) := (Read(deferred, messages), Read(deferred, messages + [message]));
            && (message.Assistant? ==> after == before.(calls := NameCalls(before.calls, message.calls)))
            && (message.ToolResult? ==>
                  && after.calls == before.calls
                  && (after.exposed == if message.id in before.calls && before.calls[message.id] == SEARCH && message.content.Listing?
                                       then before.exposed + (Names(message.content.names) * deferred) else before.exposed))
  {
    assert (messages + [message])[..|messages|] == messages;
  }

  /** One call's result adds to the log's reading what the log makes of it. */
  lemma ExecutingOneReads(deferred: set<string>, s: State, step: Step, calls: seq<Call>)
    requires var names := Read(deferred, s.messages).calls;
             step.call.id in names && LastName(calls, step.call.id) == Some(names[step.call.id])
    ensures var s' := Execute(deferred, s, step);
            && Read(deferred, s'.messages).calls == Read(deferred, s.messages).calls
            && Restored(deferred, s'.messages) == Restored(deferred, s.messages) + ReadOf(deferred, s.exposed, calls, step)
  {
    ReadOne(deferred, s.messages, ToolResult(step.call.id, Answer(deferred, s.exposed, step)));
  }

  /** After n of a round's calls. */
  lemma {:induction false} ExecutingReads(deferred: set<string>, s: State, steps: seq<Step>, calls: seq<Call>, n: nat)
    requires n <= |steps|
    requires forall i :: 0 <= i < |steps| ==>
               var names := Read(deferred, s.messages).calls;
               steps[i].call.id in names && LastName(calls, steps[i].call.id) == Some(names[steps[i].call.id])
    ensures var s' := ExecuteAll(deferred, s, steps[..n]);
            && s'.exposed == s.exposed && s'.pending == s.pending + FoundIn(steps[..n])
            && Read(deferred, s'.messages).calls == Read(deferred, s.messages).calls
            && Restored(deferred, s'.messages) == Restored(deferred, s.messages) + ReadIn(deferred, s.exposed, calls, steps[..n])
    decreases n
  {
    if n > 0 {
      ExecutingReads(deferred, s, steps, calls, n - 1);
      assert steps[..n][..n - 1] == steps[..n - 1];
      ExecutingOneReads(deferred, ExecuteAll(deferred, s, steps[..n - 1]), steps[n - 1], calls);
    }
  }

  lemma RoundReads(deferred: set<string>, s: State, steps: seq<Step>)
    ensures var s' := Round(deferred, s, steps);
            && s'.exposed == s.exposed + s.pending + FoundIn(steps) && s'.pending == {}
            && Restored(deferred, s'.messages) == Restored(deferred, s.messages) + ReadIn(deferred, s.exposed, CallsOf(steps), steps)
  {
    var calls := CallsOf(steps);
    var asked := s.(messages := s.messages + [Assistant(calls)]);
    ReadOne(deferred, s.messages, Assistant(calls));
    forall i | 0 <= i < |steps|
      ensures var names := Read(deferred, asked.messages).calls;
              steps[i].call.id in names && LastName(calls, steps[i].call.id) == Some(names[steps[i].call.id])
    {
      assert calls[i] == steps[i].call;
      CallHasName(calls, i);
      CallsAreNamed(Read(deferred, s.messages).calls, calls, steps[i].call.id);
    }
    ExecutingReads(deferred, asked, steps, calls, |steps|);
    assert steps[..|steps|] == steps;
  }

  /** After any rounds whatever the live set holds what was restored and what searches found; the log, what it makes of the rounds. */
  lemma {:induction false} RoundsRead(deferred: set<string>, messages: seq<Message>, rounds: seq<seq<Step>>)
    ensures var (s, start) := (Rounds(deferred, Begin(deferred, messages), rounds), Restored(deferred, messages));
            && s.exposed == start + FoundInAll(rounds) && s.pending == {}
            && Restored(deferred, s.messages) == start + ReadInAll(deferred, start, rounds)
    decreases |rounds|
  {
    if rounds != [] {
      var before := rounds[..|rounds| - 1];
      RoundsRead(deferred, messages, before);
      RoundReads(deferred, Rounds(deferred, Begin(deferred, messages), before), rounds[|rounds| - 1]);
    }
  }

  /**
  After any number of complete rounds the live set is what a new run would
  restore from the log if and only if, beyond what was exposed at first, what
  searches found and what the log makes of the rounds is the same.
  */
  lemma {:induction false} ExposureAgrees(deferred: set<string>, messages: seq<Message>, rounds: seq<seq<Step>>)
    ensures var (s, start) := (Rounds(deferred, Begin(deferred, messages), rounds), Restored(deferred, messages));
            s.exposed == Restored(deferred, s.messages)
            <==> FoundInAll(rounds) - start == ReadInAll(deferred, start, rounds) - start
  {
    RoundsRead(deferred, messages, rounds);
    var start := Restored(deferred, messages);
    var (found, read) := (FoundInAll(rounds), ReadInAll(deferred, start, rounds));
    assert start + found == start + read <==> found - start == read - start by {
      assert (start + found) - start == found - start && (start + read) - start == read - start;
      assert start + (found - start) == start + found && start + (read - start) == start + read;
    }
  }

  // ---- When call ids tell searches ----

  /** The last call with a call's id is a search just when the call is. */
  predicate Told(steps: seq<Step>) {
    forall i :: 0 <= i < |steps| ==> (LastName(CallsOf(steps), steps[i].call.id) == Some(SEARCH) <==> steps[i].call.name == SEARCH)
  }

  predicate DistinctIds(steps: seq<Step>) {
    forall i, j :: 0 <= i < j < |steps| ==> steps[i].call.id != steps[j].call.id
  }

  /** Searches find deferred tools only. */
  predicate Sound(deferred: set<string>, steps: seq<Step>) {
    FoundIn(steps) <= deferred
  }

  predicate AllTold(deferred: set<string>, rounds: seq<seq<Step>>) {
    forall i :: 0 <= i < |rounds| ==> Told(rounds[i]) && Sound(deferred, rounds[i])
  }

  lemma {:induction false} DistinctIdsNamed(calls: seq<Call>, i: nat)
    requires i < |calls| && forall i, j :: 0 <= i < j < |calls| ==> calls[i].id != calls[j].id
    ensures LastName(calls, calls[i].id) == Some(calls[i].name)
    decreases |calls|
  {
    if i < |calls| - 1 {
      DistinctIdsNamed(calls[..|calls| - 1], i);
    }
  }

  /** Distinct call ids are enough for the log to tell searches from other calls. */
  lemma DistinctIdsTell(steps: seq<Step>)
    requires DistinctIds(steps)
    ensures Told(steps)
  {
    forall i | 0 <= i < |steps|
      ensures LastName(CallsOf(steps), steps[i].call.id) == Some(steps[i].call.name)
    {
      assert forall j :: 0 <= j < |steps| ==> CallsOf(steps)[j] == steps[j].call;
      DistinctIdsNamed(CallsOf(steps), i);
    }
  }

  lemma FoundAreIn(steps: seq<Step>, i: nat)
    requires i < |steps|
    ensures Listed(steps[i]) <= Found(steps[i]) <= FoundIn(steps)
    decreases |steps|
  {
    if i < |steps| - 1 {
      FoundAreIn(steps[..|steps| - 1], i);
    }
  }

  lemma {:induction false} ToldReads(deferred: set<string>, exposed: set<string>, steps: seq<Step>, n: nat)
    requires n <= |steps| && Told(steps) && Sound(deferred, steps)
    ensures ReadIn(deferred, exposed, CallsOf(steps), steps[..n]) == ListedIn(steps[..n])
    decreases n
  {
    if n > 0 {
      ToldReads(deferred, exposed, steps, n - 1);
      assert steps[..n][..n - 1] == steps[..n - 1];
      FoundAreIn(steps, n - 1);
      assert Listed(steps[n - 1]) * deferred == Listed(steps[n - 1]);
    }
  }

  /** Then the log makes of the rounds just what their searches wrote out. */
  lemma {:induction false} AllToldReads(deferred: set<string>, start: set<string>, rounds: seq<seq<Step>>)
    requires AllTold(deferred, rounds)
    ensures ReadInAll(deferred, start, rounds) == ListedInAll(rounds)
    decreases |rounds|
  {
    if rounds != [] {
      var (before, last) := (rounds[..|rounds| - 1], rounds[|rounds| - 1]);
      AllToldReads(deferred, start, before);
      ToldReads(deferred, start + FoundInAll(before), last, |last|);
      assert last[..|last|] == last;
    }
  }

  lemma {:induction false} ListedAreFound(rounds: seq<seq<Step>>)
    ensures ListedInAll(rounds) <= FoundInAll(rounds)
    decreases |rounds|
  {
    if rounds != [] {
      ListedAreFound(rounds[..|rounds| - 1]);
      ListedInFound(rounds[|rounds| - 1]);
    }
  }

  lemma {:induction false} ListedInFound(steps: seq<Step>)
    ensures ListedIn(steps) <= FoundIn(steps)
    decreases |steps|
  {
    if steps != [] {
      ListedInFound(steps[..|steps| - 1]);
    }
  }

  /** And log and live set agree exactly when all that searches found was exposed at first or was written out by one of them. */
  lemma {:induction false} ToldExposureAgrees(deferred: set<string>, messages: seq<Message>, rounds: seq<seq<Step>>)
    requires AllTold(deferred, rounds)
    ensures var s := Rounds(deferred, Begin(deferred, messages), rounds);
            s.exposed == Restored(deferred, s.messages) <==> FoundInAll(rounds) <= Restored(deferred, messages) + ListedInAll(rounds)
  {
    RoundsRead(deferred, messages, rounds);
    AllToldReads(deferred, Restored(deferred, messages), rounds);
    ListedAreFound(rounds);
  }

  predicate AllWritten(rounds: seq<seq<Step>>) {
    forall i, j :: 0 <= i < |rounds| && 0 <= j < |rounds[i]| && rounds[i][j].outcome.Finds? ==> rounds[i][j].outcome.written
  }

  lemma {:induction false} WrittenAreListed(steps: seq<Step>)
    requires forall j :: 0 <= j < |steps| && steps[j].outcome.Finds? ==> steps[j].outcome.written
    ensures ListedIn(steps) == FoundIn(steps)
    decreases |steps|
  {
    if steps != [] {
      WrittenAreListed(steps[..|steps| - 1]);
    }
  }

  lemma {:induction false} AllWrittenAreListed(rounds: seq<seq<Step>>)
    requires AllWritten(rounds)
    ensures ListedInAll(rounds) == FoundInAll(rounds)
    decreases |rounds|
  {
    if rounds != [] {
      AllWrittenAreListed(rounds[..|rounds| - 1]);
      WrittenAreListed(rounds[|rounds| - 1]);
    }
  }

  /** So with distinct call ids in each round and listings that can be written out, log and live set agree. */
  lemma {:induction false} WrittenExposureAgrees(deferred: set<string>, messages: seq<Message>, rounds: seq<seq<Step>>)
    requires AllWritten(rounds) && forall i :: 0 <= i < |rounds| ==> DistinctIds(rounds[i]) && Sound(deferred, rounds[i])
    ensures var s := Rounds(deferred, Begin(deferred, messages), rounds);
            s.exposed == Restored(deferred, s.messages)
  {
    forall i | 0 <= i < |rounds|
      ensures Told(rounds[i])
    {
      DistinctIdsTell(rounds[i]);
    }
    AllWrittenAreListed(rounds);
    ToldExposureAgrees(deferred, messages, rounds);
  }

  /** A deferred tool is run exactly when the log it began with or a search of an earlier round listed it. */
  lemma {:induction false} RunsOnlyFound(deferred: set<string>, messages: seq<Message>, rounds: seq<seq<Step>>, steps: seq<Step>, i: nat)
    requires i < |steps| && steps[i].call.name in deferred && steps[i].call.name != SEARCH
    ensures var s := Rounds(deferred, Begin(deferred, messages), rounds);
            var asked := s.(messages := s.messages + [Assistant(CallsOf(steps))]);
            Runs(deferred, ExecuteAll(deferred, asked, steps[..i]).exposed, steps[i])
            <==> steps[i].call.name in Restored(deferred, messages) + FoundInAll(rounds)
  {
    RoundsRead(deferred, messages, rounds);
    var s := Rounds(deferred, Begin(deferred, messages), rounds);
    ExecutingKeepsExposed(deferred, s.(messages := s.messages + [Assistant(CallsOf(steps))]), steps[..i]);
  }

  lemma {:induction false} ExecutingKeepsExposed(deferred: set<string>, s: State, steps: seq<Step>)
    ensures ExecuteAll(deferred, s, steps).exposed == s.exposed
    decreases |steps|
  {
    if steps != [] {
      ExecutingKeepsExposed(deferred, s, steps[..|steps| - 1]);
    }
  }

  /** A listing that is not written out exposes its tools to the run and not to the log. */
  lemma AnUnwrittenListingDiffers()
    ensures var rounds := [[Step(Call("1", SEARCH), Finds(["mail"], false))]];
            var s := Rounds({"mail"}, Begin({"mail"}, []), rounds);
            s.exposed == {"mail"} && Restored({"mail"}, s.messages) == {}
  {
    var step := Step(Call("1", SEARCH), Finds(["mail"], false));
    var rounds := [[step]];
    var none: seq<seq<Step>> := [];
    assert rounds[..0] == none && [step][..0] == [];
    assert FoundIn([step]) == Found(step) == {"mail"};
    assert ReadIn({"mail"}, {} + FoundInAll(none), CallsOf([step]), [step]) == {};
    RoundsRead({"mail"}, [], rounds);
  }

  /** A search that shares its id with a later call of its round is not found in the log. */
  lemma ASharedIdDiffers()
    ensures var rounds := [[Step(Call("1", SEARCH), Finds(["mail"], true)), Step(Call("1", "clock"), Returns(Text("noon")))]];
            var s := Rounds({"mail"}, Begin({"mail"}, []), rounds);
            s.exposed == {"mail"} && Restored({"mail"}, s.messages) == {}
  {
    var (search, clock) := (Step(Call("1", SEARCH), Finds(["mail"], true)), Step(Call("1", "clock"), Returns(Text("noon"))));
    var steps := [search, clock];
    var none: seq<seq<Step>> := [];
    assert [steps][..0] == none && steps[..1] == [search] && [search][..0] == [];
    assert search.outcome.names[0] == "mail" && Found(search) == {"mail"} && FoundIn([search]) == {"mail"} && FoundIn(steps) == {"mail"};
    assert CallsOf(steps)[1] == clock.call && LastName(CallsOf(steps), "1") == Some("clock");
    assert ReadIn({"mail"}, {} + FoundInAll(none), CallsOf(steps), [search]) == {};
    assert ReadIn({"mail"}, {} + FoundInAll(none), CallsOf(steps), steps) == {};
    RoundsRead({"mail"}, [], [steps]);
  }
}
