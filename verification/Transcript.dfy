/**
The transcript of what an agent writes: its chunks are gathered into runs and
published a moment later, or at once before an event that must come after them.
*/
module Transcript {
  import opened Wrappers

  datatype TextType = Message | Thought

  /** The id that tells a reader which published runs are one text. */
  datatype RunId = NoRun | OfMessage(upstream: string) | OfTurn(turn: string, number: nat)

  datatype TextRun = TextRun(kind: TextType, chunks: seq<string>, id: RunId)

  /** A chunk as the agent's update carries it; `turn` is empty outside a turn. */
  datatype Chunk = Chunk(kind: TextType, text: string, upstream: string, turn: string)

  /** Which turn the run ids count in, how many were given, and the run that is open. */
  datatype Ids = Ids(turn: string, given: nat, open: Option<TextType>)

  function CurrentId(ids: Ids): RunId {
    OfTurn(ids.turn, ids.given)
  }

  /** textRunIDLocked. */
  function IdOf(ids: Ids, chunk: Chunk): (Ids, RunId) {
    if chunk.upstream != "" then (ids.(open := None), OfMessage(chunk.upstream))
    else if chunk.turn == "" then (ids, NoRun)
    else
      var here := if ids.turn != chunk.turn then Ids(chunk.turn, 0, None) else ids;
      if here.open == Some(chunk.kind) then (here, CurrentId(here))
      else
        var next := Ids(here.turn, here.given + 1, Some(chunk.kind));
        (next, CurrentId(next))
  }

  function Add(runs: seq<TextRun>, chunk: Chunk, id: RunId): seq<TextRun> {
    var n := |runs|;
    if n > 0 && id != NoRun && runs[n - 1].kind == chunk.kind && runs[n - 1].id == id then
      runs[n - 1 := runs[n - 1].(chunks := runs[n - 1].chunks + [chunk.text])]
    else runs + [TextRun(chunk.kind, [chunk.text], id)]
  }

  datatype Buffer = Buffer(runs: seq<TextRun>, timer: bool, ids: Ids)

  const EMPTY := Buffer([], false, Ids("", 0, None))

  function Queued(b: Buffer, chunk: Chunk): Buffer {
    if chunk.text == "" then b
    else
      var (ids, id) := IdOf(b.ids, chunk);
      Buffer(Add(b.runs, chunk, id), true, ids)
  }

  function Drained(b: Buffer): Buffer {
    b.(runs := [], timer := false)
  }

  function DrainedForBarrier(b: Buffer): Buffer {
    Drained(b.(ids := b.ids.(open := None)))
  }

  class TranscriptBuffer {
    var runs: seq<TextRun>
    var timer: bool
    var turnKey: string
    var runSeq: nat
    var current: Option<TextType>

    function View(): Buffer
      reads this
    {
      Buffer(runs, timer, Ids(turnKey, runSeq, current))
    }

    constructor ()
      ensures View() == EMPTY
    {
      runs, timer, turnKey, runSeq, current := [], false, "", 0, None;
    }

    method TextRunId(chunk: Chunk) returns (id: RunId)
      modifies this
      ensures View().ids == IdOf(old(View()).ids, chunk).0 && id == IdOf(old(View()).ids, chunk).1
      ensures runs == old(runs) && timer == old(timer)
    {
      if chunk.upstream != "" {
        current := None;
        return OfMessage(chunk.upstream);
      }
      if chunk.turn == "" {
        return NoRun;
      }
      if turnKey != chunk.turn {
        turnKey, runSeq, current := chunk.turn, 0, None;
      }
      if current == Some(chunk.kind) {
        return OfTurn(turnKey, runSeq);
      }
      runSeq, current := runSeq + 1, Some(chunk.kind);
      return OfTurn(turnKey, runSeq);
    }

    method Queue(chunk: Chunk)
      modifies this
      ensures View() == Queued(old(View()), chunk)
    {
      if chunk.text == "" {
        return;
      }
      var id := TextRunId(chunk);
      var n := |runs|;
      if n > 0 && id != NoRun && runs[n - 1].kind == chunk.kind && runs[n - 1].id == id {
        runs := runs[n - 1 := runs[n - 1].(chunks := runs[n - 1].chunks + [chunk.text])];
      } else {
        runs := runs + [TextRun(chunk.kind, [chunk.text], id)];
      }
      timer := true;
    }

    method Drain() returns (drained: seq<TextRun>)
      modifies this
      ensures drained == old(runs) && View() == Drained(old(View()))
    {
      timer := false;
      drained, runs := runs, [];
    }

    method DrainBarrier() returns (drained: seq<TextRun>)
      modifies this
      ensures drained == old(runs) && View() == DrainedForBarrier(old(View()))
    {
      current := None;
      drained := Drain();
    }
  }

  // ---- The log ----

  /** What is published: a run's text, or another event, which a barrier puts after the text before it. */
  datatype Entry = Text(kind: TextType, content: string, id: RunId) | Other(event: string)

  function Join(chunks: seq<string>): string {
    if chunks == [] then "" else Join(chunks[..|chunks| - 1]) + chunks[|chunks| - 1]
  }

  function Entries(runs: seq<TextRun>): seq<Entry> {
    if runs == [] then []
    else
      var run := runs[|runs| - 1];
      Entries(runs[..|runs| - 1]) + [Text(run.kind, Join(run.chunks), run.id)]
  }

  /** A publisher that has drained the buffer; there is at most one. A timer has yet to look its job up; a writer writes the text and then its event. */
  datatype Publisher = Nobody | Timer(runs: seq<TextRun>) | Writer(runs: seq<TextRun>, event: Option<string>)

  datatype Input = Queues(chunk: Chunk) | Marks(event: string)

  /** `inputs` are the chunks queued and the events of barriers, in order; `log` is what was written of them. */
  datatype World = World(buffer: Buffer, publisher: Publisher, log: seq<Entry>, registered: bool, inputs: seq<Input>)

  /** A barrier may have no event. A write fails as a whole. */
  datatype Event =
    | QueueChunk(chunk: Chunk)
    | DrainForTimer
    | DrainForBarrier(event: Option<string>)
    | FindJob
    | Write(stored: bool)
    | Register
    | Unregister

  /** What a step adds to the inputs. */
  function Given(w: World, e: Event): seq<Input> {
    match e
    case QueueChunk(chunk) => [Queues(chunk)]
    case DrainForBarrier(Some(event)) => if w.publisher == Nobody then [Marks(event)] else []
    case _ => []
  }

  /** A step; one that cannot happen changes nothing. A barrier writes for the job it was given, a timer for the job it finds. */
  function Next(w: World, e: Event): World {
    match e
    case QueueChunk(chunk) => w.(buffer := Queued(w.buffer, chunk), inputs := w.inputs + Given(w, e))
    case DrainForTimer => if w.publisher != Nobody then w else w.(buffer := Drained(w.buffer), publisher := Timer(w.buffer.runs))
    case DrainForBarrier(event) =>
      if w.publisher != Nobody then w
      else w.(buffer := DrainedForBarrier(w.buffer), publisher := Writer(w.buffer.runs, event), inputs := w.inputs + Given(w, e))
    case FindJob =>
      if !w.publisher.Timer? then w
      else w.(publisher := if w.publisher.runs != [] && w.registered then Writer(w.publisher.runs, None) else Nobody)
    case Write(stored) =>
      if !w.publisher.Writer? then w
      else if w.publisher.runs != [] then
        w.(publisher := if w.publisher.event.Some? then Writer([], w.publisher.event) else Nobody,
           log := if stored then w.log + Entries(w.publisher.runs) else w.log)
      else
        w.(publisher := Nobody,
           log := if stored && w.publisher.event.Some? then w.log + [Other(w.publisher.event.value)] else w.log)
    case Register => w.(registered := true)
    case Unregister => w.(registered := false)
  }

  const START := World(EMPTY, Nobody, [], true, [])

  function RunFrom(w: World, events: seq<Event>): World {
    if events == [] then w else Next(RunFrom(w, events[..|events| - 1]), events[|events| - 1])
  }

  function Run(events: seq<Event>): World {
    RunFrom(START, events)
  }

  /** A timer with text finds its job gone, or a write of text or of an event fails. */
  predicate Drops(w: World, e: Event) {
    match e
    case FindJob => w.publisher.Timer? && w.publisher.runs != [] && !w.registered
    case Write(stored) => w.publisher.Writer? && (w.publisher.runs != [] || w.publisher.event.Some?) && !stored
    case _ => false
  }

  /** Whether such a step is among the events that follow a world. */
  predicate DropsIn(w: World, events: seq<Event>) {
    exists k | 0 <= k < |events| :: Drops(RunFrom(w, events[..k]), events[k])
  }

  // ---- What is published is what was queued ----

  /** A character of the transcript, or a mark in it. */
  datatype Item = Char(kind: TextType, c: char) | Mark(event: string)

  function Chars(kind: TextType, text: string): seq<Item> {
    seq(|text|, i requires 0 <= i < |text| => Char(kind, text[i]))
  }

  function ItemsOfInputs(inputs: seq<Input>): seq<Item> {
    if inputs == [] then []
    else ItemsOfInputs(inputs[..|inputs| - 1]) +
         match inputs[|inputs| - 1]
         case Queues(chunk) => Chars(chunk.kind, chunk.text)
         case Marks(event) => [Mark(event)]
  }

  function ItemsOfRuns(runs: seq<TextRun>): seq<Item> {
    if runs == [] then []
    else ItemsOfRuns(runs[..|runs| - 1]) + Chars(runs[|runs| - 1].kind, Join(runs[|runs| - 1].chunks))
  }

  function ItemsOfLog(log: seq<Entry>): seq<Item> {
    if log == [] then []
    else ItemsOfLog(log[..|log| - 1]) +
         match log[|log| - 1]
         case Text(kind, content, _) => Chars(kind, content)
         case Other(event) => [Mark(event)]
  }

  function ItemsInHand(p: Publisher): seq<Item> {
    match p
    case Nobody => []
    case Timer(runs) => ItemsOfRuns(runs)
    case Writer(runs, event) => ItemsOfRuns(runs) + Marking(event)
  }

  function Marking(event: Option<string>): seq<Item> {
    if event.Some? then [Mark(event.value)] else []
  }

  /** All that is written, in hand or held back, in order. */
  function All(w: World): seq<Item> {
    ItemsOfLog(w.log) + ItemsInHand(w.publisher) + ItemsOfRuns(w.buffer.runs)
  }

  /** What a step loses: the text of a timer or of a failed write, or the event of one. */
  function Lost(w: World, e: Event): seq<Item> {
    if !Drops(w, e) then []
    else if w.publisher.runs != [] then ItemsOfRuns(w.publisher.runs)
    else Marking(w.publisher.event)
  }

  lemma CharsOfSum(kind: TextType, a: string, b: string)
    ensures Chars(kind, a + b) == Chars(kind, a) + Chars(kind, b)
  {
  }

  lemma AddingAdds(runs: seq<TextRun>, chunk: Chunk, id: RunId)
    ensures ItemsOfRuns(Add(runs, chunk, id)) == ItemsOfRuns(runs) + Chars(chunk.kind, chunk.text)
  {
    var n, runs' := |runs|, Add(runs, chunk, id);
    if n > 0 && id != NoRun && runs[n - 1].kind == chunk.kind && runs[n - 1].id == id {
      var chunks := runs[n - 1].chunks;
      assert runs'[..n - 1] == runs[..n - 1];
      assert (chunks + [chunk.text])[..|chunks|] == chunks;
      CharsOfSum(chunk.kind, Join(chunks), chunk.text);
    } else {
      assert runs'[..n] == runs;
      assert [chunk.text][..0] == [] && Join([chunk.text]) == "" + chunk.text == chunk.text;
    }
  }

  lemma LogOne(log: seq<Entry>, entry: Entry)
    ensures ItemsOfLog(log + [entry]) == ItemsOfLog(log) + (if entry.Text? then Chars(entry.kind, entry.content) else [Mark(entry.event)])
  {
    assert (log + [entry])[..|log|] == log;
  }

  lemma {:induction false} LogSum(a: seq<Entry>, b: seq<Entry>)
    ensures ItemsOfLog(a + b) == ItemsOfLog(a) + ItemsOfLog(b)
    decreases |b|
  {
    if b == [] {
      assert a + b == a;
    } else {
      LogSum(a, b[..|b| - 1]);
      assert (a + b)[..|a + b| - 1] == a + b[..|b| - 1];
    }
  }

  lemma {:induction false} ItemsOfEntries(runs: seq<TextRun>)
    ensures ItemsOfLog(Entries(runs)) == ItemsOfRuns(runs)
    decreases |runs|
  {
    if runs != [] {
      var n := |runs| - 1;
      ItemsOfEntries(runs[..n]);
      LogOne(Entries(runs[..n]), Text(runs[n].kind, Join(runs[n].chunks), runs[n].id));
    }
  }

  lemma LoggedEntries(log: seq<Entry>, runs: seq<TextRun>)
    ensures ItemsOfLog(log + Entries(runs)) == ItemsOfLog(log) + ItemsOfRuns(runs)
  {
    LogSum(log, Entries(runs));
    ItemsOfEntries(runs);
  }

  lemma InputOne(inputs: seq<Input>, input: Input)
    ensures ItemsOfInputs(inputs + [input])
         == ItemsOfInputs(inputs) + (if input.Queues? then Chars(input.chunk.kind, input.chunk.text) else [Mark(input.event)])
  {
    assert (inputs + [input])[..|inputs|] == inputs;
  }

  predicate Complete(w: World) {
    All(w) == ItemsOfInputs(w.inputs)
  }

  lemma QueueTakes(w: World, chunk: Chunk)
    ensures All(Next(w, QueueChunk(chunk))) == All(w) + Chars(chunk.kind, chunk.text)
  {
    var more := Chars(chunk.kind, chunk.text);
    AddingAdds(w.buffer.runs, chunk, IdOf(w.buffer.ids, chunk).1);
    assert ItemsOfRuns(Queued(w.buffer, chunk).runs) == ItemsOfRuns(w.buffer.runs) + more;
    assert ItemsOfLog(w.log) + ItemsInHand(w.publisher) + (ItemsOfRuns(w.buffer.runs) + more) == All(w) + more;
  }

  lemma DrainTakes(w: World, e: Event)
    requires w.publisher == Nobody && (e.DrainForTimer? || e.DrainForBarrier?)
    ensures All(Next(w, e)) == All(w) + if e.DrainForBarrier? then Marking(e.event) else []
  {
    var log, held, more := ItemsOfLog(w.log), ItemsOfRuns(w.buffer.runs), if e.DrainForBarrier? then Marking(e.event) else [];
    assert ItemsOfRuns(Next(w, e).buffer.runs) == [];
    assert ItemsInHand(Next(w, e).publisher) == held + more;
    assert log + (held + more) + [] == log + [] + held + more;
  }

  lemma TextTakes(w: World, stored: bool)
    requires w.publisher.Writer? && w.publisher.runs != []
    ensures var w' := Next(w, Write(stored));
            ItemsOfLog(w'.log) + Lost(w, Write(stored)) + ItemsInHand(w'.publisher) == ItemsOfLog(w.log) + ItemsInHand(w.publisher)
  {
    var log, text, rest := ItemsOfLog(w.log), ItemsOfRuns(w.publisher.runs), Marking(w.publisher.event);
    var w' := Next(w, Write(stored));
    assert ItemsInHand(w'.publisher) == rest by {
      assert ItemsOfRuns([]) == [];
      assert [] + rest == rest;
    }
    assert ItemsOfLog(w'.log) + Lost(w, Write(stored)) == log + text by {
      LoggedEntries(w.log, w.publisher.runs);
      assert log + text + [] == log + text;
    }
    assert log + text + rest == log + (text + rest);
  }

  lemma EventTakes(w: World, stored: bool)
    requires w.publisher.Writer? && w.publisher.runs == []
    ensures var w' := Next(w, Write(stored));
            ItemsOfLog(w'.log) + Lost(w, Write(stored)) + ItemsInHand(w'.publisher) == ItemsOfLog(w.log) + ItemsInHand(w.publisher)
  {
    if w.publisher.event.Some? {
      LogOne(w.log, Other(w.publisher.event.value));
    }
  }

  /** What a writer writes comes off its hands in order. */
  lemma WriteTakes(w: World, stored: bool)
    requires w.publisher.Writer?
    ensures var w' := Next(w, Write(stored));
            ItemsOfLog(w'.log) + Lost(w, Write(stored)) + ItemsInHand(w'.publisher) == ItemsOfLog(w.log) + ItemsInHand(w.publisher)
  {
    if w.publisher.runs != [] {
      TextTakes(w, stored);
    } else {
      EventTakes(w, stored);
    }
  }

  lemma GivenItems(w: World, e: Event)
    ensures ItemsOfInputs(Given(w, e)) ==
            if e.QueueChunk? then Chars(e.chunk.kind, e.chunk.text)
            else if e.DrainForBarrier? && w.publisher == Nobody then Marking(e.event)
            else []
  {
    if |Given(w, e)| == 1 {
      InputOne([], Given(w, e)[0]);
      assert [] + [Given(w, e)[0]] == Given(w, e);
    }
  }

  /** No step loses or moves a character or an event but one that drops, which loses just what it was to write. */
  lemma StepMissing(w: World, e: Event)
    ensures var w' := Next(w, e);
            ItemsOfLog(w'.log) + Lost(w, e) + ItemsInHand(w'.publisher) + ItemsOfRuns(w'.buffer.runs)
            == All(w) + ItemsOfInputs(Given(w, e))
    ensures Next(w, e).inputs == w.inputs + Given(w, e)
  {
    GivenItems(w, e);
    var w' := Next(w, e);
    match e {
      case QueueChunk(chunk) => QueueTakes(w, chunk);
      case DrainForTimer => if w.publisher == Nobody { DrainTakes(w, e); }
      case DrainForBarrier(_) => if w.publisher == Nobody { DrainTakes(w, e); }
      case FindJob =>
        if w.publisher.Timer? {
          assert ItemsOfLog(w.log) + Lost(w, e) + ItemsInHand(w'.publisher) == ItemsOfLog(w.log) + ItemsInHand(w.publisher);
        }
      case Write(stored) => if w.publisher.Writer? { WriteTakes(w, stored); }
      case _ =>
    }
    assert ItemsOfLog(w'.log) + [] == ItemsOfLog(w'.log) && All(w) + [] == All(w);
  }

  lemma RunFromOne(w: World, before: seq<Event>, e: Event)
    ensures RunFrom(w, before + [e]) == Next(RunFrom(w, before), e)
    ensures DropsIn(w, before + [e]) <==> DropsIn(w, before) || Drops(RunFrom(w, before), e)
  {
    var all := before + [e];
    assert all[..|all| - 1] == before && all[|all| - 1] == e;
    assert forall k :: 0 <= k < |before| ==> all[k] == before[k] && all[..k] == before[..k];
  }

  /** Since a world, what is written and held has grown by what was given. */
  predicate CompleteSince(w: World, w': World) {
    && |w.inputs| <= |w'.inputs| && w'.inputs[..|w.inputs|] == w.inputs
    && All(w') == All(w) + ItemsOfInputs(w'.inputs[|w.inputs|..])
  }

  lemma StepKeepsAll(w: World, e: Event)
    requires !Drops(w, e)
    ensures All(Next(w, e)) == All(w) + ItemsOfInputs(Given(w, e))
  {
    StepMissing(w, e);
    assert ItemsOfLog(Next(w, e).log) + [] == ItemsOfLog(Next(w, e).log);
  }

  lemma StepGives(w: World, w1: World, e: Event)
    requires |w.inputs| <= |w1.inputs| && w1.inputs[..|w.inputs|] == w.inputs
    ensures var w' := Next(w1, e);
            && |w.inputs| <= |w'.inputs| && w'.inputs[..|w.inputs|] == w.inputs
            && ItemsOfInputs(w'.inputs[|w.inputs|..]) == ItemsOfInputs(w1.inputs[|w.inputs|..]) + ItemsOfInputs(Given(w1, e))
  {
    StepMissing(w1, e);
    assert Next(w1, e).inputs[|w.inputs|..] == w1.inputs[|w.inputs|..] + Given(w1, e);
    InputSum(w1.inputs[|w.inputs|..], Given(w1, e));
  }

  lemma Associates<T>(a: seq<T>, b: seq<T>, c: seq<T>)
    ensures a + b + c == a + (b + c)
  {
  }

  lemma StepKeepsComplete(w: World, w1: World, e: Event)
    requires CompleteSince(w, w1) && !Drops(w1, e)
    ensures CompleteSince(w, Next(w1, e))
  {
    StepGives(w, w1, e);
    StepKeepsAll(w1, e);
    Associates(All(w), ItemsOfInputs(w1.inputs[|w.inputs|..]), ItemsOfInputs(Given(w1, e)));
  }

  /** From any world on, nothing is lost while no step drops. */
  lemma {:induction false} NothingIsLostSince(w: World, events: seq<Event>)
    ensures !DropsIn(w, events) ==> CompleteSince(w, RunFrom(w, events))
    decreases |events|
  {
    if events == [] {
      assert w.inputs[|w.inputs|..] == [] && All(w) + [] == All(w);
    } else {
      var before, e := events[..|events| - 1], events[|events| - 1];
      assert events == before + [e];
      NothingIsLostSince(w, before);
      RunFromOne(w, before, e);
      if !DropsIn(w, events) {
        StepKeepsComplete(w, RunFrom(w, before), e);
      }
    }
  }

  // ---- When text is lost ----

  predicate Written(runs: seq<TextRun>) {
    forall run :: run in runs ==> Join(run.chunks) != ""
  }

  /** Every run, held back or in hand, has text. */
  predicate AllWritten(w: World) {
    Written(w.buffer.runs) && (w.publisher != Nobody ==> Written(w.publisher.runs))
  }

  lemma AddingWrites(runs: seq<TextRun>, chunk: Chunk, id: RunId)
    requires Written(runs) && chunk.text != ""
    ensures Written(Add(runs, chunk, id))
  {
    assert [chunk.text][..0] == [] && Join([chunk.text]) == "" + chunk.text == chunk.text;
    if runs != [] {
      var chunks := runs[|runs| - 1].chunks;
      assert (chunks + [chunk.text])[..|chunks|] == chunks;
    }
  }

  lemma StepKeepsWritten(w: World, e: Event)
    requires AllWritten(w)
    ensures AllWritten(Next(w, e))
  {
    if e.QueueChunk? && e.chunk.text != "" {
      AddingWrites(w.buffer.runs, e.chunk, IdOf(w.buffer.ids, e.chunk).1);
    }
  }

  lemma {:induction false} RunsAreWritten(w: World, events: seq<Event>)
    requires AllWritten(w)
    ensures AllWritten(RunFrom(w, events))
    decreases |events|
  {
    if events != [] {
      RunsAreWritten(w, events[..|events| - 1]);
      StepKeepsWritten(RunFrom(w, events[..|events| - 1]), events[|events| - 1]);
    }
  }

  lemma DropsLose(w: World, e: Event)
    requires AllWritten(w) && Drops(w, e)
    ensures |Lost(w, e)| > 0
  {
    if w.publisher.runs != [] {
      assert w.publisher.runs[|w.publisher.runs| - 1] in w.publisher.runs;
    }
  }

  /** What is missing since a world is more than nothing just when a step dropped. */
  predicate MissesSince(w: World, w': World, dropped: bool) {
    && |w.inputs| <= |w'.inputs| && w'.inputs[..|w.inputs|] == w.inputs
    && |All(w')| <= |All(w)| + |ItemsOfInputs(w'.inputs[|w.inputs|..])|
    && (dropped ==> |All(w')| < |All(w)| + |ItemsOfInputs(w'.inputs[|w.inputs|..])|)
  }

  lemma StepMisses(w: World, w1: World, e: Event, dropped: bool)
    requires AllWritten(w1) && MissesSince(w, w1, dropped)
    ensures MissesSince(w, Next(w1, e), dropped || Drops(w1, e))
  {
    StepMissing(w1, e);
    StepGives(w, w1, e);
    if Drops(w1, e) {
      DropsLose(w1, e);
    }
    var w' := Next(w1, e);
    assert |ItemsOfLog(w'.log)| + |Lost(w1, e)| + |ItemsInHand(w'.publisher)| + |ItemsOfRuns(w'.buffer.runs)| == |All(w1)| + |ItemsOfInputs(Given(w1, e))|;
  }

  lemma {:induction false} MissingExactly(w: World, events: seq<Event>)
    requires AllWritten(w)
    ensures MissesSince(w, RunFrom(w, events), DropsIn(w, events))
    decreases |events|
  {
    if events == [] {
      assert w.inputs[|w.inputs|..] == [];
    } else {
      var before, e := events[..|events| - 1], events[|events| - 1];
      assert events == before + [e];
      MissingExactly(w, before);
      RunsAreWritten(w, before);
      RunFromOne(w, before, e);
      StepMisses(w, RunFrom(w, before), e, DropsIn(w, before));
    }
  }

  /**
  Published text, text being published and text held back are, character by
  character and with the events between them, what was queued, while no timer
  with text found the job gone and no write failed.
  */
  lemma {:induction false} NothingIsLost(events: seq<Event>)
    ensures !DropsIn(START, events) ==> Complete(Run(events))
  {
    NothingIsLostSince(START, events);
    assert All(START) == [];
    assert Run(events).inputs[0..] == Run(events).inputs;
  }

  /** Something is lost exactly when in the run a timer with text found its job gone, or a write failed. */
  lemma {:induction false} LostExactly(events: seq<Event>)
    ensures Complete(Run(events)) <==> !DropsIn(START, events)
  {
    NothingIsLost(events);
    MissingExactly(START, events);
    assert All(START) == [];
    assert Run(events).inputs[0..] == Run(events).inputs;
  }

  // ---- Reading a turn back ----

  function TextOf(items: seq<Item>, kind: TextType): string {
    if items == [] then ""
    else
      var last := items[|items| - 1];
      TextOf(items[..|items| - 1], kind) + if last.Char? && last.kind == kind then [last.c] else ""
  }

  lemma {:induction false} TextOfSum(a: seq<Item>, b: seq<Item>, kind: TextType)
    ensures TextOf(a + b, kind) == TextOf(a, kind) + TextOf(b, kind)
    decreases |b|
  {
    if b == [] {
      assert a + b == a;
    } else {
      TextOfSum(a, b[..|b| - 1], kind);
      assert (a + b)[..|a + b| - 1] == a + b[..|b| - 1];
    }
  }

  lemma {:induction false} TextOfChars(kind: TextType, text: string, of: TextType)
    ensures TextOf(Chars(kind, text), of) == if of == kind then text else ""
    decreases |text|
  {
    if text != "" {
      TextOfChars(kind, text[..|text| - 1], of);
      assert Chars(kind, text)[..|text| - 1] == Chars(kind, text[..|text| - 1]);
      assert text[..|text| - 1] + [text[|text| - 1]] == text;
    }
  }

  /** The text a job's live result gathers from its chunks, of one kind. */
  function Live(inputs: seq<Input>, kind: TextType): string {
    if inputs == [] then ""
    else
      var last := inputs[|inputs| - 1];
      Live(inputs[..|inputs| - 1], kind) + if last.Queues? && last.chunk.kind == kind then last.chunk.text else ""
  }

  /** restoreTurnResult, for text: what the events of a turn add up to. */
  method RestoreText(log: seq<Entry>) returns (assistant: string, thought: string)
    ensures assistant == TextOf(ItemsOfLog(log), Message) && thought == TextOf(ItemsOfLog(log), Thought)
  {
    assistant, thought := "", "";
    for i := 0 to |log|
      invariant assistant == TextOf(ItemsOfLog(log[..i]), Message) && thought == TextOf(ItemsOfLog(log[..i]), Thought)
    {
      assert log[..i + 1][..i] == log[..i];
      var entry := log[i];
      match entry {
        case Text(kind, content, _) =>
          forall of | true
            ensures TextOf(ItemsOfLog(log[..i + 1]), of) == TextOf(ItemsOfLog(log[..i]), of) + if of == kind then content else ""
          {
            TextOfSum(ItemsOfLog(log[..i]), Chars(kind, content), of);
            TextOfChars(kind, content, of);
          }
          if kind == Message {
            assistant := assistant + content;
          } else {
            thought := thought + content;
          }
        case Other(event) =>
          TextOfSum(ItemsOfLog(log[..i]), [Mark(event)], Message);
          TextOfSum(ItemsOfLog(log[..i]), [Mark(event)], Thought);
      }
    }
    assert log[..|log|] == log;
  }

  lemma {:induction false} LiveIsText(inputs: seq<Input>, kind: TextType)
    ensures Live(inputs, kind) == TextOf(ItemsOfInputs(inputs), kind)
    decreases |inputs|
  {
    if inputs != [] {
      var before, last := inputs[..|inputs| - 1], inputs[|inputs| - 1];
      LiveIsText(before, kind);
      match last {
        case Queues(chunk) =>
          TextOfSum(ItemsOfInputs(before), Chars(chunk.kind, chunk.text), kind);
          TextOfChars(chunk.kind, chunk.text, kind);
        case Marks(event) => TextOfSum(ItemsOfInputs(before), [Mark(event)], kind);
      }
    }
  }

  predicate Flushed(w: World) {
    w.publisher == Nobody && w.buffer.runs == []
  }

  lemma {:induction false} LogGrows(w: World, events: seq<Event>)
    ensures var w' := RunFrom(w, events);
            |w.log| <= |w'.log| && w'.log[..|w.log|] == w.log
    decreases |events|
  {
    if events != [] {
      LogGrows(w, events[..|events| - 1]);
    }
  }

  lemma {:induction false} InputSum(a: seq<Input>, b: seq<Input>)
    ensures ItemsOfInputs(a + b) == ItemsOfInputs(a) + ItemsOfInputs(b)
    decreases |b|
  {
    if b == [] {
      assert a + b == a;
    } else {
      InputSum(a, b[..|b| - 1]);
      assert (a + b)[..|a + b| - 1] == a + b[..|b| - 1];
    }
  }

  /** Between two moments at which all was published, the log has grown by just what was given. */
  lemma FlushedGrows(w: World, w': World)
    requires Flushed(w) && Flushed(w') && |w.log| <= |w'.log| && w'.log[..|w.log|] == w.log
    ensures All(w') == All(w) + ItemsOfLog(w'.log[|w.log|..])
  {
    assert w'.log == w.log + w'.log[|w.log|..];
    LogSum(w.log, w'.log[|w.log|..]);
  }

  lemma SameRest<T>(a: seq<T>, b: seq<T>, c: seq<T>)
    requires a + b == a + c
    ensures b == c
  {
    assert (a + b)[|a|..] == b && (a + c)[|a|..] == c;
  }

  /**
  Between two moments at which all was published, the log has just what was
  given in between if and only if no step dropped any; its events then read
  back as the live text, of messages and of thoughts.
  */
  lemma {:induction false} ReadsBack(before: seq<Event>, turn: seq<Event>)
    requires Flushed(Run(before)) && Flushed(RunFrom(Run(before), turn))
    ensures var (w, w') := (Run(before), RunFrom(Run(before), turn));
            && |w.log| <= |w'.log| && |w.inputs| <= |w'.inputs|
            && (ItemsOfLog(w'.log[|w.log|..]) == ItemsOfInputs(w'.inputs[|w.inputs|..]) <==> !DropsIn(w, turn))
            && (!DropsIn(w, turn) ==>
                  forall kind | kind in {Message, Thought} ::
                    TextOf(ItemsOfLog(w'.log[|w.log|..]), kind) == Live(w'.inputs[|w.inputs|..], kind))
  {
    var w, w' := Run(before), RunFrom(Run(before), turn);
    RunsAreWritten(START, before);
    LogGrows(w, turn);
    MissingExactly(w, turn);
    NothingIsLostSince(w, turn);
    FlushedGrows(w, w');
    var given := w'.inputs[|w.inputs|..];
    if !DropsIn(w, turn) {
      SameRest(All(w), ItemsOfLog(w'.log[|w.log|..]), ItemsOfInputs(given));
      LiveIsText(given, Message);
      LiveIsText(given, Thought);
    }
  }

  // ---- Two runs that lose text ----

  const CHUNK := Chunk(Message, "a", "", "")
  const HELD := World(Buffer([TextRun(Message, ["a"], NoRun)], true, EMPTY.ids), Nobody, [], true, [Queues(CHUNK)])
  const GONE := [QueueChunk(CHUNK), DrainForTimer, Unregister, FindJob]
  const FAILED := [QueueChunk(CHUNK), DrainForBarrier(Some("b")), Write(false), Write(true)]

  lemma RunFour(events: seq<Event>)
    requires |events| == 4
    ensures Run(events) == Next(Next(Next(Next(START, events[0]), events[1]), events[2]), events[3])
  {
    assert events[..4] == events;
    forall k | 0 <= k < 4
      ensures Run(events[..k + 1]) == Next(Run(events[..k]), events[k])
    {
      RunFromOne(START, events[..k], events[k]);
      assert events[..k] + [events[k]] == events[..k + 1];
    }
  }

  /** The chunk is written nowhere, and nobody holds it: its job was removed before the timer looked it up. */
  lemma ATimerDropsText()
    ensures var w := Run(GONE);
            w.inputs == [Queues(CHUNK)] && w.log == [] && Flushed(w) && !Complete(w)
  {
    RunFour(GONE);
    assert Next(START, GONE[0]) == HELD;
    NotComplete(Run(GONE));
  }

  /** The event follows a chunk that is not there: the write of the text failed, that of the event did not. */
  lemma AWriteDropsText()
    ensures var w := Run(FAILED);
            w.inputs == [Queues(CHUNK), Marks("b")] && w.log == [Other("b")] && w.registered && Flushed(w) && !Complete(w)
  {
    RunFour(FAILED);
    assert Next(START, FAILED[0]) == HELD;
    NotComplete(Run(FAILED));
  }

  lemma NotComplete(w: World)
    requires Flushed(w) && |w.log| < |w.inputs| && w.inputs[0] == Queues(CHUNK)
    requires (w.log == [] && |w.inputs| == 1) || (w.log == [Other("b")] && w.inputs == [Queues(CHUNK), Marks("b")])
    ensures !Complete(w)
  {
    InputOne([], Queues(CHUNK));
    assert [] + [w.inputs[0]] == w.inputs[..1];
    if |w.inputs| == 2 {
      InputOne([Queues(CHUNK)], Marks("b"));
      LogOne([], Other("b"));
      assert [] + [w.log[0]] == w.log && [Queues(CHUNK)] + [Marks("b")] == w.inputs;
    }
  }
}
