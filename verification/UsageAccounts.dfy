/**
Token usage. An agent reports cumulative snapshots and deltas per scope; what is
new in each report is written to storage, and a write that fails stays pending
for the next one. Counts are the program's 64-bit integers, taken as unbounded.
*/
module UsageAccounts {
  datatype Usage = Usage(
    input: int,
    cachedInput: int,
    cachedWrite: int,
    output: int,
    reasoning: int,
    total: int,
    context: int,
    window: int)

  const ZERO := Usage(0, 0, 0, 0, 0, 0, 0, 0)

  /** The five token counters. */
  datatype Counter = Input | CachedInput | CachedWrite | Output | Reasoning

  function Count(u: Usage, c: Counter): int {
    match c
    case Input => u.input
    case CachedInput => u.cachedInput
    case CachedWrite => u.cachedWrite
    case Output => u.output
    case Reasoning => u.reasoning
  }

  datatype Report = Report(id: string, auxiliary: bool, snapshot: Usage, delta: Usage, context: Usage)

  predicate IsZero(r: Report) {
    r.snapshot == ZERO && r.delta == ZERO && r.context == ZERO
  }

  datatype Scope = Scope(usage: Usage, lastDelta: Usage)

  const NO_SCOPE := Scope(ZERO, ZERO)

  function Max(a: int, b: int): int {
    if b > a then b else a
  }

  function Latest(current: int, next: int): int {
    if next > 0 then next else current
  }

  function MergeContext(current: Usage, context: Usage): Usage {
    current.(context := Latest(current.context, context.context), window := Latest(current.window, context.window))
  }

  function MergeSnapshot(current: Usage, next: Usage): Usage {
    MergeContext(Usage(Max(current.input, next.input), Max(current.cachedInput, next.cachedInput), Max(current.cachedWrite, next.cachedWrite),
                       Max(current.output, next.output), Max(current.reasoning, next.reasoning), Max(current.total, next.total),
                       current.context, current.window), next)
  }

  function ComponentTotal(u: Usage): int {
    u.input + u.output
  }

  function AddDelta(current: Usage, delta: Usage): Usage {
    MergeContext(Usage(current.input + delta.input, current.cachedInput + delta.cachedInput, current.cachedWrite + delta.cachedWrite,
                       current.output + delta.output, current.reasoning + delta.reasoning,
                       current.total + (if delta.total > 0 then delta.total else ComponentTotal(delta)), current.context, current.window), delta)
  }

  function Rise(before: int, after: int): int {
    if after - before < 0 then 0 else after - before
  }

  function Delta(before: Usage, after: Usage): Usage {
    Usage(Rise(before.input, after.input), Rise(before.cachedInput, after.cachedInput), Rise(before.cachedWrite, after.cachedWrite),
          Rise(before.output, after.output), Rise(before.reasoning, after.reasoning), Rise(before.total, after.total),
          after.context, after.window)
  }

  /** The scopes of a job's usage and what is recorded but not yet written. */
  datatype State = State(scopes: map<string, Scope>, pending: Usage)

  function ScopeOf(scopes: map<string, Scope>, id: string): Scope {
    if id in scopes then scopes[id] else NO_SCOPE
  }

  /** A delta counts unless it repeats the one its scope reported last. */
  predicate Counts(previous: Scope, r: Report) {
    r.delta != ZERO && r.delta != previous.lastDelta
  }

  /** The scope after a report, before its context is taken off. */
  function Reported(previous: Scope, r: Report): Usage {
    var usage := MergeSnapshot(previous.usage, r.snapshot);
    if Counts(previous, r) then AddDelta(usage, r.delta) else usage
  }

  function WriteOf(previous: Scope, r: Report): Usage {
    var write := MergeContext(Delta(previous.usage, Reported(previous, r)), r.context);
    if r.auxiliary then write.(context := 0, window := 0) else write
  }

  /** record, up to the write. */
  function Recorded(s: State, r: Report): State {
    if IsZero(r) then s
    else
      var previous := ScopeOf(s.scopes, r.id);
      State(s.scopes[r.id := Scope(Reported(previous, r).(context := 0, window := 0), r.delta)], AddDelta(s.pending, WriteOf(previous, r)))
  }

  datatype Written = Nothing | Failed | Wrote(usage: Usage)

  /** record, with the write's outcome. */
  function RecordStep(s: State, r: Report, ok: bool): (State, Written) {
    var s' := Recorded(s, r);
    if s'.pending == ZERO then (s', Nothing)
    else if !ok then (s', Failed)
    else (s'.(pending := ZERO), Wrote(s'.pending))
  }

  function TurnStarted(s: State): State {
    s.(scopes := s.scopes - {""})
  }

  class UsageAccumulator {
    var scopes: map<string, Scope>
    var pending: Usage

    function View(): State
      reads this
    {
      State(scopes, pending)
    }

    constructor ()
      ensures View() == State(map[], ZERO)
    {
      scopes, pending := map[], ZERO;
    }

    method StartTurn()
      modifies this
      ensures View() == TurnStarted(old(View()))
    {
      scopes := scopes - {""};
    }

    method Record(report: Report, ok: bool) returns (written: Written)
      modifies this
      ensures (View(), written) == RecordStep(old(View()), report, ok)
    {
      if !IsZero(report) {
        var previous := if report.id in scopes then scopes[report.id] else NO_SCOPE;
        var next := MergeSnapshot(previous.usage, report.snapshot);
        if report.delta != ZERO && report.delta != previous.lastDelta {
          next := AddDelta(next, report.delta);
        }
        var write := MergeContext(Delta(previous.usage, next), report.context);
        if report.auxiliary {
          write := write.(context := 0, window := 0);
        }
        pending := AddDelta(pending, write);
        scopes := scopes[report.id := Scope(next.(context := 0, window := 0), report.delta)];
      }
      if pending == ZERO {
        return Nothing;
      }
      if !ok {
        return Failed;
      }
      written := Wrote(pending);
      pending := ZERO;
    }
  }

  // ---- Runs ----

  datatype Event = Reports(report: Report, ok: bool) | StartsTurn

  /** The accumulator with what storage has been given and the counters of scopes dropped when turns started. */
  datatype World = World(state: State, stored: Counter -> int, dropped: Counter -> int)

  function Next(w: World, e: Event): World {
    match e
    case Reports(report, ok) =>
      var (state, written) := RecordStep(w.state, report, ok);
      World(state, if written.Wrote? then c => w.stored(c) + Count(written.usage, c) else w.stored, w.dropped)
    case StartsTurn =>
      World(TurnStarted(w.state), w.stored, c => w.dropped(c) + Count(ScopeOf(w.state.scopes, "").usage, c))
  }

  function Run(events: seq<Event>): World {
    if events == [] then World(State(map[], ZERO), c => 0, c => 0)
    else Next(Run(events[..|events| - 1]), events[|events| - 1])
  }

  /** A counter summed over all scopes. */
  ghost function Sum(scopes: map<string, Scope>, c: Counter): int {
    if scopes == map[] then 0
    else
      var id :| id in scopes;
      Count(scopes[id].usage, c) + Sum(scopes - {id}, c)
  }

  lemma {:induction false} SumWithout(scopes: map<string, Scope>, c: Counter, id: string)
    requires id in scopes
    ensures Sum(scopes, c) == Count(scopes[id].usage, c) + Sum(scopes - {id}, c)
    decreases |scopes|
  {
    var first :| first in scopes && Sum(scopes, c) == Count(scopes[first].usage, c) + Sum(scopes - {first}, c);
    if first != id {
      SumWithout(scopes - {first}, c, id);
      SumWithout(scopes - {id}, c, first);
      assert scopes - {first} - {id} == scopes - {id} - {first};
    }
  }

  lemma SumDropped(scopes: map<string, Scope>, c: Counter, id: string)
    ensures Sum(scopes, c) == Count(ScopeOf(scopes, id).usage, c) + Sum(scopes - {id}, c)
  {
    if id in scopes {
      SumWithout(scopes, c, id);
    } else {
      assert scopes - {id} == scopes;
    }
  }

  lemma SumPut(scopes: map<string, Scope>, c: Counter, id: string, scope: Scope)
    ensures Sum(scopes[id := scope], c) == Sum(scopes, c) - Count(ScopeOf(scopes, id).usage, c) + Count(scope.usage, c)
  {
    SumDropped(scopes, c, id);
    SumWithout(scopes[id := scope], c, id);
    assert scopes[id := scope] - {id} == scopes - {id};
  }

  /** Whether a report leaves a counter of its scope at least where it was. */
  predicate Keeps(previous: Scope, r: Report, c: Counter) {
    Counts(previous, r) ==> Count(r.delta, c) >= Count(previous.usage, c) - Max(Count(previous.usage, c), Count(r.snapshot, c))
  }

  /** A report writes exactly the rise of its scope's counter, as long as the counter does not fall. */
  lemma WritesRise(previous: Scope, r: Report, c: Counter)
    ensures Count(WriteOf(previous, r), c) == Rise(Count(previous.usage, c), Count(Reported(previous, r), c))
    ensures Keeps(previous, r, c) <==> Count(Reported(previous, r), c) >= Count(previous.usage, c)
  {
  }

  ghost predicate Conserved(w: World, c: Counter) {
    w.stored(c) + Count(w.state.pending, c) == Sum(w.state.scopes, c) + w.dropped(c)
  }

  /** Recording keeps the account of a counter exactly when the report does not lower it. */
  lemma RecordingConserves(w: World, r: Report, ok: bool, c: Counter)
    requires Conserved(w, c)
    ensures Conserved(Next(w, Reports(r, ok)), c) <==> IsZero(r) || Keeps(ScopeOf(w.state.scopes, r.id), r, c)
  {
    if !IsZero(r) {
      var previous := ScopeOf(w.state.scopes, r.id);
      WritesRise(previous, r, c);
      SumPut(w.state.scopes, c, r.id, Scope(Reported(previous, r).(context := 0, window := 0), r.delta));
    }
  }

  predicate NonNegative(u: Usage) {
    forall c :: Count(u, c) >= 0
  }

  predicate Delivers(events: seq<Event>) {
    forall e :: e in events && e.Reports? ==> NonNegative(e.report.delta)
  }

  /**
  What storage has been given and what is pending always add up to the scopes,
  those of past turns included, whatever writes fail and snapshots report.
  */
  lemma {:induction false} UsageIsConserved(events: seq<Event>, c: Counter)
    requires Delivers(events)
    ensures Conserved(Run(events), c)
    decreases |events|
  {
    if events != [] {
      var w, e := Run(events[..|events| - 1]), events[|events| - 1];
      UsageIsConserved(events[..|events| - 1], c);
      assert e in events;
      match e {
        case Reports(report, ok) =>
          assert Keeps(ScopeOf(w.state.scopes, report.id), report, c);
          RecordingConserves(w, report, ok, c);
        case StartsTurn => SumDropped(w.state.scopes, c, "");
      }
    }
  }

  const FIVE := Report("", false, ZERO.(input := 5), ZERO, ZERO)
  const LESS := Report("", false, ZERO, ZERO.(input := -1), ZERO)

  /** A negative delta breaks it: the scope is lowered, and storage keeps the more. */
  lemma ANegativeDeltaBreaks()
    ensures !Conserved(Run([Reports(FIVE, true), Reports(LESS, true)]), Input)
  {
    var events := [Reports(FIVE, true), Reports(LESS, true)];
    assert events[..1] == [Reports(FIVE, true)] && events[..1][..0] == [];
    assert Delivers([Reports(FIVE, true)]);
    UsageIsConserved([Reports(FIVE, true)], Input);
    RecordingConserves(Run(events[..1]), LESS, true, Input);
  }

  // ---- Snapshots ----

  function Peak(events: seq<Event>, id: string, c: Counter): int {
    if events == [] then 0
    else
      var last, before := events[|events| - 1], Peak(events[..|events| - 1], id, c);
      if last.Reports? && last.report.id == id then Max(before, Count(last.report.snapshot, c)) else before
  }

  predicate SnapshotsOnly(events: seq<Event>) {
    forall e :: e in events ==> e.Reports? && e.report.delta == ZERO
  }

  ghost function ReportsOf(events: seq<Event>): set<Report> {
    set e | e in events && e.Reports? :: e.report
  }

  ghost predicate Named(reports: set<Report>, id: string) {
    exists r :: r in reports && r.id == id && !IsZero(r)
  }

  lemma ReportsOfExtended(events: seq<Event>)
    requires events != [] && events[|events| - 1].Reports?
    ensures ReportsOf(events) == ReportsOf(events[..|events| - 1]) + {events[|events| - 1].report}
  {
    var last := events[|events| - 1];
    assert events == events[..|events| - 1] + [last];
  }

  lemma {:induction false} ScopesAreNamed(events: seq<Event>, id: string)
    requires SnapshotsOnly(events)
    ensures id in Run(events).state.scopes <==> Named(ReportsOf(events), id)
    decreases |events|
  {
    if events != [] {
      assert events[|events| - 1] in events;
      ScopesAreNamed(events[..|events| - 1], id);
      ReportsOfExtended(events);
    }
  }

  /** The scope of each id holds the peaks of its snapshots. */
  lemma {:induction false} ScopesHoldPeaks(events: seq<Event>, id: string, c: Counter)
    requires SnapshotsOnly(events)
    ensures Count(ScopeOf(Run(events).state.scopes, id).usage, c) == Peak(events, id, c)
    ensures Run(events).dropped(c) == 0
    decreases |events|
  {
    if events != [] {
      var before, e := events[..|events| - 1], events[|events| - 1];
      ScopesHoldPeaks(before, id, c);
      assert e in events;
      if e.report.id == id {
        if IsZero(e.report) {
          PeakIsHighest(before, id, c);
        } else {
          DeltasCountExactly(Run(before), e.report, e.ok, c);
        }
      }
    }
  }

  /** A peak is no lower than any snapshot of its scope, and is one of them or zero. */
  lemma {:induction false} PeakIsHighest(events: seq<Event>, id: string, c: Counter)
    requires SnapshotsOnly(events)
    ensures Peak(events, id, c) >= 0
    ensures forall r :: r in ReportsOf(events) && r.id == id ==> Count(r.snapshot, c) <= Peak(events, id, c)
    ensures Peak(events, id, c) == 0 || exists r :: r in ReportsOf(events) && r.id == id && Count(r.snapshot, c) == Peak(events, id, c)
    decreases |events|
  {
    if events != [] {
      assert events[|events| - 1] in events;
      PeakIsHighest(events[..|events| - 1], id, c);
      ReportsOfExtended(events);
    }
  }

  lemma {:induction false} SumsAgree(a: map<string, Scope>, b: map<string, Scope>, c: Counter)
    requires a.Keys == b.Keys && forall id :: id in a ==> Count(a[id].usage, c) == Count(b[id].usage, c)
    ensures Sum(a, c) == Sum(b, c)
    decreases |a|
  {
    if a != map[] {
      var id :| id in a;
      SumWithout(a, c, id);
      SumWithout(b, c, id);
      SumsAgree(a - {id}, b - {id}, c);
    } else {
      assert b == map[];
    }
  }

  lemma SameScope(a: seq<Event>, b: seq<Event>, id: string, c: Counter)
    requires SnapshotsOnly(a) && SnapshotsOnly(b) && ReportsOf(a) == ReportsOf(b)
    ensures id in Run(a).state.scopes <==> id in Run(b).state.scopes
    ensures Count(ScopeOf(Run(a).state.scopes, id).usage, c) == Count(ScopeOf(Run(b).state.scopes, id).usage, c)
  {
    ScopesHoldPeaks(a, id, c);
    ScopesHoldPeaks(b, id, c);
    ScopesAreNamed(a, id);
    ScopesAreNamed(b, id);
    PeakIsHighest(a, id, c);
    PeakIsHighest(b, id, c);
  }

  lemma RecordedIsSum(events: seq<Event>, c: Counter)
    requires SnapshotsOnly(events)
    ensures Run(events).stored(c) + Count(Run(events).state.pending, c) == Sum(Run(events).state.scopes, c)
  {
    ScopesHoldPeaks(events, "", c);
    UsageIsConserved(events, c);
  }

  /** Reordering or repeating snapshots changes neither a scope nor what is recorded in all. */
  lemma OrderDoesNotMatter(a: seq<Event>, b: seq<Event>, c: Counter)
    requires SnapshotsOnly(a) && SnapshotsOnly(b) && ReportsOf(a) == ReportsOf(b)
    ensures Run(a).state.scopes.Keys == Run(b).state.scopes.Keys
    ensures forall id :: id in Run(a).state.scopes ==>
              Count(Run(a).state.scopes[id].usage, c) == Count(Run(b).state.scopes[id].usage, c)
    ensures Run(a).stored(c) + Count(Run(a).state.pending, c) == Run(b).stored(c) + Count(Run(b).state.pending, c)
  {
    forall id
      ensures id in Run(a).state.scopes <==> id in Run(b).state.scopes
      ensures id in Run(a).state.scopes ==> Count(Run(a).state.scopes[id].usage, c) == Count(Run(b).state.scopes[id].usage, c)
    {
      SameScope(a, b, id, c);
    }
    RecordedIsSum(a, c);
    RecordedIsSum(b, c);
    SumsAgree(Run(a).state.scopes, Run(b).state.scopes, c);
  }

  // ---- Deltas ----

  predicate Quiet(events: seq<Event>, id: string) {
    forall e :: e in events ==> e.Reports? && (e.report.id == id ==> IsZero(e.report))
  }

  lemma {:induction false} QuietKeepsScope(before: seq<Event>, between: seq<Event>, id: string)
    requires Quiet(between, id)
    ensures ScopeOf(Run(before + between).state.scopes, id) == ScopeOf(Run(before).state.scopes, id)
    decreases |between|
  {
    if between == [] {
      assert before + between == before;
    } else {
      assert between[|between| - 1] in between;
      QuietKeepsScope(before, between[..|between| - 1], id);
      assert (before + between)[..|before + between| - 1] == before + between[..|between| - 1];
    }
  }

  /** A delta repeated back to back in its scope, whatever other scopes report in between, adds nothing to what is recorded. */
  lemma RepeatsCountOnce(events: seq<Event>, between: seq<Event>, r: Report, ok: bool, again: bool, c: Counter)
    requires Delivers(events + [Reports(r, ok)] + between) && Quiet(between, r.id) && NonNegative(r.delta)
    ensures var w := Run(events + [Reports(r, ok)] + between);
            var w' := Next(w, Reports(r, again));
            && Count(ScopeOf(w'.state.scopes, r.id).usage, c) == Count(ScopeOf(w.state.scopes, r.id).usage, c)
            && w'.stored(c) + Count(w'.state.pending, c) == w.stored(c) + Count(w.state.pending, c)
  {
    var first := events + [Reports(r, ok)];
    assert first[..|events|] == events;
    QuietKeepsScope(first, between, r.id);
    assert Run(first) == Next(Run(events), Reports(r, ok));
    var w := Run(first + between);
    var scope := ScopeOf(w.state.scopes, r.id);
    UsageIsConserved(first + between, c);
    RecordingConserves(w, r, again, c);
    if !IsZero(r) {
      DeltasCountExactly(Run(events), r, ok, c);
      assert scope.lastDelta == r.delta;
      assert Count(scope.usage, c) >= Count(r.snapshot, c);
      SumPut(w.state.scopes, c, r.id, Scope(Reported(scope, r).(context := 0, window := 0), r.delta));
    }
  }

  lemma DeltasCountExactly(w: World, r: Report, ok: bool, c: Counter)
    requires !IsZero(r)
    ensures var previous := ScopeOf(w.state.scopes, r.id);
            Count(ScopeOf(Next(w, Reports(r, ok)).state.scopes, r.id).usage, c)
            == Max(Count(previous.usage, c), Count(r.snapshot, c))
               + if r.delta != ZERO && r.delta != previous.lastDelta then Count(r.delta, c) else 0
  {
  }

  /** The deltas that a scope's reports bring, in order. */
  function DeltasOf(events: seq<Event>, id: string): seq<Usage> {
    if events == [] then []
    else
      var last := events[|events| - 1];
      DeltasOf(events[..|events| - 1], id) + if last.Reports? && last.report.id == id && !IsZero(last.report) then [last.report.delta] else []
  }

  /** A sequence with each stretch of equal neighbours taken once. */
  function Collapsed<T(==)>(s: seq<T>): seq<T> {
    if |s| < 2 then s
    else if s[|s| - 1] == s[|s| - 2] then Collapsed(s[..|s| - 1])
    else Collapsed(s[..|s| - 1]) + [s[|s| - 1]]
  }

  function Total(deltas: seq<Usage>, c: Counter): int {
    if deltas == [] then 0 else Total(deltas[..|deltas| - 1], c) + Count(deltas[|deltas| - 1], c)
  }

  predicate DeltasOnly(events: seq<Event>) {
    forall e :: e in events ==> e.Reports? && e.report.snapshot == ZERO && NonNegative(e.report.delta)
  }

  lemma TotalWith(deltas: seq<Usage>, delta: Usage, c: Counter)
    ensures Total(Collapsed(deltas + [delta]), c)
         == Total(Collapsed(deltas), c) + if deltas != [] && deltas[|deltas| - 1] == delta then 0 else Count(delta, c)
  {
    var all := deltas + [delta];
    assert all[..|all| - 1] == deltas;
    if deltas == [] {
      assert Collapsed(all) == [delta] && [delta][..0] == [] && Total([], c) == 0;
    } else if deltas[|deltas| - 1] != delta {
      assert Collapsed(all)[..|Collapsed(all)| - 1] == Collapsed(deltas);
    }
  }

  lemma DeltasOne(events: seq<Event>, e: Event, id: string)
    ensures DeltasOf(events + [e], id)
         == DeltasOf(events, id) + if e.Reports? && e.report.id == id && !IsZero(e.report) then [e.report.delta] else []
  {
    assert (events + [e])[..|events|] == events;
  }

  lemma OtherScopesStay(w: World, r: Report, ok: bool, id: string)
    requires r.id != id || IsZero(r)
    ensures ScopeOf(Next(w, Reports(r, ok)).state.scopes, id) == ScopeOf(w.state.scopes, id)
  {
  }

  lemma LastDeltaIs(w: World, r: Report, ok: bool)
    requires !IsZero(r)
    ensures ScopeOf(Next(w, Reports(r, ok)).state.scopes, r.id).lastDelta == r.delta
  {
  }

  lemma {:induction false} LastDeltaKept(events: seq<Event>, id: string)
    requires DeltasOnly(events)
    ensures var deltas := DeltasOf(events, id);
            ScopeOf(Run(events).state.scopes, id).lastDelta == if deltas == [] then ZERO else deltas[|deltas| - 1]
    decreases |events|
  {
    if events != [] {
      var before, e := events[..|events| - 1], events[|events| - 1];
      LastDeltaKept(before, id);
      assert e in events && events == before + [e];
      DeltasOne(before, e, id);
      if e.report.id == id && !IsZero(e.report) {
        LastDeltaIs(Run(before), e.report, e.ok);
      } else {
        OtherScopesStay(Run(before), e.report, e.ok, id);
      }
    }
  }

  lemma OneMoreDelta(w: World, r: Report, ok: bool, deltas: seq<Usage>, c: Counter)
    requires !IsZero(r) && r.snapshot == ZERO && NonNegative(r.delta)
    requires ScopeOf(w.state.scopes, r.id).lastDelta == if deltas == [] then ZERO else deltas[|deltas| - 1]
    requires Count(ScopeOf(w.state.scopes, r.id).usage, c) == Total(Collapsed(deltas), c) >= 0
    ensures Count(ScopeOf(Next(w, Reports(r, ok)).state.scopes, r.id).usage, c) == Total(Collapsed(deltas + [r.delta]), c) >= 0
  {
    DeltasCountExactly(w, r, ok, c);
    TotalWith(deltas, r.delta, c);
    assert Count(ZERO, c) == 0;
  }

  /** A scope that is sent deltas holds their sum, with every stretch of equal ones in a row taken once. */
  lemma {:induction false} DeltasAddUp(events: seq<Event>, id: string, c: Counter)
    requires DeltasOnly(events)
    ensures Count(ScopeOf(Run(events).state.scopes, id).usage, c) == Total(Collapsed(DeltasOf(events, id)), c) >= 0
    decreases |events|
  {
    if events == [] {
      assert Total(Collapsed(DeltasOf(events, id)), c) == 0;
    } else {
      var before, e := events[..|events| - 1], events[|events| - 1];
      DeltasAddUp(before, id, c);
      LastDeltaKept(before, id);
      assert e in events && Run(events) == Next(Run(before), e);
      if e.report.id == id && !IsZero(e.report) {
        OneMoreDelta(Run(before), e.report, e.ok, DeltasOf(before, id), c);
      } else {
        OtherScopesStay(Run(before), e.report, e.ok, id);
        assert DeltasOf(events, id) == DeltasOf(before, id);
      }
    }
  }

  /** And what is recorded in all is the sum of that over the scopes, whatever writes failed. */
  lemma DeltasAreRecorded(events: seq<Event>, c: Counter)
    requires DeltasOnly(events)
    ensures var w := Run(events);
            && w.stored(c) + Count(w.state.pending, c) == Sum(w.state.scopes, c)
            && forall id :: id in w.state.scopes ==> Count(w.state.scopes[id].usage, c) == Total(Collapsed(DeltasOf(events, id)), c)
  {
    UsageIsConserved(events, c);
    NoneDropped(events, c);
    forall id | id in Run(events).state.scopes
      ensures Count(Run(events).state.scopes[id].usage, c) == Total(Collapsed(DeltasOf(events, id)), c)
    {
      DeltasAddUp(events, id, c);
    }
  }

  lemma {:induction false} NoneDropped(events: seq<Event>, c: Counter)
    requires forall e :: e in events ==> e.Reports?
    ensures Run(events).dropped(c) == 0
    decreases |events|
  {
    if events != [] {
      assert events[|events| - 1] in events;
      NoneDropped(events[..|events| - 1], c);
    }
  }
}
