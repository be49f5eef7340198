/** How an observation of a page is shown: whole, or as what changed since the one before. */
module AxRevision {
  import opened AxListing

  datatype Entry = Added(line: Line) | Changed(line: Line) | Removed(line: Line)

  datatype Revision = Full(lines: seq<Line>) | Unchanged | Differs(entries: seq<Entry>)

  /** The text of each number; of lines with the same number, the last one's. */
  function Texts(lines: seq<Line>): map<nat, string> {
    if lines == [] then map[]
    else var last := lines[|lines| - 1]; Texts(lines[..|lines| - 1])[last.index := last.text]
  }

  /** Where each number stands; of lines with the same number, the last. */
  function Positions(lines: seq<Line>): map<nat, nat> {
    if lines == [] then map[] else Positions(lines[..|lines| - 1])[lines[|lines| - 1].index := |lines| - 1]
  }

  /** The line at a number's position is the last with that number. */
  predicate StandsAt(lines: seq<Line>, k: nat, at: nat) {
    at < |lines| && lines[at].index == k && forall i :: at < i < |lines| ==> lines[i].index != k
  }

  lemma {:induction false} PositionStands(lines: seq<Line>, k: nat)
    ensures k in Positions(lines) <==> k in Texts(lines)
    ensures k in Positions(lines) ==> StandsAt(lines, k, Positions(lines)[k]) && lines[Positions(lines)[k]].text == Texts(lines)[k]
    ensures k !in Positions(lines) ==> forall i :: 0 <= i < |lines| ==> lines[i].index != k
    decreases |lines|
  {
    if lines != [] {
      var before := lines[..|lines| - 1];
      PositionStands(before, k);
      if lines[|lines| - 1].index != k && k in Positions(before) {
        assert StandsAt(lines, k, Positions(before)[k]);
      }
    }
  }

  /** Whether the line at i is shared but has another parent, or stands before a shared line that precedes it now. */
  predicate MovedAt(previous: seq<Line>, current: seq<Line>, i: nat)
    requires i < |current|
  {
    var positions := Positions(previous);
    var k := current[i].index;
    k in positions &&
      (|| (positions[k] < |previous| && previous[positions[k]].parent != current[i].parent)
       || exists j | 0 <= j < i :: current[j].index in positions && positions[k] < positions[current[j].index])
  }

  predicate Moved(previous: seq<Line>, current: seq<Line>) {
    exists i | 0 <= i < |current| :: MovedAt(previous, current, i)
  }

  predicate Shared(previous: seq<Line>, current: seq<Line>) {
    exists i | 0 <= i < |current| :: current[i].index in Positions(previous)
  }

  /** The lines that are new or changed, in order; a number shown a second time is new. */
  function Diffs(previous: seq<Line>, current: seq<Line>): seq<Entry> {
    if current == [] then []
    else
      var (before, line) := (current[..|current| - 1], current[|current| - 1]);
      Diffs(previous, before)
      + if line.index !in Texts(previous) || line.index in Texts(before) then [Added(line)]
        else if Texts(previous)[line.index] != line.text then [Changed(line)]
        else []
  }

  function Removals(previous: seq<Line>, current: seq<Line>): seq<Entry> {
    if previous == [] then []
    else
      var line := previous[|previous| - 1];
      Removals(previous[..|previous| - 1], current) + if line.index in Texts(current) then [] else [Removed(line)]
  }

  function Revise(previous: seq<Line>, current: seq<Line>, full: bool): Revision {
    if full || Moved(previous, current) || !Shared(previous, current) then Full(current)
    else
      var entries := Diffs(previous, current) + Removals(previous, current);
      if entries == [] then Unchanged else Differs(entries)
  }

  /** renderAXRevision. */
  method RenderAXRevision(previous: seq<Line>, current: seq<Line>, forced: bool) returns (revision: Revision)
    ensures revision == Revise(previous, current, forced)
  {
    var positions: map<nat, nat> := map[];
    for i := 0 to |previous|
      invariant positions == Positions(previous[..i])
    {
      assert previous[..i + 1][..i] == previous[..i];
      positions := positions[previous[i].index := i];
    }
    assert previous[..|previous|] == previous;
    var full, shared := forced, false;
    var last: int := -1;
    for i := 0 to |current|
      invariant shared == Shared(previous, current[..i])
      invariant full == (forced || Moved(previous, current[..i]))
      invariant -1 <= last
      invariant last < 0 ==> !shared
      invariant !full && last >= 0 ==> Highest(previous, current[..i], last)
    {
      var line := current[i];
      ScanStep(previous, current, i);
      if line.index in positions {
        if !full {
          MovedAgainstHighest(previous, current, i, last);
          if positions[line.index] >= last {
            HighestGrows(previous, current, i, last);
          }
        }
        var position := positions[line.index];
        shared := true;
        full := full || position < last || previous[position].parent != line.parent;
        last := position;
      }
    }
    assert current[..|current|] == current;
    if full || !shared {
      return Full(current);
    }
    revision := ShortForm(previous, current);
  }

  /** The last shared line stands at `last`, no higher than any other. */
  ghost predicate Highest(previous: seq<Line>, current: seq<Line>, last: int) {
    var positions := Positions(previous);
    && (exists j :: 0 <= j < |current| && current[j].index in positions && positions[current[j].index] == last)
    && (forall j :: 0 <= j < |current| && current[j].index in positions ==> positions[current[j].index] <= last)
  }

  lemma ScanStep(previous: seq<Line>, current: seq<Line>, i: nat)
    requires i < |current|
    ensures current[..i + 1][..i] == current[..i]
    ensures var k := current[i].index;
            && (Shared(previous, current[..i + 1]) <==> Shared(previous, current[..i]) || k in Positions(previous))
            && (Moved(previous, current[..i + 1]) <==> Moved(previous, current[..i]) || MovedAt(previous, current, i))
  {
    var (before, upTo) := (current[..i], current[..i + 1]);
    assert forall j :: 0 <= j < i ==> upTo[j] == before[j];
    assert forall j :: 0 <= j < i ==> MovedAt(previous, upTo, j) == MovedAt(previous, before, j);
    assert MovedAt(previous, upTo, i) == MovedAt(previous, current, i);
  }

  /** Against the highest line so far one comparison tells whether the next has moved. */
  lemma MovedAgainstHighest(previous: seq<Line>, current: seq<Line>, i: nat, last: int)
    requires i < |current| && current[i].index in Positions(previous)
    requires if last >= 0 then Highest(previous, current[..i], last) else !Shared(previous, current[..i])
    ensures var at := Positions(previous)[current[i].index];
            at < |previous| && (MovedAt(previous, current, i) <==> at < last || previous[at].parent != current[i].parent)
  {
    PositionStands(previous, current[i].index);
    var (before, positions) := (current[..i], Positions(previous));
    if last >= 0 {
      var j :| 0 <= j < |before| && before[j].index in positions && positions[before[j].index] == last;
      assert current[j].index in positions;
    }
    forall j | 0 <= j < i && current[j].index in positions
      ensures last >= 0 && positions[current[j].index] <= last
    {
      assert before[j] == current[j];
    }
  }

  lemma HighestGrows(previous: seq<Line>, current: seq<Line>, i: nat, last: int)
    requires i < |current| && current[i].index in Positions(previous)
    requires if last >= 0 then Highest(previous, current[..i], last) else !Shared(previous, current[..i])
    requires Positions(previous)[current[i].index] >= last
    ensures Highest(previous, current[..i + 1], Positions(previous)[current[i].index])
  {
    var (before, upTo) := (current[..i], current[..i + 1]);
    assert upTo[i] == current[i];
    forall j | 0 <= j < i && upTo[j].index in Positions(previous)
      ensures Positions(previous)[upTo[j].index] <= Positions(previous)[current[i].index]
    {
      assert before[j] == upTo[j];
    }
  }

  /** What is added or changed, and the lines that are gone. */
  method DiffLines(previous: seq<Line>, current: seq<Line>) returns (entries: seq<Entry>, gone: map<nat, string>)
    ensures entries == Diffs(previous, current)
    ensures gone == Texts(previous) - Texts(current).Keys
  {
    gone := map[];
    for i := 0 to |previous|
      invariant gone == Texts(previous[..i])
    {
      assert previous[..i + 1][..i] == previous[..i];
      gone := gone[previous[i].index := previous[i].text];
    }
    assert previous[..|previous|] == previous;
    entries := [];
    for i := 0 to |current|
      invariant entries == Diffs(previous, current[..i])
      invariant gone == Texts(previous) - Texts(current[..i]).Keys
    {
      assert current[..i + 1][..i] == current[..i];
      var line := current[i];
      if line.index !in gone {
        entries := entries + [Added(line)];
      } else if gone[line.index] != line.text {
        entries := entries + [Changed(line)];
      }
      gone := gone - {line.index};
    }
    assert current[..|current|] == current;
  }

  /** The second half of renderAXRevision. */
  method ShortForm(previous: seq<Line>, current: seq<Line>) returns (revision: Revision)
    ensures revision == var entries := Diffs(previous, current) + Removals(previous, current);
                        if entries == [] then Unchanged else Differs(entries)
  {
    var entries, gone := DiffLines(previous, current);
    for i := 0 to |previous|
      invariant entries == Diffs(previous, current) + Removals(previous[..i], current)
    {
      assert previous[..i + 1][..i] == previous[..i];
      PositionStands(previous, previous[i].index);
      if previous[i].index in gone {
        entries := entries + [Removed(previous[i])];
      }
    }
    assert previous[..|previous|] == previous;
    return if |entries| == 0 then Unchanged else Differs(entries);
  }

  // ---- What the short form says ----

  function Apply(entries: seq<Entry>, texts: map<nat, string>): map<nat, string> {
    if entries == [] then texts
    else
      var before := Apply(entries[..|entries| - 1], texts);
      match entries[|entries| - 1]
      case Added(line) => before[line.index := line.text]
      case Changed(line) => before[line.index := line.text]
      case Removed(line) => before - {line.index}
  }

  lemma ApplyOne(entries: seq<Entry>, entry: Entry, texts: map<nat, string>)
    ensures Apply(entries + [entry], texts) == Apply([entry], Apply(entries, texts))
  {
    assert (entries + [entry])[..|entries|] == entries;
    assert [entry][..0] == [];
    assert Apply([], Apply(entries, texts)) == Apply(entries, texts);
  }

  lemma SameTextUpdatesNone(previous: map<nat, string>, current: map<nat, string>, line: Line)
    requires line.index in previous && previous[line.index] == line.text && line.index !in current
    ensures previous + current[line.index := line.text] == previous + current
  {
  }

  lemma UpdateOne(entries: seq<Entry>, entry: Entry, texts: map<nat, string>)
    requires !entry.Removed?
    ensures Apply(entries + [entry], texts) == Apply(entries, texts)[entry.line.index := entry.line.text]
  {
    ApplyOne(entries, entry, texts);
    assert [entry][..0] == [];
    assert Apply([], Apply(entries, texts)) == Apply(entries, texts);
  }

  lemma {:induction false} DiffsUpdate(previous: seq<Line>, current: seq<Line>)
    ensures Apply(Diffs(previous, current), Texts(previous)) == Texts(previous) + Texts(current)
    decreases |current|
  {
    if current != [] {
      var before, line := current[..|current| - 1], current[|current| - 1];
      var texts := Texts(previous);
      DiffsUpdate(previous, before);
      assert texts + Texts(before)[line.index := line.text] == (texts + Texts(before))[line.index := line.text];
      if line.index !in texts || line.index in Texts(before) {
        UpdateOne(Diffs(previous, before), Added(line), texts);
      } else if texts[line.index] != line.text {
        UpdateOne(Diffs(previous, before), Changed(line), texts);
      } else {
        SameTextUpdatesNone(texts, Texts(before), line);
        assert Diffs(previous, current) == Diffs(previous, before);
      }
    }
  }

  lemma {:induction false} RemovalsDrop(entries: seq<Entry>, previous: seq<Line>, current: seq<Line>, texts: map<nat, string>)
    ensures Apply(entries + Removals(previous, current), texts) == Apply(entries, texts) - (Texts(previous).Keys - Texts(current).Keys)
    decreases |previous|
  {
    if previous == [] {
      assert entries + Removals(previous, current) == entries;
    } else {
      var before, line := previous[..|previous| - 1], previous[|previous| - 1];
      RemovalsDrop(entries, before, current, texts);
      if line.index in Texts(current) {
        assert Removals(previous, current) == Removals(before, current);
      } else {
        assert entries + Removals(previous, current) == entries + Removals(before, current) + [Removed(line)];
        ApplyOne(entries + Removals(before, current), Removed(line), texts);
      }
    }
  }

  /** Whenever the short form is used, its lines turn the previous numbers and texts into the current ones. */
  lemma {:induction false} ShortFormAgrees(previous: seq<Line>, current: seq<Line>, full: bool)
    requires !Revise(previous, current, full).Full?
    ensures var entries := if Revise(previous, current, full).Differs? then Revise(previous, current, full).entries else [];
            Apply(entries, Texts(previous)) == Texts(current)
  {
    DiffsUpdate(previous, current);
    RemovalsDrop(Diffs(previous, current), previous, current, Texts(previous));
    assert Texts(previous) + Texts(current) - (Texts(previous).Keys - Texts(current).Keys) == Texts(current);
  }

  /** And then the lines that stay keep their order and their parents. */
  lemma {:induction false} ShortFormKeepsOrder(previous: seq<Line>, current: seq<Line>, full: bool, i: nat, j: nat)
    requires !Revise(previous, current, full).Full? && i <= j < |current|
    requires current[i].index in Positions(previous) && current[j].index in Positions(previous)
    ensures var (a, b) := (Positions(previous)[current[i].index], Positions(previous)[current[j].index]);
            && a <= b < |previous| && previous[a].index == current[i].index && previous[b].index == current[j].index
            && previous[b].parent == current[j].parent
  {
    PositionStands(previous, current[i].index);
    PositionStands(previous, current[j].index);
    assert !MovedAt(previous, current, j);
  }

  // ---- When nothing changed ----

  predicate Numbered(lines: seq<Line>) {
    forall i, j :: 0 <= i < j < |lines| ==> lines[i].index != lines[j].index
  }

  /** A line that differs in nothing and was not shown above. */
  predicate Stays(previous: seq<Line>, current: seq<Line>, j: nat)
    requires j < |current|
  {
    var k := current[j].index;
    k in Texts(previous) && Texts(previous)[k] == current[j].text && k !in Texts(current[..j])
  }

  lemma {:induction false} NoDiffs(previous: seq<Line>, current: seq<Line>)
    ensures Diffs(previous, current) == [] <==> (forall j :: 0 <= j < |current| ==> Stays(previous, current, j))
    decreases |current|
  {
    if current != [] {
      var n := |current| - 1;
      var before := current[..n];
      NoDiffs(previous, before);
      forall j | 0 <= j < n
        ensures Stays(previous, current, j) <==> Stays(previous, before, j)
      {
        assert current[..j] == before[..j];
      }
      assert Diffs(previous, current) == [] <==> Diffs(previous, before) == [] && Stays(previous, current, n);
    }
  }

  lemma {:induction false} NoRemovals(previous: seq<Line>, current: seq<Line>)
    ensures Removals(previous, current) == [] <==> (forall i :: 0 <= i < |previous| ==> previous[i].index in Texts(current))
    decreases |previous|
  {
    if previous != [] {
      NoRemovals(previous[..|previous| - 1], current);
    }
  }

  lemma {:induction false} NumberedStands(lines: seq<Line>, i: nat)
    requires Numbered(lines) && i < |lines|
    ensures lines[i].index in Positions(lines) && Positions(lines)[lines[i].index] == i
    ensures lines[i].index in Texts(lines) && Texts(lines)[lines[i].index] == lines[i].text
  {
    PositionStands(lines, lines[i].index);
  }

  lemma StaysDiffer(previous: seq<Line>, current: seq<Line>, i: nat, j: nat)
    requires i < j < |current| && Stays(previous, current, j)
    ensures current[i].index != current[j].index
  {
    PositionStands(current[..j], current[j].index);
    assert current[..j][i] == current[i];
  }

  /** Under an unchanged revision positions rise from line to line. */
  lemma StaysRise(previous: seq<Line>, current: seq<Line>, i: nat, j: nat)
    requires Revise(previous, current, false) == Unchanged && i < j < |current|
    requires Stays(previous, current, i) && Stays(previous, current, j)
    requires current[i].index in Positions(previous) && current[j].index in Positions(previous)
    ensures Positions(previous)[current[i].index] < Positions(previous)[current[j].index]
  {
    StaysDiffer(previous, current, i, j);
    ShortFormKeepsOrder(previous, current, false, i, j);
    var (a, b) := (Positions(previous)[current[i].index], Positions(previous)[current[j].index]);
    assert previous[a].index != previous[b].index;
  }

  lemma {:induction false} UnchangedStays(previous: seq<Line>, current: seq<Line>)
    requires Revise(previous, current, false) == Unchanged
    ensures forall j :: 0 <= j < |current| ==> Stays(previous, current, j) && current[j].index in Positions(previous)
    ensures forall i :: 0 <= i < |previous| ==> previous[i].index in Texts(current)
  {
    assert Diffs(previous, current) == [];
    NoDiffs(previous, current);
    NoRemovals(previous, current);
    forall j | 0 <= j < |current|
      ensures Stays(previous, current, j) && current[j].index in Positions(previous)
    {
      PositionStands(previous, current[j].index);
    }
  }

  /** Where a line that differs in nothing stood. */
  function StoodAt(previous: seq<Line>, line: Line): int {
    if line.index in Positions(previous) then Positions(previous)[line.index] else -1
  }

  lemma StoodInOrder(previous: seq<Line>, current: seq<Line>, i: nat, j: nat)
    requires Revise(previous, current, false) == Unchanged && i <= j < |current|
    ensures 0 <= StoodAt(previous, current[i]) <= StoodAt(previous, current[j]) < |previous|
    ensures i < j ==> StoodAt(previous, current[i]) < StoodAt(previous, current[j])
  {
    UnchangedStays(previous, current);
    PositionStands(previous, current[i].index);
    PositionStands(previous, current[j].index);
    if i < j {
      StaysRise(previous, current, i, j);
    }
  }

  lemma {:induction false} StaysInPlace(previous: seq<Line>, current: seq<Line>, j: nat)
    requires Numbered(previous) && Revise(previous, current, false) == Unchanged && j < |current|
    ensures StoodAt(previous, current[j]) == j
    decreases j
  {
    StoodInOrder(previous, current, j, j);
    if j > 0 {
      StaysInPlace(previous, current, j - 1);
      StoodInOrder(previous, current, j - 1, j);
    }
    // What stood at j stands at m now, which can be neither before j nor after it.
    var m := StandsNow(previous, current, j);
    if m < j {
      StaysInPlace(previous, current, m);
    } else {
      StoodInOrder(previous, current, j, m);
    }
  }

  /** Where the line that stood at i is now. */
  lemma StandsNow(previous: seq<Line>, current: seq<Line>, i: nat) returns (m: nat)
    requires Numbered(previous) && Revise(previous, current, false) == Unchanged && i < |previous|
    ensures m < |current| && StoodAt(previous, current[m]) == i
  {
    UnchangedStays(previous, current);
    PositionStands(current, previous[i].index);
    NumberedStands(previous, i);
    m := Positions(current)[previous[i].index];
  }

  lemma UnchangedEqual(previous: seq<Line>, current: seq<Line>)
    requires Numbered(previous) && Revise(previous, current, false) == Unchanged
    ensures previous == current
  {
    UnchangedStays(previous, current);
    forall j | 0 <= j < |current|
      ensures j < |previous| && previous[j] == current[j]
    {
      StaysInPlace(previous, current, j);
      PositionStands(previous, current[j].index);
      ShortFormKeepsOrder(previous, current, false, j, j);
    }
    if previous != [] {
      var i := |previous| - 1;
      var m := StandsNow(previous, current, i);
      StaysInPlace(previous, current, m);
    }
    assert |previous| == |current|;
  }

  /** "Unchanged" is shown exactly when the listings are equal, not empty, and the whole was not asked for. */
  lemma UnchangedExactly(previous: seq<Line>, current: seq<Line>, full: bool)
    requires Numbered(previous)
    ensures Revise(previous, current, full) == Unchanged <==> !full && previous == current && current != []
  {
    if !full && previous == current && current != [] {
      EqualIsUnchanged(previous);
    } else if Revise(previous, current, full) == Unchanged {
      UnchangedEqual(previous, current);
    }
  }

  lemma EqualIsUnchanged(lines: seq<Line>)
    requires Numbered(lines) && lines != []
    ensures Revise(lines, lines, false) == Unchanged
  {
    forall i | 0 <= i < |lines|
      ensures !MovedAt(lines, lines, i) && Stays(lines, lines, i) && lines[i].index in Texts(lines) && lines[i].index in Positions(lines)
    {
      NumberedStands(lines, i);
      PositionStands(lines, lines[i].index);
      PositionStands(lines[..i], lines[i].index);
      forall j | 0 <= j < i
        ensures lines[j].index in Positions(lines) && Positions(lines)[lines[j].index] == j
      {
        NumberedStands(lines, j);
      }
    }
    NoDiffs(lines, lines);
    NoRemovals(lines, lines);
  }

  /** A listing that repeats a number is never shown as unchanged against itself. */
  lemma RepeatsAreNeverUnchanged(lines: seq<Line>)
    requires lines != []
    ensures Revise(lines, lines, false) == Unchanged <==> Numbered(lines)
  {
    if Numbered(lines) {
      EqualIsUnchanged(lines);
    } else {
      var i, j :| 0 <= i < j < |lines| && lines[i].index == lines[j].index;
      NoDiffs(lines, lines);
      PositionStands(lines[..j], lines[j].index);
      assert lines[..j][i].index == lines[j].index;
      assert !Stays(lines, lines, j);
    }
  }
}
