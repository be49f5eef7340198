/** Which chunks of a transcript a reader is told are one text. */
module TranscriptRuns {
  import opened Wrappers
  import opened Transcript

  /** What run ids depend on: the chunks queued and the barriers drained for. */
  datatype Step = Gives(chunk: Chunk) | Breaks

  function After(steps: seq<Step>): Ids {
    if steps == [] then EMPTY.ids
    else
      var before := After(steps[..|steps| - 1]);
      match steps[|steps| - 1]
      case Gives(chunk) => IdOf(before, chunk).0
      case Breaks => before.(open := None)
  }

  function IdAt(steps: seq<Step>, i: nat): RunId
    requires i < |steps| && steps[i].Gives?
  {
    IdOf(After(steps[..i]), steps[i].chunk).1
  }

  /** A chunk that the buffer numbers itself: of a turn, and without an id of its own. */
  predicate Counted(steps: seq<Step>, i: nat)
    requires i < |steps|
  {
    steps[i].Gives? && steps[i].chunk.upstream == "" && steps[i].chunk.turn != ""
  }

  /** The chunk goes on the text of the one at i, if it is of a turn at all. */
  predicate GoesOn(steps: seq<Step>, i: nat, m: nat)
    requires i < |steps| && m < |steps| && Counted(steps, i)
  {
    && steps[m].Gives? && steps[m].chunk.upstream == ""
    && (steps[m].chunk.turn == "" || (steps[m].chunk.turn == steps[i].chunk.turn && steps[m].chunk.kind == steps[i].chunk.kind))
  }

  predicate Unbroken(steps: seq<Step>, i: nat, j: nat)
    requires i <= j < |steps| && Counted(steps, i)
  {
    forall m :: i < m <= j ==> GoesOn(steps, i, m)
  }

  /** Turns follow one another: between two chunks of a turn there is none of another. */
  predicate TurnsInOrder(steps: seq<Step>) {
    forall a, m, b ::
      (0 <= a < m < b < |steps| && Counted(steps, a) && Counted(steps, m) && Counted(steps, b) && steps[a].chunk.turn == steps[b].chunk.turn)
      ==> steps[m].chunk.turn == steps[a].chunk.turn
  }

  lemma {:induction false} Since(steps: seq<Step>, i: nat, j: nat)
    requires i <= j < |steps| && Counted(steps, i)
    requires forall m :: i < m <= j && Counted(steps, m) ==> steps[m].chunk.turn == steps[i].chunk.turn
    ensures var (ids, id) := (After(steps[..j + 1]), IdAt(steps, i));
            && id.OfTurn? && id.turn == ids.turn == steps[i].chunk.turn && id.number <= ids.given
            && (Unbroken(steps, i, j) ==> id.number == ids.given && ids.open == Some(steps[i].chunk.kind))
            && (!Unbroken(steps, i, j) && ids.open.Some? ==> id.number < ids.given)
    decreases j
  {
    assert steps[..j + 1][..j] == steps[..j];
    if i < j {
      Since(steps, i, j - 1);
      assert Unbroken(steps, i, j) <==> Unbroken(steps, i, j - 1) && GoesOn(steps, i, j);
    }
  }

  /**
  Two chunks of a turn without ids of their own have the same run id exactly
  when no barrier, no chunk with an id and no text of the other kind came between.
  */
  lemma SameRunExactly(steps: seq<Step>, i: nat, j: nat)
    requires i < j < |steps| && Counted(steps, i) && Counted(steps, j) && TurnsInOrder(steps)
    ensures IdAt(steps, i) == IdAt(steps, j) <==> Unbroken(steps, i, j)
  {
    Since(steps, j, j);
    Since(steps, i, i);
    if steps[i].chunk.turn == steps[j].chunk.turn {
      assert forall m :: i < m < j && Counted(steps, m) ==> steps[m].chunk.turn == steps[i].chunk.turn;
      Since(steps, i, j);
      assert steps[..j + 1][..j] == steps[..j];
    } else {
      assert !GoesOn(steps, i, j);
    }
  }
}
