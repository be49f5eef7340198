/** How an interrupted turn goes on after a restart, from the stored turn alone. */
module Recovery {
  import opened Wrappers
  import opened Turns

  const CONTINUATION := "Continue from where you left off."
  const COMPACT_COMMAND := "/compact"

  datatype Resumption = Unconfirmed | Resumes(request: TurnRequest)

  /**
  ResumeInterruptedTurn. The parts of the message are what the program joins
  with blank lines. A prompt that was being sent and never confirmed is left to
  the person; a compaction is redone unless messages steered into it wait.
  */
  function Resume(stored: Option<StoredTurn>): Resumption {
    match stored
    case None => Resumes(TurnRequest([CONTINUATION], 0, false, false, false))
    case Some(turn) =>
      if !turn.compacting && turn.prompt.Some? && turn.prompt.value.state == Sending then Unconfirmed
      else if turn.compacting && turn.steers == [] then Resumes(TurnRequest([COMPACT_COMMAND], 0, true, false, false))
      else
        var unsent := turn.prompt.Some? && turn.prompt.value.state == Unset;
        var first := if turn.compacting then [] else if unsent then turn.prompt.value.message else [CONTINUATION];
        Resumes(TurnRequest(first + turn.steers, turn.retries, false, turn.allowSilence, false))
  }

  /** The same, as the program builds the message part by part. */
  method ResumeInterruptedTurn(stored: Option<StoredTurn>) returns (result: Resumption)
    ensures result == Resume(stored)
  {
    var request := TurnRequest([CONTINUATION], 0, false, false, false);
    if stored.Some? {
      var turn := stored.value;
      var unsent := turn.prompt.Some? && turn.prompt.value.state == Unset;
      if !turn.compacting && turn.prompt.Some? && turn.prompt.value.state == Sending {
        return Unconfirmed;
      }
      if turn.compacting && |turn.steers| == 0 {
        return Resumes(TurnRequest([COMPACT_COMMAND], 0, true, false, false));
      }
      var parts := [];
      if turn.compacting {
      } else if unsent {
        parts := turn.prompt.value.message;
      } else {
        parts := [CONTINUATION];
      }
      ghost var first := parts;
      for i := 0 to |turn.steers|
        invariant parts == first + turn.steers[..i]
      {
        parts := parts + [turn.steers[i]];
      }
      assert turn.steers[..|turn.steers|] == turn.steers;
      request := request.(message := parts, retries := turn.retries, allowSilence := turn.allowSilence);
    }
    return Resumes(request);
  }
}
