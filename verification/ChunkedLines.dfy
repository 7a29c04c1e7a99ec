// A size line of exactly the limit: which cuts of a message make the decoder refuse it.

module ChunkedLines {
  import opened Bytes
  import opened ChunkedDecoder
  import opened ChunkedRuns
  import opened ChunkedClosing
  import opened ChunkedWaiting

  /** A write ended inside a line of the limit, and the output did not pause there. */
  ghost predicate CutsLine(chunks: seq<Chunk>, last: seq<byte>, actions: seq<Action>, limits: Limits) {
    exists m :: 0 <= m <= |actions| && EndsInLine(WrittenBy(actions, m), chunks, last, limits.line) && ReadyAfter(actions, limits, m)
  }

  predicate ReadyAfter(actions: seq<Action>, limits: Limits, m: nat)
    requires m <= |actions|
  {
    !Run(actions[..m], limits).last.Paused?
  }

  lemma {:induction false} WrittenIsPrefix(actions: seq<Action>, m: nat)
    requires m <= |actions|
    ensures WrittenBy(actions, m) <= Written(actions)
    decreases |actions|
  {
    if m < |actions| {
      var init := actions[..|actions| - 1];
      WrittenIsPrefix(init, m);
      assert init[..m] == actions[..m];
    } else { assert actions[..m] == actions; }
  }

  /**
   * A message with no size line above the limit, and within the other limit, cut into
   * writes: it is refused exactly if a write ends between the CR and the LF of a line that
   * is just as long as the limit, while the output does not pause. Otherwise it is decoded.
   */
  lemma LimitLineFailsExactly(chunks: seq<Chunk>, last: seq<byte>, actions: seq<Action>, limits: Limits)
    requires AreChunks(chunks) && IsLine(last, 0) && LinesFit(chunks, last, limits.line)
    requires Written(actions) == Message(chunks, last) && |Message(chunks, last)| <= limits.pending
    ensures var s := Run(actions, limits);
            && (Failed(s) <==> CutsLine(chunks, last, actions, limits)) && (Failed(s) ==> s.last.LineTooLong?)
            && (!Failed(s) && !s.last.Paused? ==> s.bodies == [Body(chunks)] && s.sent == [] && s.pending == [])
  {
    DecodeEncode(chunks, last, []);
    MessageIsWithin(chunks, last, limits.line);
    assert Written(actions) + [] == Written(actions);
    AnySplitDecodes(chunks, last, actions, limits);
    hide Run, Batch, Written, LinesWithin, Body, Wire, IsLine, LinesFit, EndsInLine, Waits;
    RunWaits(actions, limits, Written(actions), []);
    if WaitsSomewhere(actions, limits) {
      var m :| 0 <= m <= |actions| && WaitsAfter(actions, m, limits);
      WrittenIsPrefix(actions, m);
      WaitsInLine(WrittenBy(actions, m), chunks, last, limits.line);
      assert ReadyAfter(actions, limits, m);
    }
    if CutsLine(chunks, last, actions, limits) {
      var m :| 0 <= m <= |actions| && EndsInLine(WrittenBy(actions, m), chunks, last, limits.line) && ReadyAfter(actions, limits, m);
      WrittenIsPrefix(actions, m);
      WaitsInLine(WrittenBy(actions, m), chunks, last, limits.line);
      assert WaitsAfter(actions, m, limits);
    }
  }

  /** Where the writes end, counted in bytes, one of them ends inside a line of the limit. */
  ghost predicate CutInLine(chunks: seq<Chunk>, last: seq<byte>, actions: seq<Action>, limit: nat) {
    exists m :: 0 <= m <= |actions| && EndsInLine(WrittenBy(actions, m), chunks, last, limit)
  }

  lemma EndsBeforeEnd(w: seq<byte>, chunks: seq<Chunk>, last: seq<byte>, limit: nat)
    requires AreChunks(chunks) && IsLine(last, 0) && LinesFit(chunks, last, limit) && EndsInLine(w, chunks, last, limit)
    ensures w != Message(chunks, last)
  {
    DecodeEncode(chunks, last, []);
    if w == Message(chunks, last) {
      hide EndsInLine, Batch;
      WaitsInLine(w, chunks, last, limit);
      assert false;
    }
  }

  /** For a caller that waits for a pause to end, the place of the cut decides alone. */
  lemma LimitLineFailsByCut(chunks: seq<Chunk>, last: seq<byte>, actions: seq<Action>, limits: Limits)
    requires AreChunks(chunks) && IsLine(last, 0) && LinesFit(chunks, last, limits.line)
    requires Written(actions) == Message(chunks, last) && |Message(chunks, last)| <= limits.pending
    requires WritesWhenReady(actions, limits)
    ensures Failed(Run(actions, limits)) <==> CutInLine(chunks, last, actions, limits.line)
  {
    LimitLineFailsExactly(chunks, last, actions, limits);
    hide Run, Written, Wire, Message, IsLine, LinesFit, EndsInLine, WritesWhenReady;
    if CutInLine(chunks, last, actions, limits.line) {
      var m :| 0 <= m <= |actions| && EndsInLine(WrittenBy(actions, m), chunks, last, limits.line);
      var w := WrittenBy(actions, m);
      EndsBeforeEnd(w, chunks, last, limits.line);
      CutIsReady(actions, limits, w, m);
      var k :| 0 <= k <= |actions| && EndsAfter(actions, k, limits, w);
      assert WrittenBy(actions, k) == w && ReadyAfter(actions, limits, k);
    }
  }
}
