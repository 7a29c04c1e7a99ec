// Chunked messages whose size lines are within the limit, cut anywhere: a run over such a
// message fails exactly if a write ends where the decoder is left waiting for a line with more
// than the limit allows, and it waits so exactly behind the CR of a line of just the limit.
//
// The theorem that puts this together is in ChunkedLines.dfy.

module ChunkedWaiting {
  import opened Prelude
  import opened Bytes
  import opened ChunkedDecoder
  import opened ChunkedRuns

  // ---------------------------------------------------------------- waiting for a long line

  /** No size line in the bytes is longer than the limit. */
  predicate LinesWithin(p: seq<byte>, expected: Option<nat>, limit: nat)
    decreases |p|
  {
    match expected
    case None =>
      var i := LineEnd(p);
      i <= limit && (i < |p| && WellFormed(p[..i]) && 0 < Size(p[..i]) <= MaxSafe ==> LinesWithin(p[i + 2..], Some(Size(p[..i])), limit))
    case Some(n) => |p| >= n + 2 ==> LinesWithin(p[n + 2..], None, limit)
  }

  /** What has been read ends inside a size line, and more of it is there than the limit allows. */
  predicate LongWait(o: Outcome, limit: nat) {
    o.fate.More? && o.expected.None? && |o.rest| > limit
  }

  /** How a flush within the limit stands when it stops. */
  predicate StandsWell(f: Flushed, q: seq<byte>, limit: nat) {
    && (f.stop.LineTooLong? ==> f.expected.None? && LineEnd(f.pending) == |f.pending| > limit)
    && (f.stop.Drained? && f.expected.None? ==> |f.pending| <= limit)
    && (Goes(f.stop) ==> LinesWithin(f.pending + q, f.expected, limit))
  }

  lemma {:induction false} FlushStandsWell(p: seq<byte>, expected: Option<nat>, room: nat, limits: Limits, q: seq<byte>)
    requires LinesWithin(p + q, expected, limits.line)
    ensures StandsWell(Flush(p, expected, room, limits), q, limits.line)
    decreases |p|, 1
  {
    hide WellFormed, Size;
    if p != [] {
      if expected.Some? { FlushDataStandsWell(p, expected.value, room, limits, q); }
      else {
        var i := LineEnd(p);
        if i < |p| {
          LineEndStays(p, q);
          assert (p + q)[..i] == p[..i] && (p + q)[i + 2..] == p[i + 2..] + q;
          hide LineEnd;
          if WellFormed(p[..i]) && 0 < Size(p[..i]) <= MaxSafe { FlushDataStandsWell(p[i + 2..], Size(p[..i]), room, limits, q); }
        }
      }
    }
  }

  lemma {:induction false} FlushDataStandsWell(p: seq<byte>, n: nat, room: nat, limits: Limits, q: seq<byte>)
    requires LinesWithin(p + q, Some(n), limits.line)
    ensures StandsWell(FlushData(p, n, room, limits), q, limits.line)
    decreases |p|, 0
  {
    hide LineEnd, WellFormed, Size;
    if |p| >= n + 2 {
      assert (p + q)[n + 2..] == p[n + 2..] + q;
      if room > 0 { FlushStandsWell(p[n + 2..], None, room - 1, limits, q); }
    }
  }

  /** A flush meets the line limit exactly if it does not pause and is left waiting for a line that is too long. */
  lemma FlushWaits(p: seq<byte>, expected: Option<nat>, room: nat, limits: Limits, q: seq<byte>)
    requires LinesWithin(p + q, expected, limits.line) && |p| <= limits.pending
    ensures var f := Flush(p, expected, room, limits);
            && (f.stop.LineTooLong? <==> !f.stop.Paused? && LongWait(Batch(p, expected), limits.line))
            && !f.stop.TooMuchPending?
  {
    hide Flush, LinesWithin;
    FlushStandsWell(p, expected, room, limits, q);
    FlushRefines(p, expected, room, limits);
    FlushShrinks(p, expected, room, limits);
    var f := Flush(p, expected, room, limits);
    if f.stop.LineTooLong? { WaitsForLine(f.pending); }
    hide Batch, Flat;
  }

  lemma WaitsForLine(p: seq<byte>)
    requires LineEnd(p) == |p|
    ensures Batch(p, None) == Outcome([], More, p, None)
  {}

  // ---------------------------------------------------------------- whole runs

  /** What is still to be decoded has no line longer than the limit, and fits. */
  predicate LeavesRoom(s: State, limits: Limits, q: seq<byte>) {
    s.bodies == [] ==> LinesWithin(s.pending + q, s.expected, limits.line) && |s.pending| + |q| <= limits.pending
  }

  predicate Waits(w: seq<byte>, limit: nat) {
    LongWait(Batch(w, None), limit)
  }

  lemma WaitingStep(s: State, a: Action, limits: Limits, q: seq<byte>)
    requires Inv(s, limits) && !Failed(s) && s.bodies == []
    requires LeavesRoom(s, limits, (if a.Write? then a.chunk else []) + q)
    requires !Step(s, a, limits).last.BadLine?
    ensures var t := Step(s, a, limits);
            && (Failed(t) <==> !t.last.Paused? && Waits(s.fed + (if a.Write? then a.chunk else []), limits.line))
            && (Failed(t) ==> t.last.LineTooLong?) && (!Failed(t) ==> LeavesRoom(t, limits, q))
  {
    var chunk := if a.Write? then a.chunk else [];
    var p := s.pending + chunk;
    assert s.pending + (chunk + q) == p + q;
    assert !a.Write? ==> p == s.pending && s.fed + chunk == s.fed;
    if a.Write? { FeedingKeeps(s, a.chunk); }
    FlushWaits(p, s.expected, a.room, limits, q);
    FlushStandsWell(p, s.expected, a.room, limits, q);
    FlushShrinks(p, s.expected, a.room, limits);
    hide Flush, LinesWithin, Batch, LineEnd;
  }

  /** A write ended where the decoder waits for a line that is too long, and the output did not pause there. */
  ghost predicate WaitsSomewhere(actions: seq<Action>, limits: Limits) {
    exists m :: 0 <= m <= |actions| && WaitsAfter(actions, m, limits)
  }

  predicate WaitsAfter(actions: seq<Action>, m: nat, limits: Limits)
    requires m <= |actions|
  {
    Waits(Written(actions[..m]), limits.line) && !Run(actions[..m], limits).last.Paused?
  }

  lemma WaitsAtLast(actions: seq<Action>, limits: Limits)
    requires actions != []
    ensures WaitsSomewhere(actions, limits) <==>
              WaitsSomewhere(actions[..|actions| - 1], limits)
              || (Waits(Written(actions), limits.line) && !Run(actions, limits).last.Paused?)
  {
    hide Written, Run, Waits;
    var before := actions[..|actions| - 1];
    assert actions[..|actions|] == actions;
    if WaitsSomewhere(actions, limits) {
      var m :| 0 <= m <= |actions| && WaitsAfter(actions, m, limits);
      if m < |actions| { assert before[..m] == actions[..m]; assert WaitsAfter(before, m, limits); }
    }
    if WaitsSomewhere(before, limits) {
      var m :| 0 <= m <= |before| && WaitsAfter(before, m, limits);
      assert before[..m] == actions[..m];
      assert WaitsAfter(actions, m, limits);
    }
    if Waits(Written(actions), limits.line) && !Run(actions, limits).last.Paused? { assert WaitsAfter(actions, |actions|, limits); }
  }

  /** It failed exactly if it was left waiting so. */
  predicate FailsByWaiting(s: State, waits: bool) {
    (Failed(s) <==> waits) && (Failed(s) ==> s.last.LineTooLong?)
  }

  lemma EndedStep(s: State, a: Action, limits: Limits)
    requires !Failed(s) && s.bodies != [] && s.pending == [] && s.expected.None? && (a.Write? ==> a.chunk == [])
    ensures !Failed(Step(s, a, limits)) && Step(s, a, limits).bodies != []
  {
    FlushOfEmpty(None, a.room, limits);
    hide Flush;
  }

  lemma {:induction false} RunWaits(actions: seq<Action>, limits: Limits, total: seq<byte>, q: seq<byte>)
    requires Batch(total, None).fate == Ended && Batch(total, None).rest == []
    requires total == Written(actions) + q && LinesWithin(total, None, limits.line) && |total| <= limits.pending
    ensures FailsByWaiting(Run(actions, limits), WaitsSomewhere(actions, limits))
    ensures !Failed(Run(actions, limits)) ==> LeavesRoom(Run(actions, limits), limits, q)
  {
    hide Batch, LinesWithin, Step, Midway, WaitsSomewhere, Inv, LeavesRoom;
    if actions == [] {
      NothingWaits(limits);
      NothingLeavesRoom(limits, total, q);
    } else {
      var before, a := actions[..|actions| - 1], actions[|actions| - 1];
      var more := if a.Write? then a.chunk else [];
      assert Written(before) + (more + q) == (Written(before) + more) + q;
      RunWaits(before, limits, total, more + q);
      MidwayRun(actions, limits, total, q);
      MidwayRun(before, limits, total, more + q);
      RunKeepsInv(before, limits);
      WaitsAtLast(actions, limits);
      OneStepWaits(Run(before, limits), a, limits, Written(before), total, q);
    }
  }

  lemma NothingWaits(limits: Limits)
    ensures !WaitsSomewhere([], limits) && !Failed(Run([], limits))
  {
    var none: seq<Action> := [];
    forall m: nat | m <= |none| ensures !WaitsAfter(none, m, limits) { assert none[..m] == none; BatchOfNothing(); }
  }

  lemma NothingLeavesRoom(limits: Limits, total: seq<byte>, q: seq<byte>)
    requires total == Written([]) + q && LinesWithin(total, None, limits.line) && |total| <= limits.pending
    ensures LeavesRoom(Run([], limits), limits, q)
  {
    assert total == q && Initial.pending + q == q;
  }

  lemma OneStepWaits(s: State, a: Action, limits: Limits, w: seq<byte>, total: seq<byte>, q: seq<byte>)
    requires Batch(total, None).fate == Ended
    requires total == w + ((if a.Write? then a.chunk else []) + q) && Inv(s, limits)
    requires !Failed(s) ==> Midway(s, w, total) && LeavesRoom(s, limits, (if a.Write? then a.chunk else []) + q)
    requires !Step(s, a, limits).last.BadLine?
    ensures var t := Step(s, a, limits);
            && (!Failed(s) ==> (Failed(t) <==> Waits(w + (if a.Write? then a.chunk else []), limits.line) && !t.last.Paused?))
            && (!Failed(s) && Failed(t) ==> t.last.LineTooLong?)
            && (Failed(s) ==> t == s) && (!Failed(t) ==> LeavesRoom(t, limits, q))
  {
    hide Batch, LinesWithin, Step, Inv;
    if Failed(s) { StepOfFailed(s, a, limits); }
    else if s.bodies == [] { WaitingStep(s, a, limits, q); }
    else {
      var chunk := if a.Write? then a.chunk else [];
      assert |chunk| == 0 && |q| == 0 && w + chunk == total;
      EndedStep(s, a, limits);
    }
  }

  // ---------------------------------------------------------------- messages

  /** The size line of chunk c, or of the end behind them all. */
  function LineAt(chunks: seq<Chunk>, last: seq<byte>, c: nat): seq<byte>
    requires c <= |chunks|
  {
    if c < |chunks| then chunks[c].line else last
  }

  predicate LinesFit(chunks: seq<Chunk>, last: seq<byte>, limit: nat) {
    forall c :: 0 <= c <= |chunks| ==> |LineAt(chunks, last, c)| <= limit
  }

  /** The bytes end between the CR and the LF of a size line that is just as long as the limit. */
  ghost predicate EndsInLine(w: seq<byte>, chunks: seq<Chunk>, last: seq<byte>, limit: nat) {
    exists c :: 0 <= c <= |chunks| && EndsInLineOf(w, chunks, last, limit, c)
  }

  predicate EndsInLineOf(w: seq<byte>, chunks: seq<Chunk>, last: seq<byte>, limit: nat, c: nat)
    requires c <= |chunks|
  {
    |LineAt(chunks, last, c)| == limit && w == Wire(chunks[..c]) + (LineAt(chunks, last, c) + [CR])
  }

  function Message(chunks: seq<Chunk>, last: seq<byte>): seq<byte> {
    Wire(chunks) + (last + [CR, LF] + [])
  }

  lemma MessageIs(chunks: seq<Chunk>, last: seq<byte>)
    ensures chunks == [] ==> Message(chunks, last) == last + [CR, LF]
    ensures chunks != [] ==>
              var c := chunks[0];
              Message(chunks, last) == c.line + [CR, LF] + (c.data + c.tail + Message(chunks[1..], last))
  {}

  lemma WithinLine(line: seq<byte>, size: nat, more: seq<byte>, limit: nat)
    requires IsLine(line, size) && |line| <= limit && (size > 0 ==> LinesWithin(more, Some(size), limit))
    ensures LinesWithin(line + [CR, LF] + more, None, limit)
  {
    var p := line + [CR, LF];
    LineEndStays(p, more);
    hide LineEnd, WellFormed, Size;
    assert (p + more)[..|line|] == line && (p + more)[|line| + 2..] == more;
  }

  lemma FitBehind(chunks: seq<Chunk>, last: seq<byte>, limit: nat)
    requires chunks != [] && LinesFit(chunks, last, limit)
    ensures LinesFit(chunks[1..], last, limit) && |chunks[0].line| <= limit
  {
    forall c | 0 <= c <= |chunks| - 1 ensures |LineAt(chunks[1..], last, c)| <= limit {
      assert LineAt(chunks[1..], last, c) == LineAt(chunks, last, c + 1);
    }
    assert LineAt(chunks, last, 0) == chunks[0].line;
  }

  lemma {:induction false} MessageIsWithin(chunks: seq<Chunk>, last: seq<byte>, limit: nat)
    requires AreChunks(chunks) && IsLine(last, 0) && LinesFit(chunks, last, limit)
    ensures LinesWithin(Message(chunks, last), None, limit)
  {
    hide LineEnd, WellFormed, Size, IsLine;
    MessageIs(chunks, last);
    if chunks == [] {
      assert |LineAt(chunks, last, 0)| <= limit;
      WithinLine(last, 0, [], limit);
      assert last + [CR, LF] + [] == last + [CR, LF];
    } else {
      var c := chunks[0];
      FitBehind(chunks, last, limit);
      MessageIsWithin(chunks[1..], last, limit);
      var rest := c.data + c.tail + Message(chunks[1..], last);
      assert rest[|c.data| + 2..] == Message(chunks[1..], last);
      WithinLine(c.line, |c.data|, rest, limit);
    }
  }

  lemma NoEndYet(line: seq<byte>, w: seq<byte>)
    requires LineEnd(line + [CR, LF]) == |line| && w <= line + [CR, LF] && |w| < |line| + 2
    ensures LineEnd(w) == |w|
  {
    hide LineEnd;
    var p := line + [CR, LF];
    var q := p[|w|..];
    assert w + q == p;
    if LineEnd(w) < |w| {
      LineEndStays(w, q);
      assert false;
    }
  }

  /** A beginning of a line and its CR LF, without its LF. */
  lemma LineBegun(line: seq<byte>, size: nat, w: seq<byte>)
    requires IsLine(line, size) && w <= line + [CR, LF] && |w| < |line| + 2
    ensures Batch(w, None) == Outcome([], More, w, None)
  {
    NoEndYet(line, w);
    hide WellFormed, Size, LineEnd, IsLine;
  }

  lemma PrefixParts(a: seq<byte>, b: seq<byte>, w: seq<byte>)
    requires w <= a + b
    ensures |w| <= |a| ==> w <= a
    ensures |w| >= |a| ==> w == a + w[|a|..] && w[|a|..] <= b
  {}

  /** Bytes of a message leave the decoder waiting for a line that is too long exactly if they end in one of the limit. */
  lemma {:induction false} WaitsInLine(w: seq<byte>, chunks: seq<Chunk>, last: seq<byte>, limit: nat)
    requires AreChunks(chunks) && IsLine(last, 0) && LinesFit(chunks, last, limit) && w <= Message(chunks, last)
    ensures Waits(w, limit) <==> EndsInLine(w, chunks, last, limit)
    decreases |chunks|, 1
  {
    hide IsLine, Batch, Wire, LinesFit, Message, EndsInLine;
    MessageIs(chunks, last);
    var line := LineAt(chunks, last, 0);
    assert |line| <= limit by { FitsFirst(chunks, last, limit); }
    var head := line + [CR, LF];
    var rest := if chunks == [] then [] else chunks[0].data + chunks[0].tail + Message(chunks[1..], last);
    assert Message(chunks, last) == head + rest;
    PrefixParts(head, rest, w);
    if |w| < |head| {
      LineBegun(line, if chunks == [] then 0 else |chunks[0].data|, w);
      EndsInFirst(w, chunks, last, limit);
    } else if chunks == [] {
      LineIsRead(last, 0, []);
      assert head + [] == head && w == head;
      EndsBehindFirst(w, chunks, last, limit);
    } else {
      WaitsBehindFirst(w, w[|head|..], chunks, last, limit);
    }
  }

  lemma FitsFirst(chunks: seq<Chunk>, last: seq<byte>, limit: nat)
    requires LinesFit(chunks, last, limit)
    ensures |LineAt(chunks, last, 0)| <= limit
  {}

  lemma WireOfSome(chunks: seq<Chunk>, c: nat)
    requires c <= |chunks| && AreChunks(chunks)
    ensures c == 0 ==> Wire(chunks[..c]) == []
    ensures c > 0 ==> Wire(chunks[..c]) == chunks[0].line + [CR, LF] + chunks[0].data + chunks[0].tail + Wire(chunks[1..][..c - 1])
  {
    if c > 0 { assert chunks[..c][1..] == chunks[1..][..c - 1] && chunks[..c][0] == chunks[0]; }
  }

  /** In front of the first LF. */
  lemma EndsInFirst(w: seq<byte>, chunks: seq<Chunk>, last: seq<byte>, limit: nat)
    requires AreChunks(chunks) && w <= LineAt(chunks, last, 0) + [CR, LF] && |w| < |LineAt(chunks, last, 0)| + 2
    requires |LineAt(chunks, last, 0)| <= limit
    ensures |w| > limit <==> EndsInLine(w, chunks, last, limit)
  {
    hide Wire;
    var line := LineAt(chunks, last, 0);
    WireOfSome(chunks, 0);
    if |w| > limit {
      assert w == line + [CR] && [] + (line + [CR]) == line + [CR];
      assert EndsInLineOf(w, chunks, last, limit, 0);
    }
    if c :| 0 <= c <= |chunks| && EndsInLineOf(w, chunks, last, limit, c) {
      WireOfSome(chunks, c);
      assert c == 0;
    }
  }

  lemma EndsBehindFirst(w: seq<byte>, chunks: seq<Chunk>, last: seq<byte>, limit: nat)
    requires chunks == [] && |w| == |last| + 2
    ensures !EndsInLine(w, chunks, last, limit)
  {
    forall c: nat | c <= |chunks| ensures !EndsInLineOf(w, chunks, last, limit, c) { assert chunks[..c] == []; }
  }

  lemma WaitsBehindFirst(w: seq<byte>, v: seq<byte>, chunks: seq<Chunk>, last: seq<byte>, limit: nat)
    requires AreChunks(chunks) && chunks != [] && IsLine(last, 0) && LinesFit(chunks, last, limit)
    requires w == chunks[0].line + [CR, LF] + v && v <= chunks[0].data + chunks[0].tail + Message(chunks[1..], last)
    ensures Waits(w, limit) <==> EndsInLine(w, chunks, last, limit)
    decreases |chunks|, 0
  {
    hide IsLine, Batch, Wire, LinesFit, Message, EndsInLine;
    var c := chunks[0];
    var n := |c.data|;
    LineIsRead(c.line, n, v);
    DataIsRead(v, n);
    PrefixParts(c.data + c.tail, Message(chunks[1..], last), v);
    if |v| < n + 2 { EndsInData(w, chunks, last, limit); }
    else {
      var u := v[n + 2..];
      assert v == c.data + c.tail + u;
      FitBehind(chunks, last, limit);
      WaitsInLine(u, chunks[1..], last, limit);
      EndsBehind(w, u, chunks, last, limit);
    }
  }

  lemma DataIsRead(v: seq<byte>, n: nat)
    ensures |v| < n + 2 ==> Batch(v, Some(n)) == Outcome([], More, v, Some(n))
    ensures |v| >= n + 2 ==> Batch(v, Some(n)) == Then(v[..n], Batch(v[n + 2..], None))
  {}

  lemma EndsInData(w: seq<byte>, chunks: seq<Chunk>, last: seq<byte>, limit: nat)
    requires AreChunks(chunks) && chunks != []
    requires |chunks[0].line| + 2 <= |w| < |chunks[0].line| + 2 + |chunks[0].data| + 2
    ensures !EndsInLine(w, chunks, last, limit)
  {
    hide Wire, IsLine;
    forall c: nat | c <= |chunks| ensures !EndsInLineOf(w, chunks, last, limit, c) {
      assert IsChunk(chunks[0]);
      WireOfSome(chunks, c);
    }
  }

  lemma EndsBehind(w: seq<byte>, u: seq<byte>, chunks: seq<Chunk>, last: seq<byte>, limit: nat)
    requires AreChunks(chunks) && chunks != []
    requires w == chunks[0].line + [CR, LF] + (chunks[0].data + chunks[0].tail + u)
    ensures EndsInLine(w, chunks, last, limit) <==> EndsInLine(u, chunks[1..], last, limit)
  {
    hide Wire, IsLine;
    var front := chunks[0].line + [CR, LF] + chunks[0].data + chunks[0].tail;
    assert w == front + u && |front| == |chunks[0].line| + 2 + |chunks[0].data| + 2 by { assert IsChunk(chunks[0]); }
    if c :| 0 <= c <= |chunks| && EndsInLineOf(w, chunks, last, limit, c) {
      WireOfSome(chunks, c);
      assert c > 0;
      var line := LineAt(chunks, last, c);
      assert LineAt(chunks[1..], last, c - 1) == line;
      assert front + u == front + (Wire(chunks[1..][..c - 1]) + (line + [CR]));
      Cancel(front, u, Wire(chunks[1..][..c - 1]) + (line + [CR]));
      assert EndsInLineOf(u, chunks[1..], last, limit, c - 1);
    }
    if c :| 0 <= c <= |chunks[1..]| && EndsInLineOf(u, chunks[1..], last, limit, c) {
      WireOfSome(chunks, c + 1);
      assert LineAt(chunks[1..], last, c) == LineAt(chunks, last, c + 1);
      assert EndsInLineOf(w, chunks, last, limit, c + 1);
    }
  }

  lemma Cancel(front: seq<byte>, a: seq<byte>, b: seq<byte>)
    requires front + a == front + b
    ensures a == b
  {
    assert a == (front + a)[|front|..] && b == (front + b)[|front|..];
  }
}
