// Two questions about cut messages. Which limits are never met: a message whose size lines
// are short and that fits the limit for kept bytes is decoded however it is cut. And what
// becomes of the empty line that closes a chunked message behind its last-chunk line: it
// is dropped, or found malformed, depending on where the writes end.

module ChunkedClosing {
  import opened Prelude
  import opened Bytes
  import opened ChunkedDecoder
  import opened ChunkedRuns

  // ---------------------------------------------------------------- within the limits

  /** Every size line in the bytes is shorter than the limit. */
  predicate ShortLines(p: seq<byte>, expected: Option<nat>, limit: nat)
    decreases |p|
  {
    match expected
    case None =>
      var i := LineEnd(p);
      i < limit && (i < |p| && WellFormed(p[..i]) && 0 < Size(p[..i]) <= MaxSafe ==> ShortLines(p[i + 2..], Some(Size(p[..i])), limit))
    case Some(n) => |p| >= n + 2 ==> ShortLines(p[n + 2..], None, limit)
  }

  lemma LineIsShort(line: seq<byte>, size: nat, more: seq<byte>, limit: nat)
    requires IsLine(line, size) && |line| < limit && (size > 0 ==> ShortLines(more, Some(size), limit))
    ensures ShortLines(line + [CR, LF] + more, None, limit)
  {
    var p := line + [CR, LF];
    LineEndStays(p, more);
    hide LineEnd, WellFormed, Size;
    assert (p + more)[..|line|] == line && (p + more)[|line| + 2..] == more;
  }

  lemma {:induction false} WireIsShort(chunks: seq<Chunk>, last: seq<byte>, limit: nat)
    requires AreChunks(chunks) && IsLine(last, 0) && |last| < limit
    requires forall i :: 0 <= i < |chunks| ==> |chunks[i].line| < limit
    ensures ShortLines(Wire(chunks) + (last + [CR, LF] + []), None, limit)
  {
    hide LineEnd, WellFormed, Size, IsLine;
    var w := last + [CR, LF] + [];
    if chunks == [] {
      assert Wire(chunks) + w == w;
      LineIsShort(last, 0, [], limit);
    } else {
      var c := chunks[0];
      var after := Wire(chunks[1..]) + w;
      var rest := c.data + c.tail + after;
      assert rest[|c.data| + 2..] == after;
      assert Wire(chunks) + w == c.line + [CR, LF] + rest;
      WireIsShort(chunks[1..], last, limit);
      LineIsShort(c.line, |c.data|, rest, limit);
    }
  }

  /** A flush of a part of such bytes meets no line limit and leaves such bytes. */
  lemma {:induction false} FlushOfShort(p: seq<byte>, expected: Option<nat>, room: nat, limits: Limits, q: seq<byte>)
    requires ShortLines(p + q, expected, limits.line)
    ensures var f := Flush(p, expected, room, limits);
            !f.stop.LineTooLong? && (Goes(f.stop) ==> ShortLines(f.pending + q, f.expected, limits.line))
    decreases |p|, 1
  {
    hide WellFormed, Size;
    if p != [] {
      if expected.Some? { FlushDataOfShort(p, expected.value, room, limits, q); }
      else {
        var i := LineEnd(p);
        if i < |p| {
          LineEndStays(p, q);
          assert (p + q)[..i] == p[..i] && (p + q)[i + 2..] == p[i + 2..] + q;
          hide LineEnd;
          if WellFormed(p[..i]) && 0 < Size(p[..i]) <= MaxSafe { FlushDataOfShort(p[i + 2..], Size(p[..i]), room, limits, q); }
        } else { LineEndGrows(p, q); }
      }
    }
  }

  lemma LineEndGrows(p: seq<byte>, q: seq<byte>)
    requires LineEnd(p) == |p|
    ensures |p| <= LineEnd(p + q) + 1
  {
    var j := LineEnd(p + q);
    assert forall k :: 0 <= k < |p| ==> (p + q)[k] == p[k];
  }

  lemma {:induction false} FlushDataOfShort(p: seq<byte>, n: nat, room: nat, limits: Limits, q: seq<byte>)
    requires ShortLines(p + q, Some(n), limits.line)
    ensures var f := FlushData(p, n, room, limits);
            !f.stop.LineTooLong? && (Goes(f.stop) ==> ShortLines(f.pending + q, f.expected, limits.line))
    decreases |p|, 0
  {
    hide LineEnd, WellFormed, Size;
    if |p| >= n + 2 {
      assert (p + q)[n + 2..] == p[n + 2..] + q;
      if room > 0 { FlushOfShort(p[n + 2..], None, room - 1, limits, q); }
    }
  }

  /** What has been decoded so far leaves room for the rest. */
  predicate HasRoom(s: State, limits: Limits, q: seq<byte>) {
    !Failed(s) && (s.bodies == [] ==> ShortLines(s.pending + q, s.expected, limits.line) && |s.pending| + |q| <= limits.pending)
  }

  lemma StepHasRoom(s: State, a: Action, limits: Limits, q: seq<byte>)
    requires HasRoom(s, limits, (if a.Write? then a.chunk else []) + q) && s.bodies == []
    ensures var t := Step(s, a, limits); t.last.BadLine? || HasRoom(t, limits, q)
  {
    var chunk := if a.Write? then a.chunk else [];
    var p := s.pending + chunk;
    assert s.pending + (chunk + q) == p + q;
    assert !a.Write? ==> p == s.pending;
    FlushOfShort(p, s.expected, a.room, limits, q);
    FlushShrinks(p, s.expected, a.room, limits);
    hide Flush, ShortLines;
  }

  lemma RoomStep(s: State, a: Action, limits: Limits, w: seq<byte>, total: seq<byte>, q: seq<byte>)
    requires HasRoom(s, limits, (if a.Write? then a.chunk else []) + q) && Midway(s, w, total)
    requires total == w + ((if a.Write? then a.chunk else []) + q) && !Step(s, a, limits).last.BadLine?
    ensures HasRoom(Step(s, a, limits), limits, q)
  {
    hide Batch, ShortLines, Step;
    if s.bodies == [] { StepHasRoom(s, a, limits, q); }
    else { assert |(if a.Write? then a.chunk else [])| == 0 && |q| == 0; EndedHasRoom(s, a, limits); }
  }

  lemma {:induction false} RunHasRoom(actions: seq<Action>, limits: Limits, total: seq<byte>, q: seq<byte>)
    requires Batch(total, None).fate == Ended && Batch(total, None).rest == []
    requires total == Written(actions) + q && ShortLines(total, None, limits.line) && |total| <= limits.pending
    ensures HasRoom(Run(actions, limits), limits, q)
  {
    hide Batch, ShortLines, Step, Midway;
    if actions == [] { assert total == q && Initial.pending + q == q; }
    else {
      var before, a := actions[..|actions| - 1], actions[|actions| - 1];
      var more := if a.Write? then a.chunk else [];
      assert Written(before) + (more + q) == (Written(before) + more) + q;
      RunHasRoom(before, limits, total, more + q);
      MidwayRun(actions, limits, total, q);
      MidwayRun(before, limits, total, more + q);
      RoomStep(Run(before, limits), a, limits, Written(before), total, q);
    }
  }

  lemma EndedHasRoom(s: State, a: Action, limits: Limits)
    requires !Failed(s) && s.bodies != [] && s.pending == [] && s.expected.None? && (a.Write? ==> a.chunk == [])
    ensures HasRoom(Step(s, a, limits), limits, [])
  {
    FlushOfEmpty(None, a.room, limits);
    hide Flush;
  }

  lemma RunStep(actions: seq<Action>, limits: Limits)
    requires actions != []
    ensures Run(actions, limits) == Step(Run(actions[..|actions| - 1], limits), actions[|actions| - 1], limits)
  {}

  /**
   * With every size line shorter than its limit, and the whole message within the other, no
   * cut and no pause makes the decoder fail: as soon as it is idle the body and its end are out.
   */
  lemma ShortMessagesDecode(chunks: seq<Chunk>, last: seq<byte>, actions: seq<Action>, limits: Limits)
    requires AreChunks(chunks) && IsLine(last, 0)
    requires Written(actions) == Wire(chunks) + (last + [CR, LF] + [])
    requires |last| < limits.line && (forall i :: 0 <= i < |chunks| ==> |chunks[i].line| < limits.line)
    requires |Written(actions)| <= limits.pending
    ensures var s := Run(actions, limits);
            && !Failed(s)
            && (!s.last.Paused? ==> s.bodies == [Body(chunks)] && s.sent == [] && s.pending == [])
  {
    DecodeEncode(chunks, last, []);
    WireIsShort(chunks, last, limits.line);
    assert Written(actions) + [] == Written(actions);
    hide Run, Batch, Written, ShortLines, Body, Wire, IsLine;
    RunHasRoom(actions, limits, Written(actions), []);
    AnySplitDecodes(chunks, last, actions, limits);
  }

  // ---------------------------------------------------------------- bytes behind the end

  /** Whatever follows the last-chunk line in the bytes at hand is dropped with it. */
  lemma BytesBehindEndAreDropped(last: seq<byte>, more: seq<byte>, room: nat, limits: Limits)
    requires IsLine(last, 0) && |last| <= limits.line
    ensures Flush(last + [CR, LF] + more, None, room, limits) == Flushed([], [], None, Finished)
  {
    var p := last + [CR, LF];
    LineEndStays(p, more);
    assert (p + more)[..|last|] == last;
  }

  function Behind(bodies: seq<seq<byte>>, s: State): State {
    s.(bodies := bodies + s.bodies)
  }

  /** After an end the decoder starts afresh: what comes later is decoded as if it came first. */
  lemma {:induction false} StartsAfresh(actions: seq<Action>, more: seq<Action>, limits: Limits)
    requires Run(actions, limits).last.Finished? && more != []
    ensures Run(actions + more, limits) == Behind(Run(actions, limits).bodies, Run(more, limits))
  {
    var before, a := more[..|more| - 1], more[|more| - 1];
    var bodies := Run(actions, limits).bodies;
    assert (actions + more)[..|actions + more| - 1] == actions + before && (actions + more)[|actions + more| - 1] == a;
    hide Run, Flush, Flat;
    RunStep(actions + more, limits);
    RunStep(more, limits);
    if before == [] {
      assert actions + before == actions;
      EndIsClean(actions, limits);
      FreshRun(limits);
      StepBehind(bodies, Initial, Finished, a, limits);
      assert Behind(bodies, Initial).(last := Finished) == Run(actions, limits);
    } else {
      StartsAfresh(actions, before, limits);
      var s := Run(before, limits);
      StepBehind(bodies, s, s.last, a, limits);
      assert Behind(bodies, s).(last := s.last) == Behind(bodies, s);
    }
  }

  lemma FreshRun(limits: Limits)
    ensures Run([], limits) == Initial
  {}

  lemma StepBehind(bodies: seq<seq<byte>>, s: State, last: Stop, a: Action, limits: Limits)
    requires last == s.last || (last.Finished? && s.last.Drained?)
    ensures last == s.last || !Failed(s) ==>
              Step(Behind(bodies, s).(last := last), a, limits) == Behind(bodies, Step(s, a, limits))
  {
    hide Flush, Flat;
    var p := if a.Write? then s.pending + a.chunk else s.pending;
    var sent := s.sent + Flat(Flush(p, s.expected, a.room, limits).out);
    assert bodies + s.bodies + [sent] == bodies + (s.bodies + [sent]);
  }

  lemma {:induction false} EndIsClean(actions: seq<Action>, limits: Limits)
    requires Run(actions, limits).last.Finished?
    ensures var s := Run(actions, limits); s.pending == [] && s.expected.None? && s.fed == [] && s.sent == []
  {
    if actions != [] {
      var before, a := actions[..|actions| - 1], actions[|actions| - 1];
      var s := Run(before, limits);
      var p := if a.Write? then s.pending + a.chunk else s.pending;
      hide Flush, Flat;
      FlushShrinks(p, s.expected, a.room, limits);
    }
  }

  // ---------------------------------------------------------------- the closing line

  const Closing: seq<byte> := [CR, LF]

  predicate LimitMet(s: State) {
    s.last.LineTooLong? || s.last.TooMuchPending?
  }

  /** What the decoder makes of the closing bytes that reach it after the end. */
  predicate Reads(s: State, z: seq<byte>, body: seq<byte>) {
    && s.bodies == [body]
    && if z == Closing then s.last.BadLine? else s.pending == z && s.expected.None? && (s.last.Drained? || s.last.Finished?)
  }

  /** No end yet, or an end behind which `n` closing bytes were dropped. */
  predicate Stands(s: State, w: seq<byte>, message: seq<byte>, body: seq<byte>, n: Option<nat>) {
    match n
    case None => s.bodies == [] && s.fed == w && !Failed(s) && (|w| >= |message| ==> s.last.Paused?)
    case Some(k) => k <= 2 && |w| >= |message| + k && Reads(s, w[|message| + k..], body)
  }

  lemma ReadsOn(s: State, a: Action, limits: Limits, z: seq<byte>, body: seq<byte>, k: nat)
    requires Reads(s, z, body) && k <= 2
    requires var chunk := if a.Write? then a.chunk else []; z + chunk <= Closing[k..]
    requires !LimitMet(Step(s, a, limits))
    ensures Reads(Step(s, a, limits), z + (if a.Write? then a.chunk else []), body)
  {
    var chunk := if a.Write? then a.chunk else [];
    var p := z + chunk;
    if s.last.BadLine? { assert p == z; }
    else {
      assert p == if a.Write? then s.pending + a.chunk else s.pending;
      FlushOfClosing(p, a.room, limits, k);
      hide Flush;
      assert s.sent + Flat([]) == s.sent;
    }
  }

  lemma FlushOfClosing(p: seq<byte>, room: nat, limits: Limits, k: nat)
    requires k <= 2 && p <= Closing[k..]
    ensures var f := Flush(p, None, room, limits);
            if p == Closing then f.stop.BadLine? else f.stop.LineTooLong? || f == Flushed([], p, None, Drained)
  {
    if p != [] && p != Closing { assert |p| == 1; }
    if p == Closing { assert p[..0] == []; }
  }

  /** A step before the end, all of the message not being there yet. */
  lemma StepBeforeEnd(s: State, a: Action, limits: Limits, w: seq<byte>, q: seq<byte>)
    requires Inv(s, limits) && s.bodies == [] && s.fed == w && !Failed(s) && q != []
    requires var now := w + (if a.Write? then a.chunk else []);
             Batch(now + q, None).fate == Ended && Batch(now + q, None).rest == []
    requires !LimitMet(Step(s, a, limits))
    ensures var t := Step(s, a, limits); t.bodies == [] && t.fed == w + (if a.Write? then a.chunk else []) && !Failed(t)
  {
    hide Batch, Flush;
    var now := w + (if a.Write? then a.chunk else []);
    var s1 := if a.Write? then s.(pending := s.pending + a.chunk, fed := s.fed + a.chunk) else s;
    if a.Write? { FeedingKeeps(s, a.chunk); }
    assert s1.fed == now;
    if |s1.pending| <= limits.pending {
      PrefixOfEnded(now, q);
      FlushingKeeps(s1, a.room, limits);
    }
  }

  /** A step with the whole message there: it ends and drops what is behind, or it pauses. */
  lemma StepToEnd(s: State, a: Action, limits: Limits, w: seq<byte>, x: seq<byte>, message: seq<byte>, body: seq<byte>)
    requires Inv(s, limits) && s.bodies == [] && s.fed == w && !Failed(s)
    requires w + (if a.Write? then a.chunk else []) == message + x
    requires Batch(message + x, None) == Outcome(body, Ended, x, None)
    requires !LimitMet(Step(s, a, limits))
    ensures var t := Step(s, a, limits);
            if t.last.Paused? then t.bodies == [] && t.fed == message + x else Reads(t, [], body)
  {
    hide Batch, Flush;
    var s1 := if a.Write? then s.(pending := s.pending + a.chunk, fed := s.fed + a.chunk) else s;
    if a.Write? { FeedingKeeps(s, a.chunk); }
    assert s1.fed == message + x;
    if |s1.pending| <= limits.pending {
      FlushingKeeps(s1, a.room, limits);
      FlushShrinks(s1.pending, s1.expected, a.room, limits);
    }
  }

  /** A write ended right behind the last-chunk line, and the output did not pause there. */
  ghost predicate EndsAt(actions: seq<Action>, limits: Limits, message: seq<byte>) {
    exists m :: 0 <= m <= |actions| && EndsAfter(actions, m, limits, message)
  }

  predicate EndsAfter(actions: seq<Action>, m: nat, limits: Limits, message: seq<byte>)
    requires m <= |actions|
  {
    Written(actions[..m]) == message && !Run(actions[..m], limits).last.Paused?
  }

  lemma EndsAtLast(actions: seq<Action>, limits: Limits, message: seq<byte>)
    requires actions != []
    ensures EndsAt(actions, limits, message) <==>
              EndsAt(actions[..|actions| - 1], limits, message) || (Written(actions) == message && !Run(actions, limits).last.Paused?)
  {
    hide Written, Run;
    var before := actions[..|actions| - 1];
    assert actions[..|actions|] == actions;
    if EndsAt(actions, limits, message) {
      var m :| 0 <= m <= |actions| && EndsAfter(actions, m, limits, message);
      if m < |actions| { assert before[..m] == actions[..m]; assert EndsAfter(before, m, limits, message); }
    }
    if EndsAt(before, limits, message) {
      var m :| 0 <= m <= |before| && EndsAfter(before, m, limits, message);
      assert before[..m] == actions[..m];
      assert EndsAfter(actions, m, limits, message);
    }
    if Written(actions) == message && !Run(actions, limits).last.Paused? { assert EndsAfter(actions, |actions|, limits, message); }
  }

  lemma BatchOfPrefix(message: seq<byte>, body: seq<byte>, x: seq<byte>)
    requires Batch(message, None) == Outcome(body, Ended, [], None)
    ensures Batch(message + x, None) == Outcome(body, Ended, x, None)
  {
    BatchExtends(message, None, x);
    hide Batch;
    assert [] + x == x;
  }

  lemma ClosingStep(s: State, a: Action, limits: Limits, w: seq<byte>, message: seq<byte>, body: seq<byte>, n: Option<nat>)
    returns (n': Option<nat>)
    requires Batch(message, None) == Outcome(body, Ended, [], None)
    requires Inv(s, limits) && Stands(s, w, message, body, n)
    requires w + (if a.Write? then a.chunk else []) <= message + Closing
    requires !LimitMet(Step(s, a, limits))
    ensures var now := w + (if a.Write? then a.chunk else []); var t := Step(s, a, limits);
            && Stands(t, now, message, body, n')
            && (n' == Some(0) <==> n == Some(0) || (now == message && !t.last.Paused?))
  {
    hide Batch, Inv, Step, Reads;
    var chunk := if a.Write? then a.chunk else [];
    var now := w + chunk;
    if n.Some? {
      n' := n;
      var k := n.value;
      var z := w[|message| + k..];
      assert now[|message| + k..] == z + chunk;
      assert z + chunk <= Closing[k..] by {
        assert now == (message + Closing)[..|now|];
        assert (message + Closing)[|message| + k..] == Closing[k..];
        assert now[|message| + k..] == (message + Closing)[|message| + k..|now|];
      }
      ReadsOn(s, a, limits, z, body, k);
    } else if |now| < |message| {
      n' := None;
      var q := message[|now|..];
      assert now + q == message;
      StepBeforeEnd(s, a, limits, w, q);
    } else {
      var x := now[|message|..];
      assert now == message + x && x <= Closing;
      BatchOfPrefix(message, body, x);
      StepToEnd(s, a, limits, w, x, message, body);
      if Step(s, a, limits).last.Paused? { n' := None; }
      else { n' := Some(|x|); assert now[|message| + |x|..] == []; }
    }
  }

  lemma LimitStays(s: State, a: Action, limits: Limits)
    requires !LimitMet(Step(s, a, limits))
    ensures !LimitMet(s)
  {}

  lemma {:induction false} ClosingRun(actions: seq<Action>, limits: Limits, message: seq<byte>, body: seq<byte>)
    returns (n: Option<nat>)
    requires Batch(message, None) == Outcome(body, Ended, [], None) && message != []
    requires Written(actions) <= message + Closing
    requires !LimitMet(Run(actions, limits))
    ensures Stands(Run(actions, limits), Written(actions), message, body, n)
    ensures EndsAt(actions, limits, message) <==> n == Some(0)
  {
    hide Batch, Inv, Step, LimitMet, EndsAt;
    if actions == [] {
      n := None;
      NothingEnds(limits, message);
    } else {
      var before, a := actions[..|actions| - 1], actions[|actions| - 1];
      LimitStays(Run(before, limits), a, limits);
      var n0 := ClosingRun(before, limits, message, body);
      RunKeepsInv(before, limits);
      EndsAtLast(actions, limits, message);
      hide Stands;
      n := ClosingStep(Run(before, limits), a, limits, Written(before), message, body, n0);
    }
  }

  lemma NothingEnds(limits: Limits, message: seq<byte>)
    requires message != []
    ensures !EndsAt([], limits, message)
  {
    var none: seq<Action> := [];
    forall m: nat | m <= |none| ensures !EndsAfter(none, m, limits, message) { assert none[..m] == none; }
  }

  /**
   * A chunked message with its closing line, cut into writes: it is found malformed exactly
   * if a write ends right behind the last-chunk line and the body ends there, so that the
   * closing line comes to a decoder that starts afresh. Otherwise the body is put out, and
   * of the closing line at most its LF is kept.
   */
  lemma ClosingLineIsMalformedExactly(chunks: seq<Chunk>, last: seq<byte>, actions: seq<Action>, limits: Limits)
    requires AreChunks(chunks) && IsLine(last, 0)
    requires var message := Wire(chunks) + (last + [CR, LF] + []); Written(actions) == message + Closing
    requires !LimitMet(Run(actions, limits))
    ensures var message := Wire(chunks) + (last + [CR, LF] + []); var s := Run(actions, limits);
            && (s.last.BadLine? <==> EndsAt(actions, limits, message))
            && (!s.last.Paused? ==> s.bodies == [Body(chunks)])
            && (!s.last.BadLine? && !s.last.Paused? ==> s.pending == [] || s.pending == [LF])
  {
    var message := Wire(chunks) + (last + [CR, LF] + []);
    DecodeEncode(chunks, last, []);
    hide Run, Batch, Written, EndsAt, Body, Wire;
    assert |message| > 0;
    var n := ClosingRun(actions, limits, message, Body(chunks));
    if n.Some? { assert (message + Closing)[|message| + n.value..] == Closing[n.value..]; }
  }

  /** The output takes more only after a pause is over. */
  predicate WritesWhenReady(actions: seq<Action>, limits: Limits) {
    forall i :: 0 <= i < |actions| && actions[i].Write? ==> ReadyAt(actions, limits, i)
  }

  predicate ReadyAt(actions: seq<Action>, limits: Limits, i: nat)
    requires i < |actions|
  {
    !Run(actions[..i], limits).last.Paused?
  }

  /** Where the writes end, counted in bytes. */
  ghost predicate CutBehind(actions: seq<Action>, message: seq<byte>) {
    exists m :: 0 <= m <= |actions| && WrittenBy(actions, m) == message
  }

  function WrittenBy(actions: seq<Action>, m: nat): seq<byte>
    requires m <= |actions|
  {
    Written(actions[..m])
  }

  /** With nothing written by the actions from m on, the next one that writes is ready, so the body has ended. */
  lemma {:induction false} CutIsReady(actions: seq<Action>, limits: Limits, message: seq<byte>, m: nat)
    requires WritesWhenReady(actions, limits) && m <= |actions| && WrittenBy(actions, m) == message
    requires Written(actions) != message
    ensures EndsAt(actions, limits, message)
    decreases |actions| - m
  {
    hide Run;
    assert actions[..|actions|] == actions;
    if m < |actions| {
      var a := actions[m];
      assert actions[..m + 1][..m] == actions[..m];
      if a.Write? { assert ReadyAt(actions, limits, m); assert EndsAfter(actions, m, limits, message); }
      else {
        assert WrittenBy(actions, m + 1) == Written(actions[..m]) + [];
        CutIsReady(actions, limits, message, m + 1);
      }
    }
  }

  /**
   * For a caller that waits for a pause to end: the message is found malformed exactly if one
   * of its writes ends right behind the last-chunk line.
   */
  lemma MalformedExactlyByCut(chunks: seq<Chunk>, last: seq<byte>, actions: seq<Action>, limits: Limits)
    requires AreChunks(chunks) && IsLine(last, 0)
    requires var message := Wire(chunks) + (last + [CR, LF] + []); Written(actions) == message + Closing
    requires WritesWhenReady(actions, limits) && !LimitMet(Run(actions, limits))
    ensures Run(actions, limits).last.BadLine? <==> CutBehind(actions, Wire(chunks) + (last + [CR, LF] + []))
  {
    var message := Wire(chunks) + (last + [CR, LF] + []);
    hide Run, Written, Wire, Body, IsLine;
    ClosingLineIsMalformedExactly(chunks, last, actions, limits);
    if CutBehind(actions, message) {
      var m :| 0 <= m <= |actions| && WrittenBy(actions, m) == message;
      assert |message + Closing| == |message| + 2;
      CutIsReady(actions, limits, message, m);
    }
    if EndsAt(actions, limits, message) {
      var m :| 0 <= m <= |actions| && EndsAfter(actions, m, limits, message);
      assert WrittenBy(actions, m) == message;
    }
  }

  const Zero: seq<byte> := [48, CR, LF]

  lemma ZeroEnds(more: seq<byte>, room: nat, limits: Limits)
    requires limits.line >= 1
    ensures Flush(Zero + more, None, room, limits) == Flushed([], [], None, Finished)
  {
    HexIsLine(0);
    BytesBehindEndAreDropped(Hex(0), more, room, limits);
    assert Hex(0) + [CR, LF] == Zero;
  }

  lemma OneAction(a: Action, limits: Limits)
    ensures Run([a], limits) == Step(Initial, a, limits)
    ensures Written([a]) == if a.Write? then a.chunk else []
  {
    hide Step;
    assert [a][..0] == [];
  }

  lemma TwoActions(a: Action, b: Action, limits: Limits)
    ensures Run([a, b], limits) == Step(Run([a], limits), b, limits)
    ensures Written([a, b]) == Written([a]) + (if b.Write? then b.chunk else [])
  {
    hide Step;
    assert [a, b][..1] == [a];
  }

  lemma WritesZero(more: seq<byte>, room: nat, limits: Limits)
    requires limits.line >= 1 && limits.pending >= 3 + |more|
    ensures Step(Initial, Write(Zero + more, room), limits) == State([], None, [], [], [[]], Finished)
  {
    ZeroEnds(more, room, limits);
    hide Flush;
    assert Initial.pending + (Zero + more) == Zero + more;
    assert Initial.sent + Flat([]) == [];
  }

  /** An empty message: in one write it is decoded, and with its closing line in another it is malformed. */
  lemma ClosingLineAlone(room: nat, limits: Limits)
    requires limits.line >= 1 && limits.pending >= 5
    ensures var whole := [Write(Zero + Closing, room)]; var parts := [Write(Zero, room), Write(Closing, room)];
            && Written(whole) == Written(parts) == Zero + Closing
            && Run(whole, limits).last.Finished? && Run(whole, limits).bodies == [[]]
            && Run(parts, limits).last.BadLine?
  {
    hide Run, Flush, Written;
    OneAction(Write(Zero + Closing, room), limits);
    OneAction(Write(Zero, room), limits);
    TwoActions(Write(Zero, room), Write(Closing, room), limits);
    WritesZero([], room, limits);
    WritesZero(Closing, room, limits);
    assert Zero + [] == Zero && Closing[0..] == Closing && [] + Closing == Closing;
    FlushOfClosing(Closing, room, limits, 0);
    assert Run([Write(Zero, room)], limits).pending + Closing == Closing;
  }
}
