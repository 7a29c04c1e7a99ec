// What the chunked decoder promises over whole runs.

module ChunkedRuns {
  import opened Prelude
  import opened Bytes
  import opened ChunkedDecoder

  datatype Action = Write(chunk: seq<byte>, room: nat) | Resume(room: nat)

  /**
   * `fed` and `sent` are the bytes written and the body put out since the last end;
   * `bodies` are the bodies that ended.
   */
  datatype State = State(pending: seq<byte>, expected: Option<nat>, fed: seq<byte>, sent: seq<byte>,
                         bodies: seq<seq<byte>>, last: Stop)

  const Initial := State([], None, [], [], [], Drained)

  predicate Failed(s: State) {
    s.last.BadLine? || s.last.LineTooLong? || s.last.TooMuchPending?
  }

  function Flushing(s: State, room: nat, limits: Limits): State {
    var f := Flush(s.pending, s.expected, room, limits);
    var sent := s.sent + Flat(f.out);
    if f.stop.Finished? then State(f.pending, f.expected, [], [], s.bodies + [sent], Finished)
    else s.(pending := f.pending, expected := f.expected, sent := sent, last := f.stop)
  }

  /** Once it has thrown, the decoder is not used again. */
  function Step(s: State, a: Action, limits: Limits): State {
    if Failed(s) then s
    else
      match a
      case Write(chunk, room) =>
        var s1 := s.(pending := s.pending + chunk, fed := s.fed + chunk);
        if |s1.pending| > limits.pending then s1.(last := TooMuchPending) else Flushing(s1, room, limits)
      case Resume(room) => Flushing(s, room, limits)
  }

  function Run(actions: seq<Action>, limits: Limits): State {
    if actions == [] then Initial
    else Step(Run(actions[..|actions| - 1], limits), actions[|actions| - 1], limits)
  }

  /** What was fed means what was sent, and then whatever the kept bytes mean. */
  predicate Agrees(s: State) {
    var all := Batch(s.fed, None);
    if s.last.BadLine? then all.body == s.sent && all.fate == Bad
    else all == Then(s.sent, Batch(s.pending, s.expected))
  }

  predicate Inv(s: State, limits: Limits) {
    && Agrees(s)
    && (s.last.Drained? || s.last.Finished? ==> Batch(s.pending, s.expected) == Outcome([], More, s.pending, s.expected))
    && (!Failed(s) ==> |s.pending| <= limits.pending)
  }

  lemma ThenThen(a: seq<byte>, b: seq<byte>, o: Outcome)
    ensures Then(a, Then(b, o)) == Then(a + b, o)
  {
    assert a + (b + o.body) == (a + b) + o.body;
  }

  lemma FlushingKeeps(s: State, room: nat, limits: Limits)
    requires Agrees(s) && !s.last.BadLine? && |s.pending| <= limits.pending
    ensures Inv(Flushing(s, room, limits), limits)
    ensures Flushing(s, room, limits).last.Finished? ==>
              Batch(s.fed, None).fate == Ended && Batch(s.fed, None).body == Flushing(s, room, limits).bodies[|s.bodies|]
  {
    var f := Flush(s.pending, s.expected, room, limits);
    FlushRefines(s.pending, s.expected, room, limits);
    FlushShrinks(s.pending, s.expected, room, limits);
    RestIsStuck(s.pending, s.expected);
    hide Flush, Batch;
    ThenThen(s.sent, Flat(f.out), Batch(f.pending, f.expected));
    BatchOfNothing();
  }

  lemma BatchOfNothing()
    ensures Batch([], None) == Outcome([], More, [], None)
  {}

  lemma FeedingKeeps(s: State, chunk: seq<byte>)
    requires Agrees(s) && !s.last.BadLine?
    ensures Agrees(s.(pending := s.pending + chunk, fed := s.fed + chunk))
  {
    BatchExtends(s.fed, None, chunk);
    BatchExtends(s.pending, s.expected, chunk);
    ThenExtend(s.sent, Batch(s.pending, s.expected), chunk);
    hide Batch;
  }

  lemma StepKeepsInv(s: State, a: Action, limits: Limits)
    requires Inv(s, limits)
    ensures Inv(Step(s, a, limits), limits)
  {
    if !Failed(s) {
      if a.Write? {
        FeedingKeeps(s, a.chunk);
        var s1 := s.(pending := s.pending + a.chunk, fed := s.fed + a.chunk);
        if |s1.pending| <= limits.pending { FlushingKeeps(s1, a.room, limits); }
        else { assert Agrees(s1.(last := TooMuchPending)); }
      } else { FlushingKeeps(s, a.room, limits); }
    }
  }

  /** In every run the pieces add up to the meaning of the bytes, and what is kept stays within its limit. */
  lemma {:induction false} RunKeepsInv(actions: seq<Action>, limits: Limits)
    ensures Inv(Run(actions, limits), limits)
  {
    if actions == [] { BatchOfNothing(); }
    else {
      hide Step, Inv;
      RunKeepsInv(actions[..|actions| - 1], limits);
      StepKeepsInv(Run(actions[..|actions| - 1], limits), actions[|actions| - 1], limits);
    }
  }

  /** Two runs over the same bytes, both idle, have put out the same body and wait for the same thing. */
  lemma SplitsAgree(left: seq<Action>, right: seq<Action>, limits: Limits, others: Limits)
    requires var a, b := Run(left, limits), Run(right, others); a.fed == b.fed && a.last.Drained? && b.last.Drained?
    ensures var a, b := Run(left, limits), Run(right, others);
            a.sent == b.sent && a.pending == b.pending && a.expected == b.expected
  {
    RunKeepsInv(left, limits);
    RunKeepsInv(right, others);
    hide Run, Batch;
    var a, b := Run(left, limits), Run(right, others);
    assert a.sent + [] == a.sent && b.sent + [] == b.sent;
  }

  function Written(actions: seq<Action>): seq<byte> {
    if actions == [] then []
    else
      var a := actions[|actions| - 1];
      Written(actions[..|actions| - 1]) + (if a.Write? then a.chunk else [])
  }

  /** The run has not ended yet, or it has just put out the whole body. */
  predicate Midway(s: State, written: seq<byte>, total: seq<byte>) {
    || (s.bodies == [] && s.fed == written)
    || (s == State([], None, [], [], [Batch(total, None).body], s.last) && written == total && !s.last.Paused?)
  }

  /** A total that ends where it stops has no malformed prefix, and none that ends before it. */
  lemma PrefixOfEnded(now: seq<byte>, q: seq<byte>)
    requires Batch(now + q, None).fate == Ended && Batch(now + q, None).rest == []
    ensures Batch(now, None).fate != Bad
    ensures Batch(now, None).fate == Ended ==> q == [] && Batch(now, None).body == Batch(now + q, None).body
  {
    BatchExtends(now, None, q);
    hide Batch;
  }

  lemma MidwayFlush(s: State, room: nat, limits: Limits, q: seq<byte>)
    requires Agrees(s) && !Failed(s) && s.bodies == [] && |s.pending| <= limits.pending
    requires Batch(s.fed + q, None).fate == Ended && Batch(s.fed + q, None).rest == []
    ensures var t := Flushing(s, room, limits); !t.last.BadLine? && Midway(t, s.fed, s.fed + q)
  {
    hide Batch, Flush;
    var t := Flushing(s, room, limits);
    PrefixOfEnded(s.fed, q);
    FlushingKeeps(s, room, limits);
    FlushShrinks(s.pending, s.expected, room, limits);
    if t.last.Finished? { assert s.fed + q == s.fed; }
  }

  lemma MidwayStep(s: State, a: Action, limits: Limits, written: seq<byte>, total: seq<byte>, q: seq<byte>)
    requires Inv(s, limits) && Midway(s, written, total) && !Failed(s)
    requires Batch(total, None).fate == Ended && Batch(total, None).rest == []
    requires var now := written + (if a.Write? then a.chunk else []); total == now + q
    ensures !Step(s, a, limits).last.BadLine?
    ensures !Failed(Step(s, a, limits)) ==> Midway(Step(s, a, limits), written + (if a.Write? then a.chunk else []), total)
  {
    hide Batch, Flush;
    var now := written + (if a.Write? then a.chunk else []);
    if s.bodies == [] {
      var s1 := if a.Write? then s.(pending := s.pending + a.chunk, fed := s.fed + a.chunk) else s;
      assert s1.fed == now;
      if a.Write? { FeedingKeeps(s, a.chunk); }
      hide Agrees;
      if |s1.pending| <= limits.pending { MidwayFlush(s1, a.room, limits, q); }
    } else {
      assert |written| + |q| + (if a.Write? then |a.chunk| else 0) == |total|;
      assert a.Write? ==> a.chunk == [];
      FlushOfEmpty(None, a.room, limits);
      assert s.sent + [] == s.sent;
    }
  }

  lemma {:induction false} MidwayRun(actions: seq<Action>, limits: Limits, total: seq<byte>, q: seq<byte>)
    requires Batch(total, None).fate == Ended && Batch(total, None).rest == []
    requires total == Written(actions) + q
    ensures !Run(actions, limits).last.BadLine?
    ensures !Failed(Run(actions, limits)) ==> Midway(Run(actions, limits), Written(actions), total)
  {
    if actions != [] {
      hide Step, Batch, Inv, Midway;
      var before, a := actions[..|actions| - 1], actions[|actions| - 1];
      var more := if a.Write? then a.chunk else [];
      assert Written(before) + (more + q) == (Written(before) + more) + q;
      MidwayRun(before, limits, total, more + q);
      RunKeepsInv(before, limits);
      if Failed(Run(before, limits)) { StepOfFailed(Run(before, limits), a, limits); }
      else { MidwayStep(Run(before, limits), a, limits, Written(before), total, q); }
    }
  }

  lemma StepOfFailed(s: State, a: Action, limits: Limits)
    requires Failed(s)
    ensures Step(s, a, limits) == s
  {}

  /**
   * However an encoded body is cut into writes, and however often the output asks to pause,
   * a run over it never finds it malformed, and unless it met a limit it has put out exactly
   * the body and its end as soon as it is idle.
   */
  lemma AnySplitDecodes(chunks: seq<Chunk>, last: seq<byte>, actions: seq<Action>, limits: Limits)
    requires AreChunks(chunks) && IsLine(last, 0)
    requires Written(actions) == Wire(chunks) + (last + [CR, LF] + [])
    ensures var s := Run(actions, limits);
            && !s.last.BadLine?
            && (!Failed(s) && !s.last.Paused? ==> s.bodies == [Body(chunks)] && s.sent == [] && s.pending == [])
  {
    DecodeEncode(chunks, last, []);
    MidwayRun(actions, limits, Written(actions), []);
    RunKeepsInv(actions, limits);
    hide Run, Batch, Written;
  }

  /** What is kept stays within the limit, and each piece put out fits in it with its closing two bytes. */
  lemma KeptWithinLimit(actions: seq<Action>, limits: Limits)
    ensures !Failed(Run(actions, limits)) ==> |Run(actions, limits).pending| <= limits.pending
  {
    RunKeepsInv(actions, limits);
  }

  /** The limit on kept bytes is met exactly by a write that exceeds it; the check inside the loop never fires. */
  lemma PendingLimitOnlyAtWrites(actions: seq<Action>, a: Action, limits: Limits)
    requires !Failed(Run(actions, limits))
    ensures var s := Run(actions, limits);
            Step(s, a, limits).last.TooMuchPending? <==> a.Write? && |s.pending| + |a.chunk| > limits.pending
  {
    RunKeepsInv(actions, limits);
    var s := Run(actions, limits);
    var p := if a.Write? then s.pending + a.chunk else s.pending;
    if |p| <= limits.pending { FlushShrinks(p, s.expected, a.room, limits); }
    hide Flush, Batch, Run;
  }

  function Resumes(s: State, rooms: seq<nat>, limits: Limits): State
    decreases |rooms|
  {
    if rooms == [] || !s.last.Paused? then s else Resumes(Step(s, Resume(rooms[0]), limits), rooms[1..], limits)
  }

  /** Resuming after every pause comes to an end: each pause leaves fewer bytes. */
  lemma {:induction false} ResumingEnds(s: State, rooms: seq<nat>, limits: Limits)
    requires |rooms| > |s.pending|
    ensures !Resumes(s, rooms, limits).last.Paused?
    decreases |rooms|
  {
    if s.last.Paused? {
      FlushShrinks(s.pending, s.expected, rooms[0], limits);
      var t := Step(s, Resume(rooms[0]), limits);
      if t.last.Paused? { ResumingEnds(t, rooms[1..], limits); }
    }
  }

  /** The line limit depends on the split: a line of exactly the limit is refused when its CR comes alone. */
  lemma LineLimitDependsOnSplit(line: seq<byte>, room: nat, limits: Limits)
    requires LineEnd(line + [CR, LF]) == |line|
    ensures Flush(line + [CR, LF], None, room, limits).stop.LineTooLong? <==> |line| > limits.line
    ensures Flush(line + [CR], None, room, limits).stop.LineTooLong? <==> |line| >= limits.line
  {
    var p, w := line + [CR], line + [CR, LF];
    var i := LineEnd(p);
    assert p + [LF] == w;
    if i < |p| { LineEndStays(p, [LF]); assert false; }
    assert w[|line| + 2..] == [];
  }
}
