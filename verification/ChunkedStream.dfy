// The decoder of chunked bodies as an object, with its buffer and its output stream. It writes
// what the specified flush writes, and keeps the promise of whole runs: what it has put out and
// what it keeps together mean what was written to it.

module ChunkedStream {
  import opened Prelude
  import opened Bytes
  import opened ChunkedDecoder
  import opened ChunkedRuns

  datatype Piece = Data(bytes: seq<byte>) | End

  function Pieces(out: seq<seq<byte>>): (r: seq<Piece>)
    ensures |r| == |out| && forall i :: 0 <= i < |out| ==> r[i] == Data(out[i])
  {
    if out == [] then [] else [Data(out[0])] + Pieces(out[1..])
  }

  lemma PiecesAppend(out: seq<seq<byte>>, more: seq<seq<byte>>)
    ensures Pieces(out + more) == Pieces(out) + Pieces(more)
  {}

  function Before(out: seq<seq<byte>>, f: Flushed): Flushed {
    f.(out := out + f.out)
  }

  /** What is kept and put out after a flush that does f. */
  predicate Shown(pending: seq<byte>, expected: Option<nat>, output: seq<Piece>, before: seq<Piece>, f: Flushed) {
    && pending == f.pending && expected == f.expected
    && output == before + Pieces(f.out) + (if f.stop.Finished? then [End] else [])
  }

  lemma ShownBefore(pending: seq<byte>, expected: Option<nat>, output: seq<Piece>, before: seq<Piece>, out: seq<seq<byte>>, f: Flushed)
    requires Shown(pending, expected, output, before + Pieces(out), f)
    ensures Shown(pending, expected, output, before, Before(out, f)) && Before(out, f).stop == f.stop
  {
    PiecesAppend(out, f.out);
    hide Pieces;
    var last: seq<Piece> := if f.stop.Finished? then [End] else [];
    Associates(before, Pieces(out), Pieces(f.out));
    assert Before(out, f).out == out + f.out;
    assert output == before + Pieces(out) + Pieces(f.out) + last;
  }

  lemma Associates(a: seq<Piece>, b: seq<Piece>, c: seq<Piece>)
    ensures a + b + c == a + (b + c)
  {}

  lemma BeforeNothing(f: Flushed)
    ensures Before([], f) == f
  {
    assert [] + f.out == f.out;
  }

  class Decoder {
    const limits: Limits
    var pending: seq<byte>
    var expected: Option<nat>
    var output: seq<Piece>
    ghost var state: State

    /** What was put out and what is kept mean what was written. */
    ghost predicate Valid()
      reads this
    {
      Inv(state, limits) && pending == state.pending && expected == state.expected
    }

    constructor (limits: Limits)
      ensures this.limits == limits && output == [] && state == Initial && Valid()
    {
      this.limits := limits;
      pending, expected, output, state := [], None, [], Initial;
      new;
      BatchOfNothing();
    }

    /** What the fields and the output are after a flush that does f. */
    ghost predicate Has(f: Flushed, before: seq<Piece>)
      reads this
    {
      Shown(pending, expected, output, before, f)
    }

    /** Adds a piece of the stream; `room` is what the output takes before it asks to pause. */
    method Accept(chunk: seq<byte>, room: nat) returns (r: Result<bool, Stop>)
      requires Valid() && !Failed(state)
      modifies this
      ensures |old(pending) + chunk| > limits.pending ==> r == Err(TooMuchPending) && output == old(output)
      ensures |old(pending) + chunk| <= limits.pending ==>
                var f := Flush(old(pending) + chunk, old(expected), room, limits);
                Has(f, old(output)) && r == Verdict(f.stop)
      ensures Valid() && state == Step(old(state), Write(chunk, room), limits) && (r.Err? <==> Failed(state))
    {
      hide Flush, Inv;
      StepKeepsInv(state, Write(chunk, room), limits);
      state := Step(state, Write(chunk, room), limits);
      pending := pending + chunk;
      if |pending| > limits.pending { return Err(TooMuchPending); }
      r := Drain(room);
    }

    /** Goes on after a pause. */
    method GoOn(room: nat) returns (r: Result<bool, Stop>)
      requires Valid() && !Failed(state)
      modifies this
      ensures var f := Flush(old(pending), old(expected), room, limits); Has(f, old(output)) && r == Verdict(f.stop)
      ensures Valid() && state == Step(old(state), Resume(room), limits) && (r.Err? <==> Failed(state))
    {
      hide Flush, Inv;
      StepKeepsInv(state, Resume(room), limits);
      state := Step(state, Resume(room), limits);
      r := Drain(room);
    }

    /** Decodes what is kept, up to a pause. */
    method Drain(room: nat) returns (r: Result<bool, Stop>)
      modifies this`pending, this`expected, this`output
      ensures var f := Flush(old(pending), old(expected), room, limits); Has(f, old(output)) && r == Verdict(f.stop)
    {
      hide Flush, FlushData, Pieces, Before;
      var left := room;
      ghost var out: seq<seq<byte>> := [];
      ghost var goal := Flush(pending, expected, room, limits);
      BeforeNothing(goal);
      while |pending| > 0
        invariant Before(out, Flush(pending, expected, left, limits)) == goal
        invariant output == old(output) + Pieces(out)
        decreases |pending|
      {
        ghost var now := Flush(pending, expected, left, limits);
        if expected.None? {
          var over := ReadSizeLine(left);
          if over.Some? {
            ShownBefore(pending, expected, output, old(output), out, now);
            return over.value;
          }
        } else { FlushOfData(pending, expected.value, left, limits); }
        var size := expected.value;
        FlushDataCases(pending, size, left, limits);
        if |pending| < size + 2 {
          ShownBefore(pending, expected, output, old(output), out, now);
          if |pending| > limits.pending { return Err(TooMuchPending); }
          return Ok(true);
        }
        var piece := pending[..size];
        WritePiece(size);
        if left == 0 {
          ShownBefore(pending, expected, output, old(output), out, now);
          return Ok(false);
        }
        left := left - 1;
        PiecesAppend(out, [piece]);
        BeforeAhead(out, piece, Flush(pending, expected, left, limits));
        out := out + [piece];
      }
      FlushOfEmpty(expected, left, limits);
      ShownBefore(pending, expected, output, old(output), out, Flush(pending, expected, left, limits));
      return Ok(true);
    }

    /** Puts one chunk out and skips the two bytes behind it. */
    method WritePiece(size: nat)
      requires size + 2 <= |pending|
      modifies this`pending, this`expected, this`output
      ensures pending == old(pending)[size + 2..] && expected.None?
      ensures output == old(output) + Pieces([old(pending)[..size]])
    {
      output := output + [Data(pending[..size])];
      pending := pending[size + 2..];
      expected := None;
    }

    /** Reads a size line, or says how the flush ends. */
    method ReadSizeLine(ghost left: nat) returns (over: Option<Result<bool, Stop>>)
      requires expected.None? && pending != []
      modifies this`pending, this`expected, this`output
      ensures over.None? ==>
                && expected.Some? && output == old(output) && |pending| < |old(pending)|
                && Flush(old(pending), None, left, limits) == FlushData(pending, expected.value, left, limits)
      ensures over.Some? ==>
                var f := Flush(old(pending), None, left, limits);
                f.out == [] && Has(f, old(output)) && over.value == Verdict(f.stop)
    {
      hide FlushData;
      var end := LineEnd(pending);
      if end > limits.line { return Some(Err(LineTooLong)); }
      if end == |pending| { return Some(Ok(true)); }
      var line := pending[..end];
      if !WellFormed(line) { return Some(Err(BadLine)); }
      pending := pending[end + 2..];
      if Size(line) > MaxSafe { return Some(Err(BadLine)); }
      if Size(line) == 0 {
        output := output + [End];
        pending := [];
        return Some(Ok(true));
      }
      expected := Some(Size(line));
      return None;
    }
  }

  /** What the caller gets to see. */
  function Verdict(stop: Stop): Result<bool, Stop> {
    match stop
    case Drained => Ok(true)
    case Finished => Ok(true)
    case Paused => Ok(false)
    case _ => Err(stop)
  }

  lemma FlushOfData(p: seq<byte>, n: nat, room: nat, limits: Limits)
    requires p != []
    ensures Flush(p, Some(n), room, limits) == FlushData(p, n, room, limits)
  {}

  lemma FlushDataCases(p: seq<byte>, n: nat, room: nat, limits: Limits)
    ensures var f := FlushData(p, n, room, limits);
            && (|p| < n + 2 ==> f == Flushed([], p, Some(n), if |p| > limits.pending then TooMuchPending else Drained))
            && (|p| >= n + 2 && room == 0 ==> f == Flushed([p[..n]], p[n + 2..], None, Paused))
            && (|p| >= n + 2 && room > 0 ==> f == Ahead(p[..n], Flush(p[n + 2..], None, room - 1, limits)))
  {}

  lemma BeforeAhead(out: seq<seq<byte>>, piece: seq<byte>, f: Flushed)
    ensures Before(out, Ahead(piece, f)) == Before(out + [piece], f)
  {
    assert out + ([piece] + f.out) == (out + [piece]) + f.out;
  }
}
