// The decoder of chunked request bodies: bytes arrive in any pieces, the output may push
// back after any write, and two limits bound what is kept. It is compared with a decoder
// that reads all the bytes at once.

module ChunkedDecoder {
  import opened Prelude
  import opened Bytes

  const CR: byte := 13
  const LF: byte := 10
  const Semicolon: byte := 59
  const MaxSafe: nat := 0x1F_FFFF_FFFF_FFFF

  // ---------------------------------------------------------------- size lines

  /** Where the first CR LF starts, or |p| when there is none. */
  function LineEnd(p: seq<byte>): (i: nat)
    ensures i <= |p|
    ensures i < |p| ==> i + 2 <= |p| && p[i] == CR && p[i + 1] == LF
    ensures forall j :: 0 <= j < i && j + 1 < |p| ==> !(p[j] == CR && p[j + 1] == LF)
  {
    if |p| < 2 then |p|
    else if p[0] == CR && p[1] == LF then 0
    else
      var i := LineEnd(p[1..]);
      assert forall j :: 0 < j < i + 1 && j + 1 < |p| ==> p[j] == p[1..][j - 1] && p[j + 1] == p[1..][j];
      i + 1
  }

  /** The value of a hexadecimal digit, once the high bit of the byte is cleared. */
  function Digit(b: byte): Option<nat> {
    var c := b as int % 128;
    if 48 <= c <= 57 then Some(c - 48)
    else if 65 <= c <= 70 then Some(c - 55)
    else if 97 <= c <= 102 then Some(c - 87)
    else None
  }

  /** How many digits the line starts with. */
  function Digits(line: seq<byte>): (n: nat)
    ensures n <= |line| && forall j :: 0 <= j < n ==> Digit(line[j]).Some?
    ensures n < |line| ==> Digit(line[n]).None?
  {
    if line == [] || Digit(line[0]).None? then 0 else 1 + Digits(line[1..])
  }

  function Value(digits: seq<byte>): nat
    requires forall j :: 0 <= j < |digits| ==> Digit(digits[j]).Some?
  {
    if digits == [] then 0
    else 16 * Value(digits[..|digits| - 1]) + Digit(digits[|digits| - 1]).value
  }

  /** A size, and an extension without line breaks; the ASCII reading of a byte ignores its high bit. */
  predicate WellFormed(line: seq<byte>) {
    var n := Digits(line);
    n > 0 && (n < |line| ==>
      && line[n] as int % 128 == Semicolon as int
      && forall j :: n < j < |line| ==> line[j] as int % 128 != 10 && line[j] as int % 128 != 13)
  }

  function Size(line: seq<byte>): nat {
    Value(line[..Digits(line)])
  }

  // ---------------------------------------------------------------- all at once

  datatype Fate = More | Ended | Bad

  /** What a stream of bytes means: a body so far, how it stands, and what is left over. */
  datatype Outcome = Outcome(body: seq<byte>, fate: Fate, rest: seq<byte>, expected: Option<nat>)

  function Batch(p: seq<byte>, expected: Option<nat>): Outcome
    decreases |p|
  {
    match expected
    case None =>
      var i := LineEnd(p);
      if i == |p| then Outcome([], More, p, None)
      else if !WellFormed(p[..i]) || Size(p[..i]) > MaxSafe then Outcome([], Bad, [], None)
      else if Size(p[..i]) == 0 then Outcome([], Ended, p[i + 2..], None)
      else Batch(p[i + 2..], Some(Size(p[..i])))
    case Some(n) =>
      if |p| < n + 2 then Outcome([], More, p, expected)
      else Then(p[..n], Batch(p[n + 2..], None))
  }

  function Then(body: seq<byte>, o: Outcome): Outcome {
    o.(body := body + o.body)
  }

  /** How more bytes change a meaning. */
  function Extend(o: Outcome, q: seq<byte>): Outcome {
    match o.fate
    case More => Then(o.body, Batch(o.rest + q, o.expected))
    case Ended => o.(rest := o.rest + q)
    case Bad => o
  }

  lemma LineEndStays(p: seq<byte>, q: seq<byte>)
    requires LineEnd(p) < |p|
    ensures LineEnd(p + q) == LineEnd(p)
  {
    var i, k := LineEnd(p), LineEnd(p + q);
    assert (p + q)[i] == CR && (p + q)[i + 1] == LF;
    assert forall j :: 0 <= j < |p| ==> (p + q)[j] == p[j];
  }

  lemma ThenExtend(body: seq<byte>, o: Outcome, q: seq<byte>)
    ensures Extend(Then(body, o), q) == Then(body, Extend(o, q))
  {
    if o.fate.More? {
      var b := Batch(o.rest + q, o.expected);
      assert body + (o.body + b.body) == (body + o.body) + b.body;
    }
  }

  /** Reading p and then q is reading p + q. */
  lemma {:induction false} BatchExtends(p: seq<byte>, expected: Option<nat>, q: seq<byte>)
    ensures Batch(p + q, expected) == Extend(Batch(p, expected), q)
    decreases |p|, 1
  {
    hide WellFormed, Size;
    if expected.Some? { DataExtends(p, expected.value, q); }
    else {
      var i := LineEnd(p);
      if i < |p| {
        LineEndStays(p, q);
        hide LineEnd;
        assert (p + q)[..i] == p[..i] && (p + q)[i + 2..] == p[i + 2..] + q;
        if WellFormed(p[..i]) && 0 < Size(p[..i]) <= MaxSafe { DataExtends(p[i + 2..], Size(p[..i]), q); }
      }
    }
  }

  lemma {:induction false} DataExtends(p: seq<byte>, n: nat, q: seq<byte>)
    ensures Batch(p + q, Some(n)) == Extend(Batch(p, Some(n)), q)
    decreases |p|, 0
  {
    hide WellFormed, Size, LineEnd;
    if |p| >= n + 2 {
      assert (p + q)[..n] == p[..n] && (p + q)[n + 2..] == p[n + 2..] + q;
      BatchExtends(p[n + 2..], None, q);
      ThenExtend(p[..n], Batch(p[n + 2..], None), q);
    }
  }

  /** What is left over cannot be read any further. */
  lemma {:induction false} RestIsStuck(p: seq<byte>, expected: Option<nat>)
    ensures var o := Batch(p, expected); o.fate.More? ==> Batch(o.rest, o.expected) == Outcome([], More, o.rest, o.expected)
    decreases |p|
  {
    hide WellFormed, Size;
    match expected
    case None =>
      var i := LineEnd(p);
      if i < |p| && WellFormed(p[..i]) && 0 < Size(p[..i]) <= MaxSafe { RestIsStuck(p[i + 2..], Some(Size(p[..i]))); }
    case Some(n) =>
      if |p| >= n + 2 { RestIsStuck(p[n + 2..], None); }
  }

  // ---------------------------------------------------------------- the encoder's side

  /** A chunk as it may be written: its size line and its bytes, closed by any two bytes. */
  datatype Chunk = Chunk(line: seq<byte>, data: seq<byte>, tail: seq<byte>)

  predicate IsLine(line: seq<byte>, size: nat) {
    WellFormed(line) && Size(line) == size && size <= MaxSafe && LineEnd(line + [CR, LF]) == |line|
  }

  predicate IsChunk(c: Chunk) {
    c.data != [] && IsLine(c.line, |c.data|) && |c.tail| == 2
  }

  function Wire(chunks: seq<Chunk>): seq<byte> {
    if chunks == [] then [] else chunks[0].line + [CR, LF] + chunks[0].data + chunks[0].tail + Wire(chunks[1..])
  }

  function Body(chunks: seq<Chunk>): seq<byte> {
    if chunks == [] then [] else chunks[0].data + Body(chunks[1..])
  }

  predicate AreChunks(chunks: seq<Chunk>) {
    forall i :: 0 <= i < |chunks| ==> IsChunk(chunks[i])
  }

  lemma LineIsRead(line: seq<byte>, size: nat, more: seq<byte>)
    requires IsLine(line, size)
    ensures Batch(line + [CR, LF] + more, None)
         == if size == 0 then Outcome([], Ended, more, None) else Batch(more, Some(size))
  {
    var p := line + [CR, LF];
    LineEndStays(p, more);
    assert (p + more)[..|line|] == line && (p + more)[|line| + 2..] == more;
  }

  /** Decoding what an encoder writes gives the chunks' bytes back, and the end at the last-chunk line. */
  lemma {:induction false} DecodeEncode(chunks: seq<Chunk>, last: seq<byte>, more: seq<byte>)
    requires AreChunks(chunks) && IsLine(last, 0)
    ensures Batch(Wire(chunks) + (last + [CR, LF] + more), None) == Outcome(Body(chunks), Ended, more, None)
  {
    hide LineEnd, WellFormed, Size, Digits, Value;
    var w := last + [CR, LF] + more;
    if chunks == [] {
      assert Wire(chunks) + w == w;
      LineIsRead(last, 0, more);
    } else {
      var c := chunks[0];
      var after := Wire(chunks[1..]) + w;
      var p := c.data + c.tail + after;
      assert Wire(chunks) + w == c.line + [CR, LF] + p;
      LineIsRead(c.line, |c.data|, p);
      assert p[..|c.data|] == c.data && p[|c.data| + 2..] == after;
      DecodeEncode(chunks[1..], last, more);
    }
  }

  // the usual size line

  function HexDigit(d: nat): byte
    requires d < 16
  {
    (if d < 10 then 48 + d else 87 + d) as byte
  }

  function Hex(n: nat): (text: seq<byte>)
    ensures text != []
  {
    if n < 16 then [HexDigit(n)] else Hex(n / 16) + [HexDigit(n % 16)]
  }

  lemma HexDigitIsRead(d: nat)
    requires d < 16
    ensures Digit(HexDigit(d)) == Some(d) && HexDigit(d) != CR
  {}

  lemma {:induction false} HexIsRead(n: nat)
    ensures forall j :: 0 <= j < |Hex(n)| ==> Digit(Hex(n)[j]).Some? && Hex(n)[j] != CR
    ensures Value(Hex(n)) == n
  {
    hide Digit, HexDigit;
    HexDigitIsRead(n % 16);
    if n >= 16 {
      HexIsRead(n / 16);
      assert Hex(n)[..|Hex(n)| - 1] == Hex(n / 16);
    } else {
      assert Hex(n)[..0] == [];
    }
  }

  /** Every safe size has a line that is read back as it. */
  lemma HexIsLine(n: nat)
    requires n <= MaxSafe
    ensures IsLine(Hex(n), n)
  {
    HexIsRead(n);
    var line := Hex(n);
    assert Digits(line) == |line| && line[..|line|] == line;
    var p := line + [CR, LF];
    assert p[|line|] == CR && p[|line| + 1] == LF;
    forall j | 0 <= j < |line| ensures p[j] != CR { assert p[j] == line[j]; }
  }

  // ---------------------------------------------------------------- the decoder

  datatype Limits = Limits(line: nat, pending: nat)

  datatype Stop = Drained | Paused | Finished | BadLine | LineTooLong | TooMuchPending

  /** What one flush does: the pieces it writes, what it keeps, and why it stops. */
  datatype Flushed = Flushed(out: seq<seq<byte>>, pending: seq<byte>, expected: Option<nat>, stop: Stop)

  function Ahead(piece: seq<byte>, f: Flushed): Flushed {
    f.(out := [piece] + f.out)
  }

  /** `room` is the number of pieces the output takes before it asks to pause. */
  function Flush(p: seq<byte>, expected: Option<nat>, room: nat, limits: Limits): Flushed
    decreases |p|, 1
  {
    if p == [] then Flushed([], p, expected, Drained)
    else
      match expected
      case None =>
        var i := LineEnd(p);
        if i > limits.line then Flushed([], p, None, LineTooLong)
        else if i == |p| then Flushed([], p, None, Drained)
        else if !WellFormed(p[..i]) then Flushed([], p, None, BadLine)
        else if Size(p[..i]) > MaxSafe then Flushed([], p[i + 2..], None, BadLine)
        else if Size(p[..i]) == 0 then Flushed([], [], None, Finished)
        else FlushData(p[i + 2..], Size(p[..i]), room, limits)
      case Some(n) => FlushData(p, n, room, limits)
  }

  function FlushData(p: seq<byte>, n: nat, room: nat, limits: Limits): Flushed
    decreases |p|, 0
  {
    if |p| < n + 2 then Flushed([], p, Some(n), if |p| > limits.pending then TooMuchPending else Drained)
    else if room == 0 then Flushed([p[..n]], p[n + 2..], None, Paused)
    else Ahead(p[..n], Flush(p[n + 2..], None, room - 1, limits))
  }

  predicate Goes(stop: Stop) {
    stop.Drained? || stop.Paused?
  }

  /** A flush moves a part of the meaning of its bytes to the output and keeps the rest. */
  predicate Refines(p: seq<byte>, expected: Option<nat>, f: Flushed) {
    var all := Batch(p, expected);
    match f.stop
    case Drained => all == Outcome(Flat(f.out), More, f.pending, f.expected)
    case Paused => all == Then(Flat(f.out), Batch(f.pending, f.expected))
    case Finished => all.body == Flat(f.out) && all.fate == Ended
    case BadLine => all.body == Flat(f.out) && all.fate == Bad
    case LineTooLong => all == Then(Flat(f.out), Batch(f.pending, f.expected))
    case TooMuchPending => all == Outcome(Flat(f.out), More, f.pending, f.expected)
  }

  lemma {:induction false} FlushRefines(p: seq<byte>, expected: Option<nat>, room: nat, limits: Limits)
    ensures Refines(p, expected, Flush(p, expected, room, limits))
    decreases |p|, 1
  {
    if p != [] {
      if expected.Some? { FlushDataRefines(p, expected.value, room, limits); }
      else {
        var i := LineEnd(p);
        if i <= limits.line && i < |p| && WellFormed(p[..i]) && 0 < Size(p[..i]) <= MaxSafe {
          FlushDataRefines(p[i + 2..], Size(p[..i]), room, limits);
        }
      }
    }
  }

  lemma {:induction false} FlushDataRefines(p: seq<byte>, n: nat, room: nat, limits: Limits)
    ensures Refines(p, Some(n), FlushData(p, n, room, limits))
    decreases |p|, 0
  {
    if |p| >= n + 2 {
      if room == 0 {
        assert Flat([p[..n]]) == p[..n];
      } else {
        FlushRefines(p[n + 2..], None, room - 1, limits);
        var f := Flush(p[n + 2..], None, room - 1, limits);
        assert ([p[..n]] + f.out)[1..] == f.out;
        assert Flat([p[..n]] + f.out) == p[..n] + Flat(f.out);
        var o := Batch(f.pending, f.expected);
        assert p[..n] + (Flat(f.out) + o.body) == (p[..n] + Flat(f.out)) + o.body;
      }
    }
  }

  predicate Shrinks(size: nat, f: Flushed, limits: Limits) {
    && |f.pending| <= size && (f.stop.Paused? ==> |f.pending| < size)
    && (size <= limits.pending ==> !f.stop.TooMuchPending?)
    && (f.stop.Finished? ==> f.pending == [] && f.expected.None?)
  }

  /** A flush never keeps more than it was given, and less when the output asked it to pause. */
  lemma {:induction false} FlushShrinks(p: seq<byte>, expected: Option<nat>, room: nat, limits: Limits)
    ensures Shrinks(|p|, Flush(p, expected, room, limits), limits)
    decreases |p|, 1
  {
    hide LineEnd, FlushData, WellFormed, Size;
    if p != [] {
      var i := LineEnd(p);
      if expected.Some? { FlushDataShrinks(p, expected.value, room, limits); }
      else if i < |p| { FlushDataShrinks(p[i + 2..], Size(p[..i]), room, limits); }
    }
  }

  lemma {:induction false} FlushDataShrinks(p: seq<byte>, n: nat, room: nat, limits: Limits)
    ensures Shrinks(|p|, FlushData(p, n, room, limits), limits)
    decreases |p|, 0
  {
    hide Flush;
    if |p| >= n + 2 && room > 0 { FlushShrinks(p[n + 2..], None, room - 1, limits); }
  }

  predicate Fit(pieces: seq<seq<byte>>, limit: nat) {
    forall i :: 0 <= i < |pieces| ==> |pieces[i]| + 2 <= limit
  }

  /** The pieces are within what the pending limit can hold. */
  lemma {:induction false} PiecesFit(p: seq<byte>, expected: Option<nat>, room: nat, limits: Limits)
    requires |p| <= limits.pending
    ensures Fit(Flush(p, expected, room, limits).out, limits.pending)
    decreases |p|, 1
  {
    if p != [] {
      var i := LineEnd(p);
      if expected.Some? { PiecesOfDataFit(p, expected.value, room, limits); }
      else if i < |p| { PiecesOfDataFit(p[i + 2..], Size(p[..i]), room, limits); }
    }
  }

  lemma {:induction false} PiecesOfDataFit(p: seq<byte>, n: nat, room: nat, limits: Limits)
    requires |p| <= limits.pending
    ensures Fit(FlushData(p, n, room, limits).out, limits.pending)
    decreases |p|, 0
  {
    if |p| >= n + 2 && room > 0 {
      PiecesFit(p[n + 2..], None, room - 1, limits);
      hide Flush;
    }
  }

  lemma FlushOfEmpty(expected: Option<nat>, room: nat, limits: Limits)
    ensures Flush([], expected, room, limits) == Flushed([], [], expected, Drained)
  {}
}
