// The size lines of a chunked body, byte by byte: which bytes are digits and what they are
// worth, which lines are taken and which are refused, what a line of each size leads to,
// and after which piece a flush pauses. The codes of the characters and the largest size
// stand here as numbers.

module ChunkedGrammar {
  import opened Prelude
  import opened Bytes
  import opened ChunkedDecoder

  /** The value of a hexadecimal digit in either case, or none. */
  predicate IsHex(b: byte, v: nat) {
    || (0x30 <= b <= 0x39 && v == b as nat - 0x30)
    || (0x41 <= b <= 0x46 && v == b as nat - 0x37)
    || (0x61 <= b <= 0x66 && v == b as nat - 0x57)
  }

  /** Of plain bytes, these are the digits, and these their values. */
  lemma DigitExactly(b: byte)
    requires b < 0x80
    ensures forall v: nat :: Digit(b) == Some(v) <==> IsHex(b, v)
  {}

  /** A size is read from the left: each digit more makes sixteen times what was there, and itself. */
  lemma ValueGoesOn(digits: seq<byte>, d: byte, v: nat)
    requires (forall j :: 0 <= j < |digits| ==> Digit(digits[j]).Some?) && d < 0x80 && IsHex(d, v)
    ensures Value(digits + [d]) == 16 * Value(digits) + v && Value([]) == 0
  {
    DigitExactly(d);
    assert (digits + [d])[..|digits|] == digits;
  }

  predicate IsDigit(b: byte) {
    0x30 <= b <= 0x39 || 0x41 <= b <= 0x46 || 0x61 <= b <= 0x66
  }

  /** The line's digits are followed by nothing, or by a semicolon and what holds no line break. */
  predicate IsSizeLine(line: seq<byte>, n: nat) {
    && 0 < n <= |line| && (forall j :: 0 <= j < n ==> IsDigit(line[j]))
    && (n < |line| ==> line[n] == 0x3b && forall j :: n < j < |line| ==> line[j] != 10 && line[j] != 13)
  }

  lemma {:induction false} DigitsAre(line: seq<byte>, n: nat)
    requires n <= |line| && (forall j :: 0 <= j < n ==> Digit(line[j]).Some?) && (n < |line| ==> Digit(line[n]).None?)
    ensures Digits(line) == n
  {
    if n > 0 { DigitsAre(line[1..], n - 1); }
  }

  /** A line of plain bytes is accepted exactly if it is such a size line. */
  lemma WellFormedExactly(line: seq<byte>)
    requires forall j :: 0 <= j < |line| ==> line[j] < 0x80
    ensures WellFormed(line) <==> exists n: nat :: IsSizeLine(line, n)
  {
    hide Digits;
    forall j | 0 <= j < |line| ensures Digit(line[j]).Some? <==> IsDigit(line[j]) {}
    hide Digit, IsDigit;
    assert forall j :: 0 <= j < |line| ==> line[j] as int % 128 == line[j] as int;
    if WellFormed(line) { assert IsSizeLine(line, Digits(line)); }
    if n: nat :| IsSizeLine(line, n) {
      if n < |line| { SemicolonIsNoDigit(line[n]); }
      DigitsAre(line, n);
    }
  }

  lemma SemicolonIsNoDigit(b: byte)
    ensures b == 0x3b ==> Digit(b).None?
  {}

  /** A line that is none, or whose size is no safe integer, is refused; size 0 ends the body, and any other starts a chunk. */
  lemma LineDecidesExactly(line: seq<byte>, more: seq<byte>, room: nat, limits: Limits)
    requires LineEnd(line + [13, 10]) == |line| <= limits.line
    ensures var f := Flush(line + [13, 10] + more, None, room, limits);
            if !WellFormed(line) || Size(line) > 9007199254740991 then f.stop.BadLine? && f.out == []
            else if Size(line) == 0 then f == Flushed([], [], None, Finished)
            else f == FlushData(more, Size(line), room, limits)
  {
    var p := line + [13, 10];
    LineEndStays(p, more);
    assert (p + more)[..|line|] == line && (p + more)[|line| + 2..] == more;
    hide LineEnd, WellFormed, Size, FlushData;
  }

  // ---------------------------------------------------------------- pausing

  /** A flush asks to pause exactly with the piece that leaves the output no more room. */
  lemma {:induction false} FlushPausesExactly(p: seq<byte>, expected: Option<nat>, room: nat, limits: Limits)
    ensures var f := Flush(p, expected, room, limits);
            |f.out| <= room + 1 && (f.stop.Paused? <==> |f.out| == room + 1)
    decreases |p|, 1
  {
    hide LineEnd, WellFormed, Size;
    if p != [] {
      var i := LineEnd(p);
      if expected.Some? { DataPausesExactly(p, expected.value, room, limits); }
      else if i < |p| { DataPausesExactly(p[i + 2..], Size(p[..i]), room, limits); }
    }
  }

  lemma {:induction false} DataPausesExactly(p: seq<byte>, n: nat, room: nat, limits: Limits)
    ensures var f := FlushData(p, n, room, limits);
            |f.out| <= room + 1 && (f.stop.Paused? <==> |f.out| == room + 1)
    decreases |p|, 0
  {
    if |p| >= n + 2 && room > 0 {
      FlushPausesExactly(p[n + 2..], None, room - 1, limits);
      hide Flush;
    }
  }
}
