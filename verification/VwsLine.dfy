// VWS/1 frames: bytes in any pieces are decoded as UTF-8 and cut at newlines, up to the first
// oversized or malformed line. The opening line's own reader gives the rest of its bytes back.

module VwsLine {
  import opened Bytes

  const Newline: byte := 10
  const MaxFrame: nat := 1024 * 1024

  // ---------------------------------------------------------------- the UTF-8 decoder

  /** How many bytes the character starting with b has. */
  function Width(b: byte): (n: nat)
    ensures 1 <= n <= 4
  {
    if b < 0xC0 then 1 else if b < 0xE0 then 2 else if b < 0xF0 then 3 else if b < 0xF8 then 4 else 1
  }

  /** The decoded bytes, and those of a character that is not complete yet. */
  datatype Decoded = Decoded(text: seq<byte>, held: seq<byte>)

  function DecodeOne(held: seq<byte>, b: byte): Decoded {
    var all := held + [b];
    if |all| >= Width(all[0]) then Decoded(all, []) else Decoded([], all)
  }

  function Decode(held: seq<byte>, bytes: seq<byte>): Decoded {
    if bytes == [] then Decoded([], held)
    else
      var before := Decode(held, bytes[..|bytes| - 1]);
      var one := DecodeOne(before.held, bytes[|bytes| - 1]);
      Decoded(before.text + one.text, one.held)
  }

  lemma {:induction false} DecodeInPieces(held: seq<byte>, a: seq<byte>, b: seq<byte>)
    ensures var first := Decode(held, a);
            var second := Decode(first.held, b);
            Decode(held, a + b) == Decoded(first.text + second.text, second.held)
  {
    if b == [] {
      assert a + b == a;
      assert Decode(held, a).text + [] == Decode(held, a).text;
    } else {
      var b1 := b[..|b| - 1];
      assert (a + b)[..|a + b| - 1] == a + b1;
      DecodeInPieces(held, a, b1);
      var first := Decode(held, a);
      var second := Decode(first.held, b1);
      var one := DecodeOne(second.held, b[|b| - 1]);
      assert (first.text + second.text) + one.text == first.text + (second.text + one.text);
    }
  }

  /** The decoder loses no byte. */
  lemma {:induction false} DecodeKeepsBytes(held: seq<byte>, bytes: seq<byte>)
    ensures var d := Decode(held, bytes); d.text + d.held == held + bytes
  {
    if bytes == [] {
      assert [] + held == held + bytes;
    } else {
      var before := Decode(held, bytes[..|bytes| - 1]);
      DecodeKeepsBytes(held, bytes[..|bytes| - 1]);
      var d := Decode(held, bytes);
      var b := bytes[|bytes| - 1];
      assert d.text + d.held == before.text + (before.held + [b]);
      assert before.text + (before.held + [b]) == (before.text + before.held) + [b];
      assert held + bytes == (held + bytes[..|bytes| - 1]) + [b];
    }
  }

  // ---------------------------------------------------------------- all at once

  /** What the JSON reader makes of one line. */
  datatype Verdict = Message | Closing | Malformed

  datatype Event = Frame(line: seq<byte>) | Fault(code: nat)

  function Find(text: seq<byte>): (i: nat)
    ensures i <= |text| && (i < |text| ==> text[i] == Newline)
    ensures forall j :: 0 <= j < i ==> text[j] != Newline
  {
    if text == [] || text[0] == Newline then 0 else 1 + Find(text[1..])
  }

  /** The frames of a whole text, up to the first fault or closing frame. */
  function Frames(text: seq<byte>, judge: seq<byte> -> Verdict): seq<Event>
    decreases |text|
  {
    var i := Find(text);
    if i > MaxFrame then [Fault(1009)]
    else if i == |text| then []
    else
      match judge(text[..i])
      case Malformed => [Fault(1002)]
      case Closing => [Frame(text[..i])]
      case Message => [Frame(text[..i])] + Frames(text[i + 1..], judge)
  }

  /** The parser stops at the end of this text. */
  predicate Stops(text: seq<byte>, judge: seq<byte> -> Verdict)
    decreases |text|
  {
    var i := Find(text);
    i > MaxFrame || (i < |text| && (!judge(text[..i]).Message? || Stops(text[i + 1..], judge)))
  }

  /** The text behind the last newline, when the parser does not stop. */
  function Tail(text: seq<byte>): (tail: seq<byte>)
    ensures |tail| <= |text| && Find(tail) == |tail|
    decreases |text|
  {
    var i := Find(text);
    if i == |text| then text else Tail(text[i + 1..])
  }

  lemma FindInFront(text: seq<byte>, more: seq<byte>)
    ensures Find(text) < |text| ==> Find(text + more) == Find(text)
    ensures Find(text) == |text| ==> Find(text + more) == |text| + Find(more)
  {
    var i, k := Find(text), Find(text + more);
    assert forall j :: 0 <= j < |text| ==> (text + more)[j] == text[j];
    assert forall j :: 0 <= j < |more| ==> (text + more)[|text| + j] == more[j];
  }

  lemma {:induction false} StopsExtend(text: seq<byte>, more: seq<byte>, judge: seq<byte> -> Verdict)
    ensures Stops(text + more, judge) <==> Stops(text, judge) || Stops(Tail(text) + more, judge)
    decreases |text|
  {
    hide Find;
    var i := Find(text);
    FindInFront(text, more);
    if i < |text| {
      assert (text + more)[..i] == text[..i] && (text + more)[i + 1..] == text[i + 1..] + more;
      StopsExtend(text[i + 1..], more, judge);
    }
  }

  predicate Begins(text: seq<byte>, line: seq<byte>, rest: seq<byte>) {
    text == line + [Newline] + rest && Find(line) == |line| <= MaxFrame
  }

  lemma FramesOfFirst(text: seq<byte>, line: seq<byte>, rest: seq<byte>, judge: seq<byte> -> Verdict)
    requires Begins(text, line, rest) && judge(line).Message?
    ensures Frames(text, judge) == [Frame(line)] + Frames(rest, judge)
    ensures Stops(text, judge) == Stops(rest, judge) && Tail(text) == Tail(rest)
  {
    FindInFront(line, [Newline] + rest);
    assert text == line + ([Newline] + rest);
    assert Find([Newline] + rest) == 0;
    assert text[..|line|] == line && text[|line| + 1..] == rest;
  }

  lemma BeginsAlone(text: seq<byte>)
    requires Find(text) < |text| && Find(text) <= MaxFrame
    ensures Begins(text, text[..Find(text)], text[Find(text) + 1..])
  {
    LineIsFound(text, Find(text));
    hide Find;
    SplitAt(text, Find(text));
  }

  lemma LineIsFound(text: seq<byte>, i: nat)
    requires i <= |text| && forall j :: 0 <= j < i ==> text[j] != Newline
    ensures Find(text[..i]) == i
  {
    hide Find;
    assert forall j :: 0 <= j < i ==> text[..i][j] == text[j];
  }

  lemma BeginsStill(text: seq<byte>, line: seq<byte>, rest: seq<byte>, more: seq<byte>)
    requires Begins(text, line, rest)
    ensures Begins(text + more, line, rest + more)
  {
    hide Find;
    assert text + more == line + [Newline] + (rest + more);
  }

  lemma BeginsWith(text: seq<byte>, more: seq<byte>)
    ensures var i := Find(text);
            i < |text| && i <= MaxFrame ==>
              Begins(text, text[..i], text[i + 1..]) && Begins(text + more, text[..i], text[i + 1..] + more)
  {
    hide Find, Begins;
    var i := Find(text);
    if i < |text| && i <= MaxFrame {
      BeginsAlone(text);
      BeginsStill(text, text[..i], text[i + 1..], more);
    }
  }

  /** More text changes nothing before a stop, and otherwise goes on behind the last newline. */
  lemma {:induction false} FramesExtend(text: seq<byte>, more: seq<byte>, judge: seq<byte> -> Verdict)
    ensures Frames(text + more, judge) ==
            if Stops(text, judge) then Frames(text, judge) else Frames(text, judge) + Frames(Tail(text) + more, judge)
    decreases |text|
  {
    hide Find, Begins;
    var i := Find(text);
    if i < |text| && i <= MaxFrame && judge(text[..i]).Message? {
      hide Frames, Stops, Tail;
      BeginsWith(text, more);
      FramesOfFirst(text, text[..i], text[i + 1..], judge);
      FramesOfFirst(text + more, text[..i], text[i + 1..] + more, judge);
      FramesExtend(text[i + 1..], more, judge);
      Associates([Frame(text[..i])], Frames(text[i + 1..], judge), Frames(Tail(text) + more, judge));
    } else { FramesStop(text, more, judge); }
  }

  lemma Associates(a: seq<Event>, b: seq<Event>, c: seq<Event>)
    ensures a + (b + c) == (a + b) + c
  {}

  lemma FramesStop(text: seq<byte>, more: seq<byte>, judge: seq<byte> -> Verdict)
    requires var i := Find(text); i == |text| || i > MaxFrame || !judge(text[..i]).Message?
    ensures Frames(text + more, judge) ==
            if Stops(text, judge) then Frames(text, judge) else Frames(text, judge) + Frames(Tail(text) + more, judge)
  {
    hide Find;
    var i := Find(text);
    FindInFront(text, more);
    if i < |text| { assert (text + more)[..i] == text[..i]; }
    else if i <= MaxFrame { assert Tail(text) == text && Frames(text, judge) == []; }
  }

  // ---------------------------------------------------------------- piece by piece

  /** What one pass over the buffer finds, what it leaves, and whether the peer closed. */
  datatype Parsed = Parsed(events: seq<Event>, buffer: seq<byte>, closed: bool)

  function Parse(buffer: seq<byte>, judge: seq<byte> -> Verdict): Parsed
    decreases |buffer|
  {
    var i := Find(buffer);
    if i == |buffer| then
      if i > MaxFrame then Parsed([Fault(1009)], [], false) else Parsed([], buffer, false)
    else
      var line, rest := buffer[..i], buffer[i + 1..];
      if i > MaxFrame then Parsed([Fault(1009)], rest, false)
      else
        match judge(line)
        case Malformed => Parsed([Fault(1002)], rest, false)
        case Closing => Parsed([Frame(line)], rest, true)
        case Message => var p := Parse(rest, judge); p.(events := [Frame(line)] + p.events)
  }

  datatype State = State(held: seq<byte>, buffer: seq<byte>, events: seq<Event>, closed: bool)

  const Initial := State([], [], [], false)

  function Step(s: State, chunk: seq<byte>, judge: seq<byte> -> Verdict): State {
    if s.closed then s
    else
      var d := Decode(s.held, chunk);
      var p := Parse(s.buffer + d.text, judge);
      State(d.held, p.buffer, s.events + p.events, p.closed)
  }

  function Run(chunks: seq<seq<byte>>, judge: seq<byte> -> Verdict): State {
    if chunks == [] then Initial else Step(Run(chunks[..|chunks| - 1], judge), chunks[|chunks| - 1], judge)
  }

  /** The events up to and with the first fault. */
  function First(events: seq<Event>): seq<Event> {
    if events == [] then [] else if events[0].Fault? then [events[0]] else [events[0]] + First(events[1..])
  }

  predicate Faulty(events: seq<Event>) {
    exists i :: 0 <= i < |events| && events[i].Fault?
  }

  lemma {:induction false} FirstAppend(a: seq<Event>, b: seq<Event>)
    ensures Faulty(a) ==> First(a + b) == First(a) && Faulty(a + b)
    ensures !Faulty(a) ==> First(a + b) == a + First(b)
  {
    if a == [] { assert a + b == b; }
    else {
      assert (a + b)[1..] == a[1..] + b;
      FirstAppend(a[1..], b);
      assert Faulty(a) ==> a[0].Fault? || Faulty(a[1..]) by {
        if Faulty(a) {
          var i :| 0 <= i < |a| && a[i].Fault?;
          if i > 0 { assert a[1..][i - 1].Fault?; }
        }
      }
      assert a[0].Fault? ==> Faulty(a);
      assert Faulty(a[1..]) ==> Faulty(a) by {
        if Faulty(a[1..]) { var i :| 0 <= i < |a| - 1 && a[1..][i].Fault?; assert a[i + 1].Fault?; }
      }
      if Faulty(a) { var i :| 0 <= i < |a| && a[i].Fault?; assert (a + b)[i].Fault?; }
    }
  }

  /** One pass finds the frames of its buffer; it leaves the tail unless it stopped. */
  lemma {:induction false} ParseFindsFrames(buffer: seq<byte>, judge: seq<byte> -> Verdict)
    ensures var p := Parse(buffer, judge);
            && p.events == Frames(buffer, judge) && First(p.events) == p.events
            && (Stops(buffer, judge) <==> p.closed || Faulty(p.events))
            && (!Stops(buffer, judge) ==> p.buffer == Tail(buffer))
    decreases |buffer|
  {
    var i := Find(buffer);
    if i < |buffer| && i <= MaxFrame && judge(buffer[..i]).Message? {
      ParseFindsFrames(buffer[i + 1..], judge);
      var p := Parse(buffer[i + 1..], judge);
      FirstAppend([Frame(buffer[..i])], p.events);
      FaultyBehind(Frame(buffer[..i]), p.events);
    } else {
      assert Frames(buffer, judge) != [] && Frames(buffer, judge)[0].Fault? ==> Faulty(Frames(buffer, judge));
    }
  }

  lemma FaultyBehind(e: Event, events: seq<Event>)
    requires e.Frame?
    ensures !Faulty([e]) && (Faulty([e] + events) <==> Faulty(events))
  {
    if Faulty(events) { var i :| 0 <= i < |events| && events[i].Fault?; assert ([e] + events)[i + 1].Fault?; }
    if Faulty([e] + events) { var i :| 0 <= i < |events| + 1 && ([e] + events)[i].Fault?; assert events[i - 1].Fault?; }
  }

  /** The parser has found the frames of the text so far, or those up to where it stops. */
  predicate Follows(s: State, bytes: seq<byte>, judge: seq<byte> -> Verdict) {
    var d := Decode([], bytes);
    && First(s.events) == Frames(d.text, judge)
    && (Stops(d.text, judge) <==> s.closed || Faulty(s.events))
    && (!Stops(d.text, judge) ==> s.events == Frames(d.text, judge) && s.buffer == Tail(d.text))
    && (!s.closed ==> s.held == d.held)
  }

  lemma StepFollows(s: State, bytes: seq<byte>, chunk: seq<byte>, judge: seq<byte> -> Verdict)
    requires Follows(s, bytes, judge)
    ensures Follows(Step(s, chunk, judge), bytes + chunk, judge)
  {
    var d, all := Decode([], bytes), Decode([], bytes + chunk);
    var more := Decode(d.held, chunk);
    DecodeInPieces([], bytes, chunk);
    FramesExtend(d.text, more.text, judge);
    StopsExtend(d.text, more.text, judge);
    if !s.closed {
      var p := Parse(s.buffer + more.text, judge);
      ParseFindsFrames(s.buffer + more.text, judge);
      hide Decode, Frames, Stops, Tail, Parse, Faulty;
      FirstAppend(s.events, p.events);
      if !Stops(d.text, judge) {
        FaultyAppend(s.events, p.events);
        TailInFront(d.text, more.text, judge);
      }
    }
  }

  lemma FaultyAppend(a: seq<Event>, b: seq<Event>)
    requires !Faulty(a)
    ensures Faulty(a + b) <==> Faulty(b)
  {
    if Faulty(b) { var i :| 0 <= i < |b| && b[i].Fault?; assert (a + b)[|a| + i].Fault?; }
    if Faulty(a + b) {
      var i :| 0 <= i < |a + b| && (a + b)[i].Fault?;
      assert forall j :: 0 <= j < |a| ==> (a + b)[j] == a[j];
      assert i >= |a|;
      assert b[i - |a|].Fault?;
    }
  }

  lemma {:induction false} TailInFront(text: seq<byte>, more: seq<byte>, judge: seq<byte> -> Verdict)
    ensures Tail(text + more) == Tail(Tail(text) + more)
    decreases |text|
  {
    hide Find;
    var i := Find(text);
    FindInFront(text, more);
    if i < |text| {
      assert (text + more)[i + 1..] == text[i + 1..] + more;
      TailInFront(text[i + 1..], more, judge);
    }
  }

  lemma {:induction false} RunFollows(chunks: seq<seq<byte>>, judge: seq<byte> -> Verdict)
    ensures Follows(Run(chunks, judge), Flat(chunks), judge)
  {
    if chunks != [] {
      hide Follows, Step;
      RunFollows(chunks[..|chunks| - 1], judge);
      FlatAppend(chunks[..|chunks| - 1], chunks[|chunks| - 1]);
      assert chunks[..|chunks| - 1] + [chunks[|chunks| - 1]] == chunks;
      StepFollows(Run(chunks[..|chunks| - 1], judge), Flat(chunks[..|chunks| - 1]), chunks[|chunks| - 1], judge);
    }
  }

  /** Frames and the first fault depend on the bytes alone, not on how they were cut. */
  lemma SplitsAgree(left: seq<seq<byte>>, right: seq<seq<byte>>, judge: seq<byte> -> Verdict)
    requires Flat(left) == Flat(right)
    ensures First(Run(left, judge).events) == First(Run(right, judge).events)
    ensures Run(left, judge).closed || Faulty(Run(left, judge).events) <==> Run(right, judge).closed || Faulty(Run(right, judge).events)
  {
    RunFollows(left, judge);
    RunFollows(right, judge);
  }

  function JudgeEmpty(line: seq<byte>): Verdict {
    if line == [] then Malformed else Message
  }

  const Bad: seq<byte> := [Newline]
  const Good: seq<byte> := [65, Newline]

  lemma ParseOfBoth()
    ensures Parse(Bad, JudgeEmpty) == Parsed([Fault(1002)], [], false)
    ensures Parse(Good, JudgeEmpty) == Parsed([Frame([65])], [], false)
    ensures Parse(Bad + Good, JudgeEmpty) == Parsed([Fault(1002)], Good, false)
  {
    assert Find(Bad) == 0 && Find(Bad + Good) == 0 && Find(Good) == 1;
    assert Good[..1] == [65] && Good[2..] == [] && Bad[1..] == [] && (Bad + Good)[1..] == Good;
    assert Parse([], JudgeEmpty) == Parsed([], [], false);
  }

  lemma RunOne(s: State, chunk: seq<byte>, judge: seq<byte> -> Verdict)
    requires !s.closed && s.held == [] && s.buffer == [] && forall i :: 0 <= i < |chunk| ==> chunk[i] < 0x80
    ensures var p := Parse(chunk, judge); Step(s, chunk, judge) == State([], p.buffer, s.events + p.events, p.closed)
  {
    DecodePlain(chunk);
    assert [] + chunk == chunk;
  }

  lemma RunOfOne(chunk: seq<byte>, judge: seq<byte> -> Verdict)
    ensures Run([chunk], judge) == Step(Initial, chunk, judge) && Flat([chunk]) == chunk
  {
    hide Step;
    var none: seq<seq<byte>> := [];
    assert [chunk][..0] == none;
    assert Flat(none) == [];
  }

  lemma RunOfTwo(a: seq<byte>, b: seq<byte>, judge: seq<byte> -> Verdict)
    ensures Run([a, b], judge) == Step(Run([a], judge), b, judge) && Flat([a, b]) == a + b
  {
    hide Step;
    RunOfOne(a, judge);
    assert [a, b][..1] == [a] && [a] + [b] == [a, b];
    FlatAppend([a], b);
  }

  /** Behind a fault the cut does matter: what stands in the same piece waits for the next one. */
  lemma SplitMattersAfterFault()
    ensures Flat([Bad + Good]) == Flat([Bad, Good])
    ensures Run([Bad + Good], JudgeEmpty).events == [Fault(1002)]
    ensures Run([Bad, Good], JudgeEmpty).events == [Fault(1002), Frame([65])]
  {
    hide Parse, Step, Run, Flat;
    ParseOfBoth();
    RunOfOne(Bad + Good, JudgeEmpty);
    RunOfOne(Bad, JudgeEmpty);
    RunOfTwo(Bad, Good, JudgeEmpty);
    RunOne(Initial, Bad, JudgeEmpty);
    RunOne(Initial, Bad + Good, JudgeEmpty);
    RunOne(State([], [], [Fault(1002)], false), Good, JudgeEmpty);
  }

  lemma {:induction false} DecodePlain(bytes: seq<byte>)
    requires forall i :: 0 <= i < |bytes| ==> bytes[i] < 0x80
    ensures Decode([], bytes) == Decoded(bytes, [])
  {
    if bytes != [] { DecodePlain(bytes[..|bytes| - 1]); }
  }

  // ---------------------------------------------------------------- encoded frames

  /** A line the encoder may produce: no newline inside, whole characters, within the limit. */
  predicate IsLine(line: seq<byte>, judge: seq<byte> -> Verdict) {
    Find(line) == |line| && |line| <= MaxFrame && judge(line).Message? && Decode([], line).held == []
  }

  function Wire(lines: seq<seq<byte>>): seq<byte> {
    if lines == [] then [] else lines[0] + [Newline] + Wire(lines[1..])
  }

  function AsFrames(lines: seq<seq<byte>>): (r: seq<Event>)
    ensures |r| == |lines| && forall i :: 0 <= i < |lines| ==> r[i] == Frame(lines[i])
  {
    if lines == [] then [] else [Frame(lines[0])] + AsFrames(lines[1..])
  }

  lemma {:induction false} WireIsRead(lines: seq<seq<byte>>, judge: seq<byte> -> Verdict)
    requires forall i :: 0 <= i < |lines| ==> IsLine(lines[i], judge)
    ensures Decode([], Wire(lines)) == Decoded(Wire(lines), [])
    ensures Frames(Wire(lines), judge) == AsFrames(lines) && !Stops(Wire(lines), judge) && Tail(Wire(lines)) == []
  {
    if lines != [] {
      var line, rest := lines[0], Wire(lines[1..]);
      assert IsLine(line, judge);
      WireIsRead(lines[1..], judge);
      LineIsWhole(line);
      hide Decode, Frames, Stops, Tail, Find;
      DecodeInPieces([], line + [Newline], rest);
      FramesOfFirst(Wire(lines), line, rest, judge);
    }
  }

  lemma LineIsWhole(line: seq<byte>)
    requires Decode([], line).held == []
    ensures Decode([], line + [Newline]) == Decoded(line + [Newline], [])
  {
    DecodeKeepsBytes([], line);
    assert Decode([], line).text + [] == Decode([], line).text && [] + line == line;
    DecodeInPieces([], line, [Newline]);
    DecodePlain([Newline]);
  }

  /** However encoded frames are cut, the parser gives exactly these frames, without a fault. */
  lemma EncodedFramesArrive(lines: seq<seq<byte>>, chunks: seq<seq<byte>>, judge: seq<byte> -> Verdict)
    requires forall i :: 0 <= i < |lines| ==> IsLine(lines[i], judge)
    requires Flat(chunks) == Wire(lines)
    ensures Run(chunks, judge) == State([], [], AsFrames(lines), false)
  {
    WireIsRead(lines, judge);
    RunFollows(chunks, judge);
  }

  // ---------------------------------------------------------------- the opening line

  /** How reading the first line ends: with the line and the bytes given back, or not. */
  datatype Reading = Waiting(buffered: seq<byte>) | Oversize | Line(line: seq<byte>, remaining: seq<byte>, unread: seq<seq<byte>>)

  function Read(buffered: seq<byte>, chunks: seq<seq<byte>>, max: nat): Reading
    decreases |chunks|
  {
    if chunks == [] then Waiting(buffered)
    else
      var next := chunks[0];
      var i := Find(next);
      if i == |next| then
        if |buffered + next| > max then Oversize else Read(buffered + next, chunks[1..], max)
      else if |buffered| + i > max then Oversize
      else Line(buffered + next[..i], next[i + 1..], chunks[1..])
  }

  /** The outcome depends on the bytes alone, and every byte behind the line is still there. */
  lemma {:induction false} ReadDependsOnBytes(buffered: seq<byte>, chunks: seq<seq<byte>>, max: nat)
    requires Find(buffered) == |buffered| <= max
    ensures var total := buffered + Flat(chunks);
            var i := Find(total);
            var r := Read(buffered, chunks, max);
            && (r.Waiting? ==> r.buffered == total && i == |total| <= max)
            && (r.Oversize? ==> i > max)
            && (r.Line? ==> i < |total| && i <= max && r.line == total[..i] && r.remaining + Flat(r.unread) == total[i + 1..])
    decreases |chunks|
  {
    var total := buffered + Flat(chunks);
    hide Find;
    if chunks != [] {
      var next := chunks[0];
      var i := Find(next);
      FindInFront(buffered, next);
      if i == |next| {
        assert total == (buffered + next) + Flat(chunks[1..]);
        FindInFront(buffered + next, Flat(chunks[1..]));
        if |buffered + next| <= max { ReadDependsOnBytes(buffered + next, chunks[1..], max); }
      } else {
        LineInside(buffered, next, Flat(chunks[1..]));
      }
    } else {
      assert total == buffered;
    }
  }

  lemma LineInside(before: seq<byte>, next: seq<byte>, behind: seq<byte>)
    requires Find(before) == |before| && Find(next) < |next|
    ensures var total, k := before + (next + behind), |before| + Find(next);
            && Find(total) == k < |total|
            && total[..k] == before + next[..Find(next)] && total[k + 1..] == next[Find(next) + 1..] + behind
  {
    hide Find;
    FindInFront(before, next + behind);
    FindInFront(next, behind);
  }

  /**
   * Reading the opening line and then handing the stream to the frame parser loses and
   * repeats no byte: the parser finds the frames of exactly the bytes behind the newline.
   */
  lemma SwitchLosesNothing(chunks: seq<seq<byte>>, max: nat, judge: seq<byte> -> Verdict)
    requires Read([], chunks, max).Line?
    ensures var r := Read([], chunks, max);
            var rest := if r.remaining == [] then r.unread else [r.remaining] + r.unread;
            && Flat(chunks) == r.line + [Newline] + Flat(rest)
            && First(Run(rest, judge).events) == Frames(Decode([], Flat(chunks)[|r.line| + 1..]).text, judge)
  {
    hide Read, Frames, Decode, Stops, Tail, Run, First, Find, Flat, Faulty;
    var r := Read([], chunks, max);
    var rest := if r.remaining == [] then r.unread else [r.remaining] + r.unread;
    var total := Flat(chunks);
    ReadDependsOnBytes([], chunks, max);
    assert [] + total == total;
    FlatOfRest(r.remaining, r.unread);
    SplitAt(total, |r.line|);
    RunFollows(rest, judge);
  }

  lemma FlatOfRest(remaining: seq<byte>, unread: seq<seq<byte>>)
    ensures Flat(if remaining == [] then unread else [remaining] + unread) == remaining + Flat(unread)
  {
    assert [] + Flat(unread) == Flat(unread);
    assert ([remaining] + unread)[1..] == unread;
  }

  lemma SplitAt(total: seq<byte>, i: nat)
    requires i < |total|
    ensures total == total[..i] + [total[i]] + total[i + 1..]
  {}

  // ---------------------------------------------------------------- the two readers

  /** The parser inside the socket object. */
  class FrameParser {
    const judge: seq<byte> -> Verdict
    var held: seq<byte>
    var lineBuffer: seq<byte>
    var events: seq<Event>
    var destroyed: bool
    ghost var fed: seq<byte>

    /** The events are the frames of all the bytes fed, or those up to where the parser stops. */
    ghost predicate Valid()
      reads this
    {
      Follows(Now(), fed, judge)
    }

    ghost function Now(): State
      reads this
    {
      State(held, lineBuffer, events, destroyed)
    }

    constructor (judge: seq<byte> -> Verdict)
      ensures Now() == Initial && this.judge == judge && fed == [] && Valid()
    {
      this.judge := judge;
      held, lineBuffer, events, destroyed, fed := [], [], [], false, [];
    }

    method ProcessIncoming(chunk: seq<byte>)
      requires Valid()
      modifies this
      ensures Now() == Step(old(Now()), chunk, judge)
      ensures Valid() && fed == old(fed) + chunk
    {
      hide Parse, Decode, Ahead, Follows;
      StepFollows(Now(), fed, chunk, judge);
      fed := fed + chunk;
      if destroyed { return; }
      var d := Decode(held, chunk);
      held := d.held;
      lineBuffer := lineBuffer + d.text;
      ghost var goal := Parse(lineBuffer, judge);
      ghost var found: seq<Event> := [];
      AheadNothing(goal);
      var more := true;
      while more
        invariant held == d.held && events == old(events) + found && fed == old(fed) + chunk
        invariant more ==> !destroyed && goal == Ahead(found, Parse(lineBuffer, judge))
        invariant !more ==> goal == Parsed(found, lineBuffer, destroyed)
        decreases more, |lineBuffer|
      {
        ghost var one;
        more, one := OneLine();
        AheadOne(found, one, Parse(lineBuffer, judge));
        AheadEnd(found, one, lineBuffer, destroyed);
        found := found + one;
      }
    }

    /** One turn of the loop; the result says whether to go on. */
    method OneLine() returns (more: bool, ghost found: seq<Event>)
      requires !destroyed
      modifies this
      ensures held == old(held) && events == old(events) + found && fed == old(fed)
      ensures var now := Parse(old(lineBuffer), judge);
              if more then !destroyed && |lineBuffer| < |old(lineBuffer)| && now == Ahead(found, Parse(lineBuffer, judge))
              else now == Parsed(found, lineBuffer, destroyed)
    {
      var i := Find(lineBuffer);
      if i == |lineBuffer| {
        if i <= MaxFrame { return false, []; }
        lineBuffer := [];
        events := events + [Fault(1009)];
        return false, [Fault(1009)];
      }
      var line := lineBuffer[..i];
      lineBuffer := lineBuffer[i + 1..];
      if i > MaxFrame {
        events := events + [Fault(1009)];
        return false, [Fault(1009)];
      }
      match judge(line) {
        case Malformed =>
          events := events + [Fault(1002)];
          return false, [Fault(1002)];
        case Closing =>
          events := events + [Frame(line)];
          destroyed := true;
          return false, [Frame(line)];
        case Message =>
          events := events + [Frame(line)];
          return true, [Frame(line)];
      }
    }
  }

  function Ahead(found: seq<Event>, p: Parsed): Parsed {
    p.(events := found + p.events)
  }

  lemma AheadNothing(p: Parsed)
    ensures Ahead([], p) == p
  {}

  lemma AheadEnd(found: seq<Event>, more: seq<Event>, buffer: seq<byte>, closed: bool)
    ensures Ahead(found, Parsed(more, buffer, closed)) == Parsed(found + more, buffer, closed)
  {}

  lemma AheadOne(found: seq<Event>, more: seq<Event>, p: Parsed)
    ensures Ahead(found, Ahead(more, p)) == Ahead(found + more, p)
  {
    assert found + (more + p.events) == (found + more) + p.events;
  }

  datatype Opening = Pending | Resolved(line: seq<byte>) | TooLarge | EndedEarly | ClosedEarly

  /** The reader of the opening line; `givenBack` is what it returns to the stream. */
  class LineReader {
    const max: nat
    var buffered: seq<byte>
    var outcome: Opening
    var givenBack: seq<byte>

    constructor (max: nat)
      ensures this.max == max && buffered == [] && outcome == Pending && givenBack == []
    {
      this.max := max;
      buffered, outcome, givenBack := [], Pending, [];
    }

    method OnData(next: seq<byte>)
      requires outcome.Pending? && givenBack == []
      modifies this
      ensures var r := Read(old(buffered), [next], max);
              && outcome == (if r.Line? then Resolved(r.line) else if r.Waiting? then Pending else TooLarge)
              && givenBack == (if r.Line? then r.remaining else [])
              && (r.Waiting? ==> buffered == r.buffered)
    {
      var i := Find(next);
      if i == |next| {
        buffered := buffered + next;
        if |buffered| > max { outcome := TooLarge; }
      } else if |buffered| + i > max {
        outcome := TooLarge;
      } else {
        outcome := Resolved(buffered + next[..i]);
        givenBack := next[i + 1..];
      }
    }

    /** At the end of the stream an unfinished line counts as a line. */
    method OnEnd()
      modifies this`outcome
      ensures outcome == if !old(outcome).Pending? then old(outcome)
                         else if |buffered| > 0 then Resolved(buffered) else EndedEarly
    {
      if outcome.Pending? { outcome := if |buffered| > 0 then Resolved(buffered) else EndedEarly; }
    }

    method OnClose()
      modifies this`outcome
      ensures outcome == if old(outcome).Pending? then ClosedEarly else old(outcome)
    {
      if outcome.Pending? { outcome := ClosedEarly; }
    }
  }

  lemma ReadInPieces(buffered: seq<byte>, next: seq<byte>, chunks: seq<seq<byte>>, max: nat)
    ensures var r, all := Read(buffered, [next], max), Read(buffered, [next] + chunks, max);
            all == if r.Waiting? then Read(r.buffered, chunks, max) else if r.Line? then r.(unread := chunks) else r
  {
    assert ([next] + chunks)[1..] == chunks && [next][1..] == [];
  }

  /** What `LineReader.OnData` does to a reader, piece after piece, as long as it waits. */
  function Fed(r: Reading, pieces: seq<seq<byte>>, max: nat): Reading
    decreases |pieces|
  {
    if r.Line? then r.(unread := pieces)
    else if r.Oversize? || pieces == [] then r
    else Fed(Read(r.buffered, [pieces[0]], max), pieces[1..], max)
  }

  /** Feeding the reader one piece after another is reading all of them. */
  lemma {:induction false} FeedingIsReading(buffered: seq<byte>, pieces: seq<seq<byte>>, max: nat)
    ensures Fed(Waiting(buffered), pieces, max) == Read(buffered, pieces, max)
    decreases |pieces|
  {
    if pieces != [] {
      hide Find;
      ReadInPieces(buffered, pieces[0], pieces[1..], max);
      assert [pieces[0]] + pieces[1..] == pieces;
      var r := Read(buffered, [pieces[0]], max);
      if r.Waiting? { FeedingIsReading(r.buffered, pieces[1..], max); }
    }
  }
}
