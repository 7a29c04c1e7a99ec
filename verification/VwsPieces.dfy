// Cuts of a VWS/1 stream, piece by piece: the text of a stream that is cut anywhere is whole
// characters, a fault in it makes the place of the cut matter or not, and what holds of one
// pass over the buffer holds of all the passes of a run.
//
// The theorem about all cuts, and what it says of each fault, is in VwsCuts.dfy.

module VwsPieces {
  import opened Bytes
  import opened VwsLine

  // ---------------------------------------------------------------- whole characters

  /** The text consists of whole characters. */
  predicate Whole(text: seq<byte>) {
    Decode([], text).held == []
  }

  /** No newline stands inside a character, as in any UTF-8. */
  predicate Alone(text: seq<byte>) {
    forall n :: 0 <= n < |text| && text[n] == Newline ==> Whole(text[..n])
  }

  lemma WholeIsText(text: seq<byte>)
    requires Whole(text)
    ensures Decode([], text) == Decoded(text, [])
  {
    DecodeKeepsBytes([], text);
    assert Decode([], text).text + [] == Decode([], text).text && [] + text == text;
  }

  /** Behind whole characters the decoder goes on as from the start. */
  lemma BehindWhole(a: seq<byte>, b: seq<byte>)
    requires Whole(a)
    ensures Decode([], a + b) == Decoded(a + Decode([], b).text, Decode([], b).held)
    ensures Whole(a + b) <==> Whole(b)
  {
    WholeIsText(a);
    DecodeInPieces([], a, b);
  }

  lemma NewlineIsWhole(text: seq<byte>, i: nat)
    requires Alone(text) && i < |text| && text[i] == Newline
    ensures Whole(text[..i]) && Whole(text[..i + 1])
  {
    assert text[..i + 1] == text[..i] + [Newline];
    LineIsWhole(text[..i]);
  }

  /** What stands behind a newline is such a text again. */
  lemma AloneBehind(text: seq<byte>, i: nat)
    requires Alone(text) && i < |text| && text[i] == Newline
    ensures Alone(text[i + 1..]) && (Whole(text) ==> Whole(text[i + 1..]))
  {
    hide Decode;
    var front, rest := text[..i + 1], text[i + 1..];
    NewlineIsWhole(text, i);
    assert text == front + rest;
    BehindWhole(front, rest);
    forall n | 0 <= n < |rest| && rest[n] == Newline ensures Whole(rest[..n]) {
      assert text[..i + 1 + n] == front + rest[..n];
      assert Whole(text[..i + 1 + n]);
      BehindWhole(front, rest[..n]);
    }
  }

  lemma AloneInFront(text: seq<byte>, n: nat)
    requires Alone(text) && n <= |text|
    ensures Alone(text[..n])
  {
    forall k | 0 <= k < n && text[..n][k] == Newline ensures Whole(text[..n][..k]) {
      assert text[..n][..k] == text[..k];
    }
  }

  // ---------------------------------------------------------------- the condition

  /** A text without newlines can be cut so that the parser finds it too long twice. */
  predicate TooLongTwice(text: seq<byte>) {
    exists n :: 0 <= n <= |text| && CutTooLong(text, n)
  }

  predicate CutTooLong(text: seq<byte>, n: nat)
    requires n <= |text|
  {
    n > MaxFrame && |text| - n > MaxFrame && Whole(text[..n])
  }

  /**
   * Every cut gives the same events. A fault in the text makes the cut matter: behind a
   * malformed line if any event is there, at a line that is too long always, and at an
   * unfinished line if it is too long twice.
   */
  predicate CutsAgree(text: seq<byte>, judge: seq<byte> -> Verdict)
    decreases |text|
  {
    var i := Find(text);
    if i == |text| then !TooLongTwice(text)
    else if i > MaxFrame then false
    else
      match judge(text[..i])
      case Malformed => Frames(text[i + 1..], judge) == []
      case Closing => true
      case Message => CutsAgree(text[i + 1..], judge)
  }

  // ---------------------------------------------------------------- cuts that matter

  /** A place to cut: the parser is at fault in front of it, keeps nothing, and goes on behind it. */
  predicate Matters(text: seq<byte>, n: nat, judge: seq<byte> -> Verdict)
    requires n <= |text|
  {
    && Whole(text[..n]) && Parse(text[..n], judge) == Parsed(Frames(text, judge), [], false)
    && Frames(text[n..], judge) != []
  }

  lemma FirstLine(text: seq<byte>, n: nat)
    requires Find(text) < n <= |text|
    ensures Find(text[..n]) == Find(text) && text[..n][..Find(text)] == text[..Find(text)]
    ensures text[..n][Find(text) + 1..] == text[Find(text) + 1..][..n - Find(text) - 1]
  {
    hide Find;
    assert forall j :: 0 <= j < n ==> text[..n][j] == text[j];
    LineEndsAt(text[..n], Find(text));
  }

  lemma LineEndsAt(text: seq<byte>, i: nat)
    requires i < |text| && text[i] == Newline && forall j :: 0 <= j < i ==> text[j] != Newline
    ensures Find(text) == i
  {}

  lemma NoNewline(text: seq<byte>)
    requires forall j :: 0 <= j < |text| ==> text[j] != Newline
    ensures Find(text) == |text|
  {}

  lemma UnfinishedMatters(text: seq<byte>, n: nat, judge: seq<byte> -> Verdict)
    requires Find(text) == |text| && n <= |text| && CutTooLong(text, n)
    ensures Matters(text, n, judge)
  {
    hide Decode, Find;
    NoNewline(text[..n]);
    NoNewline(text[n..]);
  }

  lemma LongMatters(text: seq<byte>, judge: seq<byte> -> Verdict)
    requires var i := Find(text); MaxFrame < i < |text| && Whole(text[..i])
    ensures Matters(text, Find(text), judge)
  {
    hide Decode, Find;
    var i := Find(text);
    NoNewline(text[..i]);
    LineEndsAt(text[i..], 0);
  }

  lemma MalformedMatters(text: seq<byte>, judge: seq<byte> -> Verdict)
    requires var i := Find(text);
             i < |text| && i <= MaxFrame && judge(text[..i]).Malformed? && Whole(text[..i + 1]) && Frames(text[i + 1..], judge) != []
    ensures Matters(text, Find(text) + 1, judge)
  {
    hide Decode, Find;
    var n := Find(text) + 1;
    FirstLine(text, n);
    assert text[..n][n..] == [];
  }

  lemma MatterBehind(text: seq<byte>, m: nat, judge: seq<byte> -> Verdict)
    requires var i := Find(text);
             && i < |text| && i <= MaxFrame && judge(text[..i]).Message? && Whole(text[..i + 1])
             && m <= |text[i + 1..]| && Matters(text[i + 1..], m, judge)
    ensures Matters(text, Find(text) + 1 + m, judge)
  {
    hide Whole, Find, Parse, Frames;
    var i := Find(text);
    var n, rest := i + 1 + m, text[i + 1..];
    var front, part := text[..n], rest[..m];
    FirstLine(text, n);
    assert text[n..] == rest[m..];
    assert front[i + 1..] == part;
    assert front == text[..i + 1] + part;
    assert Whole(front) by { BehindWhole(text[..i + 1], part); }
    OneMessage(text, judge);
    OneMessage(front, judge);
    assert Parse(front, judge) == Parsed(Frames(text, judge), [], false);
  }

  lemma OneMessage(text: seq<byte>, judge: seq<byte> -> Verdict)
    requires var i := Find(text); i < |text| && i <= MaxFrame && judge(text[..i]).Message?
    ensures var line, rest := text[..Find(text)], text[Find(text) + 1..];
            && Frames(text, judge) == [Frame(line)] + Frames(rest, judge)
            && Parse(text, judge) == Parse(rest, judge).(events := [Frame(line)] + Parse(rest, judge).events)
  {
    hide Find;
  }

  lemma {:induction false} MatterSomewhere(text: seq<byte>, judge: seq<byte> -> Verdict) returns (n: nat)
    requires Whole(text) && Alone(text) && !CutsAgree(text, judge)
    ensures n <= |text| && Matters(text, n, judge)
    decreases |text|
  {
    hide Whole, Alone, Matters, Frames, Find;
    var i := Find(text);
    if i == |text| {
      n :| 0 <= n <= |text| && CutTooLong(text, n);
      UnfinishedMatters(text, n, judge);
    } else {
      NewlineIsWhole(text, i);
      AloneBehind(text, i);
      if i > MaxFrame { n := i; LongMatters(text, judge); }
      else if judge(text[..i]).Malformed? { n := i + 1; MalformedMatters(text, judge); }
      else {
        var m := MatterSomewhere(text[i + 1..], judge);
        n := i + 1 + m;
        MatterBehind(text, m, judge);
      }
    }
  }

  lemma StepAlone(s: State, chunk: seq<byte>, judge: seq<byte> -> Verdict)
    requires !s.closed && s.held == [] && s.buffer == []
    ensures var d, t := Decode([], chunk), Step(s, chunk, judge);
            var p := Parse(d.text, judge);
            t == State(d.held, p.buffer, s.events + p.events, p.closed)
  {
    hide Decode, Parse;
    assert [] + Decode([], chunk).text == Decode([], chunk).text;
  }

  /** Cutting there adds the events behind. */
  lemma CutAdds(bytes: seq<byte>, n: nat, judge: seq<byte> -> Verdict)
    requires var text := Decode([], bytes).text; n <= |text| <= |bytes| && Matters(text, n, judge)
    ensures Run([bytes], judge).events == Frames(Decode([], bytes).text, judge)
    ensures Run([bytes[..n], bytes[n..]], judge).events == Run([bytes], judge).events + Frames(Decode([], bytes).text[n..], judge)
  {
    hide Decode, Parse, Frames, Run, Step;
    var a, b, text := bytes[..n], bytes[n..], Decode([], bytes).text;
    assert a + b == bytes;
    DecodeKeepsBytes([], bytes);
    assert [] + bytes == bytes;
    assert a == text[..n];
    WholeIsText(a);
    BehindWhole(a, b);
    assert Decode([], b).text == text[n..];
    RunOfOne(bytes, judge);
    RunOfOne(a, judge);
    RunOfTwo(a, b, judge);
    StepAlone(Initial, bytes, judge);
    StepAlone(Initial, a, judge);
    StepAlone(Run([a], judge), b, judge);
    ParseFindsFrames(text, judge);
    ParseFindsFrames(text[n..], judge);
    assert [] + Frames(text, judge) == Frames(text, judge);
  }

  // ---------------------------------------------------------------- cuts that do not matter

  /** What is still to come gives no event, whatever is cut. */
  predicate Quiet(text: seq<byte>) {
    Find(text) == |text| <= MaxFrame
  }

  /** One pass over the front of a text whose cuts agree stops only for good. */
  lemma {:induction false} PassAgrees(front: seq<byte>, rest: seq<byte>, judge: seq<byte> -> Verdict)
    requires CutsAgree(front + rest, judge) && Whole(front) && Alone(front + rest)
    ensures var p := Parse(front, judge);
            if Stops(front, judge) then
              p.events == Frames(front + rest, judge) && (p.closed || Quiet(p.buffer + rest))
            else !p.closed && CutsAgree(p.buffer + rest, judge) && p.buffer == Tail(front) && Whole(p.buffer) && Alone(p.buffer + rest) && Quiet(p.buffer)
    decreases |front|
  {
    hide Decode, Find, Frames, Stops, Tail, Parse, CutsAgree;
    var text, i := front + rest, Find(front);
    FindInFront(front, rest);
    if i < |front| {
      assert text[..i] == front[..i] && text[i + 1..] == front[i + 1..] + rest && text[i] == Newline;
      AloneBehind(text, i);
      AloneInFront(text, |front|);
      assert text[..|front|] == front;
      AloneBehind(front, i);
      PassLine(front, rest, judge);
    } else { PassEnd(front, rest, judge); }
  }

  lemma {:induction false} PassLine(front: seq<byte>, rest: seq<byte>, judge: seq<byte> -> Verdict)
    requires CutsAgree(front + rest, judge)
    requires var i := Find(front);
             && i < |front| && Find(front + rest) == i && (front + rest)[..i] == front[..i]
             && (front + rest)[i + 1..] == front[i + 1..] + rest
             && Whole(front[i + 1..]) && Alone(front[i + 1..] + rest)
    ensures var p := Parse(front, judge);
            if Stops(front, judge) then
              p.events == Frames(front + rest, judge) && (p.closed || Quiet(p.buffer + rest))
            else !p.closed && CutsAgree(p.buffer + rest, judge) && p.buffer == Tail(front) && Whole(p.buffer) && Alone(p.buffer + rest) && Quiet(p.buffer)
    decreases |front|, 0
  {
    hide Whole, Alone, Find;
    var i := Find(front);
    var behind := front[i + 1..];
    if i <= MaxFrame && judge(front[..i]).Message? { PassAgrees(behind, rest, judge); }
    else if i <= MaxFrame && judge(front[..i]).Malformed? { NoFrames(behind + rest, judge); }
  }

  lemma NoFrames(text: seq<byte>, judge: seq<byte> -> Verdict)
    ensures Frames(text, judge) == [] <==> Quiet(text)
  {}

  /** Nothing but an unfinished line is there. */
  lemma PassEnd(front: seq<byte>, rest: seq<byte>, judge: seq<byte> -> Verdict)
    requires CutsAgree(front + rest, judge) && Whole(front) && Find(front) == |front| && Alone(front + rest)
    ensures var p := Parse(front, judge);
            if Stops(front, judge) then
              p.events == Frames(front + rest, judge) && Quiet(p.buffer + rest)
            else !p.closed && p.buffer == front == Tail(front) && Quiet(front)
  {
    hide Decode, Find, Alone;
    var text := front + rest;
    FindInFront(front, rest);
    if |front| > MaxFrame {
      assert Find(text) == |text|;
      assert text[..|front|] == front;
      assert [] + rest == rest;
      assert !CutTooLong(text, |front|);
    }
  }

  // ---------------------------------------------------------------- whole runs

  /** What the decoder gives is whole characters, and what it holds back is none yet. */
  lemma {:induction false} TextIsWhole(bytes: seq<byte>)
    ensures var d := Decode([], bytes); Whole(d.text) && Decode([], d.held) == Decoded([], d.held)
  {
    if bytes != [] {
      var init, b := bytes[..|bytes| - 1], bytes[|bytes| - 1];
      TextIsWhole(init);
      var before := Decode([], init);
      var all := before.held + [b];
      assert Decode([], all) == DecodeOne(before.held, b) by { DecodeMore(before.held, b); }
      var one := DecodeOne(before.held, b);
      var d := Decode([], bytes);
      assert d == Decoded(before.text + one.text, one.held);
      hide Decode, DecodeOne;
      if one.held == [] { BehindWhole(before.text, one.text); }
      else { assert before.text + [] == before.text; }
    }
  }

  lemma DecodeMore(held: seq<byte>, b: byte)
    requires Decode([], held) == Decoded([], held)
    ensures Decode([], held + [b]) == DecodeOne(held, b)
    ensures DecodeOne(held, b).held == [] ==> DecodeOne(held, b).text == held + [b]
    ensures DecodeOne(held, b).held != [] ==> DecodeOne(held, b) == Decoded([], held + [b])
  {
    var all := held + [b];
    assert all[..|all| - 1] == held && all[|all| - 1] == b;
  }

  /** The text of the bytes still to come. */
  function Rest(w: seq<byte>, q: seq<byte>): seq<byte> {
    Decode(Decode([], w).held, q).text
  }

  /** Nothing has stopped the parser, and what is to come can be cut as one likes. */
  predicate Going(s: State, w: seq<byte>, q: seq<byte>, events: seq<Event>, judge: seq<byte> -> Verdict) {
    && !s.closed && s.held == Decode([], w).held && Whole(s.buffer) && Quiet(s.buffer)
    && Alone(s.buffer + Rest(w, q)) && CutsAgree(s.buffer + Rest(w, q), judge)
    && s.events + Frames(s.buffer + Rest(w, q), judge) == events
  }

  /** All events are there, and no more will come. */
  predicate Over(s: State, w: seq<byte>, q: seq<byte>, events: seq<Event>) {
    s.events == events && (s.closed || (s.held == Decode([], w).held && Quiet(s.buffer + Rest(w, q))))
  }

  /** A piece is taken off what is to come. */
  lemma Taken(w: seq<byte>, chunk: seq<byte>, q: seq<byte>)
    ensures var m := Decode(Decode([], w).held, chunk);
            && Rest(w, chunk + q) == m.text + Rest(w + chunk, q)
            && Decode([], w + chunk).held == m.held && Whole(m.text)
  {
    var m := Decode(Decode([], w).held, chunk);
    DecodeInPieces([], w, chunk);
    DecodeInPieces(Decode([], w).held, chunk, q);
    TextIsWhole(w);
    TextIsWhole(w + chunk);
    hide Decode;
    BehindWhole(Decode([], w).text, m.text);
  }

  lemma OverStays(s: State, w: seq<byte>, chunk: seq<byte>, q: seq<byte>, events: seq<Event>, judge: seq<byte> -> Verdict)
    requires Over(s, w, chunk + q, events)
    ensures Over(Step(s, chunk, judge), w + chunk, q, events)
  {
    if !s.closed {
      Taken(w, chunk, q);
      var m := Decode(s.held, chunk).text;
      var rest := Rest(w + chunk, q);
      hide Decode, Find;
      assert s.buffer + (m + rest) == (s.buffer + m) + rest;
      FindInFront(s.buffer + m, rest);
      assert Parse(s.buffer + m, judge) == Parsed([], s.buffer + m, false);
    }
  }

  lemma GoingOn(s: State, w: seq<byte>, chunk: seq<byte>, q: seq<byte>, events: seq<Event>, judge: seq<byte> -> Verdict)
    requires Going(s, w, chunk + q, events, judge)
    ensures var t := Step(s, chunk, judge); Going(t, w + chunk, q, events, judge) || Over(t, w + chunk, q, events)
  {
    Taken(w, chunk, q);
    var m := Decode(s.held, chunk).text;
    var rest := Rest(w + chunk, q);
    var front := s.buffer + m;
    hide Decode, Find, Frames, Stops, Tail, Parse, CutsAgree, Alone, Rest;
    BehindWhole(s.buffer, m);
    assert s.buffer + (m + rest) == front + rest;
    PassAgrees(front, rest, judge);
    ParseFindsFrames(front, judge);
    FramesExtend(front, rest, judge);
    var p := Parse(front, judge);
    if !Stops(front, judge) { Associates(s.events, p.events, Frames(p.buffer + rest, judge)); }
  }

  lemma AtTheStart(bytes: seq<byte>, judge: seq<byte> -> Verdict)
    requires Alone(bytes) && CutsAgree(Decode([], bytes).text, judge)
    ensures Going(Initial, [], bytes, Frames(Decode([], bytes).text, judge), judge)
  {
    var text := Decode([], bytes).text;
    var none: seq<byte> := [];
    assert Decode([], none) == Decoded([], []);
    DecodeKeepsBytes([], bytes);
    AloneInFront(bytes, |text|);
    hide Decode, CutsAgree, Alone, Frames;
    assert [] + bytes == bytes && bytes[..|text|] == text;
    assert [] + text == text && [] + Frames(text, judge) == Frames(text, judge);
  }

  lemma {:induction false} RunAgrees(chunks: seq<seq<byte>>, bytes: seq<byte>, q: seq<byte>, judge: seq<byte> -> Verdict)
    requires bytes == Flat(chunks) + q && Alone(bytes) && CutsAgree(Decode([], bytes).text, judge)
    ensures var s, events := Run(chunks, judge), Frames(Decode([], bytes).text, judge);
            Going(s, Flat(chunks), q, events, judge) || Over(s, Flat(chunks), q, events)
  {
    hide Step, Going, Over, Decode, Frames, CutsAgree, Alone;
    var events := Frames(Decode([], bytes).text, judge);
    if chunks == [] {
      assert [] + q == q == bytes;
      AtTheStart(bytes, judge);
    } else {
      var init, last := chunks[..|chunks| - 1], chunks[|chunks| - 1];
      FlatAppend(init, last);
      assert init + [last] == chunks;
      assert (Flat(init) + last) + q == Flat(init) + (last + q);
      RunAgrees(init, bytes, last + q, judge);
      var s := Run(init, judge);
      if Going(s, Flat(init), last + q, events, judge) { GoingOn(s, Flat(init), last, q, events, judge); }
      else { OverStays(s, Flat(init), last, q, events, judge); }
    }
  }
}
