// When the cut of a VWS/1 stream into pieces matters for its events, and when it does not.

module VwsCuts {
  import opened Bytes
  import opened VwsLine
  import opened VwsPieces

  /** If the condition holds, every cut gives the frames of the whole text. */
  lemma AgreeingCut(chunks: seq<seq<byte>>, judge: seq<byte> -> Verdict)
    requires Alone(Flat(chunks)) && CutsAgree(Decode([], Flat(chunks)).text, judge)
    ensures Run(chunks, judge).events == Frames(Decode([], Flat(chunks)).text, judge)
  {
    var bytes := Flat(chunks);
    assert bytes + [] == bytes;
    RunAgrees(chunks, bytes, [], judge);
    var s := Run(chunks, judge);
    hide Run, Flat, CutsAgree, Alone;
    assert Rest(bytes, []) == [] && s.buffer + [] == s.buffer;
    if Going(s, bytes, [], Frames(Decode([], bytes).text, judge), judge) {
      assert Frames(s.buffer, judge) == [];
      assert s.events + [] == s.events;
    }
  }

  /** If it does not, some cut into two pieces, none of them empty, adds events. */
  lemma DifferingCut(bytes: seq<byte>, judge: seq<byte> -> Verdict) returns (n: nat)
    requires Alone(bytes) && !CutsAgree(Decode([], bytes).text, judge)
    ensures 0 < n < |bytes|
    ensures |Run([bytes[..n], bytes[n..]], judge).events| > |Run([bytes], judge).events|
  {
    var text := Decode([], bytes).text;
    DecodeKeepsBytes([], bytes);
    assert [] + bytes == bytes && bytes[..|text|] == text;
    TextIsWhole(bytes);
    AloneInFront(bytes, |text|);
    hide Alone, CutsAgree, Run, Matters, Decode;
    n := MatterSomewhere(text, judge);
    CutAdds(bytes, n, judge);
    MattersInside(text, n, judge);
  }

  lemma MattersInside(text: seq<byte>, n: nat, judge: seq<byte> -> Verdict)
    requires n <= |text| && Matters(text, n, judge)
    ensures 0 < n < |text| && Frames(text[n..], judge) != []
  {
    hide Decode;
    NothingInNothing(judge);
    assert text[..0] == [] && text[0..] == text && text[|text|..] == [];
  }

  lemma NothingInNothing(judge: seq<byte> -> Verdict)
    ensures Frames([], judge) == [] && Parse([], judge) == Parsed([], [], false)
  {}

  /**
   * When all cuts of a stream give the same events: exactly under the condition above, for
   * any bytes in which no newline stands inside a character.
   */
  lemma CutsAgreeExactly(bytes: seq<byte>, judge: seq<byte> -> Verdict)
    requires Alone(bytes)
    ensures (forall chunks :: Flat(chunks) == bytes ==> Run(chunks, judge).events == Run([bytes], judge).events)
       <==> CutsAgree(Decode([], bytes).text, judge)
  {
    hide Run, Decode, CutsAgree, Alone, Flat, Frames;
    WholeCut(bytes);
    if CutsAgree(Decode([], bytes).text, judge) {
      AgreeingCut([bytes], judge);
      forall chunks | Flat(chunks) == bytes ensures Run(chunks, judge).events == Run([bytes], judge).events {
        AgreeingCut(chunks, judge);
      }
    } else {
      var n := DifferingCut(bytes, judge);
      TwoCut(bytes, n);
    }
  }

  lemma WholeCut(bytes: seq<byte>)
    ensures Flat([bytes]) == bytes
  {
    assert [bytes][1..] == [];
  }

  lemma TwoCut(bytes: seq<byte>, n: nat)
    requires n <= |bytes|
    ensures Flat([bytes[..n], bytes[n..]]) == bytes
  {
    var two := [bytes[..n], bytes[n..]];
    assert two[1..] == [bytes[n..]];
    WholeCut(bytes[n..]);
    assert bytes[..n] + bytes[n..] == bytes;
  }

  // ---------------------------------------------------------------- what the condition says of each fault

  /** Without a fault the events are those of the text, for any bytes and cuts. */
  lemma NoFaultNoDifference(left: seq<seq<byte>>, right: seq<seq<byte>>, judge: seq<byte> -> Verdict)
    requires Flat(left) == Flat(right) && !Faulty(Run(left, judge).events)
    ensures Run(left, judge).events == Run(right, judge).events
  {
    RunFollows(left, judge);
    RunFollows(right, judge);
    hide Run, Decode, Frames, Stops, Tail, Flat;
    SameUnlessFaulty(Run(left, judge).events);
    SameUnlessFaulty(Run(right, judge).events);
  }

  lemma {:induction false} SameUnlessFaulty(events: seq<Event>)
    ensures !Faulty(events) ==> First(events) == events
    ensures Faulty(events) <==> Faulty(First(events))
  {
    if events != [] {
      SameUnlessFaulty(events[1..]);
      assert events == [events[0]] + events[1..];
      if events[0].Frame? {
        FaultyBehind(events[0], events[1..]);
        FaultyBehind(events[0], First(events[1..]));
      } else { assert events[0].Fault? && First(events)[0].Fault?; }
    }
  }

  /** Whole messages in front change nothing. */
  lemma {:induction false} BehindMessages(front: seq<byte>, text: seq<byte>, judge: seq<byte> -> Verdict)
    requires !Stops(front, judge) && Tail(front) == []
    ensures CutsAgree(front + text, judge) == CutsAgree(text, judge)
    decreases |front|
  {
    hide Find, CutsAgree, Stops, Tail;
    var i := Find(front);
    FindInFront(front, text);
    OneStop(front, judge);
    if i < |front| {
      assert (front + text)[..i] == front[..i] && (front + text)[i + 1..] == front[i + 1..] + text;
      FirstMessage(front + text, judge);
      BehindMessages(front[i + 1..], text, judge);
    } else { assert front + text == text; }
  }

  lemma OneStop(text: seq<byte>, judge: seq<byte> -> Verdict)
    requires !Stops(text, judge)
    ensures var i := Find(text);
            if i == |text| then Tail(text) == text
            else i <= MaxFrame && judge(text[..i]).Message? && !Stops(text[i + 1..], judge) && Tail(text) == Tail(text[i + 1..])
  {
    hide Find;
  }

  lemma FirstMessage(text: seq<byte>, judge: seq<byte> -> Verdict)
    requires var i := Find(text); i < |text| && i <= MaxFrame && judge(text[..i]).Message?
    ensures CutsAgree(text, judge) == CutsAgree(text[Find(text) + 1..], judge)
  {
    hide Find;
  }

  /** Behind a malformed line all cuts agree exactly if what is there gives no event. */
  lemma BehindMalformed(line: seq<byte>, rest: seq<byte>, judge: seq<byte> -> Verdict)
    requires Find(line) == |line| <= MaxFrame && judge(line).Malformed?
    ensures CutsAgree(line + [Newline] + rest, judge) <==> Frames(rest, judge) == []
  {
    OneLine(line, rest);
    hide Find;
  }

  lemma OneLine(line: seq<byte>, rest: seq<byte>)
    requires Find(line) == |line|
    ensures var text := line + [Newline] + rest; Find(text) == |line| < |text| && text[..|line|] == line && text[|line| + 1..] == rest
  {
    var text := line + [Newline] + rest;
    LineEndsAt(text, |line|);
  }

  /** A line that is too long always makes the cut matter once its newline is there. */
  lemma LongLineDiffers(line: seq<byte>, rest: seq<byte>, judge: seq<byte> -> Verdict)
    requires Find(line) == |line| > MaxFrame
    ensures !CutsAgree(line + [Newline] + rest, judge)
  {
    OneLine(line, rest);
    hide Find;
  }

  /** An unfinished line of single-byte characters does exactly if it is longer than twice the limit and one. */
  lemma UnfinishedExactly(text: seq<byte>, judge: seq<byte> -> Verdict)
    requires Find(text) == |text| && forall i :: 0 <= i < |text| ==> text[i] < 0x80
    ensures CutsAgree(text, judge) <==> |text| <= 2 * MaxFrame + 1
  {
    hide Decode, Find;
    if |text| > 2 * MaxFrame + 1 {
      DecodePlain(text[..MaxFrame + 1]);
      assert CutTooLong(text, MaxFrame + 1);
    }
  }
}
