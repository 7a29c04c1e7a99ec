// What a single VWS line gives, and how a single character is decoded: a line up to the
// limit is one frame, a longer or a refused one is a fault with its code, and the bytes of
// a character are held back until the last of them is there. The limit and the codes stand
// here as numbers.

module VwsFrameLaws {
  import opened Bytes
  import opened VwsLine

  /** A line with its newline is one frame up to a MiB, unless the reader refuses it, and a fault beyond. */
  lemma LineExactly(line: seq<byte>, judge: seq<byte> -> Verdict)
    requires forall i :: 0 <= i < |line| ==> line[i] != 10
    ensures Frames(line + [10], judge)
         == if |line| > 1048576 then [Fault(1009)] else if judge(line).Malformed? then [Fault(1002)] else [Frame(line)]
  {
    var text := line + [10];
    assert forall j :: 0 <= j < |line| ==> text[j] != 10;
    FindIs(text, |line|);
    assert text[..|line|] == line && text[|line| + 1..] == [];
    EmptyGivesNothing(judge);
    hide Find;
  }

  lemma FindIs(text: seq<byte>, i: nat)
    requires i < |text| && text[i] == 10 && forall j :: 0 <= j < i ==> text[j] != 10
    ensures Find(text) == i
  {}

  lemma EmptyGivesNothing(judge: seq<byte> -> Verdict)
    ensures Frames([], judge) == []
  {}

  /** An unfinished line is nothing yet up to a MiB, and a fault beyond. */
  lemma UnfinishedLineExactly(text: seq<byte>, judge: seq<byte> -> Verdict)
    requires forall i :: 0 <= i < |text| ==> text[i] != 10
    ensures Frames(text, judge) == if |text| > 1048576 then [Fault(1009)] else []
  {
    assert Find(text) == |text|;
    hide Find;
  }

  /** A character of UTF-8: one byte below 0x80, or a leading byte and as many others as it announces. */
  predicate IsCharacter(c: seq<byte>) {
    && c != []
    && (|c| == 1 <==> c[0] < 0x80) && (|c| == 2 <==> 0xc0 <= c[0] < 0xe0) && (|c| == 3 <==> 0xe0 <= c[0] < 0xf0)
    && (|c| == 4 <==> 0xf0 <= c[0] < 0xf8) && |c| <= 4
  }

  /** The decoder holds a character back until its last byte, and then gives it out whole. */
  lemma {:induction false} CharacterIsHeldExactly(c: seq<byte>, n: nat)
    requires IsCharacter(c) && n <= |c|
    ensures Decode([], c[..n]) == if n < |c| then Decoded([], c[..n]) else Decoded(c, [])
  {
    hide Width, IsCharacter, Decode, DecodeOne;
    if n == 0 { assert c[..0] == []; NothingDecoded(); }
    else {
      CharacterIsHeldExactly(c, n - 1);
      WidthIsLength(c);
      var p := c[..n];
      assert p[..n - 1] == c[..n - 1] && p[n - 1] == c[n - 1] && c[..n - 1] + [c[n - 1]] == p && p[0] == c[0];
      assert c[..|c|] == c;
      HoldsOrGives(c[..n - 1], c[n - 1], c);
    }
  }

  lemma NothingDecoded()
    ensures Decode([], []) == Decoded([], [])
  {}

  lemma WidthIsLength(c: seq<byte>)
    requires IsCharacter(c)
    ensures c != [] && Width(c[0]) == |c|
  {}

  lemma HoldsOrGives(held: seq<byte>, b: byte, c: seq<byte>)
    requires c != [] && (held + [b])[0] == c[0] && Width(c[0]) == |c|
    ensures Decode([], held + [b]) == (var before := Decode([], held); var one := DecodeOne(before.held, b); Decoded(before.text + one.text, one.held))
    ensures DecodeOne(held, b) == if |held| + 1 >= |c| then Decoded(held + [b], []) else Decoded([], held + [b])
  {
    hide Width;
    var p := held + [b];
    assert p[..|p| - 1] == held && p[|p| - 1] == b;
  }
}
