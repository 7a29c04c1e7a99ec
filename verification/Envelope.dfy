// The binary envelope, its encoder, and its three readers.

module Envelope {
  import opened Prelude
  import opened Bytes

  const Version: byte := 1
  const PrefixBytes: nat := 6
  const Word: nat := 0x1_0000_0000

  datatype Kind = Request | Response | Error

  function Code(kind: Kind): byte {
    match kind
    case Request => 1
    case Response => 2
    case Error => 3
  }

  function KindOf(code: byte): (r: Option<Kind>)
    ensures r.Some? ==> Code(r.value) == code
    ensures forall kind: Kind :: Code(kind) == code ==> r == Some(kind)
  {
    if code == 1 then Some(Request) else if code == 2 then Some(Response) else if code == 3 then Some(Error) else None
  }

  /** How JSON text is read, and which of its values are objects; printing is its inverse where it matters. */
  datatype Json<!J> = Json(parse: seq<byte> -> Option<J>, isRecord: J -> bool)

  // ---------------------------------------------------------------- the format

  function BigEndian(n: nat): (bytes: seq<byte>)
    requires n < Word
    ensures |bytes| == 4
  {
    [(n / 0x100_0000) as byte, (n / 0x1_0000 % 0x100) as byte, (n / 0x100 % 0x100) as byte, (n % 0x100) as byte]
  }

  function Number(bytes: seq<byte>): (n: nat)
    requires |bytes| == 4
    ensures n < Word
  {
    bytes[0] as nat * 0x100_0000 + bytes[1] as nat * 0x1_0000 + bytes[2] as nat * 0x100 + bytes[3] as nat
  }

  lemma NumberOfBigEndian(n: nat)
    requires n < Word
    ensures Number(BigEndian(n)) == n
  {
    var a := n / 0x100;
    var b := a / 0x100;
    assert n / 0x1_0000 == b && n / 0x100_0000 == b / 0x100;
    assert n == 0x100 * a + n % 0x100 && a == 0x100 * b + a % 0x100 && b == 0x100 * (b / 0x100) + b % 0x100;
  }

  function Encode(kind: Kind, metadata: seq<byte>): seq<byte>
    requires |metadata| < Word
  {
    [Version, Code(kind)] + BigEndian(|metadata|) + metadata
  }

  // ---------------------------------------------------------------- reading a buffer

  datatype Fault = TooShort | BadVersion | BadType | TooLong | BadMetadata | TooMuchPending | Ended

  datatype Outcome<J> = More | Done(kind: Kind, metadata: J, rest: seq<byte>) | Fail(fault: Fault)

  function MetadataLength(b: seq<byte>): nat
    requires |b| >= PrefixBytes
  {
    Number(b[2..6])
  }

  /** What the push parser makes of what it has buffered. */
  function Read<J>(b: seq<byte>, max: nat, json: Json<J>): Outcome<J> {
    if |b| < PrefixBytes then More
    else if b[0] != Version then Fail(BadVersion)
    else if KindOf(b[1]).None? then Fail(BadType)
    else if MetadataLength(b) > max then Fail(TooLong)
    else
      var end := PrefixBytes + MetadataLength(b);
      if |b| < end then More
      else
        var value := json.parse(b[6..end]);
        if value.None? || !json.isRecord(value.value) then
          Fail(if |b| > PrefixBytes + max then TooMuchPending else BadMetadata)
        else Done(KindOf(b[1]).value, value.value, b[end..])
  }

  /** The Python decoder: it has no limit and takes any JSON value. */
  function DecodePython<J>(b: seq<byte>, json: Json<J>): Outcome<J> {
    if |b| < PrefixBytes then Fail(TooShort)
    else if b[0] != Version then Fail(BadVersion)
    else if KindOf(b[1]).None? then Fail(BadType)
    else
      var end := PrefixBytes + MetadataLength(b);
      if |b| < end then Fail(TooShort)
      else
        var value := json.parse(b[6..end]);
        if value.None? then Fail(BadMetadata) else Done(KindOf(b[1]).value, value.value, b[end..])
  }

  /** The same fault, or the one a longer buffer turns it into. */
  predicate SameFault(early: Fault, late: Fault) {
    late == early || (early.BadMetadata? && late.TooMuchPending?)
  }

  /** More bytes never change a verdict, they only lengthen the body. */
  lemma ReadExtends<J>(b: seq<byte>, more: seq<byte>, max: nat, json: Json<J>)
    ensures var now, later := Read(b, max, json), Read(b + more, max, json);
            && (now.Done? ==> later == Done(now.kind, now.metadata, now.rest + more))
            && (now.Fail? ==> later.Fail? && SameFault(now.fault, later.fault))
  {
    if |b| >= PrefixBytes {
      assert (b + more)[2..6] == b[2..6];
      var end := PrefixBytes + MetadataLength(b);
      if |b| >= end {
        assert (b + more)[6..end] == b[6..end] && (b + more)[end..] == b[end..] + more;
      }
    }
  }

  /** An encoded envelope with a body behind it is read back, the body left over. */
  lemma ReadEncode<J>(kind: Kind, metadata: seq<byte>, body: seq<byte>, max: nat, json: Json<J>)
    requires |metadata| < Word
    ensures var value := json.parse(metadata);
            |metadata| <= max && value.Some? && json.isRecord(value.value) ==>
              Read(Encode(kind, metadata) + body, max, json) == Done(kind, value.value, body)
    ensures |metadata| > max ==> Read(Encode(kind, metadata) + body, max, json) == Fail(TooLong)
    ensures json.parse(metadata).Some? ==> DecodePython(Encode(kind, metadata) + body, json) == Done(kind, json.parse(metadata).value, body)
  {
    var b := Encode(kind, metadata) + body;
    NumberOfBigEndian(|metadata|);
    assert b[2..6] == BigEndian(|metadata|);
    var end := PrefixBytes + |metadata|;
    assert b[6..end] == metadata && b[end..] == body;
  }

  /** An encoded envelope that is not complete yet yields nothing. */
  lemma ReadIncomplete<J>(kind: Kind, metadata: seq<byte>, n: nat, max: nat, json: Json<J>)
    requires |metadata| < Word && |metadata| <= max && n < |Encode(kind, metadata)|
    ensures Read(Encode(kind, metadata)[..n], max, json) == More
  {
    var e := Encode(kind, metadata);
    NumberOfBigEndian(|metadata|);
    assert e[2..6] == BigEndian(|metadata|);
    if n >= PrefixBytes { assert e[..n][2..6] == e[2..6] && e[..n][0] == Version && e[..n][1] == Code(kind); }
  }

  // ---------------------------------------------------------------- pushed in pieces

  /** Pushing until an envelope comes out or the parser throws; `unread` was never pushed. */
  datatype Pushed<J> = Pushed(outcome: Outcome<J>, buffered: seq<byte>, unread: seq<seq<byte>>)

  function PushAll<J>(buffered: seq<byte>, chunks: seq<seq<byte>>, max: nat, json: Json<J>): Pushed<J>
    decreases |chunks|
  {
    if chunks == [] then Pushed(More, buffered, [])
    else
      var o := Read(buffered + chunks[0], max, json);
      if o.More? then PushAll(buffered + chunks[0], chunks[1..], max, json)
      else Pushed(o, if o.Done? then [] else buffered + chunks[0], chunks[1..])
  }

  /** The outcome of pushing depends on the bytes alone, and no byte is lost. */
  lemma {:induction false} PushingIsReading<J>(buffered: seq<byte>, chunks: seq<seq<byte>>, max: nat, json: Json<J>)
    requires Read(buffered, max, json).More?
    ensures var p, whole := PushAll(buffered, chunks, max, json), Read(buffered + Flat(chunks), max, json);
            && (p.outcome.More? <==> whole.More?)
            && (p.outcome.More? ==> p.buffered == buffered + Flat(chunks))
            && (p.outcome.Done? ==> whole == Done(p.outcome.kind, p.outcome.metadata, p.outcome.rest + Flat(p.unread)) && p.buffered == [])
            && (p.outcome.Fail? ==> whole.Fail? && SameFault(p.outcome.fault, whole.fault))
    decreases |chunks|
  {
    if chunks == [] {
      assert buffered + Flat(chunks) == buffered;
    } else {
      var next := buffered + chunks[0];
      assert buffered + Flat(chunks) == next + Flat(chunks[1..]);
      if Read(next, max, json).More? { PushingIsReading(next, chunks[1..], max, json); }
      else { ReadExtends(next, Flat(chunks[1..]), max, json); }
    }
  }

  /**
   * For any cut of an encoded envelope and a body into pieces, the parser yields nothing
   * until the envelope is complete, then exactly it, and the remainder with the pieces not
   * pushed yet is the body.
   */
  lemma {:induction false} AnyCutIsRead<J>(kind: Kind, metadata: seq<byte>, body: seq<byte>, chunks: seq<seq<byte>>, max: nat, json: Json<J>)
    requires |metadata| < Word && |metadata| <= max
    requires json.parse(metadata).Some? && json.isRecord(json.parse(metadata).value)
    requires Flat(chunks) == Encode(kind, metadata) + body
    ensures var p := PushAll([], chunks, max, json);
            && p.outcome.Done? && p.outcome.kind == kind && Some(p.outcome.metadata) == json.parse(metadata)
            && p.outcome.rest + Flat(p.unread) == body && p.buffered == []
  {
    hide Read, Encode;
    assert Read([], max, json) == More by { ReadNothing(max, json); }
    PushingIsReading([], chunks, max, json);
    assert [] + Flat(chunks) == Flat(chunks);
    ReadEncode(kind, metadata, body, max, json);
  }

  lemma ReadNothing<J>(max: nat, json: Json<J>)
    ensures Read<J>([], max, json) == More
  {}

  /** And while it is incomplete, in whatever pieces, nothing comes out. */
  lemma {:induction false} NothingComesEarly<J>(kind: Kind, metadata: seq<byte>, n: nat, chunks: seq<seq<byte>>, max: nat, json: Json<J>)
    requires |metadata| < Word && |metadata| <= max && n < |Encode(kind, metadata)|
    requires Flat(chunks) == Encode(kind, metadata)[..n]
    ensures PushAll([], chunks, max, json).outcome == More
  {
    ReadNothing(max, json);
    ReadIncomplete(kind, metadata, n, max, json);
    PushingIsReading([], chunks, max, json);
    assert [] + Flat(chunks) == Flat(chunks);
  }

  /** The two implementations read the same envelopes, up to the limit and the kind of JSON value. */
  lemma PythonAgrees<J>(b: seq<byte>, max: nat, json: Json<J>)
    ensures var py, ts := DecodePython(b, json), Read(b, max, json);
            ts.Done? <==> py.Done? && MetadataLength(b) <= max && json.isRecord(py.metadata)
    ensures var py, ts := DecodePython(b, json), Read(b, max, json); ts.Done? ==> ts == py
  {}

  // ---------------------------------------------------------------- reading from a stream

  /** Taking n bytes off the pieces a stream will still deliver; an empty piece is a wake-up without data. */
  datatype Taken = Taken(bytes: seq<byte>, pieces: seq<seq<byte>>) | Short

  function Take(pieces: seq<seq<byte>>, n: nat): Taken
    decreases |pieces|
  {
    if n == 0 then Taken([], pieces)
    else if pieces == [] then Short
    else if |pieces[0]| > n then Taken(pieces[0][..n], [pieces[0][n..]] + pieces[1..])
    else
      var t := Take(pieces[1..], n - |pieces[0]|);
      if t.Short? then Short else Taken(pieces[0] + t.bytes, t.pieces)
  }

  lemma {:induction false} TakeIsPrefix(pieces: seq<seq<byte>>, n: nat)
    ensures var t, all := Take(pieces, n), Flat(pieces);
            && (t.Taken? <==> n <= |all|)
            && (t.Taken? ==> t.bytes == all[..n] && Flat(t.pieces) == all[n..])
    decreases |pieces|
  {
    var all := Flat(pieces);
    if n == 0 { assert all[0..] == all; }
    else if pieces != [] {
      var first, rest := pieces[0], Flat(pieces[1..]);
      if |first| > n {
        assert ([first[n..]] + pieces[1..])[1..] == pieces[1..];
        assert all[..n] == first[..n] && all[n..] == first[n..] + rest;
      } else {
        TakeIsPrefix(pieces[1..], n - |first|);
        if n <= |all| { assert all[..n] == first + rest[..n - |first|] && all[n..] == rest[n - |first|..]; }
      }
    }
  }

  /** The stream reader: prefix, length, metadata, then the push parser on what it took. */
  function ReadStream<J>(pieces: seq<seq<byte>>, max: nat, json: Json<J>): Pushed<J> {
    var prefix := Take(pieces, 2);
    if prefix.Short? then Pushed(Fail(Ended), [], [])
    else
      var length := Take(prefix.pieces, 4);
      if length.Short? then Pushed(Fail(Ended), [], [])
      else
        TakeIsPrefix(prefix.pieces, 4);
        if Number(length.bytes) > max then Pushed(Fail(TooLong), [], length.pieces)
        else
          var metadata := Take(length.pieces, Number(length.bytes));
          if metadata.Short? then Pushed(Fail(Ended), [], [])
          else Pushed(Read(prefix.bytes + length.bytes + metadata.bytes, max, json), [], metadata.pieces)
  }

  /** What the stream reader has taken when it does not run short. */
  lemma StreamTakes(pieces: seq<seq<byte>>)
    requires |Flat(pieces)| >= PrefixBytes
    ensures var prefix := Take(pieces, 2);
            prefix.Taken?
            && var length := Take(prefix.pieces, 4);
               length.Taken? && prefix.bytes + length.bytes == Flat(pieces)[..6] && |length.bytes| == 4
               && length.bytes == Flat(pieces)[2..6] && Flat(length.pieces) == Flat(pieces)[6..]
  {
    TakeIsPrefix(pieces, 2);
    TakeIsPrefix(Take(pieces, 2).pieces, 4);
    var all := Flat(pieces);
    assert all[2..][..4] == all[2..6] && all[2..][4..] == all[6..] && all[..2] + all[2..6] == all[..6];
  }

  /** Reading the envelope's own bytes and reading all of them differ in the body only. */
  lemma HeadIsRead<J>(all: seq<byte>, max: nat, json: Json<J>)
    requires |all| >= PrefixBytes && MetadataLength(all) <= max && |all| >= PrefixBytes + MetadataLength(all)
    ensures var n := MetadataLength(all);
            var head, whole := Read(all[..6] + all[6..][..n], max, json), Read(all, max, json);
            && !head.More? && (head.Done? <==> whole.Done?)
            && (head.Done? ==> head.rest == [] && whole == Done(head.kind, head.metadata, all[6..][n..]))
  {
    var n := MetadataLength(all);
    var head, rest := all[..6] + all[6..][..n], all[6..][n..];
    assert all == head + rest && head[2..6] == all[2..6];
    assert [] + rest == rest && head[6 + n..] == [];
    ReadExtends(head, rest, max, json);
  }

  /**
   * The stream reader succeeds exactly when the push parser does on the same bytes, with the
   * same envelope, and leaves the body on the stream.
   */
  lemma StreamAgrees<J>(pieces: seq<seq<byte>>, max: nat, json: Json<J>)
    ensures var s, whole := ReadStream(pieces, max, json), Read(Flat(pieces), max, json);
            && (s.outcome.Done? <==> whole.Done?)
            && (s.outcome.Done? ==> whole == Done(s.outcome.kind, s.outcome.metadata, Flat(s.unread)) && s.outcome.rest == [])
            && !s.outcome.More?
  {
    hide Take, Flat;
    var all := Flat(pieces);
    TakeIsPrefix(pieces, 2);
    if |all| < PrefixBytes {
      if Take(pieces, 2).Taken? { TakeIsPrefix(Take(pieces, 2).pieces, 4); }
    } else {
      StreamTakes(pieces);
      var length := Take(Take(pieces, 2).pieces, 4);
      if MetadataLength(all) <= max {
        TakeIsPrefix(length.pieces, MetadataLength(all));
        if |all| >= PrefixBytes + MetadataLength(all) { hide Read; HeadIsRead(all, max, json); }
      }
    }
  }

  // ---------------------------------------------------------------- the readers themselves

  class PushParser<!J> {
    const max: nat
    const json: Json<J>
    var buffered: seq<byte>

    constructor (max: nat, json: Json<J>)
      ensures this.max == max && this.json == json && buffered == []
    {
      this.max, this.json := max, json;
      buffered := [];
    }

    method Push(chunk: seq<byte>) returns (o: Outcome<J>)
      modifies this`buffered
      ensures o == Read(old(buffered) + chunk, max, json)
      ensures buffered == if o.Done? then [] else old(buffered) + chunk
    {
      buffered := buffered + chunk;
      if |buffered| < PrefixBytes { return More; }
      if buffered[0] != Version { return Fail(BadVersion); }
      var kind := KindOf(buffered[1]);
      if kind.None? { return Fail(BadType); }
      var length := MetadataLength(buffered);
      if length > max { return Fail(TooLong); }
      var end := PrefixBytes + length;
      if |buffered| < end { return More; }
      var value := json.parse(buffered[6..end]);
      if value.None? || !json.isRecord(value.value) {
        return Fail(if |buffered| > PrefixBytes + max then TooMuchPending else BadMetadata);
      }
      o := Done(kind.value, value.value, buffered[end..]);
      buffered := [];
    }
  }

  /** A stream whose pieces arrive in order; reading takes the next one, and bytes may be put back in front. */
  class Source {
    var pieces: seq<seq<byte>>

    constructor (pieces: seq<seq<byte>>)
      ensures this.pieces == pieces
    {
      this.pieces := pieces;
    }

    method ReadExactly(n: nat) returns (r: Result<seq<byte>, Fault>)
      modifies this`pieces
      ensures var t := Take(old(pieces), n);
              if t.Short? then r == Err(Ended) else r == Ok(t.bytes) && pieces == t.pieces
      ensures r.Ok? <==> n <= |Flat(old(pieces))|
      ensures r.Ok? ==> r.value + Flat(pieces) == Flat(old(pieces)) && |r.value| == n
    {
      ghost var all := Flat(pieces);
      TakeIsPrefix(pieces, n);
      if n <= |all| { assert all[..n] + all[n..] == all; }
      var bytes: seq<byte> := [];
      var remaining := n;
      ghost var goal := Take(pieces, n);
      assert goal.Taken? ==> [] + goal.bytes == goal.bytes;
      while remaining > 0
        invariant 0 <= remaining <= n
        invariant goal == Before(bytes, Take(pieces, remaining))
        decreases |pieces|, remaining
      {
        if pieces == [] { return Err(Ended); }
        var piece := pieces[0];
        pieces := pieces[1..];
        if |piece| > remaining {
          bytes := bytes + piece[..remaining];
          pieces := [piece[remaining..]] + pieces;
          return Ok(bytes);
        }
        BeforeTwice(bytes, piece, Take(pieces, remaining - |piece|));
        bytes := bytes + piece;
        remaining := remaining - |piece|;
      }
      assert bytes + [] == bytes;
      return Ok(bytes);
    }

    method ReadEnvelope<J>(max: nat, json: Json<J>) returns (o: Outcome<J>)
      modifies this`pieces
      ensures o == ReadStream(old(pieces), max, json).outcome
      ensures o.Done? <==> Read(Flat(old(pieces)), max, json).Done?
      ensures o.Done? ==> Read(Flat(old(pieces)), max, json) == Done(o.kind, o.metadata, Flat(pieces))
    {
      hide Read, Take, Flat;
      StreamAgrees(pieces, max, json);
      var prefix := ReadExactly(2);
      if prefix.Err? { return Fail(Ended); }
      var length := ReadExactly(4);
      if length.Err? { return Fail(Ended); }
      var n := Number(length.value);
      if n > max { return Fail(TooLong); }
      var metadata := ReadExactly(n);
      if metadata.Err? { return Fail(Ended); }
      var parser := new PushParser(max, json);
      var taken := prefix.value + length.value + metadata.value;
      assert [] + taken == taken;
      o := parser.Push(taken);
    }
  }

  function Before(bytes: seq<byte>, t: Taken): Taken {
    if t.Short? then Short else Taken(bytes + t.bytes, t.pieces)
  }

  lemma BeforeTwice(a: seq<byte>, b: seq<byte>, t: Taken)
    ensures Before(a, Before(b, t)) == Before(a + b, t)
  {
    if t.Taken? { assert a + (b + t.bytes) == (a + b) + t.bytes; }
  }
}
