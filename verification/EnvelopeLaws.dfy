// The envelope byte by byte: what the encoder writes, and what each of the three readers
// makes of any bytes whatever, well formed or not. The version, the codes of the types, the
// place and order of the length's bytes and the size of the prefix stand here as numbers,
// as the format has them.

module EnvelopeLaws {
  import opened Prelude
  import opened Bytes
  import opened Envelope

  /** The length field of six bytes or more. */
  function LengthOf(b: seq<byte>): nat
    requires |b| >= 6
  {
    b[2] as nat * 16777216 + b[3] as nat * 65536 + b[4] as nat * 256 + b[5] as nat
  }

  predicate TypeIs(b: byte, kind: Kind) {
    (b == 1 && kind.Request?) || (b == 2 && kind.Response?) || (b == 3 && kind.Error?)
  }

  /** Version 1, the type, the metadata's length with its high byte first, and the metadata. */
  lemma FormatExactly(kind: Kind, metadata: seq<byte>)
    requires |metadata| < 4294967296
    ensures var e := Encode(kind, metadata);
            |e| == 6 + |metadata| && e[0] == 1 && TypeIs(e[1], kind) && LengthOf(e) == |metadata| && e[6..] == metadata
  {
    NumberOfBigEndian(|metadata|);
    var e := Encode(kind, metadata);
    assert e[2..6] == BigEndian(|metadata|);
    assert Number(e[2..6]) == LengthOf(e);
  }

  /** The first six bytes are those of an envelope, of this type. */
  predicate Begins(b: seq<byte>, kind: Kind) {
    |b| >= 6 && b[0] == 1 && TypeIs(b[1], kind)
  }

  lemma LengthIs(b: seq<byte>)
    requires |b| >= 6
    ensures MetadataLength(b) == LengthOf(b)
  {}

  /** The push parser yields an envelope exactly if all of it is there, within the limit, and its metadata is an object. */
  lemma ReadsExactly<J>(b: seq<byte>, max: nat, json: Json<J>, kind: Kind, metadata: J, rest: seq<byte>)
    ensures Read(b, max, json) == Done(kind, metadata, rest)
       <==> Begins(b, kind) && LengthOf(b) <= max && |b| >= 6 + LengthOf(b) && rest == b[6 + LengthOf(b)..]
            && json.parse(b[6..6 + LengthOf(b)]) == Some(metadata) && json.isRecord(metadata)
  {
    if |b| >= 6 { LengthIs(b); }
  }

  /** It waits exactly for bytes that can still become one, and refuses the rest for what it meets first. */
  lemma WaitsOrRefusesExactly<J>(b: seq<byte>, max: nat, json: Json<J>)
    ensures var o := Read(b, max, json);
            && (o.More? <==> |b| < 6 || ((exists kind :: Begins(b, kind)) && LengthOf(b) <= max && |b| < 6 + LengthOf(b)))
            && (o == Fail(BadVersion) <==> |b| >= 6 && b[0] != 1)
            && (o == Fail(BadType) <==> |b| >= 6 && b[0] == 1 && !(1 <= b[1] <= 3))
            && (o == Fail(TooLong) <==> |b| >= 6 && b[0] == 1 && 1 <= b[1] <= 3 && LengthOf(b) > max)
            && (o == Fail(TooMuchPending) ==> |b| > 6 + max) && (o == Fail(BadMetadata) ==> |b| <= 6 + max)
            && o != Fail(TooShort) && o != Fail(Ended)
  {
    if |b| >= 6 {
      LengthIs(b);
      if b[0] == 1 && b[1] == 1 { assert Begins(b, Request); }
      if b[0] == 1 && b[1] == 2 { assert Begins(b, Response); }
      if b[0] == 1 && b[1] == 3 { assert Begins(b, Error); }
    }
  }

  /** The Python decoder: the same without a limit, for any JSON value, and never waiting. */
  lemma PythonReadsExactly<J>(b: seq<byte>, json: Json<J>, kind: Kind, metadata: J, rest: seq<byte>)
    ensures DecodePython(b, json) == Done(kind, metadata, rest)
       <==> Begins(b, kind) && |b| >= 6 + LengthOf(b) && rest == b[6 + LengthOf(b)..] && json.parse(b[6..6 + LengthOf(b)]) == Some(metadata)
  {
    if |b| >= 6 { LengthIs(b); }
  }

  /** And it refuses all other bytes for what it meets first: too few of them, another version, another type, or metadata that is no JSON. */
  lemma PythonRefusesExactly<J>(b: seq<byte>, json: Json<J>)
    ensures var o := DecodePython(b, json);
            && (o == Fail(BadVersion) <==> |b| >= 6 && b[0] != 1)
            && (o == Fail(BadType) <==> |b| >= 6 && b[0] == 1 && !(1 <= b[1] <= 3))
            && (o == Fail(TooShort) <==> |b| < 6 || (b[0] == 1 && 1 <= b[1] <= 3 && |b| < 6 + LengthOf(b)))
            && (o == Fail(BadMetadata) <==>
                  |b| >= 6 && b[0] == 1 && 1 <= b[1] <= 3 && |b| >= 6 + LengthOf(b) && json.parse(b[6..6 + LengthOf(b)]).None?)
            && (o.Done? || o.Fail?)
  {
    if |b| >= 6 { LengthIs(b); }
  }

  /** The stream reader gives up at the end of the stream, refuses long metadata before it reads it, and else reads just the envelope's bytes. */
  lemma StreamReadsExactly<J>(pieces: seq<seq<byte>>, max: nat, json: Json<J>)
    ensures var all := Flat(pieces);
            var s := ReadStream(pieces, max, json);
            if |all| < 6 then s.outcome == Fail(Ended)
            else if LengthOf(all) > max then s.outcome == Fail(TooLong) && Flat(s.unread) == all[6..]
            else if |all| < 6 + LengthOf(all) then s.outcome == Fail(Ended)
            else s.outcome == Read(all[..6 + LengthOf(all)], max, json) && Flat(s.unread) == all[6 + LengthOf(all)..]
  {
    hide Take, Flat, Read;
    var all := Flat(pieces);
    TakeIsPrefix(pieces, 2);
    if |all| < 6 { if Take(pieces, 2).Taken? { TakeIsPrefix(Take(pieces, 2).pieces, 4); } }
    else {
      LengthIs(all);
      StreamTakes(pieces);
      var length := Take(Take(pieces, 2).pieces, 4);
      var n := MetadataLength(all);
      if n <= max {
        TakeIsPrefix(length.pieces, n);
        if |all| >= 6 + n {
          assert all[6..][..n] == all[6..6 + n] && all[..6] + all[6..6 + n] == all[..6 + n] && all[6..][n..] == all[6 + n..];
        }
      }
    }
  }
}
