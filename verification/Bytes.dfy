// Bytes, and byte streams that come in pieces.

module Bytes {
  newtype byte = i: int | 0 <= i < 256

  /** The bytes of all pieces. */
  function Flat(pieces: seq<seq<byte>>): seq<byte> {
    if pieces == [] then [] else pieces[0] + Flat(pieces[1..])
  }

  lemma {:induction false} FlatConcat(a: seq<seq<byte>>, b: seq<seq<byte>>)
    ensures Flat(a + b) == Flat(a) + Flat(b)
  {
    if a == [] { assert a + b == b; }
    else {
      assert (a + b)[1..] == a[1..] + b;
      FlatConcat(a[1..], b);
    }
  }

  lemma FlatAppend(pieces: seq<seq<byte>>, last: seq<byte>)
    ensures Flat(pieces + [last]) == Flat(pieces) + last
  {
    FlatConcat(pieces, [last]);
  }
}
