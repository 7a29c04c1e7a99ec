// The tables behind the response metadata header, unit by unit and name by name: which
// names and values are valid, which texts are well formed, which pairs are kept, and which
// records the encoder takes. The limits and the names stand here as numbers and words, as
// the header's description has them.

module MetadataLaws {
  import opened Prelude
  import opened ResponseMetadata

  /** The marks a header name may hold besides letters and digits (section 5.6.2 of RFC 9110). */
  const Marks: set<int> := {33, 35, 36, 37, 38, 39, 42, 43, 45, 46, 94, 95, 96, 124, 126}

  /** A name is letters, digits and these marks. */
  lemma NameExactly(name: Text)
    ensures ValidName(name) <==>
              name != [] && forall i :: 0 <= i < |name| ==>
                var c := name[i] as int; 48 <= c <= 57 || 65 <= c <= 90 || 97 <= c <= 122 || c in Marks
  {
    forall i | 0 <= i < |name|
      ensures TokenUnit(name[i]) <==> (var c := name[i] as int; 48 <= c <= 57 || 65 <= c <= 90 || 97 <= c <= 122 || c in Marks)
    {
      MarkExactly(name[i]);
    }
    hide TokenUnit, OneOf;
  }

  lemma MarkExactly(c: CodeUnit)
    ensures OneOf(c, "!#$%&'*+.^_`|~-") <==> c as int in Marks
  {
    var marks := "!#$%&'*+.^_`|~-";
    assert |marks| == 15;
    if c as int in Marks {
      var k := if c == 33 then 0 else if c == 35 then 1 else if c == 36 then 2 else if c == 37 then 3 else if c == 38 then 4
               else if c == 39 then 5 else if c == 42 then 6 else if c == 43 then 7 else if c == 46 then 8 else if c == 94 then 9
               else if c == 95 then 10 else if c == 96 then 11 else if c == 124 then 12 else if c == 126 then 13 else 14;
      assert c as int == marks[k] as int;
    }
  }

  /** A value is tabs, visible characters, blanks and Latin-1 beyond ASCII; no control and no DEL (section 5.5 of RFC 9110). */
  lemma ValueExactly(value: Text)
    ensures ValidValue(value) <==>
              forall i :: 0 <= i < |value| ==> value[i] == 9 || (value[i] >= 32 && value[i] != 127 && value[i] <= 255)
  {
    forall i | 0 <= i < |value| && ValidUnit(value[i]) ensures value[i] == 9 || (value[i] >= 32 && value[i] != 127 && value[i] <= 255) {}
    if forall i :: 0 <= i < |value| ==> value[i] == 9 || (value[i] >= 32 && value[i] != 127 && value[i] <= 255) {
      forall i | 0 <= i < |value| ensures ValidUnit(value[i]) {
        assert value[i] == 9 || (value[i] >= 32 && value[i] != 127 && value[i] <= 255);
        NotBetween(value[i]);
      }
    }
  }

  lemma NotBetween(c: CodeUnit)
    ensures ValidUnit(c) || c < 9 || (9 < c < 32) || 127 <= c < 128 || c > 255
  {}

  predicate High(c: CodeUnit) { 0xd800 <= c < 0xdc00 }
  predicate Low(c: CodeUnit) { 0xdc00 <= c < 0xe000 }

  /** A high surrogate has a low one behind it, and a low one a high one before it. */
  predicate PairedAt(text: Text, i: nat)
    requires i < |text|
  {
    && (High(text[i]) ==> i + 1 < |text| && Low(text[i + 1]))
    && (Low(text[i]) ==> i > 0 && High(text[i - 1]))
  }

  predicate Paired(text: Text) {
    forall i :: 0 <= i < |text| ==> PairedAt(text, i)
  }

  /** A text is well formed exactly if its surrogates are paired so. */
  lemma {:induction false} WellFormedExactly(text: Text)
    ensures WellFormed(text) <==> Paired(text)
    decreases |text|
  {
    if text != [] {
      if High(text[0]) {
        if |text| > 1 && Low(text[1]) {
          WellFormedExactly(text[2..]);
          PairedBehind(text, 2);
        } else { assert !PairedAt(text, 0); }
      } else if Low(text[0]) { assert !PairedAt(text, 0); }
      else {
        WellFormedExactly(text[1..]);
        PairedBehind(text, 1);
      }
    }
  }

  lemma PairedBehind(text: Text, n: nat)
    requires (n == 1 && |text| >= 1 && !High(text[0]) && !Low(text[0])) || (n == 2 && |text| >= 2 && High(text[0]) && Low(text[1]))
    ensures Paired(text) <==> Paired(text[n..])
  {
    PairedStart(text, n);
    hide PairedAt;
    var rest := text[n..];
    forall i: nat | i < |rest| ensures PairedAt(rest, i) <==> PairedAt(text, i + n) { PairedLater(text, n, i); }
    if Paired(text) { forall i: nat | i < |rest| ensures PairedAt(rest, i) { assert PairedAt(text, i + n); } }
    if Paired(rest) { forall i: nat | i < |text| ensures PairedAt(text, i) { if i >= n { assert PairedAt(rest, i - n); } } }
  }

  lemma PairedLater(text: Text, n: nat, i: nat)
    requires n + i < |text| && n > 0 && !High(text[n - 1])
    ensures PairedAt(text[n..], i) <==> PairedAt(text, i + n)
  {
    var rest := text[n..];
    assert rest[i] == text[i + n];
    if i + 1 < |rest| { assert rest[i + 1] == text[i + n + 1]; }
    if i > 0 { assert rest[i - 1] == text[i + n - 1]; }
  }

  lemma PairedStart(text: Text, n: nat)
    requires (n == 1 && |text| >= 1 && !High(text[0]) && !Low(text[0])) || (n == 2 && |text| >= 2 && High(text[0]) && Low(text[1]))
    ensures forall i: nat :: i < n ==> PairedAt(text, i)
    ensures !High(text[n - 1])
  {}

  /** The names that may not cross an HTTP/2 hop. */
  const HopNames: seq<string> := ["connection", "keep-alive", "proxy-authenticate", "proxy-authorization", "te", "trailer", "transfer-encoding", "upgrade"]

  /** What the sanitizer keeps: every pair but those named so, nominated, or of the metadata's own header. */
  lemma KeepsExactly(pairs: seq<Pair>, nominated: set<Text>, x: Pair)
    ensures x in Kept(pairs, nominated) <==>
              && x in pairs && x.0 !in nominated && !Spells(x.0, "x-verser-response-metadata")
              && forall k :: 0 <= k < |HopNames| ==> !Spells(x.0, HopNames[k])
  {
    KeptIsClean(pairs, nominated);
    HopExactly(x.0);
    hide Kept, Clean, Spells;
  }

  lemma HopExactly(name: Text)
    ensures IsHopByHop(name) <==> exists k :: 0 <= k < |HopNames| && Spells(name, HopNames[k])
  {
    hide Spells;
    if IsHopByHop(name) {
      var k := if Spells(name, "connection") then 0 else if Spells(name, "keep-alive") then 1
               else if Spells(name, "proxy-authenticate") then 2 else if Spells(name, "proxy-authorization") then 3
               else if Spells(name, "te") then 4 else if Spells(name, "trailer") then 5 else if Spells(name, "transfer-encoding") then 6 else 7;
      assert Spells(name, HopNames[k]);
    }
  }

  /** The nominated names are those in the values of the pairs named "connection". */
  lemma {:induction false} NominatedExactly(pairs: seq<Pair>, p: Platform, name: Text)
    ensures name in Nominated(pairs, p) <==> exists i :: 0 <= i < |pairs| && Nominates(pairs[i], p, name)
    ensures name in NominatedPython(pairs, p) <==> exists i :: 0 <= i < |pairs| && NominatesPython(pairs[i], p, name)
  {
    hide Nominates, NominatesPython;
    if pairs != [] {
      var init, last := pairs[..|pairs| - 1], pairs[|pairs| - 1];
      NominatedExactly(init, p, name);
      assert forall i :: 0 <= i < |init| ==> init[i] == pairs[i];
      OneNominates(last, p, name);
      if i :| 0 <= i < |init| && Nominates(init[i], p, name) { assert Nominates(pairs[i], p, name); }
      if i :| 0 <= i < |init| && NominatesPython(init[i], p, name) { assert NominatesPython(pairs[i], p, name); }
    }
  }

  predicate Nominates(x: Pair, p: Platform, name: Text) {
    Spells(x.0, "connection") && name in p.tokens(x.1)
  }

  predicate NominatesPython(x: Pair, p: Platform, name: Text) {
    Spells(x.0, "connection") && name in p.pythonTokens(x.1)
  }

  lemma OneNominates(x: Pair, p: Platform, name: Text)
    ensures Nominates(x, p, name) <==> IsConnection(x.0) && name in p.tokens(x.1)
    ensures NominatesPython(x, p, name) <==> IsConnection(x.0) && name in p.pythonTokens(x.1)
  {}

  /** What the encoder demands of a record before it sanitizes its headers. */
  predicate Encodable(r: Record, p: Platform) {
    && !r.unknownFields && NumberOf(r.version) == Some(1)
    && r.requestId.Some? && WellFormed(r.requestId.value) && !p.blank(r.requestId.value)
    && NumberOf(r.statusCode).Some? && 200 <= NumberOf(r.statusCode).value < 600
    && !r.statusText.NotText? && (r.statusText.Given? ==> WellFormed(r.statusText.text) && p.utf8(r.statusText.text) <= 1024 && ValidValue(r.statusText.text))
    && r.headers.Some? && |r.headers.value| <= 64
    && forall i :: 0 <= i < |r.headers.value| ==> HeaderEncodable(r.headers.value[i], p)
  }

  /** A pair whose lowered name and whose value are valid. */
  predicate HeaderEncodable(h: Option<Pair>, p: Platform) {
    h.Some? && WellFormed(h.value.1) && ValidName(p.lower(h.value.0)) && ValidValue(h.value.1)
  }

  /** The encoder takes a record exactly if it is so, and prints to at most 4096 bytes. */
  lemma EncodesExactly(r: Record, json: Json, p: Platform)
    requires Sound(p)
    ensures Validate(r, true, p).Some? <==> Encodable(r, p)
    ensures Encode(r, json, p).Some? <==> Encodable(r, p) && p.utf8(json.write(AsRecord(Validate(r, true, p).value))) <= 4096
  {
    StatusTextIs(r.statusText, p);
    hide WellFormed, ValidName, ValidValue, Latin1, ValidStatusText, Sanitize;
    if ValidTop(r, p) && AllPairs(r.headers.value) { HeadersAre(r, p); }
    else if Encodable(r, p) {
      forall i | 0 <= i < |r.headers.value| ensures r.headers.value[i].Some? && WellFormed(r.headers.value[i].value.1) {
        assert HeaderEncodable(r.headers.value[i], p);
      }
    }
  }

  lemma StatusTextIs(t: StatusText, p: Platform)
    ensures ValidStatusText(t, p) <==> !t.NotText? && (t.Given? ==> WellFormed(t.text) && p.utf8(t.text) <= 1024 && ValidValue(t.text))
  {
    if t.Given? && ValidValue(t.text) { ValidIsWellFormed(t.text); }
    hide WellFormed;
  }

  lemma HeadersAre(r: Record, p: Platform)
    requires Sound(p) && r.headers.Some? && AllPairs(r.headers.value)
    ensures Headers(Unwrap(r.headers.value), true, p).Some? <==> forall i :: 0 <= i < |r.headers.value| ==> HeaderEncodable(r.headers.value[i], p)
  {
    var h, pairs := r.headers.value, Unwrap(r.headers.value);
    hide WellFormed, ValidName, ValidValue, Latin1, Sanitize;
    SanitizedIfNormal(pairs, p);
    var lowered := Lowered(pairs, p);
    if Normalize(pairs, p).Some? {
      forall i | 0 <= i < |h| ensures HeaderEncodable(h[i], p) { assert lowered[i] == (p.lower(pairs[i].0), pairs[i].1); }
    }
    if forall i :: 0 <= i < |h| ==> HeaderEncodable(h[i], p) {
      forall i | 0 <= i < |lowered| ensures ValidName(lowered[i].0) && ValidValue(lowered[i].1) { assert HeaderEncodable(h[i], p); }
      LoweredTwice(lowered, p);
    }
  }

  lemma SanitizedIfNormal(pairs: seq<Pair>, p: Platform)
    ensures Headers(pairs, true, p).Some? ==> Normalize(pairs, p).Some?
    ensures Normalize(pairs, p).Some? && ValidPairs(Lowered(Lowered(pairs, p), p)) ==> Headers(pairs, true, p).Some?
  {
    hide WellFormed, ValidName, ValidValue, Latin1;
    if Normalize(pairs, p).Some? { Latin1CheckIsRedundant(Normalize(pairs, p).value, p); }
  }

  /** What is accepted is within the limits: 64 pairs, 1024 bytes of status text, 4096 bytes in all, and a final status. */
  lemma AcceptedIsWithinLimits(text: Text, json: Json, p: Platform)
    requires Decode(text, json, p).Some?
    ensures var r := json.parse(text);
            && p.utf8(text) <= 4096 && r.Some? && r.value.headers.Some? && |r.value.headers.value| <= 64
            && (r.value.statusText.Given? ==> p.utf8(r.value.statusText.text) <= 1024)
            && 200 <= Decode(text, json, p).value.statusCode < 600
  {
    hide Headers, WellFormed, ValidValue, Latin1;
  }

  /** Beyond them nothing is, and within them the rest of the demands decide. */
  lemma RefusedBeyondLimits(r: Record, p: Platform)
    requires r.headers.Some? && NumberOf(r.statusCode).Some?
    requires || |r.headers.value| > 64 || NumberOf(r.statusCode).value < 200 || NumberOf(r.statusCode).value >= 600
             || (r.statusText.Given? && p.utf8(r.statusText.text) > 1024)
    ensures Validate(r, false, p).None? && Validate(r, true, p).None? && ValidatePython(r, p).None?
  {
    hide Headers, HeadersPython, WellFormed, ValidValue, Latin1;
  }
}
