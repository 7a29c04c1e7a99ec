// The response metadata header: an encoder that drops what may not cross HTTP/2, a decoder
// that refuses it, and the sanitizer both rest on, in TypeScript and in Python.

module ResponseMetadata {
  import opened Prelude

  /** Text is a sequence of UTF-16 code units. */
  newtype CodeUnit = i: int | 0 <= i < 0x1_0000

  type Text = seq<CodeUnit>

  type Pair = (Text, Text)

  /** The text is this ASCII word. */
  predicate Spells(text: Text, word: string) {
    |text| == |word| && forall i :: 0 <= i < |word| ==> text[i] as int == word[i] as int
  }

  predicate OneOf(c: CodeUnit, marks: string) {
    exists i :: 0 <= i < |marks| && c as int == marks[i] as int
  }

  predicate IsConnection(name: Text) {
    Spells(name, "connection")
  }

  predicate IsHopByHop(name: Text) {
    || IsConnection(name) || Spells(name, "keep-alive") || Spells(name, "proxy-authenticate")
    || Spells(name, "proxy-authorization") || Spells(name, "te") || Spells(name, "trailer")
    || Spells(name, "transfer-encoding") || Spells(name, "upgrade")
  }

  /** The header the metadata itself travels in. */
  predicate IsReserved(name: Text) {
    Spells(name, "x-verser-response-metadata")
  }

  const MaxBytes: nat := 4096
  const MaxPairs: nat := 64
  const MaxStatusTextBytes: nat := 1024

  /**
   * What the platforms do with text: lower-casing, the length in UTF-8, and, each in its own
   * way as they strip different blanks, the tokens of a Connection value and whether a
   * request ID is blank.
   */
  datatype Platform = Platform(
    lower: Text -> Text,
    utf8: Text -> nat,
    tokens: Text -> set<Text>,
    blank: Text -> bool,
    pythonTokens: Text -> set<Text>,
    pythonBlank: Text -> bool)

  /** Lower-casing twice is lower-casing once, and a valid name stays one. */
  ghost predicate Sound(p: Platform) {
    && (forall t :: p.lower(p.lower(t)) == p.lower(t))
    && (forall t :: ValidName(t) ==> ValidName(p.lower(t)))
  }

  // ---------------------------------------------------------------- the rules for text

  predicate TokenUnit(c: CodeUnit) {
    48 <= c <= 57 || 65 <= c <= 90 || 97 <= c <= 122 || OneOf(c, "!#$%&'*+.^_`|~-")
  }

  predicate ValidName(name: Text) {
    name != [] && forall i :: 0 <= i < |name| ==> TokenUnit(name[i])
  }

  predicate ValidUnit(c: CodeUnit) {
    c == 9 || 0x20 <= c <= 0x7e || 0x80 <= c <= 0xff
  }

  predicate ValidValue(value: Text) {
    forall i :: 0 <= i < |value| ==> ValidUnit(value[i])
  }

  predicate Latin1(value: Text) {
    forall i :: 0 <= i < |value| ==> value[i] <= 0xff
  }

  /** Surrogates come in pairs, the high one first. */
  predicate WellFormed(text: Text) {
    if text == [] then true
    else if 0xd800 <= text[0] <= 0xdbff then |text| > 1 && 0xdc00 <= text[1] <= 0xdfff && WellFormed(text[2..])
    else !(0xdc00 <= text[0] <= 0xdfff) && WellFormed(text[1..])
  }

  lemma {:induction false} ValidIsWellFormed(value: Text)
    requires ValidValue(value)
    ensures WellFormed(value) && Latin1(value)
  {
    if value != [] {
      assert ValidUnit(value[0]);
      assert forall i :: 0 <= i < |value[1..]| ==> value[1..][i] == value[i + 1];
      ValidIsWellFormed(value[1..]);
    }
  }

  /** The loop that checks a value, unit by unit. */
  method CheckValue(value: Text) returns (valid: bool)
    ensures valid == ValidValue(value)
  {
    for n := 0 to |value|
      invariant forall i :: 0 <= i < n ==> ValidUnit(value[i])
    {
      var code := value[n];
      if code > 0xff || code <= 0x08 || 0x0a <= code <= 0x1f || code == 0x7f {
        assert !ValidUnit(value[n]);
        return false;
      }
    }
    return true;
  }

  /** The loop that checks surrogates. */
  method CheckWellFormed(text: Text) returns (ok: bool)
    ensures ok == WellFormed(text)
  {
    var index := 0;
    while index < |text|
      invariant 0 <= index <= |text|
      invariant WellFormed(text) == WellFormed(text[index..])
    {
      var code := text[index];
      assert text[index..][1..] == text[index + 1..];
      if 0xd800 <= code <= 0xdbff {
        if index + 1 >= |text| { return false; }
        var next := text[index + 1];
        assert text[index..][2..] == text[index + 2..];
        if next < 0xdc00 || next > 0xdfff { return false; }
        index := index + 1;
      } else if 0xdc00 <= code <= 0xdfff {
        return false;
      }
      index := index + 1;
    }
    assert text[index..] == [];
    return true;
  }

  // ---------------------------------------------------------------- pairs

  function Lowered(pairs: seq<Pair>, p: Platform): (r: seq<Pair>)
    ensures |r| == |pairs| && forall i :: 0 <= i < |r| ==> r[i] == (p.lower(pairs[i].0), pairs[i].1)
  {
    if pairs == [] then [] else Lowered(pairs[..|pairs| - 1], p) + [(p.lower(pairs[|pairs| - 1].0), pairs[|pairs| - 1].1)]
  }

  predicate ValidPairs(pairs: seq<Pair>) {
    forall i :: 0 <= i < |pairs| ==> ValidName(pairs[i].0) && ValidValue(pairs[i].1)
  }

  /** Lowercased pairs, unless one of them is invalid. */
  function Normalize(pairs: seq<Pair>, p: Platform): Option<seq<Pair>> {
    if ValidPairs(Lowered(pairs, p)) then Some(Lowered(pairs, p)) else None
  }

  /** The names that Connection values nominate. */
  function Nominated(pairs: seq<Pair>, p: Platform): set<Text> {
    if pairs == [] then {}
    else
      var last := pairs[|pairs| - 1];
      Nominated(pairs[..|pairs| - 1], p) + (if IsConnection(last.0) then p.tokens(last.1) else {})
  }

  predicate Forbidden(name: Text, nominated: set<Text>) {
    IsHopByHop(name) || name in nominated || IsReserved(name)
  }

  function Kept(pairs: seq<Pair>, nominated: set<Text>): seq<Pair> {
    if pairs == [] then []
    else
      var last := pairs[|pairs| - 1];
      Kept(pairs[..|pairs| - 1], nominated) + (if Forbidden(last.0, nominated) then [] else [last])
  }

  /** `sanitizeHttp2ResponseHeaderPairs` */
  function Sanitize(pairs: seq<Pair>, p: Platform): Option<seq<Pair>> {
    var normalized := Normalize(pairs, p);
    if normalized.None? then None
    else if exists i :: 0 <= i < |normalized.value| && !Latin1(normalized.value[i].1) then None
    else Some(Kept(normalized.value, Nominated(normalized.value, p)))
  }

  /** No name in these pairs may be dropped. */
  predicate Clean(pairs: seq<Pair>) {
    forall i :: 0 <= i < |pairs| ==> !IsHopByHop(pairs[i].0) && !IsReserved(pairs[i].0)
  }

  /** The separate Latin-1 check never fires: a valid value already passes it. */
  lemma Latin1CheckIsRedundant(pairs: seq<Pair>, p: Platform)
    ensures Sanitize(pairs, p).None? <==> Normalize(pairs, p).None?
  {
    hide IsHopByHop, IsReserved, IsConnection, ValidName, ValidValue, Latin1, WellFormed;
    if Normalize(pairs, p).Some? {
      var n := Normalize(pairs, p).value;
      forall i | 0 <= i < |n| ensures Latin1(n[i].1) { ValidIsWellFormed(n[i].1); }
    }
  }

  lemma ConnectionIsHopByHop(name: Text)
    ensures IsConnection(name) ==> IsHopByHop(name)
  {}

  lemma {:induction false} KeptIsClean(pairs: seq<Pair>, nominated: set<Text>)
    ensures Clean(Kept(pairs, nominated))
    ensures forall x :: x in Kept(pairs, nominated) <==> x in pairs && !Forbidden(x.0, nominated)
    ensures |Kept(pairs, nominated)| <= |pairs|
    ensures |Kept(pairs, nominated)| == |pairs| <==> Kept(pairs, nominated) == pairs
  {
    hide IsHopByHop, IsReserved, IsConnection, ValidName, ValidValue, Latin1, WellFormed;
    if pairs != [] {
      KeptIsClean(pairs[..|pairs| - 1], nominated);
      assert pairs == pairs[..|pairs| - 1] + [pairs[|pairs| - 1]];
    }
  }

  /** Without a Connection field nothing is nominated, and clean pairs all survive. */
  lemma {:induction false} CleanIsKept(pairs: seq<Pair>, p: Platform)
    requires Clean(pairs)
    ensures Nominated(pairs, p) == {} && Kept(pairs, {}) == pairs
  {
    hide IsHopByHop, IsReserved, IsConnection, ValidName, ValidValue, Latin1, WellFormed;
    if pairs != [] {
      var init := pairs[..|pairs| - 1];
      assert forall i :: 0 <= i < |init| ==> init[i] == pairs[i];
      CleanIsKept(init, p);
      ConnectionIsHopByHop(pairs[|pairs| - 1].0);
    }
  }

  lemma {:induction false} LoweredTwice(pairs: seq<Pair>, p: Platform)
    requires Sound(p) && forall i :: 0 <= i < |pairs| ==> p.lower(pairs[i].0) == pairs[i].0
    ensures Lowered(pairs, p) == pairs
  {}

  /** What survives is lowercase, valid and clean. */
  lemma SanitizedIsClean(pairs: seq<Pair>, p: Platform)
    requires Sound(p) && Sanitize(pairs, p).Some?
    ensures var s := Sanitize(pairs, p).value;
            Clean(s) && ValidPairs(s) && Lowered(s, p) == s && |s| <= |pairs|
  {
    hide IsHopByHop, IsReserved, IsConnection, ValidName, ValidValue, Latin1, WellFormed;
    var n := Normalize(pairs, p).value;
    var s := Sanitize(pairs, p).value;
    KeptIsClean(n, Nominated(n, p));
    forall i | 0 <= i < |s| ensures ValidName(s[i].0) && ValidValue(s[i].1) && p.lower(s[i].0) == s[i].0 {
      assert s[i] in n;
      var j :| 0 <= j < |n| && n[j] == s[i];
    }
    LoweredTwice(s, p);
  }

  /** Sanitizing what was sanitized changes nothing. */
  lemma SanitizeIsIdempotent(pairs: seq<Pair>, p: Platform)
    requires Sound(p) && Sanitize(pairs, p).Some?
    ensures Sanitize(Sanitize(pairs, p).value, p) == Sanitize(pairs, p)
  {
    hide IsHopByHop, IsReserved, IsConnection, ValidName, ValidValue, Latin1, WellFormed;
    var s := Sanitize(pairs, p).value;
    SanitizedIsClean(pairs, p);
    Latin1CheckIsRedundant(s, p);
    CleanIsKept(s, p);
  }

  /** The sanitizer as its loops run. */
  method SanitizePairs(pairs: seq<Pair>, p: Platform) returns (r: Option<seq<Pair>>)
    ensures r == Sanitize(pairs, p)
  {
    hide IsHopByHop, IsReserved, IsConnection, ValidName, ValidValue, Latin1, WellFormed;
    var normalized := Normalize(pairs, p);
    if normalized.None? { return None; }
    var n := normalized.value;
    for i := 0 to |n|
      invariant forall j :: 0 <= j < i ==> Latin1(n[j].1)
    {
      if !Latin1(n[i].1) { return None; }
    }
    var tokens: set<Text> := {};
    for i := 0 to |n|
      invariant tokens == Nominated(n[..i], p)
    {
      assert n[..i + 1][..i] == n[..i];
      if IsConnection(n[i].0) { tokens := tokens + p.tokens(n[i].1); }
    }
    assert n[..|n|] == n;
    var kept: seq<Pair> := [];
    for i := 0 to |n|
      invariant kept == Kept(n[..i], tokens)
    {
      assert n[..i + 1][..i] == n[..i];
      if !Forbidden(n[i].0, tokens) { kept := kept + [n[i]]; }
    }
    return Some(kept);
  }

  // ---------------------------------------------------------------- records

  datatype StatusText = Absent | NotText | Given(text: Text)

  /**
   * A JSON value where a number is expected: an integer, the same number written with a
   * fraction or exponent (200.0, 2e2), the value true, or anything else.
   */
  datatype Value = Int(n: int) | Float(n: int) | True | Other

  /** How JavaScript sees it: the two ways to write a number are one. */
  function NumberOf(v: Value): Option<int> {
    if v.Int? || v.Float? then Some(v.n) else None
  }

  predicate FinalStatus(v: Option<int>) {
    v.Some? && 200 <= v.value <= 599
  }

  /** A JSON object as the validator sees it; None stands for a value of the wrong type. */
  datatype Record = Record(
    unknownFields: bool,
    version: Value,
    requestId: Option<Text>,
    statusCode: Value,
    statusText: StatusText,
    headers: Option<seq<Option<Pair>>>)

  datatype Metadata = Metadata(requestId: Text, statusCode: int, statusText: Option<Text>, headers: seq<Pair>)

  predicate ValidStatusText(t: StatusText, p: Platform) {
    match t
    case Absent => true
    case NotText => false
    case Given(text) => WellFormed(text) && p.utf8(text) <= MaxStatusTextBytes && ValidValue(text) && Latin1(text)
  }

  predicate ValidTop(r: Record, p: Platform) {
    && !r.unknownFields && NumberOf(r.version) == Some(1)
    && r.requestId.Some? && WellFormed(r.requestId.value) && !p.blank(r.requestId.value)
    && FinalStatus(NumberOf(r.statusCode))
    && ValidStatusText(r.statusText, p)
    && r.headers.Some? && |r.headers.value| <= MaxPairs
  }

  predicate AllPairs(headers: seq<Option<Pair>>) {
    forall i :: 0 <= i < |headers| ==> headers[i].Some? && WellFormed(headers[i].value.1)
  }

  function Unwrap(headers: seq<Option<Pair>>): (r: seq<Pair>)
    requires forall i :: 0 <= i < |headers| ==> headers[i].Some?
    ensures |r| == |headers| && forall i :: 0 <= i < |r| ==> headers[i] == Some(r[i])
  {
    if headers == [] then [] else Unwrap(headers[..|headers| - 1]) + [headers[|headers| - 1].value]
  }

  function Wrap(pairs: seq<Pair>): (r: seq<Option<Pair>>)
    ensures |r| == |pairs| && forall i :: 0 <= i < |r| ==> r[i] == Some(pairs[i])
  {
    if pairs == [] then [] else Wrap(pairs[..|pairs| - 1]) + [Some(pairs[|pairs| - 1])]
  }

  /** The header pairs of a record; the encoder sanitizes, the decoder refuses. */
  function Headers(pairs: seq<Pair>, sanitize: bool, p: Platform): Option<seq<Pair>> {
    var normalized := Normalize(pairs, p);
    if normalized.None? then None
    else
      var sanitized := Sanitize(normalized.value, p);
      if sanitized.None? || (!sanitize && |sanitized.value| != |normalized.value|) then None
      else Some(if sanitize then sanitized.value else normalized.value)
  }

  function TextOf(t: StatusText): Option<Text> {
    if t.Given? then Some(t.text) else None
  }

  /** `validateResponseMetadata` */
  function Validate(r: Record, sanitize: bool, p: Platform): Option<Metadata> {
    if !ValidTop(r, p) || !AllPairs(r.headers.value) then None
    else
      var headers := Headers(Unwrap(r.headers.value), sanitize, p);
      if headers.None? then None
      else Some(Metadata(r.requestId.value, NumberOf(r.statusCode).value, TextOf(r.statusText), headers.value))
  }

  /** What the encoder prints. */
  function AsRecord(m: Metadata): Record {
    Record(false, Int(1), Some(m.requestId), Int(m.statusCode), if m.statusText.Some? then Given(m.statusText.value) else Absent,
           Some(Wrap(m.headers)))
  }

  datatype Json = Json(write: Record -> Text, parse: Text -> Option<Record>)

  /** Printing what the encoder prints can be read back. */
  ghost predicate RoundTrips(json: Json) {
    forall m: Metadata :: json.parse(json.write(AsRecord(m))) == Some(AsRecord(m))
  }

  function Encode(r: Record, json: Json, p: Platform): Option<Text> {
    var m := Validate(r, true, p);
    if m.None? then None
    else
      var text := json.write(AsRecord(m.value));
      if p.utf8(text) > MaxBytes then None else Some(text)
  }

  function Decode(text: Text, json: Json, p: Platform): Option<Metadata> {
    if p.utf8(text) > MaxBytes then None
    else
      var r := json.parse(text);
      if r.None? then None else Validate(r.value, false, p)
  }

  lemma UnwrapWrap(pairs: seq<Pair>)
    ensures Unwrap(Wrap(pairs)) == pairs
  {}

  /** Sanitized pairs pass the strict check unchanged. */
  lemma HeadersRoundTrip(pairs: seq<Pair>, p: Platform)
    requires Sound(p) && Headers(pairs, true, p).Some?
    ensures var h := Headers(pairs, true, p).value;
            && Headers(h, false, p) == Some(h) && Sanitize(pairs, p) == Some(h)
            && |h| <= |pairs| && Clean(h) && ValidPairs(h)
  {
    hide IsHopByHop, IsReserved, IsConnection, ValidName, ValidValue, Latin1, WellFormed;
    var n := Normalize(pairs, p).value;
    LoweredTwice(n, p);
    Latin1CheckIsRedundant(n, p);
    SanitizedIsClean(n, p);
    SanitizeIsIdempotent(n, p);
    SanitizedIsClean(pairs, p);
  }

  lemma ValidPairsAreWellFormed(pairs: seq<Pair>)
    requires ValidPairs(pairs)
    ensures AllPairs(Wrap(pairs))
  {
    forall i | 0 <= i < |pairs| ensures WellFormed(pairs[i].1) { ValidIsWellFormed(pairs[i].1); }
  }

  /** What the encoder validated, the decoder validates again, to the same metadata. */
  lemma ValidateAgain(r: Record, p: Platform)
    requires Sound(p) && Validate(r, true, p).Some?
    ensures var m := Validate(r, true, p).value;
            Validate(AsRecord(m), false, p) == Some(m) && Sanitize(Unwrap(r.headers.value), p) == Some(m.headers)
  {
    hide Headers, Sanitize, ValidStatusText, WellFormed, AllPairs, ValidPairs, Clean;
    var m := Validate(r, true, p).value;
    HeadersRoundTrip(Unwrap(r.headers.value), p);
    UnwrapWrap(m.headers);
    ValidPairsAreWellFormed(m.headers);
    TextOfKept(r, p);
  }

  lemma TextOfKept(r: Record, p: Platform)
    requires Validate(r, true, p).Some?
    ensures AsRecord(Validate(r, true, p).value).statusText == r.statusText
  {
    hide Headers;
  }

  /** Everything the encoder emits is accepted by the strict decoder, as the sanitized metadata. */
  lemma DecodeEncode(r: Record, json: Json, p: Platform)
    requires Sound(p) && RoundTrips(json) && Encode(r, json, p).Some?
    ensures Decode(Encode(r, json, p).value, json, p) == Validate(r, true, p)
    ensures var m := Validate(r, true, p).value;
            Sanitize(Unwrap(r.headers.value), p) == Some(m.headers) && Some(m.requestId) == r.requestId && Some(m.statusCode) == NumberOf(r.statusCode)
  {
    ValidateAgain(r, p);
    hide Sanitize, Headers, ValidStatusText, AsRecord, WellFormed;
    assert json.parse(json.write(AsRecord(Validate(r, true, p).value))) == Some(AsRecord(Validate(r, true, p).value));
  }

  /** What the decoder accepts is lowercase, valid and clean, whoever wrote it. */
  lemma DecodedIsClean(text: Text, json: Json, p: Platform)
    requires Sound(p) && Decode(text, json, p).Some?
    ensures var m := Decode(text, json, p).value;
            Clean(m.headers) && ValidPairs(m.headers) && 200 <= m.statusCode <= 599 && |m.headers| <= MaxPairs
    ensures Sanitize(Decode(text, json, p).value.headers, p) == Some(Decode(text, json, p).value.headers)
  {
    hide Headers, Sanitize, Clean, ValidPairs, ValidStatusText, WellFormed;
    var r := json.parse(text).value;
    StrictIsClean(Unwrap(r.headers.value), p);
  }

  lemma StrictIsClean(pairs: seq<Pair>, p: Platform)
    requires Sound(p) && Headers(pairs, false, p).Some?
    ensures var h := Headers(pairs, false, p).value; Clean(h) && ValidPairs(h) && Sanitize(h, p) == Some(h) && |h| == |pairs|
  {
    hide IsHopByHop, IsReserved, IsConnection, ValidName, ValidValue, Latin1, WellFormed;
    var n := Normalize(pairs, p).value;
    LoweredTwice(n, p);
    KeptIsClean(n, Nominated(n, p));
    Latin1CheckIsRedundant(n, p);
  }

  // ---------------------------------------------------------------- the Python decoder

  /** The names that Connection values nominate, as Python splits them. */
  function NominatedPython(pairs: seq<Pair>, p: Platform): set<Text> {
    if pairs == [] then {}
    else
      var last := pairs[|pairs| - 1];
      NominatedPython(pairs[..|pairs| - 1], p) + (if IsConnection(last.0) then p.pythonTokens(last.1) else {})
  }

  function SanitizePython(pairs: seq<Pair>, p: Platform): seq<Pair> {
    var lowered := Lowered(pairs, p);
    Kept(lowered, NominatedPython(lowered, p))
  }

  predicate ValidStatusTextPython(t: StatusText, p: Platform) {
    match t
    case Absent => true
    case NotText => false
    case Given(text) => p.utf8(text) <= MaxStatusTextBytes && ValidValue(text)
  }

  /** It checks names as they are, before lower-casing them. */
  function HeadersPython(pairs: seq<Pair>, p: Platform): Option<seq<Pair>> {
    if !ValidPairs(pairs) then None
    else
      var lowered := Lowered(pairs, p);
      if SanitizePython(lowered, p) != lowered then None else Some(lowered)
  }

  predicate AllGiven(headers: seq<Option<Pair>>) {
    forall i :: 0 <= i < |headers| ==> headers[i].Some?
  }

  /** In Python true equals 1, and only an int is a status. */
  function ValidatePython(r: Record, p: Platform): Option<Metadata> {
    if r.unknownFields || !(NumberOf(r.version) == Some(1) || r.version.True?) then None
    else if r.requestId.None? || p.pythonBlank(r.requestId.value) || !WellFormed(r.requestId.value) then None
    else if !r.statusCode.Int? || !FinalStatus(NumberOf(r.statusCode)) then None
    else if !ValidStatusTextPython(r.statusText, p) then None
    else if r.headers.None? || |r.headers.value| > MaxPairs || !AllGiven(r.headers.value) then None
    else
      var headers := HeadersPython(Unwrap(r.headers.value), p);
      if headers.None? then None
      else Some(Metadata(r.requestId.value, r.statusCode.n, TextOf(r.statusText), headers.value))
  }

  // ---------------------------------------------------------------- where the decoders agree

  predicate NamesValid(pairs: seq<Pair>) {
    forall i :: 0 <= i < |pairs| ==> ValidName(pairs[i].0)
  }

  /** What both decoders demand of everything but the headers. */
  predicate CommonTop(r: Record, p: Platform) {
    && !r.unknownFields && (NumberOf(r.version) == Some(1) || r.version.True?)
    && r.requestId.Some? && WellFormed(r.requestId.value)
    && FinalStatus(NumberOf(r.statusCode))
    && ValidStatusText(r.statusText, p)
    && r.headers.Some? && |r.headers.value| <= MaxPairs
  }

  /** The metadata of a record that passes what both decoders demand. */
  function Common(r: Record, p: Platform): Option<Metadata> {
    if !CommonTop(r, p) || !AllPairs(r.headers.value) then None
    else
      var headers := Headers(Unwrap(r.headers.value), false, p);
      if headers.None? then None
      else Some(Metadata(r.requestId.value, NumberOf(r.statusCode).value, TextOf(r.statusText), headers.value))
  }

  /** What the TypeScript decoder demands besides: a version that is a number. */
  predicate TypeScriptDemands(r: Record, p: Platform) {
    !r.version.True? && r.requestId.Some? && !p.blank(r.requestId.value)
  }

  /** What the Python decoder demands besides: a status written as an integer, and names valid before lower-casing. */
  predicate PythonDemands(r: Record, p: Platform) {
    && !r.statusCode.Float? && r.requestId.Some? && !p.pythonBlank(r.requestId.value)
    && r.headers.Some? && AllGiven(r.headers.value) && NamesValid(Unwrap(r.headers.value))
  }

  lemma LoweredKeepsValid(pairs: seq<Pair>, p: Platform)
    requires Sound(p)
    ensures ValidPairs(pairs) <==> NamesValid(pairs) && ValidPairs(Lowered(pairs, p))
  {
    hide ValidName, ValidValue;
    var n := Lowered(pairs, p);
    if ValidPairs(n) && NamesValid(pairs) {
      forall i | 0 <= i < |pairs| ensures ValidName(pairs[i].0) && ValidValue(pairs[i].1) { assert n[i].1 == pairs[i].1; }
    }
  }

  lemma {:induction false} CleanNominatesNothing(pairs: seq<Pair>, p: Platform)
    requires Clean(pairs)
    ensures NominatedPython(pairs, p) == {}
  {
    hide IsHopByHop, IsReserved, IsConnection;
    if pairs != [] {
      var init := pairs[..|pairs| - 1];
      assert forall i :: 0 <= i < |init| ==> init[i] == pairs[i];
      CleanNominatesNothing(init, p);
      ConnectionIsHopByHop(pairs[|pairs| - 1].0);
    }
  }

  /** All pairs survive exactly if they are clean, however the tokens are split. */
  lemma AllKeptExactly(pairs: seq<Pair>, p: Platform)
    ensures Kept(pairs, Nominated(pairs, p)) == pairs <==> Clean(pairs)
    ensures Kept(pairs, NominatedPython(pairs, p)) == pairs <==> Clean(pairs)
  {
    hide IsHopByHop, IsReserved, IsConnection;
    KeptIsClean(pairs, Nominated(pairs, p));
    KeptIsClean(pairs, NominatedPython(pairs, p));
    if Clean(pairs) {
      CleanIsKept(pairs, p);
      CleanNominatesNothing(pairs, p);
    }
  }

  lemma HeadersAgree(pairs: seq<Pair>, p: Platform)
    requires Sound(p)
    ensures HeadersPython(pairs, p) == if NamesValid(pairs) then Headers(pairs, false, p) else None
  {
    hide IsHopByHop, IsReserved, IsConnection, ValidName, ValidValue, Latin1, WellFormed, Clean;
    LoweredKeepsValid(pairs, p);
    if ValidPairs(pairs) {
      var n := Lowered(pairs, p);
      LoweredTwice(n, p);
      Latin1CheckIsRedundant(n, p);
      KeptIsClean(n, Nominated(n, p));
      AllKeptExactly(n, p);
    }
  }

  lemma StatusTextsAgree(t: StatusText, p: Platform)
    ensures ValidStatusTextPython(t, p) == ValidStatusText(t, p)
  {
    if t.Given? && ValidValue(t.text) { ValidIsWellFormed(t.text); }
  }

  /** The TypeScript decoder accepts what both demand and its own demands. */
  lemma TypeScriptDecodes(r: Record, p: Platform)
    ensures Validate(r, false, p) == if TypeScriptDemands(r, p) then Common(r, p) else None
  {
    hide Headers, ValidStatusText, WellFormed;
  }

  /** The Python decoder accepts what both demand and its own demands. */
  lemma PythonDecodes(r: Record, p: Platform)
    requires Sound(p)
    ensures ValidatePython(r, p) == if PythonDemands(r, p) then Common(r, p) else None
  {
    StatusTextsAgree(r.statusText, p);
    hide ValidStatusText, ValidStatusTextPython, Headers, HeadersPython, WellFormed, NamesValid;
    if r.headers.Some? && AllGiven(r.headers.value) {
      var pairs := Unwrap(r.headers.value);
      HeadersAgree(pairs, p);
      ValuesAreWellFormed(pairs, p);
      assert forall i :: 0 <= i < |pairs| ==> r.headers.value[i] == Some(pairs[i]);
    }
  }

  /**
   * The two decoders give the same result on a record exactly if it fails what both demand,
   * or meets the demands of both, or of neither.
   */
  lemma PythonAgreesExactly(r: Record, p: Platform)
    requires Sound(p)
    ensures ValidatePython(r, p) == Validate(r, false, p)
       <==> Common(r, p).None? || (TypeScriptDemands(r, p) <==> PythonDemands(r, p))
  {
    hide Common, TypeScriptDemands, PythonDemands, Validate, ValidatePython;
    TypeScriptDecodes(r, p);
    PythonDecodes(r, p);
  }

  /** Pairs that any decoder accepts have well-formed values. */
  lemma ValuesAreWellFormed(pairs: seq<Pair>, p: Platform)
    ensures Headers(pairs, false, p).Some? ==> forall i :: 0 <= i < |pairs| ==> WellFormed(pairs[i].1)
  {
    if Headers(pairs, false, p).Some? {
      var n := Lowered(pairs, p);
      forall i | 0 <= i < |pairs| ensures WellFormed(pairs[i].1) {
        assert n[i].1 == pairs[i].1;
        ValidIsWellFormed(pairs[i].1);
      }
    }
  }

  /** A record with this version, status and these pairs, for the request "r". */
  function Sample(version: Value, status: Value, pairs: seq<Pair>): Record {
    Record(false, version, Some([114]), status, Absent, Some(Wrap(pairs)))
  }

  const Kelvin: Text := [0x212A]
  const SmallK: Text := [0x6B]

  lemma SampleHeaders(pairs: seq<Pair>, p: Platform)
    requires pairs == [] || (pairs == [(Kelvin, [])] && p.lower(Kelvin) == SmallK)
    requires Sound(p)
    ensures var lowered := if pairs == [] then [] else [(SmallK, [])]; Headers(pairs, false, p) == Some(lowered)
  {
    hide IsHopByHop, IsReserved, IsConnection, ValidName, Kept, Nominated, Lowered, Latin1;
    var n := Lowered(pairs, p);
    assert n == if pairs == [] then [] else [(SmallK, [])];
    KelvinIsNoName();
    SmallKIsPlain();
    assert ValidPairs(n) && Clean(n);
    LoweredTwiceSample(pairs, p);
    Latin1CheckIsRedundant(n, p);
    AllKeptExactly(n, p);
  }

  lemma SmallKIsPlain()
    ensures !IsHopByHop(SmallK) && !IsReserved(SmallK)
  {}

  lemma LoweredTwiceSample(pairs: seq<Pair>, p: Platform)
    requires Sound(p)
    ensures Lowered(Lowered(pairs, p), p) == Lowered(pairs, p)
  {}

  /**
   * Three records on which the decoders differ: a version of true, a status written as
   * 200.0, and a header named by the Kelvin sign, whose lower case is a plain k.
   */
  lemma DecodersDiffer(p: Platform)
    requires Sound(p) && !p.blank([114]) && !p.pythonBlank([114]) && p.lower(Kelvin) == SmallK
    ensures var r := Sample(True, Int(200), []); Validate(r, false, p).None? && ValidatePython(r, p).Some?
    ensures var r := Sample(Int(1), Float(200), []); Validate(r, false, p).Some? && ValidatePython(r, p).None?
    ensures var r := Sample(Int(1), Int(200), [(Kelvin, [])]); Validate(r, false, p).Some? && ValidatePython(r, p).None?
  {
    SampleHeaders([], p);
    SampleHeaders([(Kelvin, [])], p);
    SampleDecodes(Sample(True, Int(200), []), [], p);
    SampleDecodes(Sample(Int(1), Float(200), []), [], p);
    SampleDecodes(Sample(Int(1), Int(200), [(Kelvin, [])]), [(Kelvin, [])], p);
  }

  lemma SampleIsCommon(r: Record, pairs: seq<Pair>, p: Platform)
    requires r == Sample(r.version, r.statusCode, pairs) && |pairs| <= 1 && (forall i :: 0 <= i < |pairs| ==> pairs[i] == (Kelvin, []))
    requires FinalStatus(NumberOf(r.statusCode)) && (NumberOf(r.version) == Some(1) || r.version.True?)
    requires Headers(pairs, false, p).Some?
    ensures Common(r, p).Some?
  {
    hide Headers;
    UnwrapWrap(pairs);
  }

  lemma SampleDecodes(r: Record, pairs: seq<Pair>, p: Platform)
    requires Sound(p) && !p.blank([114]) && !p.pythonBlank([114])
    requires r == Sample(r.version, r.statusCode, pairs) && |pairs| <= 1 && (forall i :: 0 <= i < |pairs| ==> pairs[i] == (Kelvin, []))
    requires FinalStatus(NumberOf(r.statusCode)) && (NumberOf(r.version) == Some(1) || r.version.True?)
    requires Headers(pairs, false, p).Some?
    ensures Validate(r, false, p).Some? <==> !r.version.True?
    ensures ValidatePython(r, p).Some? <==> !r.statusCode.Float? && pairs == []
  {
    hide Headers, Validate, ValidatePython, ValidName, WellFormed;
    TypeScriptDecodes(r, p);
    PythonDecodes(r, p);
    UnwrapWrap(pairs);
    KelvinIsNoName();
    SampleIsCommon(r, pairs, p);
    hide Common;
    assert pairs != [] ==> pairs[0].0 == Kelvin;
  }

  lemma KelvinIsNoName()
    ensures !ValidName(Kelvin) && ValidName(SmallK)
  {
    assert !TokenUnit(Kelvin[0]);
  }

  // ---------------------------------------------------------------- classification

  datatype Class = Application(metadata: Option<Metadata>) | Transport | Refused

  /** `classifyVerserResponseMetadata` */
  function Classify(outer: int, expected: Text, values: seq<Text>, json: Json, p: Platform): Class {
    if values == [] then (if outer < 400 then Application(None) else Transport)
    else if |values| != 1 then Refused
    else
      var m := Decode(values[0], json, p);
      if m.None? || m.value.requestId != expected || m.value.statusCode != outer then Refused
      else Application(m)
  }

  /** A response with metadata is classified by it only if the encoder could have meant this very response. */
  lemma EncodedIsClassified(r: Record, outer: int, expected: Text, json: Json, p: Platform)
    requires Sound(p) && RoundTrips(json) && Encode(r, json, p).Some?
    ensures var c := Classify(outer, expected, [Encode(r, json, p).value], json, p);
            if r.requestId == Some(expected) && NumberOf(r.statusCode) == Some(outer) then c == Application(Validate(r, true, p)) else c == Refused
  {
    DecodeEncode(r, json, p);
  }
}
