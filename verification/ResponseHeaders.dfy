// Response headers in two forms that agree: a map, and ordered pairs.

module ResponseHeaders {
  import opened Prelude

  /** A header value as the caller gives it, each item already turned into text. */
  datatype Value = One(text: string) | Many(texts: seq<string>)

  type Pair = (string, string)

  /** The rules for names and values, and lower-casing, as the platform has them. */
  datatype Rules = Rules(validName: string -> bool, validValue: string -> bool, lower: string -> string)

  function Items(v: Value): seq<string> {
    if v.One? then [v.text] else v.texts
  }

  datatype Head = Head(headers: map<string, Value>, pairs: seq<Pair>)

  const Empty: Head := Head(map[], [])

  // ---------------------------------------------------------------- pairs

  function ValuesOf(pairs: seq<Pair>, name: string): seq<string> {
    if pairs == [] then []
    else ValuesOf(pairs[..|pairs| - 1], name) + (if pairs[|pairs| - 1].0 == name then [pairs[|pairs| - 1].1] else [])
  }

  /** The pairs whose names are not among these, in their order. */
  function Outside(pairs: seq<Pair>, names: set<string>): seq<Pair> {
    if pairs == [] then []
    else Outside(pairs[..|pairs| - 1], names) + (if pairs[|pairs| - 1].0 in names then [] else [pairs[|pairs| - 1]])
  }

  function Pairs(name: string, items: seq<string>): (r: seq<Pair>)
    ensures |r| == |items| && forall i :: 0 <= i < |r| ==> r[i] == (name, items[i])
  {
    if items == [] then [] else Pairs(name, items[..|items| - 1]) + [(name, items[|items| - 1])]
  }

  // ---------------------------------------------------------------- operations on values

  function Set(h: Head, name: string, v: Value): Head {
    Head(h.headers[name := v], Outside(h.pairs, {name}) + Pairs(name, Items(v)))
  }

  function Append(h: Head, name: string, items: seq<string>): Head {
    var v := if name in h.headers then Many(Items(h.headers[name]) + items)
             else if |items| == 1 then One(items[0]) else Many(items);
    Head(h.headers[name := v], h.pairs + Pairs(name, items))
  }

  /** The map and the pairs give each name the same values, in the same order. */
  ghost predicate Agree(h: Head) {
    forall name: string :: ValuesOf(h.pairs, name) == if name in h.headers then Items(h.headers[name]) else []
  }

  // ---------------------------------------------------------------- facts about pairs

  lemma {:induction false} ValuesOfConcat(a: seq<Pair>, b: seq<Pair>, name: string)
    ensures ValuesOf(a + b, name) == ValuesOf(a, name) + ValuesOf(b, name)
  {
    if b == [] {
      assert a + b == a;
    } else {
      assert (a + b)[..|a + b| - 1] == a + b[..|b| - 1];
      ValuesOfConcat(a, b[..|b| - 1], name);
    }
  }

  lemma {:induction false} ValuesOfPairs(name: string, items: seq<string>, other: string)
    ensures ValuesOf(Pairs(name, items), other) == if other == name then items else []
  {
    if items != [] {
      var p := Pairs(name, items);
      assert p[..|p| - 1] == Pairs(name, items[..|items| - 1]);
      ValuesOfPairs(name, items[..|items| - 1], other);
    }
  }

  lemma {:induction false} ValuesOutside(pairs: seq<Pair>, names: set<string>, name: string)
    ensures ValuesOf(Outside(pairs, names), name) == if name in names then [] else ValuesOf(pairs, name)
  {
    if pairs != [] {
      var init, last := pairs[..|pairs| - 1], pairs[|pairs| - 1];
      ValuesOutside(init, names, name);
      ValuesOfConcat(Outside(init, names), if last.0 in names then [] else [last], name);
      assert ValuesOf([last], name) == if last.0 == name then [last.1] else [] by { assert [last][..0] == []; }
    }
  }

  lemma {:induction false} OutsideConcat(a: seq<Pair>, b: seq<Pair>, names: set<string>)
    ensures Outside(a + b, names) == Outside(a, names) + Outside(b, names)
  {
    if b == [] {
      assert a + b == a;
    } else {
      assert (a + b)[..|a + b| - 1] == a + b[..|b| - 1];
      OutsideConcat(a, b[..|b| - 1], names);
    }
  }

  lemma {:induction false} OutsideTwice(pairs: seq<Pair>, a: set<string>, b: set<string>)
    ensures Outside(Outside(pairs, a), b) == Outside(pairs, a + b)
  {
    if pairs != [] {
      var init, last := pairs[..|pairs| - 1], pairs[|pairs| - 1];
      OutsideTwice(init, a, b);
      OutsideConcat(Outside(init, a), if last.0 in a then [] else [last], b);
      assert Outside([last], b) == if last.0 in b then [] else [last] by { assert [last][..0] == []; }
    }
  }

  /** Nothing to leave out leaves everything. */
  lemma {:induction false} OutsideNone(pairs: seq<Pair>, names: set<string>)
    requires forall i :: 0 <= i < |pairs| ==> pairs[i].0 !in names
    ensures Outside(pairs, names) == pairs
  {
    if pairs != [] { OutsideNone(pairs[..|pairs| - 1], names); }
  }

  // ---------------------------------------------------------------- one call keeps agreement

  /** Setting a name gives it these values and leaves the others theirs. */
  lemma SetValues(h: Head, name: string, v: Value, other: string)
    ensures ValuesOf(Set(h, name, v).pairs, other) == if other == name then Items(v) else ValuesOf(h.pairs, other)
  {
    hide ValuesOf, Outside, Pairs;
    ValuesOfConcat(Outside(h.pairs, {name}), Pairs(name, Items(v)), other);
    ValuesOutside(h.pairs, {name}, other);
    ValuesOfPairs(name, Items(v), other);
    assert ValuesOf(h.pairs, other) + [] == ValuesOf(h.pairs, other);
  }

  lemma SetAgrees(h: Head, name: string, v: Value)
    requires Agree(h)
    ensures Agree(Set(h, name, v))
  {
    hide ValuesOf, Outside, Pairs;
    var t := Set(h, name, v);
    forall other: string ensures ValuesOf(t.pairs, other) == if other in t.headers then Items(t.headers[other]) else [] {
      SetValues(h, name, v, other);
      assert ValuesOf(h.pairs, other) == if other in h.headers then Items(h.headers[other]) else [];
    }
  }

  lemma AppendAgrees(h: Head, name: string, items: seq<string>)
    requires Agree(h)
    ensures Agree(Append(h, name, items))
  {
    hide ValuesOf, Outside, Pairs;
    var t := Append(h, name, items);
    forall other: string ensures ValuesOf(t.pairs, other) == if other in t.headers then Items(t.headers[other]) else [] {
      ValuesOfConcat(h.pairs, Pairs(name, items), other);
      ValuesOfPairs(name, items, other);
      assert ValuesOf(h.pairs, other) == if other in h.headers then Items(h.headers[other]) else [];
      assert ValuesOf(h.pairs, other) + [] == ValuesOf(h.pairs, other);
    }
  }

  // ---------------------------------------------------------------- writeHead

  /** The headers argument: a list of pairs, or the entries of an object. */
  datatype Given = List(entries: seq<(string, Value)>) | Object(entries: seq<(string, Value)>)

  predicate ValidEntry(e: (string, Value), rules: Rules) {
    rules.validName(e.0) && forall i :: 0 <= i < |Items(e.1)| ==> rules.validValue(Items(e.1)[i])
  }

  predicate ValidEntries(entries: seq<(string, Value)>, rules: Rules) {
    forall i :: 0 <= i < |entries| ==> ValidEntry(entries[i], rules)
  }

  function Names(entries: seq<(string, Value)>, lower: string -> string): set<string> {
    if entries == [] then {} else Names(entries[..|entries| - 1], lower) + {lower(entries[|entries| - 1].0)}
  }

  /** A list replaces a name at its first entry and adds to it at the others; an object always replaces. */
  function Apply(h: Head, given: Given, lower: string -> string): Head
    decreases |given.entries|
  {
    if given.entries == [] then h
    else
      var last := |given.entries| - 1;
      var before := given.entries[..last];
      var h1 := Apply(h, given.(entries := before), lower);
      var name := lower(given.entries[last].0);
      if given.List? && name in Names(before, lower) then Append(h1, name, Items(given.entries[last].1))
      else Set(h1, name, given.entries[last].1)
  }

  lemma {:induction false} ApplyAgrees(h: Head, given: Given, lower: string -> string)
    requires Agree(h)
    ensures Agree(Apply(h, given, lower))
    decreases |given.entries|
  {
    if given.entries != [] {
      var last := |given.entries| - 1;
      var before := given.(entries := given.entries[..last]);
      ApplyAgrees(h, before, lower);
      SetAgrees(Apply(h, before, lower), lower(given.entries[last].0), given.entries[last].1);
      AppendAgrees(Apply(h, before, lower), lower(given.entries[last].0), Items(given.entries[last].1));
    }
  }

  function Flat(entries: seq<(string, Value)>, lower: string -> string): seq<Pair> {
    if entries == [] then []
    else
      var e := entries[|entries| - 1];
      Flat(entries[..|entries| - 1], lower) + Pairs(lower(e.0), Items(e.1))
  }

  lemma {:induction false} FlatNames(entries: seq<(string, Value)>, lower: string -> string)
    ensures forall i :: 0 <= i < |Flat(entries, lower)| ==> Flat(entries, lower)[i].0 in Names(entries, lower)
  {
    if entries != [] { FlatNames(entries[..|entries| - 1], lower); }
  }

  /**
   * After writeHead with a list, the pairs are those of the names not in the list, in their
   * old order, and then the list itself.
   */
  lemma {:induction false} ListReplaces(h: Head, entries: seq<(string, Value)>, lower: string -> string)
    ensures Apply(h, List(entries), lower).pairs == Outside(h.pairs, Names(entries, lower)) + Flat(entries, lower)
  {
    if entries == [] {
      OutsideNone(h.pairs, {});
      assert h.pairs + [] == h.pairs;
    } else {
      var before, e := entries[..|entries| - 1], entries[|entries| - 1];
      ListReplaces(h, before, lower);
      FlatNames(before, lower);
      hide Outside, Pairs;
      ListStep(h.pairs, Names(before, lower), Flat(before, lower), lower(e.0), Pairs(lower(e.0), Items(e.1)));
    }
  }

  /** One more entry of the list: its name goes from the old pairs, its own pairs come last. */
  lemma {:induction false} ListStep(pairs: seq<Pair>, done: set<string>, flat: seq<Pair>, name: string, more: seq<Pair>)
    requires forall i :: 0 <= i < |flat| ==> flat[i].0 in done
    ensures name in done ==> Outside(pairs, done) + flat + more == Outside(pairs, done + {name}) + (flat + more)
    ensures name !in done ==> Outside(Outside(pairs, done) + flat, {name}) + more == Outside(pairs, done + {name}) + (flat + more)
  {
    hide Outside;
    if name in done {
      assert done + {name} == done;
    } else {
      OutsideConcat(Outside(pairs, done), flat, {name});
      OutsideNone(flat, {name});
      OutsideTwice(pairs, done, {name});
    }
  }

  /** The last entry with this name, or |entries|. */
  function LastOf(entries: seq<(string, Value)>, name: string, lower: string -> string): (i: nat)
    ensures i <= |entries|
    ensures i < |entries| ==> lower(entries[i].0) == name && forall j :: i < j < |entries| ==> lower(entries[j].0) != name
    ensures i == |entries| ==> forall j :: 0 <= j < |entries| ==> lower(entries[j].0) != name
    decreases |entries|
  {
    if entries == [] then 0
    else if lower(entries[|entries| - 1].0) == name then |entries| - 1
    else
      var i := LastOf(entries[..|entries| - 1], name, lower);
      if i == |entries| - 1 then |entries| else i
  }

  /** After writeHead with an object, a name has the values of its last entry, or its old ones. */
  lemma {:induction false} ObjectReplaces(h: Head, entries: seq<(string, Value)>, lower: string -> string, name: string)
    ensures var i := LastOf(entries, name, lower);
            ValuesOf(Apply(h, Object(entries), lower).pairs, name) ==
            if i < |entries| then Items(entries[i].1) else ValuesOf(h.pairs, name)
  {
    if entries != [] {
      hide ValuesOf, Set;
      var before, e := entries[..|entries| - 1], entries[|entries| - 1];
      ObjectReplaces(h, before, lower, name);
      SetValues(Apply(h, Object(before), lower), lower(e.0), e.1, name);
    }
  }

  // ---------------------------------------------------------------- any sequence of calls

  datatype Call =
    | SetCall(name: string, value: Value)
    | AppendCall(name: string, value: Value)
    | HeadCall(status: int, message: Option<string>, given: Given)

  predicate Accepted(c: Call, rules: Rules) {
    match c
    case SetCall(name, value) => ValidEntry((name, value), rules)
    case AppendCall(name, value) => ValidEntry((name, value), rules)
    case HeadCall(status, message, given) =>
      && 200 <= status <= 599
      && (message.Some? ==> rules.validValue(message.value))
      && ValidEntries(given.entries, rules)
  }

  /** A call that throws changes nothing. */
  function Do(h: Head, c: Call, rules: Rules): Head {
    if !Accepted(c, rules) then h
    else
      match c
      case SetCall(name, value) => Set(h, rules.lower(name), value)
      case AppendCall(name, value) => Append(h, rules.lower(name), Items(value))
      case HeadCall(_, _, given) => Apply(h, given, rules.lower)
  }

  function After(calls: seq<Call>, rules: Rules): Head {
    if calls == [] then Empty else Do(After(calls[..|calls| - 1], rules), calls[|calls| - 1], rules)
  }

  /** After any sequence of calls the map and the pairs agree. */
  lemma {:induction false} AlwaysAgree(calls: seq<Call>, rules: Rules)
    ensures Agree(After(calls, rules))
  {
    if calls != [] {
      var h, c := After(calls[..|calls| - 1], rules), calls[|calls| - 1];
      AlwaysAgree(calls[..|calls| - 1], rules);
      hide Agree;
      match c
      case SetCall(name, value) => SetAgrees(h, rules.lower(name), value);
      case AppendCall(name, value) => AppendAgrees(h, rules.lower(name), Items(value));
      case HeadCall(_, _, given) => ApplyAgrees(h, given, rules.lower);
    }
  }

  // ---------------------------------------------------------------- the object

  class Response {
    const rules: Rules
    var headers: map<string, Value>
    var pairs: seq<Pair>
    var statusCode: int
    var statusMessage: Option<string>

    ghost function Now(): Head
      reads this
    {
      Head(headers, pairs)
    }

    constructor (rules: Rules)
      ensures this.rules == rules && Now() == Empty && statusCode == 200 && statusMessage.None?
    {
      this.rules := rules;
      headers, pairs, statusCode, statusMessage := map[], [], 200, None;
    }

    method SetHeader(name: string, value: Value) returns (ok: bool)
      modifies this`headers, this`pairs
      ensures ok == Accepted(SetCall(name, value), rules)
      ensures Now() == Do(old(Now()), SetCall(name, value), rules)
    {
      if !ValidEntry((name, value), rules) { return false; }
      headers, pairs := SetResponseHeader(headers, pairs, rules.lower(name), value);
      return true;
    }

    method AppendHeader(name: string, value: Value) returns (ok: bool)
      modifies this`headers, this`pairs
      ensures ok == Accepted(AppendCall(name, value), rules)
      ensures Now() == Do(old(Now()), AppendCall(name, value), rules)
    {
      if !ValidEntry((name, value), rules) { return false; }
      headers, pairs := AppendResponseHeader(headers, pairs, rules.lower(name), value);
      return true;
    }

    /** Works on copies, so that a throw leaves the object as it was. */
    method WriteHead(status: int, message: Option<string>, given: Given) returns (ok: bool)
      modifies this
      ensures ok == Accepted(HeadCall(status, message, given), rules)
      ensures Now() == Do(old(Now()), HeadCall(status, message, given), rules)
      ensures statusCode == if ok then status else old(statusCode)
      ensures statusMessage == if ok && message.Some? then message else old(statusMessage)
    {
      if status < 200 || status > 599 { return false; }
      if message.Some? && !rules.validValue(message.value) { return false; }
      var applied := ApplyAll(Head(headers, pairs), given, rules);
      if applied.None? { return false; }
      statusCode := status;
      if message.Some? { statusMessage := message; }
      headers, pairs := applied.value.headers, applied.value.pairs;
      return true;
    }
  }

  /** The loop of writeHead, on copies; None stands for the throw. */
  method ApplyAll(h: Head, given: Given, rules: Rules) returns (r: Option<Head>)
    ensures r == if ValidEntries(given.entries, rules) then Some(Apply(h, given, rules.lower)) else None
  {
    hide Set, Append, ValidEntry;
    var nextHeaders, nextPairs := h.headers, h.pairs;
    var replaced: set<string> := {};
    var entries := given.entries;
    for n := 0 to |entries|
      invariant ValidEntries(entries[..n], rules)
      invariant Head(nextHeaders, nextPairs) == Apply(h, given.(entries := entries[..n]), rules.lower)
      invariant given.List? ==> replaced == Names(entries[..n], rules.lower)
    {
      if !ValidEntry(entries[n], rules) { return None; }
      assert entries[..n + 1][..n] == entries[..n];
      var name, value := rules.lower(entries[n].0), entries[n].1;
      if given.List? && name in replaced {
        nextHeaders, nextPairs := AppendResponseHeader(nextHeaders, nextPairs, name, value);
      } else {
        nextHeaders, nextPairs := SetResponseHeader(nextHeaders, nextPairs, name, value);
      }
      replaced := replaced + {name};
    }
    assert entries[..|entries|] == entries;
    return Some(Head(nextHeaders, nextPairs));
  }

  method SetResponseHeader(headers: map<string, Value>, pairs: seq<Pair>, name: string, value: Value)
    returns (newHeaders: map<string, Value>, newPairs: seq<Pair>)
    ensures Head(newHeaders, newPairs) == Set(Head(headers, pairs), name, value)
  {
    newHeaders := headers[name := value];
    newPairs := RemovePairs(pairs, name);
    newPairs := newPairs + Pairs(name, Items(value));
  }

  method AppendResponseHeader(headers: map<string, Value>, pairs: seq<Pair>, name: string, value: Value)
    returns (newHeaders: map<string, Value>, newPairs: seq<Pair>)
    ensures Head(newHeaders, newPairs) == Append(Head(headers, pairs), name, Items(value))
  {
    var values := Items(value);
    newHeaders := headers[name := if name in headers then Many(Items(headers[name]) + values)
                                  else if |values| == 1 then One(values[0]) else Many(values)];
    newPairs := pairs + Pairs(name, values);
  }

  /** Removes a name's pairs one by one, from the back. */
  method RemovePairs(pairs: seq<Pair>, name: string) returns (left: seq<Pair>)
    ensures left == Outside(pairs, {name})
  {
    left := pairs;
    var index := |pairs|;
    while index > 0
      invariant 0 <= index <= |pairs|
      invariant left == pairs[..index] + Outside(pairs[index..], {name})
    {
      index := index - 1;
      assert left == pairs[..index] + [pairs[index]] + Outside(pairs[index + 1..], {name});
      assert pairs[index..] == [pairs[index]] + pairs[index + 1..];
      OutsideConcat([pairs[index]], pairs[index + 1..], {name});
      assert [pairs[index]][..0] == [];
      if left[index].0 == name {
        left := left[..index] + left[index + 1..];
      }
    }
  }
}
