// What the calls of a response do to its headers, name by name: setting, appending, and
// writeHead with a list. Each law speaks of the values one name has before and after, and
// says what becomes of all the others; the last one says exactly which heads are taken at
// all, and which are refused.

module HeaderLaws {
  import opened Prelude
  import opened ResponseHeaders

  /** A name may be set, and each value given for it. */
  predicate Allowed(name: string, value: Value, rules: Rules) {
    && rules.validName(name)
    && match value
       case One(text) => rules.validValue(text)
       case Many(texts) => forall i :: 0 <= i < |texts| ==> rules.validValue(texts[i])
  }

  lemma AllowedIsValid(name: string, value: Value, rules: Rules)
    ensures Allowed(name, value, rules) <==> ValidEntry((name, value), rules)
  {
    var e := (name, value);
    assert Items(e.1) == (if value.One? then [value.text] else value.texts);
    if value.One? { assert Items(e.1)[0] == value.text; }
    if ValidEntry(e, rules) && value.Many? {
      forall i | 0 <= i < |value.texts| ensures rules.validValue(value.texts[i]) { assert rules.validValue(Items(e.1)[i]); }
    }
  }

  /** Setting a header gives its lowered name just these values, or throws and changes nothing; other names keep theirs. */
  lemma SetExactly(h: Head, name: string, value: Value, rules: Rules, other: string)
    ensures var t := Do(h, SetCall(name, value), rules);
            if Allowed(name, value, rules) then
              ValuesOf(t.pairs, other) == if other == rules.lower(name) then Items(value) else ValuesOf(h.pairs, other)
            else t == h
  {
    hide Set, ValuesOf, Items;
    AllowedIsValid(name, value, rules);
    SetValues(h, rules.lower(name), value, other);
  }

  /** Appending adds the values behind those it has; a name is left with a single text only if that is its first. */
  lemma AppendExactly(h: Head, name: string, value: Value, rules: Rules, other: string)
    ensures var t := Do(h, AppendCall(name, value), rules);
            if Allowed(name, value, rules) then
              && ValuesOf(t.pairs, other) == ValuesOf(h.pairs, other) + (if other == rules.lower(name) then Items(value) else [])
              && |t.pairs| == |h.pairs| + |Items(value)| && t.pairs[..|h.pairs|] == h.pairs
              && rules.lower(name) in t.headers && (t.headers[rules.lower(name)].One? <==> rules.lower(name) !in h.headers && |Items(value)| == 1)
            else t == h
  {
    hide ValuesOf, Pairs;
    AllowedIsValid(name, value, rules);
    ValuesOfConcat(h.pairs, Pairs(rules.lower(name), Items(value)), other);
    ValuesOfPairs(rules.lower(name), Items(value), other);
  }

  /** The entries whose lowered name is this one, put together in their order. */
  function ValuesGiven(entries: seq<(string, Value)>, name: string, lower: string -> string): seq<string> {
    if entries == [] then []
    else
      var e := entries[|entries| - 1];
      ValuesGiven(entries[..|entries| - 1], name, lower) + (if lower(e.0) == name then Items(e.1) else [])
  }

  lemma {:induction false} GivenIsFlat(entries: seq<(string, Value)>, name: string, lower: string -> string)
    ensures ValuesOf(Flat(entries, lower), name) == ValuesGiven(entries, name, lower)
  {
    if entries != [] {
      var e := entries[|entries| - 1];
      GivenIsFlat(entries[..|entries| - 1], name, lower);
      ValuesOfConcat(Flat(entries[..|entries| - 1], lower), Pairs(lower(e.0), Items(e.1)), name);
      ValuesOfPairs(lower(e.0), Items(e.1), name);
    }
  }

  lemma {:induction false} NamedIsGiven(entries: seq<(string, Value)>, name: string, lower: string -> string)
    ensures name in Names(entries, lower) <==> exists i :: 0 <= i < |entries| && lower(entries[i].0) == name
  {
    if entries != [] {
      var init := entries[..|entries| - 1];
      NamedIsGiven(init, name, lower);
      if i :| 0 <= i < |entries| && lower(entries[i].0) == name { if i < |init| { assert init[i] == entries[i]; } }
      if i :| 0 <= i < |init| && lower(init[i].0) == name { assert entries[i] == init[i]; }
    }
  }

  /** writeHead with a list: a name in it has all the values the list gives it, in order; another keeps its own. */
  lemma ListExactly(h: Head, entries: seq<(string, Value)>, lower: string -> string, name: string)
    ensures ValuesOf(Apply(h, List(entries), lower).pairs, name)
         == if exists i :: 0 <= i < |entries| && lower(entries[i].0) == name then ValuesGiven(entries, name, lower) else ValuesOf(h.pairs, name)
  {
    ListReplaces(h, entries, lower);
    NamedIsGiven(entries, name, lower);
    hide ValuesOf, Apply, Names, Outside, Flat;
    ValuesOfConcat(Outside(h.pairs, Names(entries, lower)), Flat(entries, lower), name);
    ValuesOutside(h.pairs, Names(entries, lower), name);
    GivenIsFlat(entries, name, lower);
    if !(name in Names(entries, lower)) { NothingGiven(entries, name, lower); assert ValuesOf(h.pairs, name) + [] == ValuesOf(h.pairs, name); }
    else { assert [] + ValuesGiven(entries, name, lower) == ValuesGiven(entries, name, lower); }
  }

  lemma {:induction false} NothingGiven(entries: seq<(string, Value)>, name: string, lower: string -> string)
    requires !exists i :: 0 <= i < |entries| && lower(entries[i].0) == name
    ensures ValuesGiven(entries, name, lower) == []
  {
    if entries != [] {
      var init := entries[..|entries| - 1];
      assert forall i :: 0 <= i < |init| ==> init[i] == entries[i];
      assert lower(entries[|entries| - 1].0) != name;
      NothingGiven(init, name, lower);
    }
  }

  /** writeHead takes effect exactly for a status from 200 to 599, a valid message and valid entries. */
  lemma HeadAcceptedExactly(status: int, message: Option<string>, given: Given, rules: Rules)
    ensures Accepted(HeadCall(status, message, given), rules)
       <==> 200 <= status < 600 && (message.None? || rules.validValue(message.value))
            && forall i :: 0 <= i < |given.entries| ==> Allowed(given.entries[i].0, given.entries[i].1, rules)
  {
    forall i | 0 <= i < |given.entries| ensures Allowed(given.entries[i].0, given.entries[i].1, rules) <==> ValidEntry(given.entries[i], rules) {
      AllowedIsValid(given.entries[i].0, given.entries[i].1, rules);
    }
    hide Allowed, ValidEntry;
  }
}
