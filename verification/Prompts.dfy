// Prompt templating: the employee service replaces one placeholder after another, and the result is
// compared with replacing all of them at once.
module Prompts {
  import opened Common
  import opened Text

  datatype Entry = Entry(key: string, value: string)

  // ---------- str.replace and the loop ----------

  // str.replace for a nonempty pattern: leftmost occurrences, never overlapping.
  function Replace(s: string, pattern: string, value: string): string
    requires pattern != ""
  {
    if s == "" then ""
    else if pattern <= s then value + Replace(s[|pattern|..], pattern, value)
    else [s[0]] + Replace(s[1..], pattern, value)
  }

  function Placeholder(key: string): string {
    ['{'] + key + ['}']
  }

  // What the loop over the context computes.
  function Fill(s: string, context: seq<Entry>): string
    decreases |context|
  {
    if context == [] then s
    else Fill(Replace(s, Placeholder(context[0].key), context[0].value), context[1..])
  }

  // ---------- One simultaneous substitution ----------

  predicate BraceFree(s: string) {
    '{' !in s && '}' !in s
  }

  // The text up to the next brace, when that brace closes.
  function NextClose(t: string): (name: Option<string>)
    ensures name.Some? ==>
      BraceFree(name.value) && |name.value| < |t| && t == name.value + ['}'] + t[|name.value| + 1..]
  {
    if t == "" || t[0] == '{' then None
    else if t[0] == '}' then Some("")
    else
      var rest := NextClose(t[1..]);
      if rest.None? then None else Some([t[0]] + rest.value)
  }

  // Every placeholder of the template is replaced by what the dictionary says; nothing is read twice.
  function Sim(s: string, values: map<string, string>): string
    decreases |s|
  {
    if s == "" then ""
    else
      var name := if s[0] == '{' then NextClose(s[1..]) else None;
      if name.Some? && name.value in values then values[name.value] + Sim(s[|name.value| + 2..], values)
      else [s[0]] + Sim(s[1..], values)
  }

  function ToMap(context: seq<Entry>): map<string, string> {
    if context == [] then map[] else ToMap(context[1..])[context[0].key := context[0].value]
  }

  // A dictionary has no key twice.
  ghost predicate DistinctKeys(context: seq<Entry>) {
    forall i, j :: 0 <= i < j < |context| ==> context[i].key != context[j].key
  }

  ghost predicate PlainEntries(context: seq<Entry>) {
    forall i :: 0 <= i < |context| ==> BraceFree(context[i].key) && BraceFree(context[i].value)
  }

  // Reading complete placeholders and other text, the string comes to a closing brace.
  predicate Closes(t: string)
    decreases |t|
  {
    if t == "" then false
    else if t[0] == '}' then true
    else if t[0] == '{' then
      var name := NextClose(t[1..]);
      name.Some? && Closes(t[|name.value| + 2..])
    else Closes(t[1..])
  }

  // No pair of braces encloses a complete placeholder.
  predicate Flat(s: string) {
    s == "" || ((s[0] == '{' && Closes(s[1..]) ==> NextClose(s[1..]).Some?) && Flat(s[1..]))
  }

  // ---------- Text without an opening brace passes through unchanged ----------

  lemma {:induction false} ReplaceText(c: string, r: string, key: string, value: string)
    requires '{' !in c
    ensures Replace(c + r, Placeholder(key), value) == c + Replace(r, Placeholder(key), value)
  {
    if c == "" {
      assert c + r == r;
    } else {
      assert (c + r)[1..] == c[1..] + r;
      assert (c + r)[0] == c[0];
      assert Placeholder(key)[0] == '{';
      ReplaceText(c[1..], r, key, value);
      assert c == [c[0]] + c[1..];
      Assoc([c[0]], c[1..], Replace(r, Placeholder(key), value));
    }
  }

  lemma {:induction false} SimText(c: string, r: string, values: map<string, string>)
    requires '{' !in c
    ensures Sim(c + r, values) == c + Sim(r, values)
  {
    if c == "" {
      assert c + r == r;
    } else {
      assert (c + r)[1..] == c[1..] + r;
      SimText(c[1..], r, values);
      assert c == [c[0]] + c[1..];
      Assoc([c[0]], c[1..], Sim(r, values));
    }
  }

  lemma {:induction false} FlatText(c: string, r: string)
    requires '{' !in c
    ensures Flat(c + r) <==> Flat(r)
  {
    if c == "" {
      assert c + r == r;
    } else {
      assert (c + r)[1..] == c[1..] + r;
      FlatText(c[1..], r);
    }
  }

  lemma {:induction false} ClosesText(c: string, r: string)
    requires BraceFree(c)
    ensures Closes(c + r) <==> Closes(r)
  {
    if c == "" {
      assert c + r == r;
    } else {
      assert (c + r)[1..] == c[1..] + r;
      ClosesText(c[1..], r);
    }
  }

  function Prepend(c: string, name: Option<string>): Option<string> {
    if name.Some? then Some(c + name.value) else None
  }

  lemma PrependTwice(a: string, b: string, name: Option<string>)
    ensures Prepend(a, Prepend(b, name)) == Prepend(a + b, name)
    ensures Prepend("", name) == name
  {
    if name.Some? {
      Assoc(a, b, name.value);
      assert "" + name.value == name.value;
    }
  }

  lemma {:induction false} NextCloseText(c: string, r: string)
    requires BraceFree(c)
    ensures NextClose(c + r) == Prepend(c, NextClose(r))
  {
    if c == "" {
      assert c + r == r;
      PrependTwice("", "", NextClose(r));
    } else {
      var s := c + r;
      assert s[1..] == c[1..] + r && s[0] == c[0];
      NextCloseText(c[1..], r);
      assert NextClose(s) == Prepend([c[0]], NextClose(s[1..]));
      assert c == [c[0]] + c[1..];
      PrependTwice([c[0]], c[1..], NextClose(r));
    }
  }

  lemma {:induction false} NextCloseCloses(t: string)
    requires NextClose(t).Some?
    ensures Closes(t)
  {
    if t[0] != '}' {
      NextCloseCloses(t[1..]);
    }
  }

  // ---------- Replace at an opening brace ----------

  // What replace does to a template that starts with an opening brace, by the text up to the next brace.
  lemma ReplaceOpen(s: string, key: string, value: string)
    requires s != "" && s[0] == '{' && BraceFree(key)
    ensures var name, r := NextClose(s[1..]), Replace(s, Placeholder(key), value);
      if name == Some(key) then
        r == value + Replace(s[|key| + 2..], Placeholder(key), value)
      else if name.Some? then
        r == Placeholder(name.value) + Replace(s[|name.value| + 2..], Placeholder(key), value)
      else
        r == ['{'] + Replace(s[1..], Placeholder(key), value)
  {
    var name := NextClose(s[1..]);
    if name.Some? {
      SplitPlaceholder(s);
      ReplaceNamed(name.value, s[|name.value| + 2..], key, value);
    } else if Placeholder(key) <= s {
      OpensWithName(s, key);
    }
  }

  lemma SplitPlaceholder(s: string)
    requires s != "" && s[0] == '{' && NextClose(s[1..]).Some?
    ensures s == Placeholder(NextClose(s[1..]).value) + s[|NextClose(s[1..]).value| + 2..]
  {
    var c := NextClose(s[1..]).value;
    assert s == ['{'] + s[1..];
    assert s[1..][|c| + 1..] == s[|c| + 2..];
  }

  lemma ReplaceNamed(name: string, rest: string, key: string, value: string)
    requires BraceFree(name) && BraceFree(key)
    ensures Replace(Placeholder(name) + rest, Placeholder(key), value)
         == (if name == key then value else Placeholder(name)) + Replace(rest, Placeholder(key), value)
  {
    var s := Placeholder(name) + rest;
    if name == key {
      assert s[|Placeholder(key)|..] == rest;
    } else {
      if Placeholder(key) <= s {
        PlaceholderIs(s, key, name, rest);
        assert false;
      }
      assert s[1..] == (name + ['}']) + rest;
      ReplaceText(name + ['}'], rest, key, value);
      var done := Replace(rest, Placeholder(key), value);
      assert Replace(s, Placeholder(key), value) == ['{'] + ((name + ['}']) + done);
      hide Replace;
      assert Placeholder(name) == ['{'] + (name + ['}']);
      Assoc(['{'], name + ['}'], done);
    }
  }

  lemma OpensWithName(s: string, key: string)
    requires BraceFree(key) && Placeholder(key) <= s
    ensures NextClose(s[1..]) == Some(key)
  {
    var rest := s[|key| + 2..];
    assert s == Placeholder(key) + rest;
    PlaceholderOpens(key, rest);
  }

  lemma PlaceholderIs(s: string, key: string, name: string, rest: string)
    requires BraceFree(key) && BraceFree(name) && s == Placeholder(name) + rest && Placeholder(key) <= s
    ensures key == name
  {
    var r := s[|key| + 2..];
    assert s[1..] == key + (['}'] + r);
    assert s[1..] == name + (['}'] + rest);
    NextCloseText(key, ['}'] + r);
    NextCloseText(name, ['}'] + rest);
    assert key + "" == key && name + "" == name;
  }

  // ---------- Replacement keeps a flat template flat ----------

  lemma {:induction false} ReplaceNextClose(t: string, key: string, value: string)
    requires Flat(t) && BraceFree(key) && BraceFree(value)
    requires Closes(t) ==> NextClose(t).Some?
    ensures NextClose(Replace(t, Placeholder(key), value)) == NextClose(t)
    decreases |t|
  {
    hide Replace, Placeholder, Flat, Closes, NextClose;
    if t == "" || t[0] == '}' {
      NoOpening(t, key, value);
    } else if t[0] != '{' {
      PlainTail(t);
      ReplaceNextClose(t[1..], key, value);
      PlainNextClose(t, key, value);
    } else if NextClose(t[1..]) == Some(key) {
      NamedTail(t);
      ReplaceNextClose(t[|key| + 2..], key, value);
      NamedNextClose(t, key, value);
    } else {
      StaysOpen(t, key, value);
    }
  }

  lemma PlainTail(t: string)
    requires t != "" && BraceFree([t[0]]) && Flat(t)
    requires Closes(t) ==> NextClose(t).Some?
    ensures Flat(t[1..]) && (Closes(t[1..]) ==> NextClose(t[1..]).Some?)
  {
  }

  lemma NamedTail(t: string)
    requires t != "" && t[0] == '{' && NextClose(t[1..]).Some? && Flat(t)
    requires Closes(t) ==> NextClose(t).Some?
    ensures NextClose(t).None?
    ensures var rest := t[|NextClose(t[1..]).value| + 2..];
      Flat(rest) && !Closes(rest) && NextClose(rest).None?
  {
    FlatAfter(t);
    var rest := t[|NextClose(t[1..]).value| + 2..];
    assert Closes(t) <==> Closes(rest);
    hide Flat, Closes;
    if NextClose(rest).Some? {
      NextCloseCloses(rest);
    }
  }

  lemma NoOpening(t: string, key: string, value: string)
    requires t == "" || t[0] == '}'
    ensures NextClose(Replace(t, Placeholder(key), value)) == NextClose(t)
  {
  }

  lemma PlainNextClose(t: string, key: string, value: string)
    requires t != "" && BraceFree([t[0]])
    requires NextClose(Replace(t[1..], Placeholder(key), value)) == NextClose(t[1..])
    ensures NextClose(Replace(t, Placeholder(key), value)) == NextClose(t)
  {
    ReplacePlain(t, key, value);
    hide Replace, Placeholder;
    NextCloseText([t[0]], Replace(t[1..], Placeholder(key), value));
    NextCloseText([t[0]], t[1..]);
  }

  lemma NamedNextClose(t: string, key: string, value: string)
    requires t != "" && t[0] == '{' && NextClose(t[1..]) == Some(key) && BraceFree(value)
    requires NextClose(Replace(t[|key| + 2..], Placeholder(key), value)).None?
    ensures NextClose(Replace(t, Placeholder(key), value)).None?
  {
    ReplaceOpen(t, key, value);
    hide Replace, Placeholder;
    NextCloseText(value, Replace(t[|key| + 2..], Placeholder(key), value));
  }

  lemma ReplacePlain(s: string, key: string, value: string)
    requires s != "" && s[0] != '{'
    ensures s == [s[0]] + s[1..]
    ensures Replace(s, Placeholder(key), value) == [s[0]] + Replace(s[1..], Placeholder(key), value)
  {
    assert Placeholder(key)[0] == '{';
  }

  // Another placeholder, or an unmatched brace, stays where it is.
  lemma StaysOpen(s: string, key: string, value: string)
    requires s != "" && s[0] == '{' && BraceFree(key) && NextClose(s[1..]) != Some(key)
    ensures var r := Replace(s, Placeholder(key), value);
      r != "" && r[0] == '{' && NextClose(r).None? && NextClose(s).None?
  {
    ReplaceOpen(s, key, value);
    assert Placeholder(key)[0] == '{';
    hide Replace;
  }

  // What follows a placeholder of a flat template is flat.
  lemma FlatAfter(s: string)
    requires s != "" && s[0] == '{' && NextClose(s[1..]).Some?
    ensures Flat(s) <==> Flat(s[|NextClose(s[1..]).value| + 2..])
  {
    var c := NextClose(s[1..]).value;
    var rest := s[|c| + 2..];
    assert s[1..][|c| + 1..] == rest;
    assert s[1..] == (c + ['}']) + rest;
    FlatText(c + ['}'], rest);
  }

  lemma {:induction false} ReplaceCloses(t: string, key: string, value: string)
    requires Flat(t) && BraceFree(key) && BraceFree(value)
    ensures Closes(Replace(t, Placeholder(key), value)) <==> Closes(t)
    decreases |t|
  {
    if t == "" || t[0] == '}' {
    } else if t[0] != '{' {
      ReplaceCloses(t[1..], key, value);
      assert Replace(t, Placeholder(key), value)[1..] == Replace(t[1..], Placeholder(key), value);
    } else if NextClose(t[1..]).Some? {
      var name := NextClose(t[1..]).value;
      var rest := t[|name| + 2..];
      FlatAfter(t);
      ReplaceCloses(rest, key, value);
      NamedCloses(t, key, value);
      hide Replace, Flat, Placeholder;
    } else {
      UnmatchedStays(t, key, value);
    }
  }

  lemma NamedCloses(s: string, key: string, value: string)
    requires s != "" && s[0] == '{' && NextClose(s[1..]).Some? && BraceFree(key) && BraceFree(value)
    ensures var rest := s[|NextClose(s[1..]).value| + 2..];
      Closes(Replace(s, Placeholder(key), value)) <==> Closes(Replace(rest, Placeholder(key), value))
  {
    var name := NextClose(s[1..]).value;
    var done := Replace(s[|name| + 2..], Placeholder(key), value);
    ReplaceOpen(s, key, value);
    hide Replace;
    if name == key {
      ClosesText(value, done);
    } else {
      ClosesPlaceholder(name, done);
    }
  }

  lemma UnmatchedStays(s: string, key: string, value: string)
    requires s != "" && s[0] == '{' && NextClose(s[1..]).None? && Flat(s) && BraceFree(key) && BraceFree(value)
    ensures !Closes(Replace(s, Placeholder(key), value)) && !Closes(s)
  {
    ReplaceNextClose(s[1..], key, value);
    ReplaceOpen(s, key, value);
    hide Replace, Flat, Placeholder;
    var r := Replace(s, Placeholder(key), value);
    assert r[1..] == Replace(s[1..], Placeholder(key), value);
  }

  lemma ClosesPlaceholder(name: string, rest: string)
    requires BraceFree(name)
    ensures Closes(Placeholder(name) + rest) <==> Closes(rest)
  {
    PlaceholderOpens(name, rest);
    hide Placeholder, NextClose;
  }

  // A placeholder in front of a text is what is read first.
  lemma PlaceholderOpens(name: string, rest: string)
    requires BraceFree(name)
    ensures var s := Placeholder(name) + rest;
      s[0] == '{' && NextClose(s[1..]) == Some(name) && s[|name| + 2..] == rest
  {
    var s := Placeholder(name) + rest;
    assert s[1..] == name + (['}'] + rest);
    NextCloseText(name, ['}'] + rest);
    assert name + "" == name;
  }

  lemma {:induction false} ReplaceKeepsFlat(s: string, key: string, value: string)
    requires Flat(s) && BraceFree(key) && BraceFree(value)
    ensures Flat(Replace(s, Placeholder(key), value))
    decreases |s|
  {
    var r := Replace(s, Placeholder(key), value);
    if s == "" {
    } else if s[0] != '{' {
      ReplaceKeepsFlat(s[1..], key, value);
      assert r[1..] == Replace(s[1..], Placeholder(key), value);
    } else {
      ReplaceOpen(s, key, value);
      var name := NextClose(s[1..]);
      if name.Some? {
        var rest := s[|name.value| + 2..];
        var done := Replace(rest, Placeholder(key), value);
        FlatAfter(s);
        ReplaceKeepsFlat(rest, key, value);
        if name.value == key {
          FlatText(value, done);
        } else {
          PlaceholderOpens(name.value, done);
          FlatAfter(r);
        }
      } else {
        ReplaceKeepsFlat(s[1..], key, value);
        ReplaceCloses(s[1..], key, value);
        assert r[1..] == Replace(s[1..], Placeholder(key), value);
      }
    }
  }

  // ---------- One replacement is one more entry of the simultaneous substitution ----------

  // The name of a placeholder that a replacement creates contains the value that was put in.
  lemma {:induction false} CreatedNameIsLong(t: string, key: string, value: string)
    requires BraceFree(key) && BraceFree(value)
    ensures var made := NextClose(Replace(t, Placeholder(key), value));
      made.Some? && made != NextClose(t) ==> |made.value| >= |value|
    decreases |t|
  {
    if t == "" || t[0] == '}' {
    } else if t[0] != '{' {
      CreatedNameIsLong(t[1..], key, value);
      assert Replace(t, Placeholder(key), value)[1..] == Replace(t[1..], Placeholder(key), value);
    } else {
      ReplaceOpen(t, key, value);
      if NextClose(t[1..]) == Some(key) {
        NextCloseText(value, Replace(t[|key| + 2..], Placeholder(key), value));
      }
    }
  }

  // No value is part of a placeholder that is looked up later.
  ghost predicate NothingNew(s: string, value: string, values: map<string, string>) {
    Flat(s) || forall name :: name in values ==> |name| < |value|
  }

  lemma NothingNewHere(s: string, key: string, value: string, values: map<string, string>)
    requires s != "" && s[0] == '{' && NextClose(s[1..]).None? && BraceFree(key) && BraceFree(value)
    requires NothingNew(s, value, values)
    ensures var made := NextClose(Replace(s[1..], Placeholder(key), value));
      made.None? || made.value !in values
  {
    if Flat(s) {
      ReplaceNextClose(s[1..], key, value);
    } else {
      CreatedNameIsLong(s[1..], key, value);
    }
  }

  lemma {:induction false} ReplaceIsOneEntry(s: string, key: string, value: string, values: map<string, string>)
    requires BraceFree(key) && BraceFree(value) && NothingNew(s, value, values)
    ensures Sim(Replace(s, Placeholder(key), value), values) == Sim(s, values[key := value])
    decreases |s|
  {
    var r := Replace(s, Placeholder(key), value);
    if s == "" {
    } else if s[0] != '{' {
      ReplaceIsOneEntry(s[1..], key, value, values);
      assert r == [s[0]] + Replace(s[1..], Placeholder(key), value);
      SimText([s[0]], Replace(s[1..], Placeholder(key), value), values);
      hide Replace, Flat;
    } else if NextClose(s[1..]).Some? {
      var name := NextClose(s[1..]).value;
      var rest := s[|name| + 2..];
      FlatAfter(s);
      assert NothingNew(rest, value, values);
      hide Replace, Flat, Placeholder, Sim;
      ReplaceIsOneEntry(rest, key, value, values);
      NamedIsOneEntry(s, key, value, values);
    } else {
      assert NothingNew(s[1..], value, values);
      ReplaceIsOneEntry(s[1..], key, value, values);
      hide Flat;
      UnmatchedIsNoEntry(s, key, value, values);
    }
  }

  lemma UnmatchedIsNoEntry(s: string, key: string, value: string, values: map<string, string>)
    requires s != "" && s[0] == '{' && NextClose(s[1..]).None? && BraceFree(key) && BraceFree(value)
    requires NothingNew(s, value, values)
    ensures Sim(Replace(s, Placeholder(key), value), values)
         == ['{'] + Sim(Replace(s[1..], Placeholder(key), value), values)
  {
    NothingNewHere(s, key, value, values);
    ReplaceOpen(s, key, value);
    hide Replace, Flat, Placeholder;
    assert Replace(s, Placeholder(key), value)[1..] == Replace(s[1..], Placeholder(key), value);
  }

  lemma NamedIsOneEntry(s: string, key: string, value: string, values: map<string, string>)
    requires s != "" && s[0] == '{' && NextClose(s[1..]).Some? && BraceFree(key) && BraceFree(value)
    requires var rest := s[|NextClose(s[1..]).value| + 2..];
      Sim(Replace(rest, Placeholder(key), value), values) == Sim(rest, values[key := value])
    ensures Sim(Replace(s, Placeholder(key), value), values) == Sim(s, values[key := value])
  {
    var name := NextClose(s[1..]).value;
    var rest := s[|name| + 2..];
    var done := Replace(rest, Placeholder(key), value);
    ReplaceOpen(s, key, value);
    SplitPlaceholder(s);
    hide Replace, Placeholder, Sim;
    SimPlaceholder(name, rest, values[key := value]);
    if name == key {
      SimText(value, done, values);
    } else {
      SimPlaceholder(name, done, values);
    }
  }

  lemma SimPlaceholder(name: string, rest: string, values: map<string, string>)
    requires BraceFree(name)
    ensures Sim(Placeholder(name) + rest, values)
         == (if name in values then values[name] else Placeholder(name)) + Sim(rest, values)
  {
    PlaceholderOpens(name, rest);
    if name !in values {
      var s := Placeholder(name) + rest;
      assert s[1..] == (name + ['}']) + rest;
      SimText(name + ['}'], rest, values);
      Assoc(['{'], name + ['}'], Sim(rest, values));
      assert Placeholder(name) == ['{'] + (name + ['}']);
    }
  }

  // ---------- The loop is one simultaneous substitution ----------

  // For a flat template and entries without braces, replacing one placeholder after another is replacing all
  // of them at once.
  lemma {:induction false} FillIsSim(s: string, context: seq<Entry>)
    requires Flat(s) && PlainEntries(context)
    ensures Fill(s, context) == Sim(s, ToMap(context))
    decreases |context|
  {
    if context == [] {
      SimOfNothing(s);
    } else {
      var key, value := context[0].key, context[0].value;
      ReplaceKeepsFlat(s, key, value);
      ReplaceIsOneEntry(s, key, value, ToMap(context[1..]));
      FillIsSim(Replace(s, Placeholder(key), value), context[1..]);
    }
  }

  lemma {:induction false} SimOfNothing(s: string)
    ensures Sim(s, map[]) == s
  {
    if s != "" {
      SimOfNothing(s[1..]);
    }
  }

  lemma {:induction false} LookUp(context: seq<Entry>)
    requires DistinctKeys(context)
    ensures forall k :: k in ToMap(context) <==> exists i :: 0 <= i < |context| && context[i].key == k
    ensures forall i :: 0 <= i < |context| ==>
      context[i].key in ToMap(context) && ToMap(context)[context[i].key] == context[i].value
  {
    if context != [] {
      LookUp(context[1..]);
      assert forall i :: 0 < i < |context| ==> context[i] == context[1..][i - 1];
    }
  }

  lemma SamePlain(context: seq<Entry>, other: seq<Entry>)
    requires PlainEntries(context) && multiset(context) == multiset(other)
    ensures PlainEntries(other)
  {
    forall i | 0 <= i < |other|
      ensures BraceFree(other[i].key) && BraceFree(other[i].value)
    {
      assert other[i] in multiset(other);
      assert other[i] in context;
    }
  }

  lemma SameLookUp(context: seq<Entry>, other: seq<Entry>)
    requires DistinctKeys(context) && DistinctKeys(other) && multiset(context) == multiset(other)
    ensures forall k :: k in ToMap(context) ==> k in ToMap(other) && ToMap(other)[k] == ToMap(context)[k]
  {
    LookUp(context);
    LookUp(other);
    forall k | k in ToMap(context)
      ensures k in ToMap(other) && ToMap(other)[k] == ToMap(context)[k]
    {
      var i :| 0 <= i < |context| && context[i].key == k;
      assert context[i] in multiset(context);
      assert context[i] in other;
    }
  }

  // The order in which a dictionary lists its entries does not matter.
  lemma OrderDoesNotMatter(s: string, context: seq<Entry>, other: seq<Entry>)
    requires Flat(s) && PlainEntries(context) && DistinctKeys(context) && DistinctKeys(other)
    requires multiset(context) == multiset(other)
    ensures Fill(s, context) == Fill(s, other)
  {
    FillIsSim(s, context);
    SamePlain(context, other);
    FillIsSim(s, other);
    SameLookUp(context, other);
    SameLookUp(other, context);
    hide Fill, Sim, Flat, ToMap;
    assert ToMap(context) == ToMap(other);
  }

  // A value that contains a placeholder is read again if its entry comes first, and is not if it comes
  // last: for values with braces the order of the entries shows.
  lemma OrderMattersWithBraces(a: string, b: string, value: string)
    requires BraceFree(a) && BraceFree(b) && a != b
    ensures Fill(Placeholder(a), [Entry(a, Placeholder(b)), Entry(b, value)]) == value
    ensures Fill(Placeholder(a), [Entry(b, value), Entry(a, Placeholder(b))]) == Placeholder(b)
  {
    ReplaceItself(a, Placeholder(b));
    ReplaceItself(b, value);
    ReplaceOther(a, b, value);
    hide Replace, Placeholder;
    FillTwo(Placeholder(a), Entry(a, Placeholder(b)), Entry(b, value));
    FillTwo(Placeholder(a), Entry(b, value), Entry(a, Placeholder(b)));
  }

  lemma FillTwo(s: string, a: Entry, b: Entry)
    ensures Fill(s, [a, b]) == Replace(Replace(s, Placeholder(a.key), a.value), Placeholder(b.key), b.value)
  {
    hide Replace;
    assert [a] + [b] == [a, b];
    FillLast(s, [a], b);
  }

  lemma ReplaceItself(key: string, value: string)
    ensures Replace(Placeholder(key), Placeholder(key), value) == value
  {
    assert Placeholder(key)[|Placeholder(key)|..] == "";
  }

  lemma ReplaceOther(name: string, key: string, value: string)
    requires BraceFree(name) && BraceFree(key) && name != key
    ensures Replace(Placeholder(name), Placeholder(key), value) == Placeholder(name)
  {
    PlaceholderOpens(name, "");
    assert Placeholder(name) + "" == Placeholder(name);
    ReplaceOpen(Placeholder(name), key, value);
  }

  // ---------- A template that is not flat is misread for some entries ----------

  // The loop and the simultaneous substitution agree on the template whatever the entries are.
  ghost predicate FillsFaithfully(s: string) {
    forall context :: PlainEntries(context) && DistinctKeys(context) ==> Fill(s, context) == Sim(s, ToMap(context))
  }

  // A pair of braces that encloses a complete placeholder.
  lemma {:induction false} NestedPair(s: string) returns (i: nat)
    requires !Flat(s)
    ensures i < |s| && s[i] == '{' && Closes(s[i + 1..]) && NextClose(s[i + 1..]).None?
  {
    if s[0] == '{' && Closes(s[1..]) && NextClose(s[1..]).None? {
      i := 0;
    } else {
      i := NestedPair(s[1..]);
      assert s[1..][i + 1..] == s[i + 2..];
      i := i + 1;
    }
  }

  // The names of the placeholders up to the closing brace.
  function Names(t: string): (names: seq<string>)
    requires Closes(t)
    ensures forall i :: 0 <= i < |names| ==> BraceFree(names[i]) && |names[i]| < |t|
    decreases |t|
  {
    if t[0] == '}' then []
    else if t[0] == '{' then
      var name := NextClose(t[1..]).value;
      [name] + Names(t[|name| + 2..])
    else Names(t[1..])
  }

  // Every name once, all with the same value.
  function Uniform(names: seq<string>, value: string): seq<Entry> {
    if names == [] then []
    else if names[0] in names[1..] then Uniform(names[1..], value)
    else [Entry(names[0], value)] + Uniform(names[1..], value)
  }

  lemma {:induction false} UniformEntries(names: seq<string>, value: string)
    ensures DistinctKeys(Uniform(names, value))
    ensures forall i :: 0 <= i < |Uniform(names, value)| ==>
      Uniform(names, value)[i].value == value && Uniform(names, value)[i].key in names
    ensures forall k :: k in ToMap(Uniform(names, value)) <==> k in names
    ensures forall k :: k in names ==> ToMap(Uniform(names, value))[k] == value
  {
    if names != [] {
      UniformEntries(names[1..], value);
      if names[0] !in names[1..] {
        assert Uniform(names, value)[1..] == Uniform(names[1..], value);
      }
    }
  }

  // With a value longer than every name the loop cannot form a name again, flat or not.
  lemma {:induction false} LongFillIsSim(s: string, context: seq<Entry>, value: string)
    requires PlainEntries(context)
    requires forall i :: 0 <= i < |context| ==> context[i].value == value && |context[i].key| < |value|
    ensures Fill(s, context) == Sim(s, ToMap(context))
    ensures forall k :: k in ToMap(context) ==> |k| < |value|
    decreases |context|
  {
    if context == [] {
      SimOfNothing(s);
    } else {
      var key := context[0].key;
      hide Sim, Replace, BraceFree, Flat;
      LongFillIsSim(Replace(s, Placeholder(key), value), context[1..], value);
      ReplaceIsOneEntry(s, key, value, ToMap(context[1..]));
    }
  }

  lemma {:induction false} FillLast(s: string, context: seq<Entry>, e: Entry)
    ensures Fill(s, context + [e]) == Replace(Fill(s, context), Placeholder(e.key), e.value)
    decreases |context|
  {
    if context == [] {
      assert context + [e] == [e];
      assert Fill(Replace(s, Placeholder(e.key), e.value), []) == Replace(s, Placeholder(e.key), e.value);
    } else {
      assert (context + [e])[1..] == context[1..] + [e];
      FillLast(Replace(s, Placeholder(context[0].key), context[0].value), context[1..], e);
    }
  }

  lemma {:induction false} ToMapLast(context: seq<Entry>, e: Entry)
    requires e.key !in ToMap(context)
    ensures ToMap(context + [e]) == ToMap(context)[e.key := e.value]
  {
    if context == [] {
      assert context + [e] == [e];
    } else {
      assert (context + [e])[1..] == context[1..] + [e];
      ToMapLast(context[1..], e);
    }
  }

  // A name longer than the template does not occur in it.
  lemma {:induction false} LongNameIsAbsent(s: string, name: string, value: string, values: map<string, string>)
    requires |name| > |s| && name !in values
    ensures Sim(s, values[name := value]) == Sim(s, values)
    decreases |s|
  {
    if s != "" {
      LongNameIsAbsent(s[1..], name, value, values);
      if s[0] == '{' && NextClose(s[1..]).Some? {
        var c := NextClose(s[1..]).value;
        assert c != name;
        hide NextClose, BraceFree;
        LongNameIsAbsent(s[|c| + 2..], name, value, values);
      }
    }
  }

  // Scanning reaches every opening brace: no placeholder spans one.
  lemma {:induction false} ScanReaches(s: string, i: nat, values: map<string, string>) returns (done: string)
    requires i < |s| && s[i] == '{'
    ensures Sim(s, values) == done + Sim(s[i..], values)
    decreases |s|
  {
    hide BraceFree;
    var name := if s[0] == '{' then NextClose(s[1..]) else None;
    hide NextClose;
    if i == 0 {
      done := "";
      assert s[0..] == s;
    } else if name.Some? && name.value in values {
      var c := name.value;
      BeyondPlaceholder(s, i);
      done := ScanReaches(s[|c| + 2..], i - (|c| + 2), values);
      ScanFurther(s, i, |c| + 2, values, values[c], done);
      done := values[c] + done;
    } else {
      done := ScanReaches(s[1..], i - 1, values);
      ScanFurther(s, i, 1, values, [s[0]], done);
      done := [s[0]] + done;
    }
  }

  lemma ScanFurther(s: string, i: nat, k: nat, values: map<string, string>, head: string, done: string)
    requires k <= i < |s|
    requires Sim(s, values) == head + Sim(s[k..], values)
    requires Sim(s[k..], values) == done + Sim(s[k..][i - k..], values)
    ensures Sim(s, values) == head + done + Sim(s[i..], values)
  {
    hide Sim;
    assert s[k..][i - k..] == s[i..];
    Assoc(head, done, Sim(s[i..], values));
  }

  // The next opening brace comes after the placeholder the text starts with.
  lemma BeyondPlaceholder(s: string, i: nat)
    requires 0 < i < |s| && s[0] == '{' && s[i] == '{' && NextClose(s[1..]).Some?
    ensures i >= |NextClose(s[1..]).value| + 2
  {
    var c, tail := NextClose(s[1..]).value, s[1..];
    hide NextClose;
    assert tail[..|c| + 1] == c + ['}'];
    assert forall j :: 0 <= j < |c| + 1 ==> tail[j] == (c + ['}'])[j] != '{';
    assert tail[i - 1] == '{';
  }

  // With values for its placeholders, the text inside an outer pair of braces becomes a name of its own.
  lemma {:induction false} InnerText(t: string, values: map<string, string>, value: string)
    returns (name: string, after: string)
    requires Closes(t) && BraceFree(value)
    requires forall k :: k in Names(t) ==> k in values && values[k] == value
    ensures Sim(t, values) == name + ['}'] + after && BraceFree(name)
    ensures Names(t) != [] ==> |name| >= |value|
    decreases |t|
  {
    if t[0] == '}' {
      name, after := "", Sim(t[1..], values);
    } else if t[0] == '{' {
      var c := NextClose(t[1..]).value;
      assert Names(t)[0] == c;
      assert c in values && values[c] == value;
      var others := Names(t[|c| + 2..]);
      assert Names(t) == [c] + others;
      assert Sim(t, values) == value + Sim(t[|c| + 2..], values);
      hide Sim, Names, Closes, NextClose;
      name, after := InnerText(t[|c| + 2..], values, value);
      Assoc3(value, name, ['}'], after);
      name := value + name;
    } else {
      assert Names(t) == Names(t[1..]);
      assert Sim(t, values) == [t[0]] + Sim(t[1..], values);
      hide Sim, Names, Closes, NextClose;
      name, after := InnerText(t[1..], values, value);
      Assoc3([t[0]], name, ['}'], after);
      name := [t[0]] + name;
    }
  }

  lemma Assoc3(a: string, b: string, c: string, d: string)
    ensures a + (b + c + d) == (a + b) + c + d
  {
  }

  lemma {:induction false} RemovalShortens(a: string, pattern: string, b: string, s: string)
    requires pattern != "" && s == a + pattern + b
    ensures |Replace(s, pattern, "")| < |s|
    decreases |s|
  {
    if pattern <= s {
      RemovalNeverLengthens(s[|pattern|..], pattern);
    } else {
      assert a == "" ==> s == pattern + b;
      assert s[1..] == a[1..] + pattern + b;
      RemovalShortens(a[1..], pattern, b, s[1..]);
    }
  }

  lemma {:induction false} RemovalNeverLengthens(s: string, pattern: string)
    requires pattern != ""
    ensures |Replace(s, pattern, "")| <= |s|
    decreases |s|
  {
    if s != "" {
      if pattern <= s {
        RemovalNeverLengthens(s[|pattern|..], pattern);
      } else {
        RemovalNeverLengthens(s[1..], pattern);
      }
    }
  }

  // The placeholders inside an outer pair, all given one long value, leave a new placeholder behind.
  lemma NestedLeavesName(s: string, names: seq<string>, i: nat, values: map<string, string>, value: string)
    returns (done: string, name: string, after: string)
    requires i < |s| && s[i] == '{' && Closes(s[i + 1..]) && NextClose(s[i + 1..]).None? && names == Names(s[i + 1..])
    requires BraceFree(value) && forall k :: k in names ==> k in values && values[k] == value
    ensures Sim(s, values) == done + Placeholder(name) + after && BraceFree(name) && |name| >= |value|
  {
    var t := s[i + 1..];
    NamedIfNested(t);
    assert s[i..][1..] == t && s[i..][0] == '{';
    assert Sim(s[i..], values) == ['{'] + Sim(t, values);
    hide Sim, Closes, Names, NextClose;
    done := ScanReaches(s, i, values);
    name, after := InnerText(t, values, value);
    Assoc3(['{'], name, ['}'], after);
    Assoc(done, Placeholder(name), after);
  }

  function LongValue(n: nat): (value: string)
    ensures |value| == n && BraceFree(value)
  {
    if n == 0 then "" else ['x'] + LongValue(n - 1)
  }

  lemma UniformFill(s: string, names: seq<string>, value: string)
    requires BraceFree(value) && forall i :: 0 <= i < |names| ==> BraceFree(names[i]) && |names[i]| < |value|
    ensures var context := Uniform(names, value);
      PlainEntries(context) && DistinctKeys(context) && Fill(s, context) == Sim(s, ToMap(context))
    ensures forall k :: k in ToMap(Uniform(names, value)) ==> |k| < |value|
    ensures forall k :: k in names ==> k in ToMap(Uniform(names, value)) && ToMap(Uniform(names, value))[k] == value
  {
    var context := Uniform(names, value);
    UniformEntries(names, value);
    hide Uniform, Fill, Sim, ToMap;
    assert PlainEntries(context);
    hide BraceFree, PlainEntries;
    LongFillIsSim(s, context, value);
  }

  lemma NestedIsMisread(s: string) returns (context: seq<Entry>)
    requires !Flat(s)
    ensures PlainEntries(context) && DistinctKeys(context) && Fill(s, context) != Sim(s, ToMap(context))
  {
    hide Uniform, NextClose, Sim, Fill, Replace, ToMap, Flat;
    var i := NestedPair(s);
    var names := Names(s[i + 1..]);
    hide Closes, Names, LongValue;
    var value := LongValue(|s| + 1);
    var inner := Uniform(names, value);
    UniformFill(s, names, value);
    hide BraceFree;
    var done, name, after := NestedLeavesName(s, names, i, ToMap(inner), value);
    context := inner + [Entry(name, "")];
    LastIsMisread(s, inner, name, done, after);
    StillDictionary(inner, name);
  }

  lemma StillDictionary(inner: seq<Entry>, name: string)
    requires PlainEntries(inner) && DistinctKeys(inner) && BraceFree(name) && name !in ToMap(inner)
    ensures PlainEntries(inner + [Entry(name, "")]) && DistinctKeys(inner + [Entry(name, "")])
  {
    LookUp(inner);
  }

  lemma LastIsMisread(s: string, inner: seq<Entry>, name: string, done: string, after: string)
    requires Fill(s, inner) == Sim(s, ToMap(inner)) == done + Placeholder(name) + after
    requires |name| > |s| && name !in ToMap(inner)
    ensures var context := inner + [Entry(name, "")];
      Fill(s, context) != Sim(s, ToMap(context))
  {
    hide Sim, Fill, ToMap, Replace;
    RemovalShortens(done, Placeholder(name), after, Sim(s, ToMap(inner)));
    FillLast(s, inner, Entry(name, ""));
    ToMapLast(inner, Entry(name, ""));
    LongNameIsAbsent(s, name, "", ToMap(inner));
  }

  lemma {:induction false} NamedIfNested(t: string)
    requires Closes(t) && NextClose(t).None?
    ensures Names(t) != []
  {
    if t[0] != '{' {
      NamedIfNested(t[1..]);
    }
  }

  // Exactly the flat templates are filled faithfully.
  lemma FaithfulIffFlat(s: string)
    ensures FillsFaithfully(s) <==> Flat(s)
  {
    if Flat(s) {
      forall context | PlainEntries(context) && DistinctKeys(context)
        ensures Fill(s, context) == Sim(s, ToMap(context))
      {
        FillIsSim(s, context);
      }
    } else {
      var context := NestedIsMisread(s);
    }
  }

  // ---------- The employee service ----------

  datatype Employee = Employee(systemPrompt: Option<string>, prompts: seq<string>)

  // Failed: the employee has no system prompt and something is to be put into it or after it.
  datatype Reply = Prompt(text: Option<string>) | NotFound | Failed

  class EmployeeService {
    var employees: map<string, Employee>

    constructor (employees: map<string, Employee>)
      ensures this.employees == employees
    {
      this.employees := employees;
    }

    // The filled template and the employee's prompt parts, one paragraph each.
    method BuildPrompt(id: string, context: seq<Entry>) returns (reply: Reply)
      requires DistinctKeys(context)
      ensures reply.NotFound? <==> id !in employees
      ensures id in employees && employees[id].systemPrompt.None? ==>
        reply == if context == [] && employees[id].prompts == [] then Prompt(None) else Failed
      ensures id in employees && employees[id].systemPrompt.Some? ==>
        reply == Prompt(Some(JoinParagraphs([Fill(employees[id].systemPrompt.value, context)] + employees[id].prompts)))
      ensures id in employees && employees[id].systemPrompt.Some? && PlainEntries(context) ==>
        var template := employees[id].systemPrompt.value;
        var filled := Sim(template, ToMap(context));
        Flat(template) ==> reply == Prompt(Some(JoinParagraphs([filled] + employees[id].prompts)))
    {
      if id !in employees {
        return NotFound;
      }
      var employee := employees[id];
      if employee.systemPrompt.None? {
        return if context == [] && employee.prompts == [] then Prompt(None) else Failed;
      }
      var prompt := employee.systemPrompt.value;
      for i := 0 to |context|
        invariant Fill(prompt, context[i..]) == Fill(employee.systemPrompt.value, context)
      {
        prompt := Replace(prompt, Placeholder(context[i].key), context[i].value);
        assert context[i..][1..] == context[i + 1..];
      }
      assert prompt == Fill(employee.systemPrompt.value, context);
      ghost var filled := prompt;
      for i := 0 to |employee.prompts|
        invariant prompt == JoinParagraphs([filled] + employee.prompts[..i])
      {
        JoinOneMore([filled] + employee.prompts[..i], employee.prompts[i]);
        assert [filled] + employee.prompts[..i + 1] == [filled] + employee.prompts[..i] + [employee.prompts[i]];
        prompt := prompt + "\n\n" + employee.prompts[i];
      }
      assert employee.prompts[..|employee.prompts|] == employee.prompts;
      if Flat(employee.systemPrompt.value) && PlainEntries(context) {
        FillIsSim(employee.systemPrompt.value, context);
      }
      reply := Prompt(Some(prompt));
    }
  }

  lemma JoinOneMore(ps: seq<string>, p: string)
    requires ps != []
    ensures JoinParagraphs(ps + [p]) == JoinParagraphs(ps) + "\n\n" + p
  {
    assert (ps + [p])[..|ps|] == ps;
  }
}
