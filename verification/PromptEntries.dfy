// Which values and which keys the prompt loop handles faithfully in every template without nesting.
module PromptEntries {
  import opened Prompts

  // The first entry of the dictionary, and entries without braces behind it.
  ghost predicate IsDictionary(e: Entry, context: seq<Entry>) {
    PlainEntries(context) && DistinctKeys([e] + context)
  }

  ghost predicate Agrees(s: string, context: seq<Entry>) {
    Fill(s, context) == Sim(s, ToMap(context))
  }

  // ---------- Values ----------

  // Under every key and in every flat template the value is put in as one simultaneous substitution would.
  ghost predicate SafeValue(value: string) {
    forall s, key, context :: Flat(s) && BraceFree(key) && IsDictionary(Entry(key, value), context)
                              ==> Agrees(s, [Entry(key, value)] + context)
  }

  // The value may be put in first or last.
  ghost predicate OrderSafe(value: string) {
    forall s, key, context :: Flat(s) && BraceFree(key) && IsDictionary(Entry(key, value), context)
                              ==> Fill(s, [Entry(key, value)] + context) == Fill(s, context + [Entry(key, value)])
  }

  lemma {:induction false} LastOpening(w: string) returns (i: nat)
    requires '{' in w
    ensures i < |w| && w[i] == '{' && '{' !in w[i + 1..]
  {
    var last := |w| - 1;
    if w[last] == '{' {
      i := last;
    } else {
      i := LastOpening(w[..last]);
      assert w[i + 1..] == w[..last][i + 1..] + [w[last]];
    }
  }

  lemma {:induction false} FirstClosing(w: string) returns (j: nat)
    requires '}' in w
    ensures j < |w| && w[j] == '}' && '}' !in w[..j]
  {
    if w[0] == '}' {
      j := 0;
    } else {
      j := FirstClosing(w[1..]);
      assert w[..j + 1] == [w[0]] + w[1..][..j];
      j := j + 1;
    }
  }

  // At most one brace beside a placeholder, and none that encloses it.
  predicate IsFrame(before: string, after: string) {
    (before == "" && (after == "" || after == "}")) || (before == "{" && after == "")
  }

  // A value with a brace holds a placeholder, or makes one with a brace of the template beside it.
  lemma HoldsPlaceholder(w: string) returns (before: string, after: string, x: string, name: string, y: string)
    requires !BraceFree(w)
    ensures IsFrame(before, after)
    ensures before + w + after == x + Placeholder(name) + y && BraceFree(name) && |name| <= |w|
  {
    if '{' in w {
      var i := LastOpening(w);
      var tail := w[i + 1..];
      before, x := "", w[..i];
      if '}' in tail {
        var j := FirstClosing(tail);
        after, name, y := "", tail[..j], tail[j + 1..];
        InsideValue(w, i, j);
      } else {
        after, name, y := "}", tail, "";
        OpenAtEnd(w, i);
      }
    } else {
      var j := FirstClosing(w);
      before, after, x, name, y := "{", "", "", w[..j], w[j + 1..];
      ClosedAtStart(w, j);
    }
  }

  lemma InsideValue(w: string, i: nat, j: nat)
    requires i < |w| && w[i] == '{' && j < |w| - i - 1 && w[i + 1..][j] == '}'
    ensures "" + w + "" == w[..i] + Placeholder(w[i + 1..][..j]) + w[i + 1..][j + 1..]
  {
    var tail := w[i + 1..];
    assert tail == tail[..j] + ['}'] + tail[j + 1..];
    assert w == w[..i] + ['{'] + tail;
  }

  lemma OpenAtEnd(w: string, i: nat)
    requires i < |w| && w[i] == '{'
    ensures "" + w + "}" == w[..i] + Placeholder(w[i + 1..]) + ""
  {
    assert w == w[..i] + ['{'] + w[i + 1..];
  }

  lemma ClosedAtStart(w: string, j: nat)
    requires j < |w| && w[j] == '}'
    ensures "{" + w + "" == "" + Placeholder(w[..j]) + w[j + 1..]
  {
    assert w == w[..j] + ['}'] + w[j + 1..];
  }

  // A template of one placeholder with at most one brace beside it.
  function Framed(before: string, key: string, after: string): string {
    before + Placeholder(key) + after
  }

  lemma OpeningBefore(key: string)
    requires BraceFree(key)
    ensures var t := Framed("{", key, "");
      t == ['{'] + Placeholder(key) && t[0] == '{' && t[1..] == Placeholder(key) && NextClose(Placeholder(key)).None?
    ensures !Closes(Placeholder(key)) && Placeholder(key) + "" == Placeholder(key)
  {
    var p := Placeholder(key);
    assert p[0] == '{' && p + "" == p && !Closes("");
    ClosesPlaceholder(key, "");
  }

  lemma ClosingAfter(after: string, pattern: string, value: string, values: map<string, string>)
    requires after == "" || after == "}"
    ensures '{' !in after && Flat(after) && Replace(after, Placeholder(pattern), value) == after
      && Sim(after, values) == after
  {
    ReplaceText(after, "", pattern, value);
    SimText(after, "", values);
    assert after + "" == after;
  }

  lemma FramedIsFlat(before: string, key: string, after: string)
    requires IsFrame(before, after) && BraceFree(key)
    ensures Flat(Framed(before, key, after))
  {
    var s := Placeholder(key) + after;
    assert before == "" ==> Framed(before, key, after) == s;
    PlaceholderOpens(key, after);
    ClosingAfter(after, key, "", map[]);
    OpeningBefore(key);
    FlatAfter(s);
    hide Placeholder, Framed, Replace, Sim, BraceFree, NextClose, Closes;
  }

  lemma FramedReplace(before: string, key: string, after: string, pattern: string, value: string)
    requires IsFrame(before, after) && BraceFree(key) && BraceFree(pattern)
    ensures Replace(Framed(before, key, after), Placeholder(pattern), value)
         == before + (if pattern == key then value else Placeholder(key)) + after
  {
    var s := Placeholder(key) + after;
    assert before == "" ==> Framed(before, key, after) == s;
    OpeningBefore(key);
    ClosingAfter(after, pattern, value, map[]);
    hide Placeholder, Framed, Replace, Sim, BraceFree, NextClose, Flat;
    ReplaceNamed(key, after, pattern, value);
    var put := if pattern == key then value else Placeholder(key);
    if before == "{" {
      ReplaceOpen(Framed(before, key, after), pattern, value);
      Unframed(put);
    } else {
      assert "" + put == put;
    }
  }

  lemma FramedSim(before: string, key: string, after: string, values: map<string, string>)
    requires IsFrame(before, after) && BraceFree(key) && key in values
    ensures Sim(Framed(before, key, after), values) == before + values[key] + after
  {
    var s := Placeholder(key) + after;
    assert before == "" ==> Framed(before, key, after) == s;
    OpeningBefore(key);
    ClosingAfter(after, key, "", values);
    hide Placeholder, Framed, Replace, BraceFree, NextClose, Flat, Sim;
    SimPlaceholder(key, after, values);
    if before == "{" {
      SimUnmatched(Framed(before, key, after), values);
      Unframed(values[key]);
    } else {
      assert "" + values[key] == values[key];
    }
  }

  lemma Unframed(v: string)
    ensures "{" + v + "" == ['{'] + (v + "") && v + "" == v
  {
  }

  lemma SimUnmatched(t: string, values: map<string, string>)
    requires t != "" && t[0] == '{' && NextClose(t[1..]).None?
    ensures Sim(t, values) == ['{'] + Sim(t[1..], values)
  {
    hide NextClose;
  }

  // A key longer than the value, so that the placeholder found in the value has another name.
  lemma BracesAreReadAgain(w: string, key: string) returns (s: string, context: seq<Entry>)
    requires !BraceFree(w) && BraceFree(key) && |key| > |w|
    ensures Flat(s) && IsDictionary(Entry(key, w), context)
    ensures !Agrees(s, [Entry(key, w)] + context)
    ensures Fill(s, [Entry(key, w)] + context) != Fill(s, context + [Entry(key, w)])
  {
    hide Flat, Placeholder, Replace, Framed, Sim, Fill, ToMap, IsFrame, Agrees;
    var before, after, x, name, y := HoldsPlaceholder(w);
    assert key != name && BraceFree("");
    hide BraceFree;
    var first, second := Entry(key, w), Entry(name, "");
    s, context := Framed(before, key, after), [second];
    FramedIsFlat(before, key, after);
    FramedReplace(before, key, after, key, w);
    FramedReplace(before, key, after, name, "");
    TwoEntries(first, second);
    FramedSim(before, key, after, ToMap([first, second]));
    assert Framed(before, key, after) == before + Placeholder(key) + after by {
      FramedIs(before, key, after);
    }
    PlaceholderShrinks(s, first, second, before + w + after, x, y);
  }

  lemma FramedIs(before: string, key: string, after: string)
    ensures Framed(before, key, after) == before + Placeholder(key) + after
  {
  }

  // Removing the placeholder that the first value made is seen; removing it beforehand is not.
  lemma PlaceholderShrinks(s: string, first: Entry, second: Entry, filled: string, x: string, y: string)
    requires filled == x + Placeholder(second.key) + y && second.value == ""
    requires Replace(s, Placeholder(first.key), first.value) == filled && Replace(s, Placeholder(second.key), "") == s
    requires Sim(s, ToMap([first, second])) == filled
    ensures !Agrees(s, [first] + [second])
    ensures Fill(s, [first] + [second]) != Fill(s, [second] + [first])
  {
    RemovalShortens(x, Placeholder(second.key), y, filled);
    hide Placeholder, Replace, Sim, Fill, ToMap;
    assert [first] + [second] == [first, second] && [second] + [first] == [second, first];
    FillTwo(s, first, second);
    FillTwo(s, second, first);
  }

  lemma TwoEntries(a: Entry, b: Entry)
    requires a.key != b.key
    ensures a.key in ToMap([a, b]) && ToMap([a, b])[a.key] == a.value
  {
    assert [a, b][1..] == [b];
  }

  // A value is safe under every key and in every flat template if and only if it holds no brace, and exactly
  // then it makes no difference whether it is put in first or last.
  lemma SafeValueIff(w: string)
    ensures SafeValue(w) <==> BraceFree(w)
    ensures OrderSafe(w) <==> BraceFree(w)
  {
    if BraceFree(w) {
      forall s, key, context | Flat(s) && BraceFree(key) && IsDictionary(Entry(key, w), context)
        ensures Agrees(s, [Entry(key, w)] + context)
        ensures Fill(s, [Entry(key, w)] + context) == Fill(s, context + [Entry(key, w)])
      {
        PlainIsSafe(s, Entry(key, w), context);
      }
    } else {
      var key := LongValue(|w| + 1);
      var s, context := BracesAreReadAgain(w, key);
    }
  }

  lemma PlainIsSafe(s: string, e: Entry, context: seq<Entry>)
    requires Flat(s) && BraceFree(e.key) && BraceFree(e.value) && IsDictionary(e, context)
    ensures Agrees(s, [e] + context) && Fill(s, [e] + context) == Fill(s, context + [e])
  {
    hide Fill, Sim, Flat, BraceFree, ToMap;
    FillIsSim(s, [e] + context);
    StillDistinct(e, context);
    OrderDoesNotMatter(s, [e] + context, context + [e]);
  }

  lemma StillDistinct(e: Entry, context: seq<Entry>)
    requires DistinctKeys([e] + context)
    ensures DistinctKeys(context + [e]) && multiset(context + [e]) == multiset([e] + context)
  {
    var all, moved := [e] + context, context + [e];
    forall i, j | 0 <= i < j < |moved|
      ensures moved[i].key != moved[j].key
    {
      assert moved[i] == all[i + 1];
      assert moved[j] == if j < |context| then all[j + 1] else all[0];
    }
  }

  // ---------- Keys ----------

  ghost predicate SafeKey(key: string) {
    forall s, value, context :: Flat(s) && BraceFree(value) && IsDictionary(Entry(key, value), context)
                                ==> Agrees(s, [Entry(key, value)] + context)
  }

  lemma {:induction false} ClosesAlready(t: string, r: string)
    requires Closes(t)
    ensures Closes(t + r) && (NextClose(t).Some? <==> NextClose(t + r).Some?)
    decreases |t|
  {
    hide Closes, NextClose, BraceFree;
    var s := t + r;
    assert t != "" by { NothingCloses(); }
    assert s[1..] == t[1..] + r && s[0] == t[0];
    ClosesStep(t);
    ClosesStep(s);
    if t[0] == '{' {
      var c := NextClose(t[1..]).value;
      SameName(t[1..], r);
      assert s[|c| + 2..] == t[|c| + 2..] + r;
      ClosesAlready(t[|c| + 2..], r);
    } else if t[0] != '}' {
      ClosesAlready(t[1..], r);
    }
  }

  lemma NothingCloses()
    ensures !Closes("")
  {
  }

  lemma ClosesStep(t: string)
    requires t != ""
    ensures t[0] == '}' ==> Closes(t) && NextClose(t).Some?
    ensures t[0] == '{' ==> NextClose(t).None?
    ensures t[0] == '{' ==> (Closes(t) <==> NextClose(t[1..]).Some? && Closes(t[|NextClose(t[1..]).value| + 2..]))
    ensures BraceFree([t[0]]) ==> (Closes(t) <==> Closes(t[1..])) && (NextClose(t).Some? <==> NextClose(t[1..]).Some?)
    ensures BraceFree([t[0]]) <==> t[0] != '{' && t[0] != '}'
  {
  }

  lemma {:induction false} SameName(t: string, r: string)
    requires NextClose(t).Some?
    ensures NextClose(t + r) == NextClose(t)
  {
    assert (t + r)[1..] == t[1..] + r;
    if t[0] != '}' {
      SameName(t[1..], r);
    }
  }

  // What a flat template starts with is flat.
  lemma {:induction false} FlatPrefix(p: string, r: string)
    requires Flat(p + r)
    ensures Flat(p)
  {
    if p != "" {
      assert (p + r)[1..] == p[1..] + r;
      FlatPrefix(p[1..], r);
      if p[0] == '{' && Closes(p[1..]) {
        ClosesAlready(p[1..], r);
      }
    }
  }

  lemma {:induction false} NotInFlat(s: string, pattern: string, value: string)
    requires Flat(s) && !Flat(pattern)
    ensures pattern != "" && Replace(s, pattern, value) == s
  {
    if pattern <= s {
      assert s == pattern + s[|pattern|..];
      FlatPrefix(pattern, s[|pattern|..]);
      assert false;
    } else if s != "" {
      NotInFlat(s[1..], pattern, value);
    }
  }

  // A name with a brace is never looked up.
  lemma {:induction false} BracedIsIgnored(s: string, key: string, value: string, values: map<string, string>)
    requires !BraceFree(key) && key !in values
    ensures Sim(s, values[key := value]) == Sim(s, values)
    decreases |s|
  {
    if s != "" {
      BracedIsIgnored(s[1..], key, value, values);
      if s[0] == '{' && NextClose(s[1..]).Some? {
        var c := NextClose(s[1..]).value;
        assert c != key;
        hide NextClose, BraceFree;
        BracedIsIgnored(s[|c| + 2..], key, value, values);
      }
    }
  }

  lemma BracedKeyAlone(key: string)
    requires !BraceFree(key) && Flat(Placeholder(key))
    ensures !SafeKey(key)
  {
    var s, e := Placeholder(key), Entry(key, "");
    assert [e] + [] == [e];
    ReplaceItself(key, "");
    assert Fill("", []) == "";
    assert Fill(s, [e]) == "";
    assert ToMap([e]) == map[][key := ""];
    BracedIsIgnored(s, key, "", map[]);
    SimOfNothing(s);
    assert !Agrees(s, [e] + []);
    assert IsDictionary(e, []) && BraceFree("");
  }

  lemma BracedKeyIgnored(s: string, e: Entry, context: seq<Entry>)
    requires Flat(s) && !BraceFree(e.key) && !Flat(Placeholder(e.key)) && IsDictionary(e, context)
    ensures Agrees(s, [e] + context)
  {
    NotInFlat(s, Placeholder(e.key), e.value);
    var all := [e] + context;
    assert all[1..] == context;
    assert Fill(s, all) == Fill(s, context);
    assert ToMap(all) == ToMap(context)[e.key := e.value];
    hide Fill, Sim, Replace, Flat, BraceFree, ToMap, Placeholder;
    FillIsSim(s, context);
    NotAmong(e, context);
    BracedIsIgnored(s, e.key, e.value, ToMap(context));
  }

  lemma NotAmong(e: Entry, context: seq<Entry>)
    requires DistinctKeys([e] + context)
    ensures e.key !in ToMap(context)
  {
    var all := [e] + context;
    forall i | 0 <= i < |context|
      ensures context[i].key != e.key
    {
      assert all[0].key != all[i + 1].key;
    }
    forall i, j | 0 <= i < j < |context|
      ensures context[i].key != context[j].key
    {
      assert all[i + 1].key != all[j + 1].key;
    }
    LookUp(context);
  }

  // A key is safe in every flat template if and only if it holds no brace, or its placeholder is not flat
  // and so occurs in no such template.
  lemma SafeKeyIff(key: string)
    ensures SafeKey(key) <==> BraceFree(key) || !Flat(Placeholder(key))
  {
    if BraceFree(key) {
      forall s, value, context | Flat(s) && BraceFree(value) && IsDictionary(Entry(key, value), context)
        ensures Agrees(s, [Entry(key, value)] + context)
      {
        PlainIsSafe(s, Entry(key, value), context);
      }
    } else if Flat(Placeholder(key)) {
      BracedKeyAlone(key);
    } else {
      forall s, value, context | Flat(s) && BraceFree(value) && IsDictionary(Entry(key, value), context)
        ensures Agrees(s, [Entry(key, value)] + context)
      {
        BracedKeyIgnored(s, Entry(key, value), context);
      }
    }
  }
}
