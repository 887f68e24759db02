// The string operations the chunker is built from: Python's whitespace, strip, split, join, the
// newline-collapsing substitution, and the split on blank lines.  The lemmas say what each of them does
// to the word sequence of a text.
module Text {

  // The code points for which Python's str.isspace holds; strip and split use the same test.
  predicate IsSpace(c: char) {
    var n := c as int;
    || 9 <= n <= 13 || 28 <= n <= 32 || n == 0x85 || n == 0xA0 || n == 0x1680
    || 0x2000 <= n <= 0x200A || n == 0x2028 || n == 0x2029 || n == 0x202F || n == 0x205F || n == 0x3000
  }

  predicate AllSpace(s: string) {
    forall i :: 0 <= i < |s| ==> IsSpace(s[i])
  }

  // A token as str.split produces it.
  predicate IsWord(s: string) {
    s != "" && forall i :: 0 <= i < |s| ==> !IsSpace(s[i])
  }

  // What is left of a nonempty text once it is stripped.
  predicate IsParagraph(p: string) {
    p != "" && !IsSpace(p[0]) && !IsSpace(p[|p| - 1])
  }

  // ---------- str.strip ----------

  function StripLeft(s: string): (r: string)
    ensures |r| <= |s|
    ensures r != "" ==> !IsSpace(r[0])
  {
    if s != "" && IsSpace(s[0]) then StripLeft(s[1..]) else s
  }

  function StripRight(s: string): (r: string)
    ensures r <= s
    ensures r != "" ==> !IsSpace(r[|r| - 1])
  {
    if s != "" && IsSpace(s[|s| - 1]) then StripRight(s[..|s| - 1]) else s
  }

  function Strip(s: string): (r: string)
    ensures r != "" ==> IsParagraph(r)
    ensures |r| <= |s|
  {
    StripRight(StripLeft(s))
  }

  // ---------- str.split ----------

  // Length of the leading run of non-space characters.
  function TokenLength(s: string): (n: nat)
    ensures n <= |s|
    ensures forall i :: 0 <= i < n ==> !IsSpace(s[i])
    ensures n < |s| ==> IsSpace(s[n])
  {
    if s == "" || IsSpace(s[0]) then 0 else 1 + TokenLength(s[1..])
  }

  function Words(s: string): (ws: seq<string>)
    ensures forall i :: 0 <= i < |ws| ==> IsWord(ws[i])
    decreases |s|
  {
    if s == "" then []
    else if IsSpace(s[0]) then Words(s[1..])
    else
      var n := TokenLength(s);
      [s[..n]] + Words(s[n..])
  }

  function JoinWords(ws: seq<string>): string {
    if |ws| == 0 then "" else if |ws| == 1 then ws[0] else ws[0] + " " + JoinWords(ws[1..])
  }

  lemma Assoc<T>(a: seq<T>, b: seq<T>, c: seq<T>)
    ensures a + (b + c) == a + b + c
  {
  }

  lemma {:induction false} TokenLengthPrefix(t: string, rest: string)
    requires forall i :: 0 <= i < |t| ==> !IsSpace(t[i])
    requires rest == "" || IsSpace(rest[0])
    ensures TokenLength(t + rest) == |t|
  {
    if t == "" {
      assert t + rest == rest;
    } else {
      assert (t + rest)[1..] == t[1..] + rest;
      TokenLengthPrefix(t[1..], rest);
    }
  }

  // A whitespace character separates: the words on its two sides are independent.
  lemma {:induction false} WordsSplitAtSpace(a: string, sp: char, b: string)
    requires IsSpace(sp)
    ensures Words(a + [sp] + b) == Words(a) + Words(b)
    decreases |a|
  {
    var s := a + [sp] + b;
    if a == "" {
      assert s[1..] == b;
    } else if IsSpace(a[0]) {
      assert s[1..] == a[1..] + [sp] + b;
      WordsSplitAtSpace(a[1..], sp, b);
    } else {
      var n := TokenLength(a);
      var t := a[..n];
      assert s == t + (a[n..] + [sp] + b);
      TokenLengthPrefix(t, a[n..] + [sp] + b);
      assert s[..n] == t && s[n..] == a[n..] + [sp] + b;
      WordsSplitAtSpace(a[n..], sp, b);
      assert Words(s) == [t] + (Words(a[n..]) + Words(b));
      assert Words(a) == [t] + Words(a[n..]);
    }
  }

  lemma {:induction false} WordsOfSpace(w: string)
    requires AllSpace(w)
    ensures Words(w) == []
  {
    if w != "" {
      WordsOfSpace(w[1..]);
    }
  }

  // A nonempty run of whitespace separates in the same way.
  lemma WordsSplitAtGap(a: string, gap: string, b: string)
    requires gap != "" && AllSpace(gap)
    ensures Words(a + gap + b) == Words(a) + Words(b)
  {
    assert a + gap + b == a + [gap[0]] + (gap[1..] + b);
    WordsSplitAtSpace(a, gap[0], gap[1..] + b);
    WordsAfterSpace(gap[1..], b);
  }

  lemma {:induction false} WordsAfterSpace(gap: string, b: string)
    requires AllSpace(gap)
    ensures Words(gap + b) == Words(b)
  {
    if gap == "" {
      assert gap + b == b;
    } else {
      assert (gap + b)[1..] == gap[1..] + b;
      WordsAfterSpace(gap[1..], b);
    }
  }

  lemma {:induction false} WordsOfStripLeft(s: string)
    ensures Words(StripLeft(s)) == Words(s)
  {
    if s != "" && IsSpace(s[0]) {
      WordsOfStripLeft(s[1..]);
    }
  }

  lemma {:induction false} WordsOfStripRight(s: string)
    ensures Words(StripRight(s)) == Words(s)
  {
    if s != "" && IsSpace(s[|s| - 1]) {
      var init, sp := s[..|s| - 1], s[|s| - 1];
      WordsOfStripRight(init);
      hide StripRight;
      WordsSplitAtSpace(init, sp, "");
      assert init + [sp] + "" == s;
    }
  }

  lemma WordsOfStrip(s: string)
    ensures Words(Strip(s)) == Words(s)
  {
    WordsOfStripLeft(s);
    WordsOfStripRight(StripLeft(s));
  }

  lemma {:induction false} WordsOfJoin(ws: seq<string>)
    requires forall i :: 0 <= i < |ws| ==> IsWord(ws[i])
    ensures Words(JoinWords(ws)) == ws
  {
    if |ws| == 0 {
    } else {
      TokenLengthPrefix(ws[0], "");
      assert ws[0] + "" == ws[0];
      assert ws[0][..|ws[0]|] == ws[0] && ws[0][|ws[0]|..] == "";
      assert Words(ws[0]) == [ws[0]];
      if |ws| == 1 {
      } else {
        WordsOfJoin(ws[1..]);
        WordsSplitAtSpace(ws[0], ' ', JoinWords(ws[1..]));
        assert ws[0] + [' '] + JoinWords(ws[1..]) == JoinWords(ws);
        assert ws == [ws[0]] + ws[1..];
      }
    }
  }

  lemma StripOfTrimmed(s: string)
    requires IsParagraph(s)
    ensures Strip(s) == s
  {
  }

  // Joined words start and end with a non-space character, so stripping the join changes nothing.
  lemma {:induction false} JoinIsTrimmed(ws: seq<string>)
    requires |ws| > 0 && forall i :: 0 <= i < |ws| ==> IsWord(ws[i])
    ensures IsParagraph(JoinWords(ws))
  {
    if |ws| > 1 {
      var rest := JoinWords(ws[1..]);
      JoinIsTrimmed(ws[1..]);
      TrimmedAppend(ws[0], " ", rest);
    }
  }

  lemma TrimmedAppend(a: string, middle: string, b: string)
    requires IsParagraph(a) && IsParagraph(b)
    ensures IsParagraph(a + middle + b)
  {
    var s := a + middle + b;
    assert s[0] == a[0];
    assert s[|s| - 1] == b[|b| - 1];
  }

  // ---------- re.sub(r"\n{3,}", "\n\n", s) ----------

  function NewlineRun(s: string): (n: nat)
    ensures n <= |s|
    ensures forall i :: 0 <= i < n ==> s[i] == '\n'
    ensures n < |s| ==> s[n] != '\n'
  {
    if s == "" || s[0] != '\n' then 0 else 1 + NewlineRun(s[1..])
  }

  function CollapseNewlines(s: string): string
    decreases |s|
  {
    if s == "" then ""
    else
      var n := NewlineRun(s);
      if n >= 3 then "\n\n" + CollapseNewlines(s[n..])
      else if n > 0 then s[..n] + CollapseNewlines(s[n..])
      else [s[0]] + CollapseNewlines(s[1..])
  }

  // Two gaps separate the same words alike.
  lemma SwapGap(prefix: string, gap0: string, gap1: string, rest0: string, rest1: string)
    requires gap0 != "" && gap1 != "" && AllSpace(gap0) && AllSpace(gap1)
    requires Words(rest0) == Words(rest1)
    ensures Words(prefix + (gap0 + rest0)) == Words(prefix + (gap1 + rest1))
  {
    hide AllSpace, Words;
    Assoc(prefix, gap0, rest0);
    Assoc(prefix, gap1, rest1);
    WordsSplitAtGap(prefix, gap0, rest0);
    WordsSplitAtGap(prefix, gap1, rest1);
  }

  // Collapsing newlines behind any prefix leaves the words alone.  The prefix is what makes the
  // induction go through, since a word may straddle the point the recursion has reached.
  lemma {:induction false} WordsOfCollapse(prefix: string, s: string)
    ensures Words(prefix + CollapseNewlines(s)) == Words(prefix + s)
    decreases |s|
  {
    hide Words, AllSpace, IsSpace, CollapseNewlines;
    CollapseStep(s);
    if s != "" {
      var n := NewlineRun(s);
      hide NewlineRun;
      if n > 0 {
        var run, rest := s[..n], s[n..];
        WordsOfCollapse("", rest);
        EmptyPrefix(rest);
        EmptyPrefix(CollapseNewlines(rest));
        GapsAreSpace(s, n);
        SwapGap(prefix, Gap(run), run, CollapseNewlines(rest), rest);
      } else {
        var rest := s[1..];
        WordsOfCollapse(prefix + [s[0]], rest);
        Assoc(prefix, [s[0]], CollapseNewlines(rest));
        Assoc(prefix, [s[0]], rest);
      }
    }
  }

  // What becomes of a run of newlines.
  function Gap(run: string): string {
    if |run| >= 3 then "\n\n" else run
  }

  lemma CollapseStep(s: string)
    ensures s == "" ==> CollapseNewlines(s) == ""
    ensures var n := NewlineRun(s);
      s != "" ==>
        && s == (if n > 0 then s[..n] + s[n..] else [s[0]] + s[1..])
        && CollapseNewlines(s)
             == if n > 0 then Gap(s[..n]) + CollapseNewlines(s[n..]) else [s[0]] + CollapseNewlines(s[1..])
  {
  }

  lemma GapsAreSpace(s: string, n: nat)
    requires 0 < n <= |s| && forall i :: 0 <= i < n ==> s[i] == '\n'
    ensures s[..n] != "" && AllSpace(s[..n]) && Gap(s[..n]) != "" && AllSpace(Gap(s[..n]))
  {
    NewlinesAreSpace(s[..n]);
    NewlinesAreSpace(Gap(s[..n]));
  }

  lemma EmptyPrefix(s: string)
    ensures "" + s == s
  {
  }

  lemma NewlinesAreSpace(s: string)
    requires forall i :: 0 <= i < |s| ==> s[i] == '\n'
    ensures AllSpace(s)
  {
  }

  // ---------- s.split("\n\n") and the paragraph list ----------

  // Index of the first "\n\n" at or after i, or |s| when there is none.
  function BlankLine(s: string, i: nat): (k: nat)
    requires i <= |s|
    ensures i <= k <= |s|
    ensures k < |s| ==> k + 1 < |s| && s[k] == '\n' && s[k + 1] == '\n'
    decreases |s| - i
  {
    if i + 1 >= |s| then |s|
    else if s[i] == '\n' && s[i + 1] == '\n' then i
    else BlankLine(s, i + 1)
  }

  function SplitBlankLines(s: string): seq<string>
    decreases |s|
  {
    var k := BlankLine(s, 0);
    if k == |s| then [s] else [s[..k]] + SplitBlankLines(s[k + 2..])
  }

  // [p.strip() for p in pieces if p.strip()]
  function StripAll(pieces: seq<string>): (ps: seq<string>)
    ensures forall i :: 0 <= i < |ps| ==> IsParagraph(ps[i])
  {
    if pieces == [] then []
    else
      var p, rest := Strip(pieces[0]), StripAll(pieces[1..]);
      if p == "" then rest else
      assert IsParagraph(p);
      [p] + rest
  }

  function Paragraphs(text: string): (ps: seq<string>)
    ensures forall i :: 0 <= i < |ps| ==> IsParagraph(ps[i])
  {
    StripAll(SplitBlankLines(CollapseNewlines(Strip(text))))
  }

  function WordsOfAll(ps: seq<string>): seq<string> {
    if ps == [] then [] else Words(ps[0]) + WordsOfAll(ps[1..])
  }

  lemma {:induction false} WordsOfAllAppend(ps: seq<string>, qs: seq<string>)
    ensures WordsOfAll(ps + qs) == WordsOfAll(ps) + WordsOfAll(qs)
  {
    if ps == [] {
      assert ps + qs == qs;
    } else {
      assert (ps + qs)[1..] == ps[1..] + qs;
      WordsOfAllAppend(ps[1..], qs);
    }
  }

  lemma {:induction false} WordsOfSplit(s: string)
    ensures WordsOfAll(SplitBlankLines(s)) == Words(s)
    decreases |s|
  {
    hide Words, AllSpace, IsSpace, BlankLine;
    var k := BlankLine(s, 0);
    if k == |s| {
      assert SplitBlankLines(s)[1..] == [];
    } else {
      var head, gap, rest := s[..k], s[k..k + 2], s[k + 2..];
      WordsOfSplit(rest);
      assert s == head + gap + rest;
      NewlinesAreSpace(gap);
      WordsSplitAtGap(head, gap, rest);
      assert ([head] + SplitBlankLines(rest))[1..] == SplitBlankLines(rest);
    }
  }

  lemma {:induction false} WordsOfStripAll(pieces: seq<string>)
    ensures WordsOfAll(StripAll(pieces)) == WordsOfAll(pieces)
  {
    if pieces != [] {
      WordsOfStripAll(pieces[1..]);
      WordsOfStrip(pieces[0]);
      var p, rest := Strip(pieces[0]), StripAll(pieces[1..]);
      assert ([p] + rest)[1..] == rest;
    }
  }

  // Cutting a text into paragraphs neither loses, adds nor reorders a word.
  lemma ParagraphsKeepWords(text: string)
    ensures WordsOfAll(Paragraphs(text)) == Words(text)
  {
    var clean := CollapseNewlines(Strip(text));
    WordsOfStripAll(SplitBlankLines(clean));
    WordsOfSplit(clean);
    WordsOfCollapse("", Strip(text));
    EmptyPrefix(clean);
    EmptyPrefix(Strip(text));
    WordsOfStrip(text);
  }

  // The paragraph join used by the chunker's buffer.
  function JoinParagraphs(ps: seq<string>): string {
    if |ps| == 0 then ""
    else if |ps| == 1 then ps[0]
    else JoinParagraphs(ps[..|ps| - 1]) + "\n\n" + ps[|ps| - 1]
  }

  lemma {:induction false} JoinedParagraphs(ps: seq<string>)
    requires |ps| > 0 && forall i :: 0 <= i < |ps| ==> IsParagraph(ps[i])
    ensures IsParagraph(JoinParagraphs(ps)) && Strip(JoinParagraphs(ps)) == JoinParagraphs(ps)
    ensures Words(JoinParagraphs(ps)) == WordsOfAll(ps)
  {
    hide Words, IsParagraph, Strip;
    var last := ps[|ps| - 1];
    var init := ps[..|ps| - 1];
    var single := [last];
    assert ps == init + single;
    WordsOfAllAppend(init, single);
    assert single[1..] == [];
    if |ps| > 1 {
      JoinedParagraphs(init);
      WordsSplitAtGap(JoinParagraphs(init), "\n\n", last);
      TrimmedAppend(JoinParagraphs(init), "\n\n", last);
    } else {
      assert init == [];
    }
    StripOfTrimmed(JoinParagraphs(ps));
  }

  // ---------- The paragraphs of joined paragraphs ----------

  // No two newlines in a row.
  ghost predicate IsUnbroken(p: string) {
    forall i, j :: 0 <= i < j < |p| && j == i + 1 ==> !(p[i] == '\n' && p[j] == '\n')
  }

  // Nothing collapses in an unbroken text that stands before one in which nothing does.
  lemma {:induction false} NothingCollapses(p: string, t: string)
    requires IsUnbroken(p) && (p != "" ==> !IsSpace(p[|p| - 1])) && CollapseNewlines(t) == t
    ensures CollapseNewlines(p + t) == p + t
    decreases |p|
  {
    hide CollapseNewlines, IsUnbroken, IsSpace;
    var s := p + t;
    if p == "" {
      assert s == t;
    } else {
      UnbrokenTail(p);
      NothingCollapses(p[1..], t);
      assert s[1..] == p[1..] + t && s == [s[0]] + s[1..];
      CollapseOne(s);
    }
  }

  lemma UnbrokenTail(p: string)
    requires IsUnbroken(p) && p != "" && !IsSpace(p[|p| - 1])
    ensures IsUnbroken(p[1..]) && (|p| > 1 ==> !IsSpace(p[1..][|p| - 2]))
    ensures p[0] == '\n' ==> |p| > 1 && p[1] != '\n'
  {
    forall i, j | 0 <= i < j < |p[1..]| && j == i + 1
      ensures !(p[1..][i] == '\n' && p[1..][j] == '\n')
    {
      var a, b := i + 1, j + 1;
      assert !(p[a] == '\n' && p[b] == '\n');
    }
    if p[0] == '\n' {
      var a, b := 0, 1;
      assert !(p[a] == '\n' && p[b] == '\n');
    }
  }

  // A character that is not the first of two newlines is kept.
  lemma CollapseOne(s: string)
    requires s != "" && (s[0] == '\n' ==> |s| > 1 && s[1] != '\n')
    ensures CollapseNewlines(s) == [s[0]] + CollapseNewlines(s[1..])
  {
    CollapseStep(s);
    assert NewlineRun(s) == if s[0] == '\n' then 1 else 0;
    assert s[..1] == [s[0]];
  }

  lemma BlankLineStays(rest: string)
    requires rest != "" && !IsSpace(rest[0]) && CollapseNewlines(rest) == rest
    ensures CollapseNewlines("\n\n" + rest) == "\n\n" + rest
  {
    hide CollapseNewlines;
    var s := "\n\n" + rest;
    TwoNewlines(s, rest);
    CollapseStep(s);
    assert s[..2] == "\n\n" && s[2..] == rest;
  }

  lemma TwoNewlines(s: string, rest: string)
    requires s == "\n\n" + rest && rest != "" && !IsSpace(rest[0])
    ensures NewlineRun(s) == 2
  {
    var n := NewlineRun(s);
    assert |s| > 2 && s[0] == '\n' && s[1] == '\n' && s[2] == rest[0];
  }

  lemma {:induction false} JoinDoesNotCollapse(ps: seq<string>)
    requires |ps| > 0 && forall i :: 0 <= i < |ps| ==> IsParagraph(ps[i]) && IsUnbroken(ps[i])
    ensures CollapseNewlines(JoinParagraphs(ps)) == JoinParagraphs(ps)
  {
    hide CollapseNewlines, IsUnbroken;
    if |ps| == 1 {
      NothingCollapsesInNothing();
      NothingCollapses(ps[0], "");
      assert ps[0] + "" == ps[0];
    } else {
      JoinedParagraphs(ps[1..]);
      JoinDoesNotCollapse(ps[1..]);
      JoinFromFront(ps);
      BlankLineStays(JoinParagraphs(ps[1..]));
      NothingCollapses(ps[0], "\n\n" + JoinParagraphs(ps[1..]));
      Assoc(ps[0], "\n\n", JoinParagraphs(ps[1..]));
    }
  }

  lemma NothingCollapsesInNothing()
    ensures CollapseNewlines("") == ""
  {
  }

  // The join, seen from its first paragraph.
  lemma {:induction false} JoinFromFront(ps: seq<string>)
    requires |ps| >= 2
    ensures JoinParagraphs(ps) == ps[0] + "\n\n" + JoinParagraphs(ps[1..])
  {
    var init, last := ps[..|ps| - 1], ps[|ps| - 1];
    if |ps| > 2 {
      JoinFromFront(init);
      assert init[1..] == ps[1..][..|ps| - 2];
      assert JoinParagraphs(ps[1..]) == JoinParagraphs(init[1..]) + "\n\n" + last;
      Assoc(ps[0] + "\n\n", JoinParagraphs(init[1..]) + "\n\n", last);
      Assoc(ps[0] + "\n\n", JoinParagraphs(init[1..]), "\n\n");
    } else {
      assert init == [ps[0]] && ps[1..] == [last];
    }
  }

  lemma SplitOnce(p: string, rest: string)
    requires IsParagraph(p) && IsUnbroken(p)
    ensures SplitBlankLines(p + "\n\n" + rest) == [p] + SplitBlankLines(rest)
  {
    var s := p + "\n\n" + rest;
    hide IsUnbroken;
    FirstBlankLine(s, p, 0);
    assert s[..|p|] == p && s[|p| + 2..] == rest;
  }

  lemma {:induction false} FirstBlankLine(s: string, p: string, i: nat)
    requires IsParagraph(p) && IsUnbroken(p) && i <= |p| && p + "\n\n" <= s
    ensures BlankLine(s, i) == |p|
    decreases |p| - i
  {
    assert forall k :: 0 <= k < |p| ==> s[k] == p[k];
    assert s[|p|] == '\n' && s[|p| + 1] == '\n';
    if i < |p| {
      var j := i + 1;
      assert j < |p| ==> !(p[i] == '\n' && p[j] == '\n');
      FirstBlankLine(s, p, i + 1);
    }
  }

  lemma {:induction false} NoBlankLine(s: string, i: nat)
    requires IsUnbroken(s) && i <= |s|
    ensures BlankLine(s, i) == |s|
    decreases |s| - i
  {
    if i + 1 < |s| {
      NoBlankLine(s, i + 1);
    }
  }

  lemma {:induction false} SplitOfJoin(ps: seq<string>)
    requires |ps| > 0 && forall i :: 0 <= i < |ps| ==> IsParagraph(ps[i]) && IsUnbroken(ps[i])
    ensures SplitBlankLines(JoinParagraphs(ps)) == ps
  {
    hide SplitBlankLines, IsUnbroken, IsParagraph;
    if |ps| == 1 {
      NothingSplits(ps[0]);
    } else {
      SplitOfJoin(ps[1..]);
      JoinFromFront(ps);
      SplitOnce(ps[0], JoinParagraphs(ps[1..]));
    }
  }

  lemma NothingSplits(p: string)
    requires IsUnbroken(p)
    ensures SplitBlankLines(p) == [p]
  {
    NoBlankLine(p, 0);
  }

  lemma {:induction false} StripAllOfTrimmed(ps: seq<string>)
    requires forall i :: 0 <= i < |ps| ==> IsParagraph(ps[i])
    ensures StripAll(ps) == ps
  {
    if ps != [] {
      StripOfTrimmed(ps[0]);
      StripAllOfTrimmed(ps[1..]);
    }
  }

  // Paragraphs without blank lines, joined by blank lines, are the paragraphs of the result.
  lemma ParagraphsOfJoin(ps: seq<string>)
    requires forall i :: 0 <= i < |ps| ==> IsParagraph(ps[i]) && IsUnbroken(ps[i])
    ensures Paragraphs(JoinParagraphs(ps)) == ps
  {
    if ps == [] {
      assert SplitBlankLines("") == [""];
    } else {
      JoinedParagraphs(ps);
      SplitOfJoin(ps);
      JoinDoesNotCollapse(ps);
      StripAllOfTrimmed(ps);
    }
  }

  lemma {:induction false} UnbrokenUpTo(s: string, i: nat)
    requires i <= |s|
    ensures forall a, b :: i <= a < b < |s| && b == a + 1 && a < BlankLine(s, i) && b < BlankLine(s, i) ==>
      !(s[a] == '\n' && s[b] == '\n')
    decreases |s| - i
  {
    if i + 1 < |s| && !(s[i] == '\n' && s[i + 1] == '\n') {
      UnbrokenUpTo(s, i + 1);
    }
  }

  lemma {:induction false} PiecesAreUnbroken(s: string)
    ensures forall piece :: piece in SplitBlankLines(s) ==> IsUnbroken(piece)
    decreases |s|
  {
    var k := BlankLine(s, 0);
    UnbrokenUpTo(s, 0);
    if k < |s| {
      PiecesAreUnbroken(s[k + 2..]);
    }
  }

  lemma PartIsUnbroken(s: string, i: nat, j: nat)
    requires IsUnbroken(s) && i <= j <= |s|
    ensures IsUnbroken(s[i..j])
  {
    var part := s[i..j];
    forall a, b | 0 <= a < b < |part| && b == a + 1
      ensures !(part[a] == '\n' && part[b] == '\n')
    {
      var c, d := i + a, i + b;
      assert !(s[c] == '\n' && s[d] == '\n');
    }
  }

  lemma {:induction false} StripLeftUnbroken(s: string)
    requires IsUnbroken(s)
    ensures IsUnbroken(StripLeft(s))
  {
    hide IsUnbroken, IsSpace;
    if s != "" && IsSpace(s[0]) {
      PartIsUnbroken(s, 1, |s|);
      assert s[1..|s|] == s[1..];
      StripLeftUnbroken(s[1..]);
    }
  }

  lemma {:induction false} StripAllUnbroken(pieces: seq<string>)
    requires forall piece :: piece in pieces ==> IsUnbroken(piece)
    ensures forall p :: p in StripAll(pieces) ==> IsUnbroken(p)
  {
    hide IsUnbroken;
    if pieces != [] {
      StripLeftUnbroken(pieces[0]);
      var left := StripLeft(pieces[0]);
      var p := StripRight(left);
      PartIsUnbroken(left, 0, |p|);
      assert left[0..|p|] == p;
      StripAllUnbroken(pieces[1..]);
    }
  }

  // The paragraphs of a text have no blank line inside, and splitting them again changes nothing.
  lemma ParagraphsAreFinal(text: string)
    ensures forall p :: p in Paragraphs(text) ==> IsUnbroken(p)
    ensures Paragraphs(JoinParagraphs(Paragraphs(text))) == Paragraphs(text)
  {
    hide IsUnbroken, StripAll, SplitBlankLines, CollapseNewlines, Strip;
    PiecesAreUnbroken(CollapseNewlines(Strip(text)));
    StripAllUnbroken(SplitBlankLines(CollapseNewlines(Strip(text))));
    ParagraphsOfJoin(Paragraphs(text));
  }

  // A stripped text on one line is its own only paragraph.
  lemma SingleParagraph(t: string)
    requires IsParagraph(t) && '\n' !in t
    ensures Paragraphs(t) == [t]
  {
    ParagraphsOfJoin([t]);
  }
}
