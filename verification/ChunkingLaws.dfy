// How the chunks of a text follow one another, and that nothing else is free: tiling the paragraphs and following
// one another like this makes a list of chunks the chunker's output.
module ChunkingLaws {
  import opened Common
  import opened Text
  import opened Chunking

  predicate IsBuffered(before: Option<Chunk>) {
    before.Some? && before.value.placement.Buffered?
  }

  function NextIndex(before: Option<Chunk>): nat {
    if before.None? then 0 else before.value.index + 1
  }

  // A buffered chunk takes the next index and never follows another.  The first window of a paragraph takes the
  // next index behind a buffered chunk, even if the paragraph is short; elsewhere its paragraph does not fit, and it
  // leaves one index out.  Later windows take the next index, size - overlap words further on, or one word.
  ghost predicate MayFollow(ps: seq<string>, size: int, overlap: int, before: Option<Chunk>, index: nat, p: nat,
      placement: Placement)
  {
    && p < |ps|
    && match placement
       case Buffered => !IsBuffered(before) && index == NextIndex(before)
       case Window(offset) =>
         if offset > 0 then
           && before.Some? && before.value.placement.Window? && before.value.paragraphStart == p
           && offset - before.value.placement.offset == (if size > overlap then size - overlap else 1)
           && index == NextIndex(before)
         else if IsBuffered(before) then index == NextIndex(before)
         else |ps[p]| > size && index == NextIndex(before) + 1
  }

  ghost predicate Follows(ps: seq<string>, size: int, overlap: int, before: Option<Chunk>, c: Chunk) {
    MayFollow(ps, size, overlap, before, c.index, c.paragraphStart, c.placement)
  }

  // The chunk before chunk k; `before` stands in front of the first one.
  function Before(before: Option<Chunk>, chunks: seq<Chunk>, k: nat): Option<Chunk>
    requires k <= |chunks|
  {
    if k == 0 then before else Some(chunks[k - 1])
  }

  ghost predicate Linked(ps: seq<string>, size: int, overlap: int, before: Option<Chunk>, chunks: seq<Chunk>) {
    forall k :: 0 <= k < |chunks| ==> Follows(ps, size, overlap, Before(before, chunks, k), chunks[k])
  }

  // ---------- The chunker's output is linked ----------

  lemma LinkedConcat(ps: seq<string>, size: int, overlap: int, before: Option<Chunk>, a: seq<Chunk>, b: seq<Chunk>)
    requires Linked(ps, size, overlap, before, a)
    requires Linked(ps, size, overlap, Before(before, a, |a|), b)
    ensures Linked(ps, size, overlap, before, a + b)
    ensures Before(before, a + b, |a + b|) == Before(Before(before, a, |a|), b, |b|)
  {
    hide Follows;
    var c := a + b;
    forall k | 0 <= k < |c|
      ensures Follows(ps, size, overlap, Before(before, c, k), c[k])
    {
      if k < |a| {
        assert Before(before, c, k) == Before(before, a, k);
      } else {
        assert c[k] == b[k - |a|];
        assert Before(before, c, k) == Before(Before(before, a, |a|), b, k - |a|);
      }
    }
  }

  lemma HeadLinked(ps: seq<string>, b: nat, e: nat, size: int, overlap: int, before: Option<Chunk>)
    requires b <= e <= |ps| && forall k :: 0 <= k < |ps| ==> IsParagraph(ps[k])
    requires !IsBuffered(before)
    ensures var head := Finalized(JoinParagraphs(ps[b..e]), b, NextIndex(before));
      && Linked(ps, size, overlap, before, head)
      && (head == [] <==> b == e)
      && var last := Before(before, head, |head|);
         (IsBuffered(last) <==> b < e) && NextIndex(last) == NextIndex(before) + if b < e then 1 else 0
  {
    FinalizedRun(ps, b, e, NextIndex(before));
    HeadIndex(JoinParagraphs(ps[b..e]), b, NextIndex(before));
    hide IsParagraph, JoinParagraphs, Words, WordsOfAll, Finalized;
  }

  lemma HeadIndex(buffer: string, start: nat, index: nat)
    ensures var head := Finalized(buffer, start, index);
      |head| <= 1 && (head != [] ==> head[0].index == index)
  {
  }

  lemma LaterWindow(ps: seq<string>, size: int, overlap: int, c: Chunk)
    requires c.placement.Window? && c.paragraphStart < |ps|
    ensures MayFollow(ps, size, overlap, Some(c), c.index + 1, c.paragraphStart,
                      Window(c.placement.offset + Step(size, overlap)))
  {
  }

  lemma OneLinked(ps: seq<string>, size: int, overlap: int, before: Option<Chunk>, c: Chunk)
    requires Follows(ps, size, overlap, before, c)
    ensures Linked(ps, size, overlap, before, [c])
  {
  }

  // The windows from `start` on: the first may follow its predecessor, the others follow each other.
  lemma {:induction false} WindowsLinked(ps: seq<string>, p: nat, start: nat, size: int, overlap: int, index: nat,
                                         before: Option<Chunk>)
    requires p < |ps| && size >= 1 && start < |Words(ps[p])|
    requires MayFollow(ps, size, overlap, before, index, p, Window(start))
    ensures var windows := Windows(Words(ps[p]), start, size, Step(size, overlap), p, index);
      && Linked(ps, size, overlap, before, windows)
      && var last := Before(before, windows, |windows|);
         last.Some? && last.value.placement.Window? && NextIndex(last) == index + |windows|
    decreases |Words(ps[p])| - start
  {
    hide Words, Piece, Windows, JoinWords, MayFollow, Linked, Step;
    var ws, step := Words(ps[p]), Step(size, overlap);
    PieceText(ws, start, size, p, index);
    WindowsStep(ws, start, size, step, p, index);
    var c := Piece(ws, start, size, p, index)[0];
    var rest := Windows(ws, start + step, size, step, p, index + 1);
    assert Piece(ws, start, size, p, index) == [c];
    OneLinked(ps, size, overlap, before, c);
    if start + step < |ws| {
      LaterWindow(ps, size, overlap, c);
      WindowsLinked(ps, p, start + step, size, overlap, index + 1, Some(c));
      LinkedConcat(ps, size, overlap, before, [c], rest);
    } else {
      NoWindows(ws, start + step, size, step, p, index + 1);
      assert [c] + [] == [c];
    }
  }

  lemma {:induction false} PackLinked(ps: seq<string>, b: nat, index: nat, size: int, overlap: int,
                                      before: Option<Chunk>)
    requires b <= |ps| && size >= 1 && forall k :: 0 <= k < |ps| ==> IsParagraph(ps[k])
    requires !IsBuffered(before) && index == NextIndex(before)
    ensures Linked(ps, size, overlap, before, Pack(ps, b, index, size, overlap))
    decreases |ps| - b
  {
    hide Words, Finalized, JoinParagraphs, Windows, Extent, IsParagraph, Linked, Step;
    var e := Extent(ps, b, b, size);
    var head := Finalized(JoinParagraphs(ps[b..e]), b, index);
    HeadLinked(ps, b, e, size, overlap, before);
    PackAt(ps, b, e, index, size, overlap);
    if e < |ps| {
      var middle := Before(before, head, |head|);
      var windows := Windows(Words(ps[e]), 0, size, Step(size, overlap), e, index + 1);
      ParagraphHasWords(ps[e]);
      FirstWindow(ps, b, e, size, overlap, index, middle);
      WindowsLinked(ps, e, 0, size, overlap, index + 1, middle);
      var last := Before(middle, windows, |windows|);
      PackLinked(ps, e + 1, index + 1 + |windows|, size, overlap, last);
      LinkedConcat(ps, size, overlap, before, head, windows);
      LinkedConcat(ps, size, overlap, before, head + windows, Pack(ps, e + 1, index + 1 + |windows|, size, overlap));
    }
  }

  // The paragraph at which the buffer overflows starts a row of windows.
  lemma FirstWindow(ps: seq<string>, b: nat, e: nat, size: int, overlap: int, index: nat, before: Option<Chunk>)
    requires b <= e < |ps| && |JoinParagraphs(ps[b..e + 1])| > size
    requires IsBuffered(before) <==> b < e
    requires NextIndex(before) == index + if b < e then 1 else 0
    ensures MayFollow(ps, size, overlap, before, index + 1, e, Window(0))
  {
    if b == e {
      assert ps[b..e + 1] == [ps[e]];
    }
  }

  // ---------- Nothing else is linked and tiles the text ----------

  lemma {:induction false} JoinGrows(ps: seq<string>, b: nat, e: nat, f: nat)
    requires b < e <= f <= |ps|
    ensures |JoinParagraphs(ps[b..e])| <= |JoinParagraphs(ps[b..f])|
    decreases f
  {
    if e < f {
      JoinGrows(ps, b, e, f - 1);
      assert ps[b..f][..f - b - 1] == ps[b..f - 1];
    }
  }

  lemma FirstIsShorter(ps: seq<string>, b: nat, e: nat)
    requires b < e <= |ps|
    ensures |ps[b]| <= |JoinParagraphs(ps[b..e])|
  {
    JoinGrows(ps, b, b + 1, e);
    assert ps[b..b + 1] == [ps[b]];
  }

  // Two runs from one paragraph that fit and cannot be extended are the same.
  lemma LongestRun(ps: seq<string>, b: nat, e: nat, f: nat, size: int)
    requires b < e <= |ps| && b < f <= |ps|
    requires |JoinParagraphs(ps[b..e])| <= size && (e < |ps| ==> |JoinParagraphs(ps[b..e + 1])| > size)
    requires |JoinParagraphs(ps[b..f])| <= size && (f < |ps| ==> |JoinParagraphs(ps[b..f + 1])| > size)
    ensures e == f
  {
    if e < f {
      JoinGrows(ps, b, e + 1, f);
    } else if f < e {
      JoinGrows(ps, b, f + 1, e);
    }
  }

  // Where a chunk starts and what stands before it decide all of it, and where the next one starts.
  lemma OnlyOneChunk(ps: seq<string>, size: int, overlap: int, step: nat, before: Option<Chunk>, c: Chunk, d: Chunk,
      next: Place, other: Place)
    requires size >= 1 && StartOf(c) == StartOf(d)
    requires Spans(ps, size, step, c, next) && Follows(ps, size, overlap, before, c)
    requires Spans(ps, size, step, d, other) && Follows(ps, size, overlap, before, d)
    ensures c == d && next == other
  {
    hide JoinParagraphs, Words, JoinWords, WordsOfAll;
    if c.placement.Buffered? {
      FirstIsShorter(ps, c.paragraphStart, next.paragraph);
    }
    if d.placement.Buffered? {
      FirstIsShorter(ps, d.paragraphStart, other.paragraph);
    }
    if c.placement.Buffered? && d.placement.Buffered? {
      LongestRun(ps, c.paragraphStart, next.paragraph, other.paragraph, size);
    }
  }

  lemma LinkedTail(ps: seq<string>, size: int, overlap: int, before: Option<Chunk>, chunks: seq<Chunk>)
    requires Linked(ps, size, overlap, before, chunks) && chunks != []
    ensures Follows(ps, size, overlap, before, chunks[0])
    ensures Linked(ps, size, overlap, Some(chunks[0]), chunks[1..])
  {
    hide Follows;
    var rest := chunks[1..];
    forall k | 0 <= k < |rest|
      ensures Follows(ps, size, overlap, Before(Some(chunks[0]), rest, k), rest[k])
    {
      assert rest[k] == chunks[k + 1] && Before(Some(chunks[0]), rest, k) == Before(before, chunks, k + 1);
    }
  }

  lemma TiledTail(ps: seq<string>, size: int, step: nat, chunks: seq<Chunk>, from: Place, to: Place)
    requires size >= 1 && Tiled(ps, size, step, chunks, from, to) && chunks != []
    ensures Spans(ps, size, step, chunks[0], NextStart(chunks, 0, to))
    ensures Tiled(ps, size, step, chunks[1..], NextStart(chunks, 0, to), to)
  {
    hide Spans;
    var rest := chunks[1..];
    forall k | 0 <= k < |rest|
      ensures Spans(ps, size, step, rest[k], NextStart(rest, k, to))
    {
      assert rest[k] == chunks[k + 1] && NextStart(rest, k, to) == NextStart(chunks, k + 1, to);
    }
  }

  lemma {:induction false} OnlyOneTiling(ps: seq<string>, size: int, overlap: int, step: nat, before: Option<Chunk>,
                                         from: Place, xs: seq<Chunk>, ys: seq<Chunk>)
    requires size >= 1 && Linked(ps, size, overlap, before, xs) && Linked(ps, size, overlap, before, ys)
    requires Tiled(ps, size, step, xs, from, Place(|ps|, 0)) && Tiled(ps, size, step, ys, from, Place(|ps|, 0))
    ensures xs == ys
    decreases |xs|
  {
    hide Spans, Linked, Follows, Tiled, StartOf;
    var end := Place(|ps|, 0);
    Uncons(ps, size, overlap, step, before, from, xs);
    Uncons(ps, size, overlap, step, before, from, ys);
    if xs != [] && ys != [] {
      OnlyOneChunk(ps, size, overlap, step, before, xs[0], ys[0], NextStart(xs, 0, end), NextStart(ys, 0, end));
      OnlyOneTiling(ps, size, overlap, step, Some(xs[0]), NextStart(xs, 0, end), xs[1..], ys[1..]);
      assert xs == [xs[0]] + xs[1..] && ys == [ys[0]] + ys[1..];
    }
  }

  // The first chunk of a list and the rest of it.
  lemma Uncons(ps: seq<string>, size: int, overlap: int, step: nat, before: Option<Chunk>, from: Place,
      chunks: seq<Chunk>)
    requires size >= 1 && Linked(ps, size, overlap, before, chunks)
    requires Tiled(ps, size, step, chunks, from, Place(|ps|, 0))
    ensures chunks == [] <==> from.paragraph >= |ps|
    ensures var end := Place(|ps|, 0);
      chunks != [] ==>
        && StartOf(chunks[0]) == from && Spans(ps, size, step, chunks[0], NextStart(chunks, 0, end))
        && Follows(ps, size, overlap, before, chunks[0])
        && Tiled(ps, size, step, chunks[1..], NextStart(chunks, 0, end), end)
        && Linked(ps, size, overlap, Some(chunks[0]), chunks[1..])
  {
    if chunks != [] {
      TiledTail(ps, size, step, chunks, from, Place(|ps|, 0));
      LinkedTail(ps, size, overlap, before, chunks);
      NotAtTheEnd(ps, size, step, chunks[0], NextStart(chunks, 0, Place(|ps|, 0)));
      hide Spans, Follows, Linked;
    }
  }

  lemma NotAtTheEnd(ps: seq<string>, size: int, step: nat, c: Chunk, next: Place)
    requires size >= 1 && Spans(ps, size, step, c, next)
    ensures StartOf(c).paragraph < |ps|
  {
  }

  // For every size from one up and every overlap: a list of chunks is the chunker's output exactly when it tiles the
  // paragraphs and each chunk follows the one before it.
  lemma ChunksAreTheOnlyTiling(text: string, size: int, overlap: int, chunks: seq<Chunk>)
    requires size >= 1
    ensures var ps := Paragraphs(text);
      chunks == ChunksOf(text, size, overlap) <==>
        && Tiled(ps, size, if size > overlap then size - overlap else 1, chunks, Place(0, 0), Place(|ps|, 0))
        && Linked(ps, size, overlap, None, chunks)
  {
    hide Tiled, Linked, Pack, Paragraphs, IsParagraph;
    ChunksTileTheText(text, size, overlap);
    PackLinked(Paragraphs(text), 0, 0, size, overlap, None);
    var ps, step := Paragraphs(text), Step(size, overlap);
    if Tiled(ps, size, step, chunks, Place(0, 0), Place(|ps|, 0)) && Linked(ps, size, overlap, None, chunks) {
      OnlyOneTiling(ps, size, overlap, step, None, Place(0, 0), chunks, ChunksOf(text, size, overlap));
    }
  }

  // Two windows in a row share the overlap: what the first holds beyond the step is where the second begins.
  lemma OverlapIsShared(text: string, size: int, overlap: int, k: nat)
    requires size > overlap >= 0 && k + 1 < |ChunksOf(text, size, overlap)|
    requires ChunksOf(text, size, overlap)[k + 1].placement.Window?
    requires ChunksOf(text, size, overlap)[k + 1].placement.offset > 0
    ensures var first, second := ChunksOf(text, size, overlap)[k].text, ChunksOf(text, size, overlap)[k + 1].text;
      |Words(first)| >= size - overlap && Words(first)[size - overlap..] <= Words(second)
  {
    hide ChunksOf, Paragraphs, Words, Tiled, Linked, Spans, Follows;
    var chunks, ps := ChunksOf(text, size, overlap), Paragraphs(text);
    var end := Place(|ps|, 0);
    ChunksAreTheOnlyTiling(text, size, overlap, chunks);
    PairAt(ps, size, overlap, chunks, k);
    WindowWords(ps, size, size - overlap, chunks[k + 1], NextStart(chunks, k + 1, end));
    PairOfWindows(ps, size, overlap, chunks[k], chunks[k + 1], NextStart(chunks, k, end));
  }

  lemma PairAt(ps: seq<string>, size: int, overlap: int, chunks: seq<Chunk>, k: nat)
    requires size > overlap && size >= 1 && k + 1 < |chunks| && Linked(ps, size, overlap, None, chunks)
    requires Tiled(ps, size, size - overlap, chunks, Place(0, 0), Place(|ps|, 0))
    ensures Spans(ps, size, size - overlap, chunks[k], NextStart(chunks, k, Place(|ps|, 0)))
    ensures Spans(ps, size, size - overlap, chunks[k + 1], NextStart(chunks, k + 1, Place(|ps|, 0)))
    ensures Follows(ps, size, overlap, Some(chunks[k]), chunks[k + 1])
  {
    hide Spans, Follows;
    assert Follows(ps, size, overlap, Before(None, chunks, k + 1), chunks[k + 1]);
  }

  lemma WindowWords(ps: seq<string>, size: int, step: nat, c: Chunk, next: Place)
    requires size >= 1 && Spans(ps, size, step, c, next) && c.placement.Window?
    ensures c.paragraphStart < |ps| && c.placement.offset < |Words(ps[c.paragraphStart])|
    ensures var ws, o := Words(ps[c.paragraphStart]), c.placement.offset;
      Words(c.text) == ws[o..Min(o + size, |ws|)]
  {
    hide Words, JoinWords, IsWord;
    var ws, o := Words(ps[c.paragraphStart]), c.placement.offset;
    WordsOfJoin(ws[o..Min(o + size, |ws|)]);
  }

  lemma PairOfWindows(ps: seq<string>, size: int, overlap: int, c: Chunk, d: Chunk, next: Place)
    requires size > overlap >= 0 && Spans(ps, size, size - overlap, c, next)
    requires Follows(ps, size, overlap, Some(c), d) && d.placement.Window? && d.placement.offset > 0
    requires d.placement.offset < |Words(ps[d.paragraphStart])|
    requires var ws, o := Words(ps[d.paragraphStart]), d.placement.offset;
      Words(d.text) == ws[o..Min(o + size, |ws|)]
    ensures |Words(c.text)| >= size - overlap && Words(c.text)[size - overlap..] <= Words(d.text)
  {
    hide Words, Spans;
    WindowWords(ps, size, size - overlap, c, next);
  }

  // Below size one a window reaches from its start to a bound that counts from the end of the paragraph, and there
  // are such windows only in front of word -size.
  lemma PieceBelowOne(ws: seq<string>, start: nat, size: int, p: nat, index: nat)
    requires size < 1 && start < |ws| && forall i :: 0 <= i < |ws| ==> IsWord(ws[i])
    ensures var piece, count := Piece(ws, start, size, p, index), |ws| + size;
      if start < -size && count > 0 then
        && |piece| == 1 && Words(piece[0].text) == ws[start..start + count] && piece[0].tokenCount == count
        && piece[0].index == index && piece[0].paragraphStart == p && piece[0].pageNumber == p + 1
        && piece[0].placement == Window(start)
      else piece == []
  {
    var slice := Slice(ws, start, start + size);
    hide IsWord, JoinWords, IsParagraph, Strip, Words;
    if slice == [] {
      NothingJoined();
    } else {
      JoinIsTrimmed(slice);
      StripOfTrimmed(JoinWords(slice));
      WordsOfJoin(slice);
    }
  }
}
