// The recursive chunker: greedy packing of paragraphs into a buffer, and overlapping word windows for
// the paragraph at which the buffer overflows.
module Chunking {
  import opened Common
  import opened Text

  // Metadata carries an "offset" exactly for word windows.
  datatype Placement = Buffered | Window(offset: nat)

  datatype Chunk = Chunk(
    index: nat,
    text: string,
    tokenCount: nat,
    pageNumber: nat,
    paragraphStart: nat,
    placement: Placement)

  function Step(size: int, overlap: int): (step: nat)
    ensures step >= 1
  {
    Max(size - overlap, 1)
  }

  // words[lo:hi] as Python slices it: a negative hi counts from the end, and bounds are clamped.
  function Slice<T>(ws: seq<T>, lo: nat, hi: int): seq<T> {
    var end := if hi < 0 then Max(|ws| + hi, 0) else Min(hi, |ws|);
    if lo >= end then [] else ws[lo..end]
  }

  // The body of finalize_buffer: the chunks it appends (one, or none for an empty buffer).
  function Finalized(buffer: string, start: nat, index: nat): seq<Chunk> {
    var text := Strip(buffer);
    if text == "" then []
    else [Chunk(index, text, Max(|Words(text)|, 1), start + 1, start, Buffered)]
  }

  // The chunk cut from one window of words, if the window holds any.
  function Piece(ws: seq<string>, start: nat, size: int, paragraph: nat, index: nat): seq<Chunk> {
    var pieceWords := Slice(ws, start, start + size);
    var text := Strip(JoinWords(pieceWords));
    if text == "" then []
    else [Chunk(index, text, Max(|pieceWords|, 1), paragraph + 1, paragraph, Window(start))]
  }

  // ---------- What the chunker computes, paragraph range by paragraph range ----------

  // The end of the longest run of paragraphs from b (known to reach i) whose join fits in size characters.
  function Extent(ps: seq<string>, b: nat, i: nat, size: int): (e: nat)
    requires b <= i <= |ps|
    ensures i <= e <= |ps|
    ensures e > i ==> |JoinParagraphs(ps[b..e])| <= size
    ensures e < |ps| ==> |JoinParagraphs(ps[b..e + 1])| > size
    decreases |ps| - i
  {
    if i < |ps| && |JoinParagraphs(ps[b..i + 1])| <= size then Extent(ps, b, i + 1, size) else i
  }

  function Windows(ws: seq<string>, start: nat, size: int, step: nat, paragraph: nat, index: nat): seq<Chunk>
    requires step >= 1
    decreases |ws| - start
  {
    if start >= |ws| then []
    else
      var piece := Piece(ws, start, size, paragraph, index);
      piece + Windows(ws, start + step, size, step, paragraph, index + |piece|)
  }

  // The chunks of paragraphs b and up: the longest run that fits becomes one chunk, and the paragraph
  // after it is cut into windows however short it is.
  function Pack(ps: seq<string>, b: nat, index: nat, size: int, overlap: int): seq<Chunk>
    requires b <= |ps|
    decreases |ps| - b
  {
    var e := Extent(ps, b, b, size);
    var head := Finalized(JoinParagraphs(ps[b..e]), b, index);
    if e == |ps| then head
    else
      var windows := Windows(Words(ps[e]), 0, size, Step(size, overlap), e, index + 1);
      head + windows + Pack(ps, e + 1, index + 1 + |windows|, size, overlap)
  }

  function ChunksOf(text: string, size: int, overlap: int): seq<Chunk> {
    Pack(Paragraphs(text), 0, 0, size, overlap)
  }

  // ---------- The chunker itself ----------

  lemma JoinExtend(ps: seq<string>, b: nat, i: nat)
    requires b <= i < |ps| && forall k :: 0 <= k < |ps| ==> IsParagraph(ps[k])
    ensures JoinParagraphs(ps[b..i + 1])
         == if b == i then ps[i] else Strip(JoinParagraphs(ps[b..i]) + "\n\n" + ps[i])
  {
    hide IsParagraph, Strip, Words, WordsOfAll;
    var run := ps[b..i + 1];
    assert run[..|run| - 1] == ps[b..i];
    JoinedParagraphs(run);
  }

  lemma BufferIsFull(ps: seq<string>, b: nat, i: nat)
    requires b <= i <= |ps| && forall k :: 0 <= k < |ps| ==> IsParagraph(ps[k])
    ensures JoinParagraphs(ps[b..i]) == "" <==> b == i
  {
    if b < i {
      JoinedParagraphs(ps[b..i]);
    }
  }

  // The window loop: appends the pieces of one paragraph and returns the next free index.
  method CutWindows(chunks: seq<Chunk>, words: seq<string>, size: int, step: nat, paragraph: nat, index: nat)
    returns (all: seq<Chunk>, next: nat)
    requires step >= 1
    ensures all == chunks + Windows(words, 0, size, step, paragraph, index)
    ensures next == index + |Windows(words, 0, size, step, paragraph, index)|
  {
    hide Piece;
    all, next := chunks, index;
    ghost var target := Windows(words, 0, size, step, paragraph, index);
    var start := 0;
    while start < |words|
      invariant 0 <= start
      invariant all + Windows(words, start, size, step, paragraph, next) == chunks + target
      invariant next + |Windows(words, start, size, step, paragraph, next)| == index + |target|
      decreases |words| - start
    {
      var piece := Piece(words, start, size, paragraph, next);
      ghost var rest := Windows(words, start + step, size, step, paragraph, next + |piece|);
      Assoc(all, piece, rest);
      all := all + piece;
      next := next + |piece|;
      start := start + step;
    }
  }

  // One more paragraph joins the run, or the run ends here.
  lemma ExtentStep(ps: seq<string>, b: nat, i: nat, size: int)
    requires b <= i <= |ps|
    ensures Extent(ps, b, i, size)
         == if i < |ps| && |JoinParagraphs(ps[b..i + 1])| <= size then Extent(ps, b, i + 1, size) else i
  {
    hide JoinParagraphs;
  }

  // What Pack says once the run from b is known to end at e.
  lemma PackAt(ps: seq<string>, b: nat, e: nat, index: nat, size: int, overlap: int)
    requires b <= e <= |ps| && e == Extent(ps, b, b, size)
    ensures var head := Finalized(JoinParagraphs(ps[b..e]), b, index);
      if e == |ps| then Pack(ps, b, index, size, overlap) == head
      else
        var windows := Windows(Words(ps[e]), 0, size, Step(size, overlap), e, index + 1);
        Pack(ps, b, index, size, overlap) == head + windows + Pack(ps, e + 1, index + 1 + |windows|, size, overlap)
  {
    hide Extent, Finalized, JoinParagraphs, Windows, Words;
  }

  // The chunker's loops compute ChunksOf for every size and overlap, sensible or not.
  method ChunkText(text: string, size: int, overlap: int) returns (chunks: seq<Chunk>)
    ensures chunks == ChunksOf(text, size, overlap)
  {
    hide Paragraphs, Finalized, Windows, JoinParagraphs, Words, Strip, IsParagraph, Pack, Extent, Step;
    var ps := Paragraphs(text);
    chunks := [];
    var buffer := "";
    var bufferStart := 0;
    var chunkIndex := 0;
    BufferIsFull(ps, 0, 0);
    for i := 0 to |ps|
      invariant 0 <= bufferStart <= i && 0 <= chunkIndex
      invariant buffer == JoinParagraphs(ps[bufferStart..i])
      invariant Extent(ps, bufferStart, bufferStart, size) == Extent(ps, bufferStart, i, size)
      invariant chunks + Pack(ps, bufferStart, chunkIndex, size, overlap) == Pack(ps, 0, 0, size, overlap)
    {
      var paragraph := ps[i];
      BufferIsFull(ps, bufferStart, i);
      JoinExtend(ps, bufferStart, i);
      ExtentStep(ps, bufferStart, i, size);
      var candidate := if buffer != "" then Strip(buffer + "\n\n" + paragraph) else paragraph;
      if |candidate| <= size {
        if buffer == "" {
          bufferStart := i;
        }
        buffer := candidate;
      } else {
        var step := Step(size, overlap);
        PackAt(ps, bufferStart, i, chunkIndex, size, overlap);
        var head := Finalized(buffer, bufferStart, chunkIndex);
        ghost var windows := Windows(Words(paragraph), 0, size, step, i, chunkIndex + 1);
        Regroup(chunks, head, windows, Pack(ps, i + 1, chunkIndex + 1 + |windows|, size, overlap));
        chunks := chunks + head;
        chunkIndex := chunkIndex + 1;
        chunks, chunkIndex := CutWindows(chunks, Words(paragraph), size, step, i, chunkIndex);
        buffer := "";
        bufferStart := i + 1;
        BufferIsFull(ps, i + 1, i + 1);
      }
    }
    ExtentStep(ps, bufferStart, |ps|, size);
    PackAt(ps, bufferStart, |ps|, chunkIndex, size, overlap);
    BufferIsFull(ps, bufferStart, |ps|);
    if buffer != "" {
      chunks := chunks + Finalized(buffer, bufferStart, chunkIndex);
    } else {
      NothingToFinalize(bufferStart, chunkIndex);
    }
  }

  lemma Regroup<T>(a: seq<T>, b: seq<T>, c: seq<T>, d: seq<T>)
    ensures a + (b + c + d) == a + b + c + d
  {
  }

  lemma NothingToFinalize(start: nat, index: nat)
    ensures Finalized("", start, index) == []
  {
  }

  // ---------- Structure: the chunks tile the paragraphs ----------

  // A place in the document: a paragraph and a word offset inside it.
  datatype Place = Place(paragraph: nat, offset: nat)

  function StartOf(c: Chunk): Place {
    Place(c.paragraphStart, if c.placement.Window? then c.placement.offset else 0)
  }

  // Where the chunk after chunk k starts; `to` when there is none.
  function NextStart(chunks: seq<Chunk>, k: nat, to: Place): Place {
    if k + 1 < |chunks| then StartOf(chunks[k + 1]) else to
  }

  // Chunk c holds exactly the material from its start up to `next`, within its size limit.
  ghost predicate Spans(ps: seq<string>, size: int, step: nat, c: Chunk, next: Place)
    requires size >= 1
  {
    && c.paragraphStart < |ps|
    && c.pageNumber == c.paragraphStart + 1
    && match c.placement
       case Buffered =>
         && c.paragraphStart < next.paragraph <= |ps| && next.offset == 0
         && c.text == JoinParagraphs(ps[c.paragraphStart..next.paragraph])
         && c.tokenCount == |WordsOfAll(ps[c.paragraphStart..next.paragraph])|
         && |c.text| <= size
         && (next.paragraph < |ps| ==> |JoinParagraphs(ps[c.paragraphStart..next.paragraph + 1])| > size)
       case Window(offset) =>
         var ws := Words(ps[c.paragraphStart]);
         && offset < |ws|
         && c.text == JoinWords(ws[offset..Min(offset + size, |ws|)])
         && c.tokenCount == Min(size, |ws| - offset)
         && next == if offset + step < |ws| then Place(c.paragraphStart, offset + step)
                    else Place(c.paragraphStart + 1, 0)
  }

  ghost predicate Tiled(ps: seq<string>, size: int, step: nat, chunks: seq<Chunk>, from: Place, to: Place)
    requires size >= 1
  {
    && (if chunks == [] then from == to else StartOf(chunks[0]) == from)
    && forall k :: 0 <= k < |chunks| ==> Spans(ps, size, step, chunks[k], NextStart(chunks, k, to))
  }

  lemma TiledConcat(ps: seq<string>, size: int, step: nat, a: seq<Chunk>, b: seq<Chunk>, from: Place, mid: Place,
                    to: Place)
    requires size >= 1 && Tiled(ps, size, step, a, from, mid) && Tiled(ps, size, step, b, mid, to)
    ensures Tiled(ps, size, step, a + b, from, to)
  {
    hide Spans;
    var c := a + b;
    forall k | 0 <= k < |c|
      ensures Spans(ps, size, step, c[k], NextStart(c, k, to))
    {
      if k < |a| {
        assert NextStart(c, k, to) == NextStart(a, k, mid);
      } else {
        assert c[k] == b[k - |a|];
        assert NextStart(c, k, to) == NextStart(b, k - |a|, to);
      }
    }
  }

  lemma PieceText(ws: seq<string>, start: nat, size: int, paragraph: nat, index: nat)
    requires size >= 1 && start < |ws| && forall i :: 0 <= i < |ws| ==> IsWord(ws[i])
    ensures var end := Min(start + size, |ws|);
      Piece(ws, start, size, paragraph, index)
        == [Chunk(index, JoinWords(ws[start..end]), end - start, paragraph + 1, paragraph, Window(start))]
    ensures Words(Piece(ws, start, size, paragraph, index)[0].text) == ws[start..Min(start + size, |ws|)]
  {
    hide Words, IsWord, IsParagraph, Strip, JoinWords;
    var piece := ws[start..Min(start + size, |ws|)];
    assert Slice(ws, start, start + size) == piece;
    JoinIsTrimmed(piece);
    StripOfTrimmed(JoinWords(piece));
    WordsOfJoin(piece);
  }

  lemma PieceTiles(ps: seq<string>, p: nat, start: nat, size: int, step: nat, index: nat)
    requires p < |ps| && size >= 1 && step >= 1 && start < |Words(ps[p])|
    ensures var next := if start + step < |Words(ps[p])| then Place(p, start + step) else Place(p + 1, 0);
      Tiled(ps, size, step, Piece(Words(ps[p]), start, size, p, index), Place(p, start), next)
  {
    hide Words, IsWord, JoinWords, Piece;
    PieceText(Words(ps[p]), start, size, p, index);
  }

  lemma NothingTiles(ps: seq<string>, size: int, step: nat, at: Place)
    requires size >= 1
    ensures Tiled(ps, size, step, [], at, at)
  {
  }

  lemma {:induction false} WindowsTile(ps: seq<string>, p: nat, start: nat, size: int, step: nat, index: nat)
    requires p < |ps| && size >= 1 && step >= 1 && start < |Words(ps[p])|
    ensures Tiled(ps, size, step, Windows(Words(ps[p]), start, size, step, p, index), Place(p, start), Place(p + 1, 0))
    decreases |Words(ps[p])| - start
  {
    hide Tiled, Piece, Words;
    var ws := Words(ps[p]);
    var end := Place(p + 1, 0);
    var piece := Piece(ws, start, size, p, index);
    PieceTiles(ps, p, start, size, step, index);
    var rest := Windows(ws, start + step, size, step, p, index + |piece|);
    if start + step < |ws| {
      WindowsTile(ps, p, start + step, size, step, index + |piece|);
      TiledConcat(ps, size, step, piece, rest, Place(p, start), Place(p, start + step), end);
    } else {
      NothingTiles(ps, size, step, end);
      TiledConcat(ps, size, step, piece, rest, Place(p, start), end, end);
    }
  }

  // Indices are at least `from` and strictly increase.
  ghost predicate IndicesRise(chunks: seq<Chunk>, from: nat) {
    && (forall k :: 0 <= k < |chunks| ==> chunks[k].index >= from)
    && (forall j, k :: 0 <= j < k < |chunks| ==> chunks[j].index < chunks[k].index)
  }

  ghost predicate IndicesBelow(chunks: seq<Chunk>, bound: nat) {
    forall k :: 0 <= k < |chunks| ==> chunks[k].index < bound
  }

  lemma RiseConcat(a: seq<Chunk>, b: seq<Chunk>, from: nat, mid: nat)
    requires IndicesRise(a, from) && IndicesBelow(a, mid) && IndicesRise(b, mid) && from <= mid
    ensures IndicesRise(a + b, from)
  {
    var c := a + b;
    assert forall k :: 0 <= k < |c| ==> c[k] == if k < |a| then a[k] else b[k - |a|];
  }

  lemma BelowConcat(a: seq<Chunk>, b: seq<Chunk>, bound: nat)
    requires IndicesBelow(a, bound) && IndicesBelow(b, bound)
    ensures IndicesBelow(a + b, bound)
  {
    var c := a + b;
    assert forall k :: 0 <= k < |c| ==> c[k] == if k < |a| then a[k] else b[k - |a|];
  }

  lemma OneIndexRises(chunks: seq<Chunk>, index: nat)
    requires |chunks| <= 1 && (chunks != [] ==> chunks[0].index == index)
    ensures IndicesRise(chunks, index) && IndicesBelow(chunks, index + |chunks|)
  {
  }

  lemma {:induction false} WindowsRise(ws: seq<string>, start: nat, size: int, step: nat, p: nat, index: nat)
    requires step >= 1
    ensures IndicesRise(Windows(ws, start, size, step, p, index), index)
    ensures IndicesBelow(Windows(ws, start, size, step, p, index), index + |Windows(ws, start, size, step, p, index)|)
    decreases |ws| - start
  {
    hide IndicesRise, IndicesBelow, Piece;
    if start < |ws| {
      var piece := Piece(ws, start, size, p, index);
      PieceIsOne(ws, start, size, p, index);
      var next := index + |piece|;
      var rest := Windows(ws, start + step, size, step, p, next);
      OneIndexRises(piece, index);
      WindowsRise(ws, start + step, size, step, p, next);
      RiseConcat(piece, rest, index, next);
      BelowWeaken(piece, next, next + |rest|);
      BelowConcat(piece, rest, next + |rest|);
    } else {
      OneIndexRises([], index);
    }
  }

  lemma PieceIsOne(ws: seq<string>, start: nat, size: int, p: nat, index: nat)
    ensures var piece := Piece(ws, start, size, p, index);
      |piece| <= 1 && (piece != [] ==> piece[0].index == index)
  {
    hide Slice, JoinWords, Strip;
  }

  lemma BelowWeaken(chunks: seq<Chunk>, bound: nat, bigger: nat)
    requires IndicesBelow(chunks, bound) && bound <= bigger
    ensures IndicesBelow(chunks, bigger)
  {
  }

  lemma FinalizedRun(ps: seq<string>, b: nat, e: nat, index: nat)
    requires b <= e <= |ps| && forall k :: 0 <= k < |ps| ==> IsParagraph(ps[k])
    ensures var head := Finalized(JoinParagraphs(ps[b..e]), b, index);
      if b == e then head == []
      else (|head| == 1 && head[0].text == JoinParagraphs(ps[b..e]) && head[0].paragraphStart == b
            && head[0].tokenCount == |WordsOfAll(ps[b..e])|
            && head[0].pageNumber == b + 1 && head[0].placement == Buffered)
  {
    if b < e {
      var text := JoinParagraphs(ps[b..e]);
      JoinedParagraphs(ps[b..e]);
      hide JoinParagraphs, WordsOfAll, Words;
      ParagraphHasWords(text);
    } else {
      assert ps[b..e] == [];
    }
  }

  lemma HeadTiles(ps: seq<string>, b: nat, e: nat, index: nat, size: int, step: nat)
    requires b <= e <= |ps| && size >= 1 && forall k :: 0 <= k < |ps| ==> IsParagraph(ps[k])
    requires e > b ==> |JoinParagraphs(ps[b..e])| <= size
    requires e < |ps| ==> |JoinParagraphs(ps[b..e + 1])| > size
    ensures Tiled(ps, size, step, Finalized(JoinParagraphs(ps[b..e]), b, index), Place(b, 0), Place(e, 0))
  {
    hide Finalized, JoinParagraphs, IsParagraph, Words, WordsOfAll;
    FinalizedRun(ps, b, e, index);
  }

  lemma {:induction false} PackTiles(ps: seq<string>, b: nat, index: nat, size: int, overlap: int)
    requires b <= |ps| && size >= 1 && forall k :: 0 <= k < |ps| ==> IsParagraph(ps[k])
    ensures Tiled(ps, size, Step(size, overlap), Pack(ps, b, index, size, overlap), Place(b, 0), Place(|ps|, 0))
    decreases |ps| - b
  {
    hide Tiled, Words, Finalized, JoinParagraphs, Windows, Extent;
    var step := Step(size, overlap);
    var e := Extent(ps, b, b, size);
    var head := Finalized(JoinParagraphs(ps[b..e]), b, index);
    HeadTiles(ps, b, e, index, size, step);
    if e < |ps| {
      ParagraphHasWords(ps[e]);
      var windows := Windows(Words(ps[e]), 0, size, step, e, index + 1);
      var rest := Pack(ps, e + 1, index + 1 + |windows|, size, overlap);
      WindowsTile(ps, e, 0, size, step, index + 1);
      PackTiles(ps, e + 1, index + 1 + |windows|, size, overlap);
      TiledConcat(ps, size, step, head, windows, Place(b, 0), Place(e, 0), Place(e + 1, 0));
      TiledConcat(ps, size, step, head + windows, rest, Place(b, 0), Place(e + 1, 0), Place(|ps|, 0));
    }
  }

  lemma ParagraphHasWords(p: string)
    requires IsParagraph(p)
    ensures Words(p) != []
  {
    assert TokenLength(p) >= 1;
  }

  // The chunks of a text partition its paragraphs, in order and without gap: each buffered chunk is a
  // maximal run that fits and each window one stretch of words.
  lemma ChunksTileTheText(text: string, size: int, overlap: int)
    requires size >= 1
    ensures var ps := Paragraphs(text);
      Tiled(ps, size, Step(size, overlap), ChunksOf(text, size, overlap), Place(0, 0), Place(|ps|, 0))
  {
    PackTiles(Paragraphs(text), 0, 0, size, overlap);
  }

  // The indices rise for every size, also below one, where no paragraph is ever buffered.
  lemma {:induction false} IndicesAlwaysRise(ps: seq<string>, b: nat, index: nat, size: int, overlap: int)
    requires b <= |ps|
    ensures IndicesRise(Pack(ps, b, index, size, overlap), index)
    decreases |ps| - b
  {
    hide IndicesRise, IndicesBelow, Words, JoinParagraphs, Windows, Extent, Strip;
    var step := Step(size, overlap);
    var e := Extent(ps, b, b, size);
    var head := Finalized(JoinParagraphs(ps[b..e]), b, index);
    OneIndexRises(head, index);
    if e < |ps| {
      var windows := Windows(Words(ps[e]), 0, size, step, e, index + 1);
      var last := index + 1 + |windows|;
      WindowsRise(Words(ps[e]), 0, size, step, e, index + 1);
      IndicesAlwaysRise(ps, e + 1, last, size, overlap);
      BelowWeaken(head, index + |head|, index + 1);
      RiseConcat(head, windows, index, index + 1);
      BelowWeaken(head, index + 1, last);
      BelowConcat(head, windows, last);
      RiseConcat(head + windows, Pack(ps, e + 1, last, size, overlap), index, last);
    }
  }

  // A windowed paragraph of n words yields ceil(n / step) pieces.
  lemma {:induction false} WindowCount(ws: seq<string>, start: nat, size: int, step: nat, p: nat, index: nat)
    requires size >= 1 && step >= 1 && start <= |ws| && forall i :: 0 <= i < |ws| ==> IsWord(ws[i])
    ensures |Windows(ws, start, size, step, p, index)| == (|ws| - start + step - 1) / step
    decreases |ws| - start
  {
    hide IsWord, Piece;
    var left := |ws| - start;
    if left == 0 {
      DivideBelow(step - 1, step);
    } else {
      PieceText(ws, start, size, p, index);
      DivideDown(left + step - 1, step);
      if start + step <= |ws| {
        WindowCount(ws, start + step, size, step, p, index + 1);
      } else {
        DivideBelow(left - 1, step);
      }
    }
  }

  lemma DivideBelow(a: nat, d: nat)
    requires a < d
    ensures a / d == 0
  {
  }

  lemma DivideDown(a: nat, d: nat)
    requires 1 <= d <= a
    ensures a / d == 1 + (a - d) / d
  {
    var q, r := (a - d) / d, (a - d) % d;
    MultiplyNext(q, d);
    DivideUnique(a, d, a / d, a % d, q + 1, r);
  }

  // ---------- Losslessness: dropping the overlaps gives back the text's words ----------

  // What a chunk adds once the overlap with the next window is dropped.
  function Kept(c: Chunk, step: nat): seq<string> {
    var ws := Words(c.text);
    if c.placement.Window? then ws[..Min(step, |ws|)] else ws
  }

  function KeptWords(chunks: seq<Chunk>, step: nat): seq<string> {
    if chunks == [] then [] else Kept(chunks[0], step) + KeptWords(chunks[1..], step)
  }

  lemma {:induction false} KeptAppend(a: seq<Chunk>, b: seq<Chunk>, step: nat)
    ensures KeptWords(a + b, step) == KeptWords(a, step) + KeptWords(b, step)
  {
    hide Kept;
    var c := a + b;
    if a == [] {
      assert c == b;
    } else {
      KeptAppend(a[1..], b, step);
      assert c[0] == a[0] && c[1..] == a[1..] + b;
      Assoc(Kept(a[0], step), KeptWords(a[1..], step), KeptWords(b, step));
    }
  }

  lemma KeptOfOne(c: Chunk, step: nat)
    ensures KeptWords([c], step) == Kept(c, step)
  {
    assert [c][1..] == [];
    assert Kept(c, step) + [] == Kept(c, step);
  }

  // One window keeps the words from its start up to the next start, as far as the window reaches.
  lemma KeptOfPiece(ws: seq<string>, start: nat, size: int, step: nat, p: nat, index: nat)
    requires size >= 1 && step >= 1 && start < |ws| && forall i :: 0 <= i < |ws| ==> IsWord(ws[i])
    ensures |Piece(ws, start, size, p, index)| == 1
    ensures KeptWords(Piece(ws, start, size, p, index), step) == ws[start..Min(start + Min(size, step), |ws|)]
  {
    hide IsWord, Words, JoinWords, Piece, KeptWords, Kept;
    PieceText(ws, start, size, p, index);
    var reach := Min(start + size, |ws|);
    var c := Piece(ws, start, size, p, index)[0];
    KeptOfOne(c, step);
    KeptOfWindow(c, ws, start, reach, step);
    assert start + Min(step, reach - start) == Min(start + Min(size, step), |ws|);
  }

  lemma KeptOfWindow(c: Chunk, ws: seq<string>, start: nat, reach: nat, step: nat)
    requires c.placement.Window? && start <= reach <= |ws| && Words(c.text) == ws[start..reach]
    ensures Kept(c, step) == ws[start..start + Min(step, reach - start)]
  {
    hide Words;
  }

  // The windows of a paragraph keep all its words, unless the step skips words that no window covers.
  lemma {:induction false} KeptOfWindows(ws: seq<string>, start: nat, size: int, step: nat, p: nat, index: nat)
    requires size >= 1 && step >= 1 && forall i :: 0 <= i < |ws| ==> IsWord(ws[i])
    requires start <= |ws|
    ensures var kept := KeptWords(Windows(ws, start, size, step, p, index), step);
      if step <= size || |ws| - start <= size then kept == ws[start..] else |kept| < |ws| - start
    decreases |ws| - start
  {
    hide IsWord, Piece, KeptWords, Windows;
    KeptOfNone(step);
    if start < |ws| {
      KeptOfPiece(ws, start, size, step, p, index);
      WindowsStep(ws, start, size, step, p, index);
      var piece := Piece(ws, start, size, p, index);
      var rest := Windows(ws, start + step, size, step, p, index + 1);
      KeptAppend(piece, rest, step);
      if start + step <= |ws| {
        KeptOfWindows(ws, start + step, size, step, p, index + 1);
        HeadAndTail(ws, start, size, step, KeptWords(piece, step), KeptWords(rest, step));
      } else {
        NoWindows(ws, start + step, size, step, p, index + 1);
      }
    } else {
      NoWindows(ws, start, size, step, p, index);
    }
  }

  lemma WindowsStep(ws: seq<string>, start: nat, size: int, step: nat, p: nat, index: nat)
    requires step >= 1 && start < |ws| && |Piece(ws, start, size, p, index)| == 1
    ensures Windows(ws, start, size, step, p, index)
         == Piece(ws, start, size, p, index) + Windows(ws, start + step, size, step, p, index + 1)
  {
    hide Piece;
  }

  lemma NoWindows(ws: seq<string>, start: nat, size: int, step: nat, p: nat, index: nat)
    requires step >= 1 && start >= |ws|
    ensures Windows(ws, start, size, step, p, index) == []
  {
  }

  // What one window keeps, in front of what the later ones keep.
  lemma HeadAndTail(ws: seq<string>, start: nat, size: nat, step: nat, head: seq<string>, tail: seq<string>)
    requires start + step <= |ws| && head == ws[start..Min(start + Min(size, step), |ws|)]
    requires var left := |ws| - start - step;
      if step <= size || left <= size then tail == ws[start + step..] else |tail| < left
    requires step >= 1 && size >= 1
    ensures if step <= size || |ws| - start <= size then head + tail == ws[start..] else |head + tail| < |ws| - start
  {
    if step <= size {
      assert ws[start..] == ws[start..start + step] + ws[start + step..];
    }
  }

  lemma KeptOfNone(step: nat)
    ensures KeptWords([], step) == []
  {
  }

  // Every paragraph the packing cuts into windows fits in a single one.
  ghost predicate WindowsFit(ps: seq<string>, b: nat, size: int)
    requires b <= |ps|
    decreases |ps| - b
  {
    var e := Extent(ps, b, b, size);
    e == |ps| || (|Words(ps[e])| <= size && WindowsFit(ps, e + 1, size))
  }

  lemma {:induction false} KeptOfPack(ps: seq<string>, b: nat, index: nat, size: int, overlap: int)
    requires b <= |ps| && size >= 1 && forall k :: 0 <= k < |ps| ==> IsParagraph(ps[k])
    ensures var kept := KeptWords(Pack(ps, b, index, size, overlap), Step(size, overlap));
      if overlap >= 0 || WindowsFit(ps, b, size) then kept == WordsOfAll(ps[b..])
      else |kept| < |WordsOfAll(ps[b..])|
    decreases |ps| - b
  {
    hide Words, Finalized, JoinParagraphs, Windows, Extent, KeptWords, IsParagraph, IsWord, WordsOfAll;
    var step := Step(size, overlap);
    var e := Extent(ps, b, b, size);
    var head := Finalized(JoinParagraphs(ps[b..e]), b, index);
    KeptOfHead(ps, b, e, index, step);
    WordsFrom(ps, b, e);
    if e < |ps| {
      var ws := Words(ps[e]);
      var windows := Windows(ws, 0, size, step, e, index + 1);
      var next := index + 1 + |windows|;
      KeptOfWindows(ws, 0, size, step, e, index + 1);
      assert ws[0..] == ws;
      KeptOfPack(ps, e + 1, next, size, overlap);
      KeptAppend(head, windows, step);
      KeptAppend(head + windows, Pack(ps, e + 1, next, size, overlap), step);
    }
  }

  // The words of the paragraphs from b: those up to e, those of paragraph e, and the rest.
  lemma WordsFrom(ps: seq<string>, b: nat, e: nat)
    requires b <= e <= |ps|
    ensures WordsOfAll(ps[b..])
         == if e == |ps| then WordsOfAll(ps[b..e])
            else WordsOfAll(ps[b..e]) + Words(ps[e]) + WordsOfAll(ps[e + 1..])
  {
    assert ps[b..] == ps[b..e] + ps[e..];
    WordsOfAllAppend(ps[b..e], ps[e..]);
    if e < |ps| {
      assert ps[e..][1..] == ps[e + 1..];
      Assoc(WordsOfAll(ps[b..e]), Words(ps[e]), WordsOfAll(ps[e + 1..]));
    }
  }

  lemma KeptOfHead(ps: seq<string>, b: nat, e: nat, index: nat, step: nat)
    requires b <= e <= |ps| && forall k :: 0 <= k < |ps| ==> IsParagraph(ps[k])
    ensures KeptWords(Finalized(JoinParagraphs(ps[b..e]), b, index), step) == WordsOfAll(ps[b..e])
  {
    var head := Finalized(JoinParagraphs(ps[b..e]), b, index);
    if b < e {
      JoinedParagraphs(ps[b..e]);
      assert head[1..] == [];
    } else {
      assert ps[b..e] == [];
    }
  }

  // A slice up to a bound at or before its start ends before the last word, if it holds anything: the bound
  // can only count from the end.
  lemma SliceBelowOne(ws: seq<string>, start: nat, size: int)
    requires size < 1 && start < |ws|
    ensures var slice := Slice(ws, start, start + size);
      |slice| <= |ws| - 1 - start && slice == ws[start..start + |slice|]
  {
  }

  lemma KeptOfPieceBelowOne(ws: seq<string>, start: nat, size: int, step: nat, p: nat, index: nat)
    requires size < 1 && start < |ws| && forall i :: 0 <= i < |ws| ==> IsWord(ws[i])
    ensures |KeptWords(Piece(ws, start, size, p, index), step)| <= Min(step, |ws| - 1 - start)
  {
    var slice := Slice(ws, start, start + size);
    SliceBelowOne(ws, start, size);
    hide Slice, IsWord, KeptWords, JoinWords, IsParagraph, Strip, Words;
    KeptOfNone(step);
    if slice == [] {
      NothingJoined();
    } else {
      JoinIsTrimmed(slice);
      StripOfTrimmed(JoinWords(slice));
      WordsOfJoin(slice);
      KeptOfOne(Piece(ws, start, size, p, index)[0], step);
    }
  }

  lemma NothingJoined()
    ensures Strip(JoinWords([])) == ""
  {
  }

  // Below size 1 the windows from `start` miss the last word at least.
  lemma {:induction false} KeptOfWindowsBelowOne(ws: seq<string>, start: nat, size: int, step: nat, p: nat, index: nat)
    requires size < 1 && step >= 1 && forall i :: 0 <= i < |ws| ==> IsWord(ws[i])
    ensures |KeptWords(Windows(ws, start, size, step, p, index), step)| <= Max(|ws| - 1 - start, 0)
    decreases |ws| - start
  {
    hide IsWord, Piece, KeptWords;
    if start < |ws| {
      var piece := Piece(ws, start, size, p, index);
      var rest := Windows(ws, start + step, size, step, p, index + |piece|);
      KeptOfPieceBelowOne(ws, start, size, step, p, index);
      KeptOfWindowsBelowOne(ws, start + step, size, step, p, index + |piece|);
      KeptAppend(piece, rest, step);
    } else {
      KeptOfNone(step);
    }
  }

  // Below size 1 nothing is buffered.
  lemma NothingFits(ps: seq<string>, b: nat, size: int)
    requires b < |ps| && size < 1 && IsParagraph(ps[b])
    ensures Extent(ps, b, b, size) == b && JoinParagraphs(ps[b..b]) == ""
  {
    assert ps[b..b + 1] == [ps[b]] && ps[b..b] == [];
  }

  lemma {:induction false} KeptOfPackBelowOne(ps: seq<string>, b: nat, index: nat, size: int, overlap: int)
    requires b <= |ps| && size < 1 && forall k :: 0 <= k < |ps| ==> IsParagraph(ps[k])
    ensures var kept, words := KeptWords(Pack(ps, b, index, size, overlap), Step(size, overlap)), WordsOfAll(ps[b..]);
      |kept| <= |words| && (b < |ps| ==> |kept| < |words|)
    decreases |ps| - b
  {
    hide Words, Finalized, JoinParagraphs, Windows, Extent, KeptWords, IsParagraph, IsWord, WordsOfAll, Pack, Step;
    var step := Step(size, overlap);
    if b == |ps| {
      EmptyPack(ps, index, size, overlap);
      KeptOfNone(step);
    } else {
      NothingFits(ps, b, size);
      PackAt(ps, b, b, index, size, overlap);
      NothingToFinalize(b, index);
      var ws := Words(ps[b]);
      var windows := Windows(ws, 0, size, step, b, index + 1);
      var rest := Pack(ps, b + 1, index + 1 + |windows|, size, overlap);
      assert [] + windows == windows;
      KeptAppend(windows, rest, step);
      ParagraphHasWords(ps[b]);
      KeptOfWindowsBelowOne(ws, 0, size, step, b, index + 1);
      KeptOfPackBelowOne(ps, b + 1, index + 1 + |windows|, size, overlap);
      FirstWords(ps, b);
    }
  }

  lemma FirstWords(ps: seq<string>, b: nat)
    requires b < |ps|
    ensures WordsOfAll(ps[b..]) == Words(ps[b]) + WordsOfAll(ps[b + 1..])
  {
    assert ps[b..][1..] == ps[b + 1..];
  }

  lemma EmptyPack(ps: seq<string>, index: nat, size: int, overlap: int)
    ensures Pack(ps, |ps|, index, size, overlap) == []
  {
    assert ps[|ps|..|ps|] == [];
  }

  // For every size and overlap, also the senseless ones that the settings accept: the chunks hold the words
  // of the text, all of them and in order, if and only if the text has no words, or chunk_size is at least 1
  // and either the overlap is not negative or every paragraph that is cut fits in its first window.
  lemma LosslessExactlyWhen(text: string, size: int, overlap: int)
    ensures KeptWords(ChunksOf(text, size, overlap), Step(size, overlap)) == Words(text) <==>
      Words(text) == [] || (size >= 1 && (overlap >= 0 || WindowsFit(Paragraphs(text), 0, size)))
  {
    hide KeptWords, Pack, Words, Paragraphs, WordsOfAll, WindowsFit, IsParagraph, Step;
    var ps := Paragraphs(text);
    ParagraphsKeepWords(text);
    assert ps[0..] == ps;
    NoParagraphs(ps);
    if size >= 1 {
      KeptOfPack(ps, 0, 0, size, overlap);
    } else {
      KeptOfPackBelowOne(ps, 0, 0, size, overlap);
    }
  }

  lemma NoParagraphs(ps: seq<string>)
    requires forall k :: 0 <= k < |ps| ==> IsParagraph(ps[k])
    ensures WordsOfAll(ps) == [] <==> ps == []
    ensures ps == [] ==> forall size :: WindowsFit(ps, 0, size)
  {
    if ps != [] {
      ParagraphHasWords(ps[0]);
    }
  }

  // In particular for every sensible setting.
  lemma ChunkingIsLossless(text: string, size: int, overlap: int)
    requires size >= 1 && overlap >= 0
    ensures KeptWords(ChunksOf(text, size, overlap), Step(size, overlap)) == Words(text)
  {
    LosslessExactlyWhen(text, size, overlap);
  }

  // A chunk size of 0 loses a text of one word, with no overlap at all.
  lemma ZeroSizeLosesWords()
    ensures KeptWords(ChunksOf("a", 0, 0), Step(0, 0)) != Words("a")
  {
    assert IsParagraph("a");
    ParagraphHasWords("a");
    LosslessExactlyWhen("a", 0, 0);
  }

  // With size 1 and overlap -1 the windows of a three-word line are its first and its third word.
  lemma NegativeOverlapLosesWords()
    ensures KeptWords(ChunksOf("a b c", 1, -1), Step(1, -1)) != Words("a b c")
  {
    var text := "a b c";
    SingleParagraph(text);
    var ps := Paragraphs(text);
    hide Paragraphs, SplitBlankLines, CollapseNewlines, StripAll, Strip;
    assert JoinParagraphs(ps[0..1]) == text by {
      assert ps[0..1] == [text];
    }
    ThreeWords();
    hide Words, JoinParagraphs;
    assert !WindowsFit(ps, 0, 1);
    hide WindowsFit, KeptWords, ChunksOf;
    LosslessExactlyWhen(text, 1, -1);
  }

  lemma ThreeWords()
    ensures Words("a b c") == ["a", "b", "c"]
  {
    var ws := ["a", "b", "c"];
    assert ws[1..] == ["b", "c"] && ws[1..][1..] == ["c"];
    assert JoinWords(["b", "c"]) == "b c";
    assert JoinWords(ws) == "a b c";
    hide JoinWords;
    WordsOfJoin(ws);
  }
}
