// The invariant of the knowledge index, and its preservation by every service call.
module KnowledgeInvariants {
  import opened Common
  import opened Text
  import opened Chunking
  import opened KnowledgeModel

  ghost predicate IdsBelow(db: Tables) {
    && (forall b :: b in db.bases ==> b < db.nextId)
    && (forall d :: d in db.documents ==> d < db.nextId)
    && (forall v :: v in db.versions ==> v < db.nextId)
    && (forall c :: c in db.chunks ==> c < db.nextId)
    && (forall e :: e in db.embeddings ==> e < db.nextId)
  }

  // ---------- References: every row points at rows of the same document, base and organization ----------

  ghost predicate DocumentRefs(db: Tables, d: Id)
    requires d in db.documents
  {
    var document := db.documents[d];
    && document.kb in db.bases && db.bases[document.kb].org == document.org
    && document.current in db.versions && db.versions[document.current].document == d
    && document.key.sourceType == document.sourceType
    && (document.key.Random? ==> document.key.nonce < db.nextId)
  }

  ghost predicate SameKey(db: Tables, d: Id, e: Id) {
    d in db.documents && e in db.documents
    && db.documents[d].kb == db.documents[e].kb && db.documents[d].key == db.documents[e].key
  }

  ghost predicate VersionRefs(db: Tables, v: Id)
    requires v in db.versions
  {
    HasDocument(db, db.versions[v].org, db.versions[v].document)
  }

  ghost predicate ChunkRefs(db: Tables, c: Id)
    requires c in db.chunks
  {
    var r := db.chunks[c];
    r.version in db.versions && r.document == db.versions[r.version].document
  }

  ghost predicate EmbeddingRefs(db: Tables, e: Id)
    requires e in db.embeddings
  {
    var r := db.embeddings[e];
    r.chunk in db.chunks && r.document == db.chunks[r.chunk].document
    && r.document in db.documents && r.kb == db.documents[r.document].kb
  }

  ghost predicate Refs(db: Tables) {
    && (forall d :: d in db.documents ==> DocumentRefs(db, d))
    && (forall d, e :: SameKey(db, d, e) ==> d == e)
    && (forall v :: v in db.versions ==> VersionRefs(db, v))
    && (forall c :: c in db.chunks ==> ChunkRefs(db, c))
    && (forall e :: e in db.embeddings ==> EmbeddingRefs(db, e))
  }

  // ---------- Version numbers: exactly 1..latest, each once ----------

  ghost predicate IsVersion(db: Tables, v: Id, d: Id, n: nat) {
    v in db.versions && db.versions[v].document == d && db.versions[v].number == n
  }

  ghost predicate HasVersion(db: Tables, d: Id, n: nat) {
    exists v :: IsVersion(db, v, d, n)
  }

  ghost predicate NumberInRange(db: Tables, v: Id)
    requires v in db.versions
  {
    var d := db.versions[v].document;
    d in db.documents && 1 <= db.versions[v].number <= db.documents[d].latest
  }

  ghost predicate Numbered(db: Tables) {
    && (forall v :: v in db.versions ==> NumberInRange(db, v))
    && (forall v, w, d, n :: IsVersion(db, v, d, n) && IsVersion(db, w, d, n) ==> v == w)
    && (forall d, n :: d in db.documents && 1 <= n <= db.documents[d].latest ==> HasVersion(db, d, n))
  }

  // ---------- Deletion: a deleted document has only deleted versions ----------

  // Version v against its document: deleted with it, and undeleted with it when it is the newest.
  ghost predicate VersionDeletion(db: Tables, v: Id)
    requires v in db.versions
  {
    var d := db.versions[v].document;
    d in db.documents
    && (db.documents[d].deleted ==> db.versions[v].deleted)
    && (db.versions[v].number == db.documents[d].latest ==> db.versions[v].deleted == db.documents[d].deleted)
  }

  // Chunk rows are marked deleted only where their version is.
  ghost predicate ChunkDeletion(db: Tables, c: Id)
    requires c in db.chunks
  {
    var v := db.chunks[c].version;
    v in db.versions && (db.chunks[c].deleted ==> db.versions[v].deleted)
  }

  ghost predicate EmbeddingDeletion(db: Tables, e: Id)
    requires e in db.embeddings
  {
    var c := db.embeddings[e].chunk;
    c in db.chunks && db.chunks[c].version in db.versions
    && (db.embeddings[e].deleted ==> db.versions[db.chunks[c].version].deleted)
  }

  ghost predicate Deletions(db: Tables) {
    && (forall b :: b in db.bases ==> !db.bases[b].deleted)
    && (forall v :: v in db.versions ==> VersionDeletion(db, v))
    && (forall c :: c in db.chunks ==> ChunkDeletion(db, c))
    && (forall e :: e in db.embeddings ==> EmbeddingDeletion(db, e))
  }

  // ---------- Index: the stored chunks are the chunker's output, each with its embedding ----------

  ghost predicate IsRow(db: Tables, c: Id, v: Id, item: Chunk) {
    c in db.chunks && db.chunks[c].version == v && db.chunks[c].item == item
  }

  ghost predicate HasRow(db: Tables, v: Id, item: Chunk) {
    exists c :: IsRow(db, c, v, item)
  }

  // What a version's chunk rows should hold: nothing until it is indexed, then the chunker's output.
  function ExpectedItems(cfg: Config, db: Tables, v: Id): seq<Chunk>
    requires v in db.versions
  {
    if db.versions[v].indexed then Chunks(cfg, db.versions[v].text) else []
  }

  // A version's chunk rows are, one for one, the expected items.
  ghost predicate RowsAre(db: Tables, v: Id, items: seq<Chunk>) {
    && (forall c :: c in db.chunks && db.chunks[c].version == v ==> db.chunks[c].item in items)
    && (forall k :: 0 <= k < |items| ==> HasRow(db, v, items[k]))
    && (forall b, c :: b in db.chunks && c in db.chunks && SameIndex(db, v, b, c) ==> b == c)
  }

  ghost predicate SameIndex(db: Tables, v: Id, b: Id, c: Id)
    requires b in db.chunks && c in db.chunks
  {
    db.chunks[b].version == v && db.chunks[c].version == v && db.chunks[b].item.index == db.chunks[c].item.index
  }

  ghost predicate VersionIndexed(cfg: Config, db: Tables, v: Id)
    requires v in db.versions
  {
    && db.versions[v].chunkCount == |ExpectedItems(cfg, db, v)|
    && RowsAre(db, v, ExpectedItems(cfg, db, v))
  }

  ghost predicate IsEmbeddingOf(db: Tables, e: Id, c: Id) {
    e in db.embeddings && db.embeddings[e].chunk == c
  }

  ghost predicate HasEmbedding(db: Tables, c: Id) {
    exists e :: IsEmbeddingOf(db, e, c)
  }

  ghost predicate VectorOk(cfg: Config, db: Tables, e: Id)
    requires e in db.embeddings
  {
    var c := db.embeddings[e].chunk;
    c in db.chunks && db.embeddings[e].vector == cfg.embed(db.chunks[c].item.text)
  }

  // Every chunk row has exactly one embedding, the embedding of its text.
  ghost predicate Embedded(cfg: Config, db: Tables) {
    && (forall c :: c in db.chunks ==> HasEmbedding(db, c))
    && (forall e, f, c :: IsEmbeddingOf(db, e, c) && IsEmbeddingOf(db, f, c) ==> e == f)
    && (forall e :: e in db.embeddings ==> VectorOk(cfg, db, e))
  }

  ghost predicate Indexed(cfg: Config, db: Tables) {
    && (forall v :: v in db.versions ==> VersionIndexed(cfg, db, v))
    && Embedded(cfg, db)
  }

  ghost predicate Inv(cfg: Config, db: Tables) {
    IdsBelow(db) && Refs(db) && Numbered(db) && Deletions(db) && Indexed(cfg, db)
  }

  // ---------- Indexing a version ----------

  // The chunk table after indexing, row by row.
  ghost predicate ChunkTableAfter(db: Tables, d: Id, v: Id, items: seq<Chunk>, reset: bool, t: Tables) {
    && (forall c :: c in t.chunks && c < db.nextId
          ==> c in db.chunks && t.chunks[c] == db.chunks[c] && (reset ==> db.chunks[c].version != v))
    && (forall c :: c in db.chunks && (reset ==> db.chunks[c].version != v) ==> c in t.chunks)
    && (forall c :: c in t.chunks && c >= db.nextId
          ==> c < db.nextId + |items| && t.chunks[c] == ChunkRow(d, v, items[c - db.nextId], false))
    && (forall c :: db.nextId <= c < db.nextId + |items| ==> c in t.chunks)
  }

  // The embedding row of the chunk at position k.
  function EmbeddingAt(cfg: Config, db: Tables, d: Id, items: seq<Chunk>, k: nat): EmbeddingRow
    requires k < |items| && d in db.documents
  {
    EmbeddingRow(db.nextId + k, d, db.documents[d].kb, cfg.embed(items[k].text), false)
  }

  ghost predicate EmbeddingTableAfter(cfg: Config, db: Tables, d: Id, v: Id, items: seq<Chunk>, reset: bool, t: Tables)
    requires d in db.documents
  {
    var low := db.nextId + |items|;
    && (forall e :: e in t.embeddings && e < db.nextId
          ==> e in db.embeddings && t.embeddings[e] == db.embeddings[e] && (reset ==> !EmbedsVersion(db, e, v)))
    && (forall e :: e in db.embeddings && (reset ==> !EmbedsVersion(db, e, v)) ==> e in t.embeddings)
    && (forall e :: e in t.embeddings && e >= db.nextId
          ==> low <= e < low + |items| && t.embeddings[e] == EmbeddingAt(cfg, db, d, items, e - low))
    && (forall e :: low <= e < low + |items| ==> e in t.embeddings)
  }

  // The document and version tables after indexing.
  ghost predicate HeadersAfter(db: Tables, d: Id, v: Id, items: seq<Chunk>, t: Tables)
    requires d in db.documents && v in db.versions
  {
    var version, document := db.versions[v], db.documents[d];
    && t.bases == db.bases
    && t.nextId == db.nextId + 2 * |items|
    && t.versions == db.versions[v := version.(chunkCount := |items|, isCurrent := true, indexed := true)]
    && t.documents == db.documents[d := document.(current := v, latest := Max(document.latest, version.number))]
  }

  lemma IdRangeKeys(first: Id, n: nat)
    ensures forall i :: i in IdRange(first, n) <==> first <= i < first + n
  {
  }

  lemma ChunkAfter(cfg: Config, db: Tables, d: Id, v: Id, items: seq<Chunk>, reset: bool, c: Id)
    requires IdsBelow(db) && d in db.documents && v in db.versions
    ensures var chunks := Reindexed(cfg, db, d, v, items, reset).chunks;
      if c < db.nextId then
        (c in chunks <==> c in db.chunks && (reset ==> db.chunks[c].version != v))
        && (c in chunks ==> chunks[c] == db.chunks[c])
      else
        (c in chunks <==> c < db.nextId + |items|)
        && (c in chunks ==> chunks[c] == ChunkRow(d, v, items[c - db.nextId], false))
  {
    hide IdRange, EmbeddingsWithout, NewEmbeddings;
    IdRangeKeys(db.nextId, |items|);
  }

  lemma ReindexedChunks(cfg: Config, db: Tables, d: Id, v: Id, items: seq<Chunk>, reset: bool)
    requires IdsBelow(db) && d in db.documents && v in db.versions
    ensures ChunkTableAfter(db, d, v, items, reset, Reindexed(cfg, db, d, v, items, reset))
  {
    hide Reindexed;
    forall c: Id {
      ChunkAfter(cfg, db, d, v, items, reset, c);
    }
  }

  lemma EmbeddingAfter(cfg: Config, db: Tables, d: Id, v: Id, items: seq<Chunk>, reset: bool, e: Id)
    requires IdsBelow(db) && d in db.documents && v in db.versions
    ensures var embeddings := Reindexed(cfg, db, d, v, items, reset).embeddings;
      var low := db.nextId + |items|;
      if e < db.nextId then
        (e in embeddings <==> e in db.embeddings && (reset ==> !EmbedsVersion(db, e, v)))
        && (e in embeddings ==> embeddings[e] == db.embeddings[e])
      else
        (e in embeddings <==> low <= e < low + |items|)
        && (e in embeddings ==> embeddings[e] == EmbeddingAt(cfg, db, d, items, e - low))
  {
    hide IdRange, ChunksWithout, NewChunks, EmbedsVersion;
    IdRangeKeys(db.nextId + |items|, |items|);
  }

  lemma ReindexedEmbeddings(cfg: Config, db: Tables, d: Id, v: Id, items: seq<Chunk>, reset: bool)
    requires IdsBelow(db) && d in db.documents && v in db.versions
    ensures EmbeddingTableAfter(cfg, db, d, v, items, reset, Reindexed(cfg, db, d, v, items, reset))
  {
    hide Reindexed, EmbedsVersion, EmbeddingAt;
    forall e: Id {
      EmbeddingAfter(cfg, db, d, v, items, reset, e);
    }
  }

  // What indexing may be asked of: a version of the document, cleared of its rows or never indexed.
  ghost predicate MayReindex(db: Tables, d: Id, v: Id, reset: bool) {
    d in db.documents && v in db.versions && db.versions[v].document == d && (reset || !db.versions[v].indexed)
  }

  lemma ReindexIds(db: Tables, d: Id, v: Id, cfg: Config, items: seq<Chunk>, reset: bool, t: Tables)
    requires IdsBelow(db) && MayReindex(db, d, v, reset)
    requires HeadersAfter(db, d, v, items, t) && ChunkTableAfter(db, d, v, items, reset, t)
    requires EmbeddingTableAfter(cfg, db, d, v, items, reset, t)
    ensures IdsBelow(t)
  {
  }

  lemma ReindexDocumentRefs(db: Tables, d: Id, v: Id, items: seq<Chunk>, reset: bool, t: Tables, x: Id)
    requires MayReindex(db, d, v, reset) && HeadersAfter(db, d, v, items, t)
    requires x in db.documents && DocumentRefs(db, x)
    ensures DocumentRefs(t, x)
  {
  }

  lemma ReindexVersionRefs(db: Tables, d: Id, v: Id, items: seq<Chunk>, reset: bool, t: Tables, w: Id)
    requires MayReindex(db, d, v, reset) && HeadersAfter(db, d, v, items, t)
    requires w in db.versions && VersionRefs(db, w)
    ensures VersionRefs(t, w)
  {
  }

  lemma ReindexChunkRefs(db: Tables, d: Id, v: Id, items: seq<Chunk>, reset: bool, t: Tables, c: Id)
    requires MayReindex(db, d, v, reset) && HeadersAfter(db, d, v, items, t)
    requires ChunkTableAfter(db, d, v, items, reset, t)
    requires c in t.chunks && (c in db.chunks ==> ChunkRefs(db, c))
    ensures ChunkRefs(t, c)
  {
  }

  lemma ReindexEmbeddingRefs(db: Tables, d: Id, v: Id, cfg: Config, items: seq<Chunk>, reset: bool, t: Tables, e: Id)
    requires MayReindex(db, d, v, reset) && HeadersAfter(db, d, v, items, t)
    requires ChunkTableAfter(db, d, v, items, reset, t)
    requires EmbeddingTableAfter(cfg, db, d, v, items, reset, t) && IdsBelow(db)
    requires e in t.embeddings && (e in db.embeddings ==> EmbeddingRefs(db, e))
    ensures EmbeddingRefs(t, e)
  {
    if e < db.nextId {
      var c := db.embeddings[e].chunk;
      assert c in t.chunks && t.chunks[c] == db.chunks[c];
    } else {
      var k := e - (db.nextId + |items|);
      assert t.embeddings[e] == EmbeddingAt(cfg, db, d, items, k);
      assert t.chunks[db.nextId + k].document == d;
    }
  }

  lemma ReindexSameKey(db: Tables, d: Id, v: Id, items: seq<Chunk>, t: Tables, a: Id, b: Id)
    requires d in db.documents && v in db.versions && HeadersAfter(db, d, v, items, t)
    requires SameKey(t, a, b)
    ensures SameKey(db, a, b)
  {
  }

  lemma ReindexedKeys(db: Tables, d: Id, v: Id, items: seq<Chunk>, t: Tables)
    requires d in db.documents && v in db.versions && HeadersAfter(db, d, v, items, t)
    ensures t.documents.Keys == db.documents.Keys && t.versions.Keys == db.versions.Keys && t.bases == db.bases
  {
  }

  lemma ReindexRefs(db: Tables, d: Id, v: Id, cfg: Config, items: seq<Chunk>, reset: bool, t: Tables)
    requires IdsBelow(db) && Refs(db) && MayReindex(db, d, v, reset)
    requires HeadersAfter(db, d, v, items, t) && ChunkTableAfter(db, d, v, items, reset, t)
    requires EmbeddingTableAfter(cfg, db, d, v, items, reset, t)
    ensures Refs(t)
  {
    hide IdsBelow, DocumentRefs, VersionRefs, ChunkRefs, EmbeddingRefs;
    hide SameKey, HeadersAfter, ChunkTableAfter, EmbeddingTableAfter;
    ReindexedKeys(db, d, v, items, t);
    forall a, b | SameKey(t, a, b)
      ensures a == b
    {
      ReindexSameKey(db, d, v, items, t, a, b);
    }
    forall x | x in t.documents
      ensures DocumentRefs(t, x)
    {
      ReindexDocumentRefs(db, d, v, items, reset, t, x);
    }
    forall w | w in t.versions
      ensures VersionRefs(t, w)
    {
      ReindexVersionRefs(db, d, v, items, reset, t, w);
    }
    forall c | c in t.chunks
      ensures ChunkRefs(t, c)
    {
      ReindexChunkRefs(db, d, v, items, reset, t, c);
    }
    forall e | e in t.embeddings
      ensures EmbeddingRefs(t, e)
    {
      ReindexEmbeddingRefs(db, d, v, cfg, items, reset, t, e);
    }
  }

  lemma ReindexNumbers(db: Tables, d: Id, v: Id, items: seq<Chunk>, reset: bool, t: Tables)
    requires Numbered(db) && MayReindex(db, d, v, reset) && HeadersAfter(db, d, v, items, t)
    ensures Numbered(t)
    ensures t.documents[d].latest == db.documents[d].latest
  {
    assert NumberInRange(db, v);
    forall w, x, n
      ensures IsVersion(t, w, x, n) <==> IsVersion(db, w, x, n)
    {
    }
    forall w | w in t.versions
      ensures NumberInRange(t, w)
    {
      assert NumberInRange(db, w);
    }
    forall x, n | x in t.documents && 1 <= n <= t.documents[x].latest
      ensures HasVersion(t, x, n)
    {
      assert HasVersion(db, x, n);
      var w :| IsVersion(db, w, x, n);
      assert IsVersion(t, w, x, n);
    }
  }

  lemma ReindexVersionDeletion(db: Tables, d: Id, v: Id, items: seq<Chunk>, reset: bool, t: Tables, w: Id)
    requires MayReindex(db, d, v, reset) && HeadersAfter(db, d, v, items, t)
    requires t.documents[d].latest == db.documents[d].latest
    requires w in db.versions && VersionDeletion(db, w)
    ensures w in t.versions && VersionDeletion(t, w) && t.versions[w].deleted == db.versions[w].deleted
  {
  }

  lemma ReindexChunkDeletion(db: Tables, d: Id, v: Id, items: seq<Chunk>, reset: bool, t: Tables, c: Id)
    requires MayReindex(db, d, v, reset) && HeadersAfter(db, d, v, items, t)
    requires ChunkTableAfter(db, d, v, items, reset, t)
    requires c in t.chunks && (c in db.chunks ==> ChunkDeletion(db, c))
    ensures ChunkDeletion(t, c)
  {
  }

  lemma ReindexEmbeddingDeletion(db: Tables, d: Id, v: Id, cfg: Config, items: seq<Chunk>, reset: bool, t: Tables,
                                 e: Id)
    requires MayReindex(db, d, v, reset) && HeadersAfter(db, d, v, items, t)
    requires ChunkTableAfter(db, d, v, items, reset, t)
    requires EmbeddingTableAfter(cfg, db, d, v, items, reset, t) && IdsBelow(db)
    requires e in t.embeddings && (e in db.embeddings ==> EmbeddingDeletion(db, e))
    ensures EmbeddingDeletion(t, e)
  {
    if e < db.nextId {
      var c := db.embeddings[e].chunk;
      assert c in t.chunks && t.chunks[c] == db.chunks[c];
    } else {
      var k := e - (db.nextId + |items|);
      assert t.embeddings[e] == EmbeddingAt(cfg, db, d, items, k);
      assert t.chunks[db.nextId + k].version == v;
    }
  }

  lemma ReindexDeletions(db: Tables, d: Id, v: Id, cfg: Config, items: seq<Chunk>, reset: bool, t: Tables)
    requires IdsBelow(db) && Numbered(db) && Deletions(db) && MayReindex(db, d, v, reset)
    requires HeadersAfter(db, d, v, items, t) && ChunkTableAfter(db, d, v, items, reset, t)
    requires EmbeddingTableAfter(cfg, db, d, v, items, reset, t)
    ensures Deletions(t)
  {
    ReindexNumbers(db, d, v, items, reset, t);
    ReindexedKeys(db, d, v, items, t);
    hide IdsBelow, Numbered, VersionDeletion, ChunkDeletion, EmbeddingDeletion;
    hide HeadersAfter, ChunkTableAfter, EmbeddingTableAfter, MayReindex;
    forall w | w in t.versions
      ensures VersionDeletion(t, w)
    {
      ReindexVersionDeletion(db, d, v, items, reset, t, w);
    }
    forall c | c in t.chunks
      ensures ChunkDeletion(t, c)
    {
      ReindexChunkDeletion(db, d, v, items, reset, t, c);
    }
    forall e | e in t.embeddings
      ensures EmbeddingDeletion(t, e)
    {
      ReindexEmbeddingDeletion(db, d, v, cfg, items, reset, t, e);
    }
  }

  // The rows of every other version are untouched.
  lemma ReindexOtherRows(db: Tables, d: Id, v: Id, items: seq<Chunk>, reset: bool, t: Tables, w: Id, rows: seq<Chunk>)
    requires ChunkTableAfter(db, d, v, items, reset, t) && IdsBelow(db) && w != v && RowsAre(db, w, rows)
    ensures RowsAre(t, w, rows)
  {
    forall c | c in t.chunks && t.chunks[c].version == w
      ensures c in db.chunks && t.chunks[c] == db.chunks[c]
    {
      assert c < db.nextId;
    }
    forall k | 0 <= k < |rows|
      ensures HasRow(t, w, rows[k])
    {
      assert HasRow(db, w, rows[k]);
      var c :| IsRow(db, c, w, rows[k]);
      assert IsRow(t, c, w, rows[k]);
    }
    forall b, c | b in t.chunks && c in t.chunks && SameIndex(t, w, b, c)
      ensures b == c
    {
      assert SameIndex(db, w, b, c);
    }
  }

  lemma ChunksRise(cfg: Config, text: string)
    ensures IndicesRise(Chunks(cfg, text), 0)
  {
    IndicesAlwaysRise(Paragraphs(text), 0, 0, cfg.chunkSize, cfg.chunkOverlap);
  }

  // The rows of the indexed version are the items, one for one.
  lemma ReindexTheseRows(db: Tables, d: Id, v: Id, items: seq<Chunk>, reset: bool, t: Tables)
    requires ChunkTableAfter(db, d, v, items, reset, t) && IndicesRise(items, 0)
    requires reset || forall c :: c in db.chunks ==> db.chunks[c].version != v
    ensures RowsAre(t, v, items)
  {
    forall c | c in t.chunks && t.chunks[c].version == v
      ensures db.nextId <= c < db.nextId + |items| && t.chunks[c].item == items[c - db.nextId]
    {
    }
    forall k | 0 <= k < |items|
      ensures HasRow(t, v, items[k])
    {
      assert IsRow(t, db.nextId + k, v, items[k]);
    }
    forall b, c | b in t.chunks && c in t.chunks && SameIndex(t, v, b, c)
      ensures b == c
    {
      assert t.chunks[b].item == items[b - db.nextId] && t.chunks[c].item == items[c - db.nextId];
    }
  }

  lemma ReindexVersion(cfg: Config, db: Tables, d: Id, v: Id, items: seq<Chunk>, reset: bool, t: Tables, w: Id)
    requires IdsBelow(db) && MayReindex(db, d, v, reset) && HeadersAfter(db, d, v, items, t)
    requires ChunkTableAfter(db, d, v, items, reset, t) && items == Chunks(cfg, db.versions[v].text)
    requires w in db.versions && VersionIndexed(cfg, db, w)
    ensures w in t.versions && VersionIndexed(cfg, t, w)
  {
    if w == v {
      ChunksRise(cfg, db.versions[v].text);
      hide Chunks, IndicesRise, ChunkTableAfter;
      assert !db.versions[v].indexed ==> forall c :: c in db.chunks ==> db.chunks[c].version != v;
      ReindexTheseRows(db, d, v, items, reset, t);
      assert ExpectedItems(cfg, t, v) == items;
    } else {
      hide Chunks, ChunkTableAfter;
      ReindexOtherRows(db, d, v, items, reset, t, w, ExpectedItems(cfg, db, w));
      assert ExpectedItems(cfg, t, w) == ExpectedItems(cfg, db, w);
    }
  }

  lemma ReindexVector(db: Tables, d: Id, v: Id, cfg: Config, items: seq<Chunk>, reset: bool, t: Tables, e: Id)
    requires d in db.documents && IdsBelow(db) && ChunkTableAfter(db, d, v, items, reset, t)
    requires EmbeddingTableAfter(cfg, db, d, v, items, reset, t)
    requires e in t.embeddings && (e in db.embeddings ==> VectorOk(cfg, db, e))
    ensures VectorOk(cfg, t, e)
    ensures if e < db.nextId then e in db.embeddings && t.embeddings[e] == db.embeddings[e]
      && t.embeddings[e].chunk < db.nextId
            else t.embeddings[e].chunk == e - |items| && e >= db.nextId + |items|
  {
    if e < db.nextId {
      var c := db.embeddings[e].chunk;
      assert c in t.chunks && t.chunks[c] == db.chunks[c];
    } else {
      var k := e - (db.nextId + |items|);
      assert t.embeddings[e] == EmbeddingAt(cfg, db, d, items, k);
      assert t.chunks[db.nextId + k].item == items[k];
    }
  }

  lemma ReindexHasEmbedding(db: Tables, d: Id, v: Id, cfg: Config, items: seq<Chunk>, reset: bool, t: Tables, c: Id)
    requires d in db.documents && IdsBelow(db) && ChunkTableAfter(db, d, v, items, reset, t)
    requires EmbeddingTableAfter(cfg, db, d, v, items, reset, t)
    requires c in t.chunks && (c in db.chunks ==> HasEmbedding(db, c))
    ensures HasEmbedding(t, c)
  {
    if c < db.nextId {
      var e :| IsEmbeddingOf(db, e, c);
      assert !EmbedsVersion(db, e, v) || !reset;
      assert IsEmbeddingOf(t, e, c);
    } else {
      var e := c + |items|;
      assert t.embeddings[e] == EmbeddingAt(cfg, db, d, items, c - db.nextId);
      assert IsEmbeddingOf(t, e, c);
    }
  }

  lemma ReindexEmbedded(db: Tables, d: Id, v: Id, cfg: Config, items: seq<Chunk>, reset: bool, t: Tables)
    requires d in db.documents && IdsBelow(db) && ChunkTableAfter(db, d, v, items, reset, t)
    requires EmbeddingTableAfter(cfg, db, d, v, items, reset, t) && Embedded(cfg, db)
    ensures Embedded(cfg, t)
  {
    hide IdsBelow, ChunkTableAfter, EmbeddingTableAfter, VectorOk, HasEmbedding;
    forall c | c in t.chunks
      ensures HasEmbedding(t, c)
    {
      ReindexHasEmbedding(db, d, v, cfg, items, reset, t, c);
    }
    forall e | e in t.embeddings
      ensures VectorOk(cfg, t, e)
    {
      ReindexVector(db, d, v, cfg, items, reset, t, e);
    }
    forall e: Id, f: Id, c: Id | IsEmbeddingOf(t, e, c) && IsEmbeddingOf(t, f, c)
      ensures e == f
    {
      ReindexVector(db, d, v, cfg, items, reset, t, e);
      ReindexVector(db, d, v, cfg, items, reset, t, f);
      if c < db.nextId {
        assert IsEmbeddingOf(db, e, c) && IsEmbeddingOf(db, f, c);
      }
    }
  }

  lemma ReindexedHeaders(cfg: Config, db: Tables, d: Id, v: Id, items: seq<Chunk>, reset: bool)
    requires d in db.documents && v in db.versions
    ensures HeadersAfter(db, d, v, items, Reindexed(cfg, db, d, v, items, reset))
  {
    hide NewChunks, NewEmbeddings, ChunksWithout, EmbeddingsWithout;
  }

  // Indexing, and reindexing, keeps the invariant, however often a version is processed.
  lemma ReindexKeepsInv(cfg: Config, db: Tables, d: Id, v: Id, items: seq<Chunk>, reset: bool)
    requires Inv(cfg, db) && MayReindex(db, d, v, reset)
    requires items == Chunks(cfg, db.versions[v].text)
    ensures Inv(cfg, Reindexed(cfg, db, d, v, items, reset))
  {
    hide Reindexed, Chunks, IdsBelow, Refs, Numbered, Deletions;
    hide Embedded, HeadersAfter, ChunkTableAfter, EmbeddingTableAfter, VersionIndexed;
    var t := Reindexed(cfg, db, d, v, items, reset);
    ReindexedHeaders(cfg, db, d, v, items, reset);
    ReindexedKeys(db, d, v, items, t);
    ReindexedChunks(cfg, db, d, v, items, reset);
    ReindexedEmbeddings(cfg, db, d, v, items, reset);
    ReindexIds(db, d, v, cfg, items, reset, t);
    ReindexRefs(db, d, v, cfg, items, reset, t);
    ReindexNumbers(db, d, v, items, reset, t);
    ReindexDeletions(db, d, v, cfg, items, reset, t);
    ReindexEmbedded(db, d, v, cfg, items, reset, t);
    forall w | w in t.versions
      ensures VersionIndexed(cfg, t, w)
    {
      ReindexVersion(cfg, db, d, v, items, reset, t, w);
    }
  }

  // ---------- Storing an upload ----------

  // The conditions under which an upload is stored: the base is the organization's, and `existing` is
  // the document with the upload's key, if there is one.
  ghost predicate MayStore(db: Tables, org: Id, kb: Id, p: Upload, existing: Option<Id>) {
    && kb in db.bases && db.bases[kb].org == org
    && existing == ByDocumentKey(db, kb, BuildDocumentKey(p, db.nextId))
  }

  ghost predicate IsTarget(db: Tables, kb: Id, p: Upload, existing: Option<Id>) {
    var key := BuildDocumentKey(p, db.nextId);
    match existing
    case Some(d) => d in db.documents && db.documents[d].kb == kb && db.documents[d].key == key
    case None => forall d :: d in db.documents ==> db.documents[d].kb != kb || db.documents[d].key != key
  }

  lemma LookupFindsTarget(db: Tables, org: Id, kb: Id, p: Upload, existing: Option<Id>)
    requires MayStore(db, org, kb, p, existing)
    ensures IsTarget(db, kb, p, existing)
  {
  }

  // With unique keys the lookup can find only one document.
  lemma TargetIsLookup(db: Tables, org: Id, kb: Id, p: Upload, existing: Option<Id>)
    requires kb in db.bases && db.bases[kb].org == org && IsTarget(db, kb, p, existing)
    requires forall d, e :: SameKey(db, d, e) ==> d == e
    ensures existing == ByDocumentKey(db, kb, BuildDocumentKey(p, db.nextId))
  {
    var found := ByDocumentKey(db, kb, BuildDocumentKey(p, db.nextId));
    if existing.Some? {
      assert found.Some?;
      assert SameKey(db, found.value, existing.value);
    }
  }

  function WithoutFlag(version: Version, d: Id): Version {
    if version.document == d then version.(isCurrent := false) else version
  }

  // The tables after storing, header by header.
  ghost predicate IsStored(db: Tables, org: Id, kb: Id, p: Upload, text: string, existing: Option<Id>, t: Tables)
    requires existing.Some? ==> existing.value in db.documents
  {
    var d, v := TargetDocument(db, existing), db.nextId + 1;
    var document := StoredDocument(db, org, kb, p, text, existing);
    && t.bases == db.bases && t.chunks == db.chunks && t.embeddings == db.embeddings
    && t.nextId == db.nextId + 2
    && t.documents == db.documents[d := document]
    && t.versions.Keys == db.versions.Keys + {v}
    && t.versions[v] == Version(org, d, document.latest, text, true, false, 0, false)
    && (forall w :: w in db.versions && w != v ==> t.versions[w] == WithoutFlag(db.versions[w], d))
  }

  lemma StoredTables(db: Tables, org: Id, kb: Id, p: Upload, text: string, existing: Option<Id>)
    requires existing.Some? ==> existing.value in db.documents
    ensures IsStored(db, org, kb, p, text, existing, StoreUpload(db, org, kb, p, text, existing))
  {
  }

  lemma StoreDocumentRefs(db: Tables, org: Id, kb: Id, p: Upload, text: string, existing: Option<Id>, t: Tables, x: Id)
    requires IdsBelow(db) && kb in db.bases && db.bases[kb].org == org && IsTarget(db, kb, p, existing)
    requires IsStored(db, org, kb, p, text, existing, t)
    requires x in t.documents && (x in db.documents ==> DocumentRefs(db, x))
    ensures DocumentRefs(t, x)
  {
    hide BuildChecksum;
  }

  lemma StoreSameKey(db: Tables, org: Id, kb: Id, p: Upload, text: string, existing: Option<Id>, t: Tables, a: Id,
                     b: Id)
    requires IdsBelow(db) && IsTarget(db, kb, p, existing) && IsStored(db, org, kb, p, text, existing, t)
    requires SameKey(t, a, b)
    ensures a == b || SameKey(db, a, b)
  {
    hide BuildChecksum, BuildDocumentKey;
  }

  lemma StoreVersionRefs(db: Tables, org: Id, kb: Id, p: Upload, text: string, existing: Option<Id>, t: Tables, w: Id)
    requires IdsBelow(db) && IsTarget(db, kb, p, existing) && IsStored(db, org, kb, p, text, existing, t)
    requires forall d :: d in db.documents ==> DocumentRefs(db, d)
    requires kb in db.bases && db.bases[kb].org == org
    requires w in t.versions && (w in db.versions ==> VersionRefs(db, w))
    ensures VersionRefs(t, w)
  {
    hide BuildChecksum, BuildDocumentKey;
    if existing.Some? {
      assert DocumentRefs(db, existing.value);
    }
  }

  lemma StoreRowRefs(db: Tables, org: Id, kb: Id, p: Upload, text: string, existing: Option<Id>, t: Tables)
    requires IdsBelow(db) && IsTarget(db, kb, p, existing) && IsStored(db, org, kb, p, text, existing, t)
    ensures forall c :: c in db.chunks && ChunkRefs(db, c) ==> ChunkRefs(t, c)
    ensures forall e :: e in db.embeddings && EmbeddingRefs(db, e) ==> EmbeddingRefs(t, e)
    ensures forall c :: c in db.chunks && ChunkDeletion(db, c) ==> ChunkDeletion(t, c)
    ensures forall e :: e in db.embeddings && EmbeddingDeletion(db, e) ==> EmbeddingDeletion(t, e)
  {
    hide BuildChecksum, BuildDocumentKey;
  }

  lemma StoreRefs(db: Tables, org: Id, kb: Id, p: Upload, text: string, existing: Option<Id>, t: Tables)
    requires IdsBelow(db) && Refs(db) && kb in db.bases && db.bases[kb].org == org
    requires IsTarget(db, kb, p, existing) && IsStored(db, org, kb, p, text, existing, t)
    ensures Refs(t)
  {
    assert t.versions.Keys == db.versions.Keys + {db.nextId + 1};
    assert t.chunks == db.chunks && t.embeddings == db.embeddings;
    hide IdsBelow, IsTarget, DocumentRefs, VersionRefs, ChunkRefs, EmbeddingRefs, SameKey, IsStored;
    StoreRowRefs(db, org, kb, p, text, existing, t);
    forall a, b | SameKey(t, a, b)
      ensures a == b
    {
      StoreSameKey(db, org, kb, p, text, existing, t, a, b);
    }
    forall x | x in t.documents
      ensures DocumentRefs(t, x)
    {
      StoreDocumentRefs(db, org, kb, p, text, existing, t, x);
    }
    forall w | w in t.versions
      ensures VersionRefs(t, w)
    {
      StoreVersionRefs(db, org, kb, p, text, existing, t, w);
    }
  }

  // An old version keeps its place, and the new one gets the number after the last.
  lemma StoreIsVersion(db: Tables, org: Id, kb: Id, p: Upload, text: string, existing: Option<Id>, t: Tables, w: Id,
                       x: Id, n: nat)
    requires IdsBelow(db) && IsTarget(db, kb, p, existing) && IsStored(db, org, kb, p, text, existing, t)
    ensures IsVersion(t, w, x, n) <==>
      if w == db.nextId + 1 then x == TargetDocument(db, existing) && n == t.documents[x].latest
      else IsVersion(db, w, x, n)
  {
    hide BuildChecksum, BuildDocumentKey;
  }

  lemma StoreLatest(db: Tables, org: Id, kb: Id, p: Upload, text: string, existing: Option<Id>, t: Tables)
    requires IdsBelow(db) && IsTarget(db, kb, p, existing) && IsStored(db, org, kb, p, text, existing, t)
    ensures var d := TargetDocument(db, existing);
      && d in t.documents && t.documents.Keys == db.documents.Keys + {d}
      && t.documents[d].latest == (if existing.Some? then db.documents[d].latest else 0) + 1
      && (forall x :: x in db.documents && x != d ==> t.documents[x] == db.documents[x])
      && (existing.None? ==> d !in db.documents && d == db.nextId)
  {
    hide BuildChecksum, BuildDocumentKey;
  }

  lemma StoreNumbers(db: Tables, org: Id, kb: Id, p: Upload, text: string, existing: Option<Id>, t: Tables)
    requires IdsBelow(db) && Numbered(db)
    requires IsTarget(db, kb, p, existing) && IsStored(db, org, kb, p, text, existing, t)
    ensures Numbered(t)
  {
    var d, v := TargetDocument(db, existing), db.nextId + 1;
    StoreLatest(db, org, kb, p, text, existing, t);
    assert v in t.versions && t.versions.Keys == db.versions.Keys + {v} && v !in db.versions;
    forall w: Id, x: Id, n: nat {
      StoreIsVersion(db, org, kb, p, text, existing, t, w, x, n);
    }
    assert forall w :: w in t.versions ==> IsVersion(t, w, t.versions[w].document, t.versions[w].number);
    hide IdsBelow, IsTarget, IsStored;
    forall w | w in t.versions
      ensures NumberInRange(t, w)
    {
      if w != v {
        assert NumberInRange(db, w);
      }
    }
    forall a: Id, b: Id, x: Id, n: nat | IsVersion(t, a, x, n) && IsVersion(t, b, x, n)
      ensures a == b
    {
      if a != v {
        assert NumberInRange(db, a);
      }
      if b != v {
        assert NumberInRange(db, b);
      }
    }
    StoreHasVersions(db, t, d, v);
  }

  lemma StoreHasVersions(db: Tables, t: Tables, d: Id, v: Id)
    requires forall x, n :: x in db.documents && 1 <= n <= db.documents[x].latest ==> HasVersion(db, x, n)
    requires d in t.documents && t.documents.Keys == db.documents.Keys + {d}
    requires t.documents[d].latest == (if d in db.documents then db.documents[d].latest else 0) + 1
    requires forall x :: x in db.documents && x != d ==> t.documents[x] == db.documents[x]
    requires v !in db.versions && IsVersion(t, v, d, t.documents[d].latest)
    requires forall w, x, n :: IsVersion(db, w, x, n) ==> IsVersion(t, w, x, n)
    ensures forall x, n :: x in t.documents && 1 <= n <= t.documents[x].latest ==> HasVersion(t, x, n)
  {
    forall x: Id, n: nat | x in t.documents && 1 <= n <= t.documents[x].latest
      ensures HasVersion(t, x, n)
    {
      if !(x == d && n == t.documents[d].latest) {
        assert HasVersion(db, x, n);
        var w :| IsVersion(db, w, x, n);
        assert IsVersion(t, w, x, n);
      }
    }
  }

  lemma StoreVersionDeletion(db: Tables, org: Id, kb: Id, p: Upload, text: string, existing: Option<Id>, t: Tables,
                             w: Id)
    requires IdsBelow(db) && IsTarget(db, kb, p, existing) && IsStored(db, org, kb, p, text, existing, t)
    requires w in t.versions && (w in db.versions ==> VersionDeletion(db, w) && NumberInRange(db, w))
    ensures VersionDeletion(t, w)
  {
    hide BuildChecksum, BuildDocumentKey;
  }

  lemma StoreDeletions(db: Tables, org: Id, kb: Id, p: Upload, text: string, existing: Option<Id>, t: Tables)
    requires IdsBelow(db) && Numbered(db) && Deletions(db)
    requires IsTarget(db, kb, p, existing) && IsStored(db, org, kb, p, text, existing, t)
    ensures Deletions(t)
  {
    assert t.bases == db.bases && t.chunks == db.chunks && t.embeddings == db.embeddings;
    assert t.versions.Keys == db.versions.Keys + {db.nextId + 1};
    hide IdsBelow, IsTarget, VersionDeletion, ChunkDeletion, EmbeddingDeletion, IsStored;
    StoreRowRefs(db, org, kb, p, text, existing, t);
    forall w | w in t.versions
      ensures VersionDeletion(t, w)
    {
      StoreVersionDeletion(db, org, kb, p, text, existing, t, w);
    }
  }

  // Old rows stay as they are, and the new version has none yet.
  lemma StoreRows(cfg: Config, db: Tables, org: Id, kb: Id, p: Upload, text: string, existing: Option<Id>, t: Tables,
                  w: Id)
    requires IdsBelow(db) && IsTarget(db, kb, p, existing) && IsStored(db, org, kb, p, text, existing, t)
    requires forall c :: c in db.chunks ==> ChunkRefs(db, c)
    requires w in t.versions && (w in db.versions ==> VersionIndexed(cfg, db, w))
    ensures VersionIndexed(cfg, t, w)
  {
    hide BuildChecksum, BuildDocumentKey, Chunks;
    if w in db.versions {
      assert ExpectedItems(cfg, t, w) == ExpectedItems(cfg, db, w);
      SameChunksSameRows(db, t, w, ExpectedItems(cfg, db, w));
    } else {
      assert forall c :: c in t.chunks ==> t.chunks[c].version != w;
    }
  }

  lemma SameChunksSameRows(db: Tables, t: Tables, w: Id, items: seq<Chunk>)
    requires t.chunks == db.chunks && RowsAre(db, w, items)
    ensures RowsAre(t, w, items)
  {
    forall k | 0 <= k < |items|
      ensures HasRow(t, w, items[k])
    {
      assert HasRow(db, w, items[k]);
      var c :| IsRow(db, c, w, items[k]);
      assert IsRow(t, c, w, items[k]);
    }
    assert forall b, c :: b in t.chunks && c in t.chunks && SameIndex(t, w, b, c) ==> SameIndex(db, w, b, c);
  }

  lemma SameRowsEmbedded(cfg: Config, db: Tables, t: Tables)
    requires t.chunks == db.chunks && t.embeddings == db.embeddings && Embedded(cfg, db)
    ensures Embedded(cfg, t)
  {
    forall c | c in t.chunks
      ensures HasEmbedding(t, c)
    {
      assert HasEmbedding(db, c);
      var e :| IsEmbeddingOf(db, e, c);
      assert IsEmbeddingOf(t, e, c);
    }
    assert forall e, c :: IsEmbeddingOf(t, e, c) ==> IsEmbeddingOf(db, e, c);
    assert forall e :: e in t.embeddings ==> VectorOk(cfg, db, e) ==> VectorOk(cfg, t, e);
  }

  lemma StoreIds(db: Tables, org: Id, kb: Id, p: Upload, text: string, existing: Option<Id>, t: Tables)
    requires IdsBelow(db) && IsTarget(db, kb, p, existing) && IsStored(db, org, kb, p, text, existing, t)
    ensures IdsBelow(t) && t.versions.Keys == db.versions.Keys + {db.nextId + 1}
    ensures t.chunks == db.chunks && t.embeddings == db.embeddings
    ensures MayReindex(t, TargetDocument(db, existing), db.nextId + 1, false)
  {
    hide BuildDocumentKey, BuildChecksum;
  }

  // Storing an upload keeps the invariant, and leaves a version that is ready to be indexed.
  lemma StoreKeepsInv(cfg: Config, db: Tables, org: Id, kb: Id, p: Upload, text: string, existing: Option<Id>)
    requires Inv(cfg, db) && MayStore(db, org, kb, p, existing)
    ensures existing.Some? ==> existing.value in db.documents
    ensures Inv(cfg, StoreUpload(db, org, kb, p, text, existing))
    ensures MayReindex(StoreUpload(db, org, kb, p, text, existing), TargetDocument(db, existing), db.nextId + 1, false)
  {
    LookupFindsTarget(db, org, kb, p, existing);
    StoredTables(db, org, kb, p, text, existing);
    assert existing.Some? ==> existing.value in db.documents;
    hide StoreUpload, IdsBelow, Refs, Numbered, Deletions, Embedded, VersionIndexed, IsTarget, IsStored, MayReindex;
    var t := StoreUpload(db, org, kb, p, text, existing);
    StoreIds(db, org, kb, p, text, existing, t);
    StoreRefs(db, org, kb, p, text, existing, t);
    StoreNumbers(db, org, kb, p, text, existing, t);
    StoreDeletions(db, org, kb, p, text, existing, t);
    SameRowsEmbedded(cfg, db, t);
    ChunksRefer(db);
    forall w | w in t.versions
      ensures VersionIndexed(cfg, t, w)
    {
      StoreRows(cfg, db, org, kb, p, text, existing, t, w);
    }
  }

  lemma ChunksRefer(db: Tables)
    requires Refs(db)
    ensures forall c :: c in db.chunks ==> ChunkRefs(db, c)
  {
  }

  // ---------- Deleting a document ----------

  function MarkedVersion(version: Version, d: Id): Version {
    if version.document == d then version.(deleted := true, isCurrent := false) else version
  }

  function MarkedChunk(chunk: ChunkRow, d: Id): ChunkRow {
    if chunk.document == d then chunk.(deleted := true) else chunk
  }

  function MarkedEmbedding(db: Tables, e: Id, d: Id): EmbeddingRow
    requires e in db.embeddings
  {
    if EmbedsDocument(db, e, d) then db.embeddings[e].(deleted := true) else db.embeddings[e]
  }

  // Marking rows leaves every key and every reference in place; only the flags of document d change.
  ghost predicate IsMarked(db: Tables, d: Id, t: Tables)
    requires d in db.documents
  {
    && t.bases == db.bases && t.nextId == db.nextId
    && t.documents == db.documents[d := db.documents[d].(deleted := true)]
    && t.versions.Keys == db.versions.Keys && t.chunks.Keys == db.chunks.Keys && t.embeddings.Keys == db.embeddings.Keys
    && (forall v :: v in db.versions ==> t.versions[v] == MarkedVersion(db.versions[v], d))
    && (forall c :: c in db.chunks ==> t.chunks[c] == MarkedChunk(db.chunks[c], d))
    && (forall e :: e in db.embeddings ==> t.embeddings[e] == MarkedEmbedding(db, e, d))
  }

  lemma DeletedTables(db: Tables, d: Id)
    requires d in db.documents
    ensures IsMarked(db, d, Deleted(db, d))
  {
  }

  lemma DeletedKeys(db: Tables, d: Id, t: Tables)
    requires d in db.documents && IsMarked(db, d, t)
    ensures t.documents.Keys == db.documents.Keys && t.versions.Keys == db.versions.Keys
    ensures t.chunks.Keys == db.chunks.Keys && t.embeddings.Keys == db.embeddings.Keys
    ensures t.bases == db.bases && t.nextId == db.nextId
  {
  }

  lemma DeleteDocumentRefs(db: Tables, d: Id, t: Tables, x: Id)
    requires d in db.documents && IsMarked(db, d, t) && x in db.documents && DocumentRefs(db, x)
    ensures DocumentRefs(t, x)
  {
  }

  lemma DeleteSameKey(db: Tables, d: Id, t: Tables, a: Id, b: Id)
    requires d in db.documents && IsMarked(db, d, t) && SameKey(t, a, b)
    ensures SameKey(db, a, b)
  {
  }

  lemma DeleteVersion(db: Tables, d: Id, t: Tables, w: Id)
    requires d in db.documents && IsMarked(db, d, t) && w in db.versions && VersionRefs(db, w)
    ensures VersionRefs(t, w)
    ensures VersionDeletion(db, w) ==> VersionDeletion(t, w)
  {
  }

  lemma DeleteChunk(db: Tables, d: Id, t: Tables, c: Id)
    requires d in db.documents && IsMarked(db, d, t) && c in db.chunks && ChunkRefs(db, c)
    ensures ChunkRefs(t, c)
    ensures ChunkDeletion(db, c) ==> ChunkDeletion(t, c)
  {
  }

  lemma DeleteEmbedding(db: Tables, d: Id, t: Tables, e: Id)
    requires d in db.documents && IsMarked(db, d, t) && e in db.embeddings && EmbeddingRefs(db, e)
    requires forall c :: c in db.chunks ==> ChunkRefs(db, c)
    ensures EmbeddingRefs(t, e)
    ensures EmbeddingDeletion(db, e) ==> EmbeddingDeletion(t, e)
  {
    assert ChunkRefs(db, db.embeddings[e].chunk);
  }

  lemma DeleteRefs(db: Tables, d: Id, t: Tables)
    requires IdsBelow(db) && Refs(db) && Deletions(db) && d in db.documents && IsMarked(db, d, t)
    ensures IdsBelow(t) && Refs(t) && Deletions(t)
  {
    hide DocumentRefs, VersionRefs, ChunkRefs, EmbeddingRefs, SameKey;
    hide VersionDeletion, ChunkDeletion, EmbeddingDeletion, IsMarked;
    DeletedKeys(db, d, t);
    assert IdsBelow(t);
    hide IdsBelow;
    forall x | x in t.documents
      ensures DocumentRefs(t, x)
    {
      DeleteDocumentRefs(db, d, t, x);
    }
    forall a, b | SameKey(t, a, b)
      ensures a == b
    {
      DeleteSameKey(db, d, t, a, b);
    }
    forall w | w in t.versions
      ensures VersionRefs(t, w) && VersionDeletion(t, w)
    {
      DeleteVersion(db, d, t, w);
    }
    forall c | c in t.chunks
      ensures ChunkRefs(t, c) && ChunkDeletion(t, c)
    {
      DeleteChunk(db, d, t, c);
    }
    forall e | e in t.embeddings
      ensures EmbeddingRefs(t, e) && EmbeddingDeletion(t, e)
    {
      DeleteEmbedding(db, d, t, e);
    }
  }

  lemma DeleteNumbers(db: Tables, d: Id, t: Tables)
    requires Numbered(db) && d in db.documents && IsMarked(db, d, t)
    ensures Numbered(t)
  {
    assert forall w, x, n :: IsVersion(t, w, x, n) <==> IsVersion(db, w, x, n);
    forall w | w in t.versions
      ensures NumberInRange(t, w)
    {
      assert NumberInRange(db, w);
    }
    forall x: Id, n: nat | x in t.documents && 1 <= n <= t.documents[x].latest
      ensures HasVersion(t, x, n)
    {
      assert HasVersion(db, x, n);
      var w :| IsVersion(db, w, x, n);
      assert IsVersion(t, w, x, n);
    }
  }

  lemma DeleteRows(cfg: Config, db: Tables, d: Id, t: Tables, w: Id)
    requires d in db.documents && IsMarked(db, d, t) && w in db.versions && VersionIndexed(cfg, db, w)
    ensures VersionIndexed(cfg, t, w)
  {
    hide Chunks;
    var items := ExpectedItems(cfg, db, w);
    assert ExpectedItems(cfg, t, w) == items;
    forall k | 0 <= k < |items|
      ensures HasRow(t, w, items[k])
    {
      assert HasRow(db, w, items[k]);
      var c :| IsRow(db, c, w, items[k]);
      assert IsRow(t, c, w, items[k]);
    }
    assert forall b, c :: b in t.chunks && c in t.chunks && SameIndex(t, w, b, c) ==> SameIndex(db, w, b, c);
  }

  lemma DeleteEmbedded(cfg: Config, db: Tables, d: Id, t: Tables)
    requires d in db.documents && IsMarked(db, d, t) && Embedded(cfg, db)
    ensures Embedded(cfg, t)
  {
    assert forall e, c :: IsEmbeddingOf(t, e, c) <==> IsEmbeddingOf(db, e, c);
    forall c | c in t.chunks
      ensures HasEmbedding(t, c)
    {
      assert HasEmbedding(db, c);
      var e :| IsEmbeddingOf(db, e, c);
      assert IsEmbeddingOf(t, e, c);
    }
    forall e | e in t.embeddings
      ensures VectorOk(cfg, t, e)
    {
      assert VectorOk(cfg, db, e);
    }
  }

  lemma DeleteKeepsInv(cfg: Config, db: Tables, d: Id)
    requires Inv(cfg, db) && d in db.documents
    ensures Inv(cfg, Deleted(db, d))
  {
    DeletedTables(db, d);
    hide Deleted, IdsBelow, Refs, Numbered, Deletions, Embedded, VersionIndexed, IsMarked;
    var t := Deleted(db, d);
    DeleteRefs(db, d, t);
    DeleteNumbers(db, d, t);
    DeleteEmbedded(cfg, db, d, t);
    DeletedKeys(db, d, t);
    forall w | w in t.versions
      ensures VersionIndexed(cfg, t, w)
    {
      DeleteRows(cfg, db, d, t, w);
    }
  }

  // ---------- Creating a knowledge base ----------

  // Only the base table grows; nothing else looks at a base other than its own.
  ghost predicate OnlyBasesGrow(db: Tables, t: Tables) {
    && t.documents == db.documents && t.versions == db.versions
    && t.chunks == db.chunks && t.embeddings == db.embeddings
    && t.nextId >= db.nextId
    && (forall b :: b in db.bases ==> b in t.bases && t.bases[b] == db.bases[b])
    && (forall b :: b in t.bases ==> b < t.nextId && !t.bases[b].deleted)
  }

  lemma CreateGrowsBases(cfg: Config, db: Tables, org: Id, name: string)
    requires Inv(cfg, db)
    ensures OnlyBasesGrow(db, CreateBase(db, org, name).0)
  {
    hide Refs, Numbered, Indexed;
  }

  lemma CreateRefs(db: Tables, t: Tables)
    requires IdsBelow(db) && Refs(db) && OnlyBasesGrow(db, t)
    ensures IdsBelow(t) && Refs(t)
  {
    assert forall x :: x in t.documents ==> DocumentRefs(db, x) ==> DocumentRefs(t, x);
    assert forall a, b :: SameKey(t, a, b) ==> SameKey(db, a, b);
    assert forall w :: w in t.versions ==> VersionRefs(db, w) ==> VersionRefs(t, w);
    assert forall c :: c in t.chunks ==> ChunkRefs(db, c) ==> ChunkRefs(t, c);
    assert forall e :: e in t.embeddings ==> EmbeddingRefs(db, e) ==> EmbeddingRefs(t, e);
  }

  lemma CreateDeletions(db: Tables, t: Tables)
    requires Deletions(db) && OnlyBasesGrow(db, t)
    ensures Deletions(t)
  {
    assert forall w :: w in t.versions ==> VersionDeletion(db, w) ==> VersionDeletion(t, w);
    assert forall c :: c in t.chunks ==> ChunkDeletion(db, c) ==> ChunkDeletion(t, c);
    assert forall e :: e in t.embeddings ==> EmbeddingDeletion(db, e) ==> EmbeddingDeletion(t, e);
  }

  lemma CreateNumbers(db: Tables, t: Tables)
    requires Numbered(db) && t.documents == db.documents && t.versions == db.versions
    ensures Numbered(t)
  {
    assert forall w, x, n :: IsVersion(t, w, x, n) <==> IsVersion(db, w, x, n);
    forall w | w in t.versions
      ensures NumberInRange(t, w)
    {
      assert NumberInRange(db, w);
    }
    forall x: Id, n: nat | x in t.documents && 1 <= n <= t.documents[x].latest
      ensures HasVersion(t, x, n)
    {
      assert HasVersion(db, x, n);
      var w :| IsVersion(db, w, x, n);
      assert IsVersion(t, w, x, n);
    }
  }

  lemma CreateVersionRows(cfg: Config, db: Tables, t: Tables, w: Id)
    requires w in db.versions && t.versions == db.versions && t.chunks == db.chunks && VersionIndexed(cfg, db, w)
    ensures VersionIndexed(cfg, t, w)
  {
    hide Chunks, RowsAre;
    assert ExpectedItems(cfg, t, w) == ExpectedItems(cfg, db, w);
    SameChunksSameRows(db, t, w, ExpectedItems(cfg, db, w));
  }

  lemma CreateKeepsInv(cfg: Config, db: Tables, org: Id, name: string)
    requires Inv(cfg, db)
    ensures Inv(cfg, CreateBase(db, org, name).0)
  {
    CreateGrowsBases(cfg, db, org, name);
    hide CreateBase, IdsBelow, Refs, Numbered, Deletions, Embedded, VersionIndexed;
    var t := CreateBase(db, org, name).0;
    CreateRefs(db, t);
    CreateDeletions(db, t);
    CreateNumbers(db, t);
    SameRowsEmbedded(cfg, db, t);
    forall w | w in t.versions
      ensures VersionIndexed(cfg, t, w)
    {
      CreateVersionRows(cfg, db, t, w);
    }
  }

  // ---------- Every service call ----------

  lemma EmptyInv(cfg: Config)
    ensures Inv(cfg, EMPTY.db)
  {
    hide Chunks;
  }

  lemma ProcessKeepsInv(cfg: Config, s: State, d: Id, v: Id, reset: bool)
    requires Inv(cfg, s.db) && MayReindex(s.db, d, v, reset)
    ensures Inv(cfg, ProcessVersion(cfg, s, d, v, reset).db)
  {
    hide Inv, Chunks, Reindexed;
    ReindexKeepsInv(cfg, s.db, d, v, Chunks(cfg, s.db.versions[v].text), reset);
  }

  lemma UploadKeepsInv(cfg: Config, s: State, org: Id, kb: Id, p: Upload)
    requires Inv(cfg, s.db)
    ensures Inv(cfg, UploadDocument(cfg, s, org, kb, p).0.db)
  {
    hide Inv, StoreUpload, ProcessVersion, ByDocumentKey, BuildDocumentKey, MayReindex, IsUnchangedUpload, Strip;
    var text := Strip(cfg.parse(p));
    var existing := ByDocumentKey(s.db, kb, BuildDocumentKey(p, s.db.nextId));
    if UploadRefusal(cfg, s.db, org, kb, p).None? && !IsUnchangedUpload(s.db, kb, p, text) {
      StoreKeepsInv(cfg, s.db, org, kb, p, text, existing);
      if p.inline {
        var stored := s.(db := StoreUpload(s.db, org, kb, p, text, existing));
        ProcessKeepsInv(cfg, stored, TargetDocument(s.db, existing), s.db.nextId + 1, false);
      }
    }
  }

  lemma CurrentMayReindex(cfg: Config, db: Tables, d: Id)
    requires Inv(cfg, db) && d in db.documents
    ensures MayReindex(db, d, db.documents[d].current, true)
  {
    assert DocumentRefs(db, d);
  }

  lemma IngestibleMayReindex(cfg: Config, db: Tables, v: Id)
    requires Inv(cfg, db) && v in db.versions
    ensures MayReindex(db, db.versions[v].document, v, true)
    ensures HasDocument(db, db.versions[v].org, db.versions[v].document)
  {
    assert VersionRefs(db, v);
  }

  lemma IngestKeepsInv(cfg: Config, s: State, v: Id)
    requires Inv(cfg, s.db)
    ensures Inv(cfg, IngestPendingVersion(cfg, s, v).db)
  {
    if Ingestible(s.db, v) {
      IngestibleMayReindex(cfg, s.db, v);
      hide Inv, ProcessVersion, MayReindex;
      ProcessKeepsInv(cfg, s, s.db.versions[v].document, v, true);
    }
  }

  // Every service call keeps the invariant.
  lemma StepKeepsInv(cfg: Config, s: State, ev: Event, at: int, t: State)
    requires Inv(cfg, s.db) && Next(cfg, s, ev, at, t)
    ensures Inv(cfg, t.db)
  {
    hide Inv, CreateBase, UploadDocument, Deleted, ProcessVersion, IngestPendingVersion, Fresh;
    match ev
    case Create(org, name) => CreateKeepsInv(cfg, s.db, org, name);
    case Store(org, kb, upload) => UploadKeepsInv(cfg, s, org, kb, upload);
    case Delete(org, d) =>
      if HasDocument(s.db, org, d) {
        DeleteKeepsInv(cfg, s.db, d);
      }
    case Reindex(org, d) =>
      if HasDocument(s.db, org, d) {
        CurrentMayReindex(cfg, s.db, d);
        ProcessKeepsInv(cfg, s, d, s.db.documents[d].current, true);
      }
    case Ingest(v) => IngestKeepsInv(cfg, s, v);
    case Job =>
      if s.queue != [] {
        IngestKeepsInv(cfg, s.(queue := s.queue[..|s.queue| - 1]), NextJob(s));
      }
    case Search(key, results) =>
  }

  // The invariant holds in every reachable state.
  lemma {:induction false} ReachableInv(cfg: Config, run: Run, n: nat)
    requires IsRun(cfg, run) && n < |run.states|
    ensures Inv(cfg, run.states[n].db)
    decreases n
  {
    hide Inv, Next;
    if n == 0 {
      EmptyInv(cfg);
    } else {
      ReachableInv(cfg, run, n - 1);
      StepKeepsInv(cfg, run.states[n - 1], run.events[n - 1], run.times[n - 1], run.states[n]);
    }
  }
}
