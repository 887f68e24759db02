// What the invariant means for a reader of the index: which rows a search ranks, what they score, and
// in what order the chunks of a version are listed.
module KnowledgeIndex {
  import opened Common
  import opened Chunking
  import opened Similarity
  import opened Ranking
  import opened KnowledgeModel
  import opened KnowledgeInvariants

  // ---------- The index refines the text ----------

  // A listing as list_by_version returns it: all chunk rows of the version, ordered by chunk_index.
  ghost predicate ListsVersion(db: Tables, v: Id, ids: seq<Id>) {
    && (forall i :: 0 <= i < |ids| ==> ids[i] in db.chunks && db.chunks[ids[i]].version == v)
    && (forall c :: c in db.chunks && db.chunks[c].version == v ==> c in ids)
    && (forall i, j :: 0 <= i < j < |ids| ==> db.chunks[ids[i]].item.index < db.chunks[ids[j]].item.index)
  }

  // Two chunk lists with the same elements and rising indices are the same list.
  lemma {:induction false} RisingListsEqual(a: seq<Chunk>, b: seq<Chunk>, from: nat)
    requires IndicesRise(a, from) && IndicesRise(b, from)
    requires forall x :: x in a <==> x in b
    ensures a == b
  {
    if a == [] {
      NoMembers(b);
    } else {
      assert a[0] in b && b[0] in a;
      var i :| 0 <= i < |b| && b[i] == a[0];
      var j :| 0 <= j < |a| && a[j] == b[0];
      assert a[0] == b[0];
      var first := a[0];
      forall x
        ensures x in a[1..] <==> x in b[1..]
      {
        TailMembers(a, from, x);
        TailMembers(b, from, x);
      }
      TailRises(a, from);
      TailRises(b, from);
      RisingListsEqual(a[1..], b[1..], first.index);
      assert a == [first] + a[1..] && b == [first] + b[1..];
    }
  }

  lemma NoMembers(b: seq<Chunk>)
    ensures (forall x :: x !in b) ==> b == []
  {
    if b != [] {
      assert b[0] in b;
    }
  }

  lemma TailRises(a: seq<Chunk>, from: nat)
    requires a != [] && IndicesRise(a, from)
    ensures IndicesRise(a[1..], a[0].index)
  {
  }

  lemma TailMembers(a: seq<Chunk>, from: nat, x: Chunk)
    requires a != [] && IndicesRise(a, from)
    ensures x in a[1..] <==> x in a && x != a[0]
  {
    if x in a && x != a[0] {
      var i :| 0 <= i < |a| && a[i] == x;
      assert a[1..][i - 1] == x;
    }
  }

  function ItemsOf(db: Tables, ids: seq<Id>): seq<Chunk>
    requires forall i :: 0 <= i < |ids| ==> ids[i] in db.chunks
  {
    seq(|ids|, i requires 0 <= i < |ids| => db.chunks[ids[i]].item)
  }

  lemma StoredIsListed(db: Tables, v: Id, ids: seq<Id>, items: seq<Chunk>, x: Chunk)
    requires ListsVersion(db, v, ids) && RowsAre(db, v, items)
    ensures x in ItemsOf(db, ids) <==> x in items
  {
    var stored := ItemsOf(db, ids);
    if x in stored {
      var i :| 0 <= i < |stored| && stored[i] == x;
      assert db.chunks[ids[i]].item in items;
    }
    if x in items {
      var k :| 0 <= k < |items| && items[k] == x;
      assert HasRow(db, v, items[k]);
      var c :| IsRow(db, c, v, items[k]);
      assert c in ids;
      var i :| 0 <= i < |ids| && ids[i] == c;
      assert stored[i] == x;
    }
  }

  lemma ListedRises(db: Tables, v: Id, ids: seq<Id>)
    requires ListsVersion(db, v, ids)
    ensures IndicesRise(ItemsOf(db, ids), 0)
  {
  }

  // Rows of the first k items, in order.
  lemma {:induction false} RowsOfItems(db: Tables, v: Id, items: seq<Chunk>, k: nat) returns (ids: seq<Id>)
    requires RowsAre(db, v, items) && k <= |items|
    ensures |ids| == k && forall i :: 0 <= i < k ==> IsRow(db, ids[i], v, items[i])
  {
    ids := [];
    if k > 0 {
      ids := RowsOfItems(db, v, items, k - 1);
      assert HasRow(db, v, items[k - 1]);
      hide RowsAre;
      var c :| IsRow(db, c, v, items[k - 1]);
      ids := ids + [c];
    }
  }

  lemma RowsAreListed(db: Tables, v: Id, items: seq<Chunk>)
    requires RowsAre(db, v, items) && IndicesRise(items, 0)
    ensures exists ids :: ListsVersion(db, v, ids)
  {
    var ids := RowsOfItems(db, v, items, |items|);
    forall c | c in db.chunks && db.chunks[c].version == v
      ensures c in ids
    {
      var k :| 0 <= k < |items| && items[k] == db.chunks[c].item;
      assert SameIndex(db, v, ids[k], c);
    }
    hide RowsAre;
    assert ListsVersion(db, v, ids);
  }

  // Every version of a reachable state, indexed or not, has a listing.
  lemma EveryVersionIsListed(cfg: Config, run: Run, n: nat, v: Id)
    requires IsRun(cfg, run) && n < |run.states| && v in run.states[n].db.versions
    ensures exists ids :: ListsVersion(run.states[n].db, v, ids)
  {
    ReachableInv(cfg, run, n);
    var db := run.states[n].db;
    ExpectedItemsRise(cfg, db, v);
    hide IsRun, Refs, Numbered, Deletions, IdsBelow, Embedded, RowsAre, ListsVersion, ExpectedItems, IndicesRise;
    assert VersionIndexed(cfg, db, v);
    RowsAreListed(db, v, ExpectedItems(cfg, db, v));
  }

  lemma ExpectedItemsRise(cfg: Config, db: Tables, v: Id)
    requires v in db.versions
    ensures IndicesRise(ExpectedItems(cfg, db, v), 0)
  {
    ChunksRise(cfg, db.versions[v].text);
    hide Chunks;
  }

  // Listing an indexed version gives back the chunker's output on its text, chunk by chunk.
  lemma ListingIsChunkerOutput(cfg: Config, db: Tables, v: Id, ids: seq<Id>)
    requires Inv(cfg, db) && v in db.versions && db.versions[v].indexed && ListsVersion(db, v, ids)
    ensures ItemsOf(db, ids) == Chunks(cfg, db.versions[v].text)
    ensures db.versions[v].chunkCount == |ids|
  {
    ChunksRise(cfg, db.versions[v].text);
    hide Chunks, Refs, Numbered, Deletions, Embedded, RowsAre, IdsBelow, IndicesRise, ListsVersion;
    var items := Chunks(cfg, db.versions[v].text);
    assert VersionIndexed(cfg, db, v);
    ListedRises(db, v, ids);
    forall x
      ensures x in ItemsOf(db, ids) <==> x in items
    {
      StoredIsListed(db, v, ids, items, x);
    }
    RisingListsEqual(ItemsOf(db, ids), items, 0);
  }

  // In every reachable state, however the version got there.
  lemma IndexRefinesText(cfg: Config, run: Run, n: nat, v: Id, ids: seq<Id>)
    requires IsRun(cfg, run) && n < |run.states|
    requires v in run.states[n].db.versions && run.states[n].db.versions[v].indexed
    requires ListsVersion(run.states[n].db, v, ids)
    ensures var db := run.states[n].db;
      && ItemsOf(db, ids) == Chunks(cfg, db.versions[v].text)
      && db.versions[v].chunkCount == |ids|
      && (forall c :: c in ids ==> HasEmbedding(db, c))
      && (forall e :: e in db.embeddings && db.embeddings[e].chunk in ids
            ==> db.embeddings[e].vector == cfg.embed(db.chunks[db.embeddings[e].chunk].item.text))
      && (forall e, f :: e in db.embeddings && f in db.embeddings && db.embeddings[e].chunk == db.embeddings[f].chunk
                         ==> e == f)
  {
    ReachableInv(cfg, run, n);
    ListingIsChunkerOutput(cfg, run.states[n].db, v, ids);
    hide IsRun, Chunks, Refs, Numbered, Deletions, IdsBelow, VersionIndexed;
    var db := run.states[n].db;
    forall e | e in db.embeddings && db.embeddings[e].chunk in ids
      ensures db.embeddings[e].vector == cfg.embed(db.chunks[db.embeddings[e].chunk].item.text)
    {
      assert VectorOk(cfg, db, e);
    }
    forall e, f | e in db.embeddings && f in db.embeddings && db.embeddings[e].chunk == db.embeddings[f].chunk
      ensures e == f
    {
      assert IsEmbeddingOf(db, e, db.embeddings[e].chunk) && IsEmbeddingOf(db, f, db.embeddings[e].chunk);
    }
  }

  // The unique (version, chunk_index) constraint is never violated.
  lemma ChunkIndexUnique(cfg: Config, run: Run, n: nat, b: Id, c: Id)
    requires IsRun(cfg, run) && n < |run.states|
    requires b in run.states[n].db.chunks && c in run.states[n].db.chunks
    requires var db := run.states[n].db;
      db.chunks[b].version == db.chunks[c].version && db.chunks[b].item.index == db.chunks[c].item.index
    ensures b == c
  {
    ReachableInv(cfg, run, n);
    hide IsRun, Chunks, Numbered, Deletions, IdsBelow, Embedded;
    var db := run.states[n].db;
    assert ChunkRefs(db, b);
    var v := db.chunks[b].version;
    assert VersionIndexed(cfg, db, v);
    assert SameIndex(db, v, b, c);
  }

  // ---------- Which rows a search ranks ----------

  ghost predicate PassesFilters(db: Tables, e: Id, key: CacheKey)
    requires e in db.embeddings && db.embeddings[e].document in db.documents
  {
    var r := db.embeddings[e];
    && (key.request.kb.Some? ==> r.kb == key.request.kb.value)
    && (key.request.document.Some? ==> r.document == key.request.document.value)
    && (key.request.sourceType.Some? ==> db.documents[r.document].sourceType == key.request.sourceType.value)
  }

  ghost predicate RowLinks(db: Tables, e: Id)
    requires e in db.embeddings
  {
    var r := db.embeddings[e];
    && r.chunk in db.chunks && r.document in db.documents && r.kb in db.bases
    && db.chunks[r.chunk].version in db.versions
    && db.versions[db.chunks[r.chunk].version].document == r.document
    && db.documents[r.document].kb == r.kb
    && db.bases[r.kb].org == db.documents[r.document].org
    && db.versions[db.chunks[r.chunk].version].org == db.documents[r.document].org
  }

  lemma RowIsLinked(cfg: Config, db: Tables, e: Id)
    requires Refs(db) && e in db.embeddings
    ensures RowLinks(db, e)
  {
    assert EmbeddingRefs(db, e);
    var r := db.embeddings[e];
    assert ChunkRefs(db, r.chunk) && DocumentRefs(db, r.document);
    assert VersionRefs(db, db.chunks[r.chunk].version);
  }

  lemma InvRowIsLinked(cfg: Config, db: Tables, e: Id)
    requires Inv(cfg, db) && e in db.embeddings
    ensures RowLinks(db, e)
    ensures db.chunks[db.embeddings[e].chunk].document == db.embeddings[e].document
  {
    hide Numbered, Deletions, Indexed, IdsBelow;
    RowIsLinked(cfg, db, e);
    assert EmbeddingRefs(db, e);
  }

  // A row is searchable exactly when its version is not deleted: the five deletion flags of the query
  // agree with that one.
  lemma VisibleIffVersionLive(cfg: Config, db: Tables, e: Id, key: CacheKey)
    requires Inv(cfg, db) && e in db.embeddings
    ensures RowLinks(db, e)
    ensures Visible(db, e, key) <==>
      && !db.versions[db.chunks[db.embeddings[e].chunk].version].deleted
      && db.documents[db.embeddings[e].document].org == key.org
      && PassesFilters(db, e, key)
  {
    RowIsLinked(cfg, db, e);
    hide Refs, Numbered, Indexed, IdsBelow;
    var c := db.embeddings[e].chunk;
    assert EmbeddingDeletion(db, e) && ChunkDeletion(db, c) && VersionDeletion(db, db.chunks[c].version);
  }

  // ---------- Scores ----------

  // The service embeds texts with this provider, and norm returns the root of a vector's sum of squares.
  ghost predicate EmbedsWith(cfg: Config, provider: Provider) {
    && IsHash(provider.sha)
    && forall t :: IsEmbedding(cfg.embed(t), provider.sha, Digest(provider, t), cfg.dimensions)
                   && IsRoot(cfg.norm(cfg.embed(t)), SumSquares(cfg.embed(t)))
  }

  // Vectors of the configured dimension, of length one unless that dimension is zero.
  ghost predicate ProviderOk(cfg: Config) {
    forall t :: |cfg.embed(t)| == cfg.dimensions && UnitOrEmpty(cfg.embed(t))
      && IsRoot(cfg.norm(cfg.embed(t)), SumSquares(cfg.embed(t)))
  }

  // What the provider computes from digests has these properties.
  lemma ProviderIsOk(cfg: Config, provider: Provider)
    requires EmbedsWith(cfg, provider)
    ensures ProviderOk(cfg) && (cfg.cacheSeconds >= 1 ==> ConfigOk(cfg))
  {
    hide IsEmbedding, SumSquares, IsRoot;
    forall t
      ensures |cfg.embed(t)| == cfg.dimensions && UnitOrEmpty(cfg.embed(t))
    {
      EmbeddingIsUnit(cfg.embed(t), provider.sha, Digest(provider, t), cfg.dimensions);
    }
  }

  lemma EmbeddedVectorScore(cfg: Config, query: string, text: string)
    requires ProviderOk(cfg)
    ensures VectorScore(cfg, query, cfg.embed(text)).Score?
    ensures -1.0 <= VectorScore(cfg, query, cfg.embed(text)).value <= 1.0
    ensures query == text ==> VectorScore(cfg, query, cfg.embed(text)).value == if cfg.dimensions > 0 then 1.0 else 0.0
  {
    var q, v := cfg.embed(query), cfg.embed(text);
    assert |q| == cfg.dimensions && |v| == cfg.dimensions;
    hide Dot, Square, OrOne;
    CosineBounds(q, v, cfg.norm(q), cfg.norm(v));
    if query == text {
      SelfSimilarityIsOne(q, cfg.norm(q));
    }
  }

  // The dimension check of cosine_similarity never fails on a stored vector.
  lemma DimensionsAgree(cfg: Config, provider: Provider, db: Tables, e: Id, query: string)
    requires Inv(cfg, db) && EmbedsWith(cfg, provider) && e in db.embeddings
    ensures VectorScore(cfg, query, db.embeddings[e].vector).Score?
  {
    ProviderIsOk(cfg, provider);
    hide Refs, Numbered, Deletions, IdsBelow, VersionIndexed, EmbedsWith;
    assert VectorOk(cfg, db, e);
    assert |cfg.embed(query)| == cfg.dimensions;
  }

  // The dimension check never fails, every score is in its range, and a chunk whose text is the query
  // reaches the top of the semantic range.
  lemma RowScoreBounds(cfg: Config, provider: Provider, db: Tables, e: Id, key: CacheKey)
    requires Inv(cfg, db) && EmbedsWith(cfg, provider) && e in db.embeddings
    ensures db.embeddings[e].chunk in db.chunks
    ensures VectorScore(cfg, key.request.query, db.embeddings[e].vector).Score?
    ensures var x := HitOf(cfg, db, e, key).score;
      if key.kind == Semantic then -1.0 <= x <= 1.0 else -0.8 <= x <= 1.0
    ensures var text := db.chunks[db.embeddings[e].chunk].item.text;
      key.kind == Semantic && text == key.request.query && cfg.dimensions > 0 ==> HitOf(cfg, db, e, key).score == 1.0
  {
    hide Refs, Numbered, Deletions, IdsBelow, EmbedsWith, ProviderOk, VersionIndexed;
    ProviderIsOk(cfg, provider);
    assert VectorOk(cfg, db, e);
    var text := db.chunks[db.embeddings[e].chunk].item.text;
    EmbeddedVectorScore(cfg, key.request.query, text);
    hide VectorScore, Terms, LexicalSimilarity;
    var q, t := Terms(key.request.query, cfg.lower), Terms(text, cfg.lower);
    LexicalBounds(q, t);
    HybridBounds(VectorScore(cfg, key.request.query, cfg.embed(text)).value, LexicalSimilarity(q, t));
  }

  // A semantic search that finds a chunk with exactly the query's text answers with a score of 1 first,
  // and nothing in the answer scores higher.
  lemma ExactMatchComesFirst(cfg: Config, provider: Provider, db: Tables, key: CacheKey, results: seq<Hit>, e: Id)
    requires Inv(cfg, db) && EmbedsWith(cfg, provider) && cfg.dimensions > 0
    requires key.kind == Semantic && key.request.topK >= 1 && Fresh(cfg, db, key, results)
    requires e in db.embeddings && Visible(db, e, key)
    requires db.chunks[db.embeddings[e].chunk].item.text == key.request.query
    ensures |results| > 0 && results[0].score == 1.0
    ensures forall i :: 0 <= i < |results| ==> results[i].score <= 1.0
  {
    hide Inv, EmbedsWith, HitOf;
    var rows := Rows(cfg, db, key);
    RowScoreBounds(cfg, provider, db, e, key);
    var best := HitOf(cfg, db, e, key);
    assert best in rows;
    forall h | h in rows
      ensures h.score <= 1.0
    {
      var f :| f in db.embeddings && Visible(db, f, key) && h == HitOf(cfg, db, f, key);
      RowScoreBounds(cfg, provider, db, f, key);
    }
    assert |rows| > 0;
    assert results[0] in Elements(results);
    if best in results {
      var i :| 0 <= i < |results| && results[i] == best;
      assert results[0].score >= best.score;
    }
    forall i | 0 <= i < |results|
      ensures results[i].score <= 1.0
    {
      assert results[i] in Elements(results);
    }
  }
}
