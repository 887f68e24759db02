// The knowledge service itself: its tables and its Redis keys are fields that the methods update in
// place.  Each method is proved to do what KnowledgeModel says of the call.
module KnowledgeServices {
  import opened Common
  import opened Text
  import opened Chunking
  import opened Ranking
  import opened KnowledgeModel
  import opened KnowledgeInvariants
  import opened KnowledgeQueue

  class KnowledgeService {
    const cfg: Config
    var bases: map<Id, KnowledgeBase>
    var documents: map<Id, Document>
    var versions: map<Id, Version>
    var chunks: map<Id, ChunkRow>
    var embeddings: map<Id, EmbeddingRow>
    var nextId: Id
    var queue: seq<Id>
    var cache: map<CacheKey, CacheEntry>

    function Db(): Tables
      reads this
    {
      Tables(bases, documents, versions, chunks, embeddings, nextId)
    }

    ghost function View(): State
      reads this
    {
      State(Db(), queue, cache)
    }

    ghost predicate Valid()
      reads this
    {
      ConfigOk(cfg) && Inv(cfg, Db()) && (!cfg.hasRedis ==> queue == [] && cache == map[])
    }

    constructor (cfg: Config)
      requires ConfigOk(cfg)
      ensures Valid() && this.cfg == cfg && View() == EMPTY
    {
      this.cfg := cfg;
      bases, documents, versions, chunks, embeddings := map[], map[], map[], map[], map[];
      nextId, queue, cache := 0, [], map[];
      new;
      EmptyInv(cfg);
    }

    // ---------- Repository operations ----------

    method GetByDocumentKey(kb: Id, key: DocumentKey) returns (found: Option<Id>)
      ensures match found
        case Some(d) => d in documents && documents[d].kb == kb && documents[d].key == key
        case None => forall d :: d in documents ==> documents[d].kb != kb || documents[d].key != key
    {
      if d :| d in documents && documents[d].kb == kb && documents[d].key == key {
        found := Some(d);
      } else {
        found := None;
      }
    }

    // for previous_version in list_by_document(d): previous_version.is_current = False
    method ClearCurrentFlags(d: Id)
      modifies this`versions
      ensures versions == ClearCurrent(old(versions), d)
    {
      var todo: set<Id> := set v | v in versions && versions[v].document == d;
      while todo != {}
        invariant versions.Keys == old(versions).Keys
        invariant forall v :: v in todo ==> v in versions && old(versions)[v].document == d
        invariant forall v :: v in todo ==> versions[v] == old(versions)[v]
        invariant forall v :: v in versions && v !in todo ==> versions[v] == WithoutFlag(old(versions)[v], d)
        decreases |todo|
      {
        var v: Id :| v in todo;
        versions := versions[v := versions[v].(isCurrent := false)];
        todo := todo - {v};
      }
    }

    // EmbeddingRepository.upsert: the row of that chunk is updated in place, or a new row is added.
    method UpsertEmbedding(row: EmbeddingRow) returns (id: Id)
      modifies this`embeddings, this`nextId
      ensures if id in old(embeddings) && old(embeddings)[id].chunk == row.chunk then
                embeddings == old(embeddings)[id := old(embeddings)[id].(vector := row.vector, deleted := row.deleted)]
                && nextId == old(nextId)
              else
                id == old(nextId) && embeddings == old(embeddings)[id := row] && nextId == old(nextId) + 1
                && (forall e :: e in old(embeddings) ==> old(embeddings)[e].chunk != row.chunk)
    {
      if e :| e in embeddings && embeddings[e].chunk == row.chunk {
        id := e;
        embeddings := embeddings[e := embeddings[e].(vector := row.vector, deleted := row.deleted)];
      } else {
        id := nextId;
        embeddings := embeddings[id := row];
        nextId := nextId + 1;
      }
    }

    // ---------- Indexing ----------

    method CreateChunks(d: Id, v: Id, items: seq<Chunk>) returns (created: seq<Id>)
      requires forall c :: c in chunks ==> c < nextId
      modifies this`chunks, this`nextId
      ensures chunks == old(chunks) + NewChunks(items, |items|, old(nextId), d, v)
      ensures nextId == old(nextId) + |items| && |created| == |items|
      ensures forall k :: 0 <= k < |items| ==> created[k] == old(nextId) + k
    {
      created := [];
      ghost var first := nextId;
      NoNewChunks(old(chunks), items, first, d, v);
      hide NewChunks;
      for k := 0 to |items|
        invariant nextId == first + k && |created| == k && forall j :: 0 <= j < k ==> created[j] == first + j
        invariant chunks == old(chunks) + NewChunks(items, k, first, d, v)
      {
        OneMoreChunk(old(chunks), items, k, first, d, v);
        chunks := chunks[nextId := ChunkRow(d, v, items[k], false)];
        created := created + [nextId];
        nextId := nextId + 1;
      }
    }

    method EmbedChunks(d: Id, created: seq<Id>, ghost items: seq<Chunk>, ghost first: Id)
      requires d in documents && |created| == |items| && nextId == first + |items|
      requires forall k :: 0 <= k < |items| ==>
        created[k] == first + k && created[k] in chunks && chunks[created[k]].item == items[k]
      requires forall e :: e in embeddings ==> embeddings[e].chunk < first && e < first
      modifies this`embeddings, this`nextId
      ensures embeddings == old(embeddings) + NewEmbeddings(cfg, items, |items|, first, d, documents[d].kb)
      ensures nextId == old(nextId) + |items|
    {
      hide *;
      ghost var kb := documents[d].kb;
      NoNewEmbeddings(cfg, old(embeddings), items, first, d, kb);
      for k := 0 to |created|
        invariant nextId == first + |items| + k
        invariant embeddings == old(embeddings) + NewEmbeddings(cfg, items, k, first, d, kb)
      {
        var chunk := created[k];
        NoEmbeddingYet(cfg, old(embeddings), items, k, first, d, kb);
        OneMoreEmbedding(cfg, old(embeddings), items, k, first, d, kb);
        var _ := UpsertEmbedding(EmbeddingRow(chunk, d, documents[d].kb, cfg.embed(chunks[chunk].item.text), false));
      }
    }

    // DELETE of the embeddings of the version's chunks, then of the chunks.
    method DeleteRowsOfVersion(v: Id)
      modifies this`chunks, this`embeddings
      ensures embeddings == EmbeddingsWithout(old(Db()), v)
      ensures chunks == ChunksWithout(old(Db()), v)
    {
      embeddings := map e | e in embeddings
        && !(embeddings[e].chunk in chunks && chunks[embeddings[e].chunk].version == v)
        :: embeddings[e];
      chunks := map c | c in chunks && chunks[c].version != v :: chunks[c];
    }

    // Deletes the organization's keys one by one.
    method CacheInvalidate(org: Id)
      modifies this`cache
      ensures cache == Invalidate(old(cache), org)
    {
      var todo := set k | k in cache && k.org == org;
      while todo != {}
        invariant cache.Keys <= old(cache).Keys && forall k :: k in todo ==> k in cache && k.org == org
        invariant forall k :: k in old(cache) && (k.org != org || k in todo) ==> k in cache
        invariant forall k :: k in cache ==> cache[k] == old(cache)[k] && (k.org != org || k in todo)
        decreases |todo|
      {
        var k :| k in todo;
        cache := cache - {k};
        todo := todo - {k};
      }
    }

    // The row changes of _process_version: the old rows go if asked, the new ones are created and embedded.
    method ReplaceRows(d: Id, v: Id, items: seq<Chunk>, reset: bool)
      requires d in documents && IdsBelow(Db())
      requires forall e :: e in embeddings ==> embeddings[e].chunk < nextId
      modifies this`chunks, this`embeddings, this`nextId
      ensures chunks == (if reset then ChunksWithout(old(Db()), v) else old(chunks))
                        + NewChunks(items, |items|, old(nextId), d, v)
      ensures embeddings == (if reset then EmbeddingsWithout(old(Db()), v) else old(embeddings))
                            + NewEmbeddings(cfg, items, |items|, old(nextId), d, documents[d].kb)
      ensures nextId == old(nextId) + 2 * |items|
    {
      hide IdsBelow, ChunksWithout, EmbeddingsWithout, NewChunks, NewEmbeddings;
      ghost var first, before := nextId, Db();
      KeptRowsBelow(before, v);
      if reset {
        DeleteRowsOfVersion(v);
      }
      assert forall c :: c in chunks ==> c < first;
      assert forall e :: e in embeddings ==> embeddings[e].chunk < first && e < first;
      var created := CreateChunks(d, v, items);
      NewChunksAt(items, first, d, v);
      EmbedChunks(d, created, items, first);
    }

    method ProcessVersion(d: Id, v: Id, reset: bool)
      requires Valid() && MayReindex(Db(), d, v, reset)
      modifies this
      ensures Valid() && View() == KnowledgeModel.ProcessVersion(cfg, old(View()), d, v, reset)
    {
      hide Inv, MayReindex, NewChunks, NewEmbeddings, ChunksWithout, EmbeddingsWithout;
      hide Chunks, ChunksOf, Reindexed, IdsBelow, ConfigOk;
      ghost var before := Db();
      InvFacts(cfg, before);
      MayReindexRows(before, d, v, reset);
      var items := ChunkText(versions[v].text, cfg.chunkSize, cfg.chunkOverlap);
      ChunksAre(cfg, versions[v].text, items);
      ReplaceRows(d, v, items, reset);
      versions := versions[v := versions[v].(chunkCount := |items|, isCurrent := true, indexed := true)];
      documents := documents[d := documents[d].(current := v, latest := Max(documents[d].latest, versions[v].number))];
      CacheInvalidate(documents[d].org);
      ReindexedIs(cfg, before, d, v, items, reset, Db());
      ReindexKeepsInv(cfg, before, d, v, items, reset);
    }

    // ---------- The service calls ----------

    method CreateKnowledgeBase(org: Id, name: string) returns (reply: Reply)
      requires Valid()
      modifies this
      ensures Valid()
      ensures View() == old(View()).(db := CreateBase(old(Db()), org, name).0)
      ensures reply == CreateBase(old(Db()), org, name).1
    {
      hide Inv, ConfigOk;
      ghost var before := Db();
      CreateKeepsInv(cfg, before, org, name);
      BasesLive(cfg, before);
      if b :| b in bases && bases[b].org == org && bases[b].name == name {
        reply := Conflict;
      } else {
        reply := Done(nextId);
        bases := bases[nextId := KnowledgeBase(org, name, false)];
        nextId := nextId + 1;
      }
    }

    // The rows written by upload_document before indexing.
    method StoreRows(org: Id, kb: Id, p: Upload, text: string, existing: Option<Id>) returns (d: Id, v: Id)
      requires existing.Some? ==> existing.value in documents
      modifies this`documents, this`versions, this`nextId
      ensures Db() == StoreUpload(old(Db()), org, kb, p, text, existing)
      ensures d == TargetDocument(old(Db()), existing) && v == old(nextId) + 1
    {
      hide BuildDocumentKey, BuildChecksum, ClearCurrent;
      match existing {
        case None =>
          d := nextId;
          documents := documents[d := Document(org, kb, BuildDocumentKey(p, nextId), p.sourceType,
              BuildChecksum(text, p), 1, nextId + 1, false)];
        case Some(x) =>
          d := x;
          var document := documents[d].(deleted := false, checksum := BuildChecksum(text, p),
              sourceType := p.sourceType);
          documents := documents[d := document.(latest := document.latest + 1)];
      }
      v := nextId + 1;
      nextId := nextId + 2;
      ClearCurrentFlags(d);
      versions := versions[v := Version(org, d, documents[d].latest, text, true, false, 0, false)];
      documents := documents[d := documents[d].(current := v)];
    }

    method EnqueueIndexJob(v: Id)
      modifies this`queue
      ensures View() == Enqueue(cfg, old(View()), v)
    {
      if cfg.hasRedis {
        queue := [v] + queue;
      }
    }

    method UploadDocument(org: Id, kb: Id, p: Upload) returns (reply: Reply)
      requires Valid()
      modifies this
      ensures Valid()
      ensures (View(), reply) == KnowledgeModel.UploadDocument(cfg, old(View()), org, kb, p)
    {
      hide Inv, ConfigOk, StoreUpload, Reindexed, ByDocumentKey;
      hide BuildDocumentKey, BuildChecksum, Strip, MayReindex, Chunks;
      ghost var before := Db();
      if kb !in bases || bases[kb].org != org {
        return NotFound;
      }
      if bases[kb].deleted {
        return Invalid;
      }
      var text := Strip(cfg.parse(p));
      if text == "" {
        return Invalid;
      }
      var existing := GetByDocumentKey(kb, BuildDocumentKey(p, nextId));
      LookupIs(cfg, before, org, kb, p, existing);
      if existing.Some? && documents[existing.value].checksum == BuildChecksum(text, p)
        && !documents[existing.value].deleted {
        return Done(documents[existing.value].current);
      }
      StoreKeepsInv(cfg, before, org, kb, p, text, existing);
      var d, v := StoreRows(org, kb, p, text, existing);
      if p.inline {
        ProcessVersion(d, v, false);
      } else {
        EnqueueIndexJob(v);
      }
      reply := Done(v);
    }

    // The loop over a document's versions in delete_document.
    method MarkVersionsDeleted(d: Id)
      modifies this`versions
      ensures versions == MarkVersions(old(versions), d)
    {
      var todo: set<Id> := set v | v in versions && versions[v].document == d;
      while todo != {}
        invariant versions.Keys == old(versions).Keys
        invariant forall v :: v in todo ==> v in versions && old(versions)[v].document == d
        invariant forall v :: v in todo ==> versions[v] == old(versions)[v]
        invariant forall v :: v in versions && v !in todo ==> versions[v] == MarkedVersion(old(versions)[v], d)
        decreases |todo|
      {
        var v: Id :| v in todo;
        versions := versions[v := versions[v].(deleted := true, isCurrent := false)];
        todo := todo - {v};
      }
    }

    // One chunk, and its embedding if it has one.
    method MarkChunkDeleted(c: Id)
      requires c in chunks
      modifies this`chunks, this`embeddings
      ensures chunks == old(chunks)[c := old(chunks)[c].(deleted := true)]
      ensures embeddings.Keys == old(embeddings).Keys
      ensures AtMostOne(old(embeddings), c) ==>
        forall e :: e in embeddings ==> embeddings[e] == MarkedIf(old(embeddings)[e], old(embeddings)[e].chunk == c)
    {
      chunks := chunks[c := chunks[c].(deleted := true)];
      if e :| e in embeddings && embeddings[e].chunk == c {
        embeddings := embeddings[e := embeddings[e].(deleted := true)];
      }
    }

    // The loop over a document's chunks.
    method MarkRowsDeleted(d: Id)
      requires forall e, f ::
        e in embeddings && f in embeddings && embeddings[e].chunk == embeddings[f].chunk ==> e == f
      modifies this`chunks, this`embeddings
      ensures chunks == MarkChunks(old(chunks), d)
      ensures embeddings == MarkEmbeddings(old(Db()), d)
    {
      hide MarkedSoFar, MarkEmbeddings;
      ghost var before := Db();
      var todo: set<Id> := set c | c in chunks && chunks[c].document == d;
      NoneMarked(before, d, todo);
      while todo != {}
        invariant chunks.Keys == before.chunks.Keys && embeddings.Keys == before.embeddings.Keys
        invariant forall c :: c in todo ==>
          c in before.chunks && before.chunks[c].document == d && chunks[c] == before.chunks[c]
        invariant forall c :: c in chunks && c !in todo ==> chunks[c] == MarkedChunk(before.chunks[c], d)
        invariant forall e :: e in embeddings ==> embeddings[e] == MarkedSoFar(before, e, d, todo)
        decreases |todo|
      {
        var c: Id :| c in todo;
        SameChunkFields(before, embeddings, d, todo);
        ghost var now := embeddings;
        MarkChunkDeleted(c);
        MarkedOneMore(before, now, embeddings, d, todo, c);
        todo := todo - {c};
      }
      AllMarked(before, embeddings, d);
    }

    method DeleteDocument(org: Id, d: Id) returns (reply: Reply)
      requires Valid()
      modifies this
      ensures Valid()
      ensures (View(), reply) == KnowledgeModel.DeleteDocument(old(View()), org, d)
    {
      hide Inv, ConfigOk, MarkVersions, MarkChunks, MarkEmbeddings;
      ghost var before := Db();
      if d !in documents || documents[d].org != org {
        return NotFound;
      }
      OneEmbeddingPerChunk(cfg, before);
      DeleteKeepsInv(cfg, before, d);
      documents := documents[d := documents[d].(deleted := true)];
      MarkVersionsDeleted(d);
      SameRowsSameMarks(before, Db(), d);
      MarkRowsDeleted(d);
      reply := Done(d);
    }

    method ReindexDocument(org: Id, d: Id) returns (reply: Reply)
      requires Valid()
      modifies this
      ensures Valid()
      ensures (View(), reply) == KnowledgeModel.ReindexDocument(cfg, old(View()), org, d)
    {
      hide Inv, ConfigOk, Reindexed, Chunks, MayReindex;
      if d !in documents || documents[d].org != org {
        return NotFound;
      }
      var v := documents[d].current;
      if v !in versions {
        return NotFound;
      }
      CurrentMayReindex(cfg, Db(), d);
      ProcessVersion(d, v, true);
      reply := Done(v);
    }

    method IngestPendingVersion(v: Id)
      requires Valid()
      modifies this
      ensures Valid() && View() == KnowledgeModel.IngestPendingVersion(cfg, old(View()), v)
    {
      hide Inv, ConfigOk, Reindexed, Chunks, MayReindex;
      if v !in versions || versions[v].deleted {
        return;
      }
      // The lookup of the version's document cannot fail.
      IngestibleMayReindex(cfg, Db(), v);
      ProcessVersion(versions[v].document, v, true);
    }

    // Takes up to `limit` jobs, oldest first, and ingests each.
    method ProcessBackgroundJobs(limit: int) returns (processed: int)
      requires Valid()
      modifies this
      ensures Valid() && View() == Drain(cfg, old(View()), if limit < 0 then 0 else limit)
      ensures processed == Min(if limit < 0 then 0 else limit, |old(queue)|)
      ensures processed + |queue| == |old(queue)|
    {
      hide Inv, ConfigOk, Reindexed, Chunks, KnowledgeModel.IngestPendingVersion;
      ghost var room := if limit < 0 then 0 else limit;
      DrainTakesOldest(cfg, View(), room);
      processed := 0;
      if !cfg.hasRedis {
        return;
      }
      while processed < limit && queue != []
        invariant 0 <= processed <= room && Valid()
        invariant Drain(cfg, View(), room - processed) == Drain(cfg, old(View()), room)
        invariant processed + |queue| == |old(queue)|
        decreases room - processed
      {
        ghost var s := View();
        var v := queue[|queue| - 1];
        queue := queue[..|queue| - 1];
        IngestKeepsQueue(cfg, View(), v);
        IngestPendingVersion(v);
        assert View() == RunJob(cfg, s);
        processed := processed + 1;
      }
    }

    // ---------- Search ----------

    // The scoring loop over the rows of the query, which the database returns in any order.  The dimension
    // check raises no error for any of them.
    method ScoreRows(key: CacheKey) returns (scored: seq<Hit>)
      requires Valid()
      ensures Distinct(scored) && Elements(scored) == Rows(cfg, Db(), key)
      ensures ScoresDefined(cfg, Db(), key.request.query)
    {
      hide Inv, ConfigOk, RowScore, HitsAt, Distinct, Elements, ScoresDefined, Rows, VisibleRows, HitOf;
      DimensionsMatch(cfg, Db(), key.request.query);
      OneEmbeddingPerChunk(cfg, Db());
      scored := [];
      var todo := VisibleRows(Db(), key);
      ghost var done: set<Id> := {};
      NothingScored(cfg, Db(), key);
      while todo != {}
        invariant done !! todo && done + todo == VisibleRows(Db(), key)
        invariant Distinct(scored) && Elements(scored) == HitsAt(cfg, Db(), done, key)
        decreases |todo|
      {
        var e: Id :| e in todo;
        VisibleChunk(Db(), key);
        ScoreOne(cfg, Db(), done, e, key, scored);
        scored := scored + [HitOf(cfg, Db(), e, key)];
        todo, done := todo - {e}, done + {e};
      }
      RowsAreHits(cfg, Db(), key);
    }

    // A search answers from the cache while the entry lives; otherwise it ranks the rows and caches the answer.
    method Search(org: Id, kind: Kind, request: Request, now: int) returns (results: seq<Hit>, cacheHit: bool)
      requires Valid()
      modifies this`cache
      ensures Valid()
      ensures Next(cfg, old(View()), Event.Search(CacheKey(org, kind, request), results), now, View())
      ensures cacheHit <==> CacheGet(cfg, old(View()), CacheKey(org, kind, request), now).Some?
      ensures cfg.hasRedis ==> CacheGet(cfg, View(), CacheKey(org, kind, request), now) == Some(results)
    {
      assert cfg.cacheSeconds >= 1;
      hide Inv, ConfigOk, Rows, SortByScore, IsTopK;
      var key := CacheKey(org, kind, request);
      if cfg.hasRedis && key in cache && now < cache[key].expires {
        return cache[key].results, true;
      }
      var scored := ScoreRows(key);
      results := Top(SortByScore(scored), request.topK);
      TopOfSortIsTopK(scored, request.topK);
      cacheHit := false;
      if cfg.hasRedis {
        cache := cache[key := CacheEntry(results, now + cfg.cacheSeconds)];
      }
    }
  }

  // The chunk has no two embeddings.
  ghost predicate AtMostOne(embeddings: map<Id, EmbeddingRow>, c: Id) {
    forall e, f ::
      e in embeddings && f in embeddings && embeddings[e].chunk == c && embeddings[f].chunk == c ==> e == f
  }

  function MarkedIf(row: EmbeddingRow, mark: bool): EmbeddingRow {
    if mark then row.(deleted := true) else row
  }

  function MarkedSoFar(db: Tables, e: Id, d: Id, todo: set<Id>): EmbeddingRow
    requires e in db.embeddings
  {
    if db.embeddings[e].chunk in todo then db.embeddings[e] else MarkedEmbedding(db, e, d)
  }

  lemma SameChunkFields(db: Tables, now: map<Id, EmbeddingRow>, d: Id, todo: set<Id>)
    requires now.Keys == db.embeddings.Keys && forall e :: e in now ==> now[e] == MarkedSoFar(db, e, d, todo)
    ensures forall e :: e in now ==> now[e].chunk == db.embeddings[e].chunk
  {
  }

  lemma MarkedOneMore(db: Tables, now: map<Id, EmbeddingRow>, next: map<Id, EmbeddingRow>, d: Id, todo: set<Id>, c: Id)
    requires now.Keys == db.embeddings.Keys && next.Keys == now.Keys
    requires forall e :: e in now ==> now[e] == MarkedSoFar(db, e, d, todo)
    requires forall e :: e in next ==> next[e] == MarkedIf(now[e], now[e].chunk == c)
    requires c in todo && c in db.chunks && db.chunks[c].document == d
    ensures forall e :: e in next ==> next[e] == MarkedSoFar(db, e, d, todo - {c})
  {
  }

  lemma NoneMarked(db: Tables, d: Id, todo: set<Id>)
    requires forall c :: c in db.chunks && db.chunks[c].document == d ==> c in todo
    ensures forall e :: e in db.embeddings ==> db.embeddings[e] == MarkedSoFar(db, e, d, todo)
  {
  }

  lemma AllMarked(db: Tables, now: map<Id, EmbeddingRow>, d: Id)
    requires now.Keys == db.embeddings.Keys && forall e :: e in now ==> now[e] == MarkedSoFar(db, e, d, {})
    ensures now == MarkEmbeddings(db, d)
  {
  }

  lemma SameRowsSameMarks(db: Tables, t: Tables, d: Id)
    requires t.chunks == db.chunks && t.embeddings == db.embeddings
    ensures MarkEmbeddings(t, d) == MarkEmbeddings(db, d)
  {
  }

  // The ids of the rows the search query returns.
  function VisibleRows(db: Tables, key: CacheKey): set<Id> {
    set e | e in db.embeddings && Visible(db, e, key)
  }

  ghost function HitsAt(cfg: Config, db: Tables, ids: set<Id>, key: CacheKey): set<Hit>
    requires ids <= VisibleRows(db, key)
  {
    set e | e in ids :: HitOf(cfg, db, e, key)
  }

  lemma NothingScored(cfg: Config, db: Tables, key: CacheKey)
    ensures Distinct([]) && Elements([]) == HitsAt(cfg, db, {}, key)
  {
  }

  lemma RowsAreHits(cfg: Config, db: Tables, key: CacheKey)
    ensures HitsAt(cfg, db, VisibleRows(db, key), key) == Rows(cfg, db, key)
  {
    hide RowScore;
  }

  // Scoring one more row adds one new hit: its chunk is not among those scored before.
  lemma ScoreOne(cfg: Config, db: Tables, done: set<Id>, e: Id, key: CacheKey, scored: seq<Hit>)
    requires done <= VisibleRows(db, key) && e in VisibleRows(db, key) && e !in done
    requires forall e, f ::
      e in db.embeddings && f in db.embeddings && db.embeddings[e].chunk == db.embeddings[f].chunk ==> e == f
    requires Distinct(scored) && Elements(scored) == HitsAt(cfg, db, done, key)
    ensures Distinct(scored + [HitOf(cfg, db, e, key)])
    ensures Elements(scored + [HitOf(cfg, db, e, key)]) == HitsAt(cfg, db, done + {e}, key)
  {
    hide RowScore, Visible;
    VisibleChunk(db, key);
    var hit := HitOf(cfg, db, e, key);
    assert hit !in HitsAt(cfg, db, done, key);
    InElements(hit, scored);
    Snoc(scored, hit);
    assert HitsAt(cfg, db, done + {e}, key) == HitsAt(cfg, db, done, key) + {hit};
  }

  lemma VisibleChunk(db: Tables, key: CacheKey)
    ensures forall e :: e in VisibleRows(db, key) ==> e in db.embeddings && db.embeddings[e].chunk in db.chunks
  {
  }

  lemma Snoc(hits: seq<Hit>, h: Hit)
    requires Distinct(hits) && h !in hits
    ensures Distinct(hits + [h]) && Elements(hits + [h]) == Elements(hits) + {h}
  {
  }

  lemma BasesLive(cfg: Config, db: Tables)
    requires Inv(cfg, db)
    ensures forall b :: b in db.bases ==> !db.bases[b].deleted
  {
  }

  // Every stored vector can be compared with the query's.
  ghost predicate ScoresDefined(cfg: Config, db: Tables, query: string) {
    forall e :: e in db.embeddings ==> VectorScore(cfg, query, db.embeddings[e].vector).Score?
  }

  lemma DimensionsMatch(cfg: Config, db: Tables, query: string)
    requires Inv(cfg, db) && ConfigOk(cfg)
    ensures ScoresDefined(cfg, db, query)
  {
    hide Refs, Numbered, Deletions, IdsBelow, VersionIndexed;
    forall e | e in db.embeddings
      ensures VectorScore(cfg, query, db.embeddings[e].vector).Score?
    {
      assert VectorOk(cfg, db, e);
      assert |cfg.embed(query)| == cfg.dimensions;
    }
  }

  lemma OneEmbeddingPerChunk(cfg: Config, db: Tables)
    requires Inv(cfg, db)
    ensures forall e, f ::
      e in db.embeddings && f in db.embeddings && db.embeddings[e].chunk == db.embeddings[f].chunk ==> e == f
  {
    hide Refs, Numbered, Deletions, IdsBelow, VersionIndexed;
    forall e, f | e in db.embeddings && f in db.embeddings && db.embeddings[e].chunk == db.embeddings[f].chunk
      ensures e == f
    {
      assert IsEmbeddingOf(db, e, db.embeddings[e].chunk) && IsEmbeddingOf(db, f, db.embeddings[e].chunk);
    }
  }

  // What the query returned is what the model's lookup finds.
  lemma LookupIs(cfg: Config, db: Tables, org: Id, kb: Id, p: Upload, existing: Option<Id>)
    requires Inv(cfg, db) && kb in db.bases && db.bases[kb].org == org && IsTarget(db, kb, p, existing)
    ensures existing == ByDocumentKey(db, kb, BuildDocumentKey(p, db.nextId))
    ensures MayStore(db, org, kb, p, existing)
  {
    hide Numbered, Deletions, Indexed, IdsBelow;
    TargetIsLookup(db, org, kb, p, existing);
  }

  lemma ChunksAre(cfg: Config, text: string, items: seq<Chunk>)
    requires items == ChunksOf(text, cfg.chunkSize, cfg.chunkOverlap)
    ensures items == Chunks(cfg, text)
  {
  }

  lemma ReindexedIs(cfg: Config, db: Tables, d: Id, v: Id, items: seq<Chunk>, reset: bool, t: Tables)
    requires d in db.documents && v in db.versions
    requires t.chunks == (if reset then ChunksWithout(db, v) else db.chunks) + NewChunks(items, |items|, db.nextId,
        d, v)
    requires t.embeddings == (if reset then EmbeddingsWithout(db, v) else db.embeddings)
                             + NewEmbeddings(cfg, items, |items|, db.nextId, d, db.documents[d].kb)
    requires HeadersAfter(db, d, v, items, t)
    ensures t == Reindexed(cfg, db, d, v, items, reset)
  {
    hide NewChunks, NewEmbeddings, ChunksWithout, EmbeddingsWithout;
  }

  lemma KeptRowsBelow(db: Tables, v: Id)
    requires IdsBelow(db) && forall e :: e in db.embeddings ==> db.embeddings[e].chunk < db.nextId
    ensures forall c :: c in db.chunks ==> c < db.nextId
    ensures forall c :: c in ChunksWithout(db, v) ==> c < db.nextId
    ensures forall e :: e in db.embeddings ==> e < db.nextId
    ensures forall e :: e in EmbeddingsWithout(db, v) ==> e < db.nextId && EmbeddingsWithout(db, v)[e].chunk < db.nextId
  {
  }

  lemma NoNewChunks(before: map<Id, ChunkRow>, items: seq<Chunk>, first: Id, d: Id, v: Id)
    ensures before + NewChunks(items, 0, first, d, v) == before
  {
  }

  lemma NoNewEmbeddings(cfg: Config, before: map<Id, EmbeddingRow>, items: seq<Chunk>, first: Id, d: Id, kb: Id)
    ensures before + NewEmbeddings(cfg, items, 0, first, d, kb) == before
  {
  }

  lemma OneMoreChunk(before: map<Id, ChunkRow>, items: seq<Chunk>, k: nat, first: Id, d: Id, v: Id)
    requires k < |items|
    ensures before + NewChunks(items, k + 1, first, d, v)
         == (before + NewChunks(items, k, first, d, v))[first + k := ChunkRow(d, v, items[k], false)]
  {
  }

  lemma OneMoreEmbedding(cfg: Config, before: map<Id, EmbeddingRow>, items: seq<Chunk>, k: nat, first: Id, d: Id,
                         kb: Id)
    requires k < |items|
    ensures before + NewEmbeddings(cfg, items, k + 1, first, d, kb)
         == (before + NewEmbeddings(cfg, items, k, first, d, kb))
            [first + |items| + k := EmbeddingRow(first + k, d, kb, cfg.embed(items[k].text), false)]
  {
  }

  // The chunks embedded so far are the earlier ones, so the next one has no embedding to update.
  lemma NoEmbeddingYet(cfg: Config, before: map<Id, EmbeddingRow>, items: seq<Chunk>, k: nat, first: Id, d: Id, kb: Id)
    requires k < |items| && forall e :: e in before ==> before[e].chunk < first && e < first
    ensures var now := before + NewEmbeddings(cfg, items, k, first, d, kb);
      forall e :: e in now ==> now[e].chunk < first + k
  {
  }

  lemma NewChunksAt(items: seq<Chunk>, first: Id, d: Id, v: Id)
    ensures var rows := NewChunks(items, |items|, first, d, v);
      forall c :: first <= c < first + |items| ==> c in rows && rows[c] == ChunkRow(d, v, items[c - first], false)
  {
  }

  lemma InvFacts(cfg: Config, db: Tables)
    requires Inv(cfg, db)
    ensures IdsBelow(db)
    ensures forall e :: e in db.embeddings ==> db.embeddings[e].chunk in db.chunks && db.embeddings[e].chunk < db.nextId
  {
    hide Numbered, Deletions, Indexed;
    forall e | e in db.embeddings
      ensures db.embeddings[e].chunk in db.chunks
    {
      assert EmbeddingRefs(db, e);
    }
  }

  lemma MayReindexRows(db: Tables, d: Id, v: Id, reset: bool)
    requires MayReindex(db, d, v, reset)
    ensures d in db.documents && v in db.versions
  {
  }
}
