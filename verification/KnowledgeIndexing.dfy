// What the indexing calls achieve: after a reindex, an inline upload, an ingestion or a job the version is
// indexed completely, and with Redis every live version is indexed once the queue is empty.
module KnowledgeIndexing {
  import opened Common
  import opened Text
  import opened Chunking
  import opened Ranking
  import opened KnowledgeModel
  import opened KnowledgeInvariants
  import opened KnowledgeIndex
  import opened KnowledgeViews
  import opened KnowledgeQueue

  // ---------- A completely indexed version ----------

  ghost predicate OneEmbedding(cfg: Config, db: Tables, c: Id)
    requires c in db.chunks
  {
    && (exists e :: IsEmbeddingOf(db, e, c) && db.embeddings[e].vector == cfg.embed(db.chunks[c].item.text))
    && (forall e, f :: IsEmbeddingOf(db, e, c) && IsEmbeddingOf(db, f, c) ==> e == f)
  }

  // Its chunks, listed by index, are the chunker's output on its text, each with one embedding, of its text.
  ghost predicate FullyIndexed(cfg: Config, db: Tables, v: Id) {
    && v in db.versions && db.versions[v].indexed
    && db.versions[v].chunkCount == |Chunks(cfg, db.versions[v].text)|
    && (exists ids :: ListsVersion(db, v, ids))
    && (forall ids :: ListsVersion(db, v, ids) ==> ItemsOf(db, ids) == Chunks(cfg, db.versions[v].text))
    && (forall c :: c in db.chunks && db.chunks[c].version == v ==> OneEmbedding(cfg, db, c))
  }

  lemma ChunkHasOneEmbedding(cfg: Config, db: Tables, c: Id)
    requires Inv(cfg, db) && c in db.chunks
    ensures OneEmbedding(cfg, db, c)
  {
    hide IdsBelow, Refs, Numbered, Deletions, VersionIndexed;
    assert HasEmbedding(db, c);
    var e :| IsEmbeddingOf(db, e, c);
    assert VectorOk(cfg, db, e);
  }

  lemma ExpectedChunks(cfg: Config, db: Tables, v: Id)
    requires Inv(cfg, db) && v in db.versions && db.versions[v].indexed
    ensures RowsAre(db, v, Chunks(cfg, db.versions[v].text))
    ensures db.versions[v].chunkCount == |Chunks(cfg, db.versions[v].text)|
  {
    hide IdsBelow, Refs, Numbered, Deletions, Embedded, RowsAre, Chunks;
    assert VersionIndexed(cfg, db, v);
  }

  lemma IndexedIsFull(cfg: Config, db: Tables, v: Id)
    requires Inv(cfg, db) && v in db.versions && db.versions[v].indexed
    ensures FullyIndexed(cfg, db, v)
  {
    hide Inv, RowsAre, Chunks, ListsVersion, OneEmbedding, IndicesRise;
    ExpectedChunks(cfg, db, v);
    ChunksRise(cfg, db.versions[v].text);
    RowsAreListed(db, v, Chunks(cfg, db.versions[v].text));
    forall ids | ListsVersion(db, v, ids)
      ensures forall i :: 0 <= i < |ids| ==> ids[i] in db.chunks
      ensures ItemsOf(db, ids) == Chunks(cfg, db.versions[v].text)
    {
      ListedExist(db, v, ids);
      ListingIsChunkerOutput(cfg, db, v, ids);
    }
    forall c | c in db.chunks && db.chunks[c].version == v
      ensures OneEmbedding(cfg, db, c)
    {
      ChunkHasOneEmbedding(cfg, db, c);
    }
  }

  lemma ListedExist(db: Tables, v: Id, ids: seq<Id>)
    requires ListsVersion(db, v, ids)
    ensures forall i :: 0 <= i < |ids| ==> ids[i] in db.chunks
  {
  }

  // ---------- What one indexing run achieves ----------

  // The rows of version v are new ones, and the rows of every other version are what they were.
  ghost predicate RowsRebuilt(db: Tables, t: Tables, v: Id) {
    && (forall c :: c in t.chunks && t.chunks[c].version == v ==> c !in db.chunks)
    && (forall c :: SameChunkRow(db, t, v, c))
  }

  // The chunk row is the same in both, unless it is one of version v.
  ghost predicate SameChunkRow(db: Tables, t: Tables, v: Id, c: Id) {
    && (c in t.chunks && t.chunks[c].version != v ==> c in db.chunks && t.chunks[c] == db.chunks[c])
    && (c in db.chunks && db.chunks[c].version != v ==> c in t.chunks && t.chunks[c] == db.chunks[c])
  }

  // Version v of document d has just been indexed: completely, with its text, and as the current version.
  ghost predicate JustIndexed(cfg: Config, db: Tables, t: Tables, d: Id, v: Id) {
    && FullyIndexed(cfg, t, v) && RowsRebuilt(db, t, v)
    && v in db.versions && v in t.versions
    && t.versions[v].text == db.versions[v].text && t.versions[v].number == db.versions[v].number
    && t.versions[v].document == d && t.versions[v].isCurrent && t.versions[v].deleted == db.versions[v].deleted
    && d in t.documents && t.documents[d].current == v
  }

  lemma NoRowsBefore(cfg: Config, db: Tables, v: Id, c: Id)
    requires Inv(cfg, db) && v in db.versions && !db.versions[v].indexed && c in db.chunks
    ensures db.chunks[c].version != v
  {
    hide IdsBelow, Refs, Numbered, Deletions, Embedded;
    assert VersionIndexed(cfg, db, v);
  }

  lemma RebuiltRows(cfg: Config, db: Tables, d: Id, v: Id, items: seq<Chunk>, reset: bool, t: Tables)
    requires Inv(cfg, db) && MayReindex(db, d, v, reset) && ChunkTableAfter(db, d, v, items, reset, t)
    ensures RowsRebuilt(db, t, v)
  {
    InvIdsBelow(cfg, db);
    hide Inv, ChunkTableAfter, IdsBelow, SameChunkRow;
    forall c: Id
      ensures SameChunkRow(db, t, v, c)
      ensures c in t.chunks && t.chunks[c].version == v ==> c !in db.chunks
    {
      if c in db.chunks && !reset {
        assert MayReindex(db, d, v, reset);
        NoRowsBefore(cfg, db, v, c);
      }
      RebuiltRow(db, d, v, items, reset, t, c);
    }
  }

  lemma RebuiltRow(db: Tables, d: Id, v: Id, items: seq<Chunk>, reset: bool, t: Tables, c: Id)
    requires IdsBelow(db) && ChunkTableAfter(db, d, v, items, reset, t)
    requires !reset && c in db.chunks ==> db.chunks[c].version != v
    ensures SameChunkRow(db, t, v, c)
    ensures c in t.chunks && t.chunks[c].version == v ==> c !in db.chunks
  {
  }

  lemma InvIdsBelow(cfg: Config, db: Tables)
    requires Inv(cfg, db)
    ensures IdsBelow(db)
  {
  }

  lemma ProcessIndexes(cfg: Config, s: State, d: Id, v: Id, reset: bool)
    requires Inv(cfg, s.db) && MayReindex(s.db, d, v, reset)
    ensures d in s.db.documents && v in s.db.versions
    ensures JustIndexed(cfg, s.db, ProcessVersion(cfg, s, d, v, reset).db, d, v)
  {
    MayReindexHeaders(s.db, d, v, reset);
    InvIdsBelow(cfg, s.db);
    var items := Chunks(cfg, s.db.versions[v].text);
    hide Inv, Chunks, Reindexed, FullyIndexed, RowsRebuilt, ChunkTableAfter;
    ReindexKeepsInv(cfg, s.db, d, v, items, reset);
    ReindexedHeaders(cfg, s.db, d, v, items, reset);
    ReindexedChunks(cfg, s.db, d, v, items, reset);
    var t := Reindexed(cfg, s.db, d, v, items, reset);
    RebuiltRows(cfg, s.db, d, v, items, reset, t);
    IndexedIsFull(cfg, t, v);
  }

  // ---------- The calls ----------

  // A reindex succeeds exactly for a document of the organization, and then its current version has just been
  // indexed.
  lemma ReindexIndexes(cfg: Config, s: State, org: Id, d: Id)
    requires Inv(cfg, s.db)
    ensures var (t, reply) := ReindexDocument(cfg, s, org, d);
      if d in s.db.documents && s.db.documents[d].org == org then
        reply == Done(s.db.documents[d].current) && JustIndexed(cfg, s.db, t.db, d, reply.id) && t.queue == s.queue
      else t == s && reply == NotFound
  {
    hide Inv, JustIndexed, Chunks, Reindexed, MayReindex;
    if HasDocument(s.db, org, d) {
      CurrentMayReindex(cfg, s.db, d);
      ProcessIndexes(cfg, s, d, s.db.documents[d].current, true);
    }
  }

  // Ingesting a live version indexes it; any other is left alone.
  lemma IngestIndexes(cfg: Config, s: State, v: Id)
    requires Inv(cfg, s.db)
    ensures var t := IngestPendingVersion(cfg, s, v);
      if v in s.db.versions && !s.db.versions[v].deleted then
        JustIndexed(cfg, s.db, t.db, s.db.versions[v].document, v) && t.queue == s.queue
      else t == s
  {
    hide Inv, JustIndexed, Chunks, Reindexed, MayReindex;
    if v in s.db.versions {
      IngestibleIfLive(cfg, s.db, v);
      IngestibleMayReindex(cfg, s.db, v);
      if !s.db.versions[v].deleted {
        ProcessIndexes(cfg, s, s.db.versions[v].document, v, true);
      }
    }
  }

  // A job indexes the version at the end of the list, if it is live, and takes it off the list.
  lemma JobIndexes(cfg: Config, s: State)
    requires Inv(cfg, s.db) && s.queue != []
    ensures var t, v := RunJob(cfg, s), s.queue[|s.queue| - 1];
      && t.queue == s.queue[..|s.queue| - 1]
      && if v in s.db.versions && !s.db.versions[v].deleted then
           JustIndexed(cfg, s.db, t.db, s.db.versions[v].document, v)
         else t.db == s.db
  {
    hide Inv, JustIndexed, IngestPendingVersion;
    IngestIndexes(cfg, s.(queue := s.queue[..|s.queue| - 1]), NextJob(s));
  }

  // The version an upload has stored: its text is the stripped text of the source, it is its document's newest
  // and current version, and it is live.
  ghost predicate IsNewVersion(db: Tables, v: Id, org: Id, kb: Id, text: string) {
    && v in db.versions && db.versions[v].text == text && db.versions[v].org == org
    && !db.versions[v].deleted && db.versions[v].isCurrent
    && var d := db.versions[v].document;
       && d in db.documents && !db.documents[d].deleted && db.documents[d].org == org && db.documents[d].kb == kb
       && db.documents[d].current == v && db.documents[d].latest == db.versions[v].number
  }

  predicate IsUnindexed(db: Tables, v: Id) {
    v in db.versions && !db.versions[v].indexed
  }

  lemma StoredIsNew(cfg: Config, db: Tables, org: Id, kb: Id, p: Upload, text: string, existing: Option<Id>)
    requires Inv(cfg, db) && MayStore(db, org, kb, p, existing) && (existing.Some? ==> existing.value in db.documents)
    ensures var t, v := StoreUpload(db, org, kb, p, text, existing), db.nextId + 1;
      IsNewVersion(t, v, org, kb, text) && IsUnindexed(t, v) && v !in db.versions && t.chunks == db.chunks
  {
    LookupFindsTarget(db, org, kb, p, existing);
    StoredTables(db, org, kb, p, text, existing);
    ExistingOrg(cfg, db, org, kb, existing);
    InvIdsBelow(cfg, db);
    hide Inv, StoreUpload, BuildDocumentKey, BuildChecksum, ByDocumentKey;
  }

  lemma ExistingOrg(cfg: Config, db: Tables, org: Id, kb: Id, existing: Option<Id>)
    requires Inv(cfg, db) && kb in db.bases && db.bases[kb].org == org
    ensures existing.Some? && existing.value in db.documents && db.documents[existing.value].kb == kb
      ==> db.documents[existing.value].org == org
  {
    if existing.Some? && existing.value in db.documents {
      assert DocumentRefs(db, existing.value);
    }
  }

  lemma ProcessKeepsNew(cfg: Config, s: State, d: Id, v: Id, org: Id, kb: Id, text: string)
    requires d in s.db.documents && v in s.db.versions && s.db.versions[v].document == d
    requires IsNewVersion(s.db, v, org, kb, text)
    ensures IsNewVersion(ProcessVersion(cfg, s, d, v, false).db, v, org, kb, text)
  {
    hide NewChunks, NewEmbeddings, Chunks;
  }

  // An upload is refused with NotFound exactly when the organization has no such base, with Invalid exactly when
  // its text is empty, and changes nothing then; otherwise it answers with a version.  When that version is new,
  // it has just been indexed if the upload is inline, and otherwise waits, at the front of the list, without
  // any chunk row.
  lemma UploadIndexes(cfg: Config, s: State, org: Id, kb: Id, p: Upload)
    requires Inv(cfg, s.db)
    ensures var (t, reply) := UploadDocument(cfg, s, org, kb, p);
      && (reply == NotFound <==> !(kb in s.db.bases && s.db.bases[kb].org == org))
      && (reply == Invalid <==> kb in s.db.bases && s.db.bases[kb].org == org && Strip(cfg.parse(p)) == "")
      && (!reply.Done? ==> t == s && (reply == NotFound || reply == Invalid))
      && (reply.Done? && reply.id in s.db.versions ==> t == s)
      && (reply.Done? && reply.id !in s.db.versions ==>
            && IsNewVersion(t.db, reply.id, org, kb, Strip(cfg.parse(p)))
            && if p.inline then FullyIndexed(cfg, t.db, reply.id) && t.queue == s.queue
               else IsWaiting(cfg, s, t, reply.id))
  {
    hide Inv, StoreUpload, ByDocumentKey, BuildDocumentKey, BuildChecksum, Strip, Chunks, Reindexed, MayReindex;
    hide FullyIndexed, IsNewVersion, ProcessVersion, IsWaiting;
    BasesAreLive(cfg, s.db);
    var text := Strip(cfg.parse(p));
    var existing := ByDocumentKey(s.db, kb, BuildDocumentKey(p, s.db.nextId));
    if UploadRefusal(cfg, s.db, org, kb, p).None? {
      if IsUnchangedUpload(s.db, kb, p, text) {
        LookupExists(s.db, kb, BuildDocumentKey(p, s.db.nextId));
        CurrentIsVersion(cfg, s.db, existing.value);
      } else {
        StoreKeepsInv(cfg, s.db, org, kb, p, text, existing);
        StoredIsNew(cfg, s.db, org, kb, p, text, existing);
        var stored := s.(db := StoreUpload(s.db, org, kb, p, text, existing));
        var d, v := TargetDocument(s.db, existing), s.db.nextId + 1;
        MayReindexHeaders(stored.db, d, v, false);
        if p.inline {
          InlineIndexes(cfg, stored, d, v, org, kb, text);
        } else {
          NewWaits(cfg, s, stored, v);
        }
      }
    }
  }

  lemma LookupExists(db: Tables, kb: Id, key: DocumentKey)
    ensures var existing := ByDocumentKey(db, kb, key);
      existing.Some? ==> existing.value in db.documents && db.documents[existing.value].key == key
  {
  }

  lemma BasesAreLive(cfg: Config, db: Tables)
    requires Inv(cfg, db)
    ensures forall b :: b in db.bases ==> !db.bases[b].deleted
  {
  }

  lemma InlineIndexes(cfg: Config, stored: State, d: Id, v: Id, org: Id, kb: Id, text: string)
    requires Inv(cfg, stored.db) && MayReindex(stored.db, d, v, false)
    requires d in stored.db.documents && v in stored.db.versions
    requires IsNewVersion(stored.db, v, org, kb, text)
    ensures var t := ProcessVersion(cfg, stored, d, v, false);
      IsNewVersion(t.db, v, org, kb, text) && FullyIndexed(cfg, t.db, v) && t.queue == stored.queue
  {
    assert stored.db.versions[v].document == d;
    hide Inv, Chunks, Reindexed, MayReindex, FullyIndexed, IsNewVersion, RowsRebuilt;
    ProcessIndexes(cfg, stored, d, v, false);
    ProcessKeepsNew(cfg, stored, d, v, org, kb, text);
  }

  // The version is not indexed and has no chunk row; with Redis its job is the newest one on the list.
  ghost predicate IsWaiting(cfg: Config, s: State, t: State, v: Id) {
    && v in t.db.versions && !t.db.versions[v].indexed
    && (forall c :: c in t.db.chunks ==> t.db.chunks[c].version != v)
    && t.db.chunks == s.db.chunks && t.cache == s.cache
    && t.queue == if cfg.hasRedis then [v] + s.queue else s.queue
  }

  lemma NewWaits(cfg: Config, s: State, stored: State, v: Id)
    requires Inv(cfg, stored.db) && v in stored.db.versions && !stored.db.versions[v].indexed
    requires stored.db.chunks == s.db.chunks && stored.queue == s.queue && stored.cache == s.cache
    ensures IsWaiting(cfg, s, Enqueue(cfg, stored, v), v) && Enqueue(cfg, stored, v).db == stored.db
  {
    hide Inv;
    forall c | c in stored.db.chunks
      ensures stored.db.chunks[c].version != v
    {
      NoRowsBefore(cfg, stored.db, v, c);
    }
  }

  // ---------- Every live version gets indexed ----------

  // A live version is indexed, or its job is on the list.
  ghost predicate IndexedOrQueued(s: State, v: Id) {
    v in s.db.versions && !s.db.versions[v].deleted ==> s.db.versions[v].indexed || v in s.queue
  }

  // No step takes an index back.
  ghost predicate KeepsIndexed(db: Tables, t: Tables, v: Id) {
    v in db.versions && db.versions[v].indexed ==> v in t.versions && t.versions[v].indexed
  }

  lemma ReindexKeepsIndexed(cfg: Config, s: State, d: Id, v: Id, reset: bool, w: Id)
    requires d in s.db.documents && v in s.db.versions
    ensures KeepsIndexed(s.db, ProcessVersion(cfg, s, d, v, reset).db, w)
    ensures ProcessVersion(cfg, s, d, v, reset).db.versions.Keys == s.db.versions.Keys
    ensures forall x :: x in s.db.versions ==>
      ProcessVersion(cfg, s, d, v, reset).db.versions[x].deleted == s.db.versions[x].deleted
    ensures ProcessVersion(cfg, s, d, v, reset).db.versions[v].indexed
  {
    hide NewChunks, NewEmbeddings, ChunksWithout, EmbeddingsWithout, Chunks;
  }

  lemma StoreKeepsIndexed(cfg: Config, db: Tables, org: Id, kb: Id, p: Upload, text: string, existing: Option<Id>,
      w: Id)
    requires existing.Some? ==> existing.value in db.documents
    ensures var t := StoreUpload(db, org, kb, p, text, existing);
      && t.versions.Keys == db.versions.Keys + {db.nextId + 1}
      && (w in db.versions && w != db.nextId + 1 ==>
            t.versions[w].indexed == db.versions[w].indexed && t.versions[w].deleted == db.versions[w].deleted)
  {
    hide BuildChecksum, BuildDocumentKey;
  }

  lemma UploadKeepsIndexed(cfg: Config, s: State, org: Id, kb: Id, p: Upload, w: Id)
    requires Inv(cfg, s.db) && IndexedOrQueued(s, w) && cfg.hasRedis
    ensures IndexedOrQueued(UploadDocument(cfg, s, org, kb, p).0, w)
  {
    hide Inv, StoreUpload, ByDocumentKey, BuildDocumentKey, BuildChecksum, Strip, Chunks, Reindexed, MayReindex;
    hide ProcessVersion;
    var text := Strip(cfg.parse(p));
    var existing := ByDocumentKey(s.db, kb, BuildDocumentKey(p, s.db.nextId));
    if UploadRefusal(cfg, s.db, org, kb, p).None? && !IsUnchangedUpload(s.db, kb, p, text) {
      StoreKeepsInv(cfg, s.db, org, kb, p, text, existing);
      StoreKeepsIndexed(cfg, s.db, org, kb, p, text, existing, w);
      var stored := s.(db := StoreUpload(s.db, org, kb, p, text, existing));
      var d, v := TargetDocument(s.db, existing), s.db.nextId + 1;
      MayReindexHeaders(stored.db, d, v, false);
      if p.inline {
        ReindexKeepsIndexed(cfg, stored, d, v, false, w);
        ProcessQueue(cfg, stored, d, v, false);
      }
    }
  }

  lemma ProcessQueue(cfg: Config, s: State, d: Id, v: Id, reset: bool)
    requires d in s.db.documents && v in s.db.versions
    ensures ProcessVersion(cfg, s, d, v, reset).queue == s.queue
  {
    hide Reindexed, Chunks;
  }

  lemma IngestKeepsIndexed(cfg: Config, s: State, v: Id, w: Id)
    requires Inv(cfg, s.db) && (IndexedOrQueued(s, w) || w == v)
    ensures IndexedOrQueued(IngestPendingVersion(cfg, s, v), w)
  {
    hide Inv, ProcessVersion;
    if v in s.db.versions {
      IngestibleIfLive(cfg, s.db, v);
      if Ingestible(s.db, v) {
        ReindexKeepsIndexed(cfg, s, s.db.versions[v].document, v, true, w);
        ProcessQueue(cfg, s, s.db.versions[v].document, v, true);
      }
    }
  }

  lemma DeletedKeepsIndexed(db: Tables, d: Id, w: Id)
    requires d in db.documents
    ensures var t := Deleted(db, d);
      && t.versions.Keys == db.versions.Keys
      && (w in db.versions ==> t.versions[w].indexed == db.versions[w].indexed)
      && (w in db.versions && db.versions[w].deleted ==> t.versions[w].deleted)
  {
    hide MarkChunks, MarkEmbeddings;
  }

  lemma StepIndexes(cfg: Config, s: State, ev: Event, at: int, t: State, v: Id)
    requires cfg.hasRedis && Inv(cfg, s.db) && Next(cfg, s, ev, at, t) && IndexedOrQueued(s, v)
    ensures IndexedOrQueued(t, v)
  {
    hide Inv, UploadDocument, IngestPendingVersion, ProcessVersion, Fresh, Deleted;
    match ev
    case Create(_, _) =>
    case Store(org, kb, p) => UploadKeepsIndexed(cfg, s, org, kb, p, v);
    case Delete(org, d) =>
      if HasDocument(s.db, org, d) {
        DeletedKeepsIndexed(s.db, d, v);
      }
    case Reindex(org, d) =>
      if HasDocument(s.db, org, d) && s.db.documents[d].current in s.db.versions {
        ReindexKeepsIndexed(cfg, s, d, s.db.documents[d].current, true, v);
        ProcessQueue(cfg, s, d, s.db.documents[d].current, true);
      }
    case Ingest(w) => IngestKeepsIndexed(cfg, s, w, v);
    case Job =>
      if s.queue != [] {
        TakeSplitsAny(s, v);
        IngestKeepsIndexed(cfg, Taken(s), NextJob(s), v);
      }
    case Search(_, _) =>
  }

  lemma TakeSplitsAny(s: State, v: Id)
    requires s.queue != []
    ensures v in s.queue ==> v == NextJob(s) || v in Taken(s).queue
    ensures Taken(s).db == s.db
  {
    if v in s.queue {
      TakeSplits(s, v);
    }
  }

  lemma {:induction false} LiveIsIndexedOrQueued(cfg: Config, run: Run, n: nat, v: Id)
    requires cfg.hasRedis && IsRun(cfg, run) && n < |run.states|
    ensures IndexedOrQueued(run.states[n], v)
    decreases n
  {
    hide Next;
    if n > 0 {
      LiveIsIndexedOrQueued(cfg, run, n - 1, v);
      ReachableInv(cfg, run, n - 1);
      hide Inv, IndexedOrQueued;
      StepIndexes(cfg, run.states[n - 1], run.events[n - 1], run.times[n - 1], run.states[n], v);
    }
  }

  // With Redis: whatever mix of calls came before, once the queue is empty every live version is completely
  // indexed.
  lemma DrainedIsIndexed(cfg: Config, run: Run, n: nat, v: Id)
    requires cfg.hasRedis && IsRun(cfg, run) && n < |run.states| && run.states[n].queue == []
    requires v in run.states[n].db.versions && !run.states[n].db.versions[v].deleted
    ensures FullyIndexed(cfg, run.states[n].db, v)
  {
    LiveIsIndexedOrQueued(cfg, run, n, v);
    ReachableInv(cfg, run, n);
    hide IsRun, Inv, FullyIndexed;
    IndexedIsFull(cfg, run.states[n].db, v);
  }

  // ---------- What a search finds ----------

  // A chunk is ranked by a search of the organization if and only if its version is live and the filters let its
  // document through.
  lemma RankedIff(cfg: Config, db: Tables, key: CacheKey, c: Id)
    requires Inv(cfg, db) && c in db.chunks
    ensures db.chunks[c].version in db.versions && db.chunks[c].document in db.documents
    ensures (exists h :: h in Rows(cfg, db, key) && h.chunk == c) <==>
      var d := db.chunks[c].document;
      && !db.versions[db.chunks[c].version].deleted && db.documents[d].org == key.org
      && (key.request.kb.Some? ==> db.documents[d].kb == key.request.kb.value)
      && (key.request.document.Some? ==> d == key.request.document.value)
      && (key.request.sourceType.Some? ==> db.documents[d].sourceType == key.request.sourceType.value)
  {
    ChunkHasOneEmbedding(cfg, db, c);
    var e :| IsEmbeddingOf(db, e, c);
    InvRowIsLinked(cfg, db, e);
    VisibleIffVersionLive(cfg, db, e, key);
    hide Inv, Visible, RowScore;
    if Visible(db, e, key) {
      assert HitOf(cfg, db, e, key) in Rows(cfg, db, key);
    }
    if exists h :: h in Rows(cfg, db, key) && h.chunk == c {
      var h :| h in Rows(cfg, db, key) && h.chunk == c;
      RankedRow(cfg, db, key, h, e);
    }
  }

  lemma RankedRow(cfg: Config, db: Tables, key: CacheKey, h: Hit, e: Id)
    requires h in Rows(cfg, db, key) && IsEmbeddingOf(db, e, h.chunk) && h.chunk in db.chunks
    requires OneEmbedding(cfg, db, h.chunk)
    ensures Visible(db, e, key)
  {
    var f :| f in db.embeddings && Visible(db, f, key) && h == HitOf(cfg, db, f, key);
    hide Visible, RowScore;
    assert IsEmbeddingOf(db, f, h.chunk);
  }
}
