// What a search sees, and which service calls can change it: only a deletion or an indexing run in the
// caller's own organization.
module KnowledgeViews {
  import opened Common
  import opened Text
  import opened Chunking
  import opened Ranking
  import opened KnowledgeModel
  import opened KnowledgeInvariants
  import opened KnowledgeIndex

  // ---------- Which rows a step can change ----------

  // The step runs _process_version for a document of the organization (and so invalidates its cache).
  ghost predicate Processes(cfg: Config, s: State, ev: Event, org: Id) {
    match ev
    case Store(o, kb, p) =>
      o == org && p.inline && UploadRefusal(cfg, s.db, o, kb, p).None?
      && !IsUnchangedUpload(s.db, kb, p, Strip(cfg.parse(p)))
    case Reindex(o, d) => o == org && HasDocument(s.db, o, d)
    case Ingest(v) => Ingestible(s.db, v) && s.db.versions[v].org == org
    case Job => s.queue != [] && Ingestible(s.db, NextJob(s)) && s.db.versions[NextJob(s)].org == org
    case _ => false
  }

  // The step deletes a document of the organization.
  ghost predicate Deletes(s: State, ev: Event, org: Id) {
    ev.Delete? && ev.org == org && HasDocument(s.db, org, ev.document)
  }

  // Both tables show the search the same rows with the same scores.
  ghost predicate SameView(cfg: Config, db: Tables, t: Tables, key: CacheKey) {
    forall e :: ViewAt(cfg, db, e, key) == ViewAt(cfg, t, e, key)
  }

  ghost function ViewAt(cfg: Config, db: Tables, e: Id, key: CacheKey): Option<Hit> {
    if e in db.embeddings && Visible(db, e, key) then Some(HitOf(cfg, db, e, key)) else None
  }

  lemma SameViewSameRows(cfg: Config, db: Tables, t: Tables, key: CacheKey)
    requires SameView(cfg, db, t, key)
    ensures Rows(cfg, db, key) == Rows(cfg, t, key)
  {
    RowsFromView(cfg, db, t, key);
    RowsFromView(cfg, t, db, key);
  }

  lemma RowsFromView(cfg: Config, db: Tables, t: Tables, key: CacheKey)
    requires SameView(cfg, db, t, key) || SameView(cfg, t, db, key)
    ensures Rows(cfg, db, key) <= Rows(cfg, t, key)
  {
    hide HitOf;
    forall h | h in Rows(cfg, db, key)
      ensures h in Rows(cfg, t, key)
    {
      var e :| e in db.embeddings && Visible(db, e, key) && h == HitOf(cfg, db, e, key);
      assert ViewAt(cfg, db, e, key) == ViewAt(cfg, t, e, key);
    }
  }

  // Storing an upload changes no view: it revives only a document all of whose versions stay deleted,
  // and it cannot change a source type, since that is part of the document key.
  lemma StoreKeepsView(cfg: Config, db: Tables, org: Id, kb: Id, p: Upload, text: string, existing: Option<Id>,
                       key: CacheKey, e: Id)
    requires Inv(cfg, db) && MayStore(db, org, kb, p, existing) && (existing.Some? ==> existing.value in db.documents)
    ensures ViewAt(cfg, db, e, key) == ViewAt(cfg, StoreUpload(db, org, kb, p, text, existing), e, key)
  {
    LookupFindsTarget(db, org, kb, p, existing);
    StoredTables(db, org, kb, p, text, existing);
    var t := StoreUpload(db, org, kb, p, text, existing);
    hide StoreUpload, ByDocumentKey, RowScore, Refs, Numbered, Indexed, Deletions;
    if e in db.embeddings {
      VisibleIffVersionLive(cfg, db, e, key);
      StoreKeepsVisible(cfg, db, org, kb, p, text, existing, t, key, e);
    }
  }

  lemma StoreKeepsVisible(cfg: Config, db: Tables, org: Id, kb: Id, p: Upload, text: string, existing: Option<Id>,
                          t: Tables, key: CacheKey, e: Id)
    requires Inv(cfg, db) && IsTarget(db, kb, p, existing) && IsStored(db, org, kb, p, text, existing, t)
    requires e in db.embeddings
    ensures Visible(db, e, key) == Visible(t, e, key)
  {
    VisibleIffVersionLive(cfg, db, e, key);
    var d, v := db.embeddings[e].document, db.chunks[db.embeddings[e].chunk].version;
    assert EmbeddingRefs(db, e) && DocumentRefs(db, d);
    assert EmbeddingDeletion(db, e) && ChunkDeletion(db, db.embeddings[e].chunk) && VersionDeletion(db, v);
    hide Refs, Numbered, Indexed, Deletions;
    StoredHeader(db, org, kb, p, text, existing, t, d, v);
  }

  lemma StoredHeader(db: Tables, org: Id, kb: Id, p: Upload, text: string, existing: Option<Id>, t: Tables, d: Id,
                     v: Id)
    requires IdsBelow(db) && IsTarget(db, kb, p, existing) && IsStored(db, org, kb, p, text, existing, t)
    requires d in db.documents && DocumentRefs(db, d) && v in db.versions
    ensures v in t.versions && t.versions[v].deleted == db.versions[v].deleted
    ensures d in t.documents && t.documents[d].sourceType == db.documents[d].sourceType
    ensures t.documents[d].deleted ==> db.documents[d].deleted
  {
  }

  // Indexing a document leaves the view of every other organization alone.
  lemma ReindexKeepsView(cfg: Config, db: Tables, d: Id, v: Id, items: seq<Chunk>, reset: bool, key: CacheKey, e: Id)
    requires Inv(cfg, db) && MayReindex(db, d, v, reset) && items == Chunks(cfg, db.versions[v].text)
    requires db.documents[d].org != key.org
    ensures ViewAt(cfg, db, e, key) == ViewAt(cfg, Reindexed(cfg, db, d, v, items, reset), e, key)
  {
    var t := Reindexed(cfg, db, d, v, items, reset);
    ReindexKeepsInv(cfg, db, d, v, items, reset);
    ReindexedHeaders(cfg, db, d, v, items, reset);
    hide Chunks, Reindexed, RowScore, Numbered, Indexed, Deletions;
    EmbeddingAfter(cfg, db, d, v, items, reset, e);
    if e in db.embeddings {
      VisibleIffVersionLive(cfg, db, e, key);
      ChunkAfter(cfg, db, d, v, items, reset, db.embeddings[e].chunk);
    }
    if e in t.embeddings {
      VisibleIffVersionLive(cfg, t, e, key);
    }
    ReindexKeepsViewAt(cfg, db, d, v, items, reset, t, key, e);
  }

  lemma ReindexKeepsViewAt(cfg: Config, db: Tables, d: Id, v: Id, items: seq<Chunk>, reset: bool, t: Tables,
                           key: CacheKey, e: Id)
    requires IdsBelow(db) && MayReindex(db, d, v, reset) && HeadersAfter(db, d, v, items, t)
    requires db.documents[d].org != key.org
    requires t == Reindexed(cfg, db, d, v, items, reset)
    requires e in db.embeddings ==>
      RowLinks(db, e) && (Visible(db, e, key) ==> db.documents[db.embeddings[e].document].org == key.org)
    requires e in t.embeddings ==>
      RowLinks(t, e) && (Visible(t, e, key) ==> t.documents[t.embeddings[e].document].org == key.org)
    ensures ViewAt(cfg, db, e, key) == ViewAt(cfg, t, e, key)
  {
    hide Reindexed, RowScore;
    EmbeddingAfter(cfg, db, d, v, items, reset, e);
    if e in db.embeddings {
      ChunkAfter(cfg, db, d, v, items, reset, db.embeddings[e].chunk);
    }
  }

  lemma DeleteKeepsView(cfg: Config, db: Tables, d: Id, key: CacheKey, e: Id)
    requires Inv(cfg, db) && d in db.documents && db.documents[d].org != key.org
    ensures ViewAt(cfg, db, e, key) == ViewAt(cfg, Deleted(db, d), e, key)
  {
    hide Inv, Deleted, RowScore, IsMarked, Visible, RowLinks;
    var t := Deleted(db, d);
    DeletedTables(db, d);
    DeletedKeys(db, d, t);
    if e in db.embeddings {
      InvRowIsLinked(cfg, db, e);
      DeleteKeepsViewAt(cfg, db, d, t, key, e);
    }
  }

  lemma DeleteKeepsViewAt(cfg: Config, db: Tables, d: Id, t: Tables, key: CacheKey, e: Id)
    requires d in db.documents && db.documents[d].org != key.org && IsMarked(db, d, t)
    requires e in db.embeddings && RowLinks(db, e)
    requires db.chunks[db.embeddings[e].chunk].document == db.embeddings[e].document
    ensures ViewAt(cfg, db, e, key) == ViewAt(cfg, t, e, key)
  {
    hide RowScore;
  }

  lemma CreateKeepsView(cfg: Config, db: Tables, org: Id, name: string, key: CacheKey, e: Id)
    requires Inv(cfg, db)
    ensures ViewAt(cfg, db, e, key) == ViewAt(cfg, CreateBase(db, org, name).0, e, key)
  {
    hide Inv, CreateBase, RowScore;
    CreateGrowsBases(cfg, db, org, name);
    if e in db.embeddings {
      InvRowIsLinked(cfg, db, e);
    }
  }

  // ---------- Every step ----------

  lemma UploadKeepsView(cfg: Config, s: State, org: Id, kb: Id, p: Upload, key: CacheKey, e: Id)
    requires Inv(cfg, s.db) && !Processes(cfg, s, Store(org, kb, p), key.org)
    ensures ViewAt(cfg, s.db, e, key) == ViewAt(cfg, UploadDocument(cfg, s, org, kb, p).0.db, e, key)
  {
    hide Inv, StoreUpload, Reindexed, ByDocumentKey, BuildDocumentKey, MayReindex;
    hide IsUnchangedUpload, Strip, Visible, HitOf, Chunks;
    var text := Strip(cfg.parse(p));
    var existing := ByDocumentKey(s.db, kb, BuildDocumentKey(p, s.db.nextId));
    if UploadRefusal(cfg, s.db, org, kb, p).None? && !IsUnchangedUpload(s.db, kb, p, text) {
      StoreKeepsInv(cfg, s.db, org, kb, p, text, existing);
      StoreKeepsView(cfg, s.db, org, kb, p, text, existing, key, e);
      if p.inline {
        var stored := StoreUpload(s.db, org, kb, p, text, existing);
        var d, v := TargetDocument(s.db, existing), s.db.nextId + 1;
        TargetOrg(cfg, s.db, org, kb, p, text, existing);
        MayReindexHeaders(stored, d, v, false);
        ReindexKeepsView(cfg, stored, d, v, Chunks(cfg, stored.versions[v].text), false, key, e);
      }
    }
  }

  lemma MayReindexHeaders(db: Tables, d: Id, v: Id, reset: bool)
    requires MayReindex(db, d, v, reset)
    ensures d in db.documents && v in db.versions
  {
  }

  // The document an upload writes belongs to the uploader's organization.
  lemma TargetOrg(cfg: Config, db: Tables, org: Id, kb: Id, p: Upload, text: string, existing: Option<Id>)
    requires Inv(cfg, db) && MayStore(db, org, kb, p, existing) && (existing.Some? ==> existing.value in db.documents)
    ensures HasDocument(StoreUpload(db, org, kb, p, text, existing), org, TargetDocument(db, existing))
  {
    hide Numbered, Indexed, Deletions, BuildDocumentKey, BuildChecksum;
    LookupFindsTarget(db, org, kb, p, existing);
    if existing.Some? {
      assert DocumentRefs(db, existing.value);
    }
  }

  lemma IngestKeepsView(cfg: Config, s: State, v: Id, key: CacheKey, e: Id)
    requires Inv(cfg, s.db) && !(Ingestible(s.db, v) && s.db.versions[v].org == key.org)
    ensures ViewAt(cfg, s.db, e, key) == ViewAt(cfg, IngestPendingVersion(cfg, s, v).db, e, key)
  {
    hide Inv, Reindexed, Visible, HitOf, Chunks;
    if Ingestible(s.db, v) {
      IngestibleMayReindex(cfg, s.db, v);
      ReindexKeepsView(cfg, s.db, s.db.versions[v].document, v, Chunks(cfg, s.db.versions[v].text), true, key, e);
    }
  }

  // A step that neither indexes nor deletes in the organization leaves what its searches see as it was.
  lemma StepKeepsView(cfg: Config, s: State, ev: Event, at: int, t: State, key: CacheKey, e: Id)
    requires Inv(cfg, s.db) && Next(cfg, s, ev, at, t)
    requires !Processes(cfg, s, ev, key.org) && !Deletes(s, ev, key.org)
    ensures ViewAt(cfg, s.db, e, key) == ViewAt(cfg, t.db, e, key)
  {
    hide Inv, CreateBase, UploadDocument, Deleted, Reindexed, IngestPendingVersion, Fresh, ViewAt, Chunks, Ingestible;
    match ev
    case Create(org, name) => CreateKeepsView(cfg, s.db, org, name, key, e);
    case Store(org, kb, upload) => UploadKeepsView(cfg, s, org, kb, upload, key, e);
    case Delete(org, d) =>
      if HasDocument(s.db, org, d) {
        DeleteKeepsView(cfg, s.db, d, key, e);
      }
    case Reindex(org, d) =>
      if HasDocument(s.db, org, d) {
        CurrentMayReindex(cfg, s.db, d);
        var v := s.db.documents[d].current;
        ReindexKeepsView(cfg, s.db, d, v, Chunks(cfg, s.db.versions[v].text), true, key, e);
      }
    case Ingest(v) => IngestKeepsView(cfg, s, v, key, e);
    case Job =>
      if s.queue != [] {
        IngestKeepsView(cfg, s.(queue := s.queue[..|s.queue| - 1]), NextJob(s), key, e);
      }
    case Search(_, _) =>
  }

  lemma StepKeepsRows(cfg: Config, s: State, ev: Event, at: int, t: State, key: CacheKey)
    requires Inv(cfg, s.db) && Next(cfg, s, ev, at, t)
    requires !Processes(cfg, s, ev, key.org) && !Deletes(s, ev, key.org)
    ensures Rows(cfg, t.db, key) == Rows(cfg, s.db, key)
  {
    hide Inv, Next, Processes, Deletes, ViewAt, Rows;
    forall e: Id
      ensures ViewAt(cfg, s.db, e, key) == ViewAt(cfg, t.db, e, key)
    {
      StepKeepsView(cfg, s, ev, at, t, key, e);
    }
    SameViewSameRows(cfg, s.db, t.db, key);
  }
}
