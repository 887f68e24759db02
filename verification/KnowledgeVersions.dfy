// The life of a version over whole runs: deletion is final, one version is current, queued uploads are
// indexed in order, numbers are consecutive, and a repeated upload changes nothing.
module KnowledgeVersions {
  import opened Common
  import opened Text
  import opened Chunking
  import opened Ranking
  import opened KnowledgeModel
  import opened KnowledgeInvariants
  import opened KnowledgeViews

  // ---------- How a step changes a version row ----------

  // No step removes a version, moves it to another document, renumbers it or takes back its deletion.
  ghost predicate VersionPersists(db: Tables, t: Tables, v: Id)
    requires v in db.versions
  {
    && v in t.versions
    && t.versions[v].document == db.versions[v].document
    && t.versions[v].number == db.versions[v].number
    && t.versions[v].text == db.versions[v].text
    && (db.versions[v].deleted ==> t.versions[v].deleted)
  }

  lemma UploadPersists(cfg: Config, s: State, org: Id, kb: Id, p: Upload, v: Id)
    requires Inv(cfg, s.db) && v in s.db.versions
    ensures VersionPersists(s.db, UploadDocument(cfg, s, org, kb, p).0.db, v)
  {
    hide Inv, StoreUpload, ByDocumentKey, BuildDocumentKey, IsUnchangedUpload, Strip, Chunks, MayReindex;
    hide NewChunks, NewEmbeddings, EmbeddingsWithout, ChunksWithout;
    var text := Strip(cfg.parse(p));
    var existing := ByDocumentKey(s.db, kb, BuildDocumentKey(p, s.db.nextId));
    if UploadRefusal(cfg, s.db, org, kb, p).None? && !IsUnchangedUpload(s.db, kb, p, text) {
      StoreKeepsInv(cfg, s.db, org, kb, p, text, existing);
      StorePersists(cfg, s.db, org, kb, p, text, existing, v);
      MayReindexHeaders(StoreUpload(s.db, org, kb, p, text, existing), TargetDocument(s.db, existing),
          s.db.nextId + 1, false);
    }
  }

  lemma StorePersists(cfg: Config, db: Tables, org: Id, kb: Id, p: Upload, text: string, existing: Option<Id>, v: Id)
    requires Inv(cfg, db) && v in db.versions && (existing.Some? ==> existing.value in db.documents)
    ensures VersionPersists(db, StoreUpload(db, org, kb, p, text, existing), v)
  {
    hide Refs, Numbered, Deletions, Indexed, BuildChecksum, BuildDocumentKey;
  }

  lemma StepPersists(cfg: Config, s: State, ev: Event, at: int, t: State, v: Id)
    requires Inv(cfg, s.db) && Next(cfg, s, ev, at, t) && v in s.db.versions
    ensures VersionPersists(s.db, t.db, v)
  {
    hide Inv, UploadDocument, Fresh, Chunks, NewChunks;
    hide NewEmbeddings, EmbeddingsWithout, ChunksWithout, MarkEmbeddings, MarkChunks;
    match ev
    case Create(_, _) =>
    case Store(org, kb, p) => UploadPersists(cfg, s, org, kb, p, v);
    case Delete(_, _) =>
    case Reindex(_, d) =>
    case Ingest(_) =>
    case Job =>
    case Search(_, _) =>
  }

  lemma {:induction false} VersionPersistsThrough(cfg: Config, run: Run, m: nat, n: nat, v: Id)
    requires IsRun(cfg, run) && m <= n < |run.states| && v in run.states[m].db.versions
    ensures VersionPersists(run.states[m].db, run.states[n].db, v)
    decreases n
  {
    hide Next;
    if m < n {
      VersionPersistsThrough(cfg, run, m, n - 1, v);
      ReachableInv(cfg, run, n - 1);
      hide Inv;
      StepPersists(cfg, run.states[n - 1], run.events[n - 1], run.times[n - 1], run.states[n], v);
    }
  }

  // After a document is deleted, no search over the tables ever shows a chunk of a version that existed
  // then, whatever uploads, reindexing and queued jobs follow.
  lemma DeletedStaysDeleted(cfg: Config, run: Run, i: nat, n: nat, v: Id, key: CacheKey, h: Hit)
    requires IsRun(cfg, run) && i < n < |run.states|
    requires run.events[i].Delete? && HasDocument(run.states[i].db, run.events[i].org, run.events[i].document)
    requires v in run.states[i].db.versions && run.states[i].db.versions[v].document == run.events[i].document
    requires h in Rows(cfg, run.states[n].db, key)
    ensures h.chunk in run.states[n].db.chunks && run.states[n].db.chunks[h.chunk].version != v
  {
    var ev, s, t := run.events[i], run.states[i], run.states[i + 1];
    assert Next(cfg, s, ev, run.times[i], t);
    assert t.db.versions[v].deleted;
    VersionPersistsThrough(cfg, run, i + 1, n, v);
    var db := run.states[n].db;
    hide IsRun, Next, HitOf, Deleted;
    var e :| e in db.embeddings && Visible(db, e, key) && h == HitOf(cfg, db, e, key);
    HitChunk(cfg, db, e, key);
  }

  lemma HitChunk(cfg: Config, db: Tables, e: Id, key: CacheKey)
    requires e in db.embeddings && Visible(db, e, key)
    ensures HitOf(cfg, db, e, key).chunk == db.embeddings[e].chunk
  {
  }

  // Every document's version numbers are exactly 1..latest, each used once.
  lemma NumbersAreConsecutive(cfg: Config, run: Run, n: nat, d: Id)
    requires IsRun(cfg, run) && n < |run.states| && d in run.states[n].db.documents
    ensures var db := run.states[n].db;
      && (forall v :: v in db.versions && db.versions[v].document == d
            ==> 1 <= db.versions[v].number <= db.documents[d].latest)
      && (forall v, w, k :: IsVersion(db, v, d, k) && IsVersion(db, w, d, k) ==> v == w)
      && (forall k :: 1 <= k <= db.documents[d].latest ==> HasVersion(db, d, k))
  {
    ReachableInv(cfg, run, n);
    hide IsRun, Refs, Deletions, Indexed, IdsBelow;
    var db := run.states[n].db;
    forall v | v in db.versions && db.versions[v].document == d
      ensures 1 <= db.versions[v].number <= db.documents[d].latest
    {
      assert NumberInRange(db, v);
    }
  }

  // ---------- One current version ----------

  // At most one version of the document is flagged current, the one current_version_id names; while the
  // document is live that one is flagged.
  ghost predicate OneCurrent(db: Tables, d: Id)
    requires d in db.documents
  {
    && (forall v :: v in db.versions && db.versions[v].document == d && db.versions[v].isCurrent ==>
      v == db.documents[d].current)
    && (!db.documents[d].deleted ==>
      db.documents[d].current in db.versions && db.versions[db.documents[d].current].isCurrent)
  }

  ghost predicate AllOneCurrent(db: Tables) {
    forall d :: d in db.documents ==> OneCurrent(db, d)
  }

  // A job for a version that a later upload has replaced.
  ghost predicate Superseded(db: Tables, v: Id) {
    Ingestible(db, v) && db.documents[db.versions[v].document].current != v
  }

  ghost predicate IngestsSuperseded(s: State, ev: Event) {
    match ev
    case Ingest(v) => Superseded(s.db, v)
    case Job => s.queue != [] && Superseded(s.db, NextJob(s))
    case _ => false
  }

  lemma ProcessCurrent(cfg: Config, s: State, d: Id, v: Id, reset: bool, x: Id)
    requires d in s.db.documents && v in s.db.versions && s.db.versions[v].document == d
    requires x in s.db.documents && OneCurrent(s.db, x) && s.db.documents[d].current == v
    ensures OneCurrent(ProcessVersion(cfg, s, d, v, reset).db, x)
  {
    hide Chunks, NewChunks, NewEmbeddings, EmbeddingsWithout, ChunksWithout;
  }

  // A stored upload leaves exactly one current version of its document, whatever the flags were before.
  lemma StoreRestoresCurrent(cfg: Config, db: Tables, org: Id, kb: Id, p: Upload, text: string, existing: Option<Id>,
                             x: Id)
    requires Inv(cfg, db) && MayStore(db, org, kb, p, existing) && (existing.Some? ==> existing.value in db.documents)
    requires x == TargetDocument(db, existing) || (x in db.documents && OneCurrent(db, x))
    ensures var t := StoreUpload(db, org, kb, p, text, existing);
      x in t.documents && OneCurrent(t, x)
      && (x == TargetDocument(db, existing) ==> t.documents[x].current == db.nextId + 1)
  {
    LookupFindsTarget(db, org, kb, p, existing);
    StoredTables(db, org, kb, p, text, existing);
    var t := StoreUpload(db, org, kb, p, text, existing);
    if x in db.documents {
      assert DocumentRefs(db, x);
    }
    hide StoreUpload, Refs, Numbered, Indexed, Deletions, ByDocumentKey, BuildDocumentKey, BuildChecksum;
    StoreCurrentFlags(db, org, kb, p, text, existing, t, x);
  }

  lemma StoreCurrentFlags(db: Tables, org: Id, kb: Id, p: Upload, text: string, existing: Option<Id>, t: Tables, x: Id)
    requires IdsBelow(db) && IsTarget(db, kb, p, existing) && IsStored(db, org, kb, p, text, existing, t)
    requires x == TargetDocument(db, existing)
      || (x in db.documents && OneCurrent(db, x) && db.documents[x].current in db.versions
          && db.versions[db.documents[x].current].document == x)
    ensures x in t.documents && OneCurrent(t, x)
    ensures x == TargetDocument(db, existing) ==> t.documents[x].current == db.nextId + 1
  {
    hide BuildDocumentKey, BuildChecksum, IsTarget;
  }

  lemma UploadCurrent(cfg: Config, s: State, org: Id, kb: Id, p: Upload, x: Id)
    requires Inv(cfg, s.db)
    requires x in UploadDocument(cfg, s, org, kb, p).0.db.documents
    requires x in s.db.documents ==> OneCurrent(s.db, x)
    ensures OneCurrent(UploadDocument(cfg, s, org, kb, p).0.db, x)
  {
    hide Inv, StoreUpload, ByDocumentKey, BuildDocumentKey, IsUnchangedUpload, Strip, Chunks, OneCurrent;
    hide NewChunks, NewEmbeddings, EmbeddingsWithout, ChunksWithout;
    var text := Strip(cfg.parse(p));
    var existing := ByDocumentKey(s.db, kb, BuildDocumentKey(p, s.db.nextId));
    if UploadRefusal(cfg, s.db, org, kb, p).None? && !IsUnchangedUpload(s.db, kb, p, text) {
      StoreKeepsInv(cfg, s.db, org, kb, p, text, existing);
      var stored := s.(db := StoreUpload(s.db, org, kb, p, text, existing));
      var d, v := TargetDocument(s.db, existing), s.db.nextId + 1;
      StoredDocuments(s.db, org, kb, p, text, existing, x);
      StoreRestoresCurrent(cfg, s.db, org, kb, p, text, existing, d);
      StoreRestoresCurrent(cfg, s.db, org, kb, p, text, existing, x);
      if p.inline {
        ProcessCurrent(cfg, stored, d, v, false, x);
      }
    }
  }

  lemma StoredDocuments(db: Tables, org: Id, kb: Id, p: Upload, text: string, existing: Option<Id>, x: Id)
    requires existing.Some? ==> existing.value in db.documents
    ensures x in StoreUpload(db, org, kb, p, text, existing).documents
       <==> x in db.documents || x == TargetDocument(db, existing)
  {
  }

  // The upload of new content restores the flags of its document from any state.
  lemma UploadRestoresCurrent(cfg: Config, s: State, org: Id, kb: Id, p: Upload)
    requires Inv(cfg, s.db) && UploadRefusal(cfg, s.db, org, kb, p).None?
    requires !IsUnchangedUpload(s.db, kb, p, Strip(cfg.parse(p)))
    ensures var d := TargetDocument(s.db, ByDocumentKey(s.db, kb, BuildDocumentKey(p, s.db.nextId)));
      var t := UploadDocument(cfg, s, org, kb, p).0.db;
      d in t.documents && OneCurrent(t, d) && t.documents[d].current == s.db.nextId + 1
  {
    hide Inv, StoreUpload, ByDocumentKey, BuildDocumentKey, IsUnchangedUpload, Strip, Chunks, OneCurrent;
    hide NewChunks, NewEmbeddings, EmbeddingsWithout, ChunksWithout;
    var text := Strip(cfg.parse(p));
    var existing := ByDocumentKey(s.db, kb, BuildDocumentKey(p, s.db.nextId));
    StoreKeepsInv(cfg, s.db, org, kb, p, text, existing);
    var stored := s.(db := StoreUpload(s.db, org, kb, p, text, existing));
    var d := TargetDocument(s.db, existing);
    StoreRestoresCurrent(cfg, s.db, org, kb, p, text, existing, d);
    if p.inline {
      ProcessCurrent(cfg, stored, d, s.db.nextId + 1, false, d);
    }
  }

  lemma IngestCurrent(cfg: Config, s: State, v: Id, x: Id)
    requires Inv(cfg, s.db) && !Superseded(s.db, v) && x in s.db.documents && OneCurrent(s.db, x)
    ensures x in IngestPendingVersion(cfg, s, v).db.documents && OneCurrent(IngestPendingVersion(cfg, s, v).db, x)
  {
    hide Inv, OneCurrent, Chunks, NewChunks, NewEmbeddings, EmbeddingsWithout, ChunksWithout;
    if Ingestible(s.db, v) {
      ProcessCurrent(cfg, s, s.db.versions[v].document, v, true, x);
    }
  }

  lemma DeleteCurrent(cfg: Config, db: Tables, d: Id, x: Id)
    requires Inv(cfg, db) && d in db.documents && x in db.documents && OneCurrent(db, x)
    ensures OneCurrent(Deleted(db, d), x)
  {
    hide Deleted, IsMarked, OneCurrent, IdsBelow, Numbered, Indexed, Deletions;
    DeletedTables(db, d);
    assert DocumentRefs(db, x);
    DeleteFlags(db, d, Deleted(db, d), x);
  }

  lemma DeleteFlags(db: Tables, d: Id, t: Tables, x: Id)
    requires d in db.documents && IsMarked(db, d, t)
    requires x in db.documents && OneCurrent(db, x) && DocumentRefs(db, x)
    ensures x in t.documents && OneCurrent(t, x)
  {
  }

  // Every step but the ingestion of a superseded version keeps the flags right.
  lemma StepKeepsOneCurrent(cfg: Config, s: State, ev: Event, at: int, t: State, x: Id)
    requires Inv(cfg, s.db) && Next(cfg, s, ev, at, t) && !IngestsSuperseded(s, ev) && AllOneCurrent(s.db)
    requires x in t.db.documents
    ensures OneCurrent(t.db, x)
  {
    hide Inv, UploadDocument, Fresh, Chunks, NewChunks;
    hide NewEmbeddings, EmbeddingsWithout, ChunksWithout, Deleted, Superseded;
    hide OneCurrent, IngestPendingVersion;
    match ev
    case Create(_, _) => SameFlags(s.db, t.db, x);
    case Store(org, kb, p) => UploadCurrent(cfg, s, org, kb, p, x);
    case Delete(org, d) =>
      if HasDocument(s.db, org, d) {
        DeletedDocuments(s.db, d);
        DeleteCurrent(cfg, s.db, d, x);
      }
    case Reindex(org, d) =>
      if HasDocument(s.db, org, d) {
        CurrentMayReindex(cfg, s.db, d);
        ProcessCurrent(cfg, s, d, s.db.documents[d].current, true, x);
      }
    case Ingest(v) =>
      IngestDocuments(cfg, s, v);
      IngestCurrent(cfg, s, v, x);
    case Job =>
      if s.queue != [] {
        var u := s.(queue := s.queue[..|s.queue| - 1]);
        IngestDocuments(cfg, u, NextJob(s));
        IngestCurrent(cfg, u, NextJob(s), x);
      }
    case Search(_, _) =>
  }

  lemma SameFlags(db: Tables, t: Tables, x: Id)
    requires t.documents == db.documents && t.versions == db.versions && x in db.documents && OneCurrent(db, x)
    ensures OneCurrent(t, x)
  {
  }

  lemma DeletedDocuments(db: Tables, d: Id)
    requires d in db.documents
    ensures Deleted(db, d).documents.Keys == db.documents.Keys
  {
  }

  lemma IngestDocuments(cfg: Config, s: State, v: Id)
    ensures IngestPendingVersion(cfg, s, v).db.documents.Keys == s.db.documents.Keys
  {
    hide Chunks, NewChunks, NewEmbeddings, EmbeddingsWithout, ChunksWithout;
  }

  // In a run that never ingests a superseded version, every document has the one current version.
  lemma {:induction false} OneCurrentThroughout(cfg: Config, run: Run, n: nat)
    requires IsRun(cfg, run) && n < |run.states|
    requires forall i :: 0 <= i < n ==> !IngestsSuperseded(run.states[i], run.events[i])
    ensures AllOneCurrent(run.states[n].db)
    decreases n
  {
    hide Next, OneCurrent, IngestsSuperseded;
    if n > 0 {
      OneCurrentThroughout(cfg, run, n - 1);
      ReachableInv(cfg, run, n - 1);
      hide Inv;
      forall x | x in run.states[n].db.documents
        ensures OneCurrent(run.states[n].db, x)
      {
        StepKeepsOneCurrent(cfg, run.states[n - 1], run.events[n - 1], run.times[n - 1], run.states[n], x);
      }
    }
  }

  // Ingesting a live version leaves its document with one current version exactly when that version
  // already was the current one; a superseded version ends up flagged beside the one it replaced.
  lemma IngestKeepsOneCurrentIff(cfg: Config, s: State, v: Id)
    requires Inv(cfg, s.db) && Ingestible(s.db, v) && OneCurrent(s.db, s.db.versions[v].document)
    ensures var d := s.db.versions[v].document;
      var t := IngestPendingVersion(cfg, s, v).db;
      d in t.documents && t.documents[d].current == v
      && (OneCurrent(t, d) <==> s.db.documents[d].current == v)
  {
    hide Chunks, Inv, Reindexed, OneCurrent;
    var d := s.db.versions[v].document;
    CurrentOfLive(cfg, s.db, v);
    ProcessFlagsIff(cfg, s.db, d, v, Chunks(cfg, s.db.versions[v].text));
  }

  lemma CurrentOfLive(cfg: Config, db: Tables, v: Id)
    requires Inv(cfg, db) && Ingestible(db, v)
    ensures var d := db.versions[v].document;
      !db.documents[d].deleted && db.documents[d].current in db.versions
        && db.versions[db.documents[d].current].document == d
  {
    hide Numbered, Indexed, IdsBelow;
    assert VersionDeletion(db, v) && DocumentRefs(db, db.versions[v].document);
  }

  lemma ProcessFlagsIff(cfg: Config, db: Tables, d: Id, v: Id, items: seq<Chunk>)
    requires d in db.documents && v in db.versions && db.versions[v].document == d && !db.documents[d].deleted
    requires db.documents[d].current in db.versions && db.versions[db.documents[d].current].document == d
    requires OneCurrent(db, d)
    ensures var t := Reindexed(cfg, db, d, v, items, true);
      d in t.documents && t.documents[d].current == v
      && (OneCurrent(t, d) <==> db.documents[d].current == v)
  {
    hide NewChunks, NewEmbeddings, EmbeddingsWithout, ChunksWithout;
    var t, w := Reindexed(cfg, db, d, v, items, true), db.documents[d].current;
    assert t.versions[w].isCurrent && t.versions[w].document == d;
  }
}
