// What creating a base and deleting a document leave behind, and how long the cache answers.
module KnowledgeLaws {
  import opened Common
  import opened Text
  import opened Ranking
  import opened KnowledgeModel
  import opened KnowledgeInvariants
  import opened KnowledgeIndex
  import opened KnowledgeViews
  import opened KnowledgeCache

  // ---------- Creating a base ----------

  ghost predicate HasBaseNamed(db: Tables, org: Id, name: string) {
    exists b :: b in db.bases && db.bases[b].org == org && db.bases[b].name == name
  }

  ghost predicate OnlyAddsBase(db: Tables, t: Tables, b: Id, base: KnowledgeBase) {
    && b !in db.bases && t.bases.Keys == db.bases.Keys + {b} && t.bases[b] == base
    && (forall x :: x in db.bases ==> t.bases[x] == db.bases[x])
    && t.documents == db.documents && t.versions == db.versions
    && t.chunks == db.chunks && t.embeddings == db.embeddings
  }

  // A base is created exactly when the organization has none of that name, and then a second one of that name
  // conflicts.
  lemma CreateAnswers(cfg: Config, db: Tables, org: Id, name: string)
    requires Inv(cfg, db)
    ensures var (t, reply) := CreateBase(db, org, name);
      if HasBaseNamed(db, org, name) then t == db && reply == Conflict
      else
        && reply.Done? && OnlyAddsBase(db, t, reply.id, KnowledgeBase(org, name, false))
        && CreateBase(t, org, name) == (t, Conflict)
  {
    var t := CreateBase(db, org, name).0;
    LiveBases(cfg, db);
    hide Inv;
    if !HasBaseNamed(db, org, name) {
      assert db.nextId in t.bases;
    }
  }

  lemma LiveBases(cfg: Config, db: Tables)
    requires Inv(cfg, db)
    ensures forall b :: b in db.bases ==> !db.bases[b].deleted && b < db.nextId
  {
    hide Numbered, Indexed, Embedded;
  }

  // ---------- Deleting a document ----------

  // The row is the same but for its flags; it is deleted, and no longer current, if it belongs to the document.
  predicate IsVersionAfterDelete(before: Version, after: Version, d: Id) {
    && (after.deleted <==> before.deleted || before.document == d)
    && (after.isCurrent <==> before.isCurrent && before.document != d)
    && after.(deleted := before.deleted, isCurrent := before.isCurrent) == before
  }

  predicate IsChunkAfterDelete(before: ChunkRow, after: ChunkRow, d: Id) {
    && (after.deleted <==> before.deleted || before.document == d)
    && after.(deleted := before.deleted) == before
  }

  predicate IsEmbeddingAfterDelete(before: EmbeddingRow, after: EmbeddingRow, d: Id) {
    && (after.deleted <==> before.deleted || before.document == d)
    && after.(deleted := before.deleted) == before
  }

  predicate IsDocumentAfterDelete(before: Document, after: Document, x: Id, d: Id) {
    && (after.deleted <==> before.deleted || x == d)
    && after.(deleted := before.deleted) == before
  }

  // A deletion marks the document and all that belongs to it, and nothing else; no row is removed or added.
  ghost predicate IsAfterDelete(db: Tables, t: Tables, d: Id) {
    && t.bases == db.bases && t.nextId == db.nextId
    && t.documents.Keys == db.documents.Keys && t.versions.Keys == db.versions.Keys
    && t.chunks.Keys == db.chunks.Keys && t.embeddings.Keys == db.embeddings.Keys
    && (forall x :: x in db.documents ==> IsDocumentAfterDelete(db.documents[x], t.documents[x], x, d))
    && (forall v :: v in db.versions ==> IsVersionAfterDelete(db.versions[v], t.versions[v], d))
    && (forall c :: c in db.chunks ==> IsChunkAfterDelete(db.chunks[c], t.chunks[c], d))
    && (forall e :: e in db.embeddings ==> IsEmbeddingAfterDelete(db.embeddings[e], t.embeddings[e], d))
  }

  lemma MarkedVersionFlags(row: Version, d: Id)
    ensures IsVersionAfterDelete(row, MarkedVersion(row, d), d)
  {
  }

  lemma MarkedChunkFlags(row: ChunkRow, d: Id)
    ensures IsChunkAfterDelete(row, MarkedChunk(row, d), d)
  {
  }

  lemma MarkedEmbeddingFlags(cfg: Config, db: Tables, e: Id, d: Id)
    requires Inv(cfg, db) && e in db.embeddings
    ensures IsEmbeddingAfterDelete(db.embeddings[e], MarkedEmbedding(db, e, d), d)
  {
    InvRowIsLinked(cfg, db, e);
    hide Inv;
  }

  lemma MarkedDocumentFlags(db: Tables, x: Id, d: Id)
    requires x in db.documents && d in db.documents
    ensures var documents := db.documents[d := db.documents[d].(deleted := true)];
      IsDocumentAfterDelete(db.documents[x], documents[x], x, d)
  {
  }

  lemma MarkedIsAfterDelete(cfg: Config, db: Tables, d: Id, t: Tables)
    requires Inv(cfg, db) && d in db.documents && IsMarked(db, d, t)
    ensures IsAfterDelete(db, t, d)
  {
    hide Inv, IsDocumentAfterDelete, IsVersionAfterDelete, IsChunkAfterDelete, IsEmbeddingAfterDelete;
    hide MarkedVersion, MarkedChunk, MarkedEmbedding;
    DeletedKeys(db, d, t);
    forall x | x in db.documents
      ensures IsDocumentAfterDelete(db.documents[x], t.documents[x], x, d)
    {
      MarkedDocumentFlags(db, x, d);
    }
    forall v | v in db.versions
      ensures IsVersionAfterDelete(db.versions[v], t.versions[v], d)
    {
      MarkedVersionFlags(db.versions[v], d);
    }
    forall c | c in db.chunks
      ensures IsChunkAfterDelete(db.chunks[c], t.chunks[c], d)
    {
      MarkedChunkFlags(db.chunks[c], d);
    }
    forall e | e in db.embeddings
      ensures IsEmbeddingAfterDelete(db.embeddings[e], t.embeddings[e], d)
    {
      MarkedEmbeddingFlags(cfg, db, e, d);
    }
  }

  // A deletion is answered with NotFound exactly when the organization has no such document; the queue and the
  // cache stay as they are in every case.
  lemma DeleteAnswers(cfg: Config, s: State, org: Id, d: Id)
    requires Inv(cfg, s.db)
    ensures var (t, reply) := DeleteDocument(s, org, d);
      if d in s.db.documents && s.db.documents[d].org == org then
        reply == Done(d) && t.queue == s.queue && t.cache == s.cache && IsAfterDelete(s.db, t.db, d)
      else t == s && reply == NotFound
  {
    hide Inv, Deleted, IsMarked, IsAfterDelete;
    if d in s.db.documents && s.db.documents[d].org == org {
      DeletedTables(s.db, d);
      MarkedIsAfterDelete(cfg, s.db, d, Deleted(s.db, d));
    }
  }

  // ---------- How long the cache answers ----------

  // Call m computed these results for the key, and no document of the organization has been indexed since.
  ghost predicate AnsweredAt(cfg: Config, run: Run, m: nat, n: nat, key: CacheKey, results: seq<Hit>)
    requires |run.states| == |run.events| + 1 && |run.times| == |run.events| && m < n < |run.states|
  {
    && cfg.hasRedis && run.events[m] == Search(key, results)
    && CacheGet(cfg, run.states[m], key, run.times[m]).None?
    && forall j :: m < j < n ==> !Processes(cfg, run.states[j], run.events[j], key.org)
  }

  // A call keeps an entry that has not lapsed, unless it indexes a document of the organization.
  lemma EntryIsKept(cfg: Config, s: State, ev: Event, at: int, t: State, key: CacheKey)
    requires Inv(cfg, s.db) && Next(cfg, s, ev, at, t) && cfg.hasRedis
    requires key in s.cache && at < s.cache[key].expires && !Processes(cfg, s, ev, key.org)
    ensures key in t.cache && t.cache[key] == s.cache[key]
  {
    hide CreateBase, Reindexed, Deleted, Fresh, Chunks, StoreUpload;
    hide ByDocumentKey, BuildDocumentKey, IsUnchangedUpload, Strip, Inv;
    match ev
    case Store(org, kb, p) =>
      var text := Strip(cfg.parse(p));
      var existing := ByDocumentKey(s.db, kb, BuildDocumentKey(p, s.db.nextId));
      if UploadRefusal(cfg, s.db, org, kb, p).None? && !IsUnchangedUpload(s.db, kb, p, text) {
        StoreKeepsInv(cfg, s.db, org, kb, p, text, existing);
        TargetOrg(cfg, s.db, org, kb, p, text, existing);
      }
    case Reindex(org, d) =>
      if HasDocument(s.db, org, d) {
        CurrentMayReindex(cfg, s.db, d);
      }
    case Ingest(v) => IngestedOrg(cfg, s, v);
    case Job =>
      if s.queue != [] {
        IngestedOrg(cfg, s, NextJob(s));
      }
    case _ =>
  }

  lemma IngestedOrg(cfg: Config, s: State, v: Id)
    ensures Ingestible(s.db, v) ==> s.db.documents[s.db.versions[v].document].org == s.db.versions[v].org
  {
  }

  lemma EntryIsWritten(cfg: Config, s: State, at: int, t: State, key: CacheKey, results: seq<Hit>)
    requires Next(cfg, s, Search(key, results), at, t) && cfg.hasRedis && CacheGet(cfg, s, key, at).None?
    ensures key in t.cache && t.cache[key] == CacheEntry(results, at + cfg.cacheSeconds)
  {
    hide Fresh;
  }

  lemma {:induction false} EntryStands(cfg: Config, run: Run, m: nat, n: nat, key: CacheKey, results: seq<Hit>,
                                       now: int)
    requires IsRun(cfg, run) && m < n < |run.states| && AnsweredAt(cfg, run, m, n, key, results)
    requires run.times[n - 1] <= now < run.times[m] + cfg.cacheSeconds
    ensures key in run.states[n].cache
    ensures run.states[n].cache[key] == CacheEntry(results, run.times[m] + cfg.cacheSeconds)
    decreases n
  {
    hide Next, Processes, Inv;
    var k := n - 1;
    if m == k {
      EntryIsWritten(cfg, run.states[m], run.times[m], run.states[n], key, results);
    } else {
      EntryStands(cfg, run, m, k, key, results, now);
      ReachableInv(cfg, run, k);
      EntryIsKept(cfg, run.states[k], run.events[k], run.times[k], run.states[n], key);
    }
  }

  // In every run the cache answers a key with these results exactly when a search less than cacheSeconds ago computed
  // them and no document of the organization has been indexed since.
  lemma CacheAnswersIff(cfg: Config, run: Run, n: nat, key: CacheKey, results: seq<Hit>, now: int)
    requires IsRun(cfg, run) && n < |run.states| && (n > 0 ==> run.times[n - 1] <= now)
    ensures CacheGet(cfg, run.states[n], key, now) == Some(results) <==>
      exists m :: 0 <= m < n && AnsweredAt(cfg, run, m, n, key, results) && now < run.times[m] + cfg.cacheSeconds
  {
    if CacheGet(cfg, run.states[n], key, now) == Some(results) {
      CacheProvenance(cfg, run, n, key);
      hide IsRun, Processes, Fresh;
      var m :| 0 <= m < n && WrittenAt(cfg, run, m, n, key);
      assert AnsweredAt(cfg, run, m, n, key, results);
    } else if exists m :: 0 <= m < n && AnsweredAt(cfg, run, m, n, key, results)
                          && now < run.times[m] + cfg.cacheSeconds {
      var m :| 0 <= m < n && AnsweredAt(cfg, run, m, n, key, results) && now < run.times[m] + cfg.cacheSeconds;
      EntryStands(cfg, run, m, n, key, results, now);
      hide IsRun, Processes;
      assert false;
    }
  }
}
