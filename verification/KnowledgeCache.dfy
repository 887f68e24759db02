// The search cache over whole runs: where an entry comes from, and when it still tells the truth.
module KnowledgeCache {
  import opened Common
  import opened Text
  import opened Ranking
  import opened KnowledgeModel
  import opened KnowledgeInvariants
  import opened KnowledgeIndex
  import opened KnowledgeViews

  // Event m is the search that computed and wrote the entry states[n] holds for the key, and no document
  // of the organization has been indexed since.
  ghost predicate WrittenAt(cfg: Config, run: Run, m: nat, n: nat, key: CacheKey)
    requires |run.states| == |run.events| + 1 && |run.times| == |run.events| && m < n < |run.states|
    requires key in run.states[n].cache
  {
    var entry := run.states[n].cache[key];
    && cfg.hasRedis
    && run.events[m] == Search(key, entry.results)
    && CacheGet(cfg, run.states[m], key, run.times[m]).None?
    && Fresh(cfg, run.states[m].db, key, entry.results)
    && entry.expires == run.times[m] + cfg.cacheSeconds
    && forall j :: m < j < n ==> !Processes(cfg, run.states[j], run.events[j], key.org)
  }

  // An entry survives a step only if the step did not index anything in the organization; otherwise the
  // step is the search that wrote it.
  lemma CacheStep(cfg: Config, s: State, ev: Event, at: int, t: State, key: CacheKey)
    requires Inv(cfg, s.db) && Next(cfg, s, ev, at, t) && key in t.cache
    ensures
      || (key in s.cache && t.cache[key] == s.cache[key] && !Processes(cfg, s, ev, key.org))
      || (cfg.hasRedis && ev == Search(key, t.cache[key].results) && CacheGet(cfg, s, key, at).None?
          && Fresh(cfg, s.db, key, t.cache[key].results) && t.cache[key].expires == at + cfg.cacheSeconds)
  {
    hide CreateBase, Reindexed, Deleted, Fresh, Chunks, StoreUpload;
    hide ByDocumentKey, BuildDocumentKey, IsUnchangedUpload, Strip, Inv;
    match ev
    case Create(_, _) =>
    case Store(org, kb, p) =>
      var text := Strip(cfg.parse(p));
      var existing := ByDocumentKey(s.db, kb, BuildDocumentKey(p, s.db.nextId));
      if UploadRefusal(cfg, s.db, org, kb, p).None? && !IsUnchangedUpload(s.db, kb, p, text) {
        StoreKeepsInv(cfg, s.db, org, kb, p, text, existing);
        TargetOrg(cfg, s.db, org, kb, p, text, existing);
      }
    case Delete(_, _) =>
    case Reindex(org, d) =>
      if HasDocument(s.db, org, d) {
        CurrentMayReindex(cfg, s.db, d);
      }
    case Ingest(v) =>
    case Job =>
    case Search(_, _) =>
  }

  lemma {:induction false} CacheProvenance(cfg: Config, run: Run, n: nat, key: CacheKey)
    requires IsRun(cfg, run) && n < |run.states| && key in run.states[n].cache
    ensures exists m :: 0 <= m < n && WrittenAt(cfg, run, m, n, key)
    decreases n
  {
    hide Next, Processes, Fresh;
    if n > 0 {
      var s, t := run.states[n - 1], run.states[n];
      ReachableInv(cfg, run, n - 1);
      hide Inv;
      CacheStep(cfg, s, run.events[n - 1], run.times[n - 1], t, key);
      if key in s.cache && t.cache[key] == s.cache[key] && !Processes(cfg, s, run.events[n - 1], key.org) {
        CacheProvenance(cfg, run, n - 1, key);
        var m :| 0 <= m < n - 1 && WrittenAt(cfg, run, m, n - 1, key);
        assert WrittenAt(cfg, run, m, n, key);
      } else {
        assert WrittenAt(cfg, run, n - 1, n, key);
      }
    }
  }

  ghost predicate NoDeletion(run: Run, m: nat, n: nat, org: Id)
    requires |run.states| == |run.events| + 1 && n < |run.states|
  {
    forall j :: m < j < n ==> !Deletes(run.states[j], run.events[j], org)
  }

  lemma SearchChangesNoTable(cfg: Config, s: State, ev: Event, at: int, t: State)
    requires ev.Search? && Next(cfg, s, ev, at, t)
    ensures t.db == s.db
  {
    hide Fresh;
  }

  // Without an indexing run or a deletion in between, two states show the organization the same rows.
  lemma {:induction false} RowsUnchanged(cfg: Config, run: Run, m: nat, n: nat, key: CacheKey)
    requires IsRun(cfg, run) && m < n < |run.states|
    requires run.events[m].Search?
    requires forall j :: m < j < n ==> !Processes(cfg, run.states[j], run.events[j], key.org)
    requires NoDeletion(run, m, n, key.org)
    ensures Rows(cfg, run.states[n].db, key) == Rows(cfg, run.states[m].db, key)
    decreases n
  {
    hide Inv, Rows, Next, Processes, Deletes;
    if m == n - 1 {
      SearchChangesNoTable(cfg, run.states[m], run.events[m], run.times[m], run.states[n]);
    } else {
      ReachableInv(cfg, run, n - 1);
      RowsUnchanged(cfg, run, m, n - 1, key);
      StepKeepsRows(cfg, run.states[n - 1], run.events[n - 1], run.times[n - 1], run.states[n], key);
    }
  }

  // A cache hit is the answer of a search made at most cacheSeconds ago and after the organization's last
  // indexing run; if no document of the organization was deleted since, it is a fresh answer right now.
  lemma CacheHitAgrees(cfg: Config, run: Run, n: nat, key: CacheKey, now: int)
    requires IsRun(cfg, run) && n < |run.states|
    requires CacheGet(cfg, run.states[n], key, now).Some?
    ensures var results := CacheGet(cfg, run.states[n], key, now).value;
      exists m :: 0 <= m < n && WrittenAt(cfg, run, m, n, key)
        && Fresh(cfg, run.states[m].db, key, results)
        && now - run.times[m] < cfg.cacheSeconds
        && (NoDeletion(run, m, n, key.org) ==> Fresh(cfg, run.states[n].db, key, results))
  {
    CacheProvenance(cfg, run, n, key);
    hide Next, Processes, Deletes, IsTopK, Rows;
    var m :| 0 <= m < n && WrittenAt(cfg, run, m, n, key);
    if NoDeletion(run, m, n, key.org) {
      RowsUnchanged(cfg, run, m, n, key);
    }
  }

  // Up to ties it is then the answer an uncached search would give.
  lemma CacheHitEqualsFreshSearch(cfg: Config, run: Run, m: nat, n: nat, key: CacheKey, now: int, answer: seq<Hit>)
    requires IsRun(cfg, run) && m < n < |run.states|
    requires CacheGet(cfg, run.states[n], key, now).Some? && Fresh(cfg, run.states[n].db, key, answer)
    requires WrittenAt(cfg, run, m, n, key) && NoDeletion(run, m, n, key.org)
    ensures var cached := CacheGet(cfg, run.states[n], key, now).value;
      |cached| == |answer| && forall i :: 0 <= i < |cached| ==> cached[i].score == answer[i].score
  {
    hide IsRun, IsTopK, Rows, Processes;
    RowsUnchanged(cfg, run, m, n, key);
    var cached := CacheGet(cfg, run.states[n], key, now).value;
    TopKUniqueUpToTies(cached, answer, Rows(cfg, run.states[n].db, key), key.request.topK);
  }

  // ---------- What a deletion does to the cache ----------

  // The hits of document d.
  ghost predicate IsHitOf(db: Tables, h: Hit, d: Id) {
    h.chunk in db.chunks && db.chunks[h.chunk].document == d
  }

  // Deleting a document takes exactly its hits out of what a search sees.
  lemma RowsAfterDelete(cfg: Config, db: Tables, d: Id, key: CacheKey)
    requires Inv(cfg, db) && d in db.documents
    ensures Rows(cfg, Deleted(db, d), key) == set h | h in Rows(cfg, db, key) && !IsHitOf(db, h, d)
  {
    hide Inv, RowScore, Deleted, Visible, HitOf;
    var t := Deleted(db, d);
    DeletedTables(db, d);
    DeletedKeys(db, d, t);
    forall e | e in db.embeddings
      ensures db.embeddings[e].chunk in db.chunks && t.embeddings[e].chunk in t.chunks
      ensures HitOf(cfg, t, e, key) == HitOf(cfg, db, e, key)
      ensures Visible(t, e, key) <==> Visible(db, e, key) && !IsHitOf(db, HitOf(cfg, db, e, key), d)
    {
      DeleteChangesView(cfg, db, d, t, key, e);
    }
    hide IsMarked;
    forall h | h in Rows(cfg, db, key) && !IsHitOf(db, h, d)
      ensures h in Rows(cfg, t, key)
    {
      VisibleHasChunk(db, key);
      var e :| e in db.embeddings && Visible(db, e, key) && h == HitOf(cfg, db, e, key);
    }
    forall h | h in Rows(cfg, t, key)
      ensures h in Rows(cfg, db, key) && !IsHitOf(db, h, d)
    {
      VisibleHasChunk(t, key);
      var e :| e in t.embeddings && Visible(t, e, key) && h == HitOf(cfg, t, e, key);
    }
  }

  lemma VisibleHasChunk(db: Tables, key: CacheKey)
    ensures forall e :: e in db.embeddings && Visible(db, e, key) ==> db.embeddings[e].chunk in db.chunks
  {
  }

  lemma DeleteChangesView(cfg: Config, db: Tables, d: Id, t: Tables, key: CacheKey, e: Id)
    requires Inv(cfg, db) && d in db.documents && IsMarked(db, d, t) && e in db.embeddings
    ensures e in t.embeddings && db.embeddings[e].chunk in db.chunks && t.embeddings[e].chunk in t.chunks
    ensures HitOf(cfg, t, e, key) == HitOf(cfg, db, e, key)
    ensures Visible(t, e, key) <==> Visible(db, e, key) && !IsHitOf(db, HitOf(cfg, db, e, key), d)
  {
    hide Inv, RowScore;
    InvRowIsLinked(cfg, db, e);
  }

  // delete_document leaves the cache alone, so a cached answer that was right before a deletion is right
  // after it exactly when it shows no chunk of the deleted document.
  lemma CachedAnswerAfterDelete(cfg: Config, s: State, org: Id, d: Id, key: CacheKey, now: int)
    requires Inv(cfg, s.db) && HasDocument(s.db, org, d)
    requires CacheGet(cfg, s, key, now).Some? && Fresh(cfg, s.db, key, CacheGet(cfg, s, key, now).value)
    ensures var t, results := DeleteDocument(s, org, d).0, CacheGet(cfg, s, key, now).value;
      && CacheGet(cfg, t, key, now) == Some(results)
      && (Fresh(cfg, t.db, key, results) <==> forall i :: 0 <= i < |results| ==> !IsHitOf(s.db, results[i], d))
  {
    hide Inv, Rows, Deleted, IsHitOf;
    RowsAfterDelete(cfg, s.db, d, key);
    var results := CacheGet(cfg, s, key, now).value;
    RemovingOtherRows(results, Rows(cfg, s.db, key), Rows(cfg, Deleted(s.db, d), key), key.request.topK);
    forall i | 0 <= i < |results|
      ensures results[i] in Rows(cfg, Deleted(s.db, d), key) <==> !IsHitOf(s.db, results[i], d)
    {
      assert results[i] in Elements(results);
    }
  }

  // A ranking stays right for fewer rows exactly when it lists none of the rows that went.
  lemma RemovingOtherRows(results: seq<Hit>, rows: set<Hit>, left: set<Hit>, k: nat)
    requires IsTopK(results, rows, k) && left <= rows
    ensures IsTopK(results, left, k) <==> forall i :: 0 <= i < |results| ==> results[i] in left
  {
    if forall i :: 0 <= i < |results| ==> results[i] in left {
      ElementsCount(results);
      assert Elements(results) <= left;
      SubsetCount(Elements(results), left);
      SubsetCount(left, rows);
    } else {
      var i :| 0 <= i < |results| && results[i] !in left;
      assert results[i] in Elements(results);
    }
  }

  // ---------- When a cached answer is right, over whole runs ----------

  // The step deletes the document of the hit.
  ghost predicate TakesHit(s: State, ev: Event, org: Id, h: Hit) {
    Deletes(s, ev, org) && IsHitOf(s.db, h, ev.document)
  }

  // The document of the hit was deleted after event m.
  ghost predicate DeletedSince(run: Run, m: nat, n: nat, org: Id, h: Hit)
    requires |run.states| == |run.events| + 1 && n < |run.states|
  {
    exists j :: m < j < n && TakesHit(run.states[j], run.events[j], org, h)
  }

  // A step that indexes nothing takes out the hits of the document it deletes, if it deletes one.
  lemma RowsAfterStep(cfg: Config, s: State, ev: Event, at: int, t: State, key: CacheKey)
    requires Inv(cfg, s.db) && Next(cfg, s, ev, at, t) && !Processes(cfg, s, ev, key.org)
    ensures Rows(cfg, t.db, key) == set h | h in Rows(cfg, s.db, key) && !TakesHit(s, ev, key.org, h)
  {
    hide Inv, Rows, IsHitOf, Deleted;
    if Deletes(s, ev, key.org) {
      RowsAfterDelete(cfg, s.db, ev.document, key);
    } else {
      hide Next, Processes;
      StepKeepsRows(cfg, s, ev, at, t, key);
    }
  }

  // What a search ranks is what it ranked when the entry was written, without the documents deleted since.
  lemma {:induction false} RowsSince(cfg: Config, run: Run, m: nat, n: nat, key: CacheKey)
    requires IsRun(cfg, run) && m < n < |run.states|
    requires run.events[m].Search?
    requires forall j :: m < j < n ==> !Processes(cfg, run.states[j], run.events[j], key.org)
    ensures Rows(cfg, run.states[n].db, key)
         == set h | h in Rows(cfg, run.states[m].db, key) && !DeletedSince(run, m, n, key.org, h)
    decreases n
  {
    hide Inv, Rows, Next, Processes, TakesHit;
    if m == n - 1 {
      SearchChangesNoTable(cfg, run.states[m], run.events[m], run.times[m], run.states[n]);
    } else {
      ReachableInv(cfg, run, n - 1);
      RowsSince(cfg, run, m, n - 1, key);
      RowsAfterStep(cfg, run.states[n - 1], run.events[n - 1], run.times[n - 1], run.states[n], key);
      hide IsRun;
      forall h | h in Rows(cfg, run.states[m].db, key)
        ensures DeletedSince(run, m, n, key.org, h)
           <==> DeletedSince(run, m, n - 1, key.org, h) || TakesHit(run.states[n - 1], run.events[n - 1], key.org, h)
      {
      }
    }
  }

  // At any moment of a run a cached answer is right if and only if it shows no document deleted since the
  // answer was written.
  lemma CachedAnswerIsRightIff(cfg: Config, run: Run, m: nat, n: nat, key: CacheKey, now: int)
    requires IsRun(cfg, run) && m < n < |run.states|
    requires CacheGet(cfg, run.states[n], key, now).Some? && WrittenAt(cfg, run, m, n, key)
    ensures var results := CacheGet(cfg, run.states[n], key, now).value;
      Fresh(cfg, run.states[n].db, key, results) <==>
        forall i :: 0 <= i < |results| ==> !DeletedSince(run, m, n, key.org, results[i])
  {
    hide Next, Rows, Processes, DeletedSince;
    RowsSince(cfg, run, m, n, key);
    var results := CacheGet(cfg, run.states[n], key, now).value;
    var before, left := Rows(cfg, run.states[m].db, key), Rows(cfg, run.states[n].db, key);
    RemovingOtherRows(results, before, left, key.request.topK);
    forall i | 0 <= i < |results|
      ensures results[i] in left <==> !DeletedSince(run, m, n, key.org, results[i])
    {
      assert results[i] in Elements(results);
    }
  }
}
