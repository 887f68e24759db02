// Background indexing: jobs run in the order they were queued, and once the queue is drained the newest
// queued upload of a live document is its current version.
module KnowledgeQueue {
  import opened Common
  import opened Text
  import opened Chunking
  import opened KnowledgeModel
  import opened KnowledgeInvariants
  import opened KnowledgeViews
  import opened KnowledgeVersions

  lemma IngestKeepsQueue(cfg: Config, s: State, v: Id)
    ensures IngestPendingVersion(cfg, s, v).queue == s.queue
  {
    hide Reindexed, Chunks;
  }

  // A drain of n jobs takes the n oldest ones, and no more than there are; the rest stay queued.
  lemma {:induction false} DrainTakesOldest(cfg: Config, s: State, n: nat)
    ensures Drain(cfg, s, n).queue == s.queue[..|s.queue| - Min(n, |s.queue|)]
    decreases n
  {
    hide IngestPendingVersion;
    if n > 0 && s.queue != [] {
      IngestKeepsQueue(cfg, s.(queue := s.queue[..|s.queue| - 1]), NextJob(s));
      DrainTakesOldest(cfg, RunJob(cfg, s), n - 1);
    }
  }

  // ---------- Runs in which every upload is queued ----------

  predicate QueuedEvent(ev: Event) {
    (ev.Store? ==> !ev.upload.inline) && !ev.Ingest?
  }

  // Job i is for a newer version than job j.
  ghost predicate NewerJob(db: Tables, queue: seq<Id>, i: nat, j: nat)
    requires i < |queue| && j < |queue|
  {
    queue[i] in db.versions && queue[j] in db.versions
    && (db.versions[queue[i]].document == db.versions[queue[j]].document
        ==> db.versions[queue[i]].number > db.versions[queue[j]].number)
  }

  // A job for the newest version of document d is queued.
  ghost predicate NewestQueued(db: Tables, queue: seq<Id>, d: Id)
    requires d in db.documents
  {
    exists v :: v in queue && IsVersion(db, v, d, db.documents[d].latest)
  }

  ghost predicate NewestCurrent(db: Tables, d: Id)
    requires d in db.documents
  {
    IsVersion(db, db.documents[d].current, d, db.documents[d].latest)
  }

  ghost predicate JobOk(db: Tables, queue: seq<Id>, v: Id) {
    v in db.versions && db.versions[v].document in db.documents && NewestQueued(db, queue, db.versions[v].document)
  }

  // Jobs of one document are queued in version order, up to its newest version; and a live document's
  // current version is its newest one unless the job for that is still queued.
  ghost predicate QueueInv(s: State) {
    && (forall i, j :: 0 <= i < j < |s.queue| ==> NewerJob(s.db, s.queue, i, j))
    && (forall v :: v in s.queue ==> JobOk(s.db, s.queue, v))
    && (forall d :: d in s.db.documents && !s.db.documents[d].deleted ==>
      NewestCurrent(s.db, d) || NewestQueued(s.db, s.queue, d))
  }

  // Steps that leave the queue alone, keep every version where it is and only ever make a live document's
  // newest version current.
  ghost predicate HeadersKeep(db: Tables, t: Tables) {
    && t.documents.Keys == db.documents.Keys
    && (forall v :: v in db.versions ==> VersionPersists(db, t, v))
    && (forall d :: d in db.documents ==> t.documents[d].latest == db.documents[d].latest)
    && (forall d :: d in db.documents ==> t.documents[d].current == db.documents[d].current)
    && (forall d :: d in db.documents && !t.documents[d].deleted ==> !db.documents[d].deleted)
  }

  lemma HeadersKeepQueueInv(s: State, t: State)
    requires QueueInv(s) && t.queue == s.queue && HeadersKeep(s.db, t.db)
    ensures QueueInv(t)
  {
    assert forall v, d, n :: IsVersion(s.db, v, d, n) ==> IsVersion(t.db, v, d, n);
    forall i, j | 0 <= i < j < |t.queue|
      ensures NewerJob(t.db, t.queue, i, j)
    {
      assert NewerJob(s.db, s.queue, i, j);
      assert VersionPersists(s.db, t.db, s.queue[i]) && VersionPersists(s.db, t.db, s.queue[j]);
    }
    forall d | d in s.db.documents && NewestQueued(s.db, s.queue, d)
      ensures NewestQueued(t.db, t.queue, d)
    {
      var v :| v in s.queue && IsVersion(s.db, v, d, s.db.documents[d].latest);
      assert IsVersion(t.db, v, d, t.db.documents[d].latest);
    }
    forall v | v in t.queue
      ensures JobOk(t.db, t.queue, v)
    {
      assert JobOk(s.db, s.queue, v);
    }
  }

  lemma ReindexPersists(cfg: Config, db: Tables, d: Id, v: Id, items: seq<Chunk>, reset: bool, w: Id)
    requires d in db.documents && v in db.versions && w in db.versions
    ensures VersionPersists(db, Reindexed(cfg, db, d, v, items, reset), w)
  {
    hide NewChunks, NewEmbeddings, EmbeddingsWithout, ChunksWithout;
  }

  lemma ReindexDocuments(cfg: Config, db: Tables, d: Id, v: Id, items: seq<Chunk>, reset: bool)
    requires d in db.documents && v in db.versions && db.versions[v].document == d && NumberInRange(db, v)
    ensures Reindexed(cfg, db, d, v, items, reset).documents == db.documents[d := db.documents[d].(current := v)]
  {
    hide NewChunks, NewEmbeddings, EmbeddingsWithout, ChunksWithout;
  }

  lemma CurrentIsVersion(cfg: Config, db: Tables, d: Id)
    requires Inv(cfg, db) && d in db.documents
    ensures var v := db.documents[d].current;
      v in db.versions && db.versions[v].document == d && NumberInRange(db, v)
  {
    assert DocumentRefs(db, d);
    assert NumberInRange(db, db.documents[d].current);
  }

  lemma ReindexCurrentKeeps(cfg: Config, db: Tables, d: Id, items: seq<Chunk>, reset: bool)
    requires Inv(cfg, db) && d in db.documents && db.documents[d].current in db.versions
    ensures HeadersKeep(db, Reindexed(cfg, db, d, db.documents[d].current, items, reset))
  {
    hide Inv, Reindexed, VersionPersists, NumberInRange;
    var v := db.documents[d].current;
    CurrentIsVersion(cfg, db, d);
    ReindexDocuments(cfg, db, d, v, items, reset);
    forall w | w in db.versions
      ensures VersionPersists(db, Reindexed(cfg, db, d, v, items, reset), w)
    {
      ReindexPersists(cfg, db, d, v, items, reset, w);
    }
  }

  lemma DeleteKeeps(cfg: Config, db: Tables, d: Id)
    requires d in db.documents
    ensures HeadersKeep(db, Deleted(db, d))
  {
    DeletedTables(db, d);
    hide Deleted;
  }

  lemma CreateKeeps(cfg: Config, db: Tables, org: Id, name: string)
    requires Inv(cfg, db)
    ensures HeadersKeep(db, CreateBase(db, org, name).0)
  {
    CreateGrowsBases(cfg, db, org, name);
    hide CreateBase, Inv;
  }

  // ---------- A queued upload ----------

  lemma StoreQueue(cfg: Config, s: State, org: Id, kb: Id, p: Upload, text: string, existing: Option<Id>)
    requires Inv(cfg, s.db) && QueueInv(s) && MayStore(s.db, org, kb, p, existing)
    requires existing.Some? ==> existing.value in s.db.documents
    requires !cfg.hasRedis ==> s.queue == []
    ensures QueueInv(Enqueue(cfg, s.(db := StoreUpload(s.db, org, kb, p, text, existing)), s.db.nextId + 1))
  {
    hide StoreUpload, Inv, MayStore, IsStored, IsTarget, VersionPersists, QueueInv;
    var t := StoreUpload(s.db, org, kb, p, text, existing);
    LookupFindsTarget(s.db, org, kb, p, existing);
    StoredTables(s.db, org, kb, p, text, existing);
    StoredFacts(cfg, s.db, org, kb, p, text, existing, t);
    var v := s.db.nextId + 1;
    if cfg.hasRedis {
      QueueAfterStore(s, t, TargetDocument(s.db, existing), v, [v] + s.queue);
    } else {
      QueueAfterStore(s, t, TargetDocument(s.db, existing), v, s.queue);
    }
  }

  // Version v is the new newest and current version of d; all else is as before.
  ghost predicate IsNewest(db: Tables, t: Tables, d: Id, v: Id) {
    && d in t.documents && t.documents.Keys == db.documents.Keys + {d}
    && IsVersion(t, v, d, t.documents[d].latest) && t.documents[d].current == v && v !in db.versions
    && (forall x :: x in db.documents && x != d ==> t.documents[x] == db.documents[x])
    && (forall w :: w in db.versions ==> VersionPersists(db, t, w))
    && (forall w :: w in db.versions && db.versions[w].document == d ==> db.versions[w].number < t.documents[d].latest)
  }

  lemma StoredFacts(cfg: Config, db: Tables, org: Id, kb: Id, p: Upload, text: string, existing: Option<Id>, t: Tables)
    requires Inv(cfg, db) && IsTarget(db, kb, p, existing) && IsStored(db, org, kb, p, text, existing, t)
    ensures IsNewest(db, t, TargetDocument(db, existing), db.nextId + 1)
  {
    hide BuildDocumentKey, BuildChecksum, Refs, Deletions, Indexed;
    StoreLatest(db, org, kb, p, text, existing, t);
    forall w | w in db.versions && db.versions[w].document == TargetDocument(db, existing)
      ensures db.versions[w].number < t.documents[TargetDocument(db, existing)].latest
    {
      assert NumberInRange(db, w);
    }
  }

  lemma QueueAfterStore(s: State, t: Tables, d: Id, v: Id, queue: seq<Id>)
    requires QueueInv(s) && IsNewest(s.db, t, d, v)
    requires queue == [v] + s.queue || (queue == s.queue && s.queue == [])
    ensures QueueInv(s.(db := t, queue := queue))
  {
    assert forall w :: w in queue ==> w == v || w in s.queue;
    forall i, j | 0 <= i < j < |queue|
      ensures NewerJob(t, queue, i, j)
    {
      assert JobOk(s.db, s.queue, s.queue[j - 1]) && VersionPersists(s.db, t, s.queue[j - 1]);
      if i > 0 {
        assert NewerJob(s.db, s.queue, i - 1, j - 1);
        assert VersionPersists(s.db, t, s.queue[i - 1]);
      }
    }
    forall x | x in s.db.documents && x != d && NewestQueued(s.db, s.queue, x)
      ensures NewestQueued(t, queue, x)
    {
      StillQueued(s, t, d, v, queue, x);
    }
    forall w | w in queue
      ensures JobOk(t, queue, w)
    {
      if w != v {
        assert JobOk(s.db, s.queue, w) && VersionPersists(s.db, t, w);
      }
      if t.versions[w].document == d {
        assert v in queue && IsVersion(t, v, d, t.documents[d].latest);
      }
    }
    forall x | x in t.documents && !t.documents[x].deleted
      ensures NewestCurrent(t, x) || NewestQueued(t, queue, x)
    {
      if x != d && NewestCurrent(s.db, x) {
        assert VersionPersists(s.db, t, s.db.documents[x].current);
      }
    }
  }

  lemma StillQueued(s: State, t: Tables, d: Id, v: Id, queue: seq<Id>, x: Id)
    requires IsNewest(s.db, t, d, v) && x in s.db.documents && x != d && NewestQueued(s.db, s.queue, x)
    requires forall w :: w in s.queue ==> w in queue
    ensures NewestQueued(t, queue, x)
  {
    var w :| w in s.queue && IsVersion(s.db, w, x, s.db.documents[x].latest);
    assert VersionPersists(s.db, t, w);
    assert w in queue && IsVersion(t, w, x, t.documents[x].latest);
  }

  // ---------- A job ----------

  // The state with the oldest job taken off but not yet run.
  function Taken(s: State): State
    requires s.queue != []
  {
    s.(queue := s.queue[..|s.queue| - 1])
  }

  lemma TakeSplits(s: State, w: Id)
    requires s.queue != [] && w in s.queue
    ensures w == NextJob(s) || w in Taken(s).queue
  {
    var i :| 0 <= i < |s.queue| && s.queue[i] == w;
    assert i < |s.queue| - 1 ==> Taken(s).queue[i] == w;
  }

  // The newest version's job stays queued, unless it is the one taken.
  lemma NewestAfterTake(s: State, d: Id)
    requires s.queue != [] && d in s.db.documents && NewestQueued(s.db, s.queue, d)
    ensures NewestQueued(s.db, Taken(s).queue, d) || IsVersion(s.db, NextJob(s), d, s.db.documents[d].latest)
  {
    var w :| w in s.queue && IsVersion(s.db, w, d, s.db.documents[d].latest);
    TakeSplits(s, w);
  }

  lemma JobsAfterTake(s: State, w: Id)
    requires Numbered(s.db) && QueueInv(s) && s.queue != [] && w in Taken(s).queue
    ensures JobOk(s.db, Taken(s).queue, w)
  {
    var last := |s.queue| - 1;
    var i :| 0 <= i < last && s.queue[i] == w;
    assert w in s.queue && JobOk(s.db, s.queue, w);
    assert NewerJob(s.db, s.queue, i, last);
    var d := s.db.versions[w].document;
    assert NumberInRange(s.db, w);
    NewestAfterTake(s, d);
  }

  lemma TakeKeepsOrder(s: State)
    requires Numbered(s.db) && QueueInv(s) && s.queue != []
    ensures forall i, j :: 0 <= i < j < |Taken(s).queue| ==> NewerJob(s.db, Taken(s).queue, i, j)
    ensures forall w :: w in Taken(s).queue ==> JobOk(s.db, Taken(s).queue, w)
    ensures JobOk(s.db, s.queue, NextJob(s))
  {
    forall i, j | 0 <= i < j < |Taken(s).queue|
      ensures NewerJob(s.db, Taken(s).queue, i, j)
    {
      assert NewerJob(s.db, s.queue, i, j);
    }
    forall w | w in Taken(s).queue
      ensures JobOk(s.db, Taken(s).queue, w)
    {
      JobsAfterTake(s, w);
    }
  }

  // Dropping a job whose version is deleted loses nothing: the newest version of a live document is live.
  lemma DropDeletedJob(cfg: Config, s: State)
    requires Inv(cfg, s.db) && QueueInv(s) && s.queue != [] && !Ingestible(s.db, NextJob(s))
    ensures QueueInv(Taken(s))
  {
    hide Refs, Indexed, IdsBelow;
    TakeKeepsOrder(s);
    var v := NextJob(s);
    IngestibleIfLive(cfg, s.db, v);
    forall d | d in s.db.documents && !s.db.documents[d].deleted
      ensures NewestCurrent(s.db, d) || NewestQueued(s.db, Taken(s).queue, d)
    {
      if NewestQueued(s.db, s.queue, d) {
        NewestAfterTake(s, d);
        assert VersionDeletion(s.db, v);
      }
    }
  }

  lemma IngestibleIfLive(cfg: Config, db: Tables, v: Id)
    requires Inv(cfg, db) && v in db.versions
    ensures Ingestible(db, v) <==> !db.versions[v].deleted
  {
    hide Numbered, Indexed, Deletions, IdsBelow;
    assert VersionRefs(db, v);
  }

  // What running the job of version v does to the tables the queue invariant looks at.
  ghost predicate JobHeaders(db: Tables, t: Tables, v: Id)
    requires v in db.versions && db.versions[v].document in db.documents
  {
    var d := db.versions[v].document;
    && t.documents == db.documents[d := db.documents[d].(current := v)]
    && (forall w :: w in db.versions ==> VersionPersists(db, t, w))
  }

  lemma JobKeepsQueueInv(s: State, t: Tables)
    requires Numbered(s.db) && QueueInv(s) && s.queue != []
    requires NextJob(s) in s.db.versions && s.db.versions[NextJob(s)].document in s.db.documents
    requires JobHeaders(s.db, t, NextJob(s))
    ensures QueueInv(Taken(s).(db := t))
  {
    var v, rest := NextJob(s), Taken(s).queue;
    TakeKeepsOrder(s);
    forall i, j | 0 <= i < j < |rest|
      ensures NewerJob(t, rest, i, j)
    {
      assert NewerJob(s.db, rest, i, j);
      assert VersionPersists(s.db, t, rest[i]) && VersionPersists(s.db, t, rest[j]);
    }
    forall d | d in s.db.documents && NewestQueued(s.db, rest, d)
      ensures NewestQueued(t, rest, d)
    {
      var w :| w in rest && IsVersion(s.db, w, d, s.db.documents[d].latest);
      assert VersionPersists(s.db, t, w);
      assert IsVersion(t, w, d, t.documents[d].latest);
    }
    forall w | w in rest
      ensures JobOk(t, rest, w)
    {
      assert JobOk(s.db, rest, w) && VersionPersists(s.db, t, w);
    }
    forall d | d in t.documents && !t.documents[d].deleted
      ensures NewestCurrent(t, d) || NewestQueued(t, rest, d)
    {
      JobNewest(s, t, d);
    }
  }

  lemma JobNewest(s: State, t: Tables, d: Id)
    requires QueueInv(s) && s.queue != []
    requires NextJob(s) in s.db.versions && s.db.versions[NextJob(s)].document in s.db.documents
    requires JobHeaders(s.db, t, NextJob(s))
    requires d in s.db.documents && !s.db.documents[d].deleted
    requires JobOk(s.db, s.queue, NextJob(s))
    requires forall x :: x in s.db.documents && NewestQueued(s.db, Taken(s).queue, x) ==>
      NewestQueued(t, Taken(s).queue, x)
    ensures d in t.documents && (NewestCurrent(t, d) || NewestQueued(t, Taken(s).queue, d))
  {
    var v := NextJob(s);
    assert VersionPersists(s.db, t, v);
    if s.db.versions[v].document == d {
      NewestAfterTake(s, d);
    } else if NewestCurrent(s.db, d) {
      assert VersionPersists(s.db, t, s.db.documents[d].current);
    } else {
      NewestAfterTake(s, d);
    }
  }

  lemma RunJobKeepsQueueInv(cfg: Config, s: State)
    requires Inv(cfg, s.db) && QueueInv(s) && s.queue != []
    ensures QueueInv(RunJob(cfg, s))
  {
    var v := NextJob(s);
    if Ingestible(s.db, v) {
      IngestibleMayReindex(cfg, s.db, v);
      assert NumberInRange(s.db, v);
      hide Refs, Indexed, Deletions, IdsBelow, Chunks, Reindexed, QueueInv, VersionPersists, Numbered;
      var d, items := s.db.versions[v].document, Chunks(cfg, s.db.versions[v].text);
      ReindexDocuments(cfg, s.db, d, v, items, true);
      forall w | w in s.db.versions
        ensures VersionPersists(s.db, Reindexed(cfg, s.db, d, v, items, true), w)
      {
        ReindexPersists(cfg, s.db, d, v, items, true, w);
      }
      var t := Reindexed(cfg, s.db, d, v, items, true);
      JobKeepsQueueInv(s, t);
      QueueInvIgnoresCache(Taken(s).(db := t), RunJob(cfg, s));
    } else {
      hide Inv, QueueInv;
      DropDeletedJob(cfg, s);
    }
  }

  lemma QueueInvIgnoresCache(s: State, t: State)
    requires QueueInv(s) && t.db == s.db && t.queue == s.queue
    ensures QueueInv(t)
  {
  }

  // ---------- Every step ----------

  lemma UploadKeepsQueueInv(cfg: Config, s: State, org: Id, kb: Id, p: Upload)
    requires Inv(cfg, s.db) && QueueInv(s) && !p.inline && (!cfg.hasRedis ==> s.queue == [])
    ensures QueueInv(UploadDocument(cfg, s, org, kb, p).0)
    ensures !cfg.hasRedis ==> UploadDocument(cfg, s, org, kb, p).0.queue == []
  {
    hide Inv, QueueInv, StoreUpload, ByDocumentKey, BuildDocumentKey, IsUnchangedUpload, Strip;
    var text := Strip(cfg.parse(p));
    var existing := ByDocumentKey(s.db, kb, BuildDocumentKey(p, s.db.nextId));
    if UploadRefusal(cfg, s.db, org, kb, p).None? && !IsUnchangedUpload(s.db, kb, p, text) {
      StoreKeepsInv(cfg, s.db, org, kb, p, text, existing);
      StoreQueue(cfg, s, org, kb, p, text, existing);
    }
  }

  lemma StepKeepsQueueInv(cfg: Config, s: State, ev: Event, at: int, t: State)
    requires Inv(cfg, s.db) && QueueInv(s) && (!cfg.hasRedis ==> s.queue == [])
    requires Next(cfg, s, ev, at, t) && QueuedEvent(ev)
    ensures QueueInv(t) && (!cfg.hasRedis ==> t.queue == [])
  {
    hide Inv, QueueInv, CreateBase, UploadDocument, Deleted, Fresh, Chunks, Reindexed, RunJob, HeadersKeep;
    match ev
    case Create(org, name) =>
      CreateKeeps(cfg, s.db, org, name);
      HeadersKeepQueueInv(s, t);
    case Store(org, kb, p) => UploadKeepsQueueInv(cfg, s, org, kb, p);
    case Delete(org, d) =>
      if HasDocument(s.db, org, d) {
        DeleteKeeps(cfg, s.db, d);
        HeadersKeepQueueInv(s, t);
      }
    case Reindex(org, d) =>
      if HasDocument(s.db, org, d) && s.db.documents[d].current in s.db.versions {
        ReindexCurrentKeeps(cfg, s.db, d, Chunks(cfg, s.db.versions[s.db.documents[d].current].text), true);
        HeadersKeepQueueInv(s, t);
      }
    case Job =>
      if s.queue != [] {
        RunJobKeepsQueueInv(cfg, s);
      }
    case Search(_, _) => QueueInvIgnoresCache(s, t);
  }

  lemma {:induction false} QueuedRunInv(cfg: Config, run: Run, n: nat)
    requires IsRun(cfg, run) && n < |run.states| && forall i :: 0 <= i < n ==> QueuedEvent(run.events[i])
    ensures QueueInv(run.states[n]) && (!cfg.hasRedis ==> run.states[n].queue == [])
    decreases n
  {
    hide Next;
    if n > 0 {
      QueuedRunInv(cfg, run, n - 1);
      ReachableInv(cfg, run, n - 1);
      hide Inv, QueueInv;
      StepKeepsQueueInv(cfg, run.states[n - 1], run.events[n - 1], run.times[n - 1], run.states[n]);
    }
  }

  // When every upload was queued and the queue has been drained, the current version of each live
  // document is its newest one, whatever was deleted, reindexed or searched in between.
  lemma NewestQueuedUploadWins(cfg: Config, run: Run, n: nat, d: Id)
    requires IsRun(cfg, run) && n < |run.states| && forall i :: 0 <= i < n ==> QueuedEvent(run.events[i])
    requires run.states[n].queue == []
    requires d in run.states[n].db.documents && !run.states[n].db.documents[d].deleted
    ensures NewestCurrent(run.states[n].db, d)
  {
    hide IsRun;
    QueuedRunInv(cfg, run, n);
    assert !NewestQueued(run.states[n].db, [], d);
  }

  // ---------- Deleted documents ----------

  predicate IsDeleted(db: Tables, d: Id) {
    d in db.documents && db.documents[d].deleted
  }

  // The step deletes document d.
  predicate DeletesDocument(s: State, ev: Event, d: Id) {
    ev.Delete? && ev.document == d && HasDocument(s.db, ev.org, d)
  }

  // Document d has the same current version and the same number of versions.
  predicate SameHeader(db: Tables, t: Tables, d: Id) {
    && d in db.documents && d in t.documents
    && t.documents[d].current == db.documents[d].current && t.documents[d].latest == db.documents[d].latest
  }

  lemma IngestDeletedHeader(cfg: Config, s: State, v: Id, d: Id)
    requires Inv(cfg, s.db) && IsDeleted(IngestPendingVersion(cfg, s, v).db, d)
    ensures IsDeleted(s.db, d) && SameHeader(s.db, IngestPendingVersion(cfg, s, v).db, d)
  {
    hide Inv, Chunks, Reindexed;
    if Ingestible(s.db, v) {
      var x := s.db.versions[v].document;
      CurrentOfLive(cfg, s.db, v);
      InvVersionInRange(cfg, s.db, v);
      ReindexDocuments(cfg, s.db, x, v, Chunks(cfg, s.db.versions[v].text), true);
    }
  }

  lemma InvVersionInRange(cfg: Config, db: Tables, v: Id)
    requires Inv(cfg, db) && v in db.versions
    ensures NumberInRange(db, v)
  {
  }

  lemma UploadDeletedHeader(cfg: Config, s: State, org: Id, kb: Id, p: Upload, d: Id)
    requires Inv(cfg, s.db) && IsDeleted(UploadDocument(cfg, s, org, kb, p).0.db, d)
    ensures IsDeleted(s.db, d) && SameHeader(s.db, UploadDocument(cfg, s, org, kb, p).0.db, d)
  {
    hide Inv, StoreUpload, ByDocumentKey, BuildDocumentKey, IsUnchangedUpload, Strip, Chunks, Reindexed, MayReindex;
    var text := Strip(cfg.parse(p));
    var existing := ByDocumentKey(s.db, kb, BuildDocumentKey(p, s.db.nextId));
    if UploadRefusal(cfg, s.db, org, kb, p).None? && !IsUnchangedUpload(s.db, kb, p, text) {
      StoreKeepsInv(cfg, s.db, org, kb, p, text, existing);
      var stored := StoreUpload(s.db, org, kb, p, text, existing);
      var x, v := TargetDocument(s.db, existing), s.db.nextId + 1;
      MayReindexHeaders(stored, x, v, false);
      StoredHeaders(s.db, org, kb, p, text, existing);
      InvVersionInRange(cfg, stored, v);
      ReindexDocuments(cfg, stored, x, v, Chunks(cfg, stored.versions[v].text), false);
    }
  }

  lemma StoredHeaders(db: Tables, org: Id, kb: Id, p: Upload, text: string, existing: Option<Id>)
    requires existing.Some? ==> existing.value in db.documents
    ensures var t, x, v := StoreUpload(db, org, kb, p, text, existing), TargetDocument(db, existing), db.nextId + 1;
      && t.documents == db.documents[x := StoredDocument(db, org, kb, p, text, existing)]
      && !t.documents[x].deleted && v in t.versions && t.versions[v].document == x
  {
  }

  // Only a deletion makes a document deleted, and while it is deleted no step changes its header.
  lemma DeletedHeaderStep(cfg: Config, s: State, ev: Event, at: int, t: State, d: Id)
    requires Inv(cfg, s.db) && Next(cfg, s, ev, at, t) && IsDeleted(t.db, d)
    ensures SameHeader(s.db, t.db, d)
    ensures !IsDeleted(s.db, d) ==> DeletesDocument(s, ev, d)
  {
    hide Inv, UploadDocument, IngestPendingVersion, Fresh, Chunks, Reindexed;
    match ev
    case Create(_, _) =>
    case Store(org, kb, p) => UploadDeletedHeader(cfg, s, org, kb, p, d);
    case Delete(_, _) =>
    case Reindex(org, x) =>
      if HasDocument(s.db, org, x) {
        CurrentIsVersion(cfg, s.db, x);
        var v := s.db.documents[x].current;
        ReindexDocuments(cfg, s.db, x, v, Chunks(cfg, s.db.versions[v].text), true);
      }
    case Ingest(v) => IngestDeletedHeader(cfg, s, v, d);
    case Job =>
      if s.queue != [] {
        IngestDeletedHeader(cfg, Taken(s), NextJob(s), d);
      }
    case Search(_, _) =>
  }

  // Event j deletes the live document d, which then stays deleted up to state n.
  ghost predicate DeletedFrom(run: Run, j: nat, n: nat, d: Id)
    requires |run.states| == |run.events| + 1 && j < n < |run.states|
  {
    && DeletesDocument(run.states[j], run.events[j], d) && !IsDeleted(run.states[j].db, d)
    && forall i :: j < i <= n ==> IsDeleted(run.states[i].db, d)
  }

  lemma NewestCurrentStep(cfg: Config, s: State, ev: Event, at: int, t: State, d: Id)
    requires Inv(cfg, s.db) && Next(cfg, s, ev, at, t) && SameHeader(s.db, t.db, d)
    ensures NewestCurrent(t.db, d) <==> NewestCurrent(s.db, d)
  {
    hide Next;
    CurrentIsVersion(cfg, s.db, d);
    hide Inv;
    StepPersists(cfg, s, ev, at, t, s.db.documents[d].current);
  }

  lemma DeletedStepOfRun(cfg: Config, run: Run, m: nat, d: Id)
    requires IsRun(cfg, run) && m < |run.events| && IsDeleted(run.states[m + 1].db, d)
    ensures d in run.states[m].db.documents
    ensures NewestCurrent(run.states[m + 1].db, d) <==> NewestCurrent(run.states[m].db, d)
    ensures !IsDeleted(run.states[m].db, d) ==> DeletesDocument(run.states[m], run.events[m], d)
  {
    hide Next, NewestCurrent, DeletesDocument;
    var s, ev, at, t := run.states[m], run.events[m], run.times[m], run.states[m + 1];
    ReachableInv(cfg, run, m);
    hide Inv;
    DeletedHeaderStep(cfg, s, ev, at, t, d);
    NewestCurrentStep(cfg, s, ev, at, t, d);
  }

  // A deleted document was deleted by some last event, and has its newest version current exactly if it had then.
  lemma {:induction false} LastDeletion(cfg: Config, run: Run, n: nat, d: Id) returns (j: nat)
    requires IsRun(cfg, run) && n < |run.states| && IsDeleted(run.states[n].db, d)
    ensures j < n && DeletedFrom(run, j, n, d)
    ensures NewestCurrent(run.states[n].db, d) <==> NewestCurrent(run.states[j].db, d)
    decreases n
  {
    hide Next, NewestCurrent, IsDeleted, DeletesDocument;
    NothingDeletedAtFirst(d);
    j := n - 1;
    DeletedStepOfRun(cfg, run, j, d);
    if IsDeleted(run.states[j].db, d) {
      j := LastDeletion(cfg, run, n - 1, d);
    }
  }

  lemma NothingDeletedAtFirst(d: Id)
    ensures !IsDeleted(EMPTY.db, d)
  {
  }

  // From its deletion on, a document keeps its newest version current, or keeps not having it current.
  lemma {:induction false} DeletedKeepsCurrent(cfg: Config, run: Run, j: nat, n: nat, d: Id)
    requires IsRun(cfg, run) && j < n < |run.states| && DeletedFrom(run, j, n, d)
    ensures NewestCurrent(run.states[n].db, d) <==> NewestCurrent(run.states[j].db, d)
    decreases n
  {
    hide Next, NewestCurrent, IsDeleted, DeletesDocument;
    var m := n - 1;
    DeletedStepOfRun(cfg, run, m, d);
    if j < m {
      DeletedKeepsCurrent(cfg, run, j, m, d);
    }
  }

  // When every upload was queued and the queue has been drained, a document's current version is its newest
  // one if and only if the document is live or had its newest version current when it was deleted.
  lemma NewestIsCurrentIff(cfg: Config, run: Run, n: nat, d: Id)
    requires IsRun(cfg, run) && n < |run.states| && forall i :: 0 <= i < n ==> QueuedEvent(run.events[i])
    requires run.states[n].queue == [] && d in run.states[n].db.documents
    ensures NewestCurrent(run.states[n].db, d) <==>
      !IsDeleted(run.states[n].db, d)
      || exists j :: 0 <= j < n && DeletedFrom(run, j, n, d) && NewestCurrent(run.states[j].db, d)
  {
    hide Next, NewestCurrent;
    if IsDeleted(run.states[n].db, d) {
      var j := LastDeletion(cfg, run, n, d);
      if exists i :: 0 <= i < n && DeletedFrom(run, i, n, d) && NewestCurrent(run.states[i].db, d) {
        var i :| 0 <= i < n && DeletedFrom(run, i, n, d) && NewestCurrent(run.states[i].db, d);
        DeletedKeepsCurrent(cfg, run, i, n, d);
      }
    } else {
      NewestQueuedUploadWins(cfg, run, n, d);
    }
  }
}
