// Runs in which a property that one might expect fails.  Each goes with the exact condition proved
// elsewhere: two current versions, a deleted document without its newest version, a stale cached answer and
// a dropped upload.
module KnowledgeExamples {
  import opened Common
  import opened Text
  import opened Chunking
  import opened Ranking
  import opened KnowledgeModel
  import opened KnowledgeInvariants
  import opened KnowledgeQueue
  import opened KnowledgeCache
  import opened KnowledgeUploads

  // The plain-text parser hands on a pasted text of one word as it is.
  ghost predicate TakesPlainText(cfg: Config) {
    forall p: Upload :: p.sourceType == Txt && IsWord(p.contentText) ==> cfg.parse(p) == p.contentText
  }

  // A pasted text for the source "u".
  function Paste(file: string, content: string, inline: bool): Upload {
    Upload(Txt, "u", file, "", content, [], inline)
  }

  lemma PastedText(cfg: Config, p: Upload)
    requires TakesPlainText(cfg) && p.sourceType == Txt && IsWord(p.contentText)
    ensures Strip(cfg.parse(p)) == p.contentText
  {
    StripOfTrimmed(p.contentText);
  }

  // ---------- Building a run, all at time 0 ----------

  ghost predicate RunSoFar(cfg: Config, run: Run) {
    IsRun(cfg, run) && forall i :: 0 <= i < |run.times| ==> run.times[i] == 0
  }

  function Last(run: Run): State
    requires run.states != []
  {
    run.states[|run.states| - 1]
  }

  function Then(run: Run, ev: Event, t: State): Run {
    Run(run.states + [t], run.events + [ev], run.times + [0])
  }

  predicate QueuedOnly(run: Run) {
    forall i :: 0 <= i < |run.events| ==> QueuedEvent(run.events[i])
  }

  lemma ThenIsRun(cfg: Config, run: Run, ev: Event, t: State)
    requires RunSoFar(cfg, run) && Next(cfg, Last(run), ev, 0, t)
    ensures Then(run, ev, t).states != [] && RunSoFar(cfg, Then(run, ev, t)) && Last(Then(run, ev, t)) == t
    ensures QueuedOnly(run) && QueuedEvent(ev) ==> QueuedOnly(Then(run, ev, t))
    ensures Inv(cfg, t.db)
  {
    hide Next, Inv, QueuedEvent;
    var longer := Then(run, ev, t);
    forall i | 0 <= i < |longer.events|
      ensures Next(cfg, longer.states[i], longer.events[i], longer.times[i], longer.states[i + 1])
    {
      if i < |run.events| {
        assert longer.states[i] == run.states[i] && longer.states[i + 1] == run.states[i + 1];
      }
    }
    ReachableInv(cfg, longer, |longer.states| - 1);
  }

  // One base, 0, of organization 0.
  function OneBase(): State {
    State(Tables(map[0 := KnowledgeBase(0, "kb", false)], map[], map[], map[], map[], 1), [], map[])
  }

  function FirstRun(): Run {
    Run([EMPTY, OneBase()], [Create(0, "kb")], [0])
  }

  lemma BaseCreated(cfg: Config)
    ensures RunSoFar(cfg, FirstRun()) && QueuedOnly(FirstRun()) && Inv(cfg, OneBase().db)
  {
    var empty := Run([EMPTY], [], []);
    assert CreateBase(EMPTY.db, 0, "kb").0 == OneBase().db;
    hide Inv;
    ThenIsRun(cfg, empty, Create(0, "kb"), OneBase());
    assert Then(empty, Create(0, "kb"), OneBase()) == FirstRun();
  }

  // An upload whose source is new to the base, or known with another checksum, is stored.
  lemma UploadIsStored(cfg: Config, s: State, p: Upload, existing: Option<Id>)
    requires Inv(cfg, s.db) && TakesPlainText(cfg) && p.sourceType == Txt && IsWord(p.contentText)
    requires 0 in s.db.bases && s.db.bases[0].org == 0 && IsTarget(s.db, 0, p, existing)
    requires existing.Some? ==> s.db.documents[existing.value].checksum != BuildChecksum(p.contentText, p)
    ensures var d, v := TargetDocument(s.db, existing), s.db.nextId + 1;
      var stored := s.(db := StoreUpload(s.db, 0, 0, p, p.contentText, existing));
      && d in stored.db.documents && v in stored.db.versions
      && UploadDocument(cfg, s, 0, 0, p).1 == Done(v)
      && UploadDocument(cfg, s, 0, 0, p).0
           == if p.inline then ProcessVersion(cfg, stored, d, v, false) else Enqueue(cfg, stored, v)
  {
    PastedText(cfg, p);
    InvLookup(cfg, s.db, p, existing);
    hide Inv, BuildChecksum, BuildDocumentKey, Strip, ByDocumentKey, IsTarget, Reindexed;
  }

  lemma InvLookup(cfg: Config, db: Tables, p: Upload, existing: Option<Id>)
    requires Inv(cfg, db) && 0 in db.bases && db.bases[0].org == 0 && IsTarget(db, 0, p, existing)
    ensures existing == ByDocumentKey(db, 0, BuildDocumentKey(p, db.nextId)) && !db.bases[0].deleted
  {
    hide Numbered, Indexed, IdsBelow;
    TargetIsLookup(db, 0, 0, p, existing);
  }

  // ---------- Two uploads of one source ----------

  function Once(p: Upload): Tables {
    Tables(OneBase().db.bases,
           map[1 := Document(0, 0, Named(Txt, "u"), Txt, BuildChecksum(p.contentText, p), 1, 2, false)],
           map[2 := Version(0, 1, 1, p.contentText, true, false, 0, false)],
           map[], map[], 3)
  }

  function Twice(p: Upload, q: Upload): Tables {
    Tables(OneBase().db.bases,
           map[1 := Document(0, 0, Named(Txt, "u"), Txt, BuildChecksum(q.contentText, q), 2, 4, false)],
           map[2 := Version(0, 1, 1, p.contentText, false, false, 0, false),
               4 := Version(0, 1, 2, q.contentText, true, false, 0, false)],
           map[], map[], 5)
  }

  lemma StoredOnce(p: Upload)
    requires p.sourceType == Txt && p.sourceUri == "u"
    ensures IsTarget(OneBase().db, 0, p, None)
    ensures StoreUpload(OneBase().db, 0, 0, p, p.contentText, None) == Once(p)
  {
    hide BuildChecksum;
  }

  lemma StoredTwice(p: Upload, q: Upload)
    requires q.sourceType == Txt && q.sourceUri == "u"
    ensures IsTarget(Once(p), 0, q, Some(1))
    ensures StoreUpload(Once(p), 0, 0, q, q.contentText, Some(1)) == Twice(p, q)
  {
    hide BuildChecksum;
  }

  lemma OnceUploaded(cfg: Config, p: Upload)
    requires TakesPlainText(cfg) && p.sourceType == Txt && p.sourceUri == "u" && IsWord(p.contentText)
    ensures 1 in Once(p).documents && 2 in Once(p).versions
    ensures var stored := State(Once(p), [], map[]);
      UploadDocument(cfg, OneBase(), 0, 0, p).0
        == if p.inline then ProcessVersion(cfg, stored, 1, 2, false) else Enqueue(cfg, stored, 2)
  {
    BaseCreated(cfg);
    StoredOnce(p);
    UploadIsStored(cfg, OneBase(), p, None);
  }

  lemma DifferentChecksums()
    ensures BuildChecksum(Older().contentText, Older()) != BuildChecksum(Newer().contentText, Newer())
  {
    hide BuildChecksum;
    assert "a"[0] != "b"[0];
    ChecksumTellsTextsApart("a", "b", Older(), Newer());
  }

  function Older(): Upload {
    Paste("", "a", false)
  }

  function Newer(): Upload {
    Paste("", "b", false)
  }

  // The states of a run that queues both uploads and runs the job of the first one.
  function OneQueued(): State {
    State(Once(Older()), [2], map[])
  }

  function TwoQueued(): State {
    State(Twice(Older(), Newer()), [4, 2], map[])
  }

  function OlderRun(cfg: Config): State {
    State(Reindexed(cfg, Twice(Older(), Newer()), 1, 2, Chunks(cfg, "a"), true), [4], map[])
  }

  lemma QueuedPastes()
    ensures QueuedEvent(Store(0, 0, Older())) && QueuedEvent(Store(0, 0, Newer()))
    ensures QueuedEvent(Job) && QueuedEvent(Delete(0, 1))
  {
  }

  lemma QueueFirst(cfg: Config)
    requires cfg.hasRedis && TakesPlainText(cfg)
    ensures Next(cfg, OneBase(), Store(0, 0, Older()), 0, OneQueued())
  {
    hide UploadDocument, Once;
    OnceUploaded(cfg, Older());
  }

  lemma MayQueueSecond(cfg: Config)
    requires cfg.hasRedis
    ensures var s, p := OneQueued(), Newer();
      && p.sourceType == Txt && IsWord(p.contentText) && !p.inline
      && 0 in s.db.bases && s.db.bases[0].org == 0 && IsTarget(s.db, 0, p, Some(1))
      && 1 in s.db.documents && s.db.documents[1].checksum != BuildChecksum(p.contentText, p)
      && s.db.nextId == 3
      && Enqueue(cfg, s.(db := StoreUpload(s.db, 0, 0, p, p.contentText, Some(1))), 4) == TwoQueued()
  {
    DifferentChecksums();
    StoredTwice(Older(), Newer());
    hide BuildChecksum, StoreUpload, Twice, IsTarget;
  }

  lemma QueueSecond(cfg: Config)
    requires cfg.hasRedis && TakesPlainText(cfg) && Inv(cfg, OneQueued().db)
    ensures Next(cfg, OneQueued(), Store(0, 0, Newer()), 0, TwoQueued())
  {
    MayQueueSecond(cfg);
    hide Inv, UploadDocument, StoreUpload, BuildChecksum, TwoQueued;
    hide OneQueued, Newer, IsTarget, Enqueue, TakesPlainText;
    UploadIsStored(cfg, OneQueued(), Newer(), Some(1));
  }

  lemma RunOlder(cfg: Config)
    ensures Next(cfg, TwoQueued(), Job, 0, OlderRun(cfg))
  {
    hide Reindexed, Chunks, BuildChecksum;
  }

  lemma OlderJobHasRun(cfg: Config) returns (run: Run)
    requires cfg.hasRedis && TakesPlainText(cfg)
    ensures run.states != [] && RunSoFar(cfg, run) && QueuedOnly(run) && Last(run) == OlderRun(cfg)
  {
    BaseCreated(cfg);
    assert Last(FirstRun()) == OneBase();
    hide Inv, Next, RunSoFar, QueuedOnly, Then, Last, OlderRun, OneQueued, TwoQueued, Older, Newer, OneBase, FirstRun;
    QueuedPastes();
    QueueFirst(cfg);
    ThenIsRun(cfg, FirstRun(), Store(0, 0, Older()), OneQueued());
    run := Then(FirstRun(), Store(0, 0, Older()), OneQueued());
    QueueSecond(cfg);
    ThenIsRun(cfg, run, Store(0, 0, Newer()), TwoQueued());
    run := Then(run, Store(0, 0, Newer()), TwoQueued());
    RunOlder(cfg);
    ThenIsRun(cfg, run, Job, OlderRun(cfg));
    run := Then(run, Job, OlderRun(cfg));
  }

  // The rows of document 1 after that job: both versions are flagged, and the older one is current.
  lemma AfterOlderJob(cfg: Config)
    ensures var db := OlderRun(cfg).db;
      && db.documents.Keys == {1} && db.versions.Keys == {2, 4}
      && !db.documents[1].deleted && db.documents[1].org == 0
      && db.documents[1].current == 2 && db.documents[1].latest == 2
      && db.versions[2].document == 1 && db.versions[2].number == 1 && db.versions[2].isCurrent
      && db.versions[4].document == 1 && db.versions[4].isCurrent
  {
    hide NewChunks, NewEmbeddings, ChunksWithout, EmbeddingsWithout, BuildChecksum, Chunks;
  }

  // A queued job for a version that a later upload has replaced leaves two versions of its document current.
  lemma TwoCurrentVersions(cfg: Config) returns (run: Run, d: Id, v: Id, w: Id)
    requires cfg.hasRedis && TakesPlainText(cfg)
    ensures run.states != [] && RunSoFar(cfg, run)
    ensures v != w && v in Last(run).db.versions && w in Last(run).db.versions
    ensures var vs := Last(run).db.versions;
      vs[v].document == d && vs[w].document == d && vs[v].isCurrent && vs[w].isCurrent
  {
    hide OlderRun, RunSoFar, Last;
    run := OlderJobHasRun(cfg);
    AfterOlderJob(cfg);
    d, v, w := 1, 2, 4;
  }

  function OlderDeleted(cfg: Config): State
    requires 1 in OlderRun(cfg).db.documents
  {
    OlderRun(cfg).(db := Deleted(OlderRun(cfg).db, 1))
  }

  lemma DeleteOlder(cfg: Config)
    ensures 1 in OlderRun(cfg).db.documents
    ensures Next(cfg, OlderRun(cfg), Delete(0, 1), 0, OlderDeleted(cfg))
  {
    AfterOlderJob(cfg);
    hide OlderRun, Deleted;
  }

  lemma AfterDeleteOlder(cfg: Config)
    requires 1 in OlderRun(cfg).db.documents
    ensures OlderDeleted(cfg).queue == [4]
    ensures var db := OlderDeleted(cfg).db;
      && 1 in db.documents && db.documents[1].deleted && db.documents[1].current == 2 && db.documents[1].latest == 2
      && 2 in db.versions && db.versions[2].number == 1
      && 4 in db.versions && db.versions[4].deleted
  {
    AfterOlderJob(cfg);
    assert OlderRun(cfg).queue == [4];
    hide OlderRun, Deleted;
    AfterDelete(OlderRun(cfg).db, 1);
  }

  lemma RunNewest(cfg: Config)
    requires 1 in OlderRun(cfg).db.documents
    ensures Next(cfg, OlderDeleted(cfg), Job, 0, OlderDeleted(cfg).(queue := []))
    ensures IsDeleted(OlderDeleted(cfg).db, 1) && !NewestCurrent(OlderDeleted(cfg).db, 1)
  {
    AfterDeleteOlder(cfg);
    hide OlderRun, OlderDeleted;
    DropJob(cfg, OlderDeleted(cfg), 4);
  }

  // The job of a deleted version does nothing.
  lemma DropJob(cfg: Config, s: State, v: Id)
    requires s.queue == [v] && v in s.db.versions && s.db.versions[v].deleted
    ensures Next(cfg, s, Job, 0, s.(queue := []))
  {
    hide ProcessVersion;
    assert NextJob(s) == v && s.queue[..|s.queue| - 1] == [];
    assert !Ingestible(s.db, v);
  }

  // When the document is deleted before the second job runs, the queue drains without making its newest
  // version current.
  lemma DeletedBeforeNewestJob(cfg: Config) returns (run: Run, d: Id)
    requires cfg.hasRedis && TakesPlainText(cfg)
    ensures run.states != [] && RunSoFar(cfg, run) && QueuedOnly(run)
    ensures Last(run).queue == [] && IsDeleted(Last(run).db, d) && !NewestCurrent(Last(run).db, d)
  {
    hide Inv, Next, RunSoFar, QueuedOnly, Then, Last, OlderRun, OlderDeleted, IsDeleted, NewestCurrent;
    QueuedPastes();
    run := OlderJobHasRun(cfg);
    d := 1;
    DeleteOlder(cfg);
    ThenIsRun(cfg, run, Delete(0, 1), OlderDeleted(cfg));
    run := Then(run, Delete(0, 1), OlderDeleted(cfg));
    RunNewest(cfg);
    ThenIsRun(cfg, run, Job, OlderDeleted(cfg).(queue := []));
    run := Then(run, Job, OlderDeleted(cfg).(queue := []));
  }

  lemma AfterDelete(db: Tables, d: Id)
    requires d in db.documents
    ensures var t := Deleted(db, d);
      && t.documents.Keys == db.documents.Keys && t.versions.Keys == db.versions.Keys
      && t.documents[d] == db.documents[d].(deleted := true)
      && forall v :: v in db.versions ==>
        t.versions[v].number == db.versions[v].number && t.versions[v].document == db.versions[v].document
        && (db.versions[v].document == d ==> t.versions[v].deleted)
  {
    hide MarkChunks, MarkEmbeddings;
  }

  // ---------- A stale cached answer ----------

  lemma OneChunk(cfg: Config)
    requires cfg.chunkSize >= 1
    ensures |Chunks(cfg, "a")| == 1
  {
    var ps := Paragraphs("a");
    SingleParagraph("a");
    assert ps[0..1] == ["a"];
    StripOfTrimmed("a");
    hide Paragraphs, Strip, Words;
    assert Extent(ps, 0, 0, cfg.chunkSize) == 1;
  }

  const ANY := CacheKey(0, Semantic, Request("q", 1, None, None, None, ""))

  // The state after an inline upload of one chunk: chunk 3 with embedding 4.
  function OneIndexed(cfg: Config): State {
    State(Reindexed(cfg, Once(Paste("", "a", true)), 1, 2, Chunks(cfg, "a"), false), [], map[])
  }

  lemma IndexOne(cfg: Config)
    requires TakesPlainText(cfg)
    ensures Next(cfg, OneBase(), Store(0, 0, Paste("", "a", true)), 0, OneIndexed(cfg))
  {
    OnceUploaded(cfg, Paste("", "a", true));
    hide UploadDocument, Reindexed, Chunks, BuildChecksum;
  }

  // Chunk 3 of version 2 of document 1 and its embedding 4 are the only rows.
  predicate IsOneRow(db: Tables) {
    && db.bases == OneBase().db.bases
    && db.documents.Keys == {1} && !db.documents[1].deleted && db.documents[1].org == 0
    && db.versions.Keys == {2} && !db.versions[2].deleted
    && db.chunks.Keys == {3} && db.chunks[3].document == 1 && db.chunks[3].version == 2 && !db.chunks[3].deleted
    && db.embeddings.Keys == {4}
    && db.embeddings[4].chunk == 3 && db.embeddings[4].document == 1
    && db.embeddings[4].kb == 0 && !db.embeddings[4].deleted
  }

  lemma OneRow(cfg: Config)
    requires cfg.chunkSize >= 1
    ensures IsOneRow(OneIndexed(cfg).db)
  {
    OneChunk(cfg);
    var stored, items := Once(Paste("", "a", true)), Chunks(cfg, "a");
    OnceRows(Paste("", "a", true));
    assert OneIndexed(cfg).db == Reindexed(cfg, stored, 1, 2, items, false);
    hide Once, OneIndexed, OneBase, Paste, Chunks, BuildChecksum;
    hide Reindexed, IsOneRow, IdsBelow, HeadersAfter, ChunkTableAfter, EmbeddingTableAfter;
    ReindexedHeaders(cfg, stored, 1, 2, items, false);
    ReindexedChunks(cfg, stored, 1, 2, items, false);
    ReindexedEmbeddings(cfg, stored, 1, 2, items, false);
    OneRowAfter(cfg, stored, items, Reindexed(cfg, stored, 1, 2, items, false));
  }

  lemma OnceRows(p: Upload)
    ensures var db := Once(p);
      && IdsBelow(db) && db.nextId == 3 && db.chunks == map[]
      && db.embeddings == map[] && db.bases == OneBase().db.bases
      && db.documents.Keys == {1} && !db.documents[1].deleted && db.documents[1].org == 0 && db.documents[1].kb == 0
      && db.versions.Keys == {2} && !db.versions[2].deleted
  {
    hide BuildChecksum;
  }

  lemma OneRowAfter(cfg: Config, db: Tables, items: seq<Chunk>, t: Tables)
    requires |items| == 1 && db.nextId == 3 && db.chunks == map[]
    requires db.embeddings == map[] && db.bases == OneBase().db.bases
    requires db.documents.Keys == {1} && !db.documents[1].deleted && db.documents[1].org == 0 && db.documents[1].kb == 0
    requires db.versions.Keys == {2} && !db.versions[2].deleted
    requires HeadersAfter(db, 1, 2, items, t) && ChunkTableAfter(db, 1, 2, items, false, t)
    requires EmbeddingTableAfter(cfg, db, 1, 2, items, false, t)
    ensures IsOneRow(t)
  {
    hide OneBase;
    assert forall c :: c in t.chunks <==> c == 3;
    assert forall e :: e in t.embeddings <==> e == 4;
  }

  lemma OneHit(cfg: Config, db: Tables)
    requires IsOneRow(db)
    ensures var h := HitOf(cfg, db, 4, ANY);
      Rows(cfg, db, ANY) == {h} && h.chunk == 3 && Fresh(cfg, db, ANY, [h])
  {
    hide RowScore;
    assert Visible(db, 4, ANY);
    var h := HitOf(cfg, db, 4, ANY);
    assert Rows(cfg, db, ANY) == {h};
    hide Rows, HitOf;
    assert Elements([h]) == {h};
  }

  lemma SearchAndDelete(cfg: Config, s: State, h: Hit)
    requires cfg.hasRedis && cfg.cacheSeconds >= 1 && Inv(cfg, s.db) && HasDocument(s.db, 0, 1)
    requires Fresh(cfg, s.db, ANY, [h]) && IsHitOf(s.db, h, 1) && s.cache == map[]
    ensures var t := CacheSet(cfg, s, ANY, [h], 0);
      var u := DeleteDocument(t, 0, 1).0;
      && Next(cfg, s, Search(ANY, [h]), 0, t) && Next(cfg, t, Delete(0, 1), 0, u)
      && CacheGet(cfg, u, ANY, 0) == Some([h]) && !Fresh(cfg, u.db, ANY, [h])
  {
    hide Inv, Fresh, IsHitOf, Deleted;
    CachedAnswerAfterDelete(cfg, CacheSet(cfg, s, ANY, [h], 0), 0, 1, ANY, 0);
    assert IsHitOf(s.db, [h][0], 1);
  }

  // After a search, deleting the document leaves an answer in the cache that no search would give any more.
  lemma StaleCachedAnswer(cfg: Config) returns (run: Run, key: CacheKey)
    requires cfg.hasRedis && TakesPlainText(cfg) && cfg.chunkSize >= 1 && cfg.cacheSeconds >= 1
    ensures run.states != [] && RunSoFar(cfg, run)
    ensures CacheGet(cfg, Last(run), key, 0).Some?
    ensures !Fresh(cfg, Last(run).db, key, CacheGet(cfg, Last(run), key, 0).value)
  {
    key := ANY;
    BaseCreated(cfg);
    assert Last(FirstRun()) == OneBase() && OneIndexed(cfg).cache == map[];
    hide Inv, Next, RunSoFar, QueuedOnly, Then, Last, OneIndexed;
    hide Fresh, Rows, HitOf, CacheGet, CacheSet, DeleteDocument, QueuedEvent;
    IndexOne(cfg);
    var s := OneIndexed(cfg);
    ThenIsRun(cfg, FirstRun(), Store(0, 0, Paste("", "a", true)), s);
    run := Then(FirstRun(), Store(0, 0, Paste("", "a", true)), s);
    OneRow(cfg);
    OneHit(cfg, s.db);
    var h := HitOf(cfg, s.db, 4, ANY);
    SearchAndDelete(cfg, s, h);
    var t := CacheSet(cfg, s, ANY, [h], 0);
    ThenIsRun(cfg, run, Search(ANY, [h]), t);
    run := Then(run, Search(ANY, [h]), t);
    var u := DeleteDocument(t, 0, 1).0;
    ThenIsRun(cfg, run, Delete(0, 1), u);
    run := Then(run, Delete(0, 1), u);
  }

  // ---------- A dropped upload ----------

  function First(): Upload {
    Paste("Btxtu", "A", false)
  }

  function Second(): Upload {
    Paste("", "AtxtuB", false)
  }

  lemma SameChecksum()
    ensures BuildChecksum(First().contentText, First()) == BuildChecksum(Second().contentText, Second())
  {
    assert BuildChecksum("A", First()) == "AtxtuBtxtu" == BuildChecksum("AtxtuB", Second());
  }

  function FirstStored(cfg: Config): State {
    Enqueue(cfg, State(Once(First()), [], map[]), 2)
  }

  lemma StoreFirst(cfg: Config)
    requires TakesPlainText(cfg)
    ensures Next(cfg, OneBase(), Store(0, 0, First()), 0, FirstStored(cfg))
  {
    OnceUploaded(cfg, First());
    hide UploadDocument, BuildChecksum;
  }

  lemma DropSecond(cfg: Config)
    requires TakesPlainText(cfg) && Inv(cfg, FirstStored(cfg).db)
    ensures 1 in FirstStored(cfg).db.documents && FirstStored(cfg).db.documents[1].current == 2
    ensures UploadDocument(cfg, FirstStored(cfg), 0, 0, Second()) == (FirstStored(cfg), Done(2))
  {
    SameChecksum();
    PastedText(cfg, Second());
    var s := FirstStored(cfg);
    hide Inv, UploadDocument, BuildChecksum, Strip;
    assert ShowsContent(s.db, 0, Second(), Second().contentText, 1);
    InvBases(cfg, s.db);
    ShownContentIsUnchanged(cfg, s, 0, 0, Second(), 1);
  }

  lemma InvBases(cfg: Config, db: Tables)
    requires Inv(cfg, db)
    ensures forall b :: b in db.bases ==> !db.bases[b].deleted
  {
  }

  // Two pasted texts for one source, with different file names: the second has another text and the same
  // checksum, and is taken for the first.
  lemma ChecksumCollision(cfg: Config) returns (run: Run, d: Id)
    requires TakesPlainText(cfg)
    ensures run.states != [] && RunSoFar(cfg, run)
    ensures d in Last(run).db.documents && Last(run).db.documents[d].current in Last(run).db.versions
    ensures var s := Last(run);
      && Strip(cfg.parse(Second())) == "AtxtuB"
      && s.db.versions[s.db.documents[d].current].text == "A"
      && UploadDocument(cfg, s, 0, 0, Second()) == (s, Done(s.db.documents[d].current))
  {
    d := 1;
    BaseCreated(cfg);
    PastedText(cfg, Second());
    assert Last(FirstRun()) == OneBase();
    hide Inv, UploadDocument, Strip, BuildChecksum, Next, RunSoFar, Then, Last, QueuedOnly, QueuedEvent;
    StoreFirst(cfg);
    var s := FirstStored(cfg);
    ThenIsRun(cfg, FirstRun(), Store(0, 0, First()), s);
    run := Then(FirstRun(), Store(0, 0, First()), s);
    DropSecond(cfg);
  }
}
