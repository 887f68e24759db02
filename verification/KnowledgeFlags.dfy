// The current flags of a document over whole runs: exactly when one version is current.
module KnowledgeFlags {
  import opened Common
  import opened Text
  import opened Chunking
  import opened KnowledgeModel
  import opened KnowledgeInvariants
  import opened KnowledgeViews
  import opened KnowledgeVersions

  // Version v of document x is flagged current.
  predicate Flagged(db: Tables, v: Id, x: Id) {
    v in db.versions && db.versions[v].document == x && db.versions[v].isCurrent
  }

  // The version a live document names is flagged.
  predicate CurrentFlagged(db: Tables, x: Id) {
    x in db.documents && !db.documents[x].deleted ==> Flagged(db, db.documents[x].current, x)
  }

  // ---------- The steps that matter for a document ----------

  // The step stores an upload as the newest version of document x, or deletes x.
  ghost predicate Resets(cfg: Config, s: State, ev: Event, x: Id) {
    match ev
    case Store(org, kb, p) =>
      && UploadRefusal(cfg, s.db, org, kb, p).None? && !IsUnchangedUpload(s.db, kb, p, Strip(cfg.parse(p)))
      && x == TargetDocument(s.db, ByDocumentKey(s.db, kb, BuildDocumentKey(p, s.db.nextId)))
    case Delete(org, d) => d == x && HasDocument(s.db, org, d)
    case _ => false
  }

  // The step ingests a version of document x that is not the current one.
  ghost predicate IngestsOld(s: State, ev: Event, x: Id) {
    match ev
    case Ingest(v) => Superseded(s.db, v) && s.db.versions[v].document == x
    case Job => s.queue != [] && Superseded(s.db, NextJob(s)) && s.db.versions[NextJob(s)].document == x
    case _ => false
  }

  // ---------- What each operation does to the flags of document x ----------

  // The header and the flags of x are the same.
  ghost predicate SameFlagsOf(db: Tables, t: Tables, x: Id) {
    && x in db.documents && x in t.documents
    && t.documents[x].current == db.documents[x].current && t.documents[x].deleted == db.documents[x].deleted
    && forall v :: Flagged(t, v, x) <==> Flagged(db, v, x)
  }

  lemma OneCurrentIs(db: Tables, x: Id)
    requires x in db.documents && DocumentRefs(db, x)
    ensures OneCurrent(db, x) <==>
      CurrentFlagged(db, x) && forall v :: Flagged(db, v, x) ==> v == db.documents[x].current
  {
    var current := db.documents[x].current;
    if OneCurrent(db, x) {
      forall v | Flagged(db, v, x)
        ensures v == current
      {
      }
    }
    if forall v :: Flagged(db, v, x) ==> v == current {
      forall v | v in db.versions && db.versions[v].document == x && db.versions[v].isCurrent
        ensures v == current
      {
        assert Flagged(db, v, x);
      }
    }
  }

  lemma InvOneCurrentIs(cfg: Config, db: Tables, x: Id)
    requires Inv(cfg, db) && x in db.documents
    ensures OneCurrent(db, x) <==>
      CurrentFlagged(db, x) && forall v :: Flagged(db, v, x) ==> v == db.documents[x].current
  {
    hide OneCurrent;
    OneCurrentIs(db, x);
  }

  lemma SameFlagsSameOneCurrent(cfg: Config, db: Tables, t: Tables, x: Id)
    requires Inv(cfg, db) && Inv(cfg, t) && SameFlagsOf(db, t, x)
    ensures OneCurrent(t, x) <==> OneCurrent(db, x)
    ensures CurrentFlagged(t, x) <==> CurrentFlagged(db, x)
  {
    hide Inv, OneCurrent;
    InvOneCurrentIs(cfg, db, x);
    InvOneCurrentIs(cfg, t, x);
  }

  // Indexing version v flags it and makes it the current one.
  lemma ReindexFlags(cfg: Config, db: Tables, d: Id, v: Id, items: seq<Chunk>, reset: bool, x: Id)
    requires d in db.documents && v in db.versions && db.versions[v].document == d && x in db.documents
    ensures var t := Reindexed(cfg, db, d, v, items, reset);
      && x in t.documents && t.documents[x].deleted == db.documents[x].deleted
      && t.documents[x].current == (if x == d then v else db.documents[x].current)
      && forall u :: Flagged(t, u, x) <==> Flagged(db, u, x) || (x == d && u == v)
  {
    hide NewChunks, NewEmbeddings, ChunksWithout, EmbeddingsWithout;
  }

  lemma ReindexCurrentFlags(cfg: Config, db: Tables, v: Id, items: seq<Chunk>, reset: bool, x: Id)
    requires v in db.versions && db.versions[v].document in db.documents && x in db.documents
    requires db.documents[db.versions[v].document].current == v && CurrentFlagged(db, db.versions[v].document)
    ensures var t := Reindexed(cfg, db, db.versions[v].document, v, items, reset);
      SameFlagsOf(db, t, x) || (x == db.versions[v].document && IsDeadCopy(db, t, x))
  {
    hide Reindexed;
    ReindexFlags(cfg, db, db.versions[v].document, v, items, reset, x);
  }

  // A deleted document whose current version is flagged on top of what was.
  ghost predicate IsDeadCopy(db: Tables, t: Tables, x: Id) {
    && x in db.documents && x in t.documents && db.documents[x].deleted && t.documents[x].deleted
    && t.documents[x].current == db.documents[x].current
    && forall v :: Flagged(t, v, x) <==> Flagged(db, v, x) || v == db.documents[x].current
  }

  lemma DeadCopySameOneCurrent(cfg: Config, db: Tables, t: Tables, x: Id)
    requires Inv(cfg, db) && Inv(cfg, t) && IsDeadCopy(db, t, x)
    ensures OneCurrent(t, x) <==> OneCurrent(db, x)
    ensures CurrentFlagged(t, x)
  {
    hide Inv, OneCurrent;
    InvOneCurrentIs(cfg, db, x);
    InvOneCurrentIs(cfg, t, x);
  }

  // Indexing the version that is current already, as reindexing and most jobs do.
  lemma ReindexSameCurrent(cfg: Config, db: Tables, d: Id, v: Id, reset: bool, x: Id)
    requires Inv(cfg, db) && MayReindex(db, d, v, reset) && x in db.documents
    requires db.documents[d].current == v && CurrentFlagged(db, d) && CurrentFlagged(db, x)
    ensures d in db.documents && v in db.versions
    ensures var t := Reindexed(cfg, db, d, v, Chunks(cfg, db.versions[v].text), reset);
      x in t.documents && CurrentFlagged(t, x) && (OneCurrent(t, x) <==> OneCurrent(db, x))
  {
    var items := Chunks(cfg, db.versions[v].text);
    ReindexKeepsInv(cfg, db, d, v, items, reset);
    var t := Reindexed(cfg, db, d, v, items, reset);
    hide Inv, Chunks, Reindexed, OneCurrent, CurrentFlagged;
    ReindexCurrentFlags(cfg, db, v, items, reset, x);
    if SameFlagsOf(db, t, x) {
      SameFlagsSameOneCurrent(cfg, db, t, x);
    } else {
      DeadCopySameOneCurrent(cfg, db, t, x);
    }
  }

  // Ingesting a superseded version flags a second one.
  lemma IngestFlags(cfg: Config, s: State, v: Id, x: Id)
    requires Inv(cfg, s.db) && x in s.db.documents && CurrentFlagged(s.db, x)
    requires v in s.db.versions ==> CurrentFlagged(s.db, s.db.versions[v].document)
    ensures var t := IngestPendingVersion(cfg, s, v).db;
      && x in t.documents && CurrentFlagged(t, x)
      && if Superseded(s.db, v) && s.db.versions[v].document == x then !OneCurrent(t, x)
         else (OneCurrent(t, x) <==> OneCurrent(s.db, x))
  {
    hide Inv, Chunks, Reindexed, OneCurrent, CurrentFlagged;
    if Ingestible(s.db, v) {
      var d := s.db.versions[v].document;
      IngestibleMayReindex(cfg, s.db, v);
      CurrentOfLive(cfg, s.db, v);
      if s.db.documents[d].current == v {
        ReindexSameCurrent(cfg, s.db, d, v, true, x);
      } else {
        var items := Chunks(cfg, s.db.versions[v].text);
        ReindexKeepsInv(cfg, s.db, d, v, items, true);
        IngestOld(cfg, s.db, d, v, items, x);
      }
    }
  }

  lemma IngestOld(cfg: Config, db: Tables, d: Id, v: Id, items: seq<Chunk>, x: Id)
    requires d in db.documents && v in db.versions && db.versions[v].document == d && x in db.documents
    requires Inv(cfg, db) && Inv(cfg, Reindexed(cfg, db, d, v, items, true))
    requires CurrentFlagged(db, x) && CurrentFlagged(db, d)
    requires !db.documents[d].deleted && db.documents[d].current != v
    ensures var t := Reindexed(cfg, db, d, v, items, true);
      && x in t.documents && CurrentFlagged(t, x)
      && if x == d then !OneCurrent(t, x) else (OneCurrent(t, x) <==> OneCurrent(db, x))
  {
    hide Inv, Reindexed, OneCurrent, Flagged, CurrentFlagged;
    ReindexFlags(cfg, db, d, v, items, true, x);
    var t := Reindexed(cfg, db, d, v, items, true);
    if x == d {
      Doubled(cfg, db, t, d, v);
    } else {
      SameFlagsSameOneCurrent(cfg, db, t, x);
    }
  }

  // A live document with another version flagged and made current.
  lemma Doubled(cfg: Config, db: Tables, t: Tables, d: Id, v: Id)
    requires Inv(cfg, t) && d in db.documents && d in t.documents && CurrentFlagged(db, d)
    requires !db.documents[d].deleted && db.documents[d].current != v && t.documents[d].current == v
    requires forall u :: Flagged(t, u, d) <==> Flagged(db, u, d) || u == v
    ensures CurrentFlagged(t, d) && !OneCurrent(t, d)
  {
    hide Inv, OneCurrent, Flagged;
    InvOneCurrentIs(cfg, t, d);
    assert Flagged(t, db.documents[d].current, d) && Flagged(t, v, d);
  }

  // Storing an upload leaves the flags of the other documents alone.
  lemma StoreFlagsOfOthers(db: Tables, org: Id, kb: Id, p: Upload, text: string, existing: Option<Id>, x: Id)
    requires IdsBelow(db) && (existing.Some? ==> existing.value in db.documents)
    requires x in db.documents && x != TargetDocument(db, existing)
    ensures SameFlagsOf(db, StoreUpload(db, org, kb, p, text, existing), x)
  {
    hide BuildChecksum, BuildDocumentKey;
  }

  lemma UploadFlags(cfg: Config, s: State, org: Id, kb: Id, p: Upload, x: Id)
    requires Inv(cfg, s.db) && (x in s.db.documents ==> CurrentFlagged(s.db, x))
    requires x in UploadDocument(cfg, s, org, kb, p).0.db.documents
    ensures var t := UploadDocument(cfg, s, org, kb, p).0.db;
      && CurrentFlagged(t, x)
      && if Resets(cfg, s, Store(org, kb, p), x) then OneCurrent(t, x)
         else x in s.db.documents && (OneCurrent(t, x) <==> OneCurrent(s.db, x))
  {
    hide Inv, StoreUpload, ByDocumentKey, BuildDocumentKey, IsUnchangedUpload, Strip;
    hide Chunks, OneCurrent, Reindexed, CurrentFlagged, MayReindex;
    UploadKeepsInv(cfg, s, org, kb, p);
    var text := Strip(cfg.parse(p));
    var existing := ByDocumentKey(s.db, kb, BuildDocumentKey(p, s.db.nextId));
    if UploadRefusal(cfg, s.db, org, kb, p).None? && !IsUnchangedUpload(s.db, kb, p, text) {
      StoreKeepsInv(cfg, s.db, org, kb, p, text, existing);
      var stored := StoreUpload(s.db, org, kb, p, text, existing);
      var d, v := TargetDocument(s.db, existing), s.db.nextId + 1;
      MayReindexHeaders(stored, d, v, false);
      if p.inline {
        ReindexedKeys(cfg, stored, d, v, false);
      }
      StoredDocuments(s.db, org, kb, p, text, existing, x);
      StoreRestoresCurrent(cfg, s.db, org, kb, p, text, existing, d);
      InvOneCurrentIs(cfg, stored, d);
      if x != d {
        UploadFlagsOfOther(cfg, s.db, org, kb, p, text, existing, x);
      }
      if p.inline {
        ReindexSameCurrent(cfg, stored, d, v, false, x);
      }
    }
  }

  lemma UploadFlagsOfOther(cfg: Config, db: Tables, org: Id, kb: Id, p: Upload, text: string, existing: Option<Id>,
                           x: Id)
    requires Inv(cfg, db) && (existing.Some? ==> existing.value in db.documents)
    requires Inv(cfg, StoreUpload(db, org, kb, p, text, existing))
    requires x in db.documents && x != TargetDocument(db, existing)
    ensures var t := StoreUpload(db, org, kb, p, text, existing);
      && x in t.documents
      && (OneCurrent(t, x) <==> OneCurrent(db, x)) && (CurrentFlagged(t, x) <==> CurrentFlagged(db, x))
  {
    hide Refs, Numbered, Indexed, Deletions, StoreUpload, OneCurrent, CurrentFlagged;
    StoreFlagsOfOthers(db, org, kb, p, text, existing, x);
    SameFlagsSameOneCurrent(cfg, db, StoreUpload(db, org, kb, p, text, existing), x);
  }

  // Deletion takes the flags of the document and leaves the others.
  lemma DeletedFlags(db: Tables, d: Id, x: Id)
    requires d in db.documents && x in db.documents
    ensures var t := Deleted(db, d);
      && x in t.documents && t.documents[x].current == db.documents[x].current
      && t.documents[x].deleted == (x == d || db.documents[x].deleted)
      && forall u :: Flagged(t, u, x) <==> x != d && Flagged(db, u, x)
  {
    hide MarkChunks, MarkEmbeddings;
  }

  lemma DeleteFlagsOf(cfg: Config, db: Tables, d: Id, x: Id)
    requires Inv(cfg, db) && d in db.documents && x in db.documents && CurrentFlagged(db, x)
    ensures var t := Deleted(db, d);
      && x in t.documents && CurrentFlagged(t, x)
      && if x == d then OneCurrent(t, x) else (OneCurrent(t, x) <==> OneCurrent(db, x))
  {
    hide Inv, Deleted, OneCurrent, Flagged;
    DeleteKeepsInv(cfg, db, d);
    var t := Deleted(db, d);
    DeletedFlags(db, d, x);
    if x == d {
      InvOneCurrentIs(cfg, t, x);
    } else {
      SameFlagsSameOneCurrent(cfg, db, t, x);
    }
  }

  // ---------- One step, and whole runs ----------

  lemma CreateFlags(cfg: Config, s: State, org: Id, name: string, t: State, x: Id)
    requires t == s.(db := CreateBase(s.db, org, name).0) && CurrentFlagged(s.db, x)
    ensures t.db.documents == s.db.documents && t.db.versions == s.db.versions && CurrentFlagged(t.db, x)
  {
  }

  // A step that resets document x leaves it with one current version, the ingestion of a superseded version of
  // x leaves it with two, and every other step leaves the question as it was.
  lemma StepFlags(cfg: Config, s: State, ev: Event, at: int, t: State, x: Id)
    requires Inv(cfg, s.db) && Next(cfg, s, ev, at, t) && (forall y :: CurrentFlagged(s.db, y)) && x in t.db.documents
    ensures CurrentFlagged(t.db, x)
    ensures Resets(cfg, s, ev, x) ==> OneCurrent(t.db, x)
    ensures IngestsOld(s, ev, x) ==> !OneCurrent(t.db, x)
    ensures !Resets(cfg, s, ev, x) && !IngestsOld(s, ev, x) ==>
      x in s.db.documents && (OneCurrent(t.db, x) <==> OneCurrent(s.db, x))
  {
    hide Inv, UploadDocument, IngestPendingVersion, Fresh, Chunks;
    hide Reindexed, Deleted, OneCurrent, Superseded, CurrentFlagged;
    match ev
    case Create(org, name) =>
      CreateFlags(cfg, s, org, name, t, x);
      SameRowsSameOneCurrent(s.db, t.db, x);
    case Store(org, kb, p) => UploadFlags(cfg, s, org, kb, p, x);
    case Delete(org, d) =>
      if HasDocument(s.db, org, d) {
        DeletedDocuments(s.db, d);
        DeleteFlagsOf(cfg, s.db, d, x);
      }
    case Reindex(org, d) =>
      if HasDocument(s.db, org, d) {
        CurrentMayReindex(cfg, s.db, d);
        ReindexedKeys(cfg, s.db, d, s.db.documents[d].current, true);
        ReindexSameCurrent(cfg, s.db, d, s.db.documents[d].current, true, x);
      }
    case Ingest(v) =>
      IngestDocuments(cfg, s, v);
      IngestFlags(cfg, s, v, x);
    case Job =>
      if s.queue != [] {
        var u := s.(queue := s.queue[..|s.queue| - 1]);
        IngestDocuments(cfg, u, NextJob(s));
        IngestFlags(cfg, u, NextJob(s), x);
      }
    case Search(_, _) =>
  }

  lemma SameRowsSameOneCurrent(db: Tables, t: Tables, x: Id)
    requires t.documents == db.documents && t.versions == db.versions && x in db.documents
    ensures OneCurrent(t, x) <==> OneCurrent(db, x)
  {
  }

  lemma ReindexedKeys(cfg: Config, db: Tables, d: Id, v: Id, reset: bool)
    requires d in db.documents && v in db.versions
    ensures Reindexed(cfg, db, d, v, Chunks(cfg, db.versions[v].text), reset).documents.Keys == db.documents.Keys
  {
    hide NewChunks, NewEmbeddings, ChunksWithout, EmbeddingsWithout, Chunks;
  }

  lemma {:induction false} CurrentAlwaysFlagged(cfg: Config, run: Run, n: nat)
    requires IsRun(cfg, run) && n < |run.states|
    ensures forall x :: CurrentFlagged(run.states[n].db, x)
    decreases n
  {
    hide Next, OneCurrent, Resets, IngestsOld;
    if n > 0 {
      CurrentAlwaysFlagged(cfg, run, n - 1);
      ReachableInv(cfg, run, n - 1);
      hide Inv;
      forall x: Id
        ensures CurrentFlagged(run.states[n].db, x)
      {
        if x in run.states[n].db.documents {
          hide CurrentFlagged;
          StepFlags(cfg, run.states[n - 1], run.events[n - 1], run.times[n - 1], run.states[n], x);
        }
      }
    }
  }

  // Event j ingests a superseded version of x, and x was neither stored nor deleted after that.
  ghost predicate LeftDoubled(cfg: Config, run: Run, j: nat, n: nat, x: Id)
    requires |run.states| == |run.events| + 1 && j < n < |run.states|
  {
    && IngestsOld(run.states[j], run.events[j], x)
    && forall i :: j < i < n ==> !Resets(cfg, run.states[i], run.events[i], x)
  }

  // At any moment of any run a document has one current version if and only if no superseded version of it
  // was ingested since its last stored upload or deletion.
  lemma {:induction false} OneCurrentIff(cfg: Config, run: Run, n: nat, x: Id)
    requires IsRun(cfg, run) && n < |run.states| && x in run.states[n].db.documents
    ensures OneCurrent(run.states[n].db, x) <==> !exists j :: 0 <= j < n && LeftDoubled(cfg, run, j, n, x)
    decreases n
  {
    hide Next, OneCurrent, Resets, IngestsOld;
    if n > 0 {
      var m := n - 1;
      FlagsStepOfRun(cfg, run, m, x);
      if IngestsOld(run.states[m], run.events[m], x) {
        assert LeftDoubled(cfg, run, m, n, x);
      } else if !Resets(cfg, run.states[m], run.events[m], x) {
        OneCurrentIff(cfg, run, m, x);
        QuietStep(cfg, run, m, n, x);
      }
    }
  }

  lemma FlagsStepOfRun(cfg: Config, run: Run, m: nat, x: Id)
    requires IsRun(cfg, run) && m < |run.events| && x in run.states[m + 1].db.documents
    ensures var s, ev, t := run.states[m], run.events[m], run.states[m + 1];
      && (Resets(cfg, s, ev, x) ==> OneCurrent(t.db, x) && !IngestsOld(s, ev, x))
      && (IngestsOld(s, ev, x) ==> !OneCurrent(t.db, x))
      && (!Resets(cfg, s, ev, x) && !IngestsOld(s, ev, x) ==>
            x in s.db.documents && (OneCurrent(t.db, x) <==> OneCurrent(s.db, x)))
  {
    hide Next, OneCurrent, Resets, IngestsOld, CurrentFlagged;
    CurrentAlwaysFlagged(cfg, run, m);
    ReachableInv(cfg, run, m);
    hide Inv;
    StepFlags(cfg, run.states[m], run.events[m], run.times[m], run.states[m + 1], x);
    ResetsOrIngests(cfg, run.states[m], run.events[m], x);
  }

  // A step that neither resets nor doubles leaves the answer to the last one that did.
  lemma QuietStep(cfg: Config, run: Run, m: nat, n: nat, x: Id)
    requires |run.states| == |run.events| + 1 && n == m + 1 < |run.states|
    requires !Resets(cfg, run.states[m], run.events[m], x) && !IngestsOld(run.states[m], run.events[m], x)
    ensures (exists j :: 0 <= j < n && LeftDoubled(cfg, run, j, n, x))
       <==> (exists j :: 0 <= j < m && LeftDoubled(cfg, run, j, m, x))
  {
    hide Resets, IngestsOld;
    if exists j :: 0 <= j < n && LeftDoubled(cfg, run, j, n, x) {
      var j :| 0 <= j < n && LeftDoubled(cfg, run, j, n, x);
      assert LeftDoubled(cfg, run, j, m, x);
    }
    if exists j :: 0 <= j < m && LeftDoubled(cfg, run, j, m, x) {
      var j :| 0 <= j < m && LeftDoubled(cfg, run, j, m, x);
      assert LeftDoubled(cfg, run, j, n, x);
    }
  }

  lemma ResetsOrIngests(cfg: Config, s: State, ev: Event, x: Id)
    ensures !(Resets(cfg, s, ev, x) && IngestsOld(s, ev, x))
  {
  }
}
