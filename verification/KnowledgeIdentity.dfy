// Which uploads are versions of one document, told from the fields of the uploads alone.
module KnowledgeIdentity {
  import opened Common
  import opened Text
  import opened KnowledgeModel
  import opened KnowledgeInvariants
  import opened KnowledgeViews
  import opened KnowledgeIndexing

  // What may name the source of an upload, the first choice first.
  function Sources(p: Upload): seq<string> {
    [p.sourceUri, p.fileName, p.title, p.contentText]
  }

  function FirstNonempty(fields: seq<string>): string {
    if fields == [] then "" else if fields[0] != "" then fields[0] else FirstNonempty(fields[1..])
  }

  // Both uploads name the same source: same type, and the same first nonempty field.
  predicate SameSource(p: Upload, q: Upload) {
    p.sourceType == q.sourceType && FirstNonempty(Sources(p)) == FirstNonempty(Sources(q)) != ""
  }

  lemma FirstSource(p: Upload)
    ensures FirstNonempty(Sources(p))
         == if p.sourceUri != "" then p.sourceUri else if p.fileName != "" then p.fileName
            else if p.title != "" then p.title else p.contentText
  {
    FirstOf(p.contentText, []);
    FirstOf(p.title, [p.contentText]);
    FirstOf(p.fileName, [p.title, p.contentText]);
    FirstOf(p.sourceUri, [p.fileName, p.title, p.contentText]);
    assert FirstNonempty([]) == "";
    hide FirstNonempty;
    assert [p.title] + [p.contentText] == [p.title, p.contentText];
    assert [p.fileName] + [p.title, p.contentText] == [p.fileName, p.title, p.contentText];
    assert [p.sourceUri] + [p.fileName, p.title, p.contentText] == Sources(p);
  }

  lemma FirstOf(x: string, rest: seq<string>)
    ensures FirstNonempty([x] + rest) == if x != "" then x else FirstNonempty(rest)
    ensures [x] + [] == [x]
  {
    assert ([x] + rest)[1..] == rest;
  }

  // Two keys agree for the same source, or for two uploads without any source that drew one random number.
  lemma KeysAgreeIff(p: Upload, q: Upload, m: Id, n: Id)
    ensures BuildDocumentKey(p, m) == BuildDocumentKey(q, n) <==>
      || SameSource(p, q)
      || (p.sourceType == q.sourceType && FirstNonempty(Sources(p)) == FirstNonempty(Sources(q)) == "" && m == n)
  {
    FirstSource(p);
    FirstSource(q);
    hide FirstNonempty, Sources;
  }

  // ---------- The document an upload answers with ----------

  // The document keeps its base and its key.
  ghost predicate KeepsKey(db: Tables, t: Tables, d: Id) {
    d in db.documents ==>
      d in t.documents && t.documents[d].kb == db.documents[d].kb && t.documents[d].key == db.documents[d].key
  }

  // Version v belongs to a document of the base with this key.
  ghost predicate BelongsTo(db: Tables, v: Id, kb: Id, key: DocumentKey) {
    && v in db.versions && db.versions[v].document in db.documents
    && db.documents[db.versions[v].document].kb == kb && db.documents[db.versions[v].document].key == key
  }

  lemma StoreKeepsKeys(db: Tables, org: Id, kb: Id, p: Upload, text: string, existing: Option<Id>, d: Id)
    requires IdsBelow(db) && IsTarget(db, kb, p, existing)
    ensures existing.Some? ==> existing.value in db.documents
    ensures var t := StoreUpload(db, org, kb, p, text, existing);
      && KeepsKey(db, t, d) && BelongsTo(t, db.nextId + 1, kb, BuildDocumentKey(p, db.nextId))
      && t.bases == db.bases && t.nextId == db.nextId + 2
  {
    hide BuildDocumentKey, BuildChecksum;
  }

  lemma ProcessKeepsKeys(cfg: Config, s: State, d: Id, v: Id, reset: bool, x: Id, w: Id, kb: Id, key: DocumentKey)
    requires d in s.db.documents && v in s.db.versions
    ensures var t := ProcessVersion(cfg, s, d, v, reset).db;
      && KeepsKey(s.db, t, x) && (BelongsTo(s.db, w, kb, key) ==> BelongsTo(t, w, kb, key))
      && t.bases == s.db.bases && t.nextId >= s.db.nextId
      && (forall u :: u in s.db.versions ==> u in t.versions && t.versions[u].number == s.db.versions[u].number)
  {
    hide NewChunks, NewEmbeddings, ChunksWithout, EmbeddingsWithout, Chunks;
  }

  ghost predicate Accepts(cfg: Config, db: Tables, org: Id, kb: Id, p: Upload) {
    kb in db.bases && db.bases[kb].org == org && Strip(cfg.parse(p)) != ""
  }

  // An accepted upload is either recognised or stored.
  lemma UploadCases(cfg: Config, s: State, org: Id, kb: Id, p: Upload)
    requires Inv(cfg, s.db) && Accepts(cfg, s.db, org, kb, p)
    ensures var text, existing := Strip(cfg.parse(p)), ByDocumentKey(s.db, kb, BuildDocumentKey(p, s.db.nextId));
      && MayStore(s.db, org, kb, p, existing) && (existing.Some? ==> existing.value in s.db.documents)
      && if IsUnchangedUpload(s.db, kb, p, text) then
           existing.Some? && UploadDocument(cfg, s, org, kb, p) == (s, Done(s.db.documents[existing.value].current))
         else
           && MayReindex(StoreUpload(s.db, org, kb, p, text, existing), TargetDocument(s.db, existing), s.db.nextId + 1,
                         false)
           && UploadDocument(cfg, s, org, kb, p)
              == (StoredState(cfg, s, org, kb, p, text, existing), Done(s.db.nextId + 1))
  {
    hide Inv, StoreUpload, ByDocumentKey, BuildDocumentKey, BuildChecksum, Strip, ProcessVersion, Enqueue;
    hide IsUnchangedUpload, MayReindex;
    UnchangedExists(s.db, kb, p, Strip(cfg.parse(p)));
    BasesAreLive(cfg, s.db);
    var existing := ByDocumentKey(s.db, kb, BuildDocumentKey(p, s.db.nextId));
    LookupExists(s.db, kb, BuildDocumentKey(p, s.db.nextId));
    StoreKeepsInv(cfg, s.db, org, kb, p, Strip(cfg.parse(p)), existing);
  }

  lemma UnchangedExists(db: Tables, kb: Id, p: Upload, text: string)
    ensures IsUnchangedUpload(db, kb, p, text) ==> ByDocumentKey(db, kb, BuildDocumentKey(p, db.nextId)).Some?
  {
    hide ByDocumentKey, BuildDocumentKey, BuildChecksum;
  }

  // The state after an upload is stored: indexed or queued.
  ghost function StoredState(cfg: Config, s: State, org: Id, kb: Id, p: Upload, text: string, existing: Option<Id>)
    : State
    requires existing.Some? ==> existing.value in s.db.documents
    requires MayReindex(StoreUpload(s.db, org, kb, p, text, existing), TargetDocument(s.db, existing),
                        s.db.nextId + 1, false)
  {
    var stored := s.(db := StoreUpload(s.db, org, kb, p, text, existing));
    if p.inline then ProcessVersion(cfg, stored, TargetDocument(s.db, existing), s.db.nextId + 1, false)
    else Enqueue(cfg, stored, s.db.nextId + 1)
  }

  lemma StoredStateKeys(cfg: Config, s: State, org: Id, kb: Id, p: Upload, text: string, existing: Option<Id>, x: Id)
    requires IdsBelow(s.db) && IsTarget(s.db, kb, p, existing) && (existing.Some? ==> existing.value in s.db.documents)
    requires MayReindex(StoreUpload(s.db, org, kb, p, text, existing), TargetDocument(s.db, existing),
                        s.db.nextId + 1, false)
    ensures var t, v := StoredState(cfg, s, org, kb, p, text, existing).db, s.db.nextId + 1;
      && KeepsKey(s.db, t, x) && BelongsTo(t, v, kb, BuildDocumentKey(p, s.db.nextId))
      && t.bases == s.db.bases && t.nextId > s.db.nextId
      && v in StoreUpload(s.db, org, kb, p, text, existing).versions
      && t.versions[v].number == StoreUpload(s.db, org, kb, p, text, existing).versions[v].number
  {
    hide IdsBelow, IsTarget, StoreUpload, BuildDocumentKey, BuildChecksum, ProcessVersion, MayReindex;
    StoreKeepsKeys(s.db, org, kb, p, text, existing, x);
    var stored := s.(db := StoreUpload(s.db, org, kb, p, text, existing));
    var d, v := TargetDocument(s.db, existing), s.db.nextId + 1;
    MayReindexHeaders(stored.db, d, v, false);
    if p.inline {
      ProcessKeepsKeys(cfg, stored, d, v, false, x, v, kb, BuildDocumentKey(p, s.db.nextId));
    }
  }

  // An upload that is accepted answers with a version of the document that has its key.
  lemma UploadAnswers(cfg: Config, s: State, org: Id, kb: Id, p: Upload, x: Id)
    requires Inv(cfg, s.db) && Accepts(cfg, s.db, org, kb, p)
    ensures var (t, reply) := UploadDocument(cfg, s, org, kb, p);
      && Inv(cfg, t.db) && reply.Done? && BelongsTo(t.db, reply.id, kb, BuildDocumentKey(p, s.db.nextId))
      && KeepsKey(s.db, t.db, x) && t.db.bases == s.db.bases
      && (t.db.nextId > s.db.nextId || (t == s && BuildDocumentKey(p, s.db.nextId).Named?))
  {
    hide Inv, StoreUpload, ByDocumentKey, BuildDocumentKey, Strip, MayReindex, StoredState, UploadDocument;
    hide IsUnchangedUpload, IsTarget, BelongsTo;
    UploadKeepsInv(cfg, s, org, kb, p);
    UploadCases(cfg, s, org, kb, p);
    var text := Strip(cfg.parse(p));
    var existing := ByDocumentKey(s.db, kb, BuildDocumentKey(p, s.db.nextId));
    if IsUnchangedUpload(s.db, kb, p, text) {
      UnchangedAnswer(cfg, s.db, org, kb, p, existing);
    } else {
      LookupFindsTarget(s.db, org, kb, p, existing);
      InvIdsBelow(cfg, s.db);
      StoredStateKeys(cfg, s, org, kb, p, text, existing, x);
    }
  }

  lemma UnchangedAnswer(cfg: Config, db: Tables, org: Id, kb: Id, p: Upload, existing: Option<Id>)
    requires Inv(cfg, db) && kb in db.bases && db.bases[kb].org == org
    requires existing == ByDocumentKey(db, kb, BuildDocumentKey(p, db.nextId)) && existing.Some?
    ensures existing.value in db.documents
    ensures BelongsTo(db, db.documents[existing.value].current, kb, BuildDocumentKey(p, db.nextId))
    ensures BuildDocumentKey(p, db.nextId).Named?
  {
    LookupFindsTarget(db, org, kb, p, existing);
    hide Numbered, Indexed, Deletions;
    assert DocumentRefs(db, existing.value);
  }

  // ---------- One document or two ----------

  // After an accepted upload, another accepted upload to the same base answers with a version of the same
  // document if and only if both name the same source.
  lemma SameDocumentIff(cfg: Config, s: State, org: Id, kb: Id, p: Upload, q: Upload)
    requires Inv(cfg, s.db) && Accepts(cfg, s.db, org, kb, p) && Accepts(cfg, s.db, org, kb, q)
    ensures var (t, first) := UploadDocument(cfg, s, org, kb, p);
      var (u, second) := UploadDocument(cfg, t, org, kb, q);
      && first.Done? && first.id in t.db.versions && second.Done? && second.id in u.db.versions
      && (u.db.versions[second.id].document == t.db.versions[first.id].document <==> SameSource(p, q))
  {
    var (t, first) := UploadDocument(cfg, s, org, kb, p);
    hide Inv, UploadDocument, BuildDocumentKey, Strip, SameSource;
    UploadAnswers(cfg, s, org, kb, p, 0);
    var d := t.db.versions[first.id].document;
    var (u, second) := UploadDocument(cfg, t, org, kb, q);
    UploadAnswers(cfg, t, org, kb, q, d);
    KeysAgreeIff(p, q, s.db.nextId, t.db.nextId);
    NamedHasSource(p, s.db.nextId);
    var e := u.db.versions[second.id].document;
    if BuildDocumentKey(p, s.db.nextId) == BuildDocumentKey(q, t.db.nextId) {
      KeyIsUnique(cfg, u.db, d, e);
    }
  }

  lemma NamedHasSource(p: Upload, nonce: Id)
    ensures BuildDocumentKey(p, nonce).Named? <==> FirstNonempty(Sources(p)) != ""
  {
    FirstSource(p);
    hide FirstNonempty, Sources;
  }

  lemma KeyIsUnique(cfg: Config, db: Tables, d: Id, e: Id)
    requires Inv(cfg, db) && d in db.documents && e in db.documents
    requires db.documents[d].kb == db.documents[e].kb && db.documents[d].key == db.documents[e].key
    ensures d == e
  {
    assert SameKey(db, d, e);
  }

  // Of the same source with another checksum, it is stored as the next version of that document.
  lemma NextVersionOfSource(cfg: Config, s: State, org: Id, kb: Id, p: Upload, q: Upload)
    requires Inv(cfg, s.db) && Accepts(cfg, s.db, org, kb, p) && Accepts(cfg, s.db, org, kb, q) && SameSource(p, q)
    ensures var (t, first) := UploadDocument(cfg, s, org, kb, p);
      && first.Done? && first.id in t.db.versions && t.db.versions[first.id].document in t.db.documents
      && var d := t.db.versions[first.id].document;
         var (u, second) := UploadDocument(cfg, t, org, kb, q);
         t.db.documents[d].checksum != BuildChecksum(Strip(cfg.parse(q)), q) ==>
           && second.Done? && second.id in u.db.versions && second.id !in t.db.versions
           && u.db.versions[second.id].document == d
           && u.db.versions[second.id].number == t.db.documents[d].latest + 1
  {
    SameDocumentIff(cfg, s, org, kb, p, q);
    UploadAnswers(cfg, s, org, kb, p, 0);
    var (t, first) := UploadDocument(cfg, s, org, kb, p);
    var d := t.db.versions[first.id].document;
    KeysAgreeIff(p, q, s.db.nextId, t.db.nextId);
    hide Inv, UploadDocument, BuildDocumentKey, Strip, SameSource, BuildChecksum;
    if t.db.documents[d].checksum != BuildChecksum(Strip(cfg.parse(q)), q) {
      OtherChecksumIsStored(cfg, t, org, kb, q, d);
    }
  }

  lemma OtherChecksumIsStored(cfg: Config, s: State, org: Id, kb: Id, p: Upload, d: Id)
    requires Inv(cfg, s.db) && Accepts(cfg, s.db, org, kb, p)
    requires d in s.db.documents && s.db.documents[d].kb == kb
    requires s.db.documents[d].key == BuildDocumentKey(p, s.db.nextId)
    requires s.db.documents[d].checksum != BuildChecksum(Strip(cfg.parse(p)), p)
    ensures var (t, reply) := UploadDocument(cfg, s, org, kb, p);
      && reply.Done? && reply.id in t.db.versions && reply.id !in s.db.versions
      && t.db.versions[reply.id].number == s.db.documents[d].latest + 1
  {
    hide Inv, StoreUpload, ByDocumentKey, BuildDocumentKey, BuildChecksum, Strip, MayReindex, StoredState;
    hide UploadDocument, IsTarget;
    UploadCases(cfg, s, org, kb, p);
    LookupIsKey(cfg, s.db, org, kb, p, d);
    LookupFindsTarget(s.db, org, kb, p, Some(d));
    InvIdsBelow(cfg, s.db);
    var text := Strip(cfg.parse(p));
    assert !IsUnchangedUpload(s.db, kb, p, text);
    hide IsUnchangedUpload;
    StoredStateKeys(cfg, s, org, kb, p, text, Some(d), d);
    StoredNumber(s.db, org, kb, p, text, d);
  }

  lemma LookupIsKey(cfg: Config, db: Tables, org: Id, kb: Id, p: Upload, d: Id)
    requires Inv(cfg, db) && kb in db.bases && db.bases[kb].org == org
    requires d in db.documents && db.documents[d].kb == kb && db.documents[d].key == BuildDocumentKey(p, db.nextId)
    ensures ByDocumentKey(db, kb, BuildDocumentKey(p, db.nextId)) == Some(d)
  {
    hide Numbered, Indexed, Deletions, IdsBelow;
    TargetIsLookup(db, org, kb, p, Some(d));
  }

  lemma StoredNumber(db: Tables, org: Id, kb: Id, p: Upload, text: string, d: Id)
    requires IdsBelow(db) && d in db.documents
    ensures var t, v := StoreUpload(db, org, kb, p, text, Some(d)), db.nextId + 1;
      v !in db.versions && v in t.versions && t.versions[v].number == db.documents[d].latest + 1
  {
    hide BuildDocumentKey, BuildChecksum;
  }
}
