// Repeated uploads: an upload of what is already there changes nothing, and what the checksum takes for
// the same content.
module KnowledgeUploads {
  import opened Common
  import opened Text
  import opened Chunking
  import opened KnowledgeModel
  import opened KnowledgeInvariants
  import opened KnowledgeViews

  // ---------- Repeated uploads ----------

  // The base shows a live document with this key and checksum.
  ghost predicate ShowsContent(db: Tables, kb: Id, p: Upload, text: string, d: Id) {
    && d in db.documents && db.documents[d].kb == kb && !db.documents[d].deleted
    && db.documents[d].key == BuildDocumentKey(p, 0) && db.documents[d].checksum == BuildChecksum(text, p)
  }

  // The upload names its source: a URI, a file name, a title or a text.
  predicate NamesSource(p: Upload) {
    p.sourceUri != "" || p.fileName != "" || p.title != "" || p.contentText != ""
  }

  // An upload of a live document's latest content is recognised and changes nothing.
  lemma ShownContentIsUnchanged(cfg: Config, s: State, org: Id, kb: Id, p: Upload, d: Id)
    requires Inv(cfg, s.db) && NamesSource(p) && UploadRefusal(cfg, s.db, org, kb, p).None?
    requires ShowsContent(s.db, kb, p, Strip(cfg.parse(p)), d)
    ensures UploadDocument(cfg, s, org, kb, p) == (s, Done(s.db.documents[d].current))
  {
    hide Numbered, Indexed, Deletions, IdsBelow, BuildChecksum, Strip;
    TargetIsLookup(s.db, org, kb, p, Some(d));
  }

  lemma StoredShowsContent(cfg: Config, db: Tables, org: Id, kb: Id, p: Upload, text: string, existing: Option<Id>)
    requires Inv(cfg, db) && MayStore(db, org, kb, p, existing) && NamesSource(p)
    requires existing.Some? ==> existing.value in db.documents
    ensures ShowsContent(StoreUpload(db, org, kb, p, text, existing), kb, p, text, TargetDocument(db, existing))
  {
    hide Inv, BuildChecksum;
    LookupFindsTarget(db, org, kb, p, existing);
  }

  lemma ReindexShowsContent(cfg: Config, db: Tables, d: Id, v: Id, items: seq<Chunk>, kb: Id, p: Upload, text: string)
    requires d in db.documents && v in db.versions && ShowsContent(db, kb, p, text, d)
    ensures ShowsContent(Reindexed(cfg, db, d, v, items, false), kb, p, text, d)
  {
    hide NewChunks, NewEmbeddings, BuildChecksum, BuildDocumentKey;
  }

  // An accepted upload leaves a live document that shows its content.
  lemma UploadShowsContent(cfg: Config, s: State, org: Id, kb: Id, p: Upload)
    requires Inv(cfg, s.db) && NamesSource(p) && UploadRefusal(cfg, s.db, org, kb, p).None?
    ensures exists d :: ShowsContent(UploadDocument(cfg, s, org, kb, p).0.db, kb, p, Strip(cfg.parse(p)), d)
    ensures UploadDocument(cfg, s, org, kb, p).0.db.bases == s.db.bases
  {
    hide Inv, StoreUpload, ByDocumentKey, BuildDocumentKey, BuildChecksum;
    hide Strip, Chunks, Reindexed, ShowsContent, MayReindex;
    var text := Strip(cfg.parse(p));
    var existing := ByDocumentKey(s.db, kb, BuildDocumentKey(p, s.db.nextId));
    if IsUnchangedUpload(s.db, kb, p, text) {
      UnchangedShowsContent(cfg, s.db, org, kb, p, text, existing);
      assert ShowsContent(UploadDocument(cfg, s, org, kb, p).0.db, kb, p, text, existing.value);
    } else {
      StoreKeepsInv(cfg, s.db, org, kb, p, text, existing);
      StoredShowsContent(cfg, s.db, org, kb, p, text, existing);
      var stored := StoreUpload(s.db, org, kb, p, text, existing);
      var d, v := TargetDocument(s.db, existing), s.db.nextId + 1;
      MayReindexHeaders(stored, d, v, false);
      ReindexShowsContent(cfg, stored, d, v, Chunks(cfg, stored.versions[v].text), kb, p, text);
      UploadKeepsBases(cfg, s.db, org, kb, p, text, existing, d, v);
      assert ShowsContent(UploadDocument(cfg, s, org, kb, p).0.db, kb, p, text, d);
    }
  }

  lemma UploadKeepsBases(cfg: Config, db: Tables, org: Id, kb: Id, p: Upload, text: string, existing: Option<Id>,
                         d: Id, v: Id)
    requires existing.Some? ==> existing.value in db.documents
    requires d in StoreUpload(db, org, kb, p, text, existing).documents
    requires v in StoreUpload(db, org, kb, p, text, existing).versions
    ensures var stored := StoreUpload(db, org, kb, p, text, existing);
      stored.bases == db.bases
        && Reindexed(cfg, stored, d, v, Chunks(cfg, stored.versions[v].text), false).bases == db.bases
  {
  }

  lemma UnchangedShowsContent(cfg: Config, db: Tables, org: Id, kb: Id, p: Upload, text: string, existing: Option<Id>)
    requires NamesSource(p) && IsUnchangedUpload(db, kb, p, text)
    requires existing == ByDocumentKey(db, kb, BuildDocumentKey(p, db.nextId))
    ensures existing.Some? && ShowsContent(db, kb, p, text, existing.value)
  {
    hide BuildChecksum;
  }

  // Doing the same upload twice is doing it once.
  lemma RepeatedUploadChangesNothing(cfg: Config, s: State, org: Id, kb: Id, p: Upload)
    requires Inv(cfg, s.db) && NamesSource(p) && UploadRefusal(cfg, s.db, org, kb, p).None?
    ensures var t := UploadDocument(cfg, s, org, kb, p).0;
      UploadDocument(cfg, t, org, kb, p).0 == t
  {
    UploadKeepsInv(cfg, s, org, kb, p);
    UploadShowsContent(cfg, s, org, kb, p);
    var t := UploadDocument(cfg, s, org, kb, p).0;
    hide Inv, UploadDocument, ShowsContent, Strip;
    var d :| ShowsContent(t.db, kb, p, Strip(cfg.parse(p)), d);
    ShownContentIsUnchanged(cfg, t, org, kb, p, d);
  }

  // ---------- What the checksum takes for the same content ----------

  // What is hashed behind the text.
  function Tail(p: Upload): string {
    SourceTypeName(p.sourceType) + p.sourceUri + p.fileName
  }

  lemma ChecksumIs(text: string, p: Upload)
    ensures BuildChecksum(text, p) == text + Tail(p)
  {
    Assoc(text, SourceTypeName(p.sourceType), p.sourceUri);
    Assoc(text, SourceTypeName(p.sourceType) + p.sourceUri, p.fileName);
  }

  predicate ProperSuffix(short: string, long: string) {
    |short| < |long| && long[|long| - |short|..] == short
  }

  // Two strings that agree with different tails: one tail ends in the other, and its surplus is in the text.
  lemma Overlap(a: string, t0: string, b: string, t1: string)
    requires |t0| > |t1|
    ensures a + t0 == b + t1 <==> ProperSuffix(t1, t0) && b == a + t0[..|t0| - |t1|]
  {
    var surplus := t0[..|t0| - |t1|];
    assert t0 == surplus + t0[|surplus|..];
    Assoc(a, surplus, t0[|surplus|..]);
    if a + t0 == b + t1 {
      assert (a + t0)[..|a + surplus|] == a + surplus;
      assert (b + t1)[..|b|] == b;
      assert (a + t0)[|a + surplus|..] == t0[|surplus|..];
      assert (b + t1)[|b|..] == t1;
    }
  }

  lemma SameLength(a: string, t0: string, b: string, t1: string)
    requires |t0| == |t1| && a + t0 == b + t1
    ensures a == b
  {
    assert (a + t0)[..|a|] == a && (b + t1)[..|b|] == b;
  }

  // Equal checksums of the two uploads mean equal texts.
  ghost predicate TellsApart(p0: Upload, p1: Upload) {
    forall a, b :: BuildChecksum(a, p0) == BuildChecksum(b, p1) ==> a == b
  }

  lemma NotToldApart(p0: Upload, p1: Upload, a: string)
    requires ProperSuffix(Tail(p1), Tail(p0))
    ensures var b := a + Tail(p0)[..|Tail(p0)| - |Tail(p1)|];
      a != b && BuildChecksum(a, p0) == BuildChecksum(b, p1)
  {
    var b := a + Tail(p0)[..|Tail(p0)| - |Tail(p1)|];
    ChecksumIs(a, p0);
    ChecksumIs(b, p1);
    hide Tail, BuildChecksum;
    Overlap(a, Tail(p0), b, Tail(p1));
    assert |b| > |a|;
  }

  // The checksum tells all texts of two uploads apart if and only if neither "<type><uri><file>" ends in the other.
  lemma ChecksumTellsTextsApartIff(p0: Upload, p1: Upload)
    ensures TellsApart(p0, p1) <==> !ProperSuffix(Tail(p0), Tail(p1)) && !ProperSuffix(Tail(p1), Tail(p0))
  {
    hide Tail, BuildChecksum;
    if ProperSuffix(Tail(p1), Tail(p0)) {
      NotToldApart(p0, p1, "");
    } else if ProperSuffix(Tail(p0), Tail(p1)) {
      NotToldApart(p1, p0, "");
    } else {
      hide ProperSuffix;
      forall a, b | BuildChecksum(a, p0) == BuildChecksum(b, p1)
        ensures a == b
      {
        EqualChecksums(a, p0, b, p1);
      }
    }
  }

  // With the same type, URI and file name, the checksum tells texts apart.
  lemma ChecksumTellsTextsApart(text0: string, text1: string, p0: Upload, p1: Upload)
    requires p0.sourceType == p1.sourceType && p0.sourceUri == p1.sourceUri && p0.fileName == p1.fileName
    ensures BuildChecksum(text0, p0) == BuildChecksum(text1, p1) <==> text0 == text1
  {
    ChecksumIs(text0, p0);
    ChecksumIs(text1, p1);
    if BuildChecksum(text0, p0) == BuildChecksum(text1, p1) {
      EqualChecksums(text0, p0, text1, p1);
    }
  }

  // Texts with one checksum: they are equal, or one tail ends in the other and the surplus ends one text.
  lemma EqualChecksums(a: string, p0: Upload, b: string, p1: Upload)
    requires BuildChecksum(a, p0) == BuildChecksum(b, p1)
    ensures
      || a == b
      || (ProperSuffix(Tail(p1), Tail(p0)) && b == a + Tail(p0)[..|Tail(p0)| - |Tail(p1)|])
      || (ProperSuffix(Tail(p0), Tail(p1)) && a == b + Tail(p1)[..|Tail(p1)| - |Tail(p0)|])
  {
    ChecksumIs(a, p0);
    ChecksumIs(b, p1);
    hide Tail, BuildChecksum, ProperSuffix;
    if |Tail(p0)| > |Tail(p1)| {
      Overlap(a, Tail(p0), b, Tail(p1));
    } else if |Tail(p1)| > |Tail(p0)| {
      Overlap(b, Tail(p1), a, Tail(p0));
    } else {
      SameLength(a, Tail(p0), b, Tail(p1));
    }
  }

  // The texts that reach the checksum are stripped and not empty, so the surplus must not end in a space.
  predicate Absorbs(long: string, short: string) {
    ProperSuffix(short, long) && !IsSpace(long[|long| - |short| - 1])
  }

  ghost predicate TellsCleanedApart(p0: Upload, p1: Upload) {
    forall a, b :: IsParagraph(a) && IsParagraph(b) && BuildChecksum(a, p0) == BuildChecksum(b, p1) ==> a == b
  }

  lemma CleanedNotToldApart(p0: Upload, p1: Upload, a: string)
    requires IsParagraph(a) && Absorbs(Tail(p0), Tail(p1))
    ensures !TellsCleanedApart(p0, p1) && !TellsCleanedApart(p1, p0)
  {
    hide Tail, BuildChecksum, IsSpace;
    var surplus := Tail(p0)[..|Tail(p0)| - |Tail(p1)|];
    NotToldApart(p0, p1, a);
    assert (a + surplus)[0] == a[0] && (a + surplus)[|a + surplus| - 1] == surplus[|surplus| - 1];
  }

  // Among the texts that uploads really have: if and only if neither tail ends in the other behind a
  // character that is not a space.
  lemma ChecksumTellsCleanedTextsApartIff(p0: Upload, p1: Upload)
    ensures TellsCleanedApart(p0, p1) <==> !Absorbs(Tail(p0), Tail(p1)) && !Absorbs(Tail(p1), Tail(p0))
  {
    assert IsParagraph("A");
    hide Tail, BuildChecksum, IsSpace;
    if Absorbs(Tail(p0), Tail(p1)) {
      CleanedNotToldApart(p0, p1, "A");
    } else if Absorbs(Tail(p1), Tail(p0)) {
      CleanedNotToldApart(p1, p0, "A");
    } else {
      forall a, b | IsParagraph(a) && IsParagraph(b) && BuildChecksum(a, p0) == BuildChecksum(b, p1)
        ensures a == b
      {
        EqualChecksums(a, p0, b, p1);
      }
    }
  }

  // ---------- What the service does about it ----------

  // After an accepted upload, another one with the same source is dropped if and only if the two checksums
  // are equal, whatever the texts are.
  lemma SecondUploadIsDroppedIff(cfg: Config, s: State, org: Id, kb: Id, p0: Upload, p1: Upload)
    requires Inv(cfg, s.db) && NamesSource(p0) && NamesSource(p1) && BuildDocumentKey(p0, 0) == BuildDocumentKey(p1, 0)
    requires UploadRefusal(cfg, s.db, org, kb, p0).None? && UploadRefusal(cfg, s.db, org, kb, p1).None?
    ensures var t := UploadDocument(cfg, s, org, kb, p0).0;
      UploadDocument(cfg, t, org, kb, p1).0 == t <==>
      BuildChecksum(Strip(cfg.parse(p0)), p0) == BuildChecksum(Strip(cfg.parse(p1)), p1)
  {
    UploadKeepsInv(cfg, s, org, kb, p0);
    UploadShowsContent(cfg, s, org, kb, p0);
    var t := UploadDocument(cfg, s, org, kb, p0).0;
    var text0, text1 := Strip(cfg.parse(p0)), Strip(cfg.parse(p1));
    hide Inv, UploadDocument, Strip, BuildChecksum;
    var d :| ShowsContent(t.db, kb, p0, text0, d);
    assert UploadRefusal(cfg, t.db, org, kb, p1).None?;
    if BuildChecksum(text0, p0) == BuildChecksum(text1, p1) {
      assert ShowsContent(t.db, kb, p1, text1, d);
      ShownContentIsUnchanged(cfg, t, org, kb, p1, d);
    } else {
      OtherContentIsStored(cfg, t, org, kb, p1, d);
    }
  }

  // An upload with the key of a document and another checksum is stored.
  lemma OtherContentIsStored(cfg: Config, s: State, org: Id, kb: Id, p: Upload, d: Id)
    requires Inv(cfg, s.db) && NamesSource(p) && UploadRefusal(cfg, s.db, org, kb, p).None?
    requires d in s.db.documents && s.db.documents[d].kb == kb && s.db.documents[d].key == BuildDocumentKey(p, 0)
    requires s.db.documents[d].checksum != BuildChecksum(Strip(cfg.parse(p)), p)
    ensures UploadDocument(cfg, s, org, kb, p).0 != s
  {
    hide Inv, BuildChecksum, BuildDocumentKey, Strip, ByDocumentKey, StoreUpload, MayReindex, ProcessVersion, Enqueue;
    LiveLookup(cfg, s.db, org, kb, p, d);
    var text := Strip(cfg.parse(p));
    assert !IsUnchangedUpload(s.db, kb, p, text);
    hide IsUnchangedUpload;
    StoreKeepsInv(cfg, s.db, org, kb, p, text, Some(d));
    StoreAddsIds(cfg, s, org, kb, p, text, Some(d));
  }

  lemma LiveLookup(cfg: Config, db: Tables, org: Id, kb: Id, p: Upload, d: Id)
    requires Inv(cfg, db) && NamesSource(p) && kb in db.bases && db.bases[kb].org == org
    requires d in db.documents && db.documents[d].kb == kb && db.documents[d].key == BuildDocumentKey(p, 0)
    ensures ByDocumentKey(db, kb, BuildDocumentKey(p, db.nextId)) == Some(d)
  {
    hide Numbered, Indexed, Deletions, IdsBelow;
    TargetIsLookup(db, org, kb, p, Some(d));
  }

  lemma StoreAddsIds(cfg: Config, s: State, org: Id, kb: Id, p: Upload, text: string, existing: Option<Id>)
    requires existing.Some? ==> existing.value in s.db.documents
    requires var stored := s.(db := StoreUpload(s.db, org, kb, p, text, existing));
      MayReindex(stored.db, TargetDocument(s.db, existing), s.db.nextId + 1, false)
    ensures var stored := s.(db := StoreUpload(s.db, org, kb, p, text, existing));
      var d, v := TargetDocument(s.db, existing), s.db.nextId + 1;
      && MayReindex(stored.db, d, v, false)
      && ProcessVersion(cfg, stored, d, v, false).db.nextId > s.db.nextId
      && Enqueue(cfg, stored, v).db.nextId > s.db.nextId
  {
    hide BuildChecksum, BuildDocumentKey, NewChunks, NewEmbeddings, Chunks;
  }
}
