// The stored state of the knowledge index and what each service call does to it.
// Ids are numbers handed out in increasing order, a hash is the value that is hashed, and a
// timestamp column that is only ever compared with null is a flag.
module KnowledgeModel {
  import opened Text
  import opened Chunking
  import opened Similarity
  import opened Ranking
  import opened Common

  datatype SourceType = Pdf | Docx | Txt | Markdown | Csv | WebsiteUrl | Notion | GoogleDrive | Confluence

  // DocumentSourceType.value
  function SourceTypeName(t: SourceType): string {
    match t
    case Pdf => "pdf"
    case Docx => "docx"
    case Txt => "txt"
    case Markdown => "markdown"
    case Csv => "csv"
    case WebsiteUrl => "website_url"
    case Notion => "notion"
    case GoogleDrive => "google_drive"
    case Confluence => "confluence"
  }

  // The optional strings of an upload: absent and empty are not distinguished by the service, so both are "".
  datatype Upload = Upload(
    sourceType: SourceType,
    sourceUri: string,
    fileName: string,
    title: string,
    contentText: string,
    rawBytes: seq<byte>,
    inline: bool)

  // The hashed string is "<type>:<source>"; an upload without any source gets a fresh random one.
  datatype DocumentKey = Named(sourceType: SourceType, source: string) | Random(sourceType: SourceType, nonce: Id)

  datatype KnowledgeBase = KnowledgeBase(org: Id, name: string, deleted: bool)

  datatype Document = Document(
    org: Id,
    kb: Id,
    key: DocumentKey,
    sourceType: SourceType,
    checksum: string,
    latest: nat,
    current: Id,
    deleted: bool)

  datatype Version = Version(
    org: Id,
    document: Id,
    number: nat,
    text: string,
    isCurrent: bool,
    indexed: bool,
    chunkCount: nat,
    deleted: bool)

  datatype ChunkRow = ChunkRow(document: Id, version: Id, item: Chunk, deleted: bool)

  datatype EmbeddingRow = EmbeddingRow(chunk: Id, document: Id, kb: Id, vector: Vector, deleted: bool)

  datatype Kind = Semantic | Hybrid

  // `ignored` stands for the fields that are part of the cache key but that the query never reads: the
  // search type and the base named in the filters.
  datatype Request = Request(
    query: string,
    topK: nat,
    kb: Option<Id>,
    document: Option<Id>,
    sourceType: Option<SourceType>,
    ignored: string)

  datatype CacheKey = CacheKey(org: Id, kind: Kind, request: Request)

  datatype CacheEntry = CacheEntry(results: seq<Hit>, expires: int)

  // The database tables, keyed by row id.
  datatype Tables = Tables(
    bases: map<Id, KnowledgeBase>,
    documents: map<Id, Document>,
    versions: map<Id, Version>,
    chunks: map<Id, ChunkRow>,
    embeddings: map<Id, EmbeddingRow>,
    nextId: Id)

  // The tables, and what Redis holds: the job list and the search cache.
  datatype State = State(db: Tables, queue: seq<Id>, cache: map<CacheKey, CacheEntry>)

  const EMPTY := State(Tables(map[], map[], map[], map[], map[], 0), [], map[])

  // The settings, and the deterministic functions the service calls: the parser, the embedding provider,
  // the square root of a vector's sum of squares, and str.lower.
  datatype Config = Config(
    chunkSize: int,
    chunkOverlap: int,
    cacheSeconds: nat,
    hasRedis: bool,
    dimensions: nat,
    parse: Upload -> string,
    embed: string -> Vector,
    norm: Vector -> real,
    lower: string -> string)

  // The provider returns vectors of the configured dimension, and Redis takes only positive expiries.
  ghost predicate ConfigOk(cfg: Config) {
    cfg.cacheSeconds >= 1 && forall t :: |cfg.embed(t)| == cfg.dimensions
  }

  datatype Reply = Done(id: Id) | NotFound | Invalid | Conflict

  function Chunks(cfg: Config, text: string): seq<Chunk> {
    ChunksOf(text, cfg.chunkSize, cfg.chunkOverlap)
  }

  // ---------- create_knowledge_base ----------

  ghost function BaseNamed(db: Tables, org: Id, name: string): Option<Id> {
    if exists b :: b in db.bases && db.bases[b].org == org && db.bases[b].name == name then
      var b :| b in db.bases && db.bases[b].org == org && db.bases[b].name == name;
      Some(b)
    else None
  }

  ghost function CreateBase(db: Tables, org: Id, name: string): (Tables, Reply) {
    match BaseNamed(db, org, name)
    case Some(b) =>
      if !db.bases[b].deleted then (db, Conflict)
      else (db.(bases := db.bases[b := db.bases[b].(deleted := false)]), Done(b))
    case None =>
      (db.(bases := db.bases[db.nextId := KnowledgeBase(org, name, false)], nextId := db.nextId + 1), Done(db.nextId))
  }

  // ---------- upload_document ----------

  function BuildDocumentKey(p: Upload, nonce: Id): DocumentKey {
    if p.sourceUri != "" then Named(p.sourceType, p.sourceUri)
    else if p.fileName != "" then Named(p.sourceType, p.fileName)
    else if p.title != "" then Named(p.sourceType, p.title)
    else if p.contentText != "" then Named(p.sourceType, p.contentText)
    else Random(p.sourceType, nonce)
  }

  // The digest is fed the parts one after the other, without separators.
  function BuildChecksum(text: string, p: Upload): string {
    text + SourceTypeName(p.sourceType) + p.sourceUri + p.fileName
  }

  ghost function ByDocumentKey(db: Tables, kb: Id, key: DocumentKey): Option<Id> {
    if exists d :: d in db.documents && db.documents[d].kb == kb && db.documents[d].key == key then
      var d :| d in db.documents && db.documents[d].kb == kb && db.documents[d].key == key;
      Some(d)
    else None
  }

  function ClearCurrent(versions: map<Id, Version>, d: Id): map<Id, Version> {
    map v | v in versions :: if versions[v].document == d then versions[v].(isCurrent := false) else versions[v]
  }

  function TargetDocument(db: Tables, existing: Option<Id>): Id {
    if existing.None? then db.nextId else existing.value
  }

  // The document row an accepted upload leaves: a new one, or the existing one updated in place.
  function StoredDocument(db: Tables, org: Id, kb: Id, p: Upload, text: string, existing: Option<Id>): Document
    requires existing.Some? ==> existing.value in db.documents
  {
    var v, checksum := db.nextId + 1, BuildChecksum(text, p);
    if existing.None? then
      Document(org, kb, BuildDocumentKey(p, db.nextId), p.sourceType, checksum, 1, v, false)
    else
      var prior := db.documents[existing.value];
      prior.(sourceType := p.sourceType, checksum := checksum, latest := prior.latest + 1, current := v,
          deleted := false)
  }

  // The rows an accepted upload writes before it is indexed: the document and its next version, which
  // becomes the only current one.
  function StoreUpload(db: Tables, org: Id, kb: Id, p: Upload, text: string, existing: Option<Id>): Tables
    requires existing.Some? ==> existing.value in db.documents
  {
    var d, v := TargetDocument(db, existing), db.nextId + 1;
    var document := StoredDocument(db, org, kb, p, text, existing);
    var version := Version(org, d, document.latest, text, true, false, 0, false);
    db.(documents := db.documents[d := document],
        versions := ClearCurrent(db.versions, d)[v := version],
        nextId := db.nextId + 2)
  }

  function Enqueue(cfg: Config, s: State, v: Id): State {
    if cfg.hasRedis then s.(queue := [v] + s.queue) else s
  }

  ghost predicate IsUnchangedUpload(db: Tables, kb: Id, p: Upload, text: string) {
    var existing := ByDocumentKey(db, kb, BuildDocumentKey(p, db.nextId));
    && existing.Some?
    && db.documents[existing.value].checksum == BuildChecksum(text, p)
    && !db.documents[existing.value].deleted
  }

  // How an upload is answered before anything is written: the error, or None when it goes ahead.
  ghost function UploadRefusal(cfg: Config, db: Tables, org: Id, kb: Id, p: Upload): Option<Reply> {
    if kb !in db.bases || db.bases[kb].org != org then Some(NotFound)
    else if db.bases[kb].deleted then Some(Invalid)
    else if Strip(cfg.parse(p)) == "" then Some(Invalid)
    else None
  }

  ghost function UploadDocument(cfg: Config, s: State, org: Id, kb: Id, p: Upload): (State, Reply) {
    var refusal, text := UploadRefusal(cfg, s.db, org, kb, p), Strip(cfg.parse(p));
    var existing := ByDocumentKey(s.db, kb, BuildDocumentKey(p, s.db.nextId));
    if refusal.Some? then (s, refusal.value)
    else if IsUnchangedUpload(s.db, kb, p, text) then (s, Done(s.db.documents[existing.value].current))
    else
      var stored := s.(db := StoreUpload(s.db, org, kb, p, text, existing));
      var d, v := TargetDocument(s.db, existing), s.db.nextId + 1;
      (if p.inline then ProcessVersion(cfg, stored, d, v, false) else Enqueue(cfg, stored, v), Done(v))
  }

  // ---------- _process_version ----------

  // What is left of the chunk and embedding tables once the rows of version v are deleted.
  function ChunksWithout(db: Tables, v: Id): map<Id, ChunkRow> {
    map c | c in db.chunks && db.chunks[c].version != v :: db.chunks[c]
  }

  predicate EmbedsVersion(db: Tables, e: Id, v: Id)
    requires e in db.embeddings
  {
    db.embeddings[e].chunk in db.chunks && db.chunks[db.embeddings[e].chunk].version == v
  }

  function EmbeddingsWithout(db: Tables, v: Id): map<Id, EmbeddingRow> {
    map e | e in db.embeddings && !EmbedsVersion(db, e, v) :: db.embeddings[e]
  }

  function IdRange(first: Id, n: nat): (ids: set<Id>)
    ensures forall i :: i in ids <==> first <= i < first + n
  {
    if n == 0 then {} else IdRange(first, n - 1) + {first + n - 1}
  }

  // The rows that indexing adds: chunk k gets id first + k, its embedding id first + |items| + k.
  // These are the rows of the first n chunks.
  function NewChunks(items: seq<Chunk>, n: nat, first: Id, d: Id, v: Id): map<Id, ChunkRow>
    requires n <= |items|
  {
    map c | c in IdRange(first, n) :: ChunkRow(d, v, items[c - first], false)
  }

  function NewEmbeddings(cfg: Config, items: seq<Chunk>, n: nat, first: Id, d: Id, kb: Id): map<Id, EmbeddingRow>
    requires n <= |items|
  {
    var low := first + |items|;
    map e | e in IdRange(low, n) :: EmbeddingRow(e - |items|, d, kb, cfg.embed(items[e - low].text), false)
  }

  // The tables once `items` are stored and embedded as the chunks of version v of document d.
  function Reindexed(cfg: Config, db: Tables, d: Id, v: Id, items: seq<Chunk>, reset: bool): Tables
    requires d in db.documents && v in db.versions
  {
    var document, version := db.documents[d], db.versions[v];
    db.(chunks := (if reset then ChunksWithout(db, v) else db.chunks) + NewChunks(items, |items|, db.nextId, d, v),
        embeddings := (if reset then EmbeddingsWithout(db, v) else db.embeddings)
                      + NewEmbeddings(cfg, items, |items|, db.nextId, d, document.kb),
        versions := db.versions[v := version.(chunkCount := |items|, isCurrent := true, indexed := true)],
        documents := db.documents[d := document.(current := v, latest := Max(document.latest, version.number))],
        nextId := db.nextId + 2 * |items|)
  }

  // Deleting every key of the organization, in any order, leaves the others.
  function Invalidate(cache: map<CacheKey, CacheEntry>, org: Id): map<CacheKey, CacheEntry> {
    map k | k in cache && k.org != org :: cache[k]
  }

  function ProcessVersion(cfg: Config, s: State, d: Id, v: Id, reset: bool): State
    requires d in s.db.documents && v in s.db.versions
  {
    s.(db := Reindexed(cfg, s.db, d, v, Chunks(cfg, s.db.versions[v].text), reset),
        cache := Invalidate(s.cache, s.db.documents[d].org))
  }

  // ---------- delete_document, reindex_document, ingest_pending_version, one background job ----------

  function MarkVersions(versions: map<Id, Version>, d: Id): map<Id, Version> {
    map v | v in versions ::
      if versions[v].document == d then versions[v].(deleted := true, isCurrent := false) else versions[v]
  }

  function MarkChunks(chunks: map<Id, ChunkRow>, d: Id): map<Id, ChunkRow> {
    map c | c in chunks :: if chunks[c].document == d then chunks[c].(deleted := true) else chunks[c]
  }

  predicate EmbedsDocument(db: Tables, e: Id, d: Id)
    requires e in db.embeddings
  {
    db.embeddings[e].chunk in db.chunks && db.chunks[db.embeddings[e].chunk].document == d
  }

  function MarkEmbeddings(db: Tables, d: Id): map<Id, EmbeddingRow> {
    map e | e in db.embeddings ::
      if EmbedsDocument(db, e, d) then db.embeddings[e].(deleted := true) else db.embeddings[e]
  }

  predicate HasDocument(db: Tables, org: Id, d: Id) {
    d in db.documents && db.documents[d].org == org
  }

  function Deleted(db: Tables, d: Id): Tables
    requires d in db.documents
  {
    db.(documents := db.documents[d := db.documents[d].(deleted := true)],
        versions := MarkVersions(db.versions, d),
        chunks := MarkChunks(db.chunks, d),
        embeddings := MarkEmbeddings(db, d))
  }

  function DeleteDocument(s: State, org: Id, d: Id): (State, Reply) {
    if !HasDocument(s.db, org, d) then (s, NotFound) else (s.(db := Deleted(s.db, d)), Done(d))
  }

  function ReindexDocument(cfg: Config, s: State, org: Id, d: Id): (State, Reply) {
    if !HasDocument(s.db, org, d) then (s, NotFound)
    else if s.db.documents[d].current !in s.db.versions then (s, NotFound)
    else (ProcessVersion(cfg, s, d, s.db.documents[d].current, true), Done(s.db.documents[d].current))
  }

  // Whether ingesting v gets as far as processing it.
  predicate Ingestible(db: Tables, v: Id) {
    && v in db.versions && !db.versions[v].deleted
    && HasDocument(db, db.versions[v].org, db.versions[v].document)
  }

  function IngestPendingVersion(cfg: Config, s: State, v: Id): State {
    if Ingestible(s.db, v) then ProcessVersion(cfg, s, s.db.versions[v].document, v, true) else s
  }

  // The job rpop takes: jobs are pushed at the front of the list and taken from its end.
  function NextJob(s: State): Id
    requires s.queue != []
  {
    s.queue[|s.queue| - 1]
  }

  function RunJob(cfg: Config, s: State): State
    requires s.queue != []
  {
    IngestPendingVersion(cfg, s.(queue := s.queue[..|s.queue| - 1]), NextJob(s))
  }

  // process_background_jobs with room for n jobs.
  function Drain(cfg: Config, s: State, n: nat): State
    decreases n
  {
    if n == 0 || s.queue == [] then s else Drain(cfg, RunJob(cfg, s), n - 1)
  }

  // ---------- _search ----------

  // The join and the filters of the search query, for one embedding row.
  predicate Visible(db: Tables, e: Id, key: CacheKey)
    requires e in db.embeddings
  {
    var r := db.embeddings[e];
    && r.chunk in db.chunks && r.document in db.documents && r.kb in db.bases
    && db.chunks[r.chunk].version in db.versions
    && db.bases[r.kb].org == key.org && !db.bases[r.kb].deleted
    && !db.documents[r.document].deleted
    && !db.chunks[r.chunk].deleted && !r.deleted
    && !db.versions[db.chunks[r.chunk].version].deleted
    && (key.request.kb.Some? ==> r.kb == key.request.kb.value)
    && (key.request.document.Some? ==> r.document == key.request.document.value)
    && (key.request.sourceType.Some? ==> db.documents[r.document].sourceType == key.request.sourceType.value)
  }

  function VectorScore(cfg: Config, query: string, vector: Vector): Similarity {
    var q := cfg.embed(query);
    CosineSimilarity(q, vector, cfg.norm(q), cfg.norm(vector))
  }

  // The score of a row.  A vector of another dimension raises an error; no reachable state stores one.
  function RowScore(cfg: Config, key: CacheKey, vector: Vector, text: string): real {
    match VectorScore(cfg, key.request.query, vector)
    case DimensionMismatch => 0.0
    case Score(x) =>
      if key.kind == Semantic then x
      else HybridScore(x, LexicalSimilarity(Terms(key.request.query, cfg.lower), Terms(text, cfg.lower)))
  }

  function HitOf(cfg: Config, db: Tables, e: Id, key: CacheKey): Hit
    requires e in db.embeddings && db.embeddings[e].chunk in db.chunks
  {
    var r := db.embeddings[e];
    Hit(r.chunk, RowScore(cfg, key, r.vector, db.chunks[r.chunk].item.text))
  }

  // The rows a search over these tables ranks.
  ghost function Rows(cfg: Config, db: Tables, key: CacheKey): set<Hit> {
    set e | e in db.embeddings && Visible(db, e, key) :: HitOf(cfg, db, e, key)
  }

  // An answer a fresh search may give: any of the rankings that differ in ties only.
  ghost predicate Fresh(cfg: Config, db: Tables, key: CacheKey, results: seq<Hit>) {
    IsTopK(results, Rows(cfg, db, key), key.request.topK)
  }

  function CacheGet(cfg: Config, s: State, key: CacheKey, now: int): Option<seq<Hit>> {
    if cfg.hasRedis && key in s.cache && now < s.cache[key].expires then Some(s.cache[key].results) else None
  }

  function CacheSet(cfg: Config, s: State, key: CacheKey, results: seq<Hit>, now: int): State {
    if cfg.hasRedis then s.(cache := s.cache[key := CacheEntry(results, now + cfg.cacheSeconds)]) else s
  }

  // ---------- Steps and runs ----------

  datatype Event =
    | Create(org: Id, name: string)
    | Store(org: Id, kb: Id, upload: Upload)
    | Delete(org: Id, document: Id)
    | Reindex(org: Id, document: Id)
    | Ingest(version: Id)
    | Job
    | Search(key: CacheKey, results: seq<Hit>)

  // One service call at time `at`.  Search is the only call whose outcome is not determined.
  ghost predicate Next(cfg: Config, s: State, ev: Event, at: int, t: State) {
    match ev
    case Create(org, name) => t == s.(db := CreateBase(s.db, org, name).0)
    case Store(org, kb, upload) => t == UploadDocument(cfg, s, org, kb, upload).0
    case Delete(org, d) => t == DeleteDocument(s, org, d).0
    case Reindex(org, d) => t == ReindexDocument(cfg, s, org, d).0
    case Ingest(v) => t == IngestPendingVersion(cfg, s, v)
    case Job => t == if s.queue == [] then s else RunJob(cfg, s)
    case Search(key, results) =>
      match CacheGet(cfg, s, key, at)
      case Some(cached) => results == cached && t == s
      case None => Fresh(cfg, s.db, key, results) && t == CacheSet(cfg, s, key, results, at)
  }

  // A run from the empty database: events[i] happens at times[i] and leads from states[i] to states[i + 1].
  datatype Run = Run(states: seq<State>, events: seq<Event>, times: seq<int>)

  ghost predicate IsRun(cfg: Config, run: Run) {
    && |run.states| == |run.events| + 1 && |run.times| == |run.events|
    && run.states[0] == EMPTY
    && (forall i :: 0 <= i < |run.events| ==> Next(cfg, run.states[i], run.events[i], run.times[i], run.states[i + 1]))
    && (forall i, j :: 0 <= i <= j < |run.times| ==> run.times[i] <= run.times[j])
  }
}
