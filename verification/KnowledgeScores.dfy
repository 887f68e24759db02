// What a search ranks its rows by, told from the texts alone: how near the embeddings of the query and of the
// chunk are, and which part of their terms the two share.
module KnowledgeScores {
  import opened Common
  import opened Text
  import opened Similarity
  import opened Ranking
  import opened KnowledgeModel
  import opened KnowledgeInvariants
  import opened KnowledgeIndex

  // The square of the distance between the embeddings of two texts.
  ghost function Gap(cfg: Config, query: string, text: string): real
    requires ProviderOk(cfg)
  {
    assert |cfg.embed(query)| == cfg.dimensions && |cfg.embed(text)| == cfg.dimensions;
    SumSquares(Minus(cfg.embed(query), cfg.embed(text)))
  }

  // The part of all the words of two texts, in lower case, that both have.
  ghost function Shared(cfg: Config, query: string, text: string): real {
    var q := set w | w in Words(cfg.lower(query));
    var c := set w | w in Words(cfg.lower(text));
    if q + c == {} then 0.0 else |q * c| as real / |q + c| as real
  }

  function TextOf(db: Tables, e: Id): string
    requires e in db.embeddings && db.embeddings[e].chunk in db.chunks
  {
    db.chunks[db.embeddings[e].chunk].item.text
  }

  lemma VectorScoreByGap(cfg: Config, query: string, text: string)
    requires ProviderOk(cfg) && cfg.dimensions > 0
    ensures VectorScore(cfg, query, cfg.embed(text)) == Score(1.0 - Gap(cfg, query, text) / 2.0)
  {
    var q, v := cfg.embed(query), cfg.embed(text);
    assert |q| == cfg.dimensions && |v| == cfg.dimensions;
    hide Dot, Minus, SumSquares, CosineSimilarity, IsRoot;
    CosineByDistance(q, v, cfg.norm(q), cfg.norm(v));
  }

  lemma LexicalScoreByShared(cfg: Config, query: string, text: string)
    ensures LexicalSimilarity(Terms(query, cfg.lower), Terms(text, cfg.lower)) == Shared(cfg, query, text)
  {
    var q, c := Terms(query, cfg.lower), Terms(text, cfg.lower);
    hide Words, LexicalSimilarity;
    LexicalRatio(q, c);
    assert Shared(cfg, query, text) == if q + c == {} then 0.0 else |q * c| as real / |q + c| as real;
    if q + c == {} {
      NoTerms(q, c);
    }
  }

  lemma NoTerms(q: set<string>, c: set<string>)
    requires q + c == {}
    ensures LexicalSimilarity(q, c) == 0.0
  {
    assert q <= q + c;
  }

  // The score of a stored row, by its text.
  lemma ScoreByTexts(cfg: Config, provider: Provider, db: Tables, e: Id, key: CacheKey)
    requires Inv(cfg, db) && EmbedsWith(cfg, provider) && cfg.dimensions > 0 && e in db.embeddings
    ensures ProviderOk(cfg) && db.embeddings[e].chunk in db.chunks
    ensures HitOf(cfg, db, e, key).chunk == db.embeddings[e].chunk
    ensures var gap, score := Gap(cfg, key.request.query, TextOf(db, e)), HitOf(cfg, db, e, key).score;
      if key.kind == Semantic then 2.0 * score == 2.0 - gap
      else 10.0 * score == 8.0 - 4.0 * gap + 2.0 * Shared(cfg, key.request.query, TextOf(db, e))
  {
    ProviderIsOk(cfg, provider);
    InvRowIsLinked(cfg, db, e);
    StoredVector(cfg, db, e);
    hide Inv, EmbedsWith, ProviderOk, VectorScore, LexicalSimilarity, Terms, Gap, Shared;
    VectorScoreByGap(cfg, key.request.query, TextOf(db, e));
    LexicalScoreByShared(cfg, key.request.query, TextOf(db, e));
  }

  lemma StoredVector(cfg: Config, db: Tables, e: Id)
    requires Inv(cfg, db) && e in db.embeddings
    ensures db.embeddings[e].chunk in db.chunks && db.embeddings[e].vector == cfg.embed(TextOf(db, e))
  {
    hide Refs, Numbered, Deletions, IdsBelow, VersionIndexed;
    assert VectorOk(cfg, db, e);
  }

  // A semantic search ranks the nearer row first.  A hybrid search lets nearness outweigh shared words: a row
  // comes first when twice its lead in squared distance makes up for its lag in shared words.
  ghost predicate RanksAtLeast(cfg: Config, db: Tables, key: CacheKey, e: Id, f: Id)
    requires ProviderOk(cfg) && Inv(cfg, db) && e in db.embeddings && f in db.embeddings
  {
    InvRowIsLinked(cfg, db, e);
    InvRowIsLinked(cfg, db, f);
    var query, first, second := key.request.query, TextOf(db, e), TextOf(db, f);
    var lead := Gap(cfg, query, second) - Gap(cfg, query, first);
    if key.kind == Semantic then lead >= 0.0
    else 2.0 * lead >= Shared(cfg, query, second) - Shared(cfg, query, first)
  }

  lemma OrderOfTwoRows(cfg: Config, provider: Provider, db: Tables, key: CacheKey, e: Id, f: Id)
    requires Inv(cfg, db) && EmbedsWith(cfg, provider) && cfg.dimensions > 0
    requires e in db.embeddings && f in db.embeddings
    ensures ProviderOk(cfg) && db.embeddings[e].chunk in db.chunks && db.embeddings[f].chunk in db.chunks
    ensures HitOf(cfg, db, e, key).score >= HitOf(cfg, db, f, key).score <==> RanksAtLeast(cfg, db, key, e, f)
  {
    ProviderIsOk(cfg, provider);
    hide Inv, EmbedsWith, ProviderOk, HitOf, Gap, Shared;
    ScoreByTexts(cfg, provider, db, e, key);
    ScoreByTexts(cfg, provider, db, f, key);
  }

  ghost predicate IsRankedAs(cfg: Config, db: Tables, key: CacheKey, e: Id, h: Hit) {
    e in db.embeddings && Visible(db, e, key) && HitOf(cfg, db, e, key) == h
  }

  // Every result of a fresh search is the hit of a visible row that ranks at least as high as every visible row
  // that is not among the results before it.
  lemma ResultsFollowTheTexts(
      cfg: Config, provider: Provider, db: Tables, key: CacheKey, results: seq<Hit>, i: nat, f: Id)
    requires Inv(cfg, db) && EmbedsWith(cfg, provider) && cfg.dimensions > 0
    requires Fresh(cfg, db, key, results) && i < |results|
    requires f in db.embeddings && Visible(db, f, key) && HitOf(cfg, db, f, key) !in results[..i]
    ensures ProviderOk(cfg)
    ensures exists e :: IsRankedAs(cfg, db, key, e, results[i]) && RanksAtLeast(cfg, db, key, e, f)
  {
    hide Inv, EmbedsWith, ProviderOk, HitOf, RanksAtLeast, Visible, Rows, Fresh;
    ProviderIsOk(cfg, provider);
    var e := RowOfResult(cfg, db, key, results, i, f);
    OrderOfTwoRows(cfg, provider, db, key, e, f);
  }

  // The row that results[i] stands for; it scores at least as high as row f.
  lemma RowOfResult(cfg: Config, db: Tables, key: CacheKey, results: seq<Hit>, i: nat, f: Id) returns (e: Id)
    requires Fresh(cfg, db, key, results) && i < |results|
    requires f in db.embeddings && Visible(db, f, key) && HitOf(cfg, db, f, key) !in results[..i]
    ensures IsRankedAs(cfg, db, key, e, results[i])
    ensures results[i].score >= HitOf(cfg, db, f, key).score
  {
    hide HitOf, IsTopK;
    var rows, h := Rows(cfg, db, key), HitOf(cfg, db, f, key);
    assert h in rows;
    NotBefore(results, rows, key.request.topK, i, h);
    e :| e in db.embeddings && Visible(db, e, key) && HitOf(cfg, db, e, key) == results[i];
  }

  lemma NotBefore(results: seq<Hit>, rows: set<Hit>, k: nat, i: nat, h: Hit)
    requires IsTopK(results, rows, k) && i < |results| && h in rows && h !in results[..i]
    ensures results[i] in rows && results[i].score >= h.score
  {
    assert results[i] in Elements(results);
    forall j | 0 <= j < i
      ensures results[j] != h
    {
      InPrefix(results, j, i);
    }
  }
}
