// Vector and lexical similarity, and the deterministic embedding, over exact reals.  A square root is
// passed in as a value that IsRoot holds of, since it need not be rational.
module Similarity {
  import opened Common
  import opened Text

  type Vector = seq<real>

  // ---------- backend/services/knowledge/search.py ----------

  // sum(l * r for l, r in zip(left, right))
  function Dot(left: Vector, right: Vector): real {
    if left == [] || right == [] then 0.0 else left[0] * right[0] + Dot(left[1..], right[1..])
  }

  function SumSquares(v: Vector): real {
    Dot(v, v)
  }

  function Square(x: real): real {
    x * x
  }

  predicate IsRoot(root: real, square: real) {
    root >= 0.0 && Square(root) == square
  }

  // math.sqrt(...) or 1.0
  function OrOne(root: real): (r: real)
    ensures r != 0.0
  {
    if root == 0.0 then 1.0 else root
  }

  datatype Similarity = Score(value: real) | DimensionMismatch

  function CosineSimilarity(left: Vector, right: Vector, leftRoot: real, rightRoot: real): Similarity {
    if |left| != |right| then DimensionMismatch
    else Score(Dot(left, right) / (OrOne(leftRoot) * OrOne(rightRoot)))
  }

  // { term for term in text.lower().split() if term }
  function Terms(text: string, lower: string -> string): set<string> {
    set w | w in Words(lower(text))
  }

  function LexicalSimilarity(queryTerms: set<string>, chunkTerms: set<string>): real {
    if queryTerms == {} || chunkTerms == {} then 0.0
    else |queryTerms * chunkTerms| as real / |queryTerms + chunkTerms| as real
  }

  // 0.8 * vector_score + 0.2 * lexical_score
  function HybridScore(vectorScore: real, lexicalScore: real): real {
    0.8 * vectorScore + 0.2 * lexicalScore
  }

  // ---------- Cauchy-Schwarz ----------

  lemma ProductPositive(x: real, y: real, product: real)
    requires x > 0.0 && y > 0.0 && product == x * y
    ensures product > 0.0
  {
  }

  lemma NegatedSquare(x: real)
    ensures Square(-x) == Square(x)
  {
  }

  lemma DifferenceOfSquares(x: real, y: real)
    ensures (x - y) * (x + y) == Square(x) - Square(y)
  {
  }

  lemma SquareSign(x: real)
    ensures Square(x) >= 0.0
    ensures x != 0.0 ==> Square(x) > 0.0
  {
    if x > 0.0 {
      ProductPositive(x, x, Square(x));
    } else if x < 0.0 {
      NegatedSquare(x);
      ProductPositive(-x, -x, Square(-x));
    }
  }

  lemma SquareOrder(x: real, y: real)
    requires y >= 0.0 && Square(x) <= Square(y)
    ensures -y <= x <= y
  {
    NegatedSquare(x);
    DifferenceOfSquares(x, y);
    DifferenceOfSquares(-x, y);
    if x > y {
      ProductPositive(x - y, x + y, Square(x) - Square(y));
    } else if x < -y {
      ProductPositive(-x - y, -x + y, Square(-x) - Square(y));
    }
  }

  lemma {:induction false} DotSymmetric(a: Vector, b: Vector)
    ensures Dot(a, b) == Dot(b, a)
  {
    if a != [] && b != [] {
      DotSymmetric(a[1..], b[1..]);
    }
  }

  lemma {:induction false} SumSquaresNonNegative(v: Vector)
    ensures SumSquares(v) >= 0.0
  {
    if v != [] {
      SumSquaresNonNegative(v[1..]);
    }
  }

  // The square of the distance between t*a and s*b, written in aa = a.a, ab = a.b and bb = b.b.
  function Distance(aa: real, ab: real, bb: real, t: real, s: real): real {
    t * t * aa - 2.0 * t * s * ab + s * s * bb
  }

  lemma {:induction false} DistanceNonNegative(a: Vector, b: Vector, t: real, s: real)
    requires |a| == |b|
    ensures Distance(SumSquares(a), Dot(a, b), SumSquares(b), t, s) >= 0.0
  {
    if a != [] {
      var x, y := a[0], b[0];
      DistanceNonNegative(a[1..], b[1..], t, s);
      DistanceStep(x, y, SumSquares(a[1..]), Dot(a[1..], b[1..]), SumSquares(b[1..]), t, s);
    }
  }

  lemma DistanceStep(x: real, y: real, aa: real, ab: real, bb: real, t: real, s: real)
    ensures Distance(x * x + aa, x * y + ab, y * y + bb, t, s) >= Distance(aa, ab, bb, t, s)
  {
    SquareOfDifference(t, x, s, y);
    Distribute(t * t, x * x, aa);
    Distribute(2.0 * t * s, x * y, ab);
    Distribute(s * s, y * y, bb);
  }

  lemma Distribute(k: real, x: real, y: real)
    ensures k * (x + y) == k * x + k * y
  {
  }

  lemma SquareOfDifference(t: real, x: real, s: real, y: real)
    ensures t * t * (x * x) - 2.0 * t * s * (x * y) + s * s * (y * y) >= 0.0
  {
    var d := t * x - s * y;
    assert d * d >= 0.0;
    assert d * d == t * t * (x * x) - 2.0 * t * s * (x * y) + s * s * (y * y);
  }

  lemma CauchySchwarz(a: Vector, b: Vector)
    requires |a| == |b|
    ensures Square(Dot(a, b)) <= SumSquares(a) * SumSquares(b)
  {
    hide Distance, Dot, Square;
    SumSquaresNonNegative(b);
    // With t = bb and s = ab the distance is bb * (aa * bb - ab * ab).
    DistanceNonNegative(a, b, SumSquares(b), Dot(a, b));
    if SumSquares(b) == 0.0 {
      ZeroSquares(a, b);
    }
    Discriminant(SumSquares(a), Dot(a, b), SumSquares(b));
  }

  lemma Discriminant(aa: real, ab: real, bb: real)
    requires bb >= 0.0 && (bb == 0.0 ==> ab == 0.0)
    requires Distance(aa, ab, bb, bb, ab) >= 0.0
    ensures Square(ab) <= aa * bb
  {
    var gap := aa * bb - Square(ab);
    assert Distance(aa, ab, bb, bb, ab) == bb * gap;
    if bb > 0.0 && gap < 0.0 {
      ProductPositive(bb, -gap, -(bb * gap));
    }
  }

  lemma FirstSquare(v: Vector)
    requires v != []
    ensures SumSquares(v) == Square(v[0]) + SumSquares(v[1..])
    ensures v[0] != 0.0 ==> SumSquares(v) > 0.0
  {
    SquareSign(v[0]);
    SumSquaresNonNegative(v[1..]);
    assert SumSquares(v) == Square(v[0]) + SumSquares(v[1..]);
  }

  lemma TimesZero(x: real, y: real)
    requires y == 0.0
    ensures x * y == 0.0
  {
  }

  lemma {:induction false} ZeroSquares(a: Vector, b: Vector)
    requires SumSquares(b) == 0.0
    ensures Dot(a, b) == 0.0
  {
    if a != [] && b != [] {
      SumSquaresNonNegative(b[1..]);
      FirstSquare(b);
      SquareSign(b[0]);
      TimesZero(a[0], b[0]);
      ZeroSquares(a[1..], b[1..]);
    }
  }

  // Cosine similarity is within [-1, 1], the zero vector included.
  lemma CosineBounds(left: Vector, right: Vector, leftRoot: real, rightRoot: real)
    requires |left| == |right|
    requires IsRoot(leftRoot, SumSquares(left)) && IsRoot(rightRoot, SumSquares(right))
    ensures -1.0 <= CosineSimilarity(left, right, leftRoot, rightRoot).value <= 1.0
  {
    CauchySchwarz(left, right);
    var d := Dot(left, right);
    if leftRoot == 0.0 {
      ZeroSquares(right, left);
      DotSymmetric(left, right);
    } else if rightRoot == 0.0 {
      ZeroSquares(left, right);
    } else {
      ProductOfRoots(leftRoot, SumSquares(left), rightRoot, SumSquares(right));
      var n := leftRoot * rightRoot;
      BoundedQuotient(d, n);
      assert CosineSimilarity(left, right, leftRoot, rightRoot).value == d / n;
    }
  }

  lemma ProductOfRoots(r: real, rr: real, q: real, qq: real)
    requires IsRoot(r, rr) && IsRoot(q, qq) && r != 0.0 && q != 0.0
    ensures r * q > 0.0 && Square(r * q) == rr * qq
  {
    ProductPositive(r, q, r * q);
    var n := r * q;
    assert n * n == (r * r) * (q * q);
  }

  lemma BoundedQuotient(d: real, n: real)
    requires n > 0.0 && Square(d) <= Square(n)
    ensures -1.0 <= d / n <= 1.0
  {
    SquareOrder(d, n);
    var q := d / n;
    assert q * n == d;
    assert q > 1.0 ==> q * n > n;
    assert q < -1.0 ==> q * n < -n;
  }

  // ---------- Jaccard ----------

  lemma LexicalBounds(q: set<string>, c: set<string>)
    ensures 0.0 <= LexicalSimilarity(q, c) <= 1.0
    ensures LexicalSimilarity(q, c) == LexicalSimilarity(c, q)
    ensures LexicalSimilarity(q, c) == 1.0 <==> q == c && q != {}
    ensures LexicalSimilarity(q, c) == 0.0 <==> q !! c
  {
    assert q * c == c * q && q + c == c + q;
    if q != {} && c != {} {
      var both, either := |q * c|, |q + c|;
      var x :| x in q;
      assert x in q + c;
      SubsetCount(q * c, q + c);
      RatioBounds(both, either);
      if both == either {
        SubsetCount(q * c, q + c);
        assert forall y :: y in q ==> y in q + c;
        assert forall y :: y in c ==> y in q + c;
      }
      if q == c {
        assert q * c == q && q + c == q;
      }
    }
  }

  // A lead in vector score outweighs a lag in lexical score exactly when it is at least a quarter of it.
  lemma HybridTradeOff(v1: real, l1: real, v2: real, l2: real)
    ensures HybridScore(v1, l1) >= HybridScore(v2, l2) <==> 4.0 * (v1 - v2) >= l2 - l1
  {
    assert HybridScore(v1, l1) - HybridScore(v2, l2) == 0.2 * (4.0 * (v1 - v2) - (l2 - l1));
  }

  // Jaccard similarity is the number of shared terms over the number of all terms.
  lemma LexicalRatio(q: set<string>, c: set<string>)
    ensures LexicalSimilarity(q, c) * |q + c| as real == |q * c| as real
    ensures q + c != {} ==> LexicalSimilarity(q, c) == |q * c| as real / |q + c| as real
  {
    if q == {} {
      assert q * c == {};
    } else if c == {} {
      assert q * c == {};
    }
  }

  // ---------- Cosine similarity as distance ----------

  function Minus(a: Vector, b: Vector): Vector
    requires |a| == |b|
  {
    if a == [] then [] else [a[0] - b[0]] + Minus(a[1..], b[1..])
  }

  lemma {:induction false} DistanceOfVectors(a: Vector, b: Vector)
    requires |a| == |b|
    ensures SumSquares(Minus(a, b)) == SumSquares(a) + SumSquares(b) - 2.0 * Dot(a, b)
  {
    if a != [] {
      DistanceOfVectors(a[1..], b[1..]);
      var d := a[0] - b[0];
      assert Minus(a, b)[0] == d && Minus(a, b)[1..] == Minus(a[1..], b[1..]);
      SquareOfMinus(a[0], b[0]);
      FirstSquare(a);
      FirstSquare(b);
      FirstSquare(Minus(a, b));
    }
  }

  lemma SquareOfMinus(x: real, y: real)
    ensures Square(x - y) == Square(x) + Square(y) - 2.0 * (x * y)
  {
    assert (x - y) * (x - y) == x * (x - y) - y * (x - y);
    Distribute(x, x, -y);
    Distribute(y, x, -y);
  }

  // Times the two norms it is the dot product; for a zero vector it is zero.
  lemma CosineTimesNorms(left: Vector, right: Vector, leftRoot: real, rightRoot: real)
    requires |left| == |right|
    requires IsRoot(leftRoot, SumSquares(left)) && IsRoot(rightRoot, SumSquares(right))
    ensures CosineSimilarity(left, right, leftRoot, rightRoot).value * (leftRoot * rightRoot) == Dot(left, right)
    ensures SumSquares(left) == 0.0 || SumSquares(right) == 0.0
      ==> CosineSimilarity(left, right, leftRoot, rightRoot) == Score(0.0)
  {
    hide Dot, Square, SumSquares;
    ZeroRoot(leftRoot, SumSquares(left));
    ZeroRoot(rightRoot, SumSquares(right));
    DotWithZero(left, right);
    QuotientTimes(Dot(left, right), leftRoot, rightRoot);
  }

  lemma ZeroRoot(root: real, square: real)
    requires IsRoot(root, square)
    ensures root == 0.0 <==> square == 0.0
  {
    SquareSign(root);
  }

  lemma DotWithZero(left: Vector, right: Vector)
    ensures SumSquares(left) == 0.0 || SumSquares(right) == 0.0 ==> Dot(left, right) == 0.0
  {
    hide Dot, SumSquares;
    DotSymmetric(left, right);
    if SumSquares(left) == 0.0 {
      ZeroSquares(right, left);
    } else if SumSquares(right) == 0.0 {
      ZeroSquares(left, right);
    }
  }

  lemma QuotientTimes(dot: real, r: real, q: real)
    requires r >= 0.0 && q >= 0.0 && (r == 0.0 || q == 0.0 ==> dot == 0.0)
    ensures dot / (OrOne(r) * OrOne(q)) * (r * q) == dot
  {
    if r == 0.0 || q == 0.0 {
      TimesZero(0.0, r * q);
    } else {
      ProductPositive(r, q, r * q);
      DivideAndMultiply(dot, r * q);
    }
  }

  lemma DivideAndMultiply(x: real, n: real)
    requires n != 0.0
    ensures x / n * n == x
  {
  }

  // Between unit vectors the similarity is one less half the square of the distance: the nearer, the higher.
  lemma CosineByDistance(a: Vector, b: Vector, aRoot: real, bRoot: real)
    requires |a| == |b| && SumSquares(a) == 1.0 && SumSquares(b) == 1.0
    requires IsRoot(aRoot, SumSquares(a)) && IsRoot(bRoot, SumSquares(b))
    ensures CosineSimilarity(a, b, aRoot, bRoot) == Score(1.0 - SumSquares(Minus(a, b)) / 2.0)
  {
    UnitRoot(aRoot);
    UnitRoot(bRoot);
    DistanceOfVectors(a, b);
  }

  lemma RatioBounds(a: nat, b: nat)
    requires a <= b && b > 0
    ensures 0.0 <= a as real / b as real <= 1.0
    ensures a as real / b as real == 1.0 <==> a == b
    ensures a as real / b as real == 0.0 <==> a == 0
  {
    var r := a as real / b as real;
    assert r * b as real == a as real;
  }

  lemma HybridBounds(vectorScore: real, lexicalScore: real)
    requires -1.0 <= vectorScore <= 1.0 && 0.0 <= lexicalScore <= 1.0
    ensures -0.8 <= HybridScore(vectorScore, lexicalScore) <= 1.0
    ensures HybridScore(vectorScore, lexicalScore) == 1.0 <==> vectorScore == 1.0 && lexicalScore == 1.0
    ensures HybridScore(vectorScore, lexicalScore) == -0.8 <==> vectorScore == -1.0 && lexicalScore == 0.0
  {
  }

  // ---------- backend/services/knowledge/providers.py ----------

  newtype byte = b: int | 0 <= b < 256

  type Hash = seq<byte> -> seq<byte>

  // A hash never returns an empty digest (SHA-256 returns 32 bytes).
  ghost predicate IsHash(sha: Hash) {
    forall s :: |sha(s)| > 0
  }

  // (byte / 255.0) * 2.0 - 1.0
  function Component(b: byte): real {
    (b as int as real / 255.0) * 2.0 - 1.0
  }

  // The digest, followed by the digest of the digest, and so on; the first n components of that stream.
  ghost function Components(sha: Hash, seed: seq<byte>, n: nat): (v: Vector)
    requires IsHash(sha) && |seed| > 0
    ensures |v| == n
    decreases n
  {
    if n <= |seed| then Block(seed, n)
    else Block(seed, |seed|) + Components(sha, sha(seed), n - |seed|)
  }

  ghost function Block(seed: seq<byte>, n: nat): (v: Vector)
    requires n <= |seed|
    ensures |v| == n && forall i :: 0 <= i < n ==> v[i] == Component(seed[i])
  {
    seq(n, i requires 0 <= i < n => Component(seed[i]))
  }

  function Scale(v: Vector, d: real): (r: Vector)
    requires d != 0.0
    ensures |r| == |v|
  {
    seq(|v|, i requires 0 <= i < |v| => v[i] / d)
  }

  // [value / norm for value in values]
  function NormalizeVector(v: Vector, root: real): (r: Vector)
    ensures |r| == |v|
  {
    Scale(v, OrOne(root))
  }

  // The inner loop of _embed: the components of one seed, until enough are there.
  method AppendBlock(values: Vector, seed: seq<byte>, dimensions: nat) returns (all: Vector, used: nat)
    requires |values| <= dimensions
    ensures used == if |seed| <= dimensions - |values| then |seed| else dimensions - |values|
    ensures all == values + Block(seed, used)
  {
    all, used := values, 0;
    while used < |seed| && |all| < dimensions
      invariant 0 <= used <= |seed| && |all| <= dimensions
      invariant all == values + Block(seed, used)
    {
      all := all + [Component(seed[used])];
      used := used + 1;
    }
  }

  // The loop of _embed, up to the normalization: seeds are rehashed until enough components are there.
  method EmbedComponents(sha: Hash, digest: seq<byte>, dimensions: nat) returns (values: Vector)
    requires IsHash(sha) && |digest| > 0
    ensures values == Components(sha, digest, dimensions)
  {
    hide Components;
    values := [];
    var seed := digest;
    NoComponents(sha, digest);
    while |values| < dimensions
      invariant |values| <= dimensions && |seed| > 0
      invariant values + Components(sha, seed, dimensions - |values|) == Components(sha, digest, dimensions)
      decreases dimensions - |values|
    {
      ghost var before, left := values, dimensions - |values|;
      var used;
      values, used := AppendBlock(values, seed, dimensions);
      var next := sha(seed);
      NextBlock(sha, seed, left, used);
      Assoc(before, Block(seed, used), Components(sha, next, left - used));
      seed := next;
    }
    NoComponents(sha, seed);
  }

  lemma NoComponents(sha: Hash, seed: seq<byte>)
    requires IsHash(sha) && |seed| > 0
    ensures Components(sha, seed, 0) == []
  {
  }

  lemma NextBlock(sha: Hash, seed: seq<byte>, n: nat, i: nat)
    requires IsHash(sha) && |seed| > 0 && i <= n && i <= |seed| && (i == n || i == |seed|)
    ensures Components(sha, seed, n) == Block(seed, i) + Components(sha, sha(seed), n - i)
  {
    if i == n {
      assert Components(sha, sha(seed), 0) == [];
    }
  }

  // The digest of the digest, k times over.
  function Rehashed(sha: Hash, seed: seq<byte>, k: nat): seq<byte>
    decreases k
  {
    if k == 0 then seed else Rehashed(sha, sha(seed), k - 1)
  }

  lemma ComponentOfBlock(sha: Hash, seed: seq<byte>, n: nat, i: nat)
    requires IsHash(sha) && |seed| > 0 && i < n
    ensures Components(sha, seed, n)[i]
         == if i < |seed| then Component(seed[i]) else Components(sha, sha(seed), n - |seed|)[i - |seed|]
  {
  }

  // For digests of one length, component q * length + r comes from byte r of the seed rehashed q times.
  lemma {:induction false} ComponentAt(sha: Hash, seed: seq<byte>, n: nat, length: nat, q: nat, r: nat, i: nat)
    requires IsHash(sha) && |seed| == length > 0 && (forall s :: |sha(s)| == length)
    requires i == q * length + r && r < length && i < n
    ensures |Rehashed(sha, seed, q)| == length
    ensures Components(sha, seed, n)[i] == Component(Rehashed(sha, seed, q)[r])
    decreases q
  {
    hide Components, Component;
    ComponentOfBlock(sha, seed, n, i);
    if q > 0 {
      MultiplyNext(q - 1, length);
      MultiplyUp(0, q - 1, length);
      ComponentAt(sha, sha(seed), n - length, length, q - 1, r, i - length);
    }
  }

  lemma ComponentNotZero(b: byte)
    ensures Component(b) != 0.0
    ensures -1.0 <= Component(b) <= 1.0
    ensures 255.0 * Component(b) == (2 * b as int - 255) as real
  {
    var n := b as int;
    assert 2 * n != 255;
    assert (n as real / 255.0) * 2.0 == (2 * n) as real / 255.0;
  }

  lemma ComponentsPositive(sha: Hash, seed: seq<byte>, n: nat)
    requires IsHash(sha) && |seed| > 0 && n > 0
    ensures SumSquares(Components(sha, seed, n)) > 0.0
  {
    var v := Components(sha, seed, n);
    assert v[0] == Component(seed[0]);
    ComponentNotZero(seed[0]);
    FirstSquare(v);
  }

  lemma {:induction false} ScaledSquares(v: Vector, d: real, n: real)
    requires d != 0.0 && n == d * d
    ensures SumSquares(Scale(v, d)) * n == SumSquares(v)
  {
    if v != [] {
      var s := Scale(v, d);
      assert s[1..] == Scale(v[1..], d);
      ScaledSquares(v[1..], d, n);
      var q := v[0] / d;
      assert q * d == v[0];
      assert (q * q) * n == (q * d) * (q * d);
      Distribute(n, q * q, SumSquares(s[1..]));
    }
  }

  // An embedding of at least one dimension is a unit vector; without dimensions it is empty.
  lemma NormalizedIsUnit(v: Vector, root: real)
    requires IsRoot(root, SumSquares(v)) && SumSquares(v) > 0.0
    ensures SumSquares(NormalizeVector(v, root)) == 1.0
  {
    SquareSign(root);
    var d := OrOne(root);
    ScaledSquares(v, d, SumSquares(v));
    CancelFactor(SumSquares(Scale(v, d)), SumSquares(v));
  }

  lemma CancelFactor(x: real, n: real)
    requires n > 0.0 && x * n == n
    ensures x == 1.0
  {
    Distribute(n, x, -1.0);
    assert n * (x - 1.0) == 0.0;
  }

  // What _embed returns for a digest: the normalized components.
  ghost predicate IsEmbedding(v: Vector, sha: Hash, digest: seq<byte>, dimensions: nat)
    requires IsHash(sha) && |digest| > 0
  {
    exists root :: IsRoot(root, SumSquares(Components(sha, digest, dimensions)))
                && v == NormalizeVector(Components(sha, digest, dimensions), root)
  }

  // An embedding provider of the registry: its two names, the hash, and the encoding of a text as bytes.
  datatype Provider = Provider(name: string, model: string, sha: Hash, encode: string -> seq<byte>)

  // sha256(f"{provider_name}:{model_name}:{text}")
  function Digest(provider: Provider, text: string): seq<byte> {
    provider.sha(provider.encode(provider.name + ":" + provider.model + ":" + text))
  }

  // The digest is that of the provider's name, the model's and the text, with colons between them.
  lemma DigestOfNames(sha: Hash, encode: string -> seq<byte>)
    ensures Digest(Provider("deterministic", "hash", sha, encode), "a:b") == sha(encode("deterministic:hash:a:b"))
  {
    assert "deterministic" + ":" + "hash" + ":" + "a:b" == "deterministic:hash:a:b";
  }

  // _embed itself; `root` is what math.sqrt returns for the sum of squares of the components.
  method Embed(provider: Provider, text: string, dimensions: nat, root: real) returns (v: Vector)
    requires IsHash(provider.sha)
    requires IsRoot(root, SumSquares(Components(provider.sha, Digest(provider, text), dimensions)))
    ensures IsEmbedding(v, provider.sha, Digest(provider, text), dimensions)
    ensures |v| == dimensions && (if dimensions > 0 then SumSquares(v) == 1.0 else v == [])
  {
    hide Components, SumSquares;
    var digest := Digest(provider, text);
    var values := EmbedComponents(provider.sha, digest, dimensions);
    v := NormalizeVector(values, root);
    assert IsEmbedding(v, provider.sha, digest, dimensions);
    EmbeddingIsUnit(v, provider.sha, digest, dimensions);
  }

  // Every embedding is either empty (no dimensions) or a unit vector.
  predicate UnitOrEmpty(v: Vector) {
    v == [] || SumSquares(v) == 1.0
  }

  lemma EmbeddingIsUnit(v: Vector, sha: Hash, digest: seq<byte>, dimensions: nat)
    requires IsHash(sha) && |digest| > 0 && IsEmbedding(v, sha, digest, dimensions)
    ensures |v| == dimensions
    ensures if dimensions > 0 then SumSquares(v) == 1.0 else v == []
  {
    var c := Components(sha, digest, dimensions);
    var root :| IsRoot(root, SumSquares(c)) && v == NormalizeVector(c, root);
    if dimensions > 0 {
      ComponentsPositive(sha, digest, dimensions);
      NormalizedIsUnit(c, root);
    }
  }

  lemma UnitRoot(root: real)
    requires IsRoot(root, 1.0)
    ensures root == 1.0
  {
    SquareOrder(root, 1.0);
    SquareOrder(1.0, root);
  }

  // A text scores exactly 1 against itself, and that is the highest score there is.
  lemma SelfSimilarityIsOne(v: Vector, root: real)
    requires IsRoot(root, SumSquares(v)) && UnitOrEmpty(v)
    ensures CosineSimilarity(v, v, root, root) == Score(if v == [] then 0.0 else 1.0)
  {
    if v == [] {
      SquareSign(root);
    } else {
      UnitRoot(root);
      assert Dot(v, v) == 1.0;
      assert CosineSimilarity(v, v, root, root) == Score(1.0 / (1.0 * 1.0));
    }
  }
}
