module Common {
  datatype Option<+T> = None | Some(value: T)

  // Row ids: a UUID of the source is a number that has not been handed out before.
  type Id = nat

  function Max(a: int, b: int): int { if a >= b then a else b }

  function Min(a: int, b: int): int { if a <= b then a else b }

  lemma SubsetCount<T>(a: set<T>, b: set<T>)
    requires a <= b
    ensures |a| <= |b|
    ensures |a| == |b| ==> a == b
  {
    assert b == a + (b - a);
    assert |b| == |a| + |b - a|;
  }

  lemma MultiplyNext(q: int, d: int)
    ensures (q + 1) * d == q * d + d
  {
  }

  lemma MultiplyUp(q: int, p: int, d: nat)
    requires q <= p
    ensures q * d <= p * d
  {
  }

  // A quotient with a remainder below the divisor is the only one.
  lemma DivideUnique(a: int, d: nat, q: int, r: int, p: int, s: int)
    requires 0 <= r < d && 0 <= s < d && a == q * d + r && a == p * d + s
    ensures q == p
  {
    if q < p {
      MultiplyUp(q + 1, p, d);
      MultiplyNext(q, d);
    } else if p < q {
      MultiplyUp(p + 1, q, d);
      MultiplyNext(p, d);
    }
  }
}
