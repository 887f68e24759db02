// Sorting search hits by score and keeping the first k, as the tail of _search does.
module Ranking {
  import opened Common

  datatype Hit = Hit(chunk: nat, score: real)

  predicate Descending(hits: seq<Hit>) {
    forall i, j :: 0 <= i < j < |hits| ==> hits[i].score >= hits[j].score
  }

  predicate Distinct(hits: seq<Hit>) {
    forall i, j :: 0 <= i < j < |hits| ==> hits[i] != hits[j]
  }

  function Elements(hits: seq<Hit>): set<Hit> {
    set h | h in hits
  }

  // scored.sort(key=score, reverse=True): descending, and equal scores keep their order.
  function SortByScore(hits: seq<Hit>): seq<Hit> {
    if hits == [] then [] else Insert(hits[0], SortByScore(hits[1..]))
  }

  function Insert(h: Hit, hits: seq<Hit>): seq<Hit> {
    if hits == [] || h.score >= hits[0].score then [h] + hits
    else [hits[0]] + Insert(h, hits[1..])
  }

  lemma ConsElements(h: Hit, t: seq<Hit>)
    ensures Elements([h] + t) == Elements(t) + {h}
  {
  }

  lemma ConsDistinct(h: Hit, t: seq<Hit>)
    ensures Distinct([h] + t) <==> h !in t && Distinct(t)
  {
    var all := [h] + t;
    assert forall i :: 0 <= i < |t| ==> t[i] == all[i + 1];
    assert all[0] == h;
  }

  lemma ConsDescending(h: Hit, t: seq<Hit>)
    ensures Descending(t) && (t != [] ==> h.score >= t[0].score) ==> Descending([h] + t)
    ensures Descending([h] + t) ==> Descending(t)
  {
    var all := [h] + t;
    assert forall i :: 0 <= i < |t| ==> t[i] == all[i + 1];
    assert all[0] == h;
  }

  lemma Cons(h: Hit, t: seq<Hit>)
    ensures Elements([h] + t) == Elements(t) + {h}
    ensures Distinct([h] + t) <==> h !in t && Distinct(t)
    ensures Descending(t) && (t != [] ==> h.score >= t[0].score) ==> Descending([h] + t)
    ensures Descending([h] + t) ==> Descending(t)
  {
    ConsElements(h, t);
    ConsDistinct(h, t);
    ConsDescending(h, t);
  }

  lemma {:induction false} InsertCorrect(h: Hit, hits: seq<Hit>)
    requires Descending(hits)
    ensures Descending(Insert(h, hits))
    ensures |Insert(h, hits)| == |hits| + 1
    ensures Elements(Insert(h, hits)) == Elements(hits) + {h}
    ensures Distinct(hits) && h !in hits ==> Distinct(Insert(h, hits))
  {
    hide Elements, Distinct;
    if hits == [] || h.score >= hits[0].score {
      Cons(h, hits);
    } else {
      var first, rest := hits[0], hits[1..];
      assert hits == [first] + rest;
      Cons(first, rest);
      InsertCorrect(h, rest);
      Cons(first, Insert(h, rest));
      InElements(first, Insert(h, rest));
      InElements(first, rest);
    }
  }

  lemma InElements(h: Hit, hits: seq<Hit>)
    ensures h in Elements(hits) <==> h in hits
  {
  }

  lemma {:induction false} SortCorrect(hits: seq<Hit>)
    requires Distinct(hits)
    ensures Descending(SortByScore(hits)) && Distinct(SortByScore(hits))
    ensures |SortByScore(hits)| == |hits|
    ensures Elements(SortByScore(hits)) == Elements(hits)
  {
    if hits != [] {
      hide Elements, Distinct, Descending;
      var first, rest := hits[0], hits[1..];
      assert hits == [first] + rest;
      Cons(first, rest);
      SortCorrect(rest);
      InElements(first, rest);
      InElements(first, SortByScore(rest));
      InsertCorrect(first, SortByScore(rest));
    }
  }

  function Top(hits: seq<Hit>, k: nat): seq<Hit> {
    if k <= |hits| then hits[..k] else hits
  }

  // A correct answer for the rows: as many hits as there are, up to k, in nonincreasing score, and no
  // row that was left out scores higher than one that was kept.
  ghost predicate IsTopK(results: seq<Hit>, rows: set<Hit>, k: nat) {
    && |results| == (if k <= |rows| then k else |rows|)
    && Descending(results) && Distinct(results)
    && Elements(results) <= rows
    && forall i, row :: 0 <= i < |results| && row in rows && row !in results ==> results[i].score >= row.score
  }

  lemma {:induction false} ElementsCount(hits: seq<Hit>)
    requires Distinct(hits)
    ensures |Elements(hits)| == |hits|
  {
    if hits != [] {
      var init := hits[..|hits| - 1];
      var last := hits[|hits| - 1];
      ElementsCount(init);
      assert Elements(hits) == Elements(init) + {last};
      assert last !in init;
    }
  }

  lemma TopOfSortIsTopK(scored: seq<Hit>, k: nat)
    requires Distinct(scored)
    ensures IsTopK(Top(SortByScore(scored), k), Elements(scored), k)
  {
    SortCorrect(scored);
    ElementsCount(scored);
    PrefixIsTopK(SortByScore(scored), k);
  }

  lemma PrefixIsTopK(sorted: seq<Hit>, k: nat)
    requires Descending(sorted) && Distinct(sorted) && |Elements(sorted)| == |sorted|
    ensures IsTopK(Top(sorted, k), Elements(sorted), k)
  {
    var results := Top(sorted, k);
    forall i, row | 0 <= i < |results| && row in Elements(sorted) && row !in results
      ensures results[i].score >= row.score
    {
      var j :| 0 <= j < |sorted| && sorted[j] == row;
    }
  }

  lemma InPrefix(hits: seq<Hit>, j: nat, n: nat)
    requires j < n <= |hits|
    ensures hits[j] in hits[..n]
  {
    assert hits[..n][j] == hits[j];
  }

  // Whatever order the rows came in, two answers agree on every score: they differ at most in ties.
  lemma TopKUniqueUpToTies(a: seq<Hit>, b: seq<Hit>, rows: set<Hit>, k: nat)
    requires IsTopK(a, rows, k) && IsTopK(b, rows, k)
    ensures |a| == |b| && forall i :: 0 <= i < |a| ==> a[i].score == b[i].score
  {
    forall i | 0 <= i < |a|
      ensures a[i].score == b[i].score
    {
      ScoreAtMost(a, b, rows, k, i);
      ScoreAtMost(b, a, rows, k, i);
    }
  }

  lemma ScoreAtMost(a: seq<Hit>, b: seq<Hit>, rows: set<Hit>, k: nat, i: nat)
    requires IsTopK(a, rows, k) && IsTopK(b, rows, k) && i < |a|
    ensures a[i].score <= b[i].score
  {
    if a[i].score > b[i].score {
      // The i + 1 first hits of a all beat b[i], so all of them are among the i first hits of b.
      var front, room := a[..i + 1], b[..i];
      forall h | h in front
        ensures h in room
      {
        var j :| 0 <= j <= i && a[j] == h;
        BetterIsAhead(b, rows, k, i, h);
      }
      FitCount(front, room);
    }
  }

  lemma BetterIsAhead(b: seq<Hit>, rows: set<Hit>, k: nat, i: nat, h: Hit)
    requires IsTopK(b, rows, k) && i < |b| && h in rows && h.score > b[i].score
    ensures h in b[..i]
  {
    assert h in b;
    var m :| 0 <= m < |b| && b[m] == h;
    InPrefix(b, m, i);
  }

  lemma FitCount(front: seq<Hit>, room: seq<Hit>)
    requires Distinct(front) && Distinct(room) && forall h :: h in front ==> h in room
    ensures |front| <= |room|
  {
    ElementsCount(front);
    ElementsCount(room);
    SubsetCount(Elements(front), Elements(room));
  }

  // A hit that is missing from an answer is beaten or tied by every hit in it; so a hit that beats
  // the last one is in every answer.
  lemma BetterThanLastIsKept(a: seq<Hit>, rows: set<Hit>, k: nat, row: Hit)
    requires IsTopK(a, rows, k) && row in rows
    requires |a| > 0 && row.score > a[|a| - 1].score
    ensures row in a
  {
  }
}
