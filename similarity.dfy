/** libs/risk/text/similarity.py: cosine similarity clamped to [0, 1], and the top-k
    labels of a label index by similarity to a query vector. */
module TextSimilarity {
  import opened Seqs
  import opened Sorting
  import opened Numbers

  /** `SimilarityHit`. */
  datatype SimilarityHit = SimilarityHit(labelName: string, score: real)

  function HitScore(h: SimilarityHit): real { h.score }

  /** `sum(x * y for x, y in zip(a, b))`: zip stops at the shorter vector. */
  function Dot(a: seq<real>, b: seq<real>): real {
    if a == [] || b == [] then 0.0 else a[0] * b[0] + Dot(a[1..], b[1..])
  }

  /** `sum(x * x for x in a)`. */
  function SumSquares(a: seq<real>): real {
    if a == [] then 0.0 else a[0] * a[0] + SumSquares(a[1..])
  }

  /** `n or 1.0`: a zero norm counts as 1. */
  function NormOrOne(n: real): (r: real)
    ensures r != 0.0
    ensures n != 0.0 ==> r == n
  {
    if n == 0.0 then 1.0 else n
  }

  /** `cosine_similarity`. The square root is a parameter: its floating-point value is
      not modelled. */
  function Cosine(a: seq<real>, b: seq<real>, sqrt: real -> real): (r: real)
    ensures 0.0 <= r <= 1.0
  {
    var na := NormOrOne(sqrt(SumSquares(a)));
    var nb := NormOrOne(sqrt(SumSquares(b)));
    NonZeroProduct(na, nb);
    Clamp01(Dot(a, b) / (na * nb))
  }

  lemma NonZeroProduct(x: real, y: real)
    requires x != 0.0 && y != 0.0
    ensures x * y != 0.0
  {
  }

  /** A zero query vector is similar to nothing: it scores 0 against every vector,
      whatever the square root of 0 evaluates to. */
  lemma {:induction false} CosineZeroVector(a: seq<real>, b: seq<real>, sqrt: real -> real)
    requires forall i :: 0 <= i < |a| ==> a[i] == 0.0
    ensures Cosine(a, b, sqrt) == 0.0
  {
    DotZero(a, b);
  }

  lemma {:induction false} DotZero(a: seq<real>, b: seq<real>)
    requires forall i :: 0 <= i < |a| ==> a[i] == 0.0
    ensures Dot(a, b) == 0.0
  {
    if a != [] && b != [] {
      assert a[0] == 0.0;
      DotZero(a[1..], b[1..]);
    }
  }

  /** The label map, in insertion order; a dict's keys are distinct. */
  ghost predicate DistinctLabels(labels: seq<(string, seq<real>)>) {
    forall i, j :: 0 <= i < j < |labels| ==> labels[i].0 != labels[j].0
  }

  /** `scored`: every label with its similarity to the query, in label order. */
  function Scored(query: seq<real>, labels: seq<(string, seq<real>)>, sqrt: real -> real): (s: seq<SimilarityHit>)
    ensures |s| == |labels|
    ensures forall i :: 0 <= i < |labels| ==> s[i] == SimilarityHit(labels[i].0, Cosine(query, labels[i].1, sqrt))
  {
    seq(|labels|, i requires 0 <= i < |labels| => SimilarityHit(labels[i].0, Cosine(query, labels[i].1, sqrt)))
  }

  /** `top_hits`: the scored labels sorted by score, largest first and stably, cut to k. */
  function TopHits(query: seq<real>, labels: seq<(string, seq<real>)>, k: nat, sqrt: real -> real): (hits: seq<SimilarityHit>)
    ensures |hits| == MinNat(k, |labels|)
  {
    var scored := Scored(query, labels, sqrt);
    SortDescProps(scored, HitScore);
    SortDesc(scored, HitScore)[..MinNat(k, |labels|)]
  }

  /** Every hit is a label of the map with its own similarity, which lies in [0, 1]. */
  lemma TopHitsFromLabels(query: seq<real>, labels: seq<(string, seq<real>)>, k: nat, sqrt: real -> real)
    ensures var hits := TopHits(query, labels, k, sqrt);
            forall j :: 0 <= j < |hits| ==>
              0.0 <= hits[j].score <= 1.0 &&
              exists i :: 0 <= i < |labels| && hits[j] == SimilarityHit(labels[i].0, Cosine(query, labels[i].1, sqrt))
  {
    var scored := Scored(query, labels, sqrt);
    var sorted := SortDesc(scored, HitScore);
    SortDescProps(scored, HitScore);
    var hits := sorted[..MinNat(k, |labels|)];
    forall j | 0 <= j < |hits|
      ensures exists i :: 0 <= i < |labels| && hits[j] == SimilarityHit(labels[i].0, Cosine(query, labels[i].1, sqrt))
    {
      assert hits[j] in multiset(scored);
      var i :| 0 <= i < |scored| && scored[i] == hits[j];
    }
  }

  /** No label is hit twice. */
  lemma TopHitsDistinct(query: seq<real>, labels: seq<(string, seq<real>)>, k: nat, sqrt: real -> real)
    requires DistinctLabels(labels)
    ensures var hits := TopHits(query, labels, k, sqrt);
            forall i, j :: 0 <= i < j < |hits| ==> hits[i].labelName != hits[j].labelName
  {
    var scored := Scored(query, labels, sqrt);
    var sorted := SortDesc(scored, HitScore);
    SortDescProps(scored, HitScore);
    ScoredDistinct(query, labels, sqrt);
    SortDescDistinct(scored, HitScore);
    forall i, j | 0 <= i < j < MinNat(k, |labels|) ensures sorted[i].labelName != sorted[j].labelName {
      SortedLabelsDiffer(scored, sorted, query, labels, sqrt, i, j);
    }
  }

  lemma SortedLabelsDiffer(scored: seq<SimilarityHit>, sorted: seq<SimilarityHit>,
                           query: seq<real>, labels: seq<(string, seq<real>)>, sqrt: real -> real, i: nat, j: nat)
    requires DistinctLabels(labels)
    requires scored == Scored(query, labels, sqrt)
    requires multiset(sorted) == multiset(scored) && Distinct(sorted)
    requires i < j < |sorted|
    ensures sorted[i].labelName != sorted[j].labelName
  {
    assert sorted[i] != sorted[j];
    assert sorted[i] in multiset(scored) && sorted[j] in multiset(scored);
    if sorted[i].labelName == sorted[j].labelName {
      HitsByLabel(query, labels, sqrt, sorted[i], sorted[j]);
    }
  }

  /** Scores are non-increasing, and the hits sharing a score are the first labels, in
      map order, with that score. */
  lemma TopHitsOrder(query: seq<real>, labels: seq<(string, seq<real>)>, k: nat, sqrt: real -> real)
    ensures var hits := TopHits(query, labels, k, sqrt);
            (forall i, j :: 0 <= i < j < |hits| ==> hits[i].score >= hits[j].score) &&
            (forall v :: WithKey(hits, HitScore, v) <= WithKey(Scored(query, labels, sqrt), HitScore, v))
  {
    var scored := Scored(query, labels, sqrt);
    var sorted := SortDesc(scored, HitScore);
    SortDescProps(scored, HitScore);
    var m := MinNat(k, |labels|);
    var hits := sorted[..m];
    forall i, j | 0 <= i < j < |hits| ensures hits[i].score >= hits[j].score {
      assert HitScore(sorted[i]) >= HitScore(sorted[j]);
    }
    forall v ensures WithKey(hits, HitScore, v) <= WithKey(scored, HitScore, v) {
      WithKeyPrefix(sorted, HitScore, v, m);
    }
  }

  /** A label left out of the hits scores at most as high as every hit. */
  lemma TopHitsDominate(query: seq<real>, labels: seq<(string, seq<real>)>, k: nat, sqrt: real -> real)
    ensures var hits := TopHits(query, labels, k, sqrt);
            forall i, j :: 0 <= i < |labels| && 0 <= j < |hits| &&
                           SimilarityHit(labels[i].0, Cosine(query, labels[i].1, sqrt)) !in hits ==>
              Cosine(query, labels[i].1, sqrt) <= hits[j].score
  {
    var scored := Scored(query, labels, sqrt);
    var sorted := SortDesc(scored, HitScore);
    SortDescProps(scored, HitScore);
    var m := MinNat(k, |labels|);
    var hits := sorted[..m];
    forall i, j | 0 <= i < |labels| && 0 <= j < |hits| && scored[i] !in hits
      ensures scored[i].score <= hits[j].score
    {
      assert scored[i] in multiset(sorted);
      var p :| 0 <= p < |sorted| && sorted[p] == scored[i];
      assert HitScore(sorted[j]) >= HitScore(sorted[p]);
    }
  }

  /** Distinct labels make the scored hits distinct. */
  lemma ScoredDistinct(query: seq<real>, labels: seq<(string, seq<real>)>, sqrt: real -> real)
    requires DistinctLabels(labels)
    ensures Distinct(Scored(query, labels, sqrt))
  {
  }

  /** With distinct labels, two scored hits with the same label are the same hit. */
  lemma HitsByLabel(query: seq<real>, labels: seq<(string, seq<real>)>, sqrt: real -> real,
                    h1: SimilarityHit, h2: SimilarityHit)
    requires DistinctLabels(labels)
    requires h1 in multiset(Scored(query, labels, sqrt)) && h2 in multiset(Scored(query, labels, sqrt))
    requires h1.labelName == h2.labelName
    ensures h1 == h2
  {
    var scored := Scored(query, labels, sqrt);
    var p :| 0 <= p < |scored| && scored[p] == h1;
    var q :| 0 <= q < |scored| && scored[q] == h2;
    assert labels[p].0 == labels[q].0;
  }
}
