/** internal/service/evaluation_metrics.go: retrieval metrics at ten, with exact arithmetic.
    The discount 1/log2(i+2) is a parameter, known only to be positive and strictly decreasing. */
module Metrics {
  import opened Optional

  const TOP_K := 10

  /** precision is None where the source divides zero by zero. */
  datatype RetrievalMetrics = RetrievalMetrics(recall: real, precision: Option<real>, map10: real, ndcg: real)

  ghost predicate Discount(w: nat -> real) {
    && (forall i :: w(i) > 0.0)
    && (forall i, j :: i < j ==> w(i) > w(j))
  }

  function HitsOf(top: seq<string>, gold: set<string>): (h: seq<bool>)
    ensures |h| == |top| && forall i :: 0 <= i < |top| ==> h[i] == (top[i] in gold)
  {
    seq(|top|, i requires 0 <= i < |top| => top[i] in gold)
  }

  function Count(h: seq<bool>): (n: nat)
    ensures n <= |h|
  {
    if h == [] then 0 else Count(h[..|h| - 1]) + if h[|h| - 1] then 1 else 0
  }

  /** Sum over the hits of the precision at their rank. */
  function PrecisionSum(h: seq<bool>): real {
    if h == [] then 0.0
    else PrecisionSum(h[..|h| - 1]) + if h[|h| - 1] then Count(h) as real / |h| as real else 0.0
  }

  function Dcg(w: nat -> real, h: seq<bool>): real {
    if h == [] then 0.0 else Dcg(w, h[..|h| - 1]) + if h[|h| - 1] then w(|h| - 1) else 0.0
  }

  function IdealDcg(w: nat -> real, n: nat): real {
    if n == 0 then 0.0 else IdealDcg(w, n - 1) + w(n - 1)
  }

  /** No miss comes before a hit. */
  predicate HitsFirst(h: seq<bool>) {
    forall i, j :: 0 <= i < j < |h| && h[j] ==> h[i]
  }

  lemma {:induction false} Snoc(w: nat -> real, h: seq<bool>, b: bool)
    ensures Count(h + [b]) == Count(h) + if b then 1 else 0
    ensures PrecisionSum(h + [b]) == PrecisionSum(h) + if b then (Count(h) + 1) as real / (|h| + 1) as real else 0.0
    ensures Dcg(w, h + [b]) == Dcg(w, h) + if b then w(|h|) else 0.0
  {
    assert (h + [b])[..|h|] == h;
  }

  lemma {:induction false} AllHits(h: seq<bool>)
    ensures Count(h) == |h| <==> forall i :: 0 <= i < |h| ==> h[i]
  {
    if h != [] {
      var n := |h| - 1;
      AllHits(h[..n]);
      assert forall i :: 0 <= i < n ==> h[..n][i] == h[i];
    }
  }

  /** Rearrangement: moving the hits to the front never lowers the discounted gain, and raises it unless they are there
      already. */
  lemma {:induction false} Rearrangement(w: nat -> real, h: seq<bool>)
    requires Discount(w)
    ensures Dcg(w, h) <= IdealDcg(w, Count(h))
    ensures Dcg(w, h) == IdealDcg(w, Count(h)) <==> HitsFirst(h)
  {
    hide Dcg, IdealDcg, Count, HitsFirst;
    if h == [] {
      NothingGained(w);
    } else {
      var n := |h| - 1;
      Rearrangement(w, h[..n]);
      assert h == h[..n] + [h[n]];
      AppendHit(w, h[..n], h[n]);
    }
  }

  lemma {:induction false} NothingGained(w: nat -> real)
    ensures Dcg(w, []) == IdealDcg(w, Count([])) == 0.0 && HitsFirst([])
  {
  }

  /** A hit at the end gains the ideal amount only if every place before it is a hit. */
  lemma {:induction false} AppendHit(w: nat -> real, front: seq<bool>, last: bool)
    requires Discount(w) && Dcg(w, front) <= IdealDcg(w, Count(front))
    requires Dcg(w, front) == IdealDcg(w, Count(front)) <==> HitsFirst(front)
    ensures var h := front + [last];
            Dcg(w, h) <= IdealDcg(w, Count(h)) && (Dcg(w, h) == IdealDcg(w, Count(h)) <==> HitsFirst(h))
  {
    hide PrecisionSum;
    var h, n, c := front + [last], |front|, Count(front);
    assert h[..n] == front;
    AllHits(front);
    assert last ==> (HitsFirst(h) <==> c == n);
    assert c == n ==> HitsFirst(front);
    assert !last ==> (HitsFirst(h) <==> HitsFirst(front));
    assert c < n ==> w(c) > w(n);
  }

  lemma {:induction false} IdealPositive(w: nat -> real, n: nat)
    requires Discount(w)
    ensures IdealDcg(w, n) >= 0.0 && (n > 0 ==> IdealDcg(w, n) > 0.0)
  {
    if n > 0 {
      IdealPositive(w, n - 1);
    }
  }

  lemma {:induction false} DcgPositive(w: nat -> real, h: seq<bool>)
    requires Discount(w)
    ensures Dcg(w, h) >= 0.0 && (Count(h) > 0 ==> Dcg(w, h) > 0.0)
  {
    if h != [] {
      DcgPositive(w, h[..|h| - 1]);
    }
  }

  lemma {:induction false} AtMostOne(a: nat, b: nat)
    requires a <= b && b > 0
    ensures 0.0 <= a as real / b as real <= 1.0
    ensures a > 0 ==> a as real / b as real > 0.0
  {
  }

  lemma {:induction false} PrecisionSumBound(h: seq<bool>)
    ensures 0.0 <= PrecisionSum(h) <= Count(h) as real
    ensures Count(h) > 0 ==> PrecisionSum(h) > 0.0
  {
    if h != [] {
      PrecisionSumBound(h[..|h| - 1]);
      AtMostOne(Count(h), |h|);
    }
  }

  /** Hits without repetition: each gold id is hit at most once. */
  lemma {:induction false} DistinctHits(top: seq<string>, gold: set<string>)
    requires forall i, j :: 0 <= i < j < |top| && top[i] in gold ==> top[i] != top[j]
    ensures Count(HitsOf(top, gold)) <= |gold|
    decreases |top|
  {
    if top != [] {
      var n := |top| - 1;
      var last, front := top[n], top[..n];
      var h := HitsOf(top, gold);
      assert h == HitsOf(front, gold) + [last in gold];
      Snoc(i => 0.0, HitsOf(front, gold), last in gold);
      if last in gold {
        DistinctHits(front, gold - {last});
        assert HitsOf(front, gold) == HitsOf(front, gold - {last});
        assert |gold - {last}| == |gold| - 1;
      } else {
        DistinctHits(front, gold);
      }
    }
  }

  function Top(retrieved: seq<string>): (t: seq<string>)
    ensures t <= retrieved && |t| == if |retrieved| < TOP_K then |retrieved| else TOP_K
  {
    retrieved[..if |retrieved| < TOP_K then |retrieved| else TOP_K]
  }

  function GoldSet(goldIDs: seq<string>): set<string> {
    set id | id in goldIDs && id != ""
  }

  function MetricsOf(w: nat -> real, retrieved: seq<string>, goldIDs: seq<string>): RetrievalMetrics {
    var gold := GoldSet(goldIDs);
    if gold == {} then RetrievalMetrics(0.0, Some(0.0), 0.0, 0.0)
    else
      var h := HitsOf(Top(retrieved), gold);
      var n, ideal := Count(h), IdealDcg(w, Count(h));
      RetrievalMetrics(
        n as real / |gold| as real,
        if |h| == 0 then None else Some(n as real / |h| as real),
        PrecisionSum(h) / |gold| as real,
        if ideal > 0.0 then Dcg(w, h) / ideal else 0.0)
  }

  /** No id but the empty one occurs twice. */
  predicate NoneRepeated(ids: seq<string>) {
    forall i, j :: 0 <= i < j < |ids| && ids[i] == ids[j] ==> ids[i] == ""
  }

  /** What the metrics promise: MAP never exceeds recall, NDCG never exceeds one and is one exactly when there is a hit
      and the hits come first; recall never exceeds one when no id in the window is repeated. Precision exists exactly
      when something was retrieved or there is no gold. */
  lemma {:induction false} MetricsBounds(w: nat -> real, retrieved: seq<string>, goldIDs: seq<string>)
    requires Discount(w)
    ensures var m := MetricsOf(w, retrieved, goldIDs);
            var h := HitsOf(Top(retrieved), GoldSet(goldIDs));
            && 0.0 <= m.map10 <= m.recall
            && 0.0 <= m.ndcg <= 1.0
            && (m.ndcg == 1.0 <==> Count(h) > 0 && HitsFirst(h))
            && (m.map10 > 0.0 <==> Count(h) > 0) && (m.ndcg > 0.0 <==> Count(h) > 0)
            && (NoneRepeated(Top(retrieved)) ==> m.recall <= 1.0)
            && (m.precision.Some? <==> retrieved != [] || GoldSet(goldIDs) == {})
            && (m.precision.Some? ==> 0.0 <= m.precision.value <= 1.0)
  {
    var gold, top := GoldSet(goldIDs), Top(retrieved);
    var h := HitsOf(top, gold);
    if gold == {} {
      NoGold(h);
    } else {
      var n := Count(h);
      PrecisionSumBound(h);
      DivisionKeepsOrder(PrecisionSum(h), n as real, |gold|);
      Rearrangement(w, h);
      IdealPositive(w, n);
      DcgPositive(w, h);
      if n > 0 {
        RatioFacts(Dcg(w, h), IdealDcg(w, n));
      }
      if NoneRepeated(top) {
        DistinctHits(top, gold);
        AtMostOne(n, |gold|);
      }
      if |h| > 0 {
        AtMostOne(n, |h|);
      }
    }
  }

  lemma {:induction false} NoGold(h: seq<bool>)
    requires forall i :: 0 <= i < |h| ==> !h[i]
    ensures Count(h) == 0
  {
    if h != [] {
      NoGold(h[..|h| - 1]);
    }
  }

  lemma {:induction false} DivisionKeepsOrder(a: real, b: real, n: nat)
    requires 0.0 <= a <= b && n > 0
    ensures 0.0 <= a / n as real <= b / n as real && (a > 0.0 <==> a / n as real > 0.0)
  {
  }

  lemma {:induction false} RatioFacts(a: real, b: real)
    requires 0.0 < a <= b
    ensures 0.0 < a / b <= 1.0 && (a / b == 1.0 <==> a == b)
  {
  }

  lemma {:induction false} TwoHits(h: seq<bool>, i: nat, j: nat)
    requires i < j < |h| && h[i] && h[j]
    ensures Count(h) >= 2
    decreases |h|
  {
    var n := |h| - 1;
    if j < n {
      TwoHits(h[..n], i, j);
    } else {
      OneHit(h[..n], i);
    }
  }

  lemma {:induction false} OneHit(h: seq<bool>, i: nat)
    requires i < |h| && h[i]
    ensures Count(h) >= 1
    decreases |h|
  {
    if i < |h| - 1 {
      OneHit(h[..|h| - 1], i);
    }
  }

  lemma {:induction false} MoreThanOne(n: nat, d: nat)
    requires n >= 2 && d == 1
    ensures n as real / d as real > 1.0
  {
  }

  /** An id that stands twice in the window lifts recall above one for some gold list: the one of that id alone. */
  lemma {:induction false} RepeatedIdExceedsRecall(w: nat -> real, retrieved: seq<string>, i: nat, j: nat)
    requires i < j < |Top(retrieved)| && Top(retrieved)[i] == Top(retrieved)[j] != ""
    ensures MetricsOf(w, retrieved, [Top(retrieved)[i]]).recall > 1.0
  {
    hide Count;
    var id := Top(retrieved)[i];
    assert GoldSet([id]) == {id};
    var h := HitsOf(Top(retrieved), {id});
    TwoHits(h, i, j);
    MoreThanOne(Count(h), |{id}|);
  }

  lemma {:induction false} RecallAtMostOne(w: nat -> real, retrieved: seq<string>, gold: seq<string>)
    requires NoneRepeated(Top(retrieved))
    ensures MetricsOf(w, retrieved, gold).recall <= 1.0
  {
    hide Count;
    if GoldSet(gold) != {} {
      DistinctHits(Top(retrieved), GoldSet(gold));
      AtMostOne(Count(HitsOf(Top(retrieved), GoldSet(gold))), |GoldSet(gold)|);
    }
  }

  /** Recall stays within one for every gold list exactly when no id but the empty one is repeated among the first
      ten. */
  lemma {:induction false} RecallBoundedExactly(w: nat -> real, retrieved: seq<string>)
    ensures (forall gold :: MetricsOf(w, retrieved, gold).recall <= 1.0) <==> NoneRepeated(Top(retrieved))
  {
    hide MetricsOf, Top;
    if NoneRepeated(Top(retrieved)) {
      forall gold
        ensures MetricsOf(w, retrieved, gold).recall <= 1.0
      {
        RecallAtMostOne(w, retrieved, gold);
      }
    } else {
      var i, j :| 0 <= i < j < |Top(retrieved)| && Top(retrieved)[i] == Top(retrieved)[j] && Top(retrieved)[i] != "";
      RepeatedIdExceedsRecall(w, retrieved, i, j);
    }
  }

  method MarkHits(top: seq<string>, gold: set<string>) returns (hits: seq<bool>, hitCount: nat)
    ensures hits == HitsOf(top, gold) && hitCount == Count(hits)
  {
    hide Count;
    hits, hitCount := [], 0;
    NothingSummed(i => 0.0);
    for i := 0 to |top|
      invariant |hits| == i && (forall j :: 0 <= j < i ==> hits[j] == (top[j] in gold)) && hitCount == Count(hits)
    {
      Snoc(i => 0.0, hits, top[i] in gold);
      hits := hits + [top[i] in gold];
      if top[i] in gold {
        hitCount := hitCount + 1;
      }
    }
  }

  method SumPrecisions(hits: seq<bool>) returns (apSum: real, seenHits: nat)
    ensures apSum == PrecisionSum(hits) && seenHits == Count(hits)
  {
    hide PrecisionSum, Count;
    apSum, seenHits := 0.0, 0;
    NothingSummed(i => 0.0);
    for i := 0 to |hits|
      invariant apSum == PrecisionSum(hits[..i]) && seenHits == Count(hits[..i])
    {
      assert hits[..i + 1] == hits[..i] + [hits[i]];
      Snoc(i => 0.0, hits[..i], hits[i]);
      if hits[i] {
        seenHits := seenHits + 1;
        apSum := apSum + seenHits as real / (i + 1) as real;
      }
    }
    assert hits[..|hits|] == hits;
  }

  method SumGains(w: nat -> real, hits: seq<bool>) returns (dcg: real)
    ensures dcg == Dcg(w, hits)
  {
    hide Dcg;
    dcg := 0.0;
    NothingSummed(w);
    for i := 0 to |hits|
      invariant dcg == Dcg(w, hits[..i])
    {
      assert hits[..i + 1] == hits[..i] + [hits[i]];
      Snoc(w, hits[..i], hits[i]);
      if hits[i] {
        dcg := dcg + w(i);
      }
    }
    assert hits[..|hits|] == hits;
  }

  method CollectGold(goldIDs: seq<string>) returns (goldSet: set<string>)
    ensures goldSet == GoldSet(goldIDs)
  {
    goldSet := {};
    for i := 0 to |goldIDs|
      invariant goldSet == GoldSet(goldIDs[..i])
    {
      assert goldIDs[..i + 1] == goldIDs[..i] + [goldIDs[i]];
      if goldIDs[i] != "" {
        goldSet := goldSet + {goldIDs[i]};
      }
    }
    assert goldIDs[..|goldIDs|] == goldIDs;
  }

  method SumIdeal(w: nat -> real, hitCount: nat) returns (idcg: real)
    ensures idcg == IdealDcg(w, hitCount)
  {
    idcg := 0.0;
    for i := 0 to hitCount
      invariant idcg == IdealDcg(w, i)
    {
      idcg := idcg + w(i);
    }
  }

  method ComputeRetrievalMetrics(w: nat -> real, retrievedIDs: seq<string>, goldIDs: seq<string>)
      returns (m: RetrievalMetrics)
    ensures m == MetricsOf(w, retrievedIDs, goldIDs)
  {
    hide PrecisionSum, Dcg, IdealDcg, Count, GoldSet;
    var goldSet := CollectGold(goldIDs);
    if |goldSet| == 0 {
      return RetrievalMetrics(0.0, Some(0.0), 0.0, 0.0);
    }
    var k := TOP_K;
    if |retrievedIDs| < k {
      k := |retrievedIDs|;
    }
    var hits, hitCount := MarkHits(retrievedIDs[..k], goldSet);
    var apSum, seenHits := SumPrecisions(hits);
    var map10 := 0.0;
    if seenHits > 0 {
      map10 := apSum / |goldSet| as real;
    } else {
      PrecisionSumBound(hits);
      ZeroOver(|goldSet|);
    }
    var dcg := SumGains(w, hits);
    var idcg := SumIdeal(w, hitCount);
    m := RetrievalMetrics(
      hitCount as real / |goldSet| as real,
      if k == 0 then None else Some(hitCount as real / k as real),
      map10,
      if idcg > 0.0 then dcg / idcg else 0.0);
  }

  lemma {:induction false} NothingSummed(w: nat -> real)
    ensures Count([]) == 0 && PrecisionSum([]) == 0.0 && Dcg(w, []) == 0.0
  {
  }

  lemma {:induction false} ZeroOver(n: nat)
    requires n > 0
    ensures 0.0 / n as real == 0.0
  {
  }
}
