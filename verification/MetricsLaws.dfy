/** The retrieval metrics at ten, by the places at which a wanted id stands. */
module MetricsLaws {
  import opened Optional
  import opened Metrics

  /** The id at place k, counted from 0, is among the wanted ones. */
  predicate HitAt(retrieved: seq<string>, gold: seq<string>, k: nat)
    requires k < |retrieved|
  {
    retrieved[k] != "" && retrieved[k] in gold
  }

  /** The hits among the first k places. */
  function HitsAmong(retrieved: seq<string>, gold: seq<string>, k: nat): nat
    requires k <= |retrieved|
  {
    if k == 0 then 0 else HitsAmong(retrieved, gold, k - 1) + if HitAt(retrieved, gold, k - 1) then 1 else 0
  }

  /** The precisions at the hits among the first k places. */
  function PrecisionsAmong(retrieved: seq<string>, gold: seq<string>, k: nat): real
    requires k <= |retrieved|
  {
    if k == 0 then 0.0
    else PrecisionsAmong(retrieved, gold, k - 1)
         + if HitAt(retrieved, gold, k - 1) then HitsAmong(retrieved, gold, k) as real / k as real else 0.0
  }

  /** The gains of the hits among the first k places. */
  function GainsAmong(w: nat -> real, retrieved: seq<string>, gold: seq<string>, k: nat): real
    requires k <= |retrieved|
  {
    if k == 0 then 0.0
    else GainsAmong(w, retrieved, gold, k - 1) + if HitAt(retrieved, gold, k - 1) then w(k - 1) else 0.0
  }

  /** The first k gains. */
  function Gains(w: nat -> real, k: nat): real {
    if k == 0 then 0.0 else Gains(w, k - 1) + w(k - 1)
  }

  lemma {:induction false} GainsAre(w: nat -> real, k: nat)
    ensures IdealDcg(w, k) == Gains(w, k)
  {
    if k > 0 { GainsAre(w, k - 1); }
  }

  lemma {:induction false} AmongPlaces(w: nat -> real, retrieved: seq<string>, gold: seq<string>, k: nat)
    requires k <= |retrieved|
    ensures var h := HitsOf(retrieved[..k], GoldSet(gold));
            && Count(h) == HitsAmong(retrieved, gold, k)
            && PrecisionSum(h) == PrecisionsAmong(retrieved, gold, k)
            && Dcg(w, h) == GainsAmong(w, retrieved, gold, k)
  {
    if k == 0 {
      NothingSummed(w);
      assert HitsOf(retrieved[..0], GoldSet(gold)) == [];
    } else {
      AmongPlaces(w, retrieved, gold, k - 1);
      var before, b := HitsOf(retrieved[..k - 1], GoldSet(gold)), HitAt(retrieved, gold, k - 1);
      assert HitsOf(retrieved[..k], GoldSet(gold)) == before + [b];
      Snoc(w, before, b);
    }
  }

  lemma {:induction false} Quotient(a: real, b: real)
    requires b != 0.0
    ensures a / b * b == a
  {
  }

  /** Without a wanted id all is zero. Otherwise recall counts the hits against the wanted ids, precision against the
      places looked at, of which there are at most ten; the mean average precision sums the precisions at the hits
      against the wanted ids; and the gain of the hits is set against the gain they would have at the first places. */
  lemma {:induction false} MetricsExactly(w: nat -> real, retrieved: seq<string>, gold: seq<string>)
    requires Discount(w)
    ensures var m, wanted := MetricsOf(w, retrieved, gold), set id | id in gold && id != "";
            var k := if |retrieved| < 10 then |retrieved| else 10;
            var hits := HitsAmong(retrieved, gold, k);
            if wanted == {} then m == RetrievalMetrics(0.0, Some(0.0), 0.0, 0.0)
            else
              && m.recall * |wanted| as real == hits as real
              && (k == 0 <==> m.precision.None?)
              && (m.precision.Some? ==> m.precision.value * k as real == hits as real)
              && m.map10 * |wanted| as real == PrecisionsAmong(retrieved, gold, k)
              && m.ndcg * Gains(w, hits) == GainsAmong(w, retrieved, gold, k) && (hits == 0 ==> m.ndcg == 0.0)
  {
    hide PrecisionSum, Dcg, IdealDcg, Count, HitsOf, HitsAmong, PrecisionsAmong, GainsAmong, Gains, Discount;
    var goldSet := GoldSet(gold);
    assert goldSet == set id | id in gold && id != "";
    if goldSet != {} {
      var k := if |retrieved| < 10 then |retrieved| else 10;
      var h := HitsOf(Top(retrieved), goldSet);
      var n := Count(h);
      AmongPlaces(w, retrieved, gold, k);
      GainsAre(w, n);
      Quotient(n as real, |goldSet| as real);
      Quotient(PrecisionSum(h), |goldSet| as real);
      if k > 0 { Quotient(n as real, k as real); }
      GainRatio(w, h);
    }
  }

  lemma {:induction false} GainRatio(w: nat -> real, h: seq<bool>)
    requires Discount(w)
    ensures var ideal := IdealDcg(w, Count(h));
            var ratio := if ideal > 0.0 then Dcg(w, h) / ideal else 0.0;
            ratio * ideal == Dcg(w, h) && (Count(h) == 0 ==> ideal == 0.0)
  {
    Rearrangement(w, h);
    IdealPositive(w, Count(h));
    DcgPositive(w, h);
    var ideal := IdealDcg(w, Count(h));
    if ideal > 0.0 { Quotient(Dcg(w, h), ideal); }
  }
}
