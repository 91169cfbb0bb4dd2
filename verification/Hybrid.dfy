/** internal/rag/hybrid_retriever.go: fusion of the two branches, optional reranking, final truncation. */
module Hybrid {
  import opened Optional
  import opened Fusion
  import opened Text

  /** A result document; reranked ones carry the model's score as their own. */
  datatype Retrieved = Retrieved(fused: Fused, score: real, rerankScore: Option<real>)

  function Plain(f: Fused): Retrieved { Retrieved(f, f.score, None) }

  function Rescored(f: Fused, score: real): Retrieved { Retrieved(f, score, Some(score)) }

  /** score is None for a NaN or infinite score. */
  datatype RerankResult = RerankResult(index: int, score: Option<real>)

  /** What the model client returns; NotConfigured when no rerank model is set. */
  datatype Reply = NotConfigured | Unavailable(cancelled: bool) | Results(results: seq<RerankResult>)

  predicate Usable(results: seq<RerankResult>, n: nat) {
    forall i :: 0 <= i < |results| ==> 0 <= results[i].index < n && results[i].score.Some?
  }

  // The order a rerank produces --------------------------------------------------------

  /** The first result for each index, in model order. */
  function Firsts(results: seq<RerankResult>): seq<RerankResult> {
    if results == [] then []
    else
      var before, r := Firsts(results[..|results| - 1]), results[|results| - 1];
      if Mentions(before, r.index) then before else before + [r]
  }

  predicate Mentions(results: seq<RerankResult>, index: int) {
    exists i :: 0 <= i < |results| && results[i].index == index
  }

  /** The documents the model left out, in fused order. */
  function Unranked(firsts: seq<RerankResult>, n: nat): seq<nat> {
    if n == 0 then [] else Unranked(firsts, n - 1) + if Mentions(firsts, n - 1) then [] else [n - 1]
  }

  function Indices(firsts: seq<RerankResult>): (r: seq<int>)
    ensures |r| == |firsts| && forall i :: 0 <= i < |r| ==> r[i] == firsts[i].index
  {
    seq(|firsts|, i requires 0 <= i < |firsts| => firsts[i].index)
  }

  /** Ranked documents first, then the rest. */
  function NewOrder(results: seq<RerankResult>, n: nat): seq<int> {
    Indices(Firsts(results)) + Unranked(Firsts(results), n)
  }

  predicate IsPermutation(order: seq<int>, n: nat) {
    && |order| == n
    && (forall i :: 0 <= i < |order| ==> 0 <= order[i] < n)
    && (forall i, j :: 0 <= i < j < |order| ==> order[i] != order[j])
  }

  lemma {:induction false} FirstsFacts(results: seq<RerankResult>, n: nat)
    requires Usable(results, n)
    ensures Usable(Firsts(results), n)
    ensures forall i, j :: 0 <= i < j < |Firsts(results)| ==> Firsts(results)[i].index != Firsts(results)[j].index
    ensures forall index :: Mentions(Firsts(results), index) <==> Mentions(results, index)
    ensures results != [] ==> Firsts(results) != []
  {
    if results != [] {
      var m := |results| - 1;
      var front, r := results[..m], results[m];
      assert forall i :: 0 <= i < m ==> front[i] == results[i];
      FirstsFacts(front, n);
      var before, after := Firsts(front), Firsts(results);
      assert forall i :: 0 <= i < |before| ==> after[i] == before[i];
      forall index
        ensures Mentions(results, index) <==> Mentions(front, index) || index == r.index
      {
        if Mentions(front, index) {
          var i :| 0 <= i < |front| && front[i].index == index;
          assert results[i].index == index;
        }
      }
      assert !Mentions(before, r.index) ==> after[|before|] == r;
    }
  }

  lemma {:induction false} UnrankedFacts(firsts: seq<RerankResult>, n: nat)
    ensures forall i :: 0 <= i < |Unranked(firsts, n)| ==>
        Unranked(firsts, n)[i] < n && !Mentions(firsts, Unranked(firsts, n)[i])
    ensures forall i, j :: 0 <= i < j < |Unranked(firsts, n)| ==> Unranked(firsts, n)[i] < Unranked(firsts, n)[j]
    ensures forall k: nat :: k < n && !Mentions(firsts, k) ==> k in Unranked(firsts, n)
  {
    hide Mentions;
    if n > 0 {
      UnrankedFacts(firsts, n - 1);
    }
  }

  lemma {:induction false} DistinctBelow(s: seq<int>, n: nat)
    requires forall i :: 0 <= i < |s| ==> 0 <= s[i] < n
    requires forall i, j :: 0 <= i < j < |s| ==> s[i] != s[j]
    requires forall k :: 0 <= k < n ==> k in s
    ensures |s| == n
  {
    var elements := set x | x in s;
    BelowFacts(n);
    forall x | x in s
      ensures 0 <= x < n
    {
      var i :| 0 <= i < |s| && s[i] == x;
    }
    forall k | k in Below(n)
      ensures k in elements
    {
      assert 0 <= k < n && k in s;
    }
    assert Below(n) <= elements;
    assert elements <= Below(n);
    assert elements == Below(n);
    CardinalityOfDistinct(s);
  }

  lemma {:induction false} CardinalityOfDistinct(s: seq<int>)
    requires forall i, j :: 0 <= i < j < |s| ==> s[i] != s[j]
    ensures |set x | x in s| == |s|
  {
    if s != [] {
      var front, last := s[..|s| - 1], s[|s| - 1];
      CardinalityOfDistinct(front);
      assert s == front + [last];
      assert (set x | x in s) == (set x | x in front) + {last};
    }
  }

  function Below(n: nat): set<int> {
    if n == 0 then {} else Below(n - 1) + {n - 1}
  }

  lemma {:induction false} BelowFacts(n: nat)
    ensures forall k :: k in Below(n) <==> 0 <= k < n
    ensures |Below(n)| == n
  {
    if n > 0 {
      BelowFacts(n - 1);
    }
  }

  /** An applied rerank permutes its documents. */
  lemma {:induction false} NewOrderIsPermutation(results: seq<RerankResult>, n: nat)
    requires Usable(results, n)
    ensures IsPermutation(NewOrder(results, n), n)
  {
    hide Firsts, Unranked;
    FirstsFacts(results, n);
    var firsts := Firsts(results);
    UnrankedFacts(firsts, n);
    var a, b, order := Indices(firsts), Unranked(firsts, n), NewOrder(results, n);
    forall k | 0 <= k < n
      ensures k in order
    {
      if Mentions(firsts, k) {
        var i :| 0 <= i < |firsts| && firsts[i].index == k;
        assert a[i] == k && order[i] == k;
      } else {
        assert k in b;
      }
    }
    forall i, j | 0 <= i < j < |order|
      ensures order[i] != order[j]
    {
      if i < |a| <= j {
        assert Mentions(firsts, a[i]) && !Mentions(firsts, b[j - |a|]);
      }
    }
    DistinctBelow(order, n);
  }

  // DynamicReranker.Rerank -----------------------------------------------------------

  /** The first loop: the documents the model ranked, unless one of its results is unusable. */
  method RankedFirst(documents: seq<Fused>, results: seq<RerankResult>)
      returns (ordered: seq<Retrieved>, seen: set<int>, usable: bool)
    ensures usable <==> Usable(results, |documents|)
    ensures usable ==>
              var firsts := Firsts(results);
              && |ordered| == |firsts| && (ordered == [] <==> results == [])
              && (forall k :: k in seen <==> Mentions(firsts, k))
              && forall k :: 0 <= k < |firsts| ==>
                   && 0 <= firsts[k].index < |documents| && firsts[k].score.Some?
                   && ordered[k] == Rescored(documents[firsts[k].index], firsts[k].score.value)
  {
    hide Firsts;
    var n := |documents|;
    ordered, seen := [], {};
    ghost var firsts := [];
    NothingRanked(results);
    for i := 0 to |results|
      invariant Usable(results[..i], n) && firsts == Firsts(results[..i]) && |ordered| == |firsts|
      invariant forall k :: k in seen <==> Mentions(firsts, k)
      invariant forall k :: 0 <= k < |firsts| ==>
                  && 0 <= firsts[k].index < n && firsts[k].score.Some?
                  && ordered[k] == Rescored(documents[firsts[k].index], firsts[k].score.value)
    {
      var result := results[i];
      assert results[..i + 1] == results[..i] + [result];
      if result.index < 0 || result.index >= n || result.score.None? {
        assert !Usable(results, n);
        return [], {}, false;
      }
      FirstsStep(results, i);
      if result.index in seen {
        continue;
      }
      seen := seen + {result.index};
      MentionsSnoc(firsts, result);
      firsts := firsts + [result];
      ordered := ordered + [Rescored(documents[result.index], result.score.value)];
    }
    assert results[..|results|] == results;
    FirstsFacts(results, n);
    usable := true;
  }

  /** The second loop: the documents it did not rank, in fused order. */
  method ThenTheRest(documents: seq<Fused>, seen: set<int>, ranked: seq<Retrieved>,
      ghost firsts: seq<RerankResult>) returns (ordered: seq<Retrieved>)
    requires forall k :: k in seen <==> Mentions(firsts, k)
    ensures var rest := Unranked(firsts, |documents|);
            && |ordered| == |ranked| + |rest| && ranked <= ordered
            && forall k :: 0 <= k < |rest| ==>
                0 <= rest[k] < |documents| && ordered[|ranked| + k] == Plain(documents[rest[k]])
  {
    hide Unranked, Mentions;
    ordered := ranked;
    UnrankedStep(firsts, 0);
    for index := 0 to |documents|
      invariant var rest := Unranked(firsts, index);
                && |ordered| == |ranked| + |rest| && ranked <= ordered
                && forall k :: 0 <= k < |rest| ==>
                    0 <= rest[k] < |documents| && ordered[|ranked| + k] == Plain(documents[rest[k]])
    {
      UnrankedStep(firsts, index);
      if index !in seen {
        ordered := ordered + [Plain(documents[index])];
      }
    }
  }

  /** On success an applied rerank puts the model's documents first, in its order and with its scores, then the others
      in fused order. It fails on any unusable result and on an empty reply. */
  method Rerank(documents: seq<Fused>, reply: Reply)
    returns (ordered: seq<Retrieved>, applied: bool, failed: bool, ghost order: seq<int>)
    ensures applied <==> reply.Results? && reply.results != [] && Usable(reply.results, |documents|)
    ensures failed <==> !applied && !reply.NotConfigured?
    ensures !failed ==> IsPermutation(order, |documents|) && |ordered| == |documents|
                        && forall i :: 0 <= i < |ordered| ==> ordered[i].fused == documents[order[i]]
    ensures reply.NotConfigured? ==> forall i :: 0 <= i < |ordered| ==>
        order[i] == i && ordered[i] == Plain(documents[i])
    ensures applied ==>
              var firsts := Firsts(reply.results);
              && order == NewOrder(reply.results, |documents|) && |firsts| <= |ordered|
              && (forall i :: 0 <= i < |firsts| ==>
                  firsts[i].score.Some? && ordered[i] == Rescored(documents[order[i]], firsts[i].score.value))
              && (forall i :: |firsts| <= i < |ordered| ==> ordered[i] == Plain(documents[order[i]]))
  {
    hide Firsts, Unranked, NewOrder;
    ordered, applied, failed, order := [], false, false, [];
    if reply.NotConfigured? {
      order := seq(|documents|, i => i);
      ordered := seq(|documents|, i requires 0 <= i < |documents| => Plain(documents[i]));
      return;
    }
    if reply.Unavailable? {
      failed := true;
      return;
    }
    var results, n := reply.results, |documents|;
    var seen, usable;
    ordered, seen, usable := RankedFirst(documents, results);
    if !usable || |ordered| == 0 {
      return [], false, true, [];
    }
    FirstsFacts(results, n);
    ghost var ranked := ordered;
    ordered := ThenTheRest(documents, seen, ordered, Firsts(results));
    order := NewOrder(results, n);
    applied := true;
    NewOrderIsPermutation(results, n);
    OrderParts(results, n);
  }

  lemma {:induction false} NothingRanked(results: seq<RerankResult>)
    ensures Firsts(results[..0]) == [] && forall k :: !Mentions([], k)
    ensures Unranked(Firsts(results), 0) == [] && Unranked([], 0) == []
  {
    assert results[..0] == [];
  }

  lemma {:induction false} FirstsStep(results: seq<RerankResult>, i: nat)
    requires i < |results|
    ensures Firsts(results[..i + 1]) == if Mentions(Firsts(results[..i]), results[i].index) then Firsts(results[..i])
        else Firsts(results[..i]) + [results[i]]
  {
    assert results[..i + 1][..i] == results[..i];
  }

  lemma {:induction false} MentionsSnoc(before: seq<RerankResult>, r: RerankResult)
    ensures forall k :: Mentions(before + [r], k) <==> Mentions(before, k) || k == r.index
  {
    var after := before + [r];
    assert after[|before|] == r && forall i :: 0 <= i < |before| ==> after[i] == before[i];
    forall k | Mentions(before, k)
      ensures Mentions(after, k)
    {
      var i :| 0 <= i < |before| && before[i].index == k;
      assert after[i].index == k;
    }
  }

  lemma {:induction false} UnrankedStep(firsts: seq<RerankResult>, n: nat)
    ensures Unranked(firsts, 0) == []
    ensures Unranked(firsts, n + 1) == Unranked(firsts, n) + if Mentions(firsts, n) then [] else [n]
  {
  }

  lemma {:induction false} OrderParts(results: seq<RerankResult>, n: nat)
    ensures NewOrder(results, n) == Indices(Firsts(results)) + Unranked(Firsts(results), n)
  {
  }

  // HybridRetriever.Retrieve ------------------------------------------------------------

  datatype HybridConfig = HybridConfig(vectorTopK: int, keywordTopK: int, fusedTopK: int, rerankTopK: int, rrfK: int)

  predicate Configured(c: HybridConfig) {
    c.vectorTopK > 0 && c.keywordTopK > 0 && c.fusedTopK > 0 && c.rerankTopK > 0 && c.rrfK > 0
  }

  function OrDefault(value: int, default: int): int { if value <= 0 then default else value }

  /** NewHybridRetriever: each value that is not positive is replaced, the others are kept. */
  function WithDefaults(c: HybridConfig): (d: HybridConfig)
    ensures Configured(d)
    ensures d.vectorTopK == (if c.vectorTopK > 0 then c.vectorTopK else 20)
        && d.keywordTopK == (if c.keywordTopK > 0 then c.keywordTopK else 20)
    ensures d.fusedTopK == (if c.fusedTopK > 0 then c.fusedTopK else 20)
        && d.rerankTopK == (if c.rerankTopK > 0 then c.rerankTopK else 5)
    ensures d.rrfK == if c.rrfK > 0 then c.rrfK else 60
  {
    HybridConfig(OrDefault(c.vectorTopK, 20), OrDefault(c.keywordTopK, 20), OrDefault(c.fusedTopK, 20),
                 OrDefault(c.rerankTopK, 5), OrDefault(c.rrfK, 60))
  }

  /** One request: its query, the number of its knowledge bases, its own stage values and limit. */
  datatype Request = Request(query: string, knowledgeBases: nat, vectorTopK: Option<int>, keywordTopK: Option<int>,
    fusedTopK: Option<int>, rrfK: Option<int>, topK: Option<int>)

  function Override(value: int, requested: Option<int>): int {
    if requested.Some? && requested.value > 0 then requested.value else value
  }

  /** A stage value of the request counts when it is positive; otherwise the configured one stays. */
  function WithStageOptions(c: HybridConfig, q: Request): (d: HybridConfig)
    requires Configured(c)
    ensures Configured(d) && d.rerankTopK == c.rerankTopK
    ensures d.vectorTopK == if q.vectorTopK.Some? && q.vectorTopK.value > 0 then q.vectorTopK.value else c.vectorTopK
    ensures d.keywordTopK == if q.keywordTopK.Some? && q.keywordTopK.value > 0 then q.keywordTopK.value
        else c.keywordTopK
    ensures d.fusedTopK == if q.fusedTopK.Some? && q.fusedTopK.value > 0 then q.fusedTopK.value else c.fusedTopK
    ensures d.rrfK == if q.rrfK.Some? && q.rrfK.value > 0 then q.rrfK.value else c.rrfK
  {
    HybridConfig(Override(c.vectorTopK, q.vectorTopK), Override(c.keywordTopK, q.keywordTopK),
                 Override(c.fusedTopK, q.fusedTopK),
                 c.rerankTopK, Override(c.rrfK, q.rrfK))
  }

  function Min(a: int, b: int): int { if a < b then a else b }

  /** The number of documents a request may return: what it asks for, or the configured number, cut to the fused limit
      and to 20. */
  function TopKOf(config: HybridConfig, topK: Option<int>): int {
    Min(Min(Override(config.rerankTopK, topK), config.fusedTopK), 20)
  }

  method FinalTopK(config: HybridConfig, topK: Option<int>) returns (finalTopK: int)
    requires Configured(config)
    ensures finalTopK == TopKOf(config, topK) && finalTopK >= 1
    ensures var asked := if topK.Some? && topK.value > 0 then topK.value else config.rerankTopK;
            && finalTopK <= asked && finalTopK <= config.fusedTopK && finalTopK <= 20
            && (finalTopK == asked || finalTopK == config.fusedTopK || finalTopK == 20)
  {
    finalTopK := config.rerankTopK;
    if topK.Some? && topK.value > 0 {
      finalTopK := topK.value;
    }
    if finalTopK > config.fusedTopK {
      finalTopK := config.fusedTopK;
    }
    if finalTopK > 20 {
      finalTopK := 20;
    }
    if finalTopK <= 0 {
      finalTopK := config.rerankTopK;
    }
  }

  // The two branches ---------------------------------------------------------------------

  function Marked(d: Option<Document>, branch: string): Option<Document> {
    if d.Some? then Some(d.value.(matchedBy := [branch])) else None
  }

  function MarkedList(documents: Ranking, branch: string): Ranking {
    seq(|documents|, i requires 0 <= i < |documents| => Marked(documents[i], branch))
  }

  /** The ranked lists of the branches that answered: those of the vector branch, then the keyword list unless it is
      empty. */
  function ListsOf(vector: Option<seq<Ranking>>, keyword: Option<Ranking>): seq<Ranking> {
    var answered := if vector.Some? then vector.value else [];
    seq(|answered|, i requires 0 <= i < |answered| => MarkedList(answered[i], "vector"))
    + if keyword.Some? && keyword.value != [] then [MarkedList(keyword.value, "keyword")] else []
  }

  /** Marking keeps what fusion ranks by: the ids, nil entries included. */
  lemma {:induction false} MarkingKeepsIds(documents: Ranking, branch: string, i: nat)
    requires i < |documents|
    ensures IdOf(MarkedList(documents, branch)[i]) == IdOf(documents[i])
    ensures MarkedList(documents, branch)[i].Some? <==> documents[i].Some?
  {
  }

  method MarkRetrievalBranch(documents: Ranking, branch: string) returns (marked: Ranking)
    ensures marked == MarkedList(documents, branch)
  {
    marked := [];
    for i := 0 to |documents|
      invariant |marked| == i && forall j :: 0 <= j < i ==> marked[j] == Marked(documents[j], branch)
    {
      marked := marked + [Marked(documents[i], branch)];
    }
  }

  method BranchLists(vector: Option<seq<Ranking>>, keyword: Option<Ranking>) returns (lists: seq<Ranking>)
    ensures lists == ListsOf(vector, keyword)
  {
    hide MarkedList;
    lists := [];
    if vector.Some? {
      for i := 0 to |vector.value|
        invariant |lists| == i && forall j :: 0 <= j < i ==> lists[j] == MarkedList(vector.value[j], "vector")
      {
        var marked := MarkRetrievalBranch(vector.value[i], "vector");
        lists := lists + [marked];
      }
    }
    if keyword.Some? && |keyword.value| > 0 {
      var marked := MarkRetrievalBranch(keyword.value, "keyword");
      lists := lists + [marked];
    }
  }

  // Reranking, or not ---------------------------------------------------------------------

  /** The rerank puts a non-empty list of n documents into a new order. */
  predicate RerankApplies(reranker: Option<Reply>, n: nat) {
    n > 0 && reranker.Some? && reranker.value.Results? && reranker.value.results != []
        && Usable(reranker.value.results, n)
  }

  /** The rerank is called and fails: an error of the client, an empty reply, or an unusable result. */
  predicate RerankFails(reranker: Option<Reply>, n: nat) {
    n > 0 && reranker.Some? && !reranker.value.NotConfigured? && !RerankApplies(reranker, n)
  }

  function FinalOrder(reranker: Option<Reply>, n: nat): seq<int> {
    if RerankApplies(reranker, n) then NewOrder(reranker.value.results, n) else seq(n, i => i)
  }

  lemma {:induction false} FinalOrderIsPermutation(reranker: Option<Reply>, n: nat)
    ensures IsPermutation(FinalOrder(reranker, n), n)
  {
    hide NewOrder, Usable;
    if RerankApplies(reranker, n) {
      NewOrderIsPermutation(reranker.value.results, n);
    }
  }

  /** The fused list in its final order; the documents the model ranked carry its scores. */
  function Rearranged(fused: seq<Fused>, reranker: Option<Reply>): (r: seq<Retrieved>)
    ensures |r| == |fused|
  {
    var n := |fused|;
    FinalOrderIsPermutation(reranker, n);
    var order := FinalOrder(reranker, n);
    seq(n, i requires 0 <= i < n =>
      if RerankApplies(reranker, n) then Placed(fused[order[i]], Firsts(reranker.value.results), i)
          else Plain(fused[order[i]]))
  }

  function Placed(f: Fused, firsts: seq<RerankResult>, i: nat): Retrieved {
    if i < |firsts| && firsts[i].score.Some? then Rescored(f, firsts[i].score.value) else Plain(f)
  }

  predicate DistinctIds(r: seq<Retrieved>) {
    forall i, j :: 0 <= i < j < |r| ==> r[i].fused.document.chunkID != r[j].fused.document.chunkID
  }

  /** The i-th document is the one ranked order[i] by fusion. */
  predicate FollowsOrder(r: seq<Retrieved>, ids: seq<string>, order: seq<int>) {
    |r| <= |order| && forall i :: 0 <= i < |r| ==> 0 <= order[i] < |ids| && r[i].fused.document.chunkID == ids[order[i]]
  }

  lemma {:induction false} RearrangedFollows(fused: seq<Fused>, reranker: Option<Reply>, ids: seq<string>)
    requires |fused| <= |ids| && forall i :: 0 <= i < |fused| ==> fused[i].document.chunkID == ids[i]
    ensures FollowsOrder(Rearranged(fused, reranker), ids, FinalOrder(reranker, |fused|))
  {
    hide RerankApplies, NewOrder, Firsts;
    FinalOrderIsPermutation(reranker, |fused|);
  }

  /** The client's error is a cancelled or expired context: the request's own, or one of the client, such as the timeout
      of its HTTP call. */
  predicate ClientCancelled(reranker: Option<Reply>) {
    reranker.Some? && reranker.value.Unavailable? && reranker.value.cancelled
  }

  /** Reranking, or the fused order when it does not apply. The call ends at once when the rerank fails and either the
      request's context has ended or the client's error is of that kind; what is then returned is the error of the
      request's context, which is none while that context is alive. */
  method RerankOrKeep(fused: seq<Fused>, reranker: Option<Reply>, stopped: bool)
      returns (result: seq<Retrieved>, returned: bool, err: bool)
    ensures returned <==> RerankFails(reranker, |fused|) && (stopped || ClientCancelled(reranker))
    ensures err <==> RerankFails(reranker, |fused|) && stopped
    ensures result == if returned then [] else Rearranged(fused, reranker)
  {
    hide NewOrder, Firsts, Usable;
    returned, err := false, false;
    result := seq(|fused|, i requires 0 <= i < |fused| => Plain(fused[i]));
    FinalOrderIsPermutation(reranker, |fused|);
    if |fused| > 0 && reranker.Some? {
      var reranked, applied, failed;
      ghost var order;
      reranked, applied, failed, order := Rerank(fused, reranker.value);
      if failed {
        if stopped || (reranker.value.Unavailable? && reranker.value.cancelled) {
          return [], true, stopped;
        }
      } else if applied {
        result := reranked;
      }
    }
  }

  // HybridRetriever.Retrieve --------------------------------------------------------------

  datatype Outcome = EmptyQuery | NoKnowledgeBase | Unavailable | Cancelled | Documents(documents: seq<Retrieved>)

  /** How far the request gets before its context ends: not at all, into the branches, into reranking, or to its end. */
  datatype Lifetime = Ended | DuringBranches | DuringRerank | Lives

  /** What a request returns when the lists of its branches fuse to the given list. */
  function OutcomeOf(q: Request, config: HybridConfig, answered: bool, fused: seq<Fused>, reranker: Option<Reply>,
      lifetime: Lifetime): Outcome
  {
    if lifetime.Ended? then Cancelled
    else if Blank(q.query) then EmptyQuery
    else if q.knowledgeBases == 0 then NoKnowledgeBase
    else if lifetime.DuringBranches? then Cancelled
    else if !answered then Outcome.Unavailable
    else if RerankFails(reranker, |fused|) && lifetime.DuringRerank? then Cancelled
    else if RerankFails(reranker, |fused|) && ClientCancelled(reranker) then Documents([])
    else Documents(Limited(Rearranged(fused, reranker), TopKOf(config, q.topK)))
  }

  /** The guard of the branch that drops all documents: the rerank fails with a cancellation or deadline error of the
      client's own, while the context of the request is alive. */
  predicate DropsAll(reranker: Option<Reply>, n: nat, lifetime: Lifetime) {
    RerankFails(reranker, n) && ClientCancelled(reranker) && lifetime.Lives?
  }

  /** Unless that branch is taken, the returned documents have distinct ids, are the first finalTopK of the fused
      ranking in the final order, and all of them when there are not that many; if it is taken, the request succeeds
      with none. */
  lemma {:induction false} DocumentsFacts(q: Request, config: HybridConfig, lists: seq<Ranking>, fused: seq<Fused>,
      ids: seq<string>, reranker: Option<Reply>, lifetime: Lifetime)
    requires Configured(config) && IsFusion(lists, config.rrfK, config.fusedTopK, fused, ids)
    ensures var outcome, n := OutcomeOf(q, config, true, fused, reranker, lifetime), |Limited(ids, config.fusedTopK)|;
            n == |fused| && (outcome.Documents? ==>
              if DropsAll(reranker, n, lifetime) then outcome.documents == []
              else
                && |outcome.documents| == Min(TopKOf(config, q.topK), n) && 1 <= TopKOf(config, q.topK) <= 20
                && DistinctIds(outcome.documents) && FollowsOrder(outcome.documents, ids, FinalOrder(reranker, n))
                && IsPermutation(FinalOrder(reranker, n), n))
  {
    hide Ranked, FinalOrder, RerankFails, Rearranged;
    RankedDistinct(lists, config.rrfK, ids);
    forall i | 0 <= i < |fused|
      ensures fused[i].document.chunkID == ids[i]
    {
      assert IsFusedChunk(lists, config.rrfK, ids[i], fused[i]);
    }
    RearrangedFollows(fused, reranker, ids);
    FinalOrderIsPermutation(reranker, |fused|);
    var order, all := FinalOrder(reranker, |fused|), Rearranged(fused, reranker);
    forall i, j | 0 <= i < j < |all|
      ensures all[i].fused.document.chunkID != all[j].fused.document.chunkID
    {
      assert order[i] != order[j];
    }
  }

  /** Exactly when a successful request on a non-empty fused list is complete: unless the rerank fails with the client's
      own cancellation or deadline error while the context is alive. */
  lemma {:induction false} CompleteExactly(q: Request, config: HybridConfig, lists: seq<Ranking>, fused: seq<Fused>,
      ids: seq<string>, reranker: Option<Reply>, lifetime: Lifetime)
    requires Configured(config) && IsFusion(lists, config.rrfK, config.fusedTopK, fused, ids) && fused != []
    requires OutcomeOf(q, config, true, fused, reranker, lifetime).Documents?
    ensures |OutcomeOf(q, config, true, fused, reranker, lifetime).documents| == Min(TopKOf(config, q.topK), |fused|)
       <==> !DropsAll(reranker, |fused|, lifetime)
  {
    hide IsFusion, OutcomeOf, RerankFails, Rearranged;
    DocumentsFacts(q, config, lists, fused, ids, reranker, lifetime);
    assert 1 <= TopKOf(config, q.topK);
  }

  /** A timeout of the rerank call, under a live context, turns every non-empty fused list into a success without
      documents. */
  lemma {:induction false} TimedOutRerankDropsAll(q: Request, config: HybridConfig, fused: seq<Fused>)
    requires !Blank(q.query) && q.knowledgeBases > 0 && fused != []
    ensures OutcomeOf(q, config, true, fused, Some(Reply.Unavailable(true)), Lives) == Documents([])
    ensures DropsAll(Some(Reply.Unavailable(true)), |fused|, Lives)
  {
    hide Rearranged, Blank;
  }

  /** The request gets as far as fusion. */
  predicate Fuses(q: Request, answered: bool, lifetime: Lifetime) {
    (lifetime.DuringRerank? || lifetime.Lives?) && !Blank(q.query) && q.knowledgeBases > 0 && answered
  }

  /** The result is a function of the branches' lists, the request and the reranker's reply. A request that gets that
      far fuses exactly the lists of the branches that answered, and their fusion is unique. */
  method Retrieve(q: Request, base: HybridConfig, vector: Option<seq<Ranking>>, keyword: Option<Ranking>,
      reranker: Option<Reply>, lifetime: Lifetime)
    returns (outcome: Outcome, ghost fused: seq<Fused>, ghost ids: seq<string>)
    requires Configured(base)
    ensures var config := WithStageOptions(base, q);
            Fuses(q, vector.Some? || keyword.Some?, lifetime) ==>
              && IsFusion(ListsOf(vector, keyword), config.rrfK, config.fusedTopK, fused, ids)
              && outcome == OutcomeOf(q, config, true, fused, reranker, lifetime)
    ensures var config := WithStageOptions(base, q);
            forall f, other :: IsFusion(ListsOf(vector, keyword), config.rrfK, config.fusedTopK, f, other) ==>
              outcome == OutcomeOf(q, config, vector.Some? || keyword.Some?, f, reranker, lifetime)
    ensures !Fuses(q, vector.Some? || keyword.Some?, lifetime) ==>
              outcome == OutcomeOf(q, base, vector.Some? || keyword.Some?, [], reranker, lifetime)
  {
    hide IsFusion, ListsOf, Rearranged, RerankFails;
    fused, ids := [], [];
    if lifetime.Ended? {
      return Cancelled, [], [];
    }
    if TrimSpace(q.query) == "" {
      return EmptyQuery, [], [];
    }
    if q.knowledgeBases == 0 {
      return NoKnowledgeBase, [], [];
    }
    var config := WithStageOptions(base, q);
    if lifetime.DuringBranches? {
      return Cancelled, [], [];
    }
    if vector.None? && keyword.None? {
      return Outcome.Unavailable, [], [];
    }
    var lists := BranchLists(vector, keyword);
    var list;
    list, ids := FuseRRF(lists, config.rrfK, config.fusedTopK);
    fused := list;
    forall f, other | IsFusion(lists, config.rrfK, config.fusedTopK, f, other)
      ensures f == fused
    {
      FusionIsDetermined(lists, config.rrfK, config.fusedTopK, fused, ids, f, other);
    }
    var finalTopK := FinalTopK(config, q.topK);
    var result, returned, err := RerankOrKeep(list, reranker, lifetime.DuringRerank?);
    if returned {
      return if err then Cancelled else Documents([]), fused, ids;
    }
    if |result| > finalTopK {
      result := result[..finalTopK];
    }
    outcome := Documents(result);
  }

  lemma {:induction false} RankedDistinct(lists: seq<Ranking>, k: int, ids: seq<string>)
    requires k > 0 && Ranked(lists, k, ids)
    ensures forall i, j :: 0 <= i < j < |ids| ==> ids[i] != ids[j]
  {
  }
}
