/** What a hybrid retrieval returns, by the request, the fused list and the model's reply. */
module HybridLaws {
  import opened Optional
  import opened Text
  import opened Fusion
  import opened Hybrid

  // The final limit ----------------------------------------------------------------------------------------------

  /** The least of what the request asks for, or the configured number where it asks for none, the fused limit and
      20. */
  lemma {:induction false} TopKExactly(config: HybridConfig, topK: Option<int>)
    ensures var n := TopKOf(config, topK);
            var asked := if topK.Some? && topK.value > 0 then topK.value else config.rerankTopK;
            && n <= asked && n <= config.fusedTopK && n <= 20
            && (n == asked || n == config.fusedTopK || n == 20)
  {
  }

  // The lists to be fused ----------------------------------------------------------------------------------------

  /** The same entries, those that are documents marked with the branch they come from. */
  predicate MarkedWith(list: Ranking, original: Ranking, branch: string) {
    && |list| == |original|
    && forall j :: 0 <= j < |list| ==>
         if original[j].None? then list[j].None?
         else
           && list[j].Some? && list[j].value.chunkID == original[j].value.chunkID
           && list[j].value.content == original[j].value.content && list[j].value.score == original[j].value.score
           && list[j].value.matchedBy == [branch]
  }

  lemma {:induction false} ListsExactly(vector: Option<seq<Ranking>>, keyword: Option<Ranking>)
    ensures var lists, n := ListsOf(vector, keyword), if vector.Some? then |vector.value| else 0;
            && |lists| == n + (if keyword.Some? && |keyword.value| > 0 then 1 else 0)
            && (forall i :: 0 <= i < n ==> MarkedWith(lists[i], vector.value[i], "vector"))
            && (|lists| > n ==> MarkedWith(lists[n], keyword.value, "keyword"))
  {
    forall documents: Ranking, branch: string
      ensures MarkedWith(MarkedList(documents, branch), documents, branch)
    {
      MarkExactly(documents, branch);
    }
  }

  lemma {:induction false} MarkExactly(documents: Ranking, branch: string)
    ensures MarkedWith(MarkedList(documents, branch), documents, branch)
  {
  }

  // The model's order --------------------------------------------------------------------------------------------

  /** No earlier result is about the same document. */
  predicate IsFirstResult(results: seq<RerankResult>, k: nat)
    requires k < |results|
  {
    forall j :: 0 <= j < k ==> results[j].index != results[k].index
  }

  /** Exactly the first result for each document counts, in the model's order; at lists their positions. */
  lemma {:induction false} FirstsExactly(results: seq<RerankResult>) returns (at: seq<nat>)
    ensures |at| == |Firsts(results)|
    ensures forall i :: 0 <= i < |at| ==> at[i] < |results| && Firsts(results)[i] == results[at[i]]
    ensures forall i, j :: 0 <= i < j < |at| ==> at[i] < at[j]
    ensures forall k: nat :: k < |results| ==> (k in at <==> IsFirstResult(results, k))
  {
    at := [];
    if results != [] {
      var m := |results| - 1;
      var front := results[..m];
      assert forall k :: 0 <= k < m ==> front[k] == results[k];
      at := FirstsExactly(front);
      MentionedFirst(front, at, results[m].index);
      assert forall k: nat :: k < m ==> (IsFirstResult(front, k) <==> IsFirstResult(results, k));
      if !Mentions(Firsts(front), results[m].index) { at := at + [m]; }
    }
  }

  /** A document that some result is about is one of those that count. */
  lemma {:induction false} MentionedFirst(results: seq<RerankResult>, at: seq<nat>, index: int)
    requires |at| == |Firsts(results)|
    requires forall i :: 0 <= i < |at| ==> at[i] < |results| && Firsts(results)[i] == results[at[i]]
    requires forall k: nat :: k < |results| ==> (k in at <==> IsFirstResult(results, k))
    ensures Mentions(Firsts(results), index) <==> exists k :: 0 <= k < |results| && results[k].index == index
  {
    if Mentions(Firsts(results), index) {
      var i :| 0 <= i < |at| && Firsts(results)[i].index == index;
      assert results[at[i]].index == index;
    }
    if exists k :: 0 <= k < |results| && results[k].index == index {
      var k :| 0 <= k < |results| && results[k].index == index;
      var f := EarliestResult(results, k);
      assert f in at;
      var i :| 0 <= i < |at| && at[i] == f;
      assert Firsts(results)[i].index == index;
    }
  }

  lemma {:induction false} EarliestResult(results: seq<RerankResult>, k: nat) returns (f: nat)
    requires k < |results|
    ensures f <= k && results[f].index == results[k].index && IsFirstResult(results, f)
    decreases k
  {
    f := k;
    if !IsFirstResult(results, k) {
      var j :| 0 <= j < k && results[j].index == results[k].index;
      f := EarliestResult(results, j);
    }
  }

  /** The documents no result is about, in ascending order, each once. */
  lemma {:induction false} UnrankedExactly(results: seq<RerankResult>, n: nat)
    requires Usable(results, n)
    ensures var rest := Unranked(Firsts(results), n);
            && (forall i, j :: 0 <= i < j < |rest| ==> rest[i] < rest[j])
            && forall k: nat :: k in rest <==> k < n && forall i :: 0 <= i < |results| ==> results[i].index != k
  {
    hide Firsts, Unranked;
    FirstsFacts(results, n);
    var firsts := Firsts(results);
    UnrankedFacts(firsts, n);
    forall k: nat
      ensures k in Unranked(firsts, n) <==> k < n && forall i :: 0 <= i < |results| ==> results[i].index != k
    {
      assert Mentions(results, k) <==> exists i :: 0 <= i < |results| && results[i].index == k;
    }
  }

  // The outcome --------------------------------------------------------------------------------------------------

  /** The model answered with results for existing documents only, each with a finite score. */
  predicate Answers(reranker: Option<Reply>, n: nat) {
    && reranker.Some? && reranker.value.Results? && |reranker.value.results| > 0
    && forall i :: 0 <= i < |reranker.value.results| ==>
         0 <= reranker.value.results[i].index < n && reranker.value.results[i].score.Some?
  }

  predicate AsFused(d: Retrieved, f: Fused) { d.fused == f && d.score == f.score && d.rerankScore.None? }

  /** Which of the five ways a request ends. */
  lemma {:induction false} OutcomeExactly(q: Request, config: HybridConfig, answered: bool, fused: seq<Fused>,
      reranker: Option<Reply>, lifetime: Lifetime)
    ensures var outcome := OutcomeOf(q, config, answered, fused, reranker, lifetime);
            var asked := lifetime != Ended && !AllSpace(q.query);
            var fails := fused != [] && reranker.Some? && reranker.value != NotConfigured
                && !Answers(reranker, |fused|);
            && (outcome == EmptyQuery <==> lifetime != Ended && AllSpace(q.query))
            && (outcome == NoKnowledgeBase <==> asked && q.knowledgeBases == 0)
            && (outcome == Outcome.Unavailable <==>
                  asked && q.knowledgeBases > 0 && lifetime != DuringBranches && !answered)
            && (outcome == Cancelled <==>
                  lifetime == Ended
                  || (asked && q.knowledgeBases > 0
                      && (lifetime == DuringBranches || (answered && fails && lifetime == DuringRerank))))
            && (outcome.Documents? <==>
                  asked && q.knowledgeBases > 0 && lifetime != DuringBranches && answered
                  && !(fails && lifetime == DuringRerank))
  {
    hide Rearranged;
    BlankExactly(q.query);
    AnswersExactly(reranker, |fused|);
  }

  lemma {:induction false} AnswersExactly(reranker: Option<Reply>, n: nat)
    ensures RerankApplies(reranker, n) <==> n > 0 && Answers(reranker, n)
    ensures RerankFails(reranker, n) <==>
            n > 0 && reranker.Some? && reranker.value != NotConfigured && !Answers(reranker, n)
  {
  }

  /** The documents of a request that no failed rerank call cuts off: the ranked ones first, in the model's order and
      with its scores, then the others in fused order; without an answer of the model, the fused list; and of that as
      many as the limit allows. */
  lemma {:induction false} DocumentsExactly(q: Request, config: HybridConfig, fused: seq<Fused>,
      reranker: Option<Reply>,
      lifetime: Lifetime, i: nat)
    requires Configured(config) && OutcomeOf(q, config, true, fused, reranker, lifetime).Documents?
    requires i < |OutcomeOf(q, config, true, fused, reranker, lifetime).documents|
    ensures var d := OutcomeOf(q, config, true, fused, reranker, lifetime).documents[i];
            var n := |fused|;
            && i < n
            && (!Answers(reranker, n) ==> AsFused(d, fused[i]))
            && (Answers(reranker, n) ==>
                  var firsts := Firsts(reranker.value.results);
                  var rest := Unranked(firsts, n);
                  if i < |firsts| then
                    && 0 <= firsts[i].index < n && d.fused == fused[firsts[i].index]
                    && Some(d.score) == firsts[i].score && d.rerankScore == firsts[i].score
                  else i - |firsts| < |rest| && 0 <= rest[i - |firsts|] < n && AsFused(d, fused[rest[i - |firsts|]]))
  {
    hide RerankFails, Blank, Firsts, Unranked, FinalOrder, Rearranged;
    AnswersExactly(reranker, |fused|);
    var all := Rearranged(fused, reranker);
    assert i < |all| && OutcomeOf(q, config, true, fused, reranker, lifetime).documents[i] == all[i];
    RearrangedAt(fused, reranker, i);
    if RerankApplies(reranker, |fused|) {
      FirstsFacts(reranker.value.results, |fused|);
      NewOrderIsPermutation(reranker.value.results, |fused|);
    }
  }

  lemma {:induction false} RearrangedAt(fused: seq<Fused>, reranker: Option<Reply>, i: nat)
    requires i < |fused|
    ensures var n := |fused|;
            var order := FinalOrder(reranker, n);
            && |order| == n && 0 <= order[i] < n
            && (!RerankApplies(reranker, n) ==> order[i] == i && Rearranged(fused, reranker)[i] == Plain(fused[i]))
            && (RerankApplies(reranker, n) ==>
                  var firsts := Firsts(reranker.value.results);
                  && order == Indices(firsts) + Unranked(firsts, n)
                  && Rearranged(fused, reranker)[i] == Placed(fused[order[i]], firsts, i))
  {
    hide Firsts, Unranked;
    FinalOrderIsPermutation(reranker, |fused|);
  }

  /** How many documents there are: as many as the limit allows, or none when a rerank call that fails with the client's
      own cancellation or timeout cuts the request off. */
  lemma {:induction false} CountExactly(q: Request, config: HybridConfig, fused: seq<Fused>, reranker: Option<Reply>,
      lifetime: Lifetime)
    requires Configured(config) && OutcomeOf(q, config, true, fused, reranker, lifetime).Documents?
    ensures var n := |OutcomeOf(q, config, true, fused, reranker, lifetime).documents|;
            var limit := TopKOf(config, q.topK);
            n == if reranker == Some(Reply.Unavailable(true)) then 0 else if |fused| < limit then |fused| else limit
  {
    hide Rearranged, Blank;
    AnswersExactly(reranker, |fused|);
  }
}
