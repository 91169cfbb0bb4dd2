/** What reciprocal rank fusion gives a chunk, by the ranks at which the lists hold it. */
module FusionLaws {
  import opened Optional
  import opened Fusion

  /** The list has the chunk. */
  ghost predicate Holds(list: Ranking, id: string) {
    id != "" && exists j :: 0 <= j < |list| && IdOf(list[j]) == id
  }

  lemma {:induction false} HoldsExactly(list: Ranking, id: string)
    ensures Appears(list, id) <==> Holds(list, id)
  {
  }

  // Scores ------------------------------------------------------------------------------------------------------

  lemma {:induction false} ReciprocalExactly(n: int)
    requires n > 0
    ensures Reciprocal(n) * n as real == 1.0
  {
  }

  /** The sum of 1 / (k + rank) over the lists that have the chunk; ranks count from 1. */
  function RankSum(lists: seq<Ranking>, id: string, k: int): real
    requires k > 0
  {
    if lists == [] then 0.0
    else (if Appears(lists[0], id) then 1.0 / (k + FirstIndex(lists[0], id) + 1) as real else 0.0)
         + RankSum(lists[1..], id, k)
  }

  /** In how many lists the chunk stands. */
  function Count(lists: seq<Ranking>, id: string): nat {
    if lists == [] then 0 else (if Appears(lists[0], id) then 1 else 0) + Count(lists[1..], id)
  }

  /** The list has the chunk, first at that rank. */
  predicate AtRank(list: Ranking, id: string, rank: nat) {
    Appears(list, id) && FirstIndex(list, id) + 1 == rank
  }

  /** The best rank of the chunk in any list. */
  ghost predicate IsBest(lists: seq<Ranking>, id: string, best: nat) {
    && (exists l :: l in lists && AtRank(l, id, best))
    && (forall l, rank :: l in lists && AtRank(l, id, rank) ==> best <= rank)
  }

  lemma {:induction false} OneList(list: Ranking, id: string, k: int)
    requires k > 0
    ensures var t := TallyOf([list], id, k);
            if Appears(list, id) then
              && t.score == 1.0 / (k + FirstIndex(list, id) + 1) as real
              && t.hits == 1 && t.best == FirstIndex(list, id) + 1
            else t.score == 0.0 && t.hits == 0 && t.best == 0
  {
    TallySnoc([], list, id, k);
    assert [] + [list] == [list];
    ReciprocalIs(k + FirstIndex(list, id) + 1);
  }

  lemma {:induction false} ReciprocalIs(n: int)
    requires n > 0
    ensures Reciprocal(n) == 1.0 / n as real
  {
    ReciprocalExactly(n);
    var r := n as real;
    assert (1.0 / r) * r == 1.0;
  }

  lemma {:induction false} ScoreExactly(lists: seq<Ranking>, id: string, k: int)
    requires k > 0
    ensures TallyOf(lists, id, k).score == RankSum(lists, id, k)
    ensures TallyOf(lists, id, k).hits == Count(lists, id)
    decreases |lists|
  {
    hide TallyOf, Appears;
    if lists == [] {
      TallySnoc([], [], id, k);
    } else {
      assert lists == [lists[0]] + lists[1..];
      OneList(lists[0], id, k);
      TallyConcat([lists[0]], lists[1..], id, k);
      ScoreExactly(lists[1..], id, k);
    }
  }

  lemma {:induction false} BestExactly(lists: seq<Ranking>, id: string, k: int)
    requires k > 0
    ensures var best := TallyOf(lists, id, k).best;
            if exists l :: l in lists && Appears(l, id) then IsBest(lists, id, best) else best == 0
    decreases |lists|
  {
    hide TallyOf, Appears, IsBest, FirstIndex;
    if lists == [] {
      TallySnoc([], [], id, k);
    } else {
      assert lists == [lists[0]] + lists[1..];
      assert forall l :: l in lists <==> l == lists[0] || l in lists[1..];
      OneList(lists[0], id, k);
      TallyConcat([lists[0]], lists[1..], id, k);
      BestExactly(lists[1..], id, k);
      BestOfTwo(lists[0], lists[1..], id);
      BestIsPositive(lists[1..], id);
    }
  }

  lemma {:induction false} BestIsPositive(lists: seq<Ranking>, id: string)
    ensures forall best :: IsBest(lists, id, best) ==> best > 0
  {
  }

  lemma {:induction false} BestOfTwo(list: Ranking, rest: seq<Ranking>, id: string)
    ensures Appears(list, id) && (forall l :: l in rest ==> !Appears(l, id)) ==>
      IsBest([list] + rest, id, FirstIndex(list, id) + 1)
    ensures forall best :: IsBest(rest, id, best) ==>
      var rank := FirstIndex(list, id) + 1;
      IsBest([list] + rest, id, if Appears(list, id) && rank < best then rank else best)
  {
    hide Appears, FirstIndex;
    assert forall l :: l in [list] + rest <==> l == list || l in rest;
    var rank := FirstIndex(list, id) + 1;
    assert Appears(list, id) ==> AtRank(list, id, rank);
    forall best | IsBest(rest, id, best)
      ensures IsBest([list] + rest, id, if Appears(list, id) && rank < best then rank else best)
    {
      var l :| l in rest && AtRank(l, id, best);
      assert l in [list] + rest;
    }
  }

  /** In how many lists any chunk stands. */
  function Filled(lists: seq<Ranking>): nat {
    if lists == [] then 0 else (if Active(lists[0]) then 1 else 0) + Filled(lists[1..])
  }

  lemma {:induction false} ActiveExactly(lists: seq<Ranking>, list: Ranking)
    ensures Filled(lists + [list]) == Filled(lists) + if Active(list) then 1 else 0
    ensures ActiveCount(lists) == Filled(lists)
    decreases |lists|
  {
    hide Active;
    if lists == [] {
      assert [] + [list] == [list];
    } else {
      assert (lists + [list])[1..] == lists[1..] + [list];
      ActiveExactly(lists[1..], list);
      var n := |lists| - 1;
      ActiveExactly(lists[..n], lists[n]);
      assert lists == lists[..n] + [lists[n]];
    }
  }

  /** The normalised score of a chunk times the number of lists with chunks is its score times k + 1. */
  lemma {:induction false} NormalisedExactly(score: real, active: nat, k: int)
    requires active > 0 && k > 0
    ensures Normalised(score, active, k) * active as real == score * (k + 1) as real
  {
    var a, b := active as real, (k + 1) as real;
    assert score / (a / b) * (a / b) == score;
    assert (a / b) * b == a;
    var q := score / (a / b);
    assert q * a == q * ((a / b) * b) == (q * (a / b)) * b == score * b;
  }

  lemma {:induction false} ClampExactly(score: real)
    ensures score < 0.0 ==> ClampScore(score) == 0.0
    ensures score > 1.0 ==> ClampScore(score) == 1.0
    ensures 0.0 <= score <= 1.0 ==> ClampScore(score) == score
  {
  }

  /** The chunk is the first entry of every list that has chunks. */
  ghost predicate FirstEverywhere(lists: seq<Ranking>, id: string) {
    forall i :: 0 <= i < |lists| && Active(lists[i]) ==> Appears(lists[i], id) && FirstIndex(lists[i], id) == 0
  }

  lemma {:induction false} FullShare(lists: seq<Ranking>, id: string, k: int)
    requires k > 0
    ensures TallyOf(lists, id, k).score <= Share(ActiveCount(lists), k)
    ensures TallyOf(lists, id, k).score == Share(ActiveCount(lists), k) <==> FirstEverywhere(lists, id)
  {
    hide TallyOf, Contribution, Reciprocal, Appears, Active, Share, ActiveCount, FirstEverywhere;
    ShareStep(0, k);
    ActiveSnoc([], []);
    if lists == [] {
      TallySnoc([], [], id, k);
      assert FirstEverywhere([], id) by { FirstNowhere(id); }
    } else {
      var n := |lists| - 1;
      var list := lists[n];
      Unsnoc(lists);
      FullShare(lists[..n], id, k);
      TallySnoc(lists[..n], list, id, k);
      ContributionHits(list, id, k);
      ActiveSnoc(lists[..n], list);
      ShareStep(ActiveCount(lists[..n]), k);
      FirstSnoc(lists[..n], list, id);
      if Appears(list, id) {
        ReciprocalAntitone(k + 1, k + FirstIndex(list, id) + 1);
        HitIsActive(list, id);
      }
    }
  }

  lemma {:induction false} FirstNowhere(id: string)
    ensures FirstEverywhere([], id)
  {
  }

  lemma {:induction false} FirstSnoc(lists: seq<Ranking>, list: Ranking, id: string)
    ensures FirstEverywhere(lists + [list], id) <==>
            FirstEverywhere(lists, id) && (Active(list) ==> Appears(list, id) && FirstIndex(list, id) == 0)
  {
    hide Appears, Active, FirstIndex;
    var all := lists + [list];
    assert all[|lists|] == list && forall i :: 0 <= i < |lists| ==> all[i] == lists[i];
  }

  /** A chunk has the full normalised score exactly when it comes first in every list that has chunks. */
  lemma {:induction false} FullScoreExactly(lists: seq<Ranking>, id: string, k: int)
    requires k > 0 && ActiveCount(lists) > 0
    ensures Normalised(TallyOf(lists, id, k).score, ActiveCount(lists), k) == 1.0 <==> FirstEverywhere(lists, id)
  {
    hide TallyOf, ActiveCount, FirstEverywhere, Normalised, Reciprocal;
    var score, active := TallyOf(lists, id, k).score, ActiveCount(lists);
    FullShare(lists, id, k);
    NormalisedExactly(score, active, k);
    ReciprocalExactly(k + 1);
    ShareTimes(active, k);
    TimesPositive(score, Share(active, k), (k + 1) as real);
    TimesPositive(Normalised(score, active, k), 1.0, active as real);
  }

  lemma {:induction false} ShareTimes(n: nat, k: int)
    requires k > 0
    ensures Share(n, k) * (k + 1) as real == n as real
  {
    ReciprocalExactly(k + 1);
    var r, b, a := Reciprocal(k + 1), (k + 1) as real, n as real;
    assert (a * r) * b == a * (r * b);
  }

  lemma {:induction false} TimesPositive(x: real, y: real, z: real)
    requires z > 0.0
    ensures x * z == y * z <==> x == y
  {
    if x * z == y * z {
      assert (x - y) * z == 0.0;
    }
  }

  // What else a fused document carries ---------------------------------------------------------------------------

  /** The document that counts for the chunk in a list: its first. */
  ghost predicate CountsIn(list: Ranking, id: string, d: Document) {
    Appears(list, id) && list[FirstIndex(list, id)] == Some(d)
  }

  ghost predicate Counts(lists: seq<Ranking>, id: string, d: Document) {
    exists l :: l in lists && CountsIn(l, id, d)
  }

  /** The largest score of the documents that count and are marked with the branch. */
  ghost predicate IsLargest(score: Option<real>, lists: seq<Ranking>, id: string, branch: string) {
    && (score.Some? ==> exists d :: Counts(lists, id, d) && branch in d.matchedBy && d.score == score)
    && (forall d :: Counts(lists, id, d) && branch in d.matchedBy && d.score.Some? ==>
          score.Some? && d.score.value <= score.value)
  }

  ghost predicate AreBranches(branches: set<string>, lists: seq<Ranking>, id: string) {
    forall b :: b in branches <==> exists d :: Counts(lists, id, d) && b in d.matchedBy
  }

  /** The first of the documents that count. */
  ghost predicate IsFirst(d: Document, lists: seq<Ranking>, id: string) {
    exists i :: 0 <= i < |lists| && CountsIn(lists[i], id, d) && forall j :: 0 <= j < i ==> !Appears(lists[j], id)
  }

  ghost predicate Describes(c: Candidate, lists: seq<Ranking>, id: string) {
    && IsFirst(c.document, lists, id) && AreBranches(c.branches, lists, id)
    && IsLargest(c.vectorScore, lists, id, "vector") && IsLargest(c.keywordScore, lists, id, "keyword")
  }

  lemma {:induction false} CountsSnoc(lists: seq<Ranking>, list: Ranking, id: string)
    ensures forall d :: Counts(lists + [list], id, d) <==> Counts(lists, id, d) || CountsIn(list, id, d)
    ensures Appears(list, id) ==> CountsIn(list, id, list[FirstIndex(list, id)].value)
    ensures forall d :: CountsIn(list, id, d) ==> Appears(list, id) && d == list[FirstIndex(list, id)].value
  {
    hide CountsIn;
    assert forall l :: l in lists + [list] <==> l in lists || l == list;
    if Appears(list, id) {
      AppearsAt(list, id);
      CountsFirst(list, id);
    }
    forall d | CountsIn(list, id, d) ensures Appears(list, id) && d == list[FirstIndex(list, id)].value {
      CountsOne(list, id, d);
    }
  }

  lemma {:induction false} CountsFirst(list: Ranking, id: string)
    requires Appears(list, id) && list[FirstIndex(list, id)].Some?
    ensures CountsIn(list, id, list[FirstIndex(list, id)].value)
  {
  }

  lemma {:induction false} CountsOne(list: Ranking, id: string, d: Document)
    requires CountsIn(list, id, d)
    ensures Appears(list, id) && d == list[FirstIndex(list, id)].value
  {
  }

  lemma {:induction false} NothingCounts(lists: seq<Ranking>, id: string, k: int)
    requires k > 0 && CandidateOf(lists, id, k).None?
    ensures forall d :: !Counts(lists, id, d)
    ensures forall i :: 0 <= i < |lists| ==> !Appears(lists[i], id)
  {
    hide TallyOf, CandidateOf;
    CandidateFacts(lists, id, k);
    TallyFacts(lists, id, k);
    assert !InSome(lists, id);
    forall l | l in lists ensures !Appears(l, id) {
      var i :| 0 <= i < |lists| && lists[i] == l;
    }
  }

  lemma {:induction false} LargerOfTwo(current: Option<real>, lists: seq<Ranking>, list: Ranking, id: string,
      branch: string)
    requires Appears(list, id) && IsLargest(current, lists, id, branch)
    ensures var d := list[FirstIndex(list, id)].value;
            IsLargest(if branch in d.matchedBy && d.score.Some? then LargerScore(current, d.score.value) else current,
                      lists + [list], id, branch)
  {
    hide Counts, CountsIn, Appears, FirstIndex;
    AppearsAt(list, id);
    CountsSnoc(lists, list, id);
  }

  lemma {:induction false} BranchesOfTwo(branches: set<string>, lists: seq<Ranking>, list: Ranking, id: string)
    requires Appears(list, id) && AreBranches(branches, lists, id)
    ensures var d := list[FirstIndex(list, id)].value;
            AreBranches(branches + (set b | b in d.matchedBy), lists + [list], id)
  {
    hide Counts, CountsIn, Appears, FirstIndex;
    AppearsAt(list, id);
    CountsSnoc(lists, list, id);
  }

  lemma {:induction false} FirstStays(d: Document, lists: seq<Ranking>, list: Ranking, id: string)
    requires IsFirst(d, lists, id)
    ensures IsFirst(d, lists + [list], id)
  {
    hide CountsIn, Appears;
    var i :| 0 <= i < |lists| && CountsIn(lists[i], id, d) && forall j :: 0 <= j < i ==> !Appears(lists[j], id);
    var all := lists + [list];
    assert forall j :: 0 <= j <= i ==> all[j] == lists[j];
  }

  lemma {:induction false} FirstOfAll(lists: seq<Ranking>, list: Ranking, id: string)
    requires Appears(list, id) && forall i :: 0 <= i < |lists| ==> !Appears(lists[i], id)
    ensures IsFirst(list[FirstIndex(list, id)].value, lists + [list], id)
  {
    hide CountsIn, Appears, FirstIndex;
    CountsSnoc([], list, id);
    var all := lists + [list];
    assert all[|lists|] == list && forall j :: 0 <= j < |lists| ==> all[j] == lists[j];
  }

  lemma {:induction false} SkippedList(c: Candidate, lists: seq<Ranking>, list: Ranking, id: string)
    requires Describes(c, lists, id) && !Appears(list, id)
    ensures Describes(c, lists + [list], id)
  {
    hide Counts, CountsIn, Appears, FirstIndex, IsFirst;
    CountsSnoc(lists, list, id);
    FirstStays(c.document, lists, list, id);
  }

  /** The candidate entry, by the documents that count for its chunk. */
  lemma {:induction false} CandidateExactly(lists: seq<Ranking>, id: string, k: int)
    requires k > 0 && CandidateOf(lists, id, k).Some?
    ensures Describes(CandidateOf(lists, id, k).value, lists, id)
    decreases |lists|
  {
    hide Contribution, Combine, CandidateOf, Appears, FirstIndex, IsFirst, AreBranches, IsLargest, Counts;
    if lists == [] {
      NothingListed(id, k);
    } else {
      var n := |lists| - 1;
      var done, list := lists[..n], lists[n];
      Unsnoc(lists);
      CandidateSnoc(done, list, id, k);
      var before := CandidateOf(done, id, k);
      if before.Some? { CandidateExactly(done, id, k); }
      if !Appears(list, id) {
        SkippedList(before.value, done, list, id);
      } else {
        if before.Some? {
          FirstStays(before.value.document, done, list, id);
        } else {
          NothingCounts(done, id, k);
          FirstOfAll(done, list, id);
          NothingLarge(done, id);
        }
        AppearsAt(list, id);
        var c := if before.Some? then before.value else NewCandidate(list[FirstIndex(list, id)].value);
        LargerOfTwo(c.vectorScore, done, list, id, "vector");
        LargerOfTwo(c.keywordScore, done, list, id, "keyword");
        BranchesOfTwo(c.branches, done, list, id);
      }
    }
  }

  lemma {:induction false} NothingListed(id: string, k: int)
    requires k > 0
    ensures CandidateOf([], id, k).None?
  {
  }

  lemma {:induction false} NothingLarge(lists: seq<Ranking>, id: string)
    requires forall d :: !Counts(lists, id, d)
    ensures AreBranches({}, lists, id) && forall branch :: IsLargest(None, lists, id, branch)
  {
    hide Counts;
  }

  // Orders ------------------------------------------------------------------------------------------------------

  /** Strings compare at their first difference; a proper prefix is smaller. */
  ghost predicate FirstDifference(s: string, t: string, i: nat) {
    && i <= |s| && i < |t| && s[..i] == t[..i]
    && (i == |s| || s[i] < t[i])
  }

  lemma {:induction false} LessExactly(s: string, t: string)
    ensures Less(s, t) <==> exists i: nat :: FirstDifference(s, t, i)
  {
    forall i: nat | FirstDifference(s, t, i) ensures t != "" && (i == 0 || (s != "" && s[0] == t[0])) {
      if i > 0 { assert s[..i][0] == s[0] && t[..i][0] == t[0]; }
    }
    if s == "" || t == "" || s[0] != t[0] {
      assert t != "" && (s == "" || s[0] < t[0]) ==> FirstDifference(s, t, 0);
    } else {
      LessExactly(s[1..], t[1..]);
      if Less(s[1..], t[1..]) {
        var i: nat :| FirstDifference(s[1..], t[1..], i);
        assert s[..i + 1] == [s[0]] + s[1..][..i] && t[..i + 1] == [t[0]] + t[1..][..i];
        assert FirstDifference(s, t, i + 1);
      }
      forall i: nat | FirstDifference(s, t, i) ensures Less(s[1..], t[1..]) {
        if i > 0 {
          assert s[1..][..i - 1] == s[..i][1..] && t[1..][..i - 1] == t[..i][1..];
          assert FirstDifference(s[1..], t[1..], i - 1);
        }
      }
    }
  }

  /** Of two chunks the earlier has the larger score; at equal scores it stands in more lists; at equal numbers of lists
      it has the better best rank; at equal best ranks it has the smaller id. And the chunks are those of the lists. */
  lemma {:induction false} RankedExactly(lists: seq<Ranking>, k: int, ids: seq<string>, i: nat, j: nat)
    requires k > 0 && Ranked(lists, k, ids) && i < j < |ids|
    ensures var a, b := ids[i], ids[j];
            var best, other := TallyOf(lists, a, k).best, TallyOf(lists, b, k).best;
            && IsBest(lists, a, best) && IsBest(lists, b, other)
            && RankSum(lists, a, k) >= RankSum(lists, b, k)
            && (RankSum(lists, a, k) == RankSum(lists, b, k) ==> Count(lists, a) >= Count(lists, b))
            && (RankSum(lists, a, k) == RankSum(lists, b, k) && Count(lists, a) == Count(lists, b) ==>
                  best <= other && (best == other ==> Less(a, b)))
  {
    hide TallyOf, IsBest, RankSum, Count, Ranked;
    var a, b := ids[i], ids[j];
    RankedPair(lists, k, ids, i, j);
    ScoreExactly(lists, a, k);
    ScoreExactly(lists, b, k);
    RankedIsListed(lists, k, ids, a);
    RankedIsListed(lists, k, ids, b);
    BestExactly(lists, a, k);
    BestExactly(lists, b, k);
  }

  lemma {:induction false} RankedPair(lists: seq<Ranking>, k: int, ids: seq<string>, i: nat, j: nat)
    requires k > 0 && Ranked(lists, k, ids) && i < j < |ids|
    ensures Before(Key(TallyOf(lists, ids[i], k), ids[i]), Key(TallyOf(lists, ids[j], k), ids[j]))
  {
  }

  lemma {:induction false} RankedIsListed(lists: seq<Ranking>, k: int, ids: seq<string>, id: string)
    requires k > 0 && Ranked(lists, k, ids)
    ensures id in ids <==> exists l :: l in lists && Appears(l, id)
  {
    hide TallyOf, Appears;
    TallyFacts(lists, id, k);
    if InSome(lists, id) {
      var i :| 0 <= i < |lists| && Appears(lists[i], id);
      assert lists[i] in lists;
    }
    if exists l :: l in lists && Appears(l, id) {
      var l :| l in lists && Appears(l, id);
      var i :| 0 <= i < |lists| && lists[i] == l;
    }
  }

  /** "vector" comes first, "keyword" next, the other branches follow by name. */
  lemma {:induction false} BranchOrderExactly(r: seq<string>, branches: set<string>, i: nat, j: nat)
    requires InBranchOrder(r, branches) && i < j < |r|
    ensures r[i] == "vector" || (r[i] == "keyword" && r[j] != "vector") ||
            (r[i] != "keyword" && r[j] != "keyword" && r[j] != "vector" && Less(r[i], r[j]))
  {
    assert BranchBefore(r[i], r[j]);
  }

  // The fused list ----------------------------------------------------------------------------------------------

  /** Everything a fused document says, by the lists alone. */
  lemma {:induction false} FusedExactly(lists: seq<Ranking>, rrfK: int, limit: int, result: seq<Fused>,
      ids: seq<string>, i: nat)
    requires IsFusion(lists, rrfK, limit, result, ids) && i < |result|
    ensures var f, id, k := result[i], ids[i], if rrfK > 0 then rrfK else 60;
            && f.document.chunkID == id && IsFirst(f.document, lists, id)
            && f.rrfScore == RankSum(lists, id, k)
            && f.score * Filled(lists) as real == f.rrfScore * (k + 1) as real
            && (f.score == 1.0 <==> FirstEverywhere(lists, id))
            && IsLargest(f.vectorScore, lists, id, "vector") && IsLargest(f.keywordScore, lists, id, "keyword")
            && AreBranches((set b | b in f.matchedBy), lists, id)
            && InBranchOrder(f.matchedBy, (set b | b in f.matchedBy))
  {
    hide CandidateOf, TallyOf, ActiveCount, Emitted, Normalised, RankSum, Filled, IsFirst, IsLargest, AreBranches,
      InBranchOrder, FirstEverywhere, Describes, Ranked;
    var f, id, k := result[i], ids[i], EffectiveK(rrfK);
    assert IsFusedChunk(lists, rrfK, id, f);
    var c := CandidateOf(lists, id, k).value;
    CandidateFacts(lists, id, k);
    CandidateExactly(lists, id, k);
    DescribedBy(c, lists, id);
    ScoreExactly(lists, id, k);
    EmittedParts(f, c, ActiveCount(lists), k);
    ActiveExactly(lists, []);
    NormalisedScoreInRange(lists, id, k);
    NormalisedExactly(c.tally.score, ActiveCount(lists), k);
    FullScoreExactly(lists, id, k);
  }

  lemma {:induction false} DescribedBy(c: Candidate, lists: seq<Ranking>, id: string)
    requires Describes(c, lists, id)
    ensures IsFirst(c.document, lists, id) && AreBranches(c.branches, lists, id)
    ensures IsLargest(c.vectorScore, lists, id, "vector") && IsLargest(c.keywordScore, lists, id, "keyword")
  {
    hide IsFirst, AreBranches, IsLargest;
  }

  lemma {:induction false} EmittedParts(f: Fused, c: Candidate, active: nat, k: int)
    requires active > 0 && k > 0 && Emitted(f, c, active, k)
    ensures f.document == c.document && f.rrfScore == c.tally.score
    ensures f.score == ClampScore(Normalised(c.tally.score, active, k))
    ensures f.vectorScore == c.vectorScore && f.keywordScore == c.keywordScore
    ensures (set b | b in f.matchedBy) == c.branches && InBranchOrder(f.matchedBy, c.branches)
  {
    assert forall b :: b in f.matchedBy <==> b in c.branches;
  }
}
