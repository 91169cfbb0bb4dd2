/** internal/rag/rrf.go: reciprocal rank fusion, with exact scores. */
module Fusion {
  import opened Optional

  datatype Document = Document(chunkID: string, content: string, matchedBy: seq<string>, score: Option<real>)

  /** A ranked list; nil entries keep their rank. */
  type Ranking = seq<Option<Document>>

  function IdOf(d: Option<Document>): string {
    if d.Some? then d.value.chunkID else ""
  }

  /** Where id first occurs; |list| if nowhere. */
  function FirstIndex(list: Ranking, id: string): (i: nat)
    ensures i <= |list|
    ensures i < |list| ==> IdOf(list[i]) == id
    ensures forall j :: 0 <= j < i ==> IdOf(list[j]) != id
  {
    if list == [] || IdOf(list[0]) == id then 0 else 1 + FirstIndex(list[1..], id)
  }

  predicate Appears(list: Ranking, id: string) {
    id != "" && FirstIndex(list, id) < |list|
  }

  // What the lists say about one chunk ------------------------------------------------

  /** best is 0 for a chunk in no list. */
  datatype Tally = Tally(score: real, hits: nat, best: nat)

  const NO_HIT := Tally(0.0, 0, 0)

  function Reciprocal(n: int): (r: real)
    requires n > 0
    ensures r > 0.0
  {
    1.0 / (n as real)
  }

  function Contribution(list: Ranking, id: string, k: int): Tally
    requires k > 0
  {
    if Appears(list, id) then
      var rank := FirstIndex(list, id) + 1;
      Tally(Reciprocal(k + rank), 1, rank)
    else NO_HIT
  }

  function Combine(a: Tally, b: Tally): Tally {
    Tally(a.score + b.score, a.hits + b.hits,
          if a.best == 0 || (b.best != 0 && b.best < a.best) then b.best else a.best)
  }

  function TallyOf(lists: seq<Ranking>, id: string, k: int): Tally
    requires k > 0
  {
    if lists == [] then NO_HIT
    else Combine(TallyOf(lists[..|lists| - 1], id, k), Contribution(lists[|lists| - 1], id, k))
  }

  lemma {:induction false} TallySnoc(lists: seq<Ranking>, list: Ranking, id: string, k: int)
    requires k > 0
    ensures TallyOf([], id, k) == NO_HIT
    ensures TallyOf(lists + [list], id, k) == Combine(TallyOf(lists, id, k), Contribution(list, id, k))
  {
    hide Contribution, Combine;
    assert (lists + [list])[..|lists|] == lists;
  }

  lemma {:induction false} Unsnoc(lists: seq<Ranking>)
    requires lists != []
    ensures lists == lists[..|lists| - 1] + [lists[|lists| - 1]]
  {
  }

  lemma {:induction false} TallyConcat(a: seq<Ranking>, b: seq<Ranking>, id: string, k: int)
    requires k > 0
    ensures TallyOf(a + b, id, k) == Combine(TallyOf(a, id, k), TallyOf(b, id, k))
    decreases |b|
  {
    hide Contribution, TallyOf;
    if b == [] {
      assert a + b == a;
      TallySnoc([], [], id, k);
    } else {
      var n := |b| - 1;
      assert a + b == (a + b[..n]) + [b[n]] && b == b[..n] + [b[n]];
      TallyConcat(a, b[..n], id, k);
      TallySnoc(a + b[..n], b[n], id, k);
      TallySnoc(b[..n], b[n], id, k);
    }
  }

  lemma {:induction false} MoveToEnd(left: seq<Ranking>, x: Ranking, right: seq<Ranking>, id: string, k: int)
    requires k > 0
    ensures TallyOf(left + [x] + right, id, k) == TallyOf(left + right + [x], id, k)
  {
    hide Contribution, TallyOf;
    TallyConcat(left, right, id, k);
    TallySnoc(left, x, id, k);
    TallyConcat(left + [x], right, id, k);
    TallySnoc(left + right, x, id, k);
  }

  /** The last list of a taken out of a permutation b. */
  lemma {:induction false} TakeOut<T>(a: seq<T>, b: seq<T>) returns (left: seq<T>, right: seq<T>)
    requires multiset(a) == multiset(b) && a != []
    ensures b == left + [a[|a| - 1]] + right && multiset(a[..|a| - 1]) == multiset(left + right)
  {
    var n := |a| - 1;
    var x := a[n];
    assert a == a[..n] + [x];
    assert x in multiset(b);
    var i :| 0 <= i < |b| && b[i] == x;
    left, right := b[..i], b[i + 1..];
    assert b == left + [x] + right;
    assert multiset(a) == multiset(a[..n]) + multiset{x};
    assert multiset(b) == multiset(left) + multiset{x} + multiset(right);
    assert multiset(left + right) == multiset(left) + multiset(right);
    assert multiset(a[..n]) == multiset(a) - multiset{x} == multiset(b) - multiset{x} == multiset(left + right);
  }

  /** The tally does not depend on the order of the lists. */
  lemma {:induction false} TallyOfPermuted(a: seq<Ranking>, b: seq<Ranking>, id: string, k: int)
    requires k > 0 && multiset(a) == multiset(b)
    ensures TallyOf(a, id, k) == TallyOf(b, id, k)
    decreases |a|
  {
    hide Contribution, TallyOf, Combine;
    assert |multiset(a)| == |a| && |multiset(b)| == |b|;
    if a == [] {
      assert b == [];
    } else {
      var x := a[|a| - 1];
      var left, right := TakeOut(a, b);
      Unsnoc(a);
      TallyOfPermuted(a[..|a| - 1], left + right, id, k);
      TallySnoc(a[..|a| - 1], x, id, k);
      TallySnoc(left + right, x, id, k);
      MoveToEnd(left, x, right, id, k);
    }
  }

  predicate InSome(lists: seq<Ranking>, id: string) {
    exists i :: 0 <= i < |lists| && Appears(lists[i], id)
  }

  lemma {:induction false} InSomeSnoc(lists: seq<Ranking>, list: Ranking, id: string)
    ensures !InSome([], id)
    ensures InSome(lists + [list], id) <==> InSome(lists, id) || Appears(list, id)
  {
    hide Appears;
    var all := lists + [list];
    assert all[|lists|] == list;
    assert forall i :: 0 <= i < |lists| ==> all[i] == lists[i];
  }

  lemma {:induction false} TallyFacts(lists: seq<Ranking>, id: string, k: int)
    requires k > 0
    ensures var t := TallyOf(lists, id, k);
            && (t.hits > 0 <==> InSome(lists, id))
            && (t.hits > 0 ==> t.score > 0.0 && id != "" && t.best > 0)
            && (t.hits == 0 ==> t == NO_HIT)
  {
    hide TallyOf, Contribution, Appears, Reciprocal, InSome;
    if lists == [] {
      TallySnoc([], [], id, k);
      InSomeSnoc([], [], id);
    } else {
      var n := |lists| - 1;
      Unsnoc(lists);
      TallyFacts(lists[..n], id, k);
      TallySnoc(lists[..n], lists[n], id, k);
      InSomeSnoc(lists[..n], lists[n], id);
      ContributionHits(lists[n], id, k);
    }
  }

  lemma {:induction false} ContributionHits(list: Ranking, id: string, k: int)
    requires k > 0
    ensures !Appears(list, id) ==> Contribution(list, id, k) == NO_HIT
    ensures Appears(list, id) ==>
              var rank := FirstIndex(list, id) + 1;
              id != "" && Contribution(list, id, k) == Tally(Reciprocal(k + rank), 1, rank)
  {
    hide Reciprocal;
  }

  // Scores ------------------------------------------------------------------------

  predicate Active(list: Ranking) {
    exists i :: 0 <= i < |list| && IdOf(list[i]) != ""
  }

  function ActiveCount(lists: seq<Ranking>): nat {
    if lists == [] then 0 else ActiveCount(lists[..|lists| - 1]) + if Active(lists[|lists| - 1]) then 1 else 0
  }

  function ClampScore(score: real): real {
    if score < 0.0 then 0.0 else if score > 1.0 then 1.0 else score
  }

  function Normalised(score: real, active: nat, k: int): real
    requires active > 0 && k > 0
  {
    score / (active as real / (k + 1) as real)
  }

  lemma {:induction false} ReciprocalAntitone(a: int, b: int)
    requires 0 < a <= b
    ensures Reciprocal(b) <= Reciprocal(a)
    ensures a < b ==> Reciprocal(b) < Reciprocal(a)
  {
    var x, y := a as real, b as real;
    assert 1.0 / x - 1.0 / y == (y - x) / (x * y);
  }

  /** The most that n lists can give one chunk. */
  function Share(n: nat, k: int): real
    requires k > 0
  {
    (n as real) * Reciprocal(k + 1)
  }

  lemma {:induction false} ShareStep(n: nat, k: int)
    requires k > 0
    ensures Share(0, k) == 0.0 && Share(n + 1, k) == Share(n, k) + Reciprocal(k + 1)
  {
    hide Reciprocal;
  }

  lemma {:induction false} ActiveSnoc(lists: seq<Ranking>, list: Ranking)
    ensures ActiveCount([]) == 0
    ensures ActiveCount(lists + [list]) == ActiveCount(lists) + if Active(list) then 1 else 0
  {
    hide Active;
    assert (lists + [list])[..|lists|] == lists;
  }

  lemma {:induction false} ScoreBound(lists: seq<Ranking>, id: string, k: int)
    requires k > 0
    ensures 0.0 <= TallyOf(lists, id, k).score <= Share(ActiveCount(lists), k)
  {
    hide TallyOf, Contribution, Reciprocal, Appears, Active, Share, ActiveCount;
    ShareStep(0, k);
    ActiveSnoc([], []);
    if lists == [] {
      TallySnoc([], [], id, k);
    } else {
      var n := |lists| - 1;
      var list := lists[n];
      Unsnoc(lists);
      ScoreBound(lists[..n], id, k);
      TallySnoc(lists[..n], list, id, k);
      ContributionHits(list, id, k);
      ActiveSnoc(lists[..n], list);
      ShareStep(ActiveCount(lists[..n]), k);
      if Appears(list, id) {
        ReciprocalAntitone(k + 1, k + FirstIndex(list, id) + 1);
        HitIsActive(list, id);
      }
    }
  }

  lemma {:induction false} HitIsActive(list: Ranking, id: string)
    requires Appears(list, id)
    ensures Active(list)
  {
    assert IdOf(list[FirstIndex(list, id)]) != "";
  }

  /** A candidate's normalised score lies in (0, 1], so clampScore never changes it. */
  lemma {:induction false} NormalisedScoreInRange(lists: seq<Ranking>, id: string, k: int)
    requires k > 0 && TallyOf(lists, id, k).hits > 0
    ensures ActiveCount(lists) > 0
    ensures var s := Normalised(TallyOf(lists, id, k).score, ActiveCount(lists), k);
            0.0 < s <= 1.0 && ClampScore(s) == s
  {
    hide TallyOf, ActiveCount, Share, Normalised;
    TallyFacts(lists, id, k);
    ScoreBound(lists, id, k);
    NormalisedRange(TallyOf(lists, id, k).score, ActiveCount(lists), k);
  }

  lemma {:induction false} NormalisedRange(score: real, active: nat, k: int)
    requires k > 0 && 0.0 < score <= Share(active, k)
    ensures active > 0 && 0.0 < Normalised(score, active, k) <= 1.0
  {
    var kk := (k + 1) as real;
    ShareStep(0, k);
    var top := active as real / kk;
    assert (active as real) * (1.0 / kk) == top;
    Ratio(score, top);
  }

  lemma {:induction false} Ratio(a: real, b: real)
    requires 0.0 < a <= b
    ensures 0.0 < a / b <= 1.0
  {
  }

  // The four-key order ----------------------------------------------------------------

  /** Go's < on strings. */
  predicate Less(s: string, t: string) {
    t != "" && (s == "" || s[0] < t[0] || (s[0] == t[0] && Less(s[1..], t[1..])))
  }

  lemma {:induction false} LessTotal(s: string, t: string)
    ensures !(Less(s, t) && Less(t, s))
    ensures s != t ==> Less(s, t) || Less(t, s)
  {
    if s != "" && t != "" && s[0] == t[0] {
      LessTotal(s[1..], t[1..]);
      assert s == [s[0]] + s[1..] && t == [t[0]] + t[1..];
    }
  }

  lemma {:induction false} LessTransitive(s: string, t: string, u: string)
    requires Less(s, t) && Less(t, u)
    ensures Less(s, u)
  {
    if s != "" && s[0] == t[0] && t[0] == u[0] {
      LessTransitive(s[1..], t[1..], u[1..]);
    }
  }

  datatype Key = Key(tally: Tally, id: string)

  predicate Before(a: Key, b: Key) {
    if a.tally.score != b.tally.score then a.tally.score > b.tally.score
    else if a.tally.hits != b.tally.hits then a.tally.hits > b.tally.hits
    else if a.tally.best != b.tally.best then a.tally.best < b.tally.best
    else Less(a.id, b.id)
  }

  /** On chunks with different ids the comparison is a strict total order. */
  lemma {:induction false} BeforeIsStrictTotalOrder(a: Key, b: Key, c: Key)
    ensures !(Before(a, b) && Before(b, a))
    ensures a.id != b.id ==> Before(a, b) || Before(b, a)
    ensures Before(a, b) && Before(b, c) ==> Before(a, c)
  {
    LessTotal(a.id, b.id);
    if Less(a.id, b.id) && Less(b.id, c.id) {
      LessTransitive(a.id, b.id, c.id);
    }
  }

  function KeyOf(lists: seq<Ranking>, k: int, id: string): Key
    requires k > 0
  {
    Key(TallyOf(lists, id, k), id)
  }

  /** ids are exactly the chunks of the lists, each once, best first. */
  ghost predicate Ranked(lists: seq<Ranking>, k: int, ids: seq<string>)
    requires k > 0
  {
    && (forall id :: id in ids <==> TallyOf(lists, id, k).hits > 0)
    && (forall i, j :: 0 <= i < j < |ids| ==>
        ids[i] != ids[j] && Before(KeyOf(lists, k, ids[i]), KeyOf(lists, k, ids[j])))
  }

  lemma {:induction false} SomeElement(s: seq<string>)
    ensures s == [] || exists id :: id in s
  {
    if s != [] {
      assert s[0] in s;
    }
  }

  /** Each element precedes the later ones. */
  ghost predicate InKeyOrder(a: seq<string>, key: string -> Key) {
    forall i, j :: 0 <= i < j < |a| ==> a[i] != a[j] && Before(key(a[i]), key(a[j]))
  }

  lemma {:induction false} FirstInKeyOrder(a: seq<string>, key: string -> Key, id: string)
    requires InKeyOrder(a, key) && id in a && id != a[0]
    ensures Before(key(a[0]), key(id))
  {
    var i :| 0 <= i < |a| && a[i] == id;
  }

  lemma {:induction false} RestInKeyOrder(a: seq<string>, key: string -> Key)
    requires a != [] && InKeyOrder(a, key)
    ensures InKeyOrder(a[1..], key) && forall id :: id in a[1..] <==> id in a && id != a[0]
  {
    hide Before;
    var x := a[1..];
    assert forall m :: 0 <= m < |x| ==> x[m] == a[m + 1];
    forall id
      ensures id in x <==> id in a && id != a[0]
    {
      if id in a && id != a[0] {
        var i :| 0 <= i < |a| && a[i] == id;
        assert x[i - 1] == id;
      }
    }
  }

  lemma {:induction false} SortedSame(a: seq<string>, b: seq<string>, key: string -> Key)
    requires forall id :: id in a <==> id in b
    requires InKeyOrder(a, key) && InKeyOrder(b, key)
    ensures a == b
    decreases |a|
  {
    hide Before, InKeyOrder;
    if a == [] {
      SomeElement(b);
    } else {
      assert a[0] in b;
      assert b[0] in b && b[0] in a;
      if a[0] != b[0] {
        FirstInKeyOrder(a, key, b[0]);
        FirstInKeyOrder(b, key, a[0]);
        BeforeIsStrictTotalOrder(key(a[0]), key(b[0]), key(b[0]));
      }
      RestInKeyOrder(a, key);
      RestInKeyOrder(b, key);
      SortedSame(a[1..], b[1..], key);
      assert a == [a[0]] + a[1..] && b == [b[0]] + b[1..];
    }
  }

  /** Only one ranking is possible, whatever the iteration order of the candidate map. */
  lemma {:induction false} RankingIsUnique(lists: seq<Ranking>, k: int, a: seq<string>, b: seq<string>)
    requires k > 0 && Ranked(lists, k, a) && Ranked(lists, k, b)
    ensures a == b
  {
    SortedSame(a, b, id => KeyOf(lists, k, id));
  }

  /** Permuting the input lists leaves the ranking unchanged. */
  lemma {:induction false} RankingIgnoresListOrder(lists: seq<Ranking>, permuted: seq<Ranking>, k: int,
      ids: seq<string>)
    requires k > 0 && multiset(lists) == multiset(permuted) && Ranked(lists, k, ids)
    ensures Ranked(permuted, k, ids)
  {
    forall id
      ensures TallyOf(lists, id, k) == TallyOf(permuted, id, k)
    {
      TallyOfPermuted(lists, permuted, id, k);
    }
  }

  /** In every list that has b, a comes earlier. */
  predicate Outranks(lists: seq<Ranking>, a: string, b: string) {
    forall i :: 0 <= i < |lists| && Appears(lists[i], b) ==>
      Appears(lists[i], a) && FirstIndex(lists[i], a) < FirstIndex(lists[i], b)
  }

  lemma {:induction false} OutranksScores(lists: seq<Ranking>, k: int, a: string, b: string)
    requires k > 0 && Outranks(lists, a, b)
    ensures TallyOf(lists, a, k).score >= TallyOf(lists, b, k).score
    ensures TallyOf(lists, b, k).hits > 0 ==>
        TallyOf(lists, a, k).score > TallyOf(lists, b, k).score && TallyOf(lists, a, k).hits > 0
  {
    hide TallyOf, Contribution, Reciprocal, Appears;
    if lists == [] {
      TallySnoc([], [], a, k);
      TallySnoc([], [], b, k);
    } else {
      var n := |lists| - 1;
      var list := lists[n];
      Unsnoc(lists);
      assert forall i :: 0 <= i < n ==> lists[..n][i] == lists[i];
      OutranksScores(lists[..n], k, a, b);
      TallySnoc(lists[..n], list, a, k);
      TallySnoc(lists[..n], list, b, k);
      ContributionHits(list, a, k);
      ContributionHits(list, b, k);
      if Appears(list, b) {
        ReciprocalAntitone(k + FirstIndex(list, a) + 1, k + FirstIndex(list, b) + 1);
      }
    }
  }

  /** A chunk that outranks another wherever the other appears precedes it in the result. */
  lemma {:induction false} OutranksPrecedes(lists: seq<Ranking>, k: int, ids: seq<string>, a: string, b: string)
    requires k > 0 && Ranked(lists, k, ids) && Outranks(lists, a, b) && b in ids
    ensures exists i, j :: 0 <= i < j < |ids| && ids[i] == a && ids[j] == b
  {
    hide TallyOf;
    OutranksScores(lists, k, a, b);
    assert a in ids;
    var i :| 0 <= i < |ids| && ids[i] == a;
    var j :| 0 <= j < |ids| && ids[j] == b;
    assert j < i ==> Before(KeyOf(lists, k, ids[j]), KeyOf(lists, k, ids[i]));
    assert i < j;
  }

  // The code as written --------------------------------------------------------------------

  datatype Candidate = Candidate(document: Document, tally: Tally, vectorScore: Option<real>,
                                 keywordScore: Option<real>, branches: set<string>)

  function LargerScore(current: Option<real>, score: real): (r: Option<real>)
    ensures r.Some? && r.value >= score && (current.Some? ==> r.value >= current.value)
        && (r == current || r.value == score)
  {
    if current.None? || score > current.value then Some(score) else current
  }

  function CollectScores(c: Candidate, d: Document): Candidate {
    var vector := if "vector" in d.matchedBy && d.score.Some? then LargerScore(c.vectorScore, d.score.value)
        else c.vectorScore;
    var keyword := if "keyword" in d.matchedBy && d.score.Some? then LargerScore(c.keywordScore, d.score.value)
        else c.keywordScore;
    c.(vectorScore := vector, keywordScore := keyword, branches := c.branches + set b | b in d.matchedBy)
  }

  function NewCandidate(d: Document): Candidate {
    Candidate(d, NO_HIT, None, None, {})
  }

  /** The candidate entry of id once the lists have been read: its first document, its tally, its branch scores. */
  function CandidateOf(lists: seq<Ranking>, id: string, k: int): (c: Option<Candidate>)
    requires k > 0
  {
    if lists == [] then None
    else
      var before, list := CandidateOf(lists[..|lists| - 1], id, k), lists[|lists| - 1];
      if !Appears(list, id) then before
      else
        var d := list[FirstIndex(list, id)].value;
        var c := if before.Some? then before.value else NewCandidate(d);
        Some(CollectScores(c.(tally := Combine(c.tally, Contribution(list, id, k))), d))
  }

  lemma {:induction false} CandidateFacts(lists: seq<Ranking>, id: string, k: int)
    requires k > 0
    ensures var c := CandidateOf(lists, id, k);
            && (c.Some? <==> TallyOf(lists, id, k).hits > 0)
            && (c.Some? ==> c.value.tally == TallyOf(lists, id, k) && c.value.document.chunkID == id)
  {
    hide Contribution, CollectScores, TallyOf, Appears, Combine;
    if lists == [] {
      TallySnoc([], [], id, k);
    } else {
      var n := |lists| - 1;
      var list := lists[n];
      Unsnoc(lists);
      CandidateFacts(lists[..n], id, k);
      TallyFacts(lists[..n], id, k);
      TallySnoc(lists[..n], list, id, k);
      ContributionHits(list, id, k);
      CombineHits(TallyOf(lists[..n], id, k), Contribution(list, id, k));
      if Appears(list, id) {
        AppearsAt(list, id);
        var before, d := CandidateOf(lists[..n], id, k), list[FirstIndex(list, id)].value;
        var c := if before.Some? then before.value else NewCandidate(d);
        CollectKeeps(c.(tally := Combine(c.tally, Contribution(list, id, k))), d);
      }
    }
  }

  lemma {:induction false} AppearsAt(list: Ranking, id: string)
    requires Appears(list, id)
    ensures var i := FirstIndex(list, id); i < |list| && list[i].Some? && list[i].value.chunkID == id
  {
  }

  lemma {:induction false} CombineHits(a: Tally, b: Tally)
    ensures Combine(a, b).hits == a.hits + b.hits
    ensures Combine(a, NO_HIT) == a
  {
  }

  lemma {:induction false} CollectKeeps(c: Candidate, d: Document)
    ensures CollectScores(c, d).tally == c.tally && CollectScores(c, d).document == c.document
  {
  }

  /** The map built so far holds the candidates of the lists, and only those. */
  ghost predicate Collected(candidates: map<string, Candidate>, lists: seq<Ranking>, k: int)
    requires k > 0
  {
    forall id :: (if id in candidates then Some(candidates[id]) else None) == CandidateOf(lists, id, k)
  }

  lemma {:induction false} CandidateSnoc(done: seq<Ranking>, list: Ranking, id: string, k: int)
    requires k > 0
    ensures var before, after := CandidateOf(done, id, k), CandidateOf(done + [list], id, k);
            if !Appears(list, id) then after == before
            else
              var d := list[FirstIndex(list, id)].value;
              var c := if before.Some? then before.value else NewCandidate(d);
              after == Some(CollectScores(c.(tally := Combine(c.tally, Contribution(list, id, k))), d))
  {
    hide CollectScores, Combine, Contribution, NewCandidate;
    assert (done + [list])[..|done|] == done;
  }

  lemma {:induction false} NextEntry(done: seq<Ranking>, list: Ranking, j: nat, id: string, k: int)
    requires k > 0 && j < |list|
    ensures var before, after := CandidateOf(done + [list[..j]], id, k), CandidateOf(done + [list[..j + 1]], id, k);
            if id != "" && id == IdOf(list[j]) && !Appears(list[..j], id) then
              var c := if before.Some? then before.value else NewCandidate(list[j].value);
              && before == CandidateOf(done, id, k)
              && after == Some(CollectScores(c.(tally := Combine(c.tally, Tally(Reciprocal(k + (j + 1)), 1, j + 1))),
                                             list[j].value))
            else after == before
  {
    hide CollectScores, Combine, Reciprocal, NewCandidate, CandidateOf;
    CandidateSnoc(done, list[..j], id, k);
    CandidateSnoc(done, list[..j + 1], id, k);
    PrefixIndex(list, j, id);
  }

  lemma {:induction false} PrefixIndex(list: Ranking, j: nat, id: string)
    requires j < |list|
    ensures FirstIndex(list[..j + 1], id) == if FirstIndex(list[..j], id) < j then FirstIndex(list[..j], id)
        else if IdOf(list[j]) == id then j else j + 1
  {
    var short, long := list[..j], list[..j + 1];
    assert forall i :: 0 <= i < j ==> short[i] == long[i];
    var a, b := FirstIndex(short, id), FirstIndex(long, id);
    assert b < |long| ==> IdOf(long[b]) == id;
    assert a < |short| ==> IdOf(short[a]) == id;
  }

  /** What one more entry of the list changes: at most its own chunk, and that only when it stood nowhere before. */
  lemma {:induction false} OneMoreEntry(done: seq<Ranking>, list: Ranking, index: nat, k: int)
    requires k > 0 && index < |list|
    ensures var chunkID := IdOf(list[index]);
            && (forall id :: Appears(list[..index + 1], id) <==> Appears(list[..index], id) || (id == chunkID != ""))
            && forall id :: (id == chunkID != "" && !Appears(list[..index], id))
                 || CandidateOf(done + [list[..index + 1]], id, k) == CandidateOf(done + [list[..index]], id, k)
  {
    hide CollectScores, Combine, CandidateOf, FirstIndex;
    var chunkID := IdOf(list[index]);
    forall id
      ensures Appears(list[..index + 1], id) <==> Appears(list[..index], id) || (id == chunkID != "")
    {
      PrefixIndex(list, index, id);
    }
    forall id
      ensures (id == chunkID != "" && !Appears(list[..index], id))
           || CandidateOf(done + [list[..index + 1]], id, k) == CandidateOf(done + [list[..index]], id, k)
    {
      NextEntry(done, list, index, id, k);
    }
  }

  method ReadList(candidates: map<string, Candidate>, ghost done: seq<Ranking>, list: Ranking, k: int)
    returns (updated: map<string, Candidate>, listActive: bool)
    requires k > 0 && Collected(candidates, done, k)
    ensures Collected(updated, done + [list], k) && listActive == Active(list)
  {
    hide CollectScores, Combine, CandidateOf, FirstIndex;
    updated := candidates;
    var seen: set<string> := {};
    listActive := false;
    EmptyList(done, k);
    assert list[..0] == [];
    for index := 0 to |list|
      invariant Collected(updated, done + [list[..index]], k)
      invariant forall id :: id in seen <==> Appears(list[..index], id)
      invariant listActive <==> exists i :: 0 <= i < index && IdOf(list[i]) != ""
    {
      var chunkID := IdOf(list[index]);
      ghost var before := updated;
      OneMoreEntry(done, list, index, k);
      NextEntry(done, list, index, chunkID, k);
      if chunkID == "" || chunkID in seen {
        assert chunkID != "" ==> exists i :: 0 <= i < index && IdOf(list[i]) != "" by {
          if chunkID != "" {
            var i := FirstIndex(list[..index], chunkID);
            assert IdOf(list[i]) == chunkID;
          }
        }
        continue;
      }
      seen := seen + {chunkID};
      listActive := true;
      var document := list[index].value;
      var candidate := if chunkID in updated then updated[chunkID] else NewCandidate(document);
      var rank := index + 1;
      candidate := candidate.(tally := Combine(candidate.tally, Tally(Reciprocal(k + rank), 1, rank)));
      candidate := CollectScores(candidate, document);
      updated := updated[chunkID := candidate];
    }
    assert list[..|list|] == list;
  }

  lemma {:induction false} EmptyList(done: seq<Ranking>, k: int)
    requires k > 0
    ensures forall id :: CandidateOf(done + [[]], id, k) == CandidateOf(done, id, k)
    ensures forall id :: !Appears([], id)
  {
    assert (done + [[]])[..|done|] == done;
  }

  // sort.SliceStable with the comparison above

  function Insert(c: Candidate, s: seq<Candidate>): seq<Candidate> {
    if s == [] || Before(Key(c.tally, c.document.chunkID), Key(s[0].tally, s[0].document.chunkID)) then [c] + s
    else [s[0]] + Insert(c, s[1..])
  }

  function Sort(s: seq<Candidate>): seq<Candidate> {
    if s == [] then [] else Insert(s[|s| - 1], Sort(s[..|s| - 1]))
  }

  function CandidateKey(c: Candidate): Key { Key(c.tally, c.document.chunkID) }

  predicate SortedBy(s: seq<Candidate>) {
    forall i, j :: 0 <= i < j < |s| ==>
        s[i].document.chunkID != s[j].document.chunkID && Before(CandidateKey(s[i]), CandidateKey(s[j]))
  }

  lemma {:induction false} InsertSorts(c: Candidate, s: seq<Candidate>)
    requires SortedBy(s) && forall i :: 0 <= i < |s| ==> s[i].document.chunkID != c.document.chunkID
    ensures SortedBy(Insert(c, s))
    ensures forall x :: x in Insert(c, s) <==> x == c || x in s
  {
    hide Before;
    if s != [] {
      BeforeIsStrictTotalOrder(CandidateKey(c), CandidateKey(s[0]), CandidateKey(c));
      if Before(CandidateKey(c), CandidateKey(s[0])) {
        forall i | 0 <= i < |s|
          ensures Before(CandidateKey(c), CandidateKey(s[i]))
        {
          BeforeIsStrictTotalOrder(CandidateKey(c), CandidateKey(s[0]), CandidateKey(s[i]));
        }
      } else {
        InsertSorts(c, s[1..]);
        var rest := Insert(c, s[1..]);
        assert forall x :: x in s[1..] ==>
            Before(CandidateKey(s[0]), CandidateKey(x)) && x.document.chunkID != s[0].document.chunkID;
        assert forall i :: 0 <= i < |rest| ==> rest[i] in rest;
      }
    }
  }

  lemma {:induction false} SortSorts(s: seq<Candidate>)
    requires forall i, j :: 0 <= i < j < |s| ==> s[i].document.chunkID != s[j].document.chunkID
    ensures SortedBy(Sort(s))
    ensures forall x :: x in Sort(s) <==> x in s
  {
    if s != [] {
      var n := |s| - 1;
      SortSorts(s[..n]);
      var rest := Sort(s[..n]);
      assert forall i :: 0 <= i < |rest| ==> rest[i] in rest;
      InsertSorts(s[n], rest);
      assert s == s[..n] + [s[n]];
    }
  }

  /** An element of the fused list: the document with the stage scores the source writes into its metadata. */
  datatype Fused = Fused(document: Document, rrfScore: real, score: real, vectorScore: Option<real>,
                         keywordScore: Option<real>,
    matchedBy: seq<string>)

  function EffectiveK(rrfK: int): (k: int)
    ensures k > 0 && (rrfK > 0 ==> k == rrfK) && (rrfK <= 0 ==> k == 60)
  {
    if rrfK <= 0 then 60 else rrfK
  }

  function Limited<T>(s: seq<T>, limit: int): (r: seq<T>)
    ensures r <= s && |r| == if limit > 0 && |s| > limit then limit else |s|
  {
    if limit > 0 && |s| > limit then s[..limit] else s
  }

  // Branch names in a fixed order -----------------------------------------------------------

  /** "vector", then "keyword", then the others by name. */
  function BranchKey(branch: string): Key {
    Key(Tally(0.0, 0, if branch == "vector" then 0 else if branch == "keyword" then 1 else 2), branch)
  }

  predicate Ascending(r: seq<string>) {
    forall i, j :: 0 <= i < j < |r| ==> BranchBefore(r[i], r[j])
  }

  /** Exactly these branches, each once, in order. */
  ghost predicate InBranchOrder(r: seq<string>, branches: set<string>) {
    Ascending(r) && forall b :: b in r <==> b in branches
  }

  /** Only one order is possible, however the set of branches is enumerated. */
  lemma {:induction false} BranchOrderIsUnique(a: seq<string>, b: seq<string>, branches: set<string>)
    requires InBranchOrder(a, branches) && InBranchOrder(b, branches)
    ensures a == b
  {
    hide BranchKey;
    SortedSame(a, b, branch => BranchKey(branch));
  }

  function InsertBranch(b: string, s: seq<string>): seq<string> {
    if s == [] || BranchBefore(b, s[0]) then [b] + s else [s[0]] + InsertBranch(b, s[1..])
  }

  predicate BranchBefore(a: string, b: string) {
    a != b && Before(BranchKey(a), BranchKey(b))
  }

  lemma {:induction false} BranchBeforeFacts(a: string, b: string, c: string)
    ensures a != b ==> BranchBefore(a, b) || BranchBefore(b, a)
    ensures BranchBefore(a, b) && BranchBefore(b, c) ==> BranchBefore(a, c)
  {
    hide Before;
    BeforeIsStrictTotalOrder(BranchKey(a), BranchKey(b), BranchKey(c));
    BeforeIsStrictTotalOrder(BranchKey(a), BranchKey(b), BranchKey(a));
    BranchIds(a, b);
  }

  lemma {:induction false} ConsAscends(a: string, s: seq<string>)
    requires Ascending(s) && forall x :: x in s ==> BranchBefore(a, x)
    ensures Ascending([a] + s)
  {
    hide BranchBefore;
    assert forall i :: 0 <= i < |s| ==> s[i] in s;
  }

  lemma {:induction false} HeadIsFirst(s: seq<string>)
    requires Ascending(s) && s != []
    ensures Ascending(s[1..]) && forall x :: x in s[1..] ==> BranchBefore(s[0], x)
  {
    hide BranchBefore;
    forall x | x in s[1..]
      ensures BranchBefore(s[0], x)
    {
      var i :| 0 <= i < |s[1..]| && s[1..][i] == x;
      assert s[i + 1] == x;
    }
  }

  lemma {:induction false} InsertBranchSorts(b: string, s: seq<string>)
    requires Ascending(s) && b !in s
    ensures Ascending(InsertBranch(b, s)) && forall x :: x in InsertBranch(b, s) <==> x == b || x in s
  {
    hide BranchBefore, Ascending;
    if s == [] {
      ConsAscends(b, s);
      assert InsertBranch(b, s) == [b] + s;
    } else {
      HeadIsFirst(s);
      assert s == [s[0]] + s[1..];
      BranchBeforeFacts(b, s[0], b);
      if BranchBefore(b, s[0]) {
        forall x | x in s
          ensures BranchBefore(b, x)
        {
          BranchBeforeFacts(b, s[0], x);
        }
        ConsAscends(b, s);
      } else {
        InsertBranchSorts(b, s[1..]);
        ConsAscends(s[0], InsertBranch(b, s[1..]));
      }
    }
  }

  lemma {:induction false} BranchIds(a: string, b: string)
    ensures BranchKey(a).id == a && BranchKey(b).id == b
  {
  }

  /** The two known branches, then the rest of the set, taken out in any order and sorted. */
  method OrderedBranches(branches: set<string>) returns (result: seq<string>)
    ensures InBranchOrder(result, branches)
  {
    hide Before, InsertBranch;
    result := [];
    if "vector" in branches {
      result := result + ["vector"];
    }
    if "keyword" in branches {
      result := result + ["keyword"];
    }
    var left, rest: seq<string> := branches - {"vector", "keyword"}, [];
    ghost var others := left;
    while left != {}
      invariant left <= others && Ascending(rest) && forall b :: b in rest <==> b in others - left
      decreases left
    {
      var b :| b in left;
      left := left - {b};
      InsertBranchSorts(b, rest);
      rest := InsertBranch(b, rest);
    }
    assert result == Known("vector" in branches, "keyword" in branches);
    KnownBranchesFirst("vector" in branches, "keyword" in branches, rest);
    result := result + rest;
  }

  function Known(vector: bool, keyword: bool): seq<string> {
    (if vector then ["vector"] else []) + if keyword then ["keyword"] else []
  }

  lemma {:induction false} KnownBranchesFirst(vector: bool, keyword: bool, rest: seq<string>)
    requires Ascending(rest) && "vector" !in rest && "keyword" !in rest
    ensures var known := Known(vector, keyword);
            && Ascending(known + rest)
            && forall b :: b in known + rest <==> (vector && b == "vector") || (keyword && b == "keyword") || b in rest
  {
    var known := Known(vector, keyword);
    var r := known + rest;
    forall i, j | 0 <= i < j < |r|
      ensures BranchBefore(r[i], r[j])
    {
      if i < |known| <= j {
        assert r[j] in rest;
      }
    }
  }

  // Emission --------------------------------------------------------------------------------

  /** What the source writes into the metadata of a fused document. */
  ghost predicate Emitted(f: Fused, c: Candidate, active: nat, k: int)
    requires active > 0 && k > 0
  {
    && f.document == c.document && f.rrfScore == c.tally.score
    && f.score == ClampScore(Normalised(c.tally.score, active, k))
    && f.vectorScore == c.vectorScore && f.keywordScore == c.keywordScore && InBranchOrder(f.matchedBy, c.branches)
  }

  lemma {:induction false} EmittedOnce(f: Fused, g: Fused, c: Candidate, active: nat, k: int)
    requires active > 0 && k > 0 && Emitted(f, c, active, k) && Emitted(g, c, active, k)
    ensures f == g
  {
    hide Normalised, ClampScore, InBranchOrder;
    BranchOrderIsUnique(f.matchedBy, g.matchedBy, c.branches);
  }

  method EmitAll(cs: seq<Candidate>, active: nat, k: int) returns (r: seq<Fused>)
    requires active > 0 && k > 0
    ensures |r| == |cs| && forall i :: 0 <= i < |cs| ==> Emitted(r[i], cs[i], active, k)
  {
    hide InBranchOrder, Normalised, ClampScore;
    r := [];
    for i := 0 to |cs|
      invariant |r| == i && forall j :: 0 <= j < i ==> Emitted(r[j], cs[j], active, k)
    {
      var c := cs[i];
      var branches := OrderedBranches(c.branches);
      var score := ClampScore(Normalised(c.tally.score, active, k));
      r := r + [Fused(c.document, c.tally.score, score, c.vectorScore, c.keywordScore, branches)];
    }
  }

  method CollectAll(lists: seq<Ranking>, k: int) returns (candidates: map<string, Candidate>, activeListCount: nat)
    requires k > 0
    ensures Collected(candidates, lists, k) && activeListCount == ActiveCount(lists)
  {
    hide Collected, Active;
    candidates, activeListCount := map[], 0;
    NothingCollected(k);
    assert lists[..0] == [];
    for i := 0 to |lists|
      invariant Collected(candidates, lists[..i], k) && activeListCount == ActiveCount(lists[..i])
    {
      var listActive;
      candidates, listActive := ReadList(candidates, lists[..i], lists[i], k);
      assert lists[..i + 1] == lists[..i] + [lists[i]];
      assert lists[..i + 1][..i] == lists[..i];
      if listActive {
        activeListCount := activeListCount + 1;
      }
    }
    assert lists[..|lists|] == lists;
  }

  lemma {:induction false} CollectedFacts(candidates: map<string, Candidate>, lists: seq<Ranking>, k: int, id: string)
    requires k > 0 && Collected(candidates, lists, k)
    ensures id in candidates <==> TallyOf(lists, id, k).hits > 0
    ensures id in candidates ==> CandidateOf(lists, id, k) == Some(candidates[id])
    ensures id in candidates ==> CandidateKey(candidates[id]) == KeyOf(lists, k, id) && ActiveCount(lists) > 0
  {
    hide CandidateOf, TallyOf, ActiveCount;
    CandidateFacts(lists, id, k);
    if TallyOf(lists, id, k).hits > 0 {
      NormalisedScoreInRange(lists, id, k);
    }
  }

  method Order(candidates: map<string, Candidate>, ghost lists: seq<Ranking>,
      ghost k: int) returns (ordered: seq<Candidate>, ghost ids: seq<string>)
    requires k > 0 && Collected(candidates, lists, k)
    ensures Ranked(lists, k, ids) && |ids| == |ordered|
    ensures forall i :: 0 <= i < |ids| ==> ids[i] in candidates && ordered[i] == candidates[ids[i]]
  {
    hide Before, TallyOf, KeyOf, CandidateOf, Sort, Collected;
    forall id
      ensures id in candidates <==> TallyOf(lists, id, k).hits > 0
      ensures id in candidates ==> CandidateKey(candidates[id]) == KeyOf(lists, k, id)
    {
      CollectedFacts(candidates, lists, k, id);
    }
    forall id | id in candidates
      ensures candidates[id].document.chunkID == id
    {
      KeyId(lists, k, id);
    }
    ordered := EnumerateInAnyOrder(candidates);
    SortSorts(ordered);
    ordered := Sort(ordered);
    ids := seq(|ordered|, i requires 0 <= i < |ordered| => ordered[i].document.chunkID);
    forall i | 0 <= i < |ordered|
      ensures ids[i] in candidates && ordered[i] == candidates[ids[i]]
    {
      assert ordered[i] in ordered;
    }
    forall id
      ensures id in ids <==> id in candidates
    {
      if id in candidates {
        assert candidates[id] in ordered;
        var i :| 0 <= i < |ordered| && ordered[i] == candidates[id];
        assert ids[i] == id;
      }
    }
  }

  lemma {:induction false} KeyId(lists: seq<Ranking>, k: int, id: string)
    requires k > 0
    ensures KeyOf(lists, k, id).id == id
  {
  }

  /** The fused list: the ranking cut to the limit, each document with its scores and branches. */
  ghost predicate IsFusion(lists: seq<Ranking>, rrfK: int, limit: int, result: seq<Fused>, ids: seq<string>) {
    && Ranked(lists, EffectiveK(rrfK), ids) && |result| == |Limited(ids, limit)|
    && forall i :: 0 <= i < |result| ==> IsFusedChunk(lists, rrfK, ids[i], result[i])
  }

  ghost predicate IsFusedChunk(lists: seq<Ranking>, rrfK: int, id: string, f: Fused) {
    var candidate := CandidateOf(lists, id, EffectiveK(rrfK));
    && candidate.Some? && ActiveCount(lists) > 0 && Emitted(f, candidate.value, ActiveCount(lists), EffectiveK(rrfK))
    && f.document.chunkID == id && 0.0 < f.score <= 1.0
  }

  /** Every run returns the same list, down to the branch names, whatever order the maps are read in. */
  lemma {:induction false} FusionIsDetermined(lists: seq<Ranking>, rrfK: int, limit: int, r: seq<Fused>,
      ids: seq<string>,
      other: seq<Fused>, otherIds: seq<string>)
    requires IsFusion(lists, rrfK, limit, r, ids) && IsFusion(lists, rrfK, limit, other, otherIds)
    ensures r == other && ids == otherIds
  {
    hide Ranked, CandidateOf, ActiveCount, Emitted;
    RankingIsUnique(lists, EffectiveK(rrfK), ids, otherIds);
    forall i | 0 <= i < |r|
      ensures r[i] == other[i]
    {
      assert IsFusedChunk(lists, rrfK, ids[i], r[i]) && IsFusedChunk(lists, rrfK, ids[i], other[i]);
      EmittedOnce(r[i], other[i], CandidateOf(lists, ids[i], EffectiveK(rrfK)).value, ActiveCount(lists),
                  EffectiveK(rrfK));
    }
  }

  /** The result is the unique ranking, cut to the limit, and every normalised score lies in (0, 1]. */
  method FuseRRF(lists: seq<Ranking>, rrfK: int, limit: int) returns (result: seq<Fused>, ghost ids: seq<string>)
    ensures IsFusion(lists, rrfK, limit, result, ids)
    ensures forall i :: 0 <= i < |result| ==> IsFusedChunk(lists, rrfK, result[i].document.chunkID, result[i])
  {
    hide CandidateOf, TallyOf, Emitted, Normalised, Before, Ranked, ActiveCount, Collected;
    var k := EffectiveK(rrfK);
    var candidates, activeListCount := CollectAll(lists, k);
    var ordered;
    ordered, ids := Order(candidates, lists, k);
    if activeListCount == 0 {
      if |ids| > 0 {
        CollectedFacts(candidates, lists, k, ids[0]);
      }
      return [], ids;
    }
    var all := EmitAll(ordered, activeListCount, k);
    result := Limited(all, limit);
    forall i | 0 <= i < |result|
      ensures IsFusedChunk(lists, rrfK, ids[i], result[i])
    {
      CollectedFacts(candidates, lists, k, ids[i]);
      NormalisedScoreInRange(lists, ids[i], k);
      KeyId(lists, k, ids[i]);
      EmittedFacts(result[i], candidates[ids[i]], activeListCount, k);
    }
  }

  lemma {:induction false} EmittedFacts(f: Fused, c: Candidate, active: nat, k: int)
    requires active > 0 && k > 0 && Emitted(f, c, active, k)
    ensures f.document == c.document && f.score == ClampScore(Normalised(c.tally.score, active, k))
  {
  }

  lemma {:induction false} NothingCollected(k: int)
    requires k > 0
    ensures Collected(map[], [], k)
  {
  }

  /** Ranging over the candidate map yields every entry once, in an order of its own. */
  method EnumerateInAnyOrder(candidates: map<string, Candidate>) returns (ordered: seq<Candidate>)
    requires forall id :: id in candidates ==> candidates[id].document.chunkID == id
    ensures forall i, j :: 0 <= i < j < |ordered| ==> ordered[i].document.chunkID != ordered[j].document.chunkID
    ensures forall c :: c in ordered <==> c.document.chunkID in candidates && candidates[c.document.chunkID] == c
  {
    ordered := [];
    var keys := candidates.Keys;
    while keys != {}
      invariant keys <= candidates.Keys
      invariant forall i, j :: 0 <= i < j < |ordered| ==> ordered[i].document.chunkID != ordered[j].document.chunkID
      invariant forall c :: c in ordered <==>
          c.document.chunkID in candidates.Keys - keys && candidates[c.document.chunkID] == c
      decreases keys
    {
      var id :| id in keys;
      keys := keys - {id};
      assert forall i :: 0 <= i < |ordered| ==> ordered[i] in ordered;
      ordered := ordered + [candidates[id]];
    }
  }

  /** A smaller positive limit returns a prefix, of the documents with their scores and branches. */
  lemma {:induction false} SmallerLimitIsPrefix(lists: seq<Ranking>, rrfK: int, small: int, r: seq<Fused>,
      ids: seq<string>, large: int, other: seq<Fused>, otherIds: seq<string>)
    requires IsFusion(lists, rrfK, small, r, ids) && IsFusion(lists, rrfK, large, other, otherIds)
    requires 0 < small && (large <= 0 || small <= large)
    ensures r <= other && ids == otherIds && |r| == if |ids| < small then |ids| else small
  {
    hide Ranked, CandidateOf, ActiveCount, Emitted;
    RankingIsUnique(lists, EffectiveK(rrfK), ids, otherIds);
    forall i | 0 <= i < |r|
      ensures r[i] == other[i]
    {
      assert IsFusedChunk(lists, rrfK, ids[i], r[i]) && IsFusedChunk(lists, rrfK, ids[i], other[i]);
      EmittedOnce(r[i], other[i], CandidateOf(lists, ids[i], EffectiveK(rrfK)).value, ActiveCount(lists),
                  EffectiveK(rrfK));
    }
  }
}
