/** What the two splitters of internal/rag/chunker.go cut, by the characters of the text and the counts of the
    tokenizer. */
module ChunkerLaws {
  import opened Text
  import opened Chunker

  // Slices by token windows --------------------------------------------------------------------------------------

  /** w characters hold maxTokens tokens where r characters make t tokens. */
  predicate IsWindow(w: int, maxTokens: int, r: int, t: int) {
    if 0 < t <= maxTokens * r then w * t <= maxTokens * r < (w + 1) * t else w == 3 * maxTokens
  }

  /** The last n characters of the piece hold overlapTokens tokens; they are a quarter of it if it has no more. */
  predicate IsOverlap(n: int, overlapTokens: int, piece: string, tokens: nat) {
    if overlapTokens <= 0 || piece == "" || tokens == 0 then n == 0
    else if overlapTokens >= tokens then n == |piece| / 4
    else n * tokens <= overlapTokens * |piece| < (n + 1) * tokens
  }

  /** A cut at b falls behind an empty line, a sentence end, a pause or a space. */
  predicate MayCut(s: string, b: int) {
    && 0 < b <= |s|
    && (|| s[b - 1] in {'。', '！', '？', '；', '.', '!', '?', ';', '，', '、', '：', ',', ':', ' '}
        || (b >= 2 && s[b - 2] == '\n' && s[b - 1] == '\n'))
  }

  lemma {:induction false} BoundaryExactly(s: string, b: int)
    ensures IsBoundary(s, b) <==> MayCut(s, b)
  {
    var ends, pauses := SENTENCE_ENDS, PAUSES;
    assert |ends| == 8 && |pauses| == 5;
    if 0 < b <= |s| {
      var x := s[b - 1];
      assert x in ends <==> x == ends[0] || x == ends[1] || x == ends[2] || x == ends[3] || x == ends[4] ||
                            x == ends[5] || x == ends[6] || x == ends[7];
      assert x in pauses <==> x == pauses[0] || x == pauses[1] || x == pauses[2] || x == pauses[3] || x == pauses[4];
    }
  }

  /** Of the piece that fits, up to the last place for a cut is kept if that is at least half of it, otherwise all. */
  predicate IsKept(piece: string, kept: nat) {
    || (MayCut(piece, kept) && kept >= |piece| / 2 && forall b :: kept < b <= |piece| ==> !MayCut(piece, b))
    || (kept == |piece| && forall b :: 0 < b <= |piece| && b >= |piece| / 2 ==> !MayCut(piece, b))
  }

  lemma {:induction false} KeptExactly(piece: string)
    requires piece != ""
    ensures IsKept(piece, KeptLength(piece))
  {
    forall b ensures IsBoundary(piece, b) <==> MayCut(piece, b) {
      BoundaryExactly(piece, b);
    }
    hide MayCut, IsBoundary;
    var cut := LastBoundary(piece, |piece|);
    assert !IsBoundary(piece, 0) by { BoundaryPositive(piece); }
  }

  lemma {:induction false} BoundaryPositive(s: string)
    ensures !IsBoundary(s, 0)
  {
  }

  /** The longest prefix of the window that fits. */
  ghost predicate IsFitted(count: string -> nat, maxTokens: int, window: string, n: nat) {
    && n <= |window| && count(window[..n]) <= maxTokens
    && forall j :: n < j <= |window| ==> count(window[..j]) > maxTokens
  }

  /** The slice from s to e: the window at s, cut back to what fits, cut back to a natural boundary. */
  ghost predicate IsSlice(count: string -> nat, maxTokens: int, p: string, s: nat, e: nat, end: nat) {
    && s < e <= end <= |p|
    && (exists w :: IsWindow(w, maxTokens, |p|, count(p)) && end == if s + w < |p| then s + w else |p|)
    && (exists n: nat :: IsFitted(count, maxTokens, p[s..end], n) && IsKept(p[s..end][..n], e - s))
  }

  /** The next slice starts as far before the end of this one as the overlap says, but always later than this one. */
  ghost predicate IsNext(count: string -> nat, overlapTokens: int, p: string, s: nat, e: nat, next: nat)
    requires s < e <= |p|
  {
    exists n :: IsOverlap(n, overlapTokens, p[s..e], count(p[s..e])) && next == if e - n > s then e - n else s + 1
  }

  lemma {:induction false} SliceExactly(count: string -> nat, c: Config, p: string, start: nat)
    requires ValidConfig(c) && Tokenizer(count, c.maxTokens) && start < |p|
    ensures IsSlice(count, c.maxTokens, p, start, SliceEnd(count, c, p, start), WindowEnd(count, c, p, start))
  {
    hide Tokenizer, IsKept, GuessCharWindow, FitLength, KeptLength;
    var end := WindowEnd(count, c, p, start);
    var window := p[start..end];
    var w := GuessCharWindow(count(p), |p|, c.maxTokens);
    WindowAtRatio(count(p), |p|, c.maxTokens);
    assert IsWindow(w, c.maxTokens, |p|, count(p));
    var n := FitLength(count, window, |window|, c.maxTokens);
    FitLengthFacts(count, window, |window|, c.maxTokens);
    assert IsFitted(count, c.maxTokens, window, n);
    KeptExactly(window[..n]);
    SliceFacts(count, c, p, start);
  }

  lemma {:induction false} OverlapExactly(count: string -> nat, overlapTokens: int, piece: string)
    ensures IsOverlap(EstimateOverlapRunes(count, overlapTokens, piece), overlapTokens, piece, count(piece))
  {
    hide EstimateOverlapRunes;
    OverlapAtRatio(count, overlapTokens, piece);
  }

  lemma {:induction false} NextExactly(count: string -> nat, c: Config, p: string, start: nat)
    requires ValidConfig(c) && Tokenizer(count, c.maxTokens) && start < |p|
    ensures var e := SliceEnd(count, c, p, start);
            start < e <= |p| && IsNext(count, c.overlapTokens, p, start, e, NextStart(count, c, p, start))
  {
    hide Tokenizer, EstimateOverlapRunes, SliceEnd, IsOverlap;
    SliceFacts(count, c, p, start);
    OverlapExactly(count, c.overlapTokens, p[start..SliceEnd(count, c, p, start)]);
  }

  /** Slice i of the plan, where its window ends, what comes after it, and when it is the last. */
  lemma {:induction false} PlanExactly(count: string -> nat, c: Config, p: string, i: nat) returns (end: nat)
    requires ValidConfig(c) && Tokenizer(count, c.maxTokens) && p != "" && i < |Plan(count, c, p, 0)|
    ensures Plan(count, c, p, 0)[0].start == 0
    ensures var slice := Plan(count, c, p, 0)[i];
            slice.start < slice.end <= |p| && IsSlice(count, c.maxTokens, p, slice.start, slice.end, end)
    ensures i + 1 < |Plan(count, c, p, 0)| <==> end < |p|
    ensures var slices := Plan(count, c, p, 0);
            i + 1 < |slices| ==>
              IsNext(count, c.overlapTokens, p, slices[i].start, slices[i].end, slices[i + 1].start)
  {
    hide *;
    PlanFacts(count, c, p, 0);
    PlanAt(count, c, p, 0, i);
    var s := Plan(count, c, p, 0)[i].start;
    SliceExactly(count, c, p, s);
    NextExactly(count, c, p, s);
    end := WindowEnd(count, c, p, s);
  }

  lemma {:induction false} PlanAt(count: string -> nat, c: Config, p: string, start: nat, i: nat)
    requires ValidConfig(c) && Tokenizer(count, c.maxTokens) && start < |p| && i < |Plan(count, c, p, start)|
    ensures var slices := Plan(count, c, p, start);
            var s := slices[i].start;
            && s < |p| && slices[i].end == SliceEnd(count, c, p, s)
            && (i + 1 < |slices| <==> WindowEnd(count, c, p, s) < |p|)
            && (i + 1 < |slices| ==> slices[i + 1].start == NextStart(count, c, p, s))
    decreases i
  {
    hide SliceEnd, NextStart, WindowEnd, Tokenizer, Chained;
    var slices := Plan(count, c, p, start);
    SliceFacts(count, c, p, start);
    if WindowEnd(count, c, p, start) < |p| {
      var next := NextStart(count, c, p, start);
      PlanFacts(count, c, p, next);
      var rest := Plan(count, c, p, next);
      assert forall k :: 0 < k < |slices| ==> slices[k] == rest[k - 1];
      if i > 0 { PlanAt(count, c, p, next, i - 1); }
    }
  }

  /** The texts are those of the slices that hold more than white space, in order. */
  lemma {:induction false} TextsExactly(p: string, slices: seq<Slice>, s: Slice)
    requires Within(p, slices) && s.start <= s.end <= |p|
    ensures Texts(p, []) == [] && Within(p, slices + [s])
    ensures Texts(p, slices + [s]) == Texts(p, slices) + if AllSpace(p[s.start..s.end]) then [] else [p[s.start..s.end]]
  {
    hide Blank, AllSpace;
    TextsSnoc(p, slices, s);
    BlankExactly(p[s.start..s.end]);
    NoTexts(p);
  }

  // Blocks of whole lines ----------------------------------------------------------------------------------------

  /** Each block is a line of any size or lines within the budget, and would exceed it with the next line. */
  ghost predicate PackedBlock(count: string -> nat, maxTokens: int, blocks: seq<seq<string>>, i: nat)
    requires i < |blocks|
  {
    && blocks[i] != [] && (|blocks[i]| > 1 ==> Tokens(count, blocks[i]) <= maxTokens)
    && (i + 1 < |blocks| ==> blocks[i + 1] != [] && Tokens(count, blocks[i]) + count(blocks[i + 1][0]) > maxTokens)
  }

  lemma {:induction false} ExtendStops(count: string -> nat, maxTokens: int, lines: seq<string>, k: nat)
    requires 1 <= k <= |lines|
    ensures var n := Extend(count, maxTokens, lines, k);
            n < |lines| ==> Tokens(count, lines[..n]) + count(lines[n]) > maxTokens
    decreases |lines| - k
  {
    if k < |lines| {
      assert lines[..k + 1] == lines[..k] + [lines[k]];
      TokensSnoc(count, lines[..k], lines[k]);
      if Tokens(count, lines[..k + 1]) <= maxTokens {
        ExtendStops(count, maxTokens, lines, k + 1);
      }
    }
  }

  lemma {:induction false} BlocksExactly(count: string -> nat, maxTokens: int, lines: seq<string>, i: nat)
    requires i < |Greedy(count, maxTokens, lines)|
    ensures PackedBlock(count, maxTokens, Greedy(count, maxTokens, lines), i)
    decreases |lines|
  {
    hide Extend, Tokens;
    var k := Extend(count, maxTokens, lines, 1);
    var blocks := Greedy(count, maxTokens, lines);
    var rest := Greedy(count, maxTokens, lines[k..]);
    GreedyDivides(count, maxTokens, lines);
    ExtendStops(count, maxTokens, lines, 1);
    if i > 0 {
      BlocksExactly(count, maxTokens, lines[k..], i - 1);
      assert blocks[i] == rest[i - 1];
    } else if lines[k..] != [] {
      GreedyDivides(count, maxTokens, lines[k..]);
      assert rest[0][0] == lines[k..][0] by { GreedyHead(count, maxTokens, lines[k..]); }
    }
  }

  lemma {:induction false} GreedyHead(count: string -> nat, maxTokens: int, lines: seq<string>)
    requires lines != []
    ensures var g := Greedy(count, maxTokens, lines); g != [] && g[0] != [] && g[0][0] == lines[0]
  {
  }

  /** The tokens of lines are counted line by line. */
  function Total(count: string -> nat, lines: seq<string>): nat {
    if lines == [] then 0 else count(lines[0]) + Total(count, lines[1..])
  }

  lemma {:induction false} TokensExactly(count: string -> nat, lines: seq<string>)
    ensures Tokens(count, lines) == Total(count, lines)
  {
    if lines != [] {
      TokensExactly(count, lines[1..]);
      TokensConcat(count, [lines[0]], lines[1..]);
      assert [lines[0]] + lines[1..] == lines;
      TokensSnoc(count, [], lines[0]);
      assert [] + [lines[0]] == [lines[0]];
    }
  }
}
