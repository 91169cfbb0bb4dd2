/** internal/rag/chunker.go: splitting by whole lines and by token windows. The tokenizer is a parameter. */
module Chunker {
  import opened Text

  // Packing whole lines ------------------------------------------------------------

  function Tokens(count: string -> nat, lines: seq<string>): nat {
    if lines == [] then 0 else Tokens(count, lines[..|lines| - 1]) + count(lines[|lines| - 1])
  }

  lemma {:induction false} TokensConcat(count: string -> nat, a: seq<string>, b: seq<string>)
    ensures Tokens(count, a + b) == Tokens(count, a) + Tokens(count, b)
    decreases |b|
  {
    if b == [] {
      assert a + b == a;
    } else {
      assert (a + b)[..|a + b| - 1] == a + b[..|b| - 1];
      TokensConcat(count, a, b[..|b| - 1]);
    }
  }

  /** A block may hold a single line of any size, or several lines within the budget. */
  predicate BlockFits(count: string -> nat, maxTokens: int, block: seq<string>) {
    block != [] && (|block| == 1 || Tokens(count, block) <= maxTokens)
  }

  function Concat(blocks: seq<seq<string>>): seq<string> {
    if blocks == [] then [] else blocks[0] + Concat(blocks[1..])
  }

  /** A division of lines into contiguous blocks that fit. */
  predicate Division(count: string -> nat, maxTokens: int, blocks: seq<seq<string>>, lines: seq<string>) {
    Concat(blocks) == lines && forall i :: 0 <= i < |blocks| ==> BlockFits(count, maxTokens, blocks[i])
  }

  /** How far a block of at least k lines extends while it stays within the budget. */
  function Extend(count: string -> nat, maxTokens: int, lines: seq<string>, k: nat): (n: nat)
    requires 1 <= k <= |lines|
    ensures k <= n <= |lines|
    decreases |lines| - k
  {
    if k < |lines| && Tokens(count, lines[..k + 1]) <= maxTokens then Extend(count, maxTokens, lines, k + 1) else k
  }

  function Greedy(count: string -> nat, maxTokens: int, lines: seq<string>): seq<seq<string>>
    decreases |lines|
  {
    if lines == [] then []
    else
      var k := Extend(count, maxTokens, lines, 1);
      [lines[..k]] + Greedy(count, maxTokens, lines[k..])
  }

  lemma {:induction false} ExtendFits(count: string -> nat, maxTokens: int, lines: seq<string>, k: nat)
    requires 1 <= k <= |lines| && BlockFits(count, maxTokens, lines[..k])
    ensures BlockFits(count, maxTokens, lines[..Extend(count, maxTokens, lines, k)])
    decreases |lines| - k
  {
    if k < |lines| && Tokens(count, lines[..k + 1]) <= maxTokens {
      ExtendFits(count, maxTokens, lines, k + 1);
    }
  }

  /** No block starting with the same line fits and is longer. */
  lemma {:induction false} ExtendIsLongest(count: string -> nat, maxTokens: int, lines: seq<string>, k: nat, j: nat)
    requires 1 <= k <= |lines| && j <= |lines|
    requires j > k ==> Tokens(count, lines[..j]) <= maxTokens
    ensures j <= Extend(count, maxTokens, lines, k)
    decreases |lines| - k
  {
    if j > k {
      assert lines[..k + 1] + lines[k + 1..j] == lines[..j];
      TokensConcat(count, lines[..k + 1], lines[k + 1..j]);
      ExtendIsLongest(count, maxTokens, lines, k + 1, j);
    }
  }

  lemma {:induction false} GreedyDivides(count: string -> nat, maxTokens: int, lines: seq<string>)
    ensures Division(count, maxTokens, Greedy(count, maxTokens, lines), lines)
    decreases |lines|
  {
    if lines != [] {
      var k := Extend(count, maxTokens, lines, 1);
      assert |lines[..1]| == 1;
      ExtendFits(count, maxTokens, lines, 1);
      GreedyDivides(count, maxTokens, lines[k..]);
      var rest := Greedy(count, maxTokens, lines[k..]);
      var all := Greedy(count, maxTokens, lines);
      assert all[1..] == rest && lines[..k] + lines[k..] == lines;
      assert forall i :: 0 < i < |all| ==> all[i] == rest[i - 1];
    }
  }

  lemma {:induction false} FirstBlock(count: string -> nat, maxTokens: int, other: seq<seq<string>>, all: seq<string>)
    requires Division(count, maxTokens, other, all) && all != []
    ensures other != [] && |other[0]| <= |all| && other[0] == all[..|other[0]|] && BlockFits(count, maxTokens, other[0])
    ensures Division(count, maxTokens, other[1..], all[|other[0]|..])
  {
    hide BlockFits;
    assert Concat(other) == other[0] + Concat(other[1..]);
    assert forall i :: 0 <= i < |other[1..]| ==> other[1..][i] == other[i + 1];
  }

  /** A block that fits and has a head start ends no later than the greedy one. */
  lemma {:induction false} EndsNoLater(count: string -> nat, maxTokens: int, earlier: seq<string>, lines: seq<string>,
      j: nat)
    requires 1 <= j <= |lines| && BlockFits(count, maxTokens, earlier + lines[..j])
    ensures j <= Extend(count, maxTokens, lines, 1)
  {
    TokensConcat(count, earlier, lines[..j]);
    ExtendIsLongest(count, maxTokens, lines, 1, j);
  }

  /** The greedy division stays ahead of every division that starts no later than it. */
  lemma {:induction false} GreedyStaysAhead(count: string -> nat, maxTokens: int, earlier: seq<string>,
      lines: seq<string>,
      other: seq<seq<string>>)
    requires Division(count, maxTokens, other, earlier + lines)
    ensures |Greedy(count, maxTokens, lines)| <= |other|
    decreases |other|
  {
    hide Division, BlockFits, Extend;
    if lines != [] {
      var all := earlier + lines;
      FirstBlock(count, maxTokens, other, all);
      var n := |other[0]|;
      if n <= |earlier| {
        assert all[n..] == earlier[n..] + lines;
        GreedyStaysAhead(count, maxTokens, earlier[n..], lines, other[1..]);
      } else {
        var j := n - |earlier|;
        assert all[..n] == earlier + lines[..j];
        EndsNoLater(count, maxTokens, earlier, lines, j);
        var k := Extend(count, maxTokens, lines, 1);
        assert all[n..] == lines[j..k] + lines[k..];
        GreedyStaysAhead(count, maxTokens, lines[j..k], lines[k..], other[1..]);
      }
    }
  }

  function JoinBlocks(blocks: seq<seq<string>>): (r: seq<string>)
    ensures |r| == |blocks|
  {
    if blocks == [] then [] else [JoinLines(blocks[0])] + JoinBlocks(blocks[1..])
  }

  lemma {:induction false} JoinedBlocksAreLossless(blocks: seq<seq<string>>)
    requires forall i :: 0 <= i < |blocks| ==> blocks[i] != []
    ensures JoinLines(JoinBlocks(blocks)) == JoinLines(Concat(blocks))
  {
    if |blocks| == 1 {
      assert blocks[1..] == [] && blocks[0] + [] == blocks[0];
    } else if |blocks| > 1 {
      var rest := blocks[1..];
      assert forall i :: 0 <= i < |rest| ==> rest[i] == blocks[i + 1];
      JoinedBlocksAreLossless(rest);
      assert rest[0] != [] && Concat(rest) != [];
      JoinConcat(blocks[0], Concat(rest));
      assert JoinBlocks(blocks)[1..] == JoinBlocks(rest);
    }
  }

  lemma {:induction false} JoinBlocksSnoc(blocks: seq<seq<string>>, b: seq<string>)
    ensures JoinBlocks(blocks + [b]) == JoinBlocks(blocks) + [JoinLines(b)]
  {
    if blocks == [] {
      assert [] + [b] == [b] && [b][1..] == [];
    } else {
      assert (blocks + [b])[1..] == blocks[1..] + [b];
      JoinBlocksSnoc(blocks[1..], b);
    }
  }

  lemma {:induction false} GreedyStep(count: string -> nat, maxTokens: int, buf: seq<string>, line: string,
      rest: seq<string>)
    requires buf != []
    requires var all := buf + ([line] + rest); Extend(count, maxTokens, all, |buf|) == Extend(count, maxTokens, all, 1)
    ensures var all := buf + ([line] + rest);
            if Tokens(count, buf) + count(line) > maxTokens
            then Greedy(count, maxTokens, all) == [buf] + Greedy(count, maxTokens, [line] + rest)
            else Extend(count, maxTokens, all, |buf| + 1) == Extend(count, maxTokens, all, 1)
  {
    var all := buf + ([line] + rest);
    assert all[..|buf| + 1] == buf + [line] && all[..|buf|] == buf && all[|buf|..] == [line] + rest;
    TokensSnoc(count, buf, line);
  }

  lemma {:induction false} TokensSnoc(count: string -> nat, buf: seq<string>, line: string)
    ensures Tokens(count, []) == 0 && Tokens(count, buf + [line]) == Tokens(count, buf) + count(line)
  {
    assert (buf + [line])[..|buf|] == buf;
  }

  lemma {:induction false} GreedyEnd(count: string -> nat, maxTokens: int, buf: seq<string>)
    requires buf != [] ==> Extend(count, maxTokens, buf, |buf|) == Extend(count, maxTokens, buf, 1)
    ensures Greedy(count, maxTokens, buf) == if buf == [] then [] else [buf]
  {
    assert buf[|buf|..] == [] && buf[..|buf|] == buf;
  }

  method PackLines(count: string -> nat, lines: seq<string>, maxTokens: int) returns (result: seq<string>,
      ghost blocks: seq<seq<string>>)
    ensures result == JoinBlocks(Greedy(count, maxTokens, lines))
    ensures blocks == Greedy(count, maxTokens, lines)
  {
    hide *;
    result, blocks := [], [];
    var buf, tokens := [], 0;
    assert lines[0..] == lines && [] + lines == lines;
    assert JoinBlocks([]) == [];
    TokensSnoc(count, [], "");
    for i := 0 to |lines|
      invariant result == JoinBlocks(blocks) && tokens == Tokens(count, buf)
      invariant Greedy(count, maxTokens, lines) == blocks + Greedy(count, maxTokens, buf + lines[i..])
      invariant buf != [] ==> Extend(count, maxTokens, buf + lines[i..], |buf|) == Extend(count, maxTokens,
          buf + lines[i..], 1)
    {
      var line := lines[i];
      var lineTokens := count(line);
      ghost var rest := lines[i + 1..];
      assert lines[i..] == [line] + rest;
      if |buf| > 0 {
        GreedyStep(count, maxTokens, buf, line, rest);
      }
      if tokens + lineTokens > maxTokens && |buf| > 0 {
        ghost var next := Greedy(count, maxTokens, [line] + rest);
        assert blocks + ([buf] + next) == (blocks + [buf]) + next;
        result := result + [JoinLines(buf)];
        JoinBlocksSnoc(blocks, buf);
        blocks := blocks + [buf];
        buf := [];
        tokens := 0;
        TokensSnoc(count, [], "");
        assert [] + ([line] + rest) == [line] + rest;
      }
      assert buf + ([line] + rest) == (buf + [line]) + rest;
      TokensSnoc(count, buf, line);
      buf := buf + [line];
      tokens := tokens + lineTokens;
    }
    assert buf + lines[|lines|..] == buf;
    GreedyEnd(count, maxTokens, buf);
    if |buf| > 0 {
      result := result + [JoinLines(buf)];
      JoinBlocksSnoc(blocks, buf);
      blocks := blocks + [buf];
    } else {
      assert blocks + [] == blocks;
    }
  }

  /** Joining the blocks gives the content back, every block fits, and no division that fits has fewer blocks. */
  method SplitByLines(count: string -> nat, content: string, maxTokens: int) returns (result: seq<string>,
      ghost blocks: seq<seq<string>>)
    ensures JoinLines(result) == content
    ensures result == JoinBlocks(blocks) && Division(count, maxTokens, blocks, Lines(content))
    ensures blocks == Greedy(count, maxTokens, Lines(content))
    ensures forall other :: Division(count, maxTokens, other, Lines(content)) ==> |result| <= |other|
  {
    hide Greedy, JoinBlocks, Lines, JoinLines;
    var lines := Lines(content);
    result, blocks := PackLines(count, lines, maxTokens);
    GreedyDivides(count, maxTokens, lines);
    JoinedBlocksAreLossless(blocks);
    JoinOfLines(content);
    forall other | Division(count, maxTokens, other, lines)
      ensures |result| <= |other|
    {
      assert [] + lines == lines;
      GreedyStaysAhead(count, maxTokens, [], lines, other);
    }
  }

  // Fitting a prefix into a token window ----------------------------------------------

  /** What the splitters need of utils.CountTokens for a window of maxTokens. */
  ghost predicate Tokenizer(count: string -> nat, maxTokens: int) {
    && count("") == 0 && maxTokens > 0
    && (forall s: string, t: string :: s <= t ==> count(s) <= count(t))
    && (forall c: char :: count([c]) <= maxTokens)
  }

  /** Length of the longest prefix of s, no longer than k, that fits. */
  function FitLength(count: string -> nat, s: string, k: nat, maxTokens: int): (n: nat)
    requires k <= |s|
    ensures n <= k
  {
    if k == 0 || count(s[..k]) <= maxTokens then k else FitLength(count, s, k - 1, maxTokens)
  }

  lemma {:induction false} FitLengthFacts(count: string -> nat, s: string, k: nat, maxTokens: int)
    requires Tokenizer(count, maxTokens) && k <= |s|
    ensures count(s[..FitLength(count, s, k, maxTokens)]) <= maxTokens
    ensures forall j :: FitLength(count, s, k, maxTokens) < j <= k ==> count(s[..j]) > maxTokens
    ensures k > 0 ==> FitLength(count, s, k, maxTokens) > 0
  {
    if k == 1 {
      assert s[..1] == [s[0]];
    }
    if k > 0 && count(s[..k]) > maxTokens {
      FitLengthFacts(count, s, k - 1, maxTokens);
    } else {
      assert k == 0 ==> s[..k] == "";
    }
  }

  lemma {:induction false} PrefixCounts(count: string -> nat, s: string, i: nat, j: nat, maxTokens: int)
    requires Tokenizer(count, maxTokens) && i <= |s| && j <= |s|
    ensures i <= j ==> count(s[..i]) <= count(s[..j])
  {
    if i <= j {
      assert s[..i] <= s[..j];
    }
  }

  /** fitToTokenWindow: the binary search returns the longest prefix that fits. */
  method FitToTokenWindow(count: string -> nat, s: string, maxTokens: int) returns (r: string)
    requires Tokenizer(count, maxTokens)
    ensures r <= s && count(r) <= maxTokens && r == s[..FitLength(count, s, |s|, maxTokens)]
    ensures forall p: string :: p <= s && count(p) <= maxTokens ==> p <= r
  {
    FitLengthFacts(count, s, |s|, maxTokens);
    ghost var n := FitLength(count, s, |s|, maxTokens);
    if count(s) <= maxTokens {
      assert s[..|s|] == s;
      return s;
    }
    var lo, hi := 0, |s|;
    while lo < hi
      invariant 0 <= lo <= n <= hi <= |s|
    {
      var mid := (lo + hi + 1) / 2;
      if count(s[..mid]) <= maxTokens {
        lo := mid;
      } else {
        PrefixCounts(count, s, mid, n, maxTokens);
        hi := mid - 1;
      }
    }
    r := s[..lo];
    forall p: string | p <= s && count(p) <= maxTokens
      ensures p <= r
    {
      assert p == s[..|p|];
    }
  }

  // Natural boundaries ------------------------------------------------------------------

  const SENTENCE_ENDS := "。！？；.!?;"
  const PAUSES := "，、：,:"

  predicate EndsParagraph(s: string, b: int) {
    2 <= b <= |s| && s[b - 2] == '\n' && s[b - 1] == '\n'
  }

  /** A cut before index b falls right after a paragraph break, a sentence end, a pause or a space. */
  predicate IsBoundary(s: string, b: int) {
    && 0 < b <= |s|
    && (|| EndsParagraph(s, b)
        || s[b - 1] in SENTENCE_ENDS || s[b - 1] in PAUSES || s[b - 1] == ' ')
  }

  function LastBoundary(s: string, b: nat): (cut: int)
    requires b <= |s|
    ensures cut == -1 || (IsBoundary(s, cut) && cut <= b)
    ensures forall k :: cut < k <= b ==> !IsBoundary(s, k)
  {
    if b == 0 then -1 else if IsBoundary(s, b) then b else LastBoundary(s, b - 1)
  }

  method LastRuneIndex(s: string, chars: string) returns (i: int)
    ensures -1 <= i < |s| && (i >= 0 ==> s[i] in chars)
    ensures forall k :: i < k < |s| ==> s[k] !in chars
  {
    i := |s| - 1;
    while i >= 0
      invariant -1 <= i < |s|
      invariant forall k :: i < k < |s| ==> s[k] !in chars
    {
      if s[i] in chars {
        return;
      }
      i := i - 1;
    }
  }

  /** Taking the last candidate of each kind and then the latest of the four finds the last boundary of any kind. */
  method LastNaturalBoundary(s: string) returns (cut: int)
    ensures cut == LastBoundary(s, |s|)
  {
    cut := -1;
    var i := |s| - 2;
    while i >= 0
      invariant -2 <= i <= |s| - 2
      invariant cut == -1
      invariant forall b :: i + 2 < b <= |s| ==> !EndsParagraph(s, b)
    {
      if s[i] == '\n' && s[i + 1] == '\n' {
        cut := i + 2;
        break;
      }
      i := i - 1;
    }
    assert forall b :: cut < b <= |s| ==> !EndsParagraph(s, b);
    var idx := LastRuneIndex(s, SENTENCE_ENDS);
    if idx >= 0 && idx + 1 > cut {
      cut := idx + 1;
    }
    idx := LastRuneIndex(s, PAUSES);
    if idx >= 0 && idx + 1 > cut {
      cut := idx + 1;
    }
    idx := LastRuneIndex(s, " ");
    if idx >= 0 && idx + 1 > cut {
      cut := idx + 1;
    }
    assert cut == -1 || IsBoundary(s, cut);
    assert forall b :: cut < b <= |s| ==> !IsBoundary(s, b);
    var last := LastBoundary(s, |s|);
    assert last == -1 || IsBoundary(s, last);
  }

  // Slicing by token windows ---------------------------------------------------------------

  datatype Config = Config(maxTokens: int, overlapTokens: int)

  predicate ValidConfig(c: Config) {
    c.maxTokens > 0 && 0 <= c.overlapTokens < c.maxTokens
  }

  function NewChunker(maxTokens: int, overlapTokens: int): (c: Config)
    ensures ValidConfig(c)
    ensures c.maxTokens == if maxTokens > 0 then maxTokens else 800
    ensures 0 <= overlapTokens < c.maxTokens ==> c.overlapTokens == overlapTokens
    ensures overlapTokens < 0 ==> c.overlapTokens == 0
    ensures overlapTokens >= c.maxTokens ==> 4 * c.overlapTokens <= c.maxTokens < 4 * c.overlapTokens + 4
  {
    var m := if maxTokens <= 0 then 800 else maxTokens;
    var o := if overlapTokens < 0 then 0 else overlapTokens;
    Config(m, if o >= m then m / 4 else o)
  }

  /** w is m scaled by r over t, cut off. */
  predicate Scales(w: int, m: int, r: int, t: int) { w * t <= m * r < (w + 1) * t }

  /** Scaling by a ratio of reals and cutting off is division of integers. */
  lemma {:induction false} FloorOfRatio(m: nat, r: nat, t: nat, w: int)
    requires t > 0 && w == (m as real * (r as real / t as real)).Floor
    ensures 0 <= w && Scales(w, m, r, t)
  {
    var ratio := r as real / t as real;
    var x := m as real * ratio;
    assert ratio * t as real == r as real;
    assert x * t as real == (m * r) as real by {
      assert x * t as real == m as real * (ratio * t as real);
    }
    assert 0.0 <= x by { assert 0.0 <= ratio; }
    Scaled(w, x, t);
    assert (w * t) as real <= x * t as real < ((w + 1) * t) as real;
  }

  lemma {:induction false} Scaled(w: int, x: real, t: nat)
    requires t > 0 && w as real <= x < (w + 1) as real
    ensures (w * t) as real <= x * t as real < ((w + 1) * t) as real
  {
    assert (w * t) as real == w as real * t as real;
    assert ((w + 1) * t) as real == (w + 1) as real * t as real;
  }

  function GuessCharWindow(totalTokens: nat, totalRunes: nat, maxTokens: int): (w: int)
    requires maxTokens > 0
    ensures w > 0
  {
    if totalTokens <= 0 || totalRunes <= 0 then maxTokens * 3
    else
      var ratio := totalRunes as real / totalTokens as real;
      var window := (maxTokens as real * ratio).Floor;
      if window <= 0 then maxTokens * 3 else window
  }

  /** The window holds maxTokens tokens at the paragraph's ratio of characters to tokens, cut off; where that is
      nothing, it has three characters a token. */
  lemma {:induction false} WindowAtRatio(totalTokens: nat, totalRunes: nat, maxTokens: nat)
    requires maxTokens > 0
    ensures var w := GuessCharWindow(totalTokens, totalRunes, maxTokens);
            if 0 < totalTokens <= maxTokens * totalRunes then Scales(w, maxTokens, totalRunes, totalTokens)
            else w == 3 * maxTokens
  {
    hide Scales;
    if totalTokens > 0 && totalRunes > 0 {
      var window := (maxTokens as real * (totalRunes as real / totalTokens as real)).Floor;
      FloorOfRatio(maxTokens, totalRunes, totalTokens, window);
      NothingScaled(window, maxTokens, totalRunes, totalTokens);
    }
  }

  lemma {:induction false} NothingScaled(w: nat, m: nat, r: nat, t: nat)
    requires t > 0 && Scales(w, m, r, t)
    ensures w == 0 <==> m * r < t
  {
    if w > 0 { Larger(1, w, t); }
  }

  function EstimateOverlapRunes(count: string -> nat, overlapTokens: int, sample: string): (n: int)
    ensures 0 <= n <= |sample|
  {
    if overlapTokens <= 0 || sample == "" then 0
    else
      var tokens := count(sample);
      if tokens <= 0 then 0
      else
        var ratio := |sample| as real / tokens as real;
        var n := (overlapTokens as real * ratio).Floor;
        if n >= |sample| then |sample| / 4 else n
  }

  /** The overlap holds overlapTokens tokens at the sample's own ratio, cut off; where that is all of the sample, it is
      a quarter. */
  lemma {:induction false} OverlapAtRatio(count: string -> nat, overlapTokens: int, sample: string)
    ensures var n := EstimateOverlapRunes(count, overlapTokens, sample);
            var tokens := count(sample);
            if overlapTokens <= 0 || sample == "" || tokens == 0 then n == 0
            else if overlapTokens >= tokens then n == |sample| / 4
            else Scales(n, overlapTokens, |sample|, tokens)
  {
    hide Scales;
    var tokens := count(sample);
    if overlapTokens > 0 && sample != "" && tokens > 0 {
      var n := (overlapTokens as real * (|sample| as real / tokens as real)).Floor;
      FloorOfRatio(overlapTokens, |sample|, tokens, n);
      WholeSample(overlapTokens, |sample|, tokens, n);
    }
  }

  lemma {:induction false} WholeSample(overlap: nat, length: nat, tokens: nat, n: nat)
    requires tokens > 0 && length > 0 && Scales(n, overlap, length, tokens)
    ensures n >= length <==> overlap >= tokens
  {
    if overlap >= tokens {
      Larger(tokens, overlap, length);
      if n < length { Larger(n + 1, length, tokens); }
    } else {
      Larger(overlap + 1, tokens, length);
      if n >= length { Larger(length, n, tokens); }
    }
  }

  lemma {:induction false} Larger(a: nat, b: nat, c: nat)
    requires a <= b
    ensures a * c <= b * c
  {
  }

  function MinRune(a: nat, b: nat): nat { if a < b then a else b }

  /** Cutting back a fitted piece to its last natural boundary, unless that is in its first half. */
  function KeptLength(piece: string): (n: nat)
    ensures n <= |piece|
    ensures piece != "" ==> n > 0
  {
    var cut := LastBoundary(piece, |piece|);
    if cut >= |piece| / 2 && cut >= 0 then cut else |piece|
  }

  /** The slice taken at start: where its window ends and where the slice itself ends. */
  function WindowEnd(count: string -> nat, c: Config, p: string, start: nat): (e: nat)
    requires ValidConfig(c) && start < |p|
    ensures start < e <= |p|
  {
    MinRune(start + GuessCharWindow(count(p), |p|, c.maxTokens), |p|)
  }

  function SliceEnd(count: string -> nat, c: Config, p: string, start: nat): (e: nat)
    requires ValidConfig(c) && start < |p|
    ensures start <= e <= WindowEnd(count, c, p, start)
  {
    var window := p[start..WindowEnd(count, c, p, start)];
    start + KeptLength(window[..FitLength(count, window, |window|, c.maxTokens)])
  }

  function NextStart(count: string -> nat, c: Config, p: string, start: nat): (n: nat)
    requires ValidConfig(c) && start < |p|
    ensures start < n
  {
    var e := SliceEnd(count, c, p, start);
    var advance := (e - start) - EstimateOverlapRunes(count, c.overlapTokens, p[start..e]);
    start + if advance <= 0 then 1 else advance
  }

  datatype Slice = Slice(start: nat, end: nat)

  function Plan(count: string -> nat, c: Config, p: string, start: nat): seq<Slice>
    requires ValidConfig(c)
    decreases |p| - start
  {
    if start >= |p| then []
    else [Slice(start, SliceEnd(count, c, p, start))] +
         if WindowEnd(count, c, p, start) >= |p| then [] else Plan(count, c, p, NextStart(count, c, p, start))
  }

  predicate Within(p: string, slices: seq<Slice>) {
    forall i :: 0 <= i < |slices| ==> slices[i].start <= slices[i].end <= |p|
  }

  /** The texts of the slices, blank ones dropped. */
  function Texts(p: string, slices: seq<Slice>): seq<string>
    requires Within(p, slices)
  {
    if slices == [] then []
    else
      var last := slices[|slices| - 1];
      var text := p[last.start..last.end];
      Texts(p, slices[..|slices| - 1]) + if Blank(text) then [] else [text]
  }

  lemma {:induction false} WindowFits(count: string -> nat, c: Config, p: string, start: nat)
    requires ValidConfig(c) && Tokenizer(count, c.maxTokens) && start < |p|
    ensures var window := p[start..WindowEnd(count, c, p, start)];
            var fitted := window[..FitLength(count, window, |window|, c.maxTokens)];
            fitted != "" && count(fitted) <= c.maxTokens
  {
    hide Tokenizer;
    var window := p[start..WindowEnd(count, c, p, start)];
    FitLengthFacts(count, window, |window|, c.maxTokens);
  }

  lemma {:induction false} PrefixOfWindow(p: string, start: nat, end: nat, n: nat, kept: nat)
    requires start <= end <= |p| && kept <= n <= end - start
    ensures p[start..start + kept] == p[start..end][..n][..kept] && p[start..end][..n][..kept] <= p[start..end][..n]
  {
  }

  lemma {:induction false} SliceFacts(count: string -> nat, c: Config, p: string, start: nat)
    requires ValidConfig(c) && Tokenizer(count, c.maxTokens) && start < |p|
    ensures var e := SliceEnd(count, c, p, start);
            && start < e && count(p[start..e]) <= c.maxTokens && NextStart(count, c, p, start) <= e
  {
    hide FitLength, WindowEnd, Tokenizer;
    WindowFits(count, c, p, start);
    var end := WindowEnd(count, c, p, start);
    var window := p[start..end];
    var n := FitLength(count, window, |window|, c.maxTokens);
    var fitted := window[..n];
    var kept := KeptLength(fitted);
    PrefixOfWindow(p, start, end, n, kept);
    PrefixCounts(count, fitted, kept, n, c.maxTokens);
    assert fitted[..n] == fitted;
  }

  /** The slice is a piece of the paragraph that fits the window. */
  predicate Fits(count: string -> nat, maxTokens: int, p: string, s: Slice) {
    s.start < s.end <= |p| && count(p[s.start..s.end]) <= maxTokens
  }

  predicate Follows(s: Slice, t: Slice) { s.start < t.start <= s.end }

  /** Each slice fits, and follows the one before without a gap. */
  ghost predicate Chained(count: string -> nat, maxTokens: int, p: string, slices: seq<Slice>) {
    && (forall i :: 0 <= i < |slices| ==> Fits(count, maxTokens, p, slices[i]))
    && (forall i, j :: 0 <= i < j < |slices| && j == i + 1 ==> Follows(slices[i], slices[j]))
  }

  lemma {:induction false} ChainOne(count: string -> nat, maxTokens: int, p: string, s: Slice, rest: seq<Slice>)
    requires Fits(count, maxTokens, p, s) && Chained(count, maxTokens, p, rest) && (rest != [] ==> Follows(s, rest[0]))
    ensures Chained(count, maxTokens, p, [s] + rest)
  {
    hide Fits, Follows;
    var slices := [s] + rest;
    forall i | 0 <= i < |slices|
      ensures Fits(count, maxTokens, p, slices[i])
    {
      assert i > 0 ==> slices[i] == rest[i - 1];
    }
    forall i, j | 0 <= i < j < |slices| && j == i + 1
      ensures Follows(slices[i], slices[j])
    {
      assert slices[j] == rest[j - 1];
      assert i > 0 ==> slices[i] == rest[i - 1];
    }
  }

  /** Slices start at strictly increasing offsets with no gap between them, and each fits the window. */
  lemma {:induction false} PlanFacts(count: string -> nat, c: Config, p: string, start: nat)
    requires ValidConfig(c) && Tokenizer(count, c.maxTokens) && start < |p|
    ensures var slices := Plan(count, c, p, start);
            slices != [] && slices[0].start == start && Chained(count, c.maxTokens, p, slices)
    decreases |p| - start
  {
    hide SliceEnd, NextStart, WindowEnd, Tokenizer, Chained;
    SliceFacts(count, c, p, start);
    var slice := Slice(start, SliceEnd(count, c, p, start));
    if WindowEnd(count, c, p, start) < |p| {
      var next := NextStart(count, c, p, start);
      PlanFacts(count, c, p, next);
      ChainOne(count, c.maxTokens, p, slice, Plan(count, c, p, next));
    } else {
      ChainNone(count, c.maxTokens, p);
      ChainOne(count, c.maxTokens, p, slice, []);
    }
  }

  lemma {:induction false} ChainNone(count: string -> nat, maxTokens: int, p: string)
    ensures Chained(count, maxTokens, p, [])
  {
  }

  /** The last window is kept whole: it fits, and it has no boundary to be cut back to. */
  predicate KeptWhole(count: string -> nat, maxTokens: int, window: string) {
    var cut := LastBoundary(window, |window|);
    count(window) <= maxTokens && (cut < 0 || cut < |window| / 2 || cut == |window|)
  }

  lemma {:induction false} LastSlice(count: string -> nat, c: Config, p: string, start: nat)
    requires ValidConfig(c) && Tokenizer(count, c.maxTokens) && start < |p| && WindowEnd(count, c, p, start) == |p|
    ensures SliceEnd(count, c, p, start) == |p| <==> KeptWhole(count, c.maxTokens, p[start..])
  {
    hide GuessCharWindow, IsBoundary, WindowEnd;
    var window := p[start..];
    assert p[start..|p|] == window && window[..|window|] == window;
    FitLengthFacts(count, window, |window|, c.maxTokens);
  }

  /** The loop stops with the window that reaches the end of the paragraph, whether or not that window was kept
      whole. So the slices reach the end of the paragraph exactly when the last window was. */
  lemma {:induction false} PlanReachesEndIff(count: string -> nat, c: Config, p: string, start: nat)
    requires ValidConfig(c) && Tokenizer(count, c.maxTokens) && start < |p|
    ensures var slices := Plan(count, c, p, start);
            && slices != [] && slices[|slices| - 1].start < |p|
            && (slices[|slices| - 1].end == |p| <==> KeptWhole(count, c.maxTokens, p[slices[|slices| - 1].start..]))
    decreases |p| - start
  {
    hide SliceEnd, NextStart, WindowEnd, KeptWhole;
    SliceFacts(count, c, p, start);
    var slices := Plan(count, c, p, start);
    if WindowEnd(count, c, p, start) < |p| {
      var next := NextStart(count, c, p, start);
      PlanReachesEndIff(count, c, p, next);
      assert slices[|slices| - 1] == Plan(count, c, p, next)[|slices| - 2];
    } else {
      LastSlice(count, c, p, start);
    }
  }

  function LengthCount(s: string): nat { |s| }

  /** The end of a paragraph can be lost: with one token a character and windows of four, "aaaa b c" yields "aaaa"
      and " b ", and the final "c" is in no slice. */
  lemma {:induction false} TailCanBeLost()
    ensures var c, p := Config(4, 0), "aaaa b c";
            && ValidConfig(c) && Tokenizer(LengthCount, 4)
            && Plan(LengthCount, c, p, 0) == [Slice(0, 4), Slice(4, 7)] && |p| == 8
  {
    var c, p := Config(4, 0), "aaaa b c";
    assert GuessCharWindow(8, 8, 4) == 4;
    var w0, w1 := p[0..4], p[4..8];
    assert w0 == "aaaa" && w1 == " b c" && w0[..4] == w0 && w1[..4] == w1;
    assert LastBoundary(w0, 4) == -1 by {
      assert !IsBoundary(w0, 4) && !IsBoundary(w0, 3) && !IsBoundary(w0, 2) && !IsBoundary(w0, 1);
    }
    assert !IsBoundary(w1, 4) && IsBoundary(w1, 3);
    assert LastBoundary(w1, 4) == 3;
    assert SliceEnd(LengthCount, c, p, 0) == 4 && NextStart(LengthCount, c, p, 0) == 4;
    assert SliceEnd(LengthCount, c, p, 4) == 7;
  }

  lemma {:induction false} PlanStep(count: string -> nat, c: Config, p: string, start: nat)
    requires ValidConfig(c) && start < |p|
    ensures Plan(count, c, p, start) == [Slice(start, SliceEnd(count, c, p, start))] +
              if WindowEnd(count, c, p, start) >= |p| then [] else Plan(count, c, p, NextStart(count, c, p, start))
  {
  }

  method TakeSlice(count: string -> nat, c: Config, p: string, start: nat) returns (piece: string, end: nat, next: nat)
    requires ValidConfig(c) && Tokenizer(count, c.maxTokens) && start < |p|
    ensures end == WindowEnd(count, c, p, start) && next == NextStart(count, c, p, start)
    ensures piece == p[start..SliceEnd(count, c, p, start)] && count(piece) <= c.maxTokens
  {
    hide GuessCharWindow, EstimateOverlapRunes, IsBoundary, FitLength;
    SliceFacts(count, c, p, start);
    end := MinRune(start + GuessCharWindow(count(p), |p|, c.maxTokens), |p|);
    ghost var window := p[start..end];
    piece := FitToTokenWindow(count, p[start..end], c.maxTokens);
    var cut := LastNaturalBoundary(piece);
    if cut >= |piece| / 2 {
      piece := piece[..cut];
    }
    ghost var e := SliceEnd(count, c, p, start);
    assert p[start..e] == piece && |piece| == e - start;
    var advance := |piece| - EstimateOverlapRunes(count, c.overlapTokens, piece);
    if advance <= 0 {
      advance := 1;
    }
    next := start + advance;
  }

  /** The texts collected from the slices seen so far. */
  ghost predicate Sliced(p: string, slices: seq<Slice>, texts: seq<string>) {
    Within(p, slices) && texts == Texts(p, slices)
  }

  lemma {:induction false} SlicedOne(p: string, slices: seq<Slice>, texts: seq<string>, s: Slice)
    requires Sliced(p, slices, texts) && s.start <= s.end <= |p|
    ensures Sliced(p, slices + [s], if Blank(p[s.start..s.end]) then texts else texts + [p[s.start..s.end]])
  {
    hide Blank, Texts;
    TextsSnoc(p, slices, s);
  }

  /** What is planned after one more slice. */
  lemma {:induction false} PlanGoesOn(count: string -> nat, c: Config, p: string, start: nat, seen: seq<Slice>)
    requires ValidConfig(c) && start < |p| && Plan(count, c, p, 0) == seen + Plan(count, c, p, start)
    ensures var more := seen + [Slice(start, SliceEnd(count, c, p, start))];
            Plan(count, c, p, 0) == if WindowEnd(count, c, p, start) >= |p| then more
                                    else more + Plan(count, c, p, NextStart(count, c, p, start))
  {
    hide Plan, SliceEnd, NextStart, WindowEnd;
    PlanStep(count, c, p, start);
    var slice := Slice(start, SliceEnd(count, c, p, start));
    var rest := if WindowEnd(count, c, p, start) >= |p| then [] else Plan(count, c, p, NextStart(count, c, p, start));
    assert seen + ([slice] + rest) == (seen + [slice]) + rest;
  }

  /** The slices that are not blank, in order; a paragraph within the budget is its own only slice. */
  method SliceByTokens(count: string -> nat, c: Config, paragraph: string) returns (result: seq<string>)
    requires ValidConfig(c) && Tokenizer(count, c.maxTokens)
    ensures count(paragraph) <= c.maxTokens ==> result == [paragraph]
    ensures count(paragraph) > c.maxTokens ==>
              var slices := Plan(count, c, paragraph, 0);
              Within(paragraph, slices) && result == Texts(paragraph, slices)
    ensures forall i :: 0 <= i < |result| ==> count(result[i]) <= c.maxTokens
  {
    hide Plan, SliceEnd, NextStart, WindowEnd, Texts, Blank, Within, Sliced, Tokenizer;
    var total := count(paragraph);
    if total <= c.maxTokens {
      return [paragraph];
    }
    result := [];
    var start := 0;
    ghost var slices := [];
    NoTexts(paragraph);
    assert [] + Plan(count, c, paragraph, 0) == Plan(count, c, paragraph, 0);
    while start < |paragraph|
      invariant Plan(count, c, paragraph, 0) == slices + Plan(count, c, paragraph, start)
      invariant Sliced(paragraph, slices, result)
      invariant forall i :: 0 <= i < |result| ==> count(result[i]) <= c.maxTokens
    {
      var piece, end, next := TakeSlice(count, c, paragraph, start);
      ghost var slice := Slice(start, SliceEnd(count, c, paragraph, start));
      PlanGoesOn(count, c, paragraph, start, slices);
      SlicedOne(paragraph, slices, result, slice);
      slices := slices + [slice];
      if !Blank(piece) {
        result := result + [piece];
      }
      if end >= |paragraph| {
        SlicedAll(paragraph, slices, result);
        return;
      }
      start := next;
    }
    PlanDone(count, c, paragraph, start);
    assert slices + [] == slices;
    SlicedAll(paragraph, slices, result);
  }

  lemma {:induction false} SlicedAll(p: string, slices: seq<Slice>, texts: seq<string>)
    requires Sliced(p, slices, texts)
    ensures Within(p, slices) && texts == Texts(p, slices)
  {
  }

  lemma {:induction false} PlanDone(count: string -> nat, c: Config, p: string, start: nat)
    requires ValidConfig(c) && start >= |p|
    ensures Plan(count, c, p, start) == []
  {
  }

  lemma {:induction false} NoTexts(p: string)
    ensures Texts(p, []) == [] && Sliced(p, [], [])
  {
  }

  lemma {:induction false} TextsSnoc(p: string, slices: seq<Slice>, s: Slice)
    requires Within(p, slices) && s.start <= s.end <= |p|
    ensures Within(p, slices + [s])
    ensures Texts(p, slices + [s]) == Texts(p, slices) + if Blank(p[s.start..s.end]) then [] else [p[s.start..s.end]]
  {
    hide Blank;
    assert (slices + [s])[..|slices|] == slices;
  }
}
