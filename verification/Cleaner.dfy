/** internal/ingestion/cleaner.go: deterministic, formatting-level Markdown cleanup. */
module Cleaner {
  import opened Text

  // The code-block state machine ---------------------------------------------

  datatype Block = Outside | Indented | Fenced(mark: char, length: nat)

  predicate IsIndentedCodeLine(line: string) {
    "\t" <= line || "    " <= line
  }

  predicate OpensFence(trimmed: string) {
    |trimmed| >= 3 && (trimmed[0] == '`' || trimmed[0] == '~') && RunLength(trimmed, trimmed[0]) >= 3
  }

  predicate ClosesFence(mark: char, length: nat, line: string) {
    var spaces := RunLength(line, ' ');
    var rest := line[spaces..];
    && spaces <= 3
    && rest != "" && rest[0] == mark
    && RunLength(rest, mark) >= length
    && Blank(rest[RunLength(rest, mark)..])
  }

  /** Whether a line met in state b belongs to a code block. */
  predicate Protected(b: Block, line: string) {
    || b.Fenced?
    || IsIndentedCodeLine(line)
    || (b.Indented? && Blank(line))
    || OpensFence(TrimSpace(line))
  }

  function After(b: Block, line: string): Block {
    if b.Fenced? then
      if ClosesFence(b.mark, b.length, line) then Outside else b
    else if IsIndentedCodeLine(line) || (b.Indented? && Blank(line)) then Indented
    else
      var t := TrimSpace(line);
      if OpensFence(t) then Fenced(t[0], RunLength(t, t[0])) else Outside
  }

  /** The lines of ls that a scan starting in state b treats as code. */
  function Code(b: Block, ls: seq<string>): seq<string>
    decreases |ls|
  {
    if ls == [] then []
    else (if Protected(b, ls[0]) then [ls[0]] else []) + Code(After(b, ls[0]), ls[1..])
  }

  /** Every line outside code satisfies p. */
  predicate AllOutside(b: Block, ls: seq<string>, p: string -> bool)
    decreases |ls|
  {
    ls == [] || ((Protected(b, ls[0]) || p(ls[0])) && AllOutside(After(b, ls[0]), ls[1..], p))
  }

  // The five rules -------------------------------------------------------------

  function ReplaceCrLf(s: string): string {
    if |s| >= 2 && s[0] == '\r' && s[1] == '\n' then "\n" + ReplaceCrLf(s[2..])
    else if s == "" then ""
    else [s[0]] + ReplaceCrLf(s[1..])
  }

  function ReplaceCr(s: string): string {
    if s == "" then "" else [if s[0] == '\r' then '\n' else s[0]] + ReplaceCr(s[1..])
  }

  function NormalizeNewlines(s: string): string {
    ReplaceCr(ReplaceCrLf(s))
  }

  predicate Unsafe(c: char) {
    IsControl(c) && c != '\n' && c != '\t'
  }

  function RemoveUnsafeControls(s: string): (r: string)
    ensures forall c :: c in r ==> c in s && !Unsafe(c)
  {
    if s == "" then ""
    else (if Unsafe(s[0]) then "" else [s[0]]) + RemoveUnsafeControls(s[1..])
  }

  /** Line feeds, tabs and every character that is no control character. */
  predicate Printable(c: char) {
    c == '\n' || c == '\t' || 0x20 <= c as int < 0x7F || 0xA0 <= c as int
  }

  lemma {:induction false} SafeExactly(c: char)
    ensures !Unsafe(c) <==> Printable(c)
  {
  }

  /** r is made of the printable characters of s from a position on, all of them and in order; at lists their
      positions. */
  ghost predicate Picks(s: string, from: nat, r: string, at: seq<nat>) {
    && |at| == |r| && (forall i :: 0 <= i < |at| ==> from <= at[i] < |s| && r[i] == s[at[i]])
    && (forall i, j :: 0 <= i < j < |at| ==> at[i] < at[j])
    && (forall k :: from <= k < |s| ==> (k in at <==> Printable(s[k])))
  }

  lemma {:induction false} PickOne(s: string, from: nat, r: string, at: seq<nat>)
    requires from < |s| && Picks(s, from + 1, r, at)
    ensures if Printable(s[from]) then Picks(s, from, [s[from]] + r, [from] + at) else Picks(s, from, r, at)
  {
    hide Printable;
    if Printable(s[from]) {
      var longer := [from] + at;
      forall k | from <= k < |s| ensures k in longer <==> Printable(s[k]) {
        assert k in longer <==> k == from || k in at;
      }
    }
  }

  lemma {:induction false} PickNone(s: string)
    ensures Picks(s, |s|, RemoveUnsafeControls(s[|s|..]), [])
  {
  }

  /** Exactly the printable characters are kept, in order. */
  lemma {:induction false} SafeCharsKept(s: string, from: nat) returns (at: seq<nat>)
    requires from <= |s|
    ensures Picks(s, from, RemoveUnsafeControls(s[from..]), at)
    decreases |s| - from
  {
    hide Unsafe, Picks, Printable;
    if from == |s| {
      at := [];
      PickNone(s);
    } else {
      assert s[from..][1..] == s[from + 1..] && s[from..][0] == s[from];
      at := SafeCharsKept(s, from + 1);
      var r := RemoveUnsafeControls(s[from + 1..]);
      PickOne(s, from, r, at);
      SafeExactly(s[from]);
      assert "" + r == r;
      if !Unsafe(s[from]) { at := [from] + at; }
    }
  }

  function Trim(b: Block, ls: seq<string>): seq<string>
    decreases |ls|
  {
    if ls == [] then []
    else [if Protected(b, ls[0]) then ls[0] else TrimBlanksRight(ls[0])] + Trim(After(b, ls[0]), ls[1..])
  }

  predicate IsEmptyHeading(line: string) {
    line != "" && (forall c :: c in line ==> c == '#' || IsSpace(c)) && '#' in line
  }

  /** strings.Index(s, "](") counted from position from; |s| when there is none. */
  function IndexOfLink(s: string, from: nat): (i: nat)
    requires from <= |s|
    ensures from <= i <= |s|
    ensures i < |s| ==> "](" <= s[i..]
    decreases |s| - from
  {
    if from == |s| then from else if "](" <= s[from..] then from else IndexOfLink(s, from + 1)
  }

  predicate IsEmptyImagePlaceholder(line: string) {
    || line == "![]" || line == "![]()"
    || (&& "![" <= line && line[|line| - 1] == ')'
        && var i := IndexOfLink(line, 0);
           && 2 <= i < |line| && i + 2 <= |line| - 1
           && Blank(line[2..i]) && Blank(line[i + 2..|line| - 1]))
  }

  /** What removeEmptyArtifacts drops outside code. */
  predicate IsArtifact(line: string) {
    var t := TrimSpace(line);
    IsEmptyHeading(t) || IsEmptyImagePlaceholder(t) || t == "<!-- image -->"
  }

  function Remove(b: Block, ls: seq<string>): seq<string>
    decreases |ls|
  {
    if ls == [] then []
    else (if Protected(b, ls[0]) || !IsArtifact(ls[0]) then [ls[0]] else []) + Remove(After(b, ls[0]), ls[1..])
  }

  /** collapseBlankLines before the final blank line is dropped. */
  function Collapse(b: Block, previousBlank: bool, ls: seq<string>): seq<string>
    decreases |ls|
  {
    if ls == [] then []
    else
      var rest := After(b, ls[0]);
      if Protected(b, ls[0]) then [ls[0]] + Collapse(rest, false, ls[1..])
      else if Blank(ls[0]) then (if previousBlank then [] else [""]) + Collapse(rest, true, ls[1..])
      else [ls[0]] + Collapse(rest, false, ls[1..])
  }

  predicate LastProtected(b: Block, ls: seq<string>)
    decreases |ls|
  {
    ls != [] && if |ls| == 1 then Protected(b, ls[0]) else LastProtected(After(b, ls[0]), ls[1..])
  }

  function DropLast(ls: seq<string>, lastProtected: bool): seq<string> {
    if |ls| > 0 && ls[|ls| - 1] == "" && !lastProtected then ls[..|ls| - 1] else ls
  }

  function CollapseLines(ls: seq<string>): seq<string> {
    DropLast(Collapse(Outside, true, ls), LastProtected(Outside, ls))
  }

  function TrimLineEnds(s: string): string { JoinLines(Trim(Outside, Lines(s))) }

  function RemoveEmptyArtifacts(s: string): string { JoinLines(Remove(Outside, Lines(s))) }

  function CollapseBlankLines(s: string): string { JoinLines(CollapseLines(Lines(s))) }

  function Cleaned(markdown: string): string {
    CollapseBlankLines(RemoveEmptyArtifacts(TrimLineEnds(RemoveUnsafeControls(NormalizeNewlines(markdown)))))
  }

  // Trimming -------------------------------------------------------------------

  predicate Trimmed(line: string) { TrimBlanksRight(line) == line }

  predicate Kept(line: string) { !IsArtifact(line) }

  /** Trimming a line outside code does not move the scan. */
  lemma {:induction false} TrimmedLineScansAlike(b: Block, line: string)
    requires !Protected(b, line)
    ensures !Protected(b, TrimBlanksRight(line)) && After(b, TrimBlanksRight(line)) == After(b, line) == Outside
  {
    TrimBlanksRightFacts(line);
  }

  lemma {:induction false} TrimOutcome(b: Block, ls: seq<string>)
    ensures AllOutside(b, Trim(b, ls), Trimmed)
    ensures Code(b, Trim(b, ls)) == Code(b, ls)
    ensures NewlineFree(ls) ==> NewlineFree(Trim(b, ls))
    decreases |ls|
  {
    hide Protected, After, Blank, IsArtifact;
    if ls != [] {
      TrimOutcome(After(b, ls[0]), ls[1..]);
      assert Trim(b, ls)[1..] == Trim(After(b, ls[0]), ls[1..]);
      TrimBlanksRightFacts(ls[0]);
      assert ls[0] in ls && forall l :: l in ls[1..] ==> l in ls;
      if !Protected(b, ls[0]) {
        TrimmedLineScansAlike(b, ls[0]);
      }
    }
  }

  lemma {:induction false} TrimFixed(b: Block, ls: seq<string>)
    requires AllOutside(b, ls, Trimmed)
    ensures Trim(b, ls) == ls
    decreases |ls|
  {
    hide Protected, After, Blank, IsArtifact;
    if ls != [] {
      TrimFixed(After(b, ls[0]), ls[1..]);
    }
  }

  // Removing -------------------------------------------------------------------

  /** Removing lines can only leave a scan inside an indented block that the original scan had left. */
  predicate Covers(wide: Block, narrow: Block) {
    wide == narrow || (wide.Indented? && narrow.Outside?)
  }

  lemma {:induction false} CoversStep(wide: Block, narrow: Block, line: string)
    requires Covers(wide, narrow)
    ensures Covers(After(wide, line), After(narrow, line))
    ensures Protected(narrow, line) ==> Protected(wide, line)
    ensures Protected(wide, line) && !Protected(narrow, line) ==> Blank(line)
    ensures !Protected(narrow, line) ==> After(narrow, line) == Outside && !wide.Fenced? && Covers(wide, Outside)
  {
  }

  /** Removal keeps what held outside code and leaves no artifact there, even where it widens the code. */
  lemma {:induction false} RemoveOutcome(wide: Block, narrow: Block, ls: seq<string>, p: string -> bool)
    requires Covers(wide, narrow) && AllOutside(narrow, ls, p)
    ensures AllOutside(wide, Remove(narrow, ls), p)
    ensures AllOutside(wide, Remove(narrow, ls), Kept)
    decreases |ls|
  {
    hide Protected, After, Blank, IsArtifact;
    if ls != [] {
      CoversStep(wide, narrow, ls[0]);
      var rest := Remove(After(narrow, ls[0]), ls[1..]);
      if Protected(narrow, ls[0]) || !IsArtifact(ls[0]) {
        RemoveOutcome(After(wide, ls[0]), After(narrow, ls[0]), ls[1..], p);
        assert Remove(narrow, ls)[1..] == rest;
      } else {
        RemoveOutcome(wide, Outside, ls[1..], p);
        assert Remove(narrow, ls) == rest;
      }
    }
  }

  lemma {:induction false} RemoveFixed(b: Block, ls: seq<string>)
    requires AllOutside(b, ls, Kept)
    ensures Remove(b, ls) == ls
    decreases |ls|
  {
    hide Protected, After, Blank, IsArtifact;
    if ls != [] {
      RemoveFixed(After(b, ls[0]), ls[1..]);
    }
  }

  function NonBlank(ls: seq<string>): seq<string> {
    if ls == [] then [] else (if Blank(ls[0]) then [] else [ls[0]]) + NonBlank(ls[1..])
  }

  lemma {:induction false} NonBlankConcat(a: seq<string>, b: seq<string>)
    ensures NonBlank(a + b) == NonBlank(a) + NonBlank(b)
  {
    if a == [] {
      assert a + b == b;
    } else {
      assert (a + b)[1..] == a[1..] + b;
      NonBlankConcat(a[1..], b);
    }
  }

  /** sub can be obtained from ls by deleting lines. */
  predicate Subsequence(sub: seq<string>, ls: seq<string>) {
    if sub == [] then true
    else if ls == [] then false
    else if sub[0] == ls[0] then Subsequence(sub[1..], ls[1..])
    else Subsequence(sub, ls[1..])
  }

  /** Removal keeps every line of code verbatim and in order, and adds only blank lines to the code. */
  lemma {:induction false} RemoveKeepsCode(wide: Block, narrow: Block, ls: seq<string>)
    requires Covers(wide, narrow)
    ensures NonBlank(Code(wide, Remove(narrow, ls))) == NonBlank(Code(narrow, ls))
    ensures NewlineFree(ls) ==> NewlineFree(Remove(narrow, ls))
    decreases |ls|
  {
    hide Protected, After, Blank, IsArtifact;
    if ls != [] {
      CoversStep(wide, narrow, ls[0]);
      var rest := Remove(After(narrow, ls[0]), ls[1..]);
      var code := Code(After(narrow, ls[0]), ls[1..]);
      NonBlankConcat([ls[0]], code);
      if Protected(narrow, ls[0]) || !IsArtifact(ls[0]) {
        RemoveKeepsCode(After(wide, ls[0]), After(narrow, ls[0]), ls[1..]);
        assert Remove(narrow, ls)[1..] == rest;
        var wideCode := Code(After(wide, ls[0]), rest);
        NonBlankConcat([ls[0]], wideCode);
        assert NonBlank([ls[0]]) == if Blank(ls[0]) then [] else [ls[0]];
        assert [] + code == code && [] + wideCode == wideCode;
      } else {
        RemoveKeepsCode(wide, Outside, ls[1..]);
        assert Remove(narrow, ls) == rest;
        assert Code(narrow, ls) == code;
      }
    }
  }

  lemma {:induction false} RemoveDeletesOnlyArtifacts(b: Block, ls: seq<string>)
    ensures Subsequence(Code(b, ls), Remove(b, ls))
    decreases |ls|
  {
    hide Protected, After, Blank, IsArtifact;
    if ls != [] {
      RemoveDeletesOnlyArtifacts(After(b, ls[0]), ls[1..]);
      var code, rest := Code(After(b, ls[0]), ls[1..]), Remove(After(b, ls[0]), ls[1..]);
      if Protected(b, ls[0]) {
        assert Code(b, ls)[1..] == code && Remove(b, ls)[1..] == rest;
      } else {
        assert Code(b, ls) == code;
        if !IsArtifact(ls[0]) {
          assert Remove(b, ls)[1..] == rest;
          SubsequenceWeaken(code, ls[0], rest);
          assert Remove(b, ls) == [ls[0]] + rest;
        } else {
          assert Remove(b, ls) == rest;
        }
      }
    }
  }

  lemma {:induction false} SubsequenceWeaken(sub: seq<string>, l: string, ls: seq<string>)
    requires Subsequence(sub, ls)
    ensures Subsequence(sub, [l] + ls)
    decreases |sub| + |ls|
  {
    assert ([l] + ls)[1..] == ls;
    if sub != [] && sub[0] == l {
      SubsequenceTail(sub, ls);
    }
  }

  lemma {:induction false} SubsequenceTail(sub: seq<string>, ls: seq<string>)
    requires sub != [] && Subsequence(sub, ls)
    ensures Subsequence(sub[1..], ls)
  {
    if sub[0] == ls[0] {
      assert ls == [ls[0]] + ls[1..];
      if |sub| > 1 && sub[1] == ls[0] {
        SubsequenceTail(sub[1..], ls[1..]);
      }
    } else {
      SubsequenceTail(sub, ls[1..]);
      if |sub| > 1 && sub[1] == ls[0] {
        SubsequenceTail(sub[1..], ls[1..]);
      }
    }
  }

  // Collapsing -----------------------------------------------------------------

  /** Outside code: blank lines are empty, never adjacent, and never come first when previousBlank. */
  predicate Tight(b: Block, previousBlank: bool, ls: seq<string>)
    decreases |ls|
  {
    ls == [] ||
    (var rest := After(b, ls[0]);
     if Protected(b, ls[0]) then Tight(rest, false, ls[1..])
     else if Blank(ls[0]) then ls[0] == "" && !previousBlank && Tight(rest, true, ls[1..])
     else Tight(rest, false, ls[1..]))
  }

  /** The last line is blank and outside code. */
  predicate EndsBlank(b: Block, ls: seq<string>)
    decreases |ls|
  {
    ls != [] && if |ls| == 1 then !Protected(b, ls[0]) && Blank(ls[0]) else EndsBlank(After(b, ls[0]), ls[1..])
  }

  lemma {:induction false} EmptyLine(b: Block, line: string)
    ensures Blank("") && !IsArtifact("") && Trimmed("")
    ensures !Protected(Outside, "") && After(Outside, "") == Outside
    ensures !Protected(b, line) && Blank(line) ==> b == Outside && After(b, line) == Outside
  {
  }

  lemma {:induction false} CollapseOutcome(b: Block, prev: bool, ls: seq<string>, p: string -> bool)
    requires AllOutside(b, ls, p) && p("")
    ensures AllOutside(b, Collapse(b, prev, ls), p)
    ensures Tight(b, prev, Collapse(b, prev, ls))
    ensures Code(b, Collapse(b, prev, ls)) == Code(b, ls)
    ensures NewlineFree(ls) ==> NewlineFree(Collapse(b, prev, ls))
    decreases |ls|
  {
    hide Protected, After, Blank, IsArtifact;
    if ls != [] {
      EmptyLine(b, ls[0]);
      var rest := After(b, ls[0]);
      var blank := !Protected(b, ls[0]) && Blank(ls[0]);
      var tail := Collapse(rest, blank, ls[1..]);
      CollapseOutcome(rest, blank, ls[1..], p);
      if blank && prev {
        assert Collapse(b, prev, ls) == tail;
      } else {
        assert Collapse(b, prev, ls)[1..] == tail;
      }
    }
  }

  lemma {:induction false} CollapseFixed(b: Block, prev: bool, ls: seq<string>)
    requires Tight(b, prev, ls)
    ensures Collapse(b, prev, ls) == ls
    decreases |ls|
  {
    hide Protected, After, Blank, IsArtifact;
    if ls != [] {
      CollapseFixed(After(b, ls[0]), !Protected(b, ls[0]) && Blank(ls[0]), ls[1..]);
    }
  }

  lemma {:induction false} CollapseToNothing(b: Block, prev: bool, ls: seq<string>)
    requires Collapse(b, prev, ls) == []
    ensures ls == [] || (prev && !LastProtected(b, ls))
    decreases |ls|
  {
    hide Protected, After, Blank, IsArtifact;
    if ls != [] {
      assert !Protected(b, ls[0]) && Blank(ls[0]) && prev;
      CollapseToNothing(After(b, ls[0]), true, ls[1..]);
    }
  }

  /** The line that stands for the first one, when it is not dropped. */
  function Stand(b: Block, line: string): string {
    if !Protected(b, line) && Blank(line) then "" else line
  }

  lemma {:induction false} CollapseCons(b: Block, prev: bool, ls: seq<string>)
    requires ls != []
    ensures var blank, x := !Protected(b, ls[0]) && Blank(ls[0]), Stand(b, ls[0]);
            var tail := Collapse(After(b, ls[0]), blank, ls[1..]);
            && Collapse(b, prev, ls) == (if blank && prev then tail else [x] + tail)
            && After(b, x) == After(b, ls[0]) && (Protected(b, x) <==> Protected(b, ls[0]))
            && (blank ==> b == Outside && After(b, ls[0]) == Outside)
  {
    hide Protected, After, Blank;
    EmptyLine(b, ls[0]);
  }

  lemma {:induction false} LastCons(b: Block, x: string, tail: seq<string>)
    ensures tail != [] ==> EndsBlank(b, [x] + tail) == EndsBlank(After(b, x), tail)
    ensures tail != [] ==> LastProtected(b, [x] + tail) == LastProtected(After(b, x), tail)
    ensures EndsBlank(b, [x]) == (!Protected(b, x) && Blank(x)) && LastProtected(b, [x]) == Protected(b, x)
  {
    hide Protected, After, Blank;
    assert ([x] + tail)[1..] == tail;
  }

  /** The last line of the output is empty although the last line of the input does not stand in code. */
  predicate OpenEnd(b: Block, out: seq<string>, ls: seq<string>) {
    out != [] && out[|out| - 1] == "" && !LastProtected(b, ls)
  }

  /** Only the first line is left of them all. */
  lemma {:induction false} OneLeft(b: Block, prev: bool, ls: seq<string>)
    requires ls != [] && Collapse(b, prev, ls) == [Stand(b, ls[0])]
    requires Collapse(After(b, ls[0]), !Protected(b, ls[0]) && Blank(ls[0]), ls[1..]) == []
    ensures OpenEnd(b, Collapse(b, prev, ls), ls) <==> EndsBlank(b, Collapse(b, prev, ls))
  {
    hide Protected, After, Blank, Collapse, LastProtected, EndsBlank;
    var x := Stand(b, ls[0]);
    CollapseToNothing(After(b, ls[0]), !Protected(b, ls[0]) && Blank(ls[0]), ls[1..]);
    EmptyLine(b, ls[0]);
    LastCons(b, x, []);
    LastCons(b, ls[0], ls[1..]);
    assert [ls[0]] + ls[1..] == ls;
    if ls[1..] == [] {
      assert ls == [ls[0]];
    }
  }

  /** The source tests the last input line; that decides whether the last output line is a blank outside code. */
  lemma {:induction false} DropsExactlyOpenBlank(b: Block, prev: bool, ls: seq<string>)
    ensures OpenEnd(b, Collapse(b, prev, ls), ls) <==> EndsBlank(b, Collapse(b, prev, ls))
    decreases |ls|
  {
    if ls == [] {
      assert Collapse(b, prev, ls) == [];
    } else {
      DropsExactlyCons(b, prev, ls);
    }
  }

  lemma {:induction false} DropsExactlyCons(b: Block, prev: bool, ls: seq<string>)
    requires ls != []
    ensures OpenEnd(b, Collapse(b, prev, ls), ls) <==> EndsBlank(b, Collapse(b, prev, ls))
    decreases |ls|, 0
  {
    hide Protected, After, Blank, Collapse, LastProtected, EndsBlank, Stand;
    var rest, blank := After(b, ls[0]), !Protected(b, ls[0]) && Blank(ls[0]);
    var tail := Collapse(rest, blank, ls[1..]);
    CollapseCons(b, prev, ls);
    NothingCollapses(rest, blank, ls[1..]);
    LastCons(b, ls[0], ls[1..]);
    assert [ls[0]] + ls[1..] == ls;
    DropsExactlyOpenBlank(rest, blank, ls[1..]);
    if blank && prev {
    } else if tail == [] {
      assert [Stand(b, ls[0])] + tail == [Stand(b, ls[0])];
      OneLeft(b, prev, ls);
    } else {
      LastCons(b, Stand(b, ls[0]), tail);
    }
  }

  lemma {:induction false} NothingCollapses(b: Block, prev: bool, ls: seq<string>)
    ensures ls == [] ==> Collapse(b, prev, ls) == []
    ensures !EndsBlank(b, [])
  {
  }

  lemma {:induction false} ShortenedStays(b: Block, prev: bool, ls: seq<string>, p: string -> bool)
    requires ls != [] && AllOutside(b, ls, p) && Tight(b, prev, ls)
    ensures AllOutside(b, ls[..|ls| - 1], p) && Tight(b, prev, ls[..|ls| - 1])
    ensures EndsBlank(b, ls) ==> !EndsBlank(b, ls[..|ls| - 1]) && Code(b, ls[..|ls| - 1]) == Code(b, ls)
    decreases |ls|
  {
    hide Protected, After, Blank, IsArtifact;
    var short := ls[..|ls| - 1];
    if |ls| > 1 {
      var rest := After(b, ls[0]);
      assert short[0] == ls[0] && short[1..] == ls[1..][..|ls| - 2];
      ShortenedStays(rest, !Protected(b, ls[0]) && Blank(ls[0]), ls[1..], p);
      assert EndsBlank(b, ls) ==> EndsBlank(rest, ls[1..]);
      if |short| == 1 {
        assert ls[1..] == [ls[1]] && ls[1..][..0] == [];
      }
    } else {
      assert ls[1..] == [];
    }
  }

  /** The lines collapseBlankLines leaves: every fact that held outside code still does, blank lines are single
      and neither first nor last, and the code lines are exactly those of the input. */
  lemma {:induction false} CollapseLinesOutcome(ls: seq<string>, p: string -> bool)
    requires AllOutside(Outside, ls, p) && p("")
    ensures var m := CollapseLines(ls);
            && AllOutside(Outside, m, p) && Tight(Outside, true, m) && !EndsBlank(Outside, m)
            && Code(Outside, m) == Code(Outside, ls)
            && (NewlineFree(ls) ==> NewlineFree(m))
  {
    CollapseOutcome(Outside, true, ls, p);
    DropsExactlyOpenBlank(Outside, true, ls);
    var out := Collapse(Outside, true, ls);
    if EndsBlank(Outside, out) {
      ShortenedStays(Outside, true, out, p);
    }
  }

  lemma {:induction false} CollapseLinesFixed(m: seq<string>)
    requires Tight(Outside, true, m) && !EndsBlank(Outside, m)
    ensures CollapseLines(m) == m
  {
    CollapseFixed(Outside, true, m);
    DropsExactlyOpenBlank(Outside, true, m);
  }

  // The whole cleaner ------------------------------------------------------------

  predicate Settled(s: string) {
    forall c :: c in s ==> !Unsafe(c)
  }

  lemma {:induction false} SettledFixed(s: string)
    requires Settled(s)
    ensures NormalizeNewlines(s) == s && RemoveUnsafeControls(s) == s
  {
    if s != "" {
      assert s[0] in s;
      assert forall c :: c in s[1..] ==> c in s;
      SettledFixed(s[1..]);
      NoCr(s);
    }
  }

  lemma {:induction false} NoCr(s: string)
    requires '\r' !in s
    ensures ReplaceCrLf(s) == s && ReplaceCr(s) == s
  {
    if s != "" {
      NoCr(s[1..]);
    }
  }

  ghost predicate CharsFrom(out: seq<string>, ls: seq<string>) {
    forall l, c :: l in out && c in l ==> exists k :: k in ls && c in k
  }

  lemma {:induction false} TrimChars(b: Block, ls: seq<string>)
    ensures CharsFrom(Trim(b, ls), ls)
    decreases |ls|
  {
    hide Protected, After, Blank, IsArtifact;
    if ls != [] {
      TrimChars(After(b, ls[0]), ls[1..]);
      TrimBlanksRightFacts(ls[0]);
      assert ls[0] in ls;
    }
  }

  lemma {:induction false} RemoveChars(b: Block, ls: seq<string>)
    ensures CharsFrom(Remove(b, ls), ls)
    decreases |ls|
  {
    hide Protected, After, Blank, IsArtifact;
    if ls != [] {
      RemoveChars(After(b, ls[0]), ls[1..]);
      assert ls[0] in ls;
    }
  }

  lemma {:induction false} CollapseChars(b: Block, prev: bool, ls: seq<string>)
    ensures CharsFrom(Collapse(b, prev, ls), ls)
    decreases |ls|
  {
    hide Protected, After, Blank, IsArtifact;
    if ls != [] {
      CollapseChars(After(b, ls[0]), !Protected(b, ls[0]) && Blank(ls[0]), ls[1..]);
      assert ls[0] in ls;
    }
  }

  ghost predicate SafeLines(ls: seq<string>) {
    forall l, c :: l in ls && c in l ==> !Unsafe(c)
  }

  lemma {:induction false} CharsStaySafe(out: seq<string>, ls: seq<string>)
    requires CharsFrom(out, ls) && SafeLines(ls)
    ensures SafeLines(out)
  {
    hide Unsafe;
  }

  lemma {:induction false} SafeLinesOf(s: string)
    requires Settled(s)
    ensures SafeLines(Lines(s))
  {
    hide Unsafe;
    LinesFacts(s);
    forall l, c | l in Lines(s) && c in l ensures !Unsafe(c) {
      assert c in s;
    }
  }

  lemma {:induction false} SettledJoin(m: seq<string>)
    requires SafeLines(m)
    ensures Settled(JoinLines(m))
  {
    forall c | c in JoinLines(m) ensures !Unsafe(c) {
      if c != '\n' {
        var i :| 0 <= i < |m| && c in m[i];
      }
    }
  }

  lemma {:induction false} ControlsRemoved(s: string)
    ensures Settled(RemoveUnsafeControls(s))
  {
  }

  lemma {:induction false} SettledResult(markdown: string)
    ensures Settled(Cleaned(markdown))
  {
    hide Unsafe, SafeLines, CharsFrom, Trim, Remove, Collapse, Settled;
    var s2 := RemoveUnsafeControls(NormalizeNewlines(markdown));
    ControlsRemoved(NormalizeNewlines(markdown));
    SafeLinesOf(s2);
    var t := Trim(Outside, Lines(s2));
    TrimChars(Outside, Lines(s2));
    CharsStaySafe(t, Lines(s2));
    SettledJoin(t);
    SafeLinesOf(JoinLines(t));
    var r := Remove(Outside, Lines(JoinLines(t)));
    RemoveChars(Outside, Lines(JoinLines(t)));
    CharsStaySafe(r, Lines(JoinLines(t)));
    SettledJoin(r);
    SafeLinesOf(JoinLines(r));
    var k := Lines(JoinLines(r));
    CollapseChars(Outside, true, k);
    CharsStaySafe(Collapse(Outside, true, k), k);
    SafeDrop(Collapse(Outside, true, k), LastProtected(Outside, k));
    SettledJoin(CollapseLines(k));
  }

  lemma {:induction false} SafeDrop(ls: seq<string>, lastProtected: bool)
    requires SafeLines(ls)
    ensures SafeLines(DropLast(ls, lastProtected))
  {
    hide Unsafe;
  }

  lemma {:induction false} TrimKeepsCount(b: Block, ls: seq<string>)
    ensures ls != [] ==> Trim(b, ls) != []
  {
  }

  /** Nothing left is one empty line, which no rule minds. */
  lemma {:induction false} EmptyDocument()
    ensures var k := Lines(JoinLines([]));
            k == [""] && AllOutside(Outside, k, Trimmed) && AllOutside(Outside, k, Kept)
                && Code(Outside, k) == Code(Outside, [])
    ensures Covers(Outside, Outside) && Trimmed("") && Kept("")
  {
    EmptyLine(Outside, "");
  }

  /** The pipeline seen on lines: ls are the lines after control removal, m the lines of the result. */
  lemma {:induction false} CleanedLines(markdown: string) returns (ls: seq<string>, m: seq<string>)
    ensures ls == Lines(RemoveUnsafeControls(NormalizeNewlines(markdown)))
    ensures Cleaned(markdown) == JoinLines(m) && NewlineFree(m) && Settled(Cleaned(markdown))
    ensures AllOutside(Outside, m, Trimmed) && AllOutside(Outside, m, Kept)
    ensures Tight(Outside, true, m) && !EndsBlank(Outside, m)
    ensures NonBlank(Code(Outside, m)) == NonBlank(Code(Outside, ls))
  {
    hide Trim, Remove, Collapse, CollapseLines, AllOutside, Code, NonBlank, Tight, EndsBlank, Settled, Trimmed, Kept,
        Covers, RemoveUnsafeControls,
        NormalizeNewlines, Lines, JoinLines;
    var s2 := RemoveUnsafeControls(NormalizeNewlines(markdown));
    ls := Lines(s2);
    LinesFacts(s2);
    EmptyDocument();
    var t := Trim(Outside, ls);
    TrimOutcome(Outside, ls);
    TrimKeepsCount(Outside, ls);
    LinesOfJoin(t);
    var r := Remove(Outside, t);
    RemoveOutcome(Outside, Outside, t, Trimmed);
    RemoveKeepsCode(Outside, Outside, t);
    var k := Lines(JoinLines(r));
    if r != [] { LinesOfJoin(r); }
    m := CollapseLines(k);
    CollapseLinesOutcome(k, Trimmed);
    CollapseLinesOutcome(k, Kept);
    SettledResult(markdown);
  }

  /** Cleaning an already cleaned document changes nothing. */
  lemma {:induction false} CleanIsIdempotent(markdown: string)
    ensures Cleaned(Cleaned(markdown)) == Cleaned(markdown)
  {
    var _, m := CleanedLines(markdown);
    var y := Cleaned(markdown);
    SettledFixed(y);
    if m == [] {
      assert y == "" && Lines(y) == [""];
      EmptyLine(Outside, "");
      assert Trim(Outside, [""]) == [""] && Remove(Outside, [""]) == [""] && CollapseLines([""]) == [];
    } else {
      LinesOfJoin(m);
      TrimFixed(Outside, m);
      RemoveFixed(Outside, m);
      CollapseLinesFixed(m);
    }
  }

  /** What a reader may rely on in a cleaned document that is not empty: outside code no line ends in a space or tab
      and none is an empty heading or image, blank lines are single and neither first nor last; and the code
      lines that are not blank are those of the input, verbatim and in order. */
  lemma {:induction false} CleanedShape(markdown: string)
    ensures var m := Lines(Cleaned(markdown));
            var ls := Lines(RemoveUnsafeControls(NormalizeNewlines(markdown)));
            && AllOutside(Outside, m, Trimmed) && AllOutside(Outside, m, Kept)
            && (Cleaned(markdown) != "" ==> Tight(Outside, true, m) && !EndsBlank(Outside, m))
            && NonBlank(Code(Outside, m)) == NonBlank(Code(Outside, ls))
  {
    var _, m := CleanedLines(markdown);
    EmptyLine(Outside, "");
    if m != [] {
      LinesOfJoin(m);
    } else {
      assert Lines("") == [""];
      assert Code(Outside, [""]) == [];
    }
  }

  // The code as written ------------------------------------------------------------

  method LeadingRun(line: string, c: char) returns (length: nat)
    ensures length == RunLength(line, c)
  {
    length := 0;
    while length < |line| && line[length] == c
      invariant length <= |line| && forall i :: 0 <= i < length ==> line[i] == c
    {
      length := length + 1;
    }
    RunLengthUnique(line, c, length);
  }

  class CodeBlockState {
    var fenceChar: char
    var fenceLength: nat
    var indented: bool

    ghost predicate Valid()
      reads this
    {
      fenceChar != '\0' ==> !indented && fenceLength >= 3
    }

    ghost function State(): Block
      reads this
    {
      if fenceChar != '\0' then Fenced(fenceChar, fenceLength) else if indented then Indented else Outside
    }

    constructor ()
      ensures Valid() && State() == Outside
    {
      fenceChar, fenceLength, indented := '\0', 0, false;
    }

    method IsClosingFence(line: string) returns (closes: bool)
      requires Valid() && fenceChar != '\0'
      ensures closes == ClosesFence(fenceChar, fenceLength, line)
    {
      var leadingSpaces := LeadingRun(line, ' ');
      if leadingSpaces > 3 {
        return false;
      }
      var rest := line[leadingSpaces..];
      if |rest| < fenceLength || rest[0] != fenceChar {
        return false;
      }
      var length := LeadingRun(rest, fenceChar);
      closes := length >= fenceLength && Blank(rest[length..]);
    }

    method Contains(line: string) returns (inCode: bool)
      requires Valid()
      modifies this
      ensures Valid()
      ensures inCode == Protected(old(State()), line) && State() == After(old(State()), line)
    {
      var trimmed := TrimSpace(line);
      if fenceChar != '\0' {
        var closes := IsClosingFence(line);
        if closes {
          fenceChar, fenceLength := '\0', 0;
        }
        return true;
      }
      if indented {
        if IsIndentedCodeLine(line) || trimmed == "" {
          return true;
        }
        indented := false;
      }
      if IsIndentedCodeLine(line) {
        indented := true;
        return true;
      }
      if |trimmed| >= 3 && (trimmed[0] == '`' || trimmed[0] == '~') {
        var length := LeadingRun(trimmed, trimmed[0]);
        if length >= 3 {
          fenceChar, fenceLength := trimmed[0], length;
          return true;
        }
      }
      return false;
    }
  }

  lemma {:induction false} TrimStep(b: Block, ls: seq<string>, i: nat)
    requires i < |ls|
    ensures Trim(b, ls[i..]) == [if Protected(b, ls[i]) then ls[i] else TrimBlanksRight(ls[i])]
        + Trim(After(b, ls[i]), ls[i + 1..])
  {
    assert ls[i..][1..] == ls[i + 1..];
  }

  lemma {:induction false} RemoveStep(b: Block, ls: seq<string>, i: nat)
    requires i < |ls|
    ensures Remove(b, ls[i..]) == (if Protected(b, ls[i]) || !IsArtifact(ls[i]) then [ls[i]] else [])
        + Remove(After(b, ls[i]), ls[i + 1..])
  {
    assert ls[i..][1..] == ls[i + 1..];
  }

  lemma {:induction false} CollapseStep(b: Block, prev: bool, ls: seq<string>, i: nat)
    requires i < |ls|
    ensures var rest := After(b, ls[i]);
            && (Protected(b, ls[i]) || TrimSpace(ls[i]) != "" ==>
                Collapse(b, prev, ls[i..]) == [ls[i]] + Collapse(rest, false, ls[i + 1..]))
            && (!Protected(b, ls[i]) && TrimSpace(ls[i]) == "" ==>
                  Collapse(b, prev, ls[i..]) == (if prev then [] else [""]) + Collapse(rest, true, ls[i + 1..]))
            && (LastProtected(b, ls[i..]) <==> if i + 1 == |ls| then Protected(b, ls[i]) else LastProtected(rest,
                ls[i + 1..]))
  {
    assert ls[i..][1..] == ls[i + 1..];
  }

  lemma {:induction false} NothingLeft(b: Block, prev: bool)
    ensures Trim(b, []) == [] && Remove(b, []) == [] && Collapse(b, prev, []) == []
  {
  }

  /** The first i lines have been trimmed in place, and the block state before line i is b. */
  predicate TrimmedUpTo(input: seq<string>, lines: seq<string>, i: nat, b: Block) {
    && i <= |input| && |lines| == |input| && lines[i..] == input[i..]
    && Trim(Outside, input) == lines[..i] + Trim(b, input[i..])
  }

  lemma {:induction false} TrimBegins(input: seq<string>)
    ensures TrimmedUpTo(input, input, 0, Outside)
  {
    assert input[0..] == input;
  }

  /** Replacing the first line that has not been reached yet. */
  lemma {:induction false} ReplaceNext(input: seq<string>, lines: seq<string>, i: nat, next: string, rest: seq<string>)
    requires |lines| == |input| && i < |input| && lines[i..] == input[i..]
    ensures lines[i] == input[i] && lines[i := input[i]] == lines && lines[i := next][i + 1..] == input[i + 1..]
    ensures lines[..i] + ([next] + rest) == lines[i := next][..i + 1] + rest
  {
    assert lines[i] == lines[i..][0];
    assert forall k :: i < k < |lines| ==> lines[k] == lines[i..][k - i] == input[i..][k - i];
    assert lines[i := next][..i + 1] == lines[..i] + [next];
  }

  lemma {:induction false} TrimAdvances(input: seq<string>, lines: seq<string>, i: nat, b: Block)
    requires i < |input| && TrimmedUpTo(input, lines, i, b)
    ensures lines[i] == input[i]
    ensures var line := input[i];
            TrimmedUpTo(input, if Protected(b, line) then lines else lines[i := TrimBlanksRight(line)], i + 1,
                        After(b, line))
  {
    hide Protected, After, TrimBlanksRight, Trim;
    TrimStep(b, input, i);
    var line := input[i];
    ReplaceNext(input, lines, i, if Protected(b, line) then line else TrimBlanksRight(line),
                Trim(After(b, line), input[i + 1..]));
  }

  lemma {:induction false} TrimEnds(input: seq<string>, lines: seq<string>, b: Block)
    requires TrimmedUpTo(input, lines, |input|, b)
    ensures lines == Trim(Outside, input)
  {
    assert input[|input|..] == [] && lines[..|input|] == lines;
  }

  method TrimLines(input: seq<string>) returns (lines: seq<string>)
    ensures lines == Trim(Outside, input)
  {
    hide *;
    lines := input;
    var state := new CodeBlockState();
    ghost var b := Outside;
    TrimBegins(input);
    for i := 0 to |input|
      invariant state.Valid() && state.State() == b
      invariant |lines| == |input| && TrimmedUpTo(input, lines, i, b)
    {
      var line := lines[i];
      TrimAdvances(input, lines, i, b);
      var inCode := state.Contains(line);
      b := state.State();
      if !inCode {
        lines := lines[i := TrimBlanksRight(line)];
      }
    }
    TrimEnds(input, lines, b);
  }

  method RemoveArtifactLines(lines: seq<string>) returns (kept: seq<string>)
    ensures kept == Remove(Outside, lines)
  {
    hide *;
    kept := [];
    var state := new CodeBlockState();
    ghost var b := Outside;
    assert lines[0..] == lines;
    for i := 0 to |lines|
      invariant state.Valid() && state.State() == b
      invariant Remove(Outside, lines) == kept + Remove(b, lines[i..])
    {
      var line := lines[i];
      RemoveStep(b, lines, i);
      ArtifactCases(line);
      var trimmed := TrimSpace(line);
      var inCode := state.Contains(line);
      b := state.State();
      ghost var tail := Remove(b, lines[i + 1..]);
      assert kept + ([line] + tail) == (kept + [line]) + tail && [] + tail == tail;
      if inCode {
        kept := kept + [line];
        continue;
      }
      if IsEmptyHeading(trimmed) || IsEmptyImagePlaceholder(trimmed) || trimmed == "<!-- image -->" {
        continue;
      }
      kept := kept + [line];
    }
    NothingLeft(b, true);
    assert lines[|lines|..] == [] && kept + [] == kept;
  }

  lemma {:induction false} ArtifactCases(line: string)
    ensures var t := TrimSpace(line);
            IsArtifact(line) <==> IsEmptyHeading(t) || IsEmptyImagePlaceholder(t) || t == "<!-- image -->"
  {
  }

  method CollapseAll(lines: seq<string>) returns (output: seq<string>)
    requires lines != []
    ensures output == CollapseLines(lines)
  {
    var lastProtected;
    output, lastProtected := CollapseLoop(lines);
    if |output| > 0 && output[|output| - 1] == "" && !lastProtected {
      output := output[..|output| - 1];
    }
  }

  method CollapseLoop(lines: seq<string>) returns (output: seq<string>, lastProtected: bool)
    requires lines != []
    ensures output == Collapse(Outside, true, lines) && lastProtected == LastProtected(Outside, lines)
  {
    hide *;
    output := [];
    var previousBlank := true;
    lastProtected := false;
    var state := new CodeBlockState();
    ghost var b := Outside;
    assert lines[0..] == lines;
    for i := 0 to |lines|
      invariant state.Valid() && state.State() == b
      invariant Collapse(Outside, true, lines) == output + Collapse(b, previousBlank, lines[i..])
      invariant LastProtected(Outside, lines) == if i == |lines| then lastProtected else LastProtected(b, lines[i..])
    {
      var line := lines[i];
      CollapseStep(b, previousBlank, lines, i);
      var inCode := state.Contains(line);
      b := state.State();
      ghost var tail := Collapse(b, !inCode && TrimSpace(line) == "", lines[i + 1..]);
      assert output + ([line] + tail) == (output + [line]) + tail;
      assert output + ([""] + tail) == (output + [""]) + tail && [] + tail == tail;
      if inCode {
        output := output + [line];
        previousBlank, lastProtected := false, true;
        continue;
      }
      lastProtected := false;
      if TrimSpace(line) == "" {
        if previousBlank {
          continue;
        }
        output := output + [""];
        previousBlank := true;
        continue;
      }
      output := output + [line];
      previousBlank := false;
    }
    NothingLeft(b, previousBlank);
    assert lines[|lines|..] == [] && output + [] == output;
  }

  method ApplyTrimLineEnds(markdown: string) returns (r: string)
    ensures r == TrimLineEnds(markdown)
  {
    var lines := TrimLines(Lines(markdown));
    r := JoinLines(lines);
  }

  method ApplyRemoveEmptyArtifacts(markdown: string) returns (r: string)
    ensures r == RemoveEmptyArtifacts(markdown)
  {
    var kept := RemoveArtifactLines(Lines(markdown));
    r := JoinLines(kept);
  }

  method ApplyCollapseBlankLines(markdown: string) returns (r: string)
    ensures r == CollapseBlankLines(markdown)
  {
    var output := CollapseAll(Lines(markdown));
    r := JoinLines(output);
  }

  datatype CleanResult = CleanResult(markdown: string, degraded: bool)

  /** DocumentCleaner.Clean: no rule fails, and cleaning the result again would return it unchanged. */
  method Clean(markdown: string) returns (result: CleanResult)
    ensures result == CleanResult(Cleaned(markdown), false)
    ensures Cleaned(result.markdown) == result.markdown
  {
    var s := RemoveUnsafeControls(NormalizeNewlines(markdown));
    s := ApplyTrimLineEnds(s);
    s := ApplyRemoveEmptyArtifacts(s);
    s := ApplyCollapseBlankLines(s);
    CleanIsIdempotent(markdown);
    result := CleanResult(s, false);
  }
}
