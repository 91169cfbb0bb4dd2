/** What the cleaning rules mean, in terms of characters and positions: which lines are code, which are empty artifacts,
    and which lines of the document stand in the result. */
module CleanerLaws {
  import opened Text
  import opened Cleaner

  // Artifacts -------------------------------------------------------------------------------------------------

  /** No image: `![]`, or `![alt](url)` with nothing but white space for alt and url. */
  ghost predicate EmptyImage(t: string) {
    || t == "![]"
    || exists alt, url {:trigger IsImage(t, alt, url)} :: IsImage(t, alt, url) && AllSpace(alt) && AllSpace(url)
  }

  predicate IsImage(t: string, alt: string, url: string) { t == "![" + alt + "](" + url + ")" }

  /** Nothing but '#' and white space, with at least one '#'. */
  predicate OnlyHashes(t: string) {
    '#' in t && forall c :: c in t ==> c == '#' || IsSpace(c)
  }

  lemma {:induction false} FirstLink(t: string, i: nat, from: nat)
    requires from <= i < |t| && "](" <= t[i..] && forall k :: from <= k < i ==> !("](" <= t[k..])
    ensures IndexOfLink(t, from) == i
    decreases i - from
  {
    if from < i {
      FirstLink(t, i, from + 1);
    }
  }

  lemma {:induction false} ImageParts(t: string, alt: string, url: string)
    requires IsImage(t, alt, url)
    ensures |t| == |alt| + |url| + 5 && t[2..2 + |alt|] == alt && t[4 + |alt|..|t| - 1] == url
    ensures "![" <= t && t[|t| - 1] == ')' && "](" <= t[2 + |alt|..] && t[0] == '!' && t[1] == '['
    ensures forall k :: 2 <= k < 2 + |alt| ==> t[k] == alt[k - 2]
  {
    assert t[2 + |alt|..] == "](" + url + ")";
  }

  predicate LinkFree(alt: string) {
    forall k :: 0 <= k < |alt| - 1 ==> !(alt[k] == ']' && alt[k + 1] == '(')
  }

  lemma {:induction false} LinkAfterAlt(t: string, alt: string, url: string)
    requires IsImage(t, alt, url) && LinkFree(alt)
    ensures |t| > 3 && IndexOfLink(t, 0) == 2 + |alt|
  {
    ImageParts(t, alt, url);
    forall k | 0 <= k < 2 + |alt| ensures !("](" <= t[k..]) {
      assert |t| > k + 1 && t[k..][0] == t[k] && t[k..][1] == t[k + 1];
      assert t[2 + |alt|] == t[2 + |alt|..][0];
    }
    FirstLink(t, 2 + |alt|, 0);
  }

  /** An image with a text that holds no link of its own is a placeholder iff text and address are white space. */
  lemma {:induction false} ImageIsPlaceholder(t: string, alt: string, url: string)
    requires IsImage(t, alt, url) && LinkFree(alt)
    ensures IsEmptyImagePlaceholder(t) <==> AllSpace(alt) && AllSpace(url)
  {
    hide Blank, AllSpace;
    ImageParts(t, alt, url);
    LinkAfterAlt(t, alt, url);
    BlankExactly(alt);
    BlankExactly(url);
    EmptyBlank();
  }

  lemma {:induction false} SpaceIsLinkFree(alt: string)
    requires AllSpace(alt)
    ensures LinkFree(alt)
  {
    assert forall k :: 0 <= k < |alt| ==> alt[k] in alt;
  }

  lemma {:induction false} EmptyBlank()
    ensures Blank("")
  {
  }

  /** The placeholder test, written out: both the text and the address of the image are white space. */
  lemma {:induction false} PlaceholderExactly(t: string)
    ensures IsEmptyImagePlaceholder(t) <==> EmptyImage(t)
  {
    hide IsEmptyImagePlaceholder, IsImage;
    if t != "![]" && EmptyImage(t) {
      var alt, url :| IsImage(t, alt, url) && AllSpace(alt) && AllSpace(url);
      SpaceIsLinkFree(alt);
      ImageIsPlaceholder(t, alt, url);
    }
    if t != "![]" && IsEmptyImagePlaceholder(t) {
      var alt, url := PlaceholderParts(t);
    }
    ShortestImage();
  }

  lemma {:induction false} ShortestImage()
    ensures IsEmptyImagePlaceholder("![]")
  {
  }

  lemma {:induction false} PlaceholderParts(t: string) returns (alt: string, url: string)
    requires IsEmptyImagePlaceholder(t) && t != "![]"
    ensures IsImage(t, alt, url) && AllSpace(alt) && AllSpace(url)
  {
    hide Blank;
    if t == "![]()" {
      alt, url := "", "";
    } else {
      var i := IndexOfLink(t, 0);
      alt, url := t[2..i], t[i + 2..|t| - 1];
      BlankExactly(alt);
      BlankExactly(url);
      assert t[i..][0] == ']' && t[i..][1] == '(' && t[..2] == "![";
      assert t[i..i + 2] == "](" && t[|t| - 1..] == ")";
      assert t == t[..2] + t[2..i] + t[i..i + 2] + t[i + 2..|t| - 1] + t[|t| - 1..];
    }
  }

  /** What removeEmptyArtifacts drops, written out. */
  ghost predicate EmptyShape(line: string) {
    var t := TrimSpace(line);
    OnlyHashes(t) || EmptyImage(t) || t == "<!-- image -->"
  }

  lemma {:induction false} ArtifactExactly(line: string)
    ensures IsArtifact(line) <==> EmptyShape(line)
  {
    PlaceholderExactly(TrimSpace(line));
  }

  // Code, by the lines alone ----------------------------------------------------------------------------------

  predicate IndentedLine(line: string) {
    (line != "" && line[0] == '\t') || (|line| >= 4 && line[..4] == "    ")
  }

  predicate FenceMark(t: string) {
    |t| >= 3 && (t[..3] == "```" || t[..3] == "~~~")
  }

  /** line is up to three spaces, marks and white space. */
  predicate FenceLine(line: string, spaces: string, marks: string, rest: string) {
    && line == spaces + marks + rest
    && |spaces| <= 3 && (forall c :: c in spaces ==> c == ' ')
    && marks != "" && (forall c :: c in marks ==> c == marks[0])
    && AllSpace(rest)
  }

  /** line ends a fence opened by a line that trims to opening: the same character, at least as often. */
  ghost predicate ClosesAfter(opening: string, line: string)
    requires FenceMark(opening)
  {
    exists spaces, marks, rest {:trigger FenceLine(line, spaces, marks, rest)} ::
      FenceLine(line, spaces, marks, rest) && marks[0] == opening[0] && |marks| >= RunLength(opening, opening[0])
  }

  /** Line o opens a fence that is still open before line i. */
  ghost predicate FenceOf(ls: seq<string>, o: nat, i: nat)
    requires o < i <= |ls|
    decreases i, 0
  {
    && !InFence(ls, o)
    && !IndentedLine(ls[o]) && FenceMark(TrimSpace(ls[o]))
    && forall k :: o < k < i ==> !ClosesAfter(TrimSpace(ls[o]), ls[k])
  }

  ghost predicate InFence(ls: seq<string>, i: nat)
    requires i <= |ls|
    decreases i, 1
  {
    exists o: nat | o < i :: FenceOf(ls, o, i)
  }

  /** Between line i and the last indented line before it there is nothing but white space. */
  ghost predicate AfterIndent(ls: seq<string>, i: nat)
    requires i <= |ls|
  {
    exists j: nat | j < i :: IndentedTill(ls, j, i)
  }

  ghost predicate IndentedTill(ls: seq<string>, j: nat, i: nat)
    requires j < i <= |ls|
  {
    !InFence(ls, j) && IndentedLine(ls[j]) && forall k :: j < k < i ==> AllSpace(ls[k])
  }

  /** Line i belongs to code. */
  ghost predicate CodeLine(ls: seq<string>, i: nat)
    requires i < |ls|
  {
    InFence(ls, i) || IndentedLine(ls[i]) || FenceMark(TrimSpace(ls[i])) || (AllSpace(ls[i]) && AfterIndent(ls, i))
  }

  /** The state of the scan before line i. */
  function StateAt(ls: seq<string>, i: nat): Block
    requires i <= |ls|
  {
    if i == 0 then Outside else After(StateAt(ls, i - 1), ls[i - 1])
  }

  lemma {:induction false} OpensExactly(t: string)
    ensures OpensFence(t) <==> FenceMark(t)
    ensures OpensFence(t) ==> RunLength(t, t[0]) >= 3 && !IsSpace(t[0])
  {
    if FenceMark(t) {
      assert t[0] == t[..3][0] && t[1] == t[..3][1] && t[2] == t[..3][2];
    }
  }

  lemma {:induction false} IndentedExactly(line: string)
    ensures IsIndentedCodeLine(line) <==> IndentedLine(line)
  {
    if "    " <= line {
      assert line[..4] == "    ";
    }
  }

  lemma {:induction false} ClosesExactly(opening: string, line: string)
    requires FenceMark(opening)
    ensures ClosesFence(opening[0], RunLength(opening, opening[0]), line) <==> ClosesAfter(opening, line)
  {
    hide ClosesFence;
    var mark, n := opening[0], RunLength(opening, opening[0]);
    OpensExactly(opening);
    if ClosesAfter(opening, line) {
      var spaces, marks, rest :| FenceLine(line, spaces, marks, rest) && marks[0] == mark && |marks| >= n;
      FenceLineCloses(line, spaces, marks, rest);
    }
    if ClosesFence(mark, n, line) {
      var spaces, marks, rest := ClosingParts(mark, n, line);
    }
  }

  lemma {:induction false} ClosingParts(mark: char, n: nat, line: string)
    returns (spaces: string, marks: string, rest: string)
    requires n > 0 && ClosesFence(mark, n, line)
    ensures FenceLine(line, spaces, marks, rest) && marks[0] == mark && |marks| >= n
  {
    hide Blank;
    var k := RunLength(line, ' ');
    var tail := line[k..];
    var m := RunLength(tail, mark);
    spaces, marks, rest := line[..k], tail[..m], tail[m..];
    BlankExactly(rest);
    assert line == spaces + marks + rest;
  }

  lemma {:induction false} FenceLineCloses(line: string, spaces: string, marks: string, rest: string)
    requires FenceLine(line, spaces, marks, rest) && !IsSpace(marks[0])
    ensures ClosesFence(marks[0], |marks|, line)
    ensures forall n: nat | n <= |marks| :: ClosesFence(marks[0], n, line)
  {
    assert forall i :: 0 <= i < |spaces| ==> line[i] == spaces[i] && spaces[i] in spaces;
    assert line[|spaces|] == marks[0];
    RunLengthUnique(line, ' ', |spaces|);
    var tail := line[|spaces|..];
    assert tail == marks + rest;
    assert forall i :: 0 <= i < |marks| ==> tail[i] == marks[i] && marks[i] in marks;
    if rest != "" {
      assert tail[|marks|] == rest[0] && rest[0] in rest;
    }
    RunLengthUnique(tail, marks[0], |marks|);
    assert tail[|marks|..] == rest;
    BlankExactly(rest);
  }

  lemma {:induction false} CodeExactly(ls: seq<string>, i: nat)
    requires i < |ls|
    ensures Protected(StateAt(ls, i), ls[i]) <==> CodeLine(ls, i)
  {
    StateExactly(ls, i);
    IndentedExactly(ls[i]);
    OpensExactly(TrimSpace(ls[i]));
    BlankExactly(ls[i]);
  }

  /** The fence the scan is in before line i. */
  ghost predicate FenceMatches(ls: seq<string>, i: nat)
    requires i <= |ls|
  {
    forall o: nat | o < i && FenceOf(ls, o, i) ::
      var t := TrimSpace(ls[o]); StateAt(ls, i) == Fenced(t[0], RunLength(t, t[0]))
  }

  /** The scan is inside a fence, or behind an indented line, exactly where the lines say so. */
  lemma {:induction false} StateExactly(ls: seq<string>, i: nat)
    requires i <= |ls|
    ensures StateAt(ls, i).Fenced? <==> InFence(ls, i)
    ensures FenceMatches(ls, i)
    ensures StateAt(ls, i).Indented? <==> AfterIndent(ls, i)
  {
    hide *;
    if i > 0 {
      StateExactly(ls, i - 1);
      FenceStep(ls, i - 1);
      IndentStep(ls, i - 1);
    } else {
      ScanBegins(ls);
    }
  }

  lemma {:induction false} ScanBegins(ls: seq<string>)
    ensures StateAt(ls, 0).Outside? && !InFence(ls, 0) && !AfterIndent(ls, 0) && FenceMatches(ls, 0)
  {
  }

  lemma {:induction false} FenceGoesOn(ls: seq<string>, o: nat, i: nat)
    requires o < i < |ls|
    ensures FenceOf(ls, o, i + 1) <==> FenceOf(ls, o, i) && !ClosesAfter(TrimSpace(ls[o]), ls[i])
  {
  }

  lemma {:induction false} FenceStep(ls: seq<string>, i: nat)
    requires i < |ls| && (StateAt(ls, i).Fenced? <==> InFence(ls, i)) && FenceMatches(ls, i)
    ensures StateAt(ls, i + 1).Fenced? <==> InFence(ls, i + 1)
    ensures FenceMatches(ls, i + 1)
  {
    hide ClosesAfter, ClosesFence, FenceMark, OpensFence, IndentedLine, IsIndentedCodeLine, Blank;
    var t, next := TrimSpace(ls[i]), i + 1;
    OpensExactly(t);
    IndentedExactly(ls[i]);
    BlankIsNoFence(ls[i]);
    if InFence(ls, i) {
      var b := StateAt(ls, i);
      forall p: nat | p < i && FenceOf(ls, p, i)
        ensures ClosesAfter(TrimSpace(ls[p]), ls[i]) <==> ClosesFence(b.mark, b.length, ls[i])
      {
        ClosesExactly(TrimSpace(ls[p]), ls[i]);
      }
      var o: nat :| o < i && FenceOf(ls, o, i);
      FenceGoesOn(ls, o, i);
      assert forall p: nat :: p < i && FenceOf(ls, p, next) ==>
          FenceOf(ls, p, i) && !ClosesAfter(TrimSpace(ls[p]), ls[i]);
    } else {
      forall p: nat | p < i ensures !FenceOf(ls, p, next) {
        FenceGoesOn(ls, p, i);
      }
      assert FenceOf(ls, i, i + 1) <==> !IndentedLine(ls[i]) && FenceMark(t);
    }
  }

  lemma {:induction false} BlankIsNoFence(line: string)
    ensures Blank(line) ==> !FenceMark(TrimSpace(line))
  {
  }

  lemma {:induction false} IndentStep(ls: seq<string>, i: nat)
    requires i < |ls| && (StateAt(ls, i).Fenced? <==> InFence(ls, i))
    requires StateAt(ls, i).Indented? <==> AfterIndent(ls, i)
    ensures StateAt(ls, i + 1).Indented? <==> AfterIndent(ls, i + 1)
  {
    hide ClosesFence, OpensFence, IndentedLine, IsIndentedCodeLine, Blank, InFence, AllSpace;
    IndentedExactly(ls[i]);
    BlankExactly(ls[i]);
    var next := i + 1;
    assert IndentedTill(ls, i, next) <==> !InFence(ls, i) && IndentedLine(ls[i]);
    if AfterIndent(ls, next) {
      var j: nat :| j < next && IndentedTill(ls, j, next);
      assert j < i ==> IndentedTill(ls, j, i) && AllSpace(ls[i]);
    }
    if AfterIndent(ls, i) && AllSpace(ls[i]) {
      var j: nat :| j < i && IndentedTill(ls, j, i);
      assert IndentedTill(ls, j, next);
    }
  }

  // What each rule does to the lines ----------------------------------------------------------------------------

  ghost function LeftOf(ls: seq<string>, i: nat): string
    requires i < |ls|
  {
    if CodeLine(ls, i) then ls[i] else TrimBlanksRight(ls[i])
  }

  /** Trimming replaces the lines outside code, each at its place. */
  lemma {:induction false} TrimExactly(ls: seq<string>)
    ensures |Trim(Outside, ls)| == |ls|
    ensures forall i: nat | i < |ls| ::
      Trim(Outside, ls)[i] == if CodeLine(ls, i) then ls[i] else TrimBlanksRight(ls[i])
  {
    assert ls[0..] == ls;
    TrimFrom(ls, 0);
    assert forall i: nat | i < |ls| :: Trim(Outside, ls)[i] == LeftOf(ls, 0 + i);
  }

  ghost predicate LeftFrom(out: seq<string>, ls: seq<string>, from: nat) {
    |out| + from == |ls| && forall k: nat | k < |out| :: out[k] == LeftOf(ls, from + k)
  }

  lemma {:induction false} TrimFrom(ls: seq<string>, from: nat)
    requires from <= |ls|
    ensures LeftFrom(Trim(StateAt(ls, from), ls[from..]), ls, from)
    decreases |ls| - from
  {
    hide Protected, After, CodeLine, LeftFrom;
    if from < |ls| {
      TrimStep(StateAt(ls, from), ls, from);
      CodeExactly(ls, from);
      TrimFrom(ls, from + 1);
      OneMoreLeft(Trim(StateAt(ls, from + 1), ls[from + 1..]), ls, from);
    } else {
      NothingLeft(StateAt(ls, from), true);
      assert LeftFrom([], ls, from) by { NoneLeft(ls); }
    }
  }

  lemma {:induction false} NoneLeft(ls: seq<string>)
    ensures LeftFrom([], ls, |ls|)
  {
  }

  lemma {:induction false} OneMoreLeft(out: seq<string>, ls: seq<string>, from: nat)
    requires from < |ls| && LeftFrom(out, ls, from + 1)
    ensures LeftFrom([LeftOf(ls, from)] + out, ls, from)
  {
    hide LeftOf;
    forall k: nat | k < |out| + 1 ensures ([LeftOf(ls, from)] + out)[k] == LeftOf(ls, from + k) {
      if k > 0 {
        assert out[k - 1] == LeftOf(ls, from + 1 + (k - 1));
      }
    }
  }

  /** What TrimRight(line, " \t") leaves: a prefix without a space or tab at its end, and nothing else is cut off. */
  lemma {:induction false} TrimBlanksRightExactly(line: string)
    ensures var t := TrimBlanksRight(line);
            && t <= line && (t != "" ==> t[|t| - 1] != ' ' && t[|t| - 1] != '\t')
            && forall k :: |t| <= k < |line| ==> line[k] == ' ' || line[k] == '\t'
  {
    if line != "" && (line[|line| - 1] == ' ' || line[|line| - 1] == '\t') {
      TrimBlanksRightExactly(line[..|line| - 1]);
    }
  }

  /** The lines from position i on that are no artifacts outside code, in order. */
  ghost function WithoutArtifacts(ls: seq<string>, i: nat): seq<string>
    requires i <= |ls|
    decreases |ls| - i
  {
    if i == |ls| then []
    else (if CodeLine(ls, i) || !EmptyShape(ls[i]) then [ls[i]] else []) + WithoutArtifacts(ls, i + 1)
  }

  lemma {:induction false} RemoveExactly(ls: seq<string>, i: nat)
    requires i <= |ls|
    ensures Remove(StateAt(ls, i), ls[i..]) == WithoutArtifacts(ls, i)
    decreases |ls| - i
  {
    hide Protected, After, CodeLine, EmptyShape, IsArtifact;
    if i < |ls| {
      RemoveStep(StateAt(ls, i), ls, i);
      CodeExactly(ls, i);
      ArtifactExactly(ls[i]);
      RemoveExactly(ls, i + 1);
    }
  }

  /** A line outside code with nothing but white space. */
  ghost predicate OpenBlank(ls: seq<string>, i: nat)
    requires i < |ls|
  {
    !CodeLine(ls, i) && AllSpace(ls[i])
  }

  /** A blank line outside code stays iff it is the first after a line that stays anyway and another such line
      follows. */
  ghost predicate BlankStays(ls: seq<string>, i: nat)
    requires i < |ls|
  {
    i > 0 && !OpenBlank(ls, i - 1) && SolidFrom(ls, i + 1)
  }

  ghost predicate SolidFrom(ls: seq<string>, i: nat)
    requires i <= |ls|
  {
    exists k: nat | i <= k < |ls| :: !OpenBlank(ls, k)
  }

  ghost function SingleBlanks(ls: seq<string>, i: nat): seq<string>
    requires i <= |ls|
    decreases |ls| - i
  {
    if i == |ls| then []
    else (if !OpenBlank(ls, i) then [ls[i]] else if BlankStays(ls, i) then [""] else []) + SingleBlanks(ls, i + 1)
  }

  /** The blank line that a scan keeps until it learns that none but blank lines follow. */
  ghost function Overhang(ls: seq<string>, i: nat): seq<string>
    requires i <= |ls|
  {
    if i < |ls| && OpenBlank(ls, |ls| - 1) && (SolidFrom(ls, i) || (i > 0 && !OpenBlank(ls, i - 1))) then [""] else []
  }

  lemma {:induction false} SolidNext(ls: seq<string>, i: nat)
    requires i < |ls|
    ensures SolidFrom(ls, i) <==> !OpenBlank(ls, i) || SolidFrom(ls, i + 1)
    ensures !SolidFrom(ls, |ls|)
  {
  }

  lemma {:induction false} NothingSolid(ls: seq<string>, i: nat)
    requires i <= |ls| && !SolidFrom(ls, i)
    ensures SingleBlanks(ls, i) == []
    decreases |ls| - i
  {
    hide OpenBlank;
    if i < |ls| {
      SolidNext(ls, i);
      NothingSolid(ls, i + 1);
    }
  }

  lemma {:induction false} CollapseFrom(ls: seq<string>, i: nat)
    requires i <= |ls|
    ensures var prev := i == 0 || OpenBlank(ls, i - 1);
            Collapse(StateAt(ls, i), prev, ls[i..]) == SingleBlanks(ls, i) + Overhang(ls, i)
    decreases |ls| - i
  {
    hide Protected, After, CodeLine, AllSpace;
    var prev := i == 0 || OpenBlank(ls, i - 1);
    if i < |ls| {
      CollapseStep(StateAt(ls, i), prev, ls, i);
      CodeExactly(ls, i);
      BlankExactly(ls[i]);
      CollapseFrom(ls, i + 1);
      OverhangStep(ls, i);
    } else {
      NothingLeft(StateAt(ls, i), prev);
    }
  }

  lemma {:induction false} OverhangStep(ls: seq<string>, i: nat)
    requires i < |ls|
    ensures var rest := SingleBlanks(ls, i + 1) + Overhang(ls, i + 1);
            SingleBlanks(ls, i) + Overhang(ls, i) ==
            if !OpenBlank(ls, i) then [ls[i]] + rest
            else if i == 0 || OpenBlank(ls, i - 1) then rest else [""] + rest
  {
    hide SingleBlanks, Overhang;
    var later, over := SingleBlanks(ls, i + 1), Overhang(ls, i + 1);
    LaterOverhang(ls, i);
    LaterLines(ls, i);
    assert [ls[i]] + later + over == [ls[i]] + (later + over) && [""] + later + over == [""] + (later + over);
    assert [] + later == later && [] + [""] == [""] && later + [] == later && [""] + [] == [""];
  }

  lemma {:induction false} LaterLines(ls: seq<string>, i: nat)
    requires i < |ls|
    ensures SingleBlanks(ls, i) ==
            (if !OpenBlank(ls, i) then [ls[i]] else if BlankStays(ls, i) then [""] else []) + SingleBlanks(ls, i + 1)
    ensures !SolidFrom(ls, i + 1) ==> SingleBlanks(ls, i + 1) == []
  {
    hide OpenBlank, SolidFrom;
    if !SolidFrom(ls, i + 1) { NothingSolid(ls, i + 1); }
  }

  lemma {:induction false} LaterOverhang(ls: seq<string>, i: nat)
    requires i < |ls|
    ensures Overhang(ls, i) ==
            if OpenBlank(ls, i) && i > 0 && !OpenBlank(ls, i - 1) && !SolidFrom(ls, i + 1) then [""]
            else Overhang(ls, i + 1)
    ensures OpenBlank(ls, i) && !SolidFrom(ls, i + 1) ==> Overhang(ls, i + 1) == []
  {
    hide OpenBlank, SolidFrom;
    SolidNext(ls, i);
    LastSolid(ls, i);
  }

  lemma {:induction false} LastSolid(ls: seq<string>, i: nat)
    requires i < |ls|
    ensures !SolidFrom(ls, i + 1) && !OpenBlank(ls, |ls| - 1) ==> i == |ls| - 1
  {
  }

  lemma {:induction false} LastLine(ls: seq<string>, i: nat)
    requires i < |ls|
    ensures LastProtected(StateAt(ls, i), ls[i..]) <==> CodeLine(ls, |ls| - 1)
    ensures !OpenBlank(ls, |ls| - 1) ==>
      SingleBlanks(ls, i) != [] && SingleBlanks(ls, i)[|SingleBlanks(ls, i)| - 1] == ls[|ls| - 1]
    decreases |ls| - i
  {
    hide Protected, After, CodeLine, AllSpace, OpenBlank;
    CollapseStep(StateAt(ls, i), true, ls, i);
    CodeExactly(ls, i);
    if i < |ls| - 1 {
      LastLine(ls, i + 1);
    }
  }

  /** Which lines are left after collapsing, and where the single blank lines stand. */
  lemma {:induction false} CollapseExactly(ls: seq<string>)
    ensures CollapseLines(ls) == SingleBlanks(ls, 0)
  {
    hide CodeLine, Collapse, SingleBlanks, LastProtected;
    CollapseFrom(ls, 0);
    assert ls[0..] == ls;
    if ls != [] {
      LastLine(ls, 0);
      var out := SingleBlanks(ls, 0);
      assert (out + [""])[..|out|] == out && out + [] == out;
      if !SolidFrom(ls, 0) { NothingSolid(ls, 0); }
      assert AllSpace("");
    } else {
      NothingSolid(ls, 0);
    }
  }

  // The whole cleaner -------------------------------------------------------------------------------------------

  /** The lines of a document that stand in the cleaned one: code verbatim, every other line that is neither blank nor
      an artifact without the spaces and tabs at its end. */
  ghost function Content(ls: seq<string>, i: nat): seq<string>
    requires i <= |ls|
    decreases |ls| - i
  {
    if i == |ls| then []
    else (if AllSpace(ls[i]) then [] else if CodeLine(ls, i) then [ls[i]]
          else if EmptyShape(ls[i]) then [] else [TrimBlanksRight(ls[i])]) + Content(ls, i + 1)
  }

  /** The same by the scan. */
  function Stays(b: Block, ls: seq<string>): seq<string>
    decreases |ls|
  {
    if ls == [] then []
    else (if Blank(ls[0]) then [] else if Protected(b, ls[0]) then [ls[0]]
          else if IsArtifact(ls[0]) then [] else [TrimBlanksRight(ls[0])]) + Stays(After(b, ls[0]), ls[1..])
  }

  lemma {:induction false} StaysExactly(ls: seq<string>, i: nat)
    requires i <= |ls|
    ensures Stays(StateAt(ls, i), ls[i..]) == Content(ls, i)
    decreases |ls| - i
  {
    hide Protected, After, CodeLine, EmptyShape, IsArtifact, Blank, AllSpace;
    if i < |ls| {
      assert ls[i..][1..] == ls[i + 1..];
      CodeExactly(ls, i);
      ArtifactExactly(ls[i]);
      BlankExactly(ls[i]);
      StaysExactly(ls, i + 1);
    }
  }

  lemma {:induction false} RemovedTrimmed(b: Block, ls: seq<string>)
    ensures NonBlank(Remove(b, Trim(b, ls))) == Stays(b, ls)
    decreases |ls|
  {
    hide Protected, After, Blank, TrimSpace, IsEmptyHeading, IsEmptyImagePlaceholder;
    if ls != [] {
      var l := ls[0];
      var rest := Trim(After(b, l), ls[1..]);
      RemovedTrimmed(After(b, l), ls[1..]);
      var x := if Protected(b, l) then l else TrimBlanksRight(l);
      assert Trim(b, ls) == [x] + rest && ([x] + rest)[1..] == rest;
      LineLeft(b, l);
      var kept := if Protected(b, x) || !IsArtifact(x) then [x] else [];
      NonBlankConcat(kept, Remove(After(b, l), rest));
      NonBlankOne(x);
    }
  }

  lemma {:induction false} NonBlankOne(x: string)
    ensures NonBlank([x]) == if Blank(x) then [] else [x]
    ensures NonBlank([]) == []
  {
    hide Blank;
    assert [x][1..] == [];
  }

  lemma {:induction false} LineLeft(b: Block, l: string)
    ensures var x := if Protected(b, l) then l else TrimBlanksRight(l);
            && (Protected(b, x) <==> Protected(b, l)) && After(b, x) == After(b, l)
            && (IsArtifact(x) <==> IsArtifact(l)) && (Blank(x) <==> Blank(l))
  {
    hide TrimBlanksRight, Protected, After, IsEmptyHeading, IsEmptyImagePlaceholder;
    TrimBlanksRightFacts(l);
    if !Protected(b, l) { TrimmedLineScansAlike(b, l); }
  }

  lemma {:induction false} CollapsedNonBlank(b: Block, prev: bool, ls: seq<string>)
    ensures NonBlank(Collapse(b, prev, ls)) == NonBlank(ls)
    decreases |ls|
  {
    hide Protected, After, Blank;
    if ls != [] {
      var blank := !Protected(b, ls[0]) && Blank(ls[0]);
      CollapseCons(b, prev, ls);
      var x := Stand(b, ls[0]);
      var tail := Collapse(After(b, ls[0]), blank, ls[1..]);
      CollapsedNonBlank(After(b, ls[0]), blank, ls[1..]);
      NonBlankConcat([x], tail);
      NonBlankOne(x);
      EmptyBlank();
    }
  }

  lemma {:induction false} DroppedNonBlank(ls: seq<string>, lastProtected: bool)
    ensures NonBlank(DropLast(ls, lastProtected)) == NonBlank(ls)
  {
    hide Blank;
    EmptyBlank();
    var d := DropLast(ls, lastProtected);
    if d != ls {
      assert ls == d + [""];
      NonBlankConcat(d, [""]);
      NonBlankOne("");
    }
  }

  /** The lines of the result that are not blank are exactly the content of the document, in order. */
  lemma {:induction false} CleanedContent(markdown: string)
    ensures NonBlank(Lines(Cleaned(markdown))) ==
            Content(Lines(RemoveUnsafeControls(NormalizeNewlines(markdown))), 0)
  {
    hide Trim, Remove, Collapse, LastProtected, NonBlank, Stays, Content, DropLast, Lines, JoinLines,
        RemoveUnsafeControls, NormalizeNewlines;
    var s2 := RemoveUnsafeControls(NormalizeNewlines(markdown));
    var ls := Lines(s2);
    LinesFacts(s2);
    var t := Trim(Outside, ls);
    TrimmedDocument(ls);
    var r := Remove(Outside, t);
    RemovedTrimmed(Outside, ls);
    StaysExactly(ls, 0);
    assert ls[0..] == ls;
    RemoveFree(t);
    LinesAgain(r);
    var k := Lines(JoinLines(r));
    LinesFacts(JoinLines(r));
    CollapsedNonBlank(Outside, true, k);
    DroppedNonBlank(Collapse(Outside, true, k), LastProtected(Outside, k));
    CollapseFree(k);
    LinesAgain(CollapseLines(k));
  }

  lemma {:induction false} TrimmedDocument(ls: seq<string>)
    requires ls != [] && NewlineFree(ls)
    ensures var t := Trim(Outside, ls); NewlineFree(t) && Lines(JoinLines(t)) == t
  {
    hide Lines, JoinLines, NewlineFree, Trim;
    TrimOutcome(Outside, ls);
    TrimKeepsCount(Outside, ls);
    LinesOfJoin(Trim(Outside, ls));
  }

  lemma {:induction false} AllTrue(b: Block, ls: seq<string>)
    ensures AllOutside(b, ls, _ => true)
    decreases |ls|
  {
    hide Protected, After;
    if ls != [] { AllTrue(After(b, ls[0]), ls[1..]); }
  }

  lemma {:induction false} RemoveFree(ls: seq<string>)
    requires NewlineFree(ls)
    ensures NewlineFree(Remove(Outside, ls))
  {
    RemoveKeepsCode(Outside, Outside, ls);
  }

  lemma {:induction false} CollapseFree(ls: seq<string>)
    requires NewlineFree(ls)
    ensures NewlineFree(CollapseLines(ls))
  {
    hide NewlineFree, Collapse;
    AllTrue(Outside, ls);
    CollapseLinesOutcome(ls, _ => true);
  }

  /** Joining and splitting again changes no line that is not blank. */
  lemma {:induction false} LinesAgain(ls: seq<string>)
    requires NewlineFree(ls)
    ensures NonBlank(Lines(JoinLines(ls))) == NonBlank(ls)
  {
    if ls == [] {
      assert Lines("") == [""];
      NonBlankOne("");
      EmptyBlank();
    } else {
      LinesOfJoin(ls);
    }
  }

  // Line ends ---------------------------------------------------------------------------------------------------

  predicate Splits(a: string, b: string) {
    a == "" || b == "" || a[|a| - 1] != '\r' || b[0] != '\n'
  }

  lemma {:induction false} CrLfConcat(a: string, b: string)
    requires Splits(a, b)
    ensures ReplaceCrLf(a + b) == ReplaceCrLf(a) + ReplaceCrLf(b)
  {
    if a == "" {
      assert a + b == b;
    } else if |a| >= 2 && a[0] == '\r' && a[1] == '\n' {
      assert (a + b)[2..] == a[2..] + b;
      CrLfConcat(a[2..], b);
      var x, y := ReplaceCrLf(a[2..]), ReplaceCrLf(b);
      assert "\n" + (x + y) == ("\n" + x) + y;
    } else {
      assert (a + b)[1..] == a[1..] + b;
      CrLfConcat(a[1..], b);
      var x, y := ReplaceCrLf(a[1..]), ReplaceCrLf(b);
      assert [a[0]] + (x + y) == ([a[0]] + x) + y;
    }
  }

  lemma {:induction false} CrConcat(a: string, b: string)
    ensures ReplaceCr(a + b) == ReplaceCr(a) + ReplaceCr(b)
  {
    if a == "" {
      assert a + b == b;
    } else {
      assert (a + b)[1..] == a[1..] + b;
      CrConcat(a[1..], b);
    }
  }

  lemma {:induction false} NormalizeConcat(a: string, b: string)
    requires Splits(a, b)
    ensures NormalizeNewlines(a + b) == NormalizeNewlines(a) + NormalizeNewlines(b)
  {
    CrLfConcat(a, b);
    CrConcat(ReplaceCrLf(a), ReplaceCrLf(b));
  }

  lemma {:induction false} OneLineEnd()
    ensures NormalizeNewlines("\r\n") == "\n" && NormalizeNewlines("\r") == "\n" && NormalizeNewlines("\n") == "\n"
  {
    var crLf := "\r\n";
    assert crLf[2..] == "";
    assert ReplaceCrLf(crLf) == "\n";
    NoCr("\n");
    var cr := "\r";
    assert cr[1..] == "";
    assert ReplaceCrLf(cr) == "\r";
  }

  /** All three line ends become "\n", once each, and text without a carriage return stays as it is. */
  lemma {:induction false} LineEndsExactly(a: string, b: string)
    ensures '\r' !in a ==> NormalizeNewlines(a) == a
    ensures NormalizeNewlines(a + "\r\n" + b) == NormalizeNewlines(a) + "\n" + NormalizeNewlines(b)
    ensures Splits("\r", b) ==> NormalizeNewlines(a + "\r" + b) == NormalizeNewlines(a) + "\n" + NormalizeNewlines(b)
    ensures Splits(a, "\n") ==> NormalizeNewlines(a + "\n" + b) == NormalizeNewlines(a) + "\n" + NormalizeNewlines(b)
  {
    hide NormalizeNewlines;
    OneLineEnd();
    NormalizeConcat(a, "\r\n");
    NormalizeConcat(a + "\r\n", b);
    NormalizeConcat(a, "\r");
    if Splits("\r", b) { NormalizeConcat(a + "\r", b); }
    if Splits(a, "\n") { NormalizeConcat(a, "\n"); }
    NormalizeConcat(a + "\n", b);
    PlainStays(a);
  }

  lemma {:induction false} PlainStays(a: string)
    ensures '\r' !in a ==> NormalizeNewlines(a) == a
  {
    if '\r' !in a { NoCr(a); }
  }
}
