/** Which lines of a document are headings and which are body text, by the characters of its lines. */
module HeadingLaws {
  import opened Text
  import opened HeadingTree

  predicate FenceMark(t: string) {
    |t| >= 3 && (t[..3] == "```" || t[..3] == "~~~")
  }

  /** Line o opens a code fence that is still open before line i: no line in between is the bare marker. */
  ghost predicate FenceOf(ls: seq<string>, o: nat, i: nat)
    requires o < i <= |ls|
    decreases i, 0
  {
    && !InFence(ls, o) && FenceMark(TrimSpace(ls[o]))
    && forall k :: o < k < i ==> TrimSpace(ls[k]) != TrimSpace(ls[o])[..3]
  }

  ghost predicate InFence(ls: seq<string>, i: nat)
    requires i <= |ls|
    decreases i, 1
  {
    exists o: nat | o < i :: FenceOf(ls, o, i)
  }

  /** Line i opens a fence or stands in one, its closing line included. */
  ghost predicate CodeLine(ls: seq<string>, i: nat)
    requires i < |ls|
  {
    InFence(ls, i) || FenceMark(TrimSpace(ls[i]))
  }

  /** One to six '#', a space and the title. */
  predicate HeadingLine(t: string, level: nat, title: string) {
    && 1 <= level <= 6 && |t| > level + 1
    && (forall k :: 0 <= k < level ==> t[k] == '#') && t[level] == ' '
    && title == TrimSpace(t[level + 1..])
  }

  /** The scan's mode before line i. */
  function ModeAt(ls: seq<string>, i: nat): Mode
    requires i <= |ls|
  {
    if i == 0 then Prose else NextMode(ModeAt(ls, i - 1), ls[i - 1])
  }

  lemma {:induction false} OpensExactly(t: string)
    ensures IsCodeFence(t, "") <==> FenceMark(t)
    ensures FenceMark(t) ==> FenceMarker(t) == t[..3]
  {
    if "```" <= t { assert t[..3] == "```"; }
    if "~~~" <= t { assert t[..3] == "~~~"; }
  }

  /** A trimmed line has no white space behind its marker, so only the bare marker closes. */
  lemma {:induction false} ClosesExactly(line: string, marker: string)
    requires |marker| == 3
    ensures IsCodeFence(TrimSpace(line), marker) <==> TrimSpace(line) == marker
  {
    var t := TrimSpace(line);
    var _, _ := TrimSpaceCore(line);
    if marker <= t {
      var rest := t[3..];
      BlankExactly(rest);
      if rest != "" {
        assert rest[|rest| - 1] == t[|t| - 1] && rest[|rest| - 1] in rest;
      } else {
        assert t == marker;
      }
    }
  }

  ghost predicate FenceMatches(ls: seq<string>, i: nat)
    requires i <= |ls|
  {
    forall o: nat | o < i && FenceOf(ls, o, i) :: ModeAt(ls, i) == Fence(TrimSpace(ls[o])[..3])
  }

  /** The scan is inside a fence exactly where the lines say so. */
  lemma {:induction false} ModeExactly(ls: seq<string>, i: nat)
    requires i <= |ls|
    ensures ModeAt(ls, i).Fence? <==> InFence(ls, i)
    ensures FenceMatches(ls, i)
  {
    hide *;
    if i > 0 {
      ModeExactly(ls, i - 1);
      FenceStep(ls, i - 1);
    } else {
      ModeBegins(ls);
    }
  }

  lemma {:induction false} ModeBegins(ls: seq<string>)
    ensures ModeAt(ls, 0).Prose? && !InFence(ls, 0) && FenceMatches(ls, 0)
  {
  }

  lemma {:induction false} FenceStep(ls: seq<string>, i: nat)
    requires i < |ls| && (ModeAt(ls, i).Fence? <==> InFence(ls, i)) && FenceMatches(ls, i)
    ensures ModeAt(ls, i + 1).Fence? <==> InFence(ls, i + 1)
    ensures FenceMatches(ls, i + 1)
  {
    hide IsCodeFence, FenceMarker, TrimSpace;
    var t, next := TrimSpace(ls[i]), i + 1;
    OpensExactly(t);
    if InFence(ls, i) {
      var o: nat :| o < i && FenceOf(ls, o, i);
      ClosesExactly(ls[i], TrimSpace(ls[o])[..3]);
      FenceGoesOn(ls, o, i);
      assert forall p: nat :: p < i && FenceOf(ls, p, next) ==> FenceOf(ls, p, i);
    } else {
      forall p: nat | p < i ensures !FenceOf(ls, p, next) {
        FenceGoesOn(ls, p, i);
      }
      assert FenceOf(ls, i, next) <==> FenceMark(t);
    }
  }

  lemma {:induction false} FenceGoesOn(ls: seq<string>, o: nat, i: nat)
    requires o < i < |ls|
    ensures FenceOf(ls, o, i + 1) <==> FenceOf(ls, o, i) && TrimSpace(ls[i]) != TrimSpace(ls[o])[..3]
  {
  }

  lemma {:induction false} HeadingExactly(line: string, level: nat, title: string)
    ensures var t := TrimSpace(line);
            HeadingLine(t, level, title) <==> level > 0 && HeadingLevel(t) == level && HeadingTitle(t) == title
  {
    var t := TrimSpace(line);
    var _, _ := TrimSpaceCore(line);
    if HeadingLine(t, level, title) {
      RunLengthUnique(t, '#', level);
    }
    if HeadingLevel(t) == level && level > 0 {
      assert IsSpace(' ');
      assert level < |t| - 1;
    }
  }

  ghost predicate IsHeadingLine(t: string) {
    exists level, title :: HeadingLine(t, level, title)
  }

  /** Line i of the document, item for item: the lines of code are body text; of the others, those that trim to one to
      six '#', a space and a title are headings with that level and title, and the rest is body text. */
  lemma {:induction false} ItemsExactly(ls: seq<string>, i: nat)
    requires i < |ls|
    ensures CodeLine(ls, i) ==> Items(Prose, ls)[i] == Body(ls[i])
    ensures forall level, title :: !CodeLine(ls, i) && HeadingLine(TrimSpace(ls[i]), level, title) ==>
      Items(Prose, ls)[i] == Heading(level, title)
    ensures !CodeLine(ls, i) && !IsHeadingLine(TrimSpace(ls[i])) ==> Items(Prose, ls)[i] == Body(ls[i])
  {
    hide HeadingLevel, HeadingTitle, TrimSpace, IsCodeFence, FenceMark, HeadingLine;
    ItemAt(ls, i, 0);
    assert ls[0..] == ls;
    ModeExactly(ls, i);
    var t := TrimSpace(ls[i]);
    OpensExactly(t);
    forall level, title ensures HeadingLine(t, level, title) <==>
      level > 0 && HeadingLevel(t) == level && HeadingTitle(t) == title
    {
      HeadingExactly(ls[i], level, title);
    }
    if HeadingLevel(t) > 0 {
      assert HeadingLine(t, HeadingLevel(t), HeadingTitle(t));
    }
  }

  lemma {:induction false} ItemAt(ls: seq<string>, i: nat, from: nat)
    requires from <= i < |ls|
    ensures Items(ModeAt(ls, from), ls[from..])[i - from] == Read(ModeAt(ls, i), ls[i])
    decreases i - from
  {
    hide Read, NextMode;
    if from < i {
      assert ls[from..][1..] == ls[from + 1..];
      ItemAt(ls, i, from + 1);
    }
  }

  /** The same for the tree that is built: its items in preorder are those of the lines. */
  lemma {:induction false} TreeItemsExactly(markdown: string, i: nat)
    requires i < |Lines(markdown)|
    ensures var ls, items := Lines(markdown), TreeItems(Parse(markdown));
            && |items| == |ls|
            && (CodeLine(ls, i) || !IsHeadingLine(TrimSpace(ls[i])) ==> items[i] == Body(ls[i]))
            && forall level, title :: !CodeLine(ls, i) && HeadingLine(TrimSpace(ls[i]), level, title) ==>
                 items[i] == Heading(level, title)
  {
    hide Parse, CodeLine, HeadingLine, IsHeadingLine;
    ParsedItems(markdown);
    ItemsExactly(Lines(markdown), i);
  }
}
