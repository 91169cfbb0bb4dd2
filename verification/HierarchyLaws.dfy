/** The sections of a document and the chunks of the walk, by the headings and lines of the document. */
module HierarchyLaws {
  import opened Text
  import opened HeadingTree
  import opened HeadingLaws
  import opened HierarchyWalk

  // Paths --------------------------------------------------------------------------------------------------------

  /** Heading k is the nearest one before the end of hs that lies above the level; k counts from 1, and 0 means that
      there is none. */
  predicate IsNearest(hs: seq<Crumb>, level: nat, k: nat) {
    && k <= |hs| && (k > 0 ==> hs[k - 1].level < level)
    && forall i :: k <= i < |hs| ==> hs[i].level >= level
  }

  /** Each heading of the path is the nearest one above the level of the next, and nothing lies above the first; at
      lists their places among the headings. */
  ghost predicate IsPath(path: seq<Crumb>, hs: seq<Crumb>, at: seq<nat>) {
    && |at| == |path| && (forall m :: 0 <= m < |at| ==> at[m] < |hs| && path[m] == hs[at[m]])
    && (forall m :: 0 < m < |at| ==> at[m - 1] < at[m] && IsNearest(hs[..at[m]], hs[at[m]].level, at[m - 1] + 1))
    && (at != [] ==> IsNearest(hs[..at[0]], hs[at[0]].level, 0))
  }

  lemma {:induction false} PathGrows(hs: seq<Crumb>, k: nat, path: seq<Crumb>, at: seq<nat>)
    requires hs != [] && k < |hs| && IsPath(path, hs[..k], at) && (at == [] <==> k == 0)
        && (at != [] ==> at[|at| - 1] == k - 1)
    requires IsNearest(hs[..|hs| - 1], hs[|hs| - 1].level, k)
    ensures IsPath(path + [hs[|hs| - 1]], hs, at + [|hs| - 1])
  {
    hide IsNearest;
    var above, more := hs[..k], at + [|hs| - 1];
    forall m | 0 <= m < |at| ensures above[at[m]] == hs[at[m]] && above[..at[m]] == hs[..at[m]] {
    }
    forall m | 0 < m < |more| ensures more[m - 1] < more[m]
        && IsNearest(hs[..more[m]], hs[more[m]].level, more[m - 1] + 1) {
      if m < |at| {
        assert IsNearest(above[..at[m]], above[at[m]].level, at[m - 1] + 1);
      }
    }
  }

  /** The path of the last heading. */
  lemma {:induction false} PathExactly(hs: seq<Crumb>) returns (at: seq<nat>)
    ensures IsPath(PathOf(hs), hs, at)
    ensures hs != [] ==> at != [] && at[|at| - 1] == |hs| - 1
    decreases |hs|
  {
    hide IsNearest, IsPath, Nearest;
    at := [];
    if hs == [] {
      NoSteps(hs);
    } else {
      var front, last := hs[..|hs| - 1], hs[|hs| - 1];
      var k := Nearest(front, last.level);
      NearestIs(front, last.level);
      var above := PathExactly(front[..k]);
      assert front[..k] == hs[..k];
      StepsAre(PathOf(hs[..k]), hs[..k], above);
      PathGrows(hs, k, PathOf(hs[..k]), above);
      at := above + [|hs| - 1];
    }
  }

  lemma {:induction false} NoSteps(hs: seq<Crumb>)
    ensures IsPath([], hs, []) && PathOf([]) == []
  {
  }

  lemma {:induction false} StepsAre(path: seq<Crumb>, hs: seq<Crumb>, at: seq<nat>)
    requires IsPath(path, hs, at)
    ensures hs == [] ==> at == []
  {
  }

  lemma {:induction false} NearestIs(hs: seq<Crumb>, level: nat)
    ensures IsNearest(hs, level, Nearest(hs, level))
    ensures forall k :: IsNearest(hs, level, k) ==> k == Nearest(hs, level)
  {
  }

  // Sections -----------------------------------------------------------------------------------------------------

  /** How many of the first i items are headings. */
  function HeadingsAmong(items: seq<Item>, i: nat): nat
    requires i <= |items|
  {
    if i == 0 then 0 else HeadingsAmong(items, i - 1) + if items[i - 1].Heading? then 1 else 0
  }

  /** The body lines among the first i items that stand behind the k-th heading and before the next. */
  function LinesBehind(items: seq<Item>, k: nat, i: nat): seq<string>
    requires i <= |items|
  {
    if i == 0 then []
    else LinesBehind(items, k, i - 1)
         + if items[i - 1].Body? && HeadingsAmong(items, i - 1) == k then [items[i - 1].line] else []
  }

  /** The titles of the headings among the first i items for which the k-th is the nearest heading above. */
  function TitlesUnder(items: seq<Item>, k: nat, i: nat): seq<string>
    requires i <= |items|
  {
    if i == 0 then []
    else TitlesUnder(items, k, i - 1)
         + if items[i - 1].Heading? && IsNearest(Headings(items[..i - 1]), items[i - 1].level, k)
             then [items[i - 1].title]
           else []
  }

  lemma {:induction false} CountsHeadings(items: seq<Item>, i: nat)
    requires i <= |items|
    ensures HeadingsAmong(items, i) == |Headings(items[..i])|
  {
    if i > 0 {
      CountsHeadings(items, i - 1);
      assert items[..i][..i - 1] == items[..i - 1];
    }
  }

  /** Section k: the lines behind the k-th heading, and the titles of the headings directly below it. */
  lemma {:induction false} SectionExactly(items: seq<Item>, k: nat)
    requires k <= |Headings(items)|
    ensures SectionsOf(items)[k].body == LinesBehind(items, k, |items|)
    ensures SectionsOf(items)[k].titles == TitlesUnder(items, k, |items|)
    ensures SectionsOf(items)[k].path == PathOf(Headings(items)[..k])
  {
    assert items[..|items|] == items;
    SectionAt(items, k, |items|);
  }

  lemma {:induction false} SectionAt(items: seq<Item>, k: nat, i: nat)
    requires i <= |items| && k <= |Headings(items[..i])|
    ensures SectionsOf(items[..i])[k] ==
            Section(PathOf(Headings(items[..i])[..k]), TitlesUnder(items, k, i), LinesBehind(items, k, i))
  {
    hide PathOf, Nearest, IsNearest, SectionsOf, Headings, TitlesUnder, LinesBehind;
    if i == 0 {
      FirstSection(items);
      assert k == 0;
    } else {
      var front, item := items[..i - 1], items[i - 1];
      assert items[..i] == front + [item];
      ItemsSnoc(front, item);
      if k <= |Headings(front)| {
        SectionAt(items, k, i - 1);
        SectionGoesOn(items, k, i);
        assert Headings(items[..i])[..k] == Headings(front)[..k];
      } else {
        SectionStarts(items, k, i);
        assert Headings(items[..i])[..k] == Headings(items[..i]);
      }
    }
  }

  lemma {:induction false} FirstSection(items: seq<Item>)
    ensures Headings(items[..0]) == [] && SectionsOf(items[..0]) == [Section([], [], [])] && PathOf([]) == []
    ensures TitlesUnder(items, 0, 0) == [] && LinesBehind(items, 0, 0) == []
  {
    assert items[..0] == [];
  }

  lemma {:induction false} SectionGoesOn(items: seq<Item>, k: nat, i: nat)
    requires 0 < i <= |items| && k <= |Headings(items[..i - 1])| <= |Headings(items[..i])|
    requires SectionsOf(items[..i - 1])[k].titles == TitlesUnder(items, k, i - 1)
    requires SectionsOf(items[..i - 1])[k].body == LinesBehind(items, k, i - 1)
    ensures SectionsOf(items[..i])[k] ==
            Section(SectionsOf(items[..i - 1])[k].path, TitlesUnder(items, k, i), LinesBehind(items, k, i))
  {
    hide PathOf, Nearest, IsNearest, SectionsOf, Headings;
    var front, item := items[..i - 1], items[i - 1];
    assert items[..i] == front + [item];
    SectionsSnoc(front, item);
    CountsHeadings(items, i - 1);
    if item.Heading? { NearestIs(Headings(front), item.level); }
  }

  lemma {:induction false} SectionStarts(items: seq<Item>, k: nat, i: nat)
    requires 0 < i <= |items| && |Headings(items[..i - 1])| < k <= |Headings(items[..i])|
    ensures SectionsOf(items[..i])[k] ==
            Section(PathOf(Headings(items[..i])), TitlesUnder(items, k, i), LinesBehind(items, k, i))
    ensures k == |Headings(items[..i])|
  {
    hide PathOf, Nearest, IsNearest, SectionsOf, Headings;
    var front, item := items[..i - 1], items[i - 1];
    assert items[..i] == front + [item];
    ItemsSnoc(front, item);
    SectionsSnoc(front, item);
    CountsHeadings(items, i - 1);
    NothingYet(items, k, i - 1);
    NotNearest(Headings(front), item.level, k);
  }

  lemma {:induction false} NotNearest(hs: seq<Crumb>, level: nat, k: nat)
    requires k > |hs|
    ensures !IsNearest(hs, level, k)
  {
  }

  /** Nothing belongs to a heading that has not come yet. */
  lemma {:induction false} NothingYet(items: seq<Item>, k: nat, i: nat)
    requires i <= |items| && k > |Headings(items[..i])|
    ensures LinesBehind(items, k, i) == [] && TitlesUnder(items, k, i) == []
  {
    hide IsNearest;
    if i > 0 {
      var front := items[..i - 1];
      assert items[..i][..i - 1] == front;
      CountsHeadings(items, i - 1);
      if items[i - 1].Heading? { NotNearest(Headings(front), items[i - 1].level, k); }
      NothingYet(items, k, i - 1);
    }
  }

  // Chunks -------------------------------------------------------------------------------------------------------

  /** The chunks of a section: in front of the first heading its content blocks, if there is any line; behind a heading
      its content blocks, with the parent block before them if the section has subsections and the block is not
      empty. */
  lemma {:induction false} SectionChunksExactly(b: Blocks, s: Section)
    ensures s.path == [] && s.body == [] ==> SectionChunks(b, s) == []
    ensures s.path == [] && s.body != [] ==> SectionChunks(b, s) == b.content([], s.body)
    ensures var parent := b.parent(s.path, s.titles, s.body);
            s.path != [] ==>
              SectionChunks(b, s) ==
              if |s.titles| > 0 && |parent| > 0 then [parent] + b.content(s.path, s.body) else b.content(s.path, s.body)
  {
  }

  /** And section by section. */
  lemma {:induction false} ChunksExactly(b: Blocks, sections: seq<Section>, s: Section)
    ensures AllChunks(b, []) == []
    ensures AllChunks(b, sections + [s]) == AllChunks(b, sections) + SectionChunks(b, s)
  {
    AllChunksConcat(b, sections, [s]);
    assert [s][1..] == [] && AllChunks(b, []) == [];
    assert AllChunks(b, [s]) == SectionChunks(b, s) + [];
  }

  // Documents without headings -----------------------------------------------------------------------------------

  lemma {:induction false} BodiesOnly(body: seq<string>)
    ensures forall i :: 0 <= i < |Bodies(body)| ==> Bodies(body)[i].Body?
  {
    if body != [] { BodiesOnly(body[..|body| - 1]); }
  }

  /** The general chunker takes over exactly when no line outside code is a heading. */
  lemma {:induction false} NoHeadingsExactly(markdown: string)
    ensures var ls := Lines(markdown);
            Parse(markdown).children == [] <==>
              forall i: nat | i < |ls| :: CodeLine(ls, i) || !IsHeadingLine(TrimSpace(ls[i]))
  {
    hide Parse, CodeLine, HeadingLine;
    var ls, root := Lines(markdown), Parse(markdown);
    var items := TreeItems(root);
    ParseIsWellFormed(markdown);
    ParsedItems(markdown);
    forall i: nat | i < |ls| ensures items[i].Heading? <==> !(CodeLine(ls, i) || !IsHeadingLine(TrimSpace(ls[i]))) {
      TreeItemsExactly(markdown, i);
      if !CodeLine(ls, i) && IsHeadingLine(TrimSpace(ls[i])) {
        var level, title :| HeadingLine(TrimSpace(ls[i]), level, title);
      }
    }
    HeadingsOfRoot(root);
  }

  lemma {:induction false} HeadingsOfRoot(t: Tree)
    requires t.level == 0 && Structured(t)
    ensures t.children == [] <==> forall i :: 0 <= i < |TreeItems(t)| ==> TreeItems(t)[i].Body?
  {
    var n := |Bodies(t.body)|;
    BodiesOnly(t.body);
    assert TreeItems(t) == Bodies(t.body) + ForestItems(t.children);
    if t.children != [] {
      var first := t.children[0];
      var own := TreeItems(first);
      assert own == [Heading(first.level, first.title)] + Bodies(first.body) + ForestItems(first.children);
      assert ForestItems(t.children) == own + ForestItems(t.children[1..]);
      assert TreeItems(t)[n] == own[0];
    } else {
      assert TreeItems(t) == Bodies(t.body);
    }
  }
}
