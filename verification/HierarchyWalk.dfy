/** internal/rag/hierarchy_chunker.go, the walk in Split: every section with the titles that enclose it, in document
    order, from a path slice whose backing array siblings share. */
module HierarchyWalk {
  import opened HeadingTree
  import opened Text

  datatype Crumb = Crumb(level: nat, title: string)

  /** A stretch of body lines with the headings that enclose it, outermost first, and the titles of its subsections. */
  datatype Section = Section(path: seq<Crumb>, titles: seq<string>, body: seq<string>)

  // Sections of a document, without a tree -----------------------------------------------------------

  function Headings(items: seq<Item>): seq<Crumb> {
    if items == [] then []
    else
      var last := items[|items| - 1];
      Headings(items[..|items| - 1]) + if last.Heading? then [Crumb(last.level, last.title)] else []
  }

  /** How many headings there are up to the nearest one above the given level. */
  function Nearest(hs: seq<Crumb>, level: nat): (k: nat)
    ensures k <= |hs| && (k > 0 ==> hs[k - 1].level < level)
    ensures forall i :: k <= i < |hs| ==> hs[i].level >= level
  {
    if hs == [] then 0 else if hs[|hs| - 1].level < level then |hs| else Nearest(hs[..|hs| - 1], level)
  }

  /** The last heading, below the path of the nearest heading above its level. */
  function PathOf(hs: seq<Crumb>): seq<Crumb>
    decreases |hs|
  {
    if hs == [] then []
    else
      var front, last := hs[..|hs| - 1], hs[|hs| - 1];
      PathOf(front[..Nearest(front, last.level)]) + [last]
  }

  function WithSubtitle(sections: seq<Section>, k: nat, title: string): (r: seq<Section>)
    requires k < |sections|
    ensures |r| == |sections|
  {
    sections[k := sections[k].(titles := sections[k].titles + [title])]
  }

  /** What precedes the first heading, then one section for each heading, which is a subsection of the nearest heading
      above it. */
  function SectionsOf(items: seq<Item>): (sections: seq<Section>)
    ensures |sections| == 1 + |Headings(items)|
  {
    if items == [] then [Section([], [], [])]
    else
      var front, last := items[..|items| - 1], items[|items| - 1];
      var before := SectionsOf(front);
      match last
      case Heading(level, title) =>
        WithSubtitle(before, Nearest(Headings(front), level), title) + [Section(PathOf(Headings(items)), [], [])]
      case Body(line) => before[..|before| - 1] + [before[|before| - 1].(body := before[|before| - 1].body + [line])]
  }

  // Sections of a tree -----------------------------------------------------------------------------------

  function Extend(path: seq<Crumb>, level: nat, title: string): seq<Crumb> {
    if level == 0 then path else path + [Crumb(level, title)]
  }

  function Titles(ts: seq<Tree>): seq<string> {
    seq(|ts|, i requires 0 <= i < |ts| => ts[i].title)
  }

  function TreeSections(t: Tree, path: seq<Crumb>): (sections: seq<Section>)
    ensures sections != []
    decreases t, 1
  {
    var p := Extend(path, t.level, t.title);
    [Section(p, Titles(t.children), t.body)] + ForestSections(t.children, p)
  }

  function ForestSections(ts: seq<Tree>, path: seq<Crumb>): seq<Section>
    decreases ts, 0
  {
    if ts == [] then [] else TreeSections(ts[0], path) + ForestSections(ts[1..], path)
  }

  // The tree's sections are the document's ---------------------------------------------------------------

  function DropDeep(path: seq<Crumb>, level: nat): seq<Crumb> {
    if path == [] || path[|path| - 1].level < level then path else DropDeep(path[..|path| - 1], level)
  }

  lemma {:induction false} NearestSkips(hs: seq<Crumb>, deep: nat, level: nat)
    requires level <= deep
    ensures Nearest(hs[..Nearest(hs, deep)], level) == Nearest(hs, level)
    decreases |hs|
  {
    if hs != [] && hs[|hs| - 1].level >= deep {
      var front := hs[..|hs| - 1];
      NearestSkips(front, deep, level);
      assert front[..Nearest(front, deep)] == hs[..Nearest(hs, deep)];
    } else {
      assert hs[..|hs|] == hs;
    }
  }

  lemma {:induction false} PathOfLast(front: seq<Crumb>, last: Crumb)
    ensures var path := PathOf(front + [last]);
            path != [] && path[|path| - 1] == last && path[..|path| - 1] == PathOf(front[..Nearest(front, last.level)])
  {
    assert (front + [last])[..|front|] == front;
  }

  lemma {:induction false} NearestOfLast(front: seq<Crumb>, last: Crumb, level: nat)
    ensures Nearest(front + [last], level) == if last.level < level then |front| + 1 else Nearest(front, level)
    ensures last.level >= level ==> (front + [last])[..Nearest(front, level)] == front[..Nearest(front, level)]
  {
    assert (front + [last])[..|front|] == front;
  }

  /** The enclosing headings of a new heading are those of the previous one that lie above its level. */
  lemma {:induction false} PathBelow(hs: seq<Crumb>, level: nat)
    ensures PathOf(hs[..Nearest(hs, level)]) == DropDeep(PathOf(hs), level)
    decreases |hs|
  {
    hide Nearest, PathOf;
    if hs == [] {
      assert hs[..Nearest(hs, level)] == [] && PathOf([]) == [] by { NoPath(level); }
    } else {
      var front, last := hs[..|hs| - 1], hs[|hs| - 1];
      assert hs == front + [last];
      PathOfLast(front, last);
      NearestOfLast(front, last, level);
      if last.level < level {
        assert hs[..|hs|] == hs;
      } else {
        var above := front[..Nearest(front, last.level)];
        PathBelow(above, level);
        NearestSkips(front, last.level, level);
        assert above[..Nearest(above, level)] == front[..Nearest(front, level)];
      }
    }
  }

  lemma {:induction false} NoPath(level: nat)
    ensures Nearest([], level) == 0 && PathOf([]) == []
  {
  }

  function Crumbs(f: seq<Frame>): seq<Crumb> {
    if f == [] then [] else Extend(Crumbs(f[..|f| - 1]), f[|f| - 1].level, f[|f| - 1].title)
  }

  /** An open node's own section knows its finished children and, through extra, the one that is still open. */
  function FrameSections(f: Frame, path: seq<Crumb>, extra: seq<string>): (r: seq<Section>)
    ensures |r| == 1 + |ForestSections(f.done, path)|
  {
    [Section(path, Titles(f.done) + extra, f.body)] + ForestSections(f.done, path)
  }

  function StackSections(f: seq<Frame>, extra: seq<string>): seq<Section> {
    if f == [] then []
    else StackSections(f[..|f| - 1], [f[|f| - 1].title]) + FrameSections(f[|f| - 1], Crumbs(f), extra)
  }

  lemma {:induction false} ForestSectionsSnoc(ts: seq<Tree>, t: Tree, path: seq<Crumb>)
    ensures ForestSections(ts + [t], path) == ForestSections(ts, path) + TreeSections(t, path)
    decreases |ts|
  {
    if ts == [] {
      assert [] + [t] == [t] && [t][1..] == [] && ForestSections([t][1..], path) == [];
    } else {
      assert (ts + [t])[1..] == ts[1..] + [t];
      ForestSectionsSnoc(ts[1..], t, path);
    }
  }

  lemma {:induction false} StackSectionsSnoc(f: seq<Frame>, top: Frame, extra: seq<string>)
    ensures StackSections(f + [top], extra)
         == StackSections(f, [top.title]) + FrameSections(top, Extend(Crumbs(f), top.level, top.title), extra)
    ensures Crumbs(f + [top]) == Extend(Crumbs(f), top.level, top.title)
  {
    assert (f + [top])[..|f|] == f;
  }

  lemma {:induction false} CountIgnoresExtra(f: seq<Frame>, x: seq<string>, y: seq<string>)
    ensures |StackSections(f, x)| == |StackSections(f, y)|
  {
  }

  lemma {:induction false} ShutKeepsSections(f: seq<Frame>)
    requires |f| > 1
    ensures StackSections(Shut(f), []) == StackSections(f, []) && Crumbs(Shut(f)) == Crumbs(f[..|f| - 1])
  {
    hide StackSections, Crumbs, TreeSections, ForestSections, FrameSections;
    var n := |f|;
    var base, parent, top := f[..n - 2], f[n - 2], f[n - 1];
    var grown := parent.(done := parent.done + [top.Finish()]);
    assert f == (base + [parent]) + [top] && f[..n - 1] == base + [parent] && Shut(f) == base + [grown];
    StackSectionsSnoc(base + [parent], top, []);
    StackSectionsSnoc(base, parent, [top.title]);
    StackSectionsSnoc(base, grown, []);
    FinishedSections(parent, top, Extend(Crumbs(base), parent.level, parent.title));
  }

  lemma {:induction false} FinishedSections(parent: Frame, top: Frame, path: seq<Crumb>)
    ensures FrameSections(parent.(done := parent.done + [top.Finish()]), path, [])
         == FrameSections(parent, path, [top.title]) + FrameSections(top, Extend(path, top.level, top.title), [])
  {
    ForestSectionsSnoc(parent.done, top.Finish(), path);
    assert Titles(parent.done + [top.Finish()]) + [] == Titles(parent.done) + [top.title];
    assert Titles(top.done) + [] == Titles(top.done);
  }

  /** Popping keeps every section, and cuts the path back to the headings above the new one. */
  lemma {:induction false} PopKeepsSections(f: seq<Frame>, level: nat)
    requires |f| > 0 && f[0].level == 0 && (forall i :: 0 < i < |f| ==> f[i].level > 0)
    ensures StackSections(Pop(f, level), []) == StackSections(f, [])
        && Crumbs(Pop(f, level)) == DropDeep(Crumbs(f), level)
    decreases |f|
  {
    hide StackSections;
    if |f| > 1 {
      var front, top := f[..|f| - 1], f[|f| - 1];
      var crumbs := Crumbs(f);
      assert crumbs[..|crumbs| - 1] == Crumbs(front);
      if top.level >= level {
        ShutKeepsSections(f);
        PopKeepsSections(Shut(f), level);
      }
    } else {
      assert f[..0] == [];
    }
  }

  lemma {:induction false} CloseKeepsSections(f: seq<Frame>)
    requires |f| > 0
    ensures TreeSections(Close(f), []) == StackSections(f, [])
    decreases |f|
  {
    if |f| == 1 {
      assert f[..0] == [] && Crumbs([]) == [] && StackSections([], [f[0].title]) == [];
      assert StackSections(f, []) == [] + FrameSections(f[0], Crumbs(f), []);
      assert Titles(f[0].done) + [] == Titles(f[0].done);
    } else {
      ShutKeepsSections(f);
      CloseKeepsSections(Shut(f));
    }
  }

  // Which section a new heading belongs to -----------------------------------------------------------------

  /** The open node under which a heading of this level goes. */
  function TopFor(f: seq<Frame>, level: nat): (j: nat)
    requires |f| > 0
    ensures j < |f|
  {
    if |f| > 1 && f[|f| - 1].level >= level then TopFor(f[..|f| - 1], level) else |f| - 1
  }

  lemma {:induction false} TopForLevels(f: seq<Frame>, g: seq<Frame>, level: nat)
    requires 0 < |f| == |g| && forall i :: 0 <= i < |f| ==> f[i].level == g[i].level
    ensures TopFor(f, level) == TopFor(g, level)
    decreases |f|
  {
    if |f| > 1 && f[|f| - 1].level >= level {
      TopForLevels(f[..|f| - 1], g[..|g| - 1], level);
    }
  }

  /** Popping leaves the nodes below that one as they are. */
  lemma {:induction false} PopTop(f: seq<Frame>, level: nat)
    requires |f| > 0
    ensures var g, j := Pop(f, level), TopFor(f, level);
            |g| == j + 1 && g[..j] == f[..j] && g[j].level == f[j].level
    decreases |f|
  {
    if |f| > 1 && f[|f| - 1].level >= level {
      var s, front := Shut(f), f[..|f| - 1];
      PopTop(s, level);
      TopForLevels(s, front, level);
      var j := TopFor(front, level);
      assert s[..|f| - 2] == f[..|f| - 2];
      assert s[..j] == s[..|f| - 2][..j] && f[..j] == f[..|f| - 2][..j];
    }
  }

  /** A shallower heading goes under the same node before and after the pop for a deeper one. */
  lemma {:induction false} TopForShallower(f: seq<Frame>, deep: nat, level: nat)
    requires |f| > 0 && level <= deep
    ensures TopFor(f[..TopFor(f, deep) + 1], level) == TopFor(f, level)
    decreases |f|
  {
    if |f| > 1 && f[|f| - 1].level >= deep {
      var front := f[..|f| - 1];
      TopForShallower(front, deep, level);
      assert front[..TopFor(front, deep) + 1] == f[..TopFor(f, deep) + 1];
    } else {
      assert f[..|f|] == f;
    }
  }

  /** Where the section of that node stands. */
  function Place(f: seq<Frame>, level: nat): nat
    requires |f| > 0
  {
    |StackSections(f[..TopFor(f, level)], [])|
  }

  /** For every level the new heading's node stands where the nearest heading above that level does. */
  ghost predicate Places(f: seq<Frame>, hs: seq<Crumb>)
    requires |f| > 0
  {
    forall level: nat :: level > 0 ==> Place(f, level) == Nearest(hs, level)
  }

  /** The stack after reading the items holds their sections, and its open headings are the path of the last one. */
  ghost predicate Tracks(f: seq<Frame>, items: seq<Item>) {
    && |f| > 0 && f[0].level == 0 && (forall i :: 0 < i < |f| ==> f[i].level > 0) && TopIsChildless(f)
    && StackSections(f, []) == SectionsOf(items) && Crumbs(f) == PathOf(Headings(items)) && Places(f, Headings(items))
  }

  lemma {:induction false} PlacesHeading(f: seq<Frame>, hs: seq<Crumb>, level: nat, title: string)
    requires |f| > 0 && f[0].level == 0 && (forall i :: 0 < i < |f| ==> f[i].level > 0) && level > 0
    requires Places(f, hs) && |StackSections(f, [])| == 1 + |hs|
    ensures Places(Pop(f, level) + [Frame(level, title, [], [])], hs + [Crumb(level, title)])
  {
    hide StackSections, Pop, TopFor, Nearest;
    var g, top := Pop(f, level), Frame(level, title, [], []);
    var h := g + [top];
    assert h[..|g|] == g;
    PopTop(f, level);
    PopKeepsSections(f, level);
    forall l: nat | l > 0
      ensures Place(h, l) == Nearest(hs + [Crumb(level, title)], l)
    {
      NearestOfLast(hs, Crumb(level, title), l);
      TopForLast(g, top, l);
      if level >= l {
        var m := TopFor(f, level);
        TopForShallower(f, level, l);
        assert forall i :: 0 <= i < |g| ==> g[i].level == f[..m + 1][i].level by {
          assert forall i :: 0 <= i < m ==> g[i] == g[..m][i];
        }
        TopForLevels(g, f[..m + 1], l);
        var j := TopFor(g, l);
        assert h[..j] == g[..m][..j] && f[..j] == f[..m][..j];
      }
    }
  }

  lemma {:induction false} TopForLast(g: seq<Frame>, top: Frame, level: nat)
    requires |g| > 0
    ensures TopFor(g + [top], level) == if top.level >= level then TopFor(g, level) else |g|
  {
    assert (g + [top])[..|g|] == g;
  }

  lemma {:induction false} PlacesBody(f: seq<Frame>, g: seq<Frame>, hs: seq<Crumb>)
    requires 0 < |f| == |g| && Places(f, hs) && f[..|f| - 1] == g[..|f| - 1] && f[|f| - 1].level == g[|f| - 1].level
    ensures Places(g, hs)
  {
    hide StackSections, TopFor, Nearest;
    assert forall i :: 0 <= i < |f| - 1 ==> f[i] == f[..|f| - 1][i] && g[i] == g[..|f| - 1][i];
    forall l: nat | l > 0
      ensures Place(g, l) == Nearest(hs, l)
    {
      TopForLevels(f, g, l);
      var j := TopFor(g, l);
      assert f[..j] == f[..|f| - 1][..j] && g[..j] == g[..|f| - 1][..j];
    }
  }

  /** An open child shows in the titles of its node and nowhere else. */
  lemma {:induction false} ExtraIsSubtitle(f: seq<Frame>, title: string)
    requires |f| > 0
    ensures var k := |StackSections(f[..|f| - 1], [])|;
            k < |StackSections(f, [])| && StackSections(f, [title]) == WithSubtitle(StackSections(f, []), k, title)
  {
    hide StackSections, ForestSections;
    var base, top := f[..|f| - 1], f[|f| - 1];
    assert f == base + [top];
    StackSectionsSnoc(base, top, []);
    StackSectionsSnoc(base, top, [title]);
    CountIgnoresExtra(base, [], [top.title]);
    assert Titles(top.done) + [] + [title] == Titles(top.done) + [title];
  }

  lemma {:induction false} ItemsSnoc(items: seq<Item>, item: Item)
    ensures (items + [item])[..|items|] == items && (items + [item])[|items|] == item
    ensures Headings(items + [item]) == Headings(items) + if item.Heading? then [Crumb(item.level, item.title)] else []
  {
  }

  lemma {:induction false} PathOfSnoc(hs: seq<Crumb>, c: Crumb)
    ensures PathOf(hs + [c]) == DropDeep(PathOf(hs), c.level) + [c]
  {
    assert (hs + [c])[..|hs|] == hs;
    PathBelow(hs, c.level);
  }

  lemma {:induction false} PopKeepsLevels(f: seq<Frame>, level: nat)
    requires |f| > 0 && f[0].level == 0 && forall i :: 0 < i < |f| ==> f[i].level > 0
    ensures var g := Pop(f, level); g[0].level == 0 && forall i :: 0 < i < |g| ==> g[i].level > 0
    decreases |f|
  {
    if |f| > 1 && f[|f| - 1].level >= level {
      PopKeepsLevels(Shut(f), level);
    }
  }

  lemma {:induction false} TracksHeading(f: seq<Frame>, items: seq<Item>, item: Item)
    requires Tracks(f, items) && item.Heading? && item.level > 0
    ensures Tracks(Step(f, item), items + [item])
  {
    hide StackSections, Crumbs, SectionsOf, PathOf, Headings, Pop, Places, Nearest, TopFor;
    var g, top := Pop(f, item.level), Frame(item.level, item.title, [], []);
    var crumb := Crumb(item.level, item.title);
    PopKeepsSections(f, item.level);
    PopKeepsLevels(f, item.level);
    StackSectionsSnoc(g, top, []);
    ItemsSnoc(items, item);
    PathOfSnoc(Headings(items), crumb);
    SectionsSnoc(items, item);
    PlacesHeading(f, Headings(items), item.level, item.title);
    HeadingPlace(f, Headings(items), item.level);
    ExtraIsSubtitle(g, item.title);
    assert Titles(top.done) + [] == [];
    assert FrameSections(top, Extend(Crumbs(g), top.level, top.title), []) == [Section(PathOf(Headings(items + [item])),
        [], [])];
  }

  lemma {:induction false} HeadingPlace(f: seq<Frame>, hs: seq<Crumb>, level: nat)
    requires |f| > 0 && Places(f, hs) && level > 0
    ensures var g := Pop(f, level); |StackSections(g[..|g| - 1], [])| == Nearest(hs, level)
  {
    hide StackSections, Pop, Nearest, TopFor;
    PopTop(f, level);
    assert Place(f, level) == Nearest(hs, level);
  }

  lemma {:induction false} SectionsSnoc(items: seq<Item>, item: Item)
    ensures var front := SectionsOf(items);
            SectionsOf(items + [item]) ==
            if item.Heading? then
              WithSubtitle(front, Nearest(Headings(items), item.level), item.title)
                  + [Section(PathOf(Headings(items + [item])), [], [])]
            else front[..|front| - 1] + [front[|front| - 1].(body := front[|front| - 1].body + [item.line])]
  {
    hide PathOf, Headings, Nearest;
    assert (items + [item])[..|items|] == items;
  }

  /** A body line goes into the last section. */
  lemma {:induction false} BodySection(base: seq<Frame>, top: Frame, line: string)
    requires top.done == []
    ensures var grown, all := top.(body := top.body + [line]), StackSections(base + [top], []);
            && Crumbs(base + [grown]) == Crumbs(base + [top]) && all != []
            && StackSections(base + [grown], []) == all[..|all| - 1]
                + [all[|all| - 1].(body := all[|all| - 1].body + [line])]
  {
    hide StackSections, Crumbs;
    var grown := top.(body := top.body + [line]);
    StackSectionsSnoc(base, top, []);
    StackSectionsSnoc(base, grown, []);
    var path, rest := Extend(Crumbs(base), top.level, top.title), StackSections(base, [top.title]);
    assert Titles(top.done) + [] == [];
    assert FrameSections(top, path, []) == [Section(path, [], top.body)]
        && FrameSections(grown, path, []) == [Section(path, [], grown.body)];
    assert (rest + [Section(path, [], top.body)])[..|rest|] == rest;
  }

  lemma {:induction false} TracksBody(f: seq<Frame>, items: seq<Item>, item: Item)
    requires Tracks(f, items) && item.Body?
    ensures Tracks(Step(f, item), items + [item])
  {
    hide StackSections, Crumbs, SectionsOf, PathOf, Headings, Places;
    var base, top := f[..|f| - 1], f[|f| - 1];
    var grown := top.(body := top.body + [item.line]);
    assert f == base + [top] && (base + [grown])[..|f| - 1] == base;
    BodySection(base, top, item.line);
    ItemsSnoc(items, item);
    SectionsSnoc(items, item);
    PlacesBody(f, base + [grown], Headings(items));
    assert Headings(items) + [] == Headings(items) && Step(f, item) == base + [grown];
    assert forall i :: 0 < i < |f| ==> (base + [grown])[i].level == f[i].level;
  }

  lemma {:induction false} TracksAll(f: seq<Frame>, before: seq<Item>, items: seq<Item>)
    requires |f| > 0 && Tracks(f, before) && forall i :: 0 <= i < |items| && items[i].Heading? ==> items[i].level > 0
    ensures Tracks(Steps(f, items), before + items)
    decreases |items|
  {
    hide Tracks, Step;
    if items == [] {
      assert before + items == before;
    } else {
      if items[0].Heading? { TracksHeading(f, before, items[0]); } else { TracksBody(f, before, items[0]); }
      TracksAll(Step(f, items[0]), before + [items[0]], items[1..]);
      assert before + [items[0]] + items[1..] == before + items;
    }
  }

  /** The sections of the parsed tree are the stretches of the document between its headings, in document order, each
      with the chain of nearest enclosing headings. */
  lemma {:induction false} SectionsOfParse(markdown: string)
    ensures TreeSections(Parse(markdown), []) == SectionsOf(Items(Prose, Lines(markdown)))
  {
    hide StackSections, SectionsOf, Tracks, Steps, TreeSections, Items, Lines, Parse, Close;
    var items := Items(Prose, Lines(markdown));
    ReadLevels(Prose, Lines(markdown));
    RootTracks();
    TracksAll(ROOT, [], items);
    assert [] + items == items;
    TracksSections(Steps(ROOT, items), items);
    CloseKeepsSections(Steps(ROOT, items));
    ParseIs(markdown);
  }

  lemma {:induction false} TracksSections(f: seq<Frame>, items: seq<Item>)
    requires Tracks(f, items)
    ensures StackSections(f, []) == SectionsOf(items)
  {
  }

  lemma {:induction false} RootTracks()
    ensures Tracks(ROOT, [])
  {
    assert ROOT[..0] == [] && StackSections([], [""]) == [] && StackSections([], []) == [] && Crumbs([]) == []
        && Headings([]) == [];
    assert StackSections(ROOT, []) == [] + FrameSections(ROOT[0], Crumbs(ROOT), []);
    assert Titles(ROOT[0].done) + [] == [];
    forall level: nat | level > 0
      ensures Place(ROOT, level) == Nearest(Headings([]), level)
    {
      assert TopFor(ROOT, level) == 0;
    }
  }

  /** Levels strictly increase along a path, and its last heading is the section's own. */
  lemma {:induction false} PathDescends(hs: seq<Crumb>)
    ensures var p := PathOf(hs); (forall i, j :: 0 <= i < j < |p| ==> p[i].level < p[j].level) && (hs != [] ==>
        p != [] && p[|p| - 1] == hs[|hs| - 1])
    decreases |hs|
  {
    if hs != [] {
      var front, last := hs[..|hs| - 1], hs[|hs| - 1];
      var above := front[..Nearest(front, last.level)];
      PathDescends(above);
    }
  }

  // The path as heading lines --------------------------------------------------------------------------------

  function PathItems(path: seq<Crumb>): (items: seq<Item>)
    ensures |items| == |path|
  {
    if path == [] then [] else [Heading(path[0].level, path[0].title)] + PathItems(path[1..])
  }

  function FormatPath(path: seq<Crumb>): string {
    JoinLines(RenderAll(PathItems(path)))
  }

  lemma {:induction false} PathIsWellRead(path: seq<Crumb>)
    requires forall i :: 0 <= i < |path| ==> 1 <= path[i].level <= 6 && GoodTitle(path[i].title)
    ensures WellRead(Prose, PathItems(path))
    decreases |path|
  {
    if path != [] {
      PathIsWellRead(path[1..]);
      assert PathItems(path)[1..] == PathItems(path[1..]);
    }
  }

  /** A path embedded in a chunk reads back as its headings. */
  lemma {:induction false} PathReadsBack(path: seq<Crumb>)
    requires path != [] && forall i :: 0 <= i < |path| ==> 1 <= path[i].level <= 6 && GoodTitle(path[i].title)
    ensures Items(Prose, Lines(FormatPath(path))) == PathItems(path)
  {
    hide Items, Lines, JoinLines, WellRead;
    PathIsWellRead(path);
    WellReadReads(Prose, PathItems(path));
    LinesOfJoin(RenderAll(PathItems(path)));
  }

  // The walk ----------------------------------------------------------------------------------------------------

  /** buildParentBlock, of the path, the titles of the children and the body; and splitBodyBlocks. */
  datatype Blocks = Blocks(parent: (seq<Crumb>, seq<string>, seq<string>) -> string,
                           content: (seq<Crumb>, seq<string>) -> seq<string>)

  /** The chunks of one node, without its children. */
  function NodeChunks(b: Blocks, t: Tree, path: seq<Crumb>): seq<string> {
    if t.level > 0 then
      var parent := b.parent(path, Titles(t.children), t.body);
      (if t.children != [] && parent != "" then [parent] else []) + b.content(path, t.body)
    else if t.body != [] then b.content([], t.body)
    else []
  }

  function Chunks(b: Blocks, t: Tree, path: seq<Crumb>): seq<string>
    decreases t, 1
  {
    var p := Extend(path, t.level, t.title);
    NodeChunks(b, t, p) + ForestChunks(b, t.children, p)
  }

  function ForestChunks(b: Blocks, ts: seq<Tree>, path: seq<Crumb>): seq<string>
    decreases ts, 0
  {
    if ts == [] then [] else Chunks(b, ts[0], path) + ForestChunks(b, ts[1..], path)
  }

  /** The chunks of one section: a parent block when it has subsections, then its content blocks. What precedes the
      first heading has no parent block. */
  function SectionChunks(b: Blocks, s: Section): seq<string> {
    if s.path == [] then if s.body != [] then b.content([], s.body) else []
    else
      var parent := b.parent(s.path, s.titles, s.body);
      (if s.titles != [] && parent != "" then [parent] else []) + b.content(s.path, s.body)
  }

  function AllChunks(b: Blocks, sections: seq<Section>): seq<string> {
    if sections == [] then [] else SectionChunks(b, sections[0]) + AllChunks(b, sections[1..])
  }

  lemma {:induction false} AllChunksConcat(b: Blocks, x: seq<Section>, y: seq<Section>)
    ensures AllChunks(b, x + y) == AllChunks(b, x) + AllChunks(b, y)
    decreases |x|
  {
    if x == [] {
      assert x + y == y;
    } else {
      assert (x + y)[1..] == x[1..] + y;
      AllChunksConcat(b, x[1..], y);
    }
  }

  lemma {:induction false} NodeIsSection(b: Blocks, t: Tree, path: seq<Crumb>)
    requires t.level == 0 ==> path == []
    ensures var p := Extend(path, t.level, t.title);
            NodeChunks(b, t, p) == AllChunks(b, [Section(p, Titles(t.children), t.body)])
  {
    var s := Section(Extend(path, t.level, t.title), Titles(t.children), t.body);
    assert [s][1..] == [] && AllChunks(b, [s][1..]) == [];
    assert AllChunks(b, [s]) == SectionChunks(b, s) + [] == SectionChunks(b, s);
    assert s.titles == [] <==> t.children == [];
  }

  lemma {:induction false} ChunksAreSections(b: Blocks, t: Tree, path: seq<Crumb>)
    requires (t.level == 0 ==> path == []) && Structured(t)
    ensures Chunks(b, t, path) == AllChunks(b, TreeSections(t, path))
    decreases t, 1
  {
    hide ForestChunks, ForestSections, NodeChunks, AllChunks;
    var p := Extend(path, t.level, t.title);
    ForestChunksAreSections(b, t.children, t.level, p);
    NodeIsSection(b, t, path);
    AllChunksConcat(b, [Section(p, Titles(t.children), t.body)], ForestSections(t.children, p));
  }

  lemma {:induction false} ForestChunksAreSections(b: Blocks, ts: seq<Tree>, level: nat, path: seq<Crumb>)
    requires StructuredForest(level, ts)
    ensures ForestChunks(b, ts, path) == AllChunks(b, ForestSections(ts, path))
    decreases ts, 0
  {
    if ts != [] {
      ChunksAreSections(b, ts[0], path);
      assert forall i :: 0 <= i < |ts[1..]| ==> ts[1..][i] == ts[i + 1];
      ForestChunksAreSections(b, ts[1..], level, path);
      AllChunksConcat(b, TreeSections(ts[0], path), ForestSections(ts[1..], path));
    }
  }

  /** The walk over a parsed document gives, for each section of the document in order, a parent block exactly when the
      section has subsections (and the block is not empty), then the section's content blocks. */
  lemma {:induction false} WalkFollowsDocument(b: Blocks, markdown: string)
    ensures Chunks(b, Parse(markdown), []) == AllChunks(b, SectionsOf(Items(Prose, Lines(markdown))))
  {
    hide Chunks, AllChunks, SectionsOf, TreeSections, Parse, Items, Lines;
    ParseIsWellFormed(markdown);
    SectionsOfParse(markdown);
    ChunksAreSections(b, Parse(markdown), []);
  }

  /** append on a slice of length n: in place while there is room, into a larger copy otherwise. */
  method Append(s: array<Crumb>, n: nat, c: Crumb) returns (t: array<Crumb>)
    requires n <= s.Length
    modifies s
    ensures n < t.Length && t[..n] == old(s[..n]) && t[n] == c && s[..n] == old(s[..n])
    ensures t == s || fresh(t)
  {
    if n < s.Length {
      s[n] := c;
      t := s;
    } else {
      t := new Crumb[2 * n + 1](_ => c);
      for i := 0 to n
        invariant t[..i] == s[..i] && t[n] == c
        modifies t
      {
        t[i] := s[i];
      }
    }
  }

  lemma {:induction false} ChunksParts(b: Blocks, t: Tree, path: seq<Crumb>)
    ensures var p := Extend(path, t.level, t.title);
            Chunks(b, t, path) == NodeChunks(b, t, p) + ForestChunks(b, t.children[0..], p)
  {
    assert t.children[0..] == t.children;
  }

  lemma {:induction false} ForestStep(b: Blocks, ts: seq<Tree>, i: nat, path: seq<Crumb>, before: seq<string>)
    requires i <= |ts|
    ensures ForestChunks(b, ts[|ts|..], path) == [] && before + [] == before
    ensures i < |ts| ==>
        before + ForestChunks(b, ts[i..], path) == (before + Chunks(b, ts[i], path))
            + ForestChunks(b, ts[i + 1..], path)
  {
    if i < |ts| {
      assert ts[i..][1..] == ts[i + 1..];
    }
  }

  /** walk: siblings reuse the same slot of the backing array, and yet every node sees exactly the path that leads to
      it. */
  method Walk(b: Blocks, t: Tree, path: array<Crumb>, n: nat) returns (chunks: seq<string>)
    requires n <= path.Length
    modifies path
    ensures path[..n] == old(path[..n]) && chunks == Chunks(b, t, old(path[..n]))
    decreases t
  {
    hide Chunks, ForestChunks, NodeChunks;
    var newPath, m := path, n;
    if t.level > 0 {
      newPath := Append(path, n, Crumb(t.level, t.title));
      m := n + 1;
    }
    ghost var p := newPath[..m];
    assert p == Extend(old(path[..n]), t.level, t.title);
    ChunksParts(b, t, old(path[..n]));
    chunks := NodeChunks(b, t, newPath[..m]);
    for i := 0 to |t.children|
      invariant newPath[..m] == p && path[..n] == old(path[..n])
      invariant chunks + ForestChunks(b, t.children[i..], p) == Chunks(b, t, old(path[..n]))
      modifies path, newPath
    {
      ForestStep(b, t.children, i, p, chunks);
      var more := Walk(b, t.children[i], newPath, m);
      chunks := chunks + more;
    }
    ForestStep(b, t.children, |t.children|, p, chunks);
  }

  datatype Outcome = EmptyContent | NoHeadings | NoChunks | Chunked(chunks: seq<string>)

  /** HierarchyChunker.Split; a document without headings goes to the general chunker. */
  method Split(b: Blocks, markdown: string) returns (r: Outcome)
    ensures r.EmptyContent? <==> Blank(markdown)
    ensures r.NoHeadings? <==> !Blank(markdown) && Parse(TrimSpace(markdown)).children == []
    ensures r.Chunked? ==> r.chunks == Chunks(b, Parse(TrimSpace(markdown)), []) && r.chunks != []
    ensures r.NoChunks? ==> Chunks(b, Parse(TrimSpace(markdown)), []) == []
  {
    hide Chunks, Parse;
    var text := TrimSpace(markdown);
    if text == "" {
      return EmptyContent;
    }
    var root := Parse(text);
    if |root.children| == 0 {
      return NoHeadings;
    }
    var path := new Crumb[0];
    assert path[..0] == [];
    var chunks := Walk(b, root, path, 0);
    r := if chunks == [] then NoChunks else Chunked(chunks);
  }
}
