/** internal/rag/hierarchy_chunker.go: the Markdown heading tree and a preorder printer that undoes it. */
module HeadingTree {
  import opened Text

  /** The root has level 0 and no title. */
  datatype Tree = Tree(level: nat, title: string, body: seq<string>, children: seq<Tree>)

  /** What one line of the document is to the tree. */
  datatype Item = Heading(level: nat, title: string) | Body(line: string)

  // Reading lines ----------------------------------------------------------------

  datatype Mode = Prose | Fence(marker: string)

  predicate IsCodeFence(trimmed: string, fence: string) {
    if fence == "" then "```" <= trimmed || "~~~" <= trimmed
    else fence <= trimmed && Blank(trimmed[|fence|..])
  }

  function FenceMarker(trimmed: string): string {
    if "```" <= trimmed then "```" else "~~~"
  }

  /** headingInfo's level: 1 to 6 for a heading line, 0 for any other. */
  function HeadingLevel(trimmed: string): nat {
    var run := RunLength(trimmed, '#');
    var i := if run < 6 then run else 6;
    if i == 0 || i >= |trimmed| || trimmed[i] != ' ' then 0 else i
  }

  /** headingInfo's title. */
  function HeadingTitle(trimmed: string): string
    requires HeadingLevel(trimmed) > 0
  {
    TrimSpace(trimmed[HeadingLevel(trimmed) + 1..])
  }

  predicate IsHeading(m: Mode, line: string) {
    m.Prose? && !IsCodeFence(TrimSpace(line), "") && HeadingLevel(TrimSpace(line)) > 0
  }

  function Read(m: Mode, line: string): Item {
    if IsHeading(m, line) then Heading(HeadingLevel(TrimSpace(line)), HeadingTitle(TrimSpace(line))) else Body(line)
  }

  function NextMode(m: Mode, line: string): Mode {
    var t := TrimSpace(line);
    match m
    case Fence(marker) => if IsCodeFence(t, marker) then Prose else m
    case Prose => if IsCodeFence(t, "") then Fence(FenceMarker(t)) else Prose
  }

  function Items(m: Mode, lines: seq<string>): (items: seq<Item>)
    ensures |items| == |lines|
    decreases |lines|
  {
    if lines == [] then [] else [Read(m, lines[0])] + Items(NextMode(m, lines[0]), lines[1..])
  }

  // Printing ---------------------------------------------------------------------

  function Hashes(n: nat): (s: string)
    ensures |s| == n && forall i :: 0 <= i < n ==> s[i] == '#'
  {
    if n == 0 then "" else "#" + Hashes(n - 1)
  }

  /** One line of formatPath. */
  function Render(item: Item): string {
    match item
    case Heading(level, title) => Hashes(level) + " " + title
    case Body(line) => line
  }

  function RenderAll(items: seq<Item>): (lines: seq<string>)
    ensures |lines| == |items|
  {
    if items == [] then [] else [Render(items[0])] + RenderAll(items[1..])
  }

  function Bodies(body: seq<string>): seq<Item> {
    if body == [] then [] else Bodies(body[..|body| - 1]) + [Body(body[|body| - 1])]
  }

  /** Preorder: heading, body, then the children. */
  function TreeItems(t: Tree): seq<Item>
    decreases t, 1
  {
    (if t.level == 0 then [] else [Heading(t.level, t.title)]) + Bodies(t.body) + ForestItems(t.children)
  }

  function ForestItems(ts: seq<Tree>): seq<Item>
    decreases ts, 0
  {
    if ts == [] then [] else TreeItems(ts[0]) + ForestItems(ts[1..])
  }

  function Print(t: Tree): string {
    JoinLines(RenderAll(TreeItems(t)))
  }

  // Building: the stack of open nodes, root first ----------------------------------

  /** A node on the stack; done are its finished children. */
  datatype Frame = Frame(level: nat, title: string, body: seq<string>, done: seq<Tree>) {
    function Finish(): Tree { Tree(level, title, body, done) }
  }

  function Shut(f: seq<Frame>): (g: seq<Frame>)
    requires |f| > 1
    ensures |g| == |f| - 1
  {
    var parent := f[|f| - 2];
    f[..|f| - 2] + [parent.(done := parent.done + [f[|f| - 1].Finish()])]
  }

  function Pop(f: seq<Frame>, level: nat): (g: seq<Frame>)
    requires |f| > 0
    ensures 0 < |g| <= |f|
    decreases |f|
  {
    if |f| > 1 && f[|f| - 1].level >= level then Pop(Shut(f), level) else f
  }

  function Step(f: seq<Frame>, item: Item): (g: seq<Frame>)
    requires |f| > 0
    ensures |g| > 0
  {
    match item
    case Heading(level, title) => Pop(f, level) + [Frame(level, title, [], [])]
    case Body(line) => var top := f[|f| - 1]; f[..|f| - 1] + [top.(body := top.body + [line])]
  }

  function Steps(f: seq<Frame>, items: seq<Item>): (g: seq<Frame>)
    requires |f| > 0
    ensures |g| > 0
    decreases |items|
  {
    if items == [] then f else Steps(Step(f, items[0]), items[1..])
  }

  function Close(f: seq<Frame>): Tree
    requires |f| > 0
    decreases |f|
  {
    if |f| == 1 then f[0].Finish() else Close(Shut(f))
  }

  const ROOT := [Frame(0, "", [], [])]

  /** buildHeadingTree */
  function Parse(markdown: string): Tree {
    Close(Steps(ROOT, Items(Prose, Lines(markdown))))
  }

  // Printing a parsed document gives its lines back --------------------------------

  function FrameItems(f: Frame): seq<Item> {
    (if f.level == 0 then [] else [Heading(f.level, f.title)]) + Bodies(f.body) + ForestItems(f.done)
  }

  function StackItems(f: seq<Frame>): seq<Item> {
    if f == [] then [] else StackItems(f[..|f| - 1]) + FrameItems(f[|f| - 1])
  }

  lemma {:induction false} ForestConcat(a: seq<Tree>, b: seq<Tree>)
    ensures ForestItems(a + b) == ForestItems(a) + ForestItems(b)
  {
    if a == [] {
      assert a + b == b;
    } else {
      assert (a + b)[1..] == a[1..] + b;
      ForestConcat(a[1..], b);
    }
  }

  lemma {:induction false} ForestSnoc(ts: seq<Tree>, t: Tree)
    ensures ForestItems(ts + [t]) == ForestItems(ts) + TreeItems(t)
  {
    ForestConcat(ts, [t]);
    assert [t][1..] == [] && ForestItems([t]) == TreeItems(t);
  }

  lemma {:induction false} StackSnoc(f: seq<Frame>, top: Frame)
    ensures StackItems(f + [top]) == StackItems(f) + FrameItems(top)
  {
    assert (f + [top])[..|f|] == f;
  }

  lemma {:induction false} FrameWithChild(parent: Frame, child: Frame)
    ensures FrameItems(parent.(done := parent.done + [child.Finish()])) == FrameItems(parent) + FrameItems(child)
  {
    ForestSnoc(parent.done, child.Finish());
    assert FrameItems(child) == TreeItems(child.Finish());
  }

  lemma {:induction false} ShutKeepsItems(f: seq<Frame>)
    requires |f| > 1
    ensures StackItems(Shut(f)) == StackItems(f)
  {
    hide FrameItems, StackItems;
    var n := |f|;
    var base, parent, top := f[..n - 2], f[n - 2], f[n - 1];
    FrameWithChild(parent, top);
    assert f == (base + [parent]) + [top];
    StackSnoc(base + [parent], top);
    StackSnoc(base, parent);
    StackSnoc(base, parent.(done := parent.done + [top.Finish()]));
  }

  lemma {:induction false} PopKeepsItems(f: seq<Frame>, level: nat)
    requires |f| > 0
    ensures StackItems(Pop(f, level)) == StackItems(f)
    decreases |f|
  {
    if |f| > 1 && f[|f| - 1].level >= level {
      ShutKeepsItems(f);
      PopKeepsItems(Shut(f), level);
    }
  }

  lemma {:induction false} CloseKeepsItems(f: seq<Frame>)
    requires |f| > 0
    ensures TreeItems(Close(f)) == StackItems(f)
    decreases |f|
  {
    if |f| == 1 {
      assert f[..0] == [] && StackItems([]) == [];
      assert StackItems(f) == [] + FrameItems(f[0]);
    } else {
      ShutKeepsItems(f);
      CloseKeepsItems(Shut(f));
    }
  }

  /** Body lines only ever reach the newest node, which has no children yet. */
  predicate TopIsChildless(f: seq<Frame>) {
    |f| > 0 && f[|f| - 1].done == []
  }

  lemma {:induction false} StepAppends(f: seq<Frame>, item: Item)
    requires TopIsChildless(f)
    requires item.Heading? ==> item.level > 0
    ensures TopIsChildless(Step(f, item)) && StackItems(Step(f, item)) == StackItems(f) + [item]
  {
    var g := Step(f, item);
    match item {
      case Heading(level, title) =>
        PopKeepsItems(f, level);
        assert g[..|g| - 1] == Pop(f, level);
        assert FrameItems(g[|g| - 1]) == [item];
      case Body(line) =>
        var top := f[|f| - 1];
        assert (top.body + [line])[..|top.body|] == top.body;
        assert g[..|g| - 1] == f[..|f| - 1];
        assert FrameItems(g[|g| - 1]) == FrameItems(top) + [item];
    }
  }

  lemma {:induction false} StepsAppend(f: seq<Frame>, items: seq<Item>)
    requires TopIsChildless(f)
    requires forall i :: 0 <= i < |items| && items[i].Heading? ==> items[i].level > 0
    ensures TopIsChildless(Steps(f, items)) && StackItems(Steps(f, items)) == StackItems(f) + items
    decreases |items|
  {
    hide Step, StackItems;
    if items != [] {
      StepAppends(f, items[0]);
      StepsAppend(Step(f, items[0]), items[1..]);
      assert items == [items[0]] + items[1..];
    }
  }

  lemma {:induction false} ReadLevels(m: Mode, lines: seq<string>)
    ensures forall i :: 0 <= i < |lines| && Items(m, lines)[i].Heading? ==> Items(m, lines)[i].level > 0
    decreases |lines|
  {
    if lines != [] {
      ReadLevels(NextMode(m, lines[0]), lines[1..]);
    }
  }

  /** The tree holds every line of the document once, in order: heading lines as level and title, all others
      verbatim. */
  lemma {:induction false} ParsedItems(markdown: string)
    ensures TreeItems(Parse(markdown)) == Items(Prose, Lines(markdown))
  {
    var items := Items(Prose, Lines(markdown));
    ReadLevels(Prose, Lines(markdown));
    StepsAppend(ROOT, items);
    CloseKeepsItems(Steps(ROOT, items));
    assert ROOT[..0] == [] && StackItems(ROOT) == [];
  }

  /** A heading line with its white space normalised; any other line as it is. */
  function NormalLines(m: Mode, lines: seq<string>): seq<string>
    decreases |lines|
  {
    if lines == [] then []
    else
      var normal := if IsHeading(m, lines[0]) then Render(Read(m, lines[0])) else lines[0];
      [normal] + NormalLines(NextMode(m, lines[0]), lines[1..])
  }

  lemma {:induction false} RenderedItems(m: Mode, lines: seq<string>)
    ensures RenderAll(Items(m, lines)) == NormalLines(m, lines)
    decreases |lines|
  {
    if lines != [] {
      RenderedItems(NextMode(m, lines[0]), lines[1..]);
      assert Items(m, lines)[1..] == Items(NextMode(m, lines[0]), lines[1..]);
    }
  }

  /** Printing a parsed document gives the document back, heading white space normalised. */
  lemma {:induction false} PrintOfParse(markdown: string)
    ensures Print(Parse(markdown)) == JoinLines(NormalLines(Prose, Lines(markdown)))
  {
    ParsedItems(markdown);
    RenderedItems(Prose, Lines(markdown));
  }

  // Reading a printed tree gives the tree back -------------------------------------

  predicate GoodTitle(title: string) {
    title != "" && TrimSpace(title) == title && '\n' !in title
  }

  /** A line sequence that reads back item for item. */
  predicate WellRead(m: Mode, items: seq<Item>)
    decreases |items|
  {
    items == [] ||
    match items[0]
    case Heading(level, title) => m.Prose? && 1 <= level <= 6 && GoodTitle(title) && WellRead(Prose, items[1..])
    case Body(line) => '\n' !in line && !IsHeading(m, line) && WellRead(NextMode(m, line), items[1..])
  }

  lemma {:induction false} HashesThenSpace(level: nat, title: string)
    requires 1 <= level <= 6 && GoodTitle(title)
    ensures var line := Hashes(level) + " " + title;
            && TrimSpace(line) == line && !IsCodeFence(line, "")
            && HeadingLevel(line) == level && HeadingTitle(line) == title
            && '\n' !in line
  {
    var line := Hashes(level) + " " + title;
    TrimSpaceEnds(title);
    TrimSpaceEnds(line);
    assert line[0] == '#' && line[|line| - 1] == title[|title| - 1] && line[level] == ' ';
    RunLengthUnique(line, '#', level);
    assert line[level + 1..] == title;
  }

  lemma {:induction false} WellReadReads(m: Mode, items: seq<Item>)
    requires WellRead(m, items)
    ensures Items(m, RenderAll(items)) == items && NewlineFree(RenderAll(items))
    decreases |items|
  {
    if items != [] {
      var lines := RenderAll(items);
      match items[0] {
        case Heading(level, title) =>
          HashesThenSpace(level, title);
          assert NextMode(m, lines[0]) == Prose;
          WellReadReads(Prose, items[1..]);
        case Body(line) =>
          WellReadReads(NextMode(m, line), items[1..]);
      }
      assert lines[1..] == RenderAll(items[1..]);
    }
  }

  lemma {:induction false} ReadHeadingIsGood(m: Mode, line: string)
    requires IsHeading(m, line) && '\n' !in line
    ensures NextMode(m, line) == Prose
    ensures var h := Read(m, line); 1 <= h.level <= 6 && GoodTitle(h.title)
  {
    var t := TrimSpace(line);
    var level := HeadingLevel(t);
    TrimSpaceEnds(line);
    var rest := t[level + 1..];
    assert !IsSpace(t[|t| - 1]) && IsSpace(t[level]);
    assert rest != "" && rest[|rest| - 1] == t[|t| - 1];
    TrimSpaceEnds(rest);
    TrimSpaceEnds(TrimSpace(rest));
    assert forall c :: c in rest ==> c in t;
  }

  lemma {:induction false} ReadIsWellRead(m: Mode, lines: seq<string>)
    requires NewlineFree(lines)
    ensures WellRead(m, Items(m, lines))
    decreases |lines|
  {
    if lines != [] {
      assert lines[0] in lines;
      ReadIsWellRead(NextMode(m, lines[0]), lines[1..]);
      assert Items(m, lines)[1..] == Items(NextMode(m, lines[0]), lines[1..]);
      if IsHeading(m, lines[0]) {
        ReadHeadingIsGood(m, lines[0]);
      }
    }
  }

  /** Children lie deeper than their parent, and no sibling lies deeper than the one before it. */
  predicate Structured(t: Tree)
    decreases t, 1
  {
    StructuredForest(t.level, t.children)
  }

  predicate StructuredForest(level: nat, ts: seq<Tree>)
    decreases ts, 0
  {
    forall i :: 0 <= i < |ts| ==> ts[i].level > level && Structured(ts[i]) && (i > 0 ==> ts[i].level <= ts[i - 1].level)
  }

  function Add(f: seq<Frame>, ts: seq<Tree>): (g: seq<Frame>)
    requires |f| > 0
    ensures |g| == |f|
  {
    var top := f[|f| - 1];
    f[..|f| - 1] + [top.(done := top.done + ts)]
  }

  lemma {:induction false} StepsConcat(f: seq<Frame>, a: seq<Item>, b: seq<Item>)
    requires |f| > 0
    ensures Steps(f, a + b) == Steps(Steps(f, a), b)
    decreases |a|
  {
    if a == [] {
      assert a + b == b;
    } else {
      assert (a + b)[1..] == a[1..] + b;
      StepsConcat(Step(f, a[0]), a[1..], b);
    }
  }

  lemma {:induction false} StepsBodies(f: seq<Frame>, level: nat, title: string, body: seq<string>)
    ensures Steps(f + [Frame(level, title, [], [])], Bodies(body)) == f + [Frame(level, title, body, [])]
    decreases |body|
  {
    if body != [] {
      var start, init := f + [Frame(level, title, [], [])], body[..|body| - 1];
      StepsBodies(f, level, title, init);
      var last := Body(body[|body| - 1]);
      StepsConcat(start, Bodies(init), [last]);
      var g := f + [Frame(level, title, init, [])];
      assert [last][1..] == [] && Steps(g, [last]) == Step(g, last);
      assert g[..|g| - 1] == f && init + [body[|body| - 1]] == body;
    }
  }

  /** Two stacks that the same shallow heading pops to the same stack. */
  ghost predicate Alike(f: seq<Frame>, g: seq<Frame>, level: nat) {
    && |f| > 0 && |g| > 0 && Close(f) == Close(g)
    && forall l: nat {:trigger Pop(f, l)} :: l <= level ==> Pop(f, l) == Pop(g, l)
  }

  lemma {:induction false} OpenTree(f: seq<Frame>, t: Tree)
    requires |f| > 0 && f[|f| - 1].level < t.level
    ensures Steps(f, TreeItems(t)) == Steps(f + [Frame(t.level, t.title, t.body, [])], ForestItems(t.children))
  {
    hide ForestItems, Bodies;
    var heading, bodies, rest := [Heading(t.level, t.title)], Bodies(t.body), ForestItems(t.children);
    StepsConcat(f, heading + bodies, rest);
    StepsConcat(f, heading, bodies);
    assert heading[1..] == [] && Steps(f, heading) == f + [Frame(t.level, t.title, [], [])];
    StepsBodies(f, t.level, t.title, t.body);
  }

  lemma {:induction false} FinishedTree(f: seq<Frame>, t: Tree)
    requires |f| > 0
    ensures Alike(Add(f + [Frame(t.level, t.title, t.body, [])], t.children), Add(f, [t]), t.level)
  {
    var full := Add(f + [Frame(t.level, t.title, t.body, [])], t.children);
    assert [] + t.children == t.children;
    assert full == f + [Frame(t.level, t.title, t.body, t.children)] && Shut(full) == Add(f, [t]);
  }

  lemma {:induction false} AlikeTrans(f: seq<Frame>, g: seq<Frame>, h: seq<Frame>, upper: nat, level: nat)
    requires Alike(f, g, upper) && Alike(g, h, level) && level <= upper
    ensures Alike(f, h, level)
  {
    hide Pop, Close;
  }

  lemma {:induction false} ReadTree(f: seq<Frame>, t: Tree)
    requires |f| > 0 && Structured(t) && f[|f| - 1].level < t.level
    ensures Alike(Steps(f, TreeItems(t)), Add(f, [t]), t.level)
    decreases t, 1
  {
    hide Alike, Steps, Add, TreeItems, ForestItems;
    OpenTree(f, t);
    var open := f + [Frame(t.level, t.title, t.body, [])];
    var lowest := ReadForest(open, t.children, t.level);
    FinishedTree(f, t);
    AlikeTrans(Steps(open, ForestItems(t.children)), Add(open, t.children), Add(f, [t]), lowest, t.level);
  }

  lemma {:induction false} SameAfterHeading(f: seq<Frame>, g: seq<Frame>, level: nat, items: seq<Item>)
    requires Alike(f, g, level) && items != [] && items[0].Heading? && items[0].level <= level
    ensures Steps(f, items) == Steps(g, items)
  {
    assert Pop(f, items[0].level) == Pop(g, items[0].level);
    assert Step(f, items[0]) == Step(g, items[0]);
  }

  lemma {:induction false} ForestStart(ts: seq<Tree>)
    requires ts != [] && ts[0].level > 0
    ensures ForestItems(ts) == TreeItems(ts[0]) + ForestItems(ts[1..])
    ensures ForestItems(ts) != [] && ForestItems(ts)[0] == Heading(ts[0].level, ts[0].title)
  {
  }

  lemma {:induction false} AddOne(f: seq<Frame>, ts: seq<Tree>)
    requires |f| > 0
    ensures Add(f, []) == f && Add(f, ts)[|f| - 1].level == f[|f| - 1].level
    ensures ts != [] ==> Add(Add(f, [ts[0]]), ts[1..]) == Add(f, ts)
  {
    var done := f[|f| - 1].done;
    assert done + [] == done;
    if ts != [] {
      assert done + [ts[0]] + ts[1..] == done + ([ts[0]] + ts[1..]) && [ts[0]] + ts[1..] == ts;
    }
  }

  /** Reading the items of a forest amounts to adding it to the top frame, up to headings no deeper than its last
      tree. */
  lemma {:induction false} ReadForest(f: seq<Frame>, ts: seq<Tree>, level: nat) returns (lowest: nat)
    requires |f| > 0 && f[|f| - 1].level <= level && StructuredForest(level, ts)
    ensures lowest >= level && Alike(Steps(f, ForestItems(ts)), Add(f, ts), lowest)
    ensures lowest == if ts == [] then level else ts[|ts| - 1].level
    decreases ts, 0
  {
    hide Steps, Add, TreeItems, ForestItems;
    AddOne(f, ts);
    lowest := level;
    if ts == [] {
      NothingToRead(f);
    } else {
      var t, rest := ts[0], ts[1..];
      assert t.level > level && Structured(t);
      ReadTree(f, t);
      AddOne(f, [t]);
      ForestStart(ts);
      var read, added := Steps(f, TreeItems(t)), Add(f, [t]);
      StepsConcat(f, TreeItems(t), ForestItems(rest));
      assert forall i :: 0 <= i < |rest| ==> rest[i] == ts[i + 1];
      lowest := ReadForest(added, rest, level);
      if rest != [] {
        ForestStart(rest);
        SameAfterHeading(read, added, t.level, ForestItems(rest));
      } else {
        NothingToRead(read);
        lowest := t.level;
        AddOne(added, []);
      }
    }
  }

  lemma {:induction false} NothingToRead(f: seq<Frame>)
    requires |f| > 0
    ensures ForestItems([]) == [] && Steps(f, []) == f
  {
  }

  lemma {:induction false} RebuildTree(t: Tree)
    requires t.level == 0 && t.title == "" && Structured(t)
    ensures Close(Steps(ROOT, TreeItems(t))) == t
  {
    var bodies, rest := Bodies(t.body), ForestItems(t.children);
    assert TreeItems(t) == bodies + rest;
    StepsConcat(ROOT, bodies, rest);
    assert [] + ROOT == ROOT;
    StepsBodies([], 0, "", t.body);
    var open := [Frame(0, "", t.body, [])];
    assert [] + open == open && Steps(ROOT, bodies) == open;
    var _ := ReadForest(open, t.children, 0);
    assert [] + t.children == t.children;
    assert Add(open, t.children) == [Frame(0, "", t.body, t.children)];
  }

  /** Every well-formed tree is read back from its print. */
  lemma {:induction false} ParseOfPrint(t: Tree)
    requires t.level == 0 && t.title == "" && Structured(t)
    requires TreeItems(t) != [] && WellRead(Prose, TreeItems(t))
    ensures Parse(Print(t)) == t
  {
    hide *;
    var items := TreeItems(t);
    WellReadReads(Prose, items);
    LinesOfJoin(RenderAll(items));
    RebuildTree(t);
    PrintThenParse(t);
  }

  lemma {:induction false} PrintThenParse(t: Tree)
    ensures Parse(Print(t)) == Close(Steps(ROOT, Items(Prose, Lines(JoinLines(RenderAll(TreeItems(t)))))))
  {
  }

  // Every parsed document is a well-formed tree --------------------------------------

  predicate Fits(parent: Frame, child: Frame) {
    child.level > parent.level && (parent.done != [] ==> child.level <= parent.done[|parent.done| - 1].level)
  }

  predicate Filled(f: Frame) {
    StructuredForest(f.level, f.done)
  }

  /** Levels strictly increase along the stack, and finished children fit around the open ones. */
  predicate StackShape(f: seq<Frame>) {
    && |f| > 0 && f[0].level == 0 && f[0].title == ""
    && (forall i :: 0 <= i < |f| ==> Filled(f[i]))
    && (forall i :: 0 < i < |f| ==> Fits(f[i - 1], f[i]))
  }

  /** The next heading, of the given level, may become a child of the top frame or of one below it. */
  predicate Awaits(f: Frame, level: nat) {
    f.done != [] ==> f.done[|f.done| - 1].level >= level
  }

  lemma {:induction false} FilledWithChild(parent: Frame, child: Frame)
    requires Filled(parent) && Filled(child) && Fits(parent, child)
    ensures Filled(parent.(done := parent.done + [child.Finish()]))
  {
    assert Structured(child.Finish());
  }

  lemma {:induction false} ShutKeepsShape(f: seq<Frame>, level: nat)
    requires |f| > 1 && StackShape(f) && level <= f[|f| - 1].level
    ensures StackShape(Shut(f)) && Awaits(Shut(f)[|f| - 2], level)
  {
    hide Filled, Fits;
    var n, g := |f|, Shut(f);
    FilledWithChild(f[n - 2], f[n - 1]);
    assert forall i :: 0 <= i < n - 2 ==> g[i] == f[i];
    if n > 2 {
      assert Fits(f[n - 3], f[n - 2]);
      FitsSameLevel(f[n - 3], f[n - 2], g[n - 2]);
    }
  }

  lemma {:induction false} FitsSameLevel(parent: Frame, child: Frame, other: Frame)
    requires Fits(parent, child) && child.level == other.level
    ensures Fits(parent, other)
  {
  }

  lemma {:induction false} PopKeepsShape(f: seq<Frame>, level: nat)
    requires StackShape(f) && level > 0 && Awaits(f[|f| - 1], level)
    ensures var g := Pop(f, level);
            StackShape(g) && g[|g| - 1].level < level && Awaits(g[|g| - 1], level)
    decreases |f|
  {
    if |f| > 1 && f[|f| - 1].level >= level {
      ShutKeepsShape(f, level);
      PopKeepsShape(Shut(f), level);
    }
  }

  lemma {:induction false} StepKeepsShape(f: seq<Frame>, item: Item)
    requires StackShape(f) && TopIsChildless(f) && (item.Heading? ==> item.level > 0)
    ensures StackShape(Step(f, item))
  {
    hide Filled, Fits;
    var n, g := |f|, Step(f, item);
    match item {
      case Heading(level, title) =>
        assert Awaits(f[n - 1], level);
        PopKeepsShape(f, level);
        var p := Pop(f, level);
        assert forall i :: 0 <= i < |p| ==> g[i] == p[i];
        NewFrameFits(p[|p| - 1], level, title);
      case Body(line) =>
        assert forall i :: 0 <= i < n - 1 ==> g[i] == f[i];
        assert Filled(f[n - 1]) && g[n - 1] == f[n - 1].(body := f[n - 1].body + [line]);
        BodyIrrelevant(f[n - 1], g[n - 1]);
        if n > 1 {
          FitsSameLevel(f[n - 2], f[n - 1], g[n - 1]);
        }
    }
  }

  lemma {:induction false} NewFrameFits(parent: Frame, level: nat, title: string)
    requires parent.level < level && Awaits(parent, level)
    ensures Filled(Frame(level, title, [], [])) && Fits(parent, Frame(level, title, [], []))
  {
  }

  lemma {:induction false} BodyIrrelevant(f: Frame, g: Frame)
    requires Filled(f) && f.level == g.level && f.done == g.done
    ensures Filled(g)
  {
  }

  lemma {:induction false} StepsKeepShape(f: seq<Frame>, items: seq<Item>)
    requires StackShape(f) && TopIsChildless(f)
    requires forall i :: 0 <= i < |items| && items[i].Heading? ==> items[i].level > 0
    ensures StackShape(Steps(f, items))
    decreases |items|
  {
    if items != [] {
      StepKeepsShape(f, items[0]);
      StepAppends(f, items[0]);
      StepsKeepShape(Step(f, items[0]), items[1..]);
    }
  }

  lemma {:induction false} CloseIsStructured(f: seq<Frame>)
    requires StackShape(f)
    ensures Structured(Close(f)) && Close(f).level == 0 && Close(f).title == ""
    decreases |f|
  {
    if |f| > 1 {
      ShutKeepsShape(f, 0);
      CloseIsStructured(Shut(f));
    }
  }

  lemma {:induction false} ParseIsWellFormed(markdown: string)
    ensures var t := Parse(markdown);
            && t.level == 0 && t.title == "" && Structured(t)
            && TreeItems(t) != [] && WellRead(Prose, TreeItems(t))
  {
    var lines := Lines(markdown);
    LinesFacts(markdown);
    ReadLevels(Prose, lines);
    StepsKeepShape(ROOT, Items(Prose, lines));
    CloseIsStructured(Steps(ROOT, Items(Prose, lines)));
    ParsedItems(markdown);
    ReadIsWellRead(Prose, lines);
  }

  /** Reparsing the print of a parsed document gives the same tree. */
  lemma {:induction false} ReparseIsStable(markdown: string)
    ensures Parse(Print(Parse(markdown))) == Parse(markdown)
  {
    ParseIsWellFormed(markdown);
    ParseOfPrint(Parse(markdown));
  }

  // The code as written: nodes updated in place through a stack of references --------

  class HeadingNode {
    var level: nat
    var title: string
    var body: seq<string>
    var children: seq<HeadingNode>

    constructor (level: nat, title: string)
      ensures this.level == level && this.title == title && body == [] && children == []
    {
      this.level, this.title, body, children := level, title, [], [];
    }
  }

  /** The nodes reachable from n, all in s, form the tree t. */
  ghost predicate Represents(n: HeadingNode, t: Tree, s: set<HeadingNode>)
    reads s
    decreases t
  {
    && n in s && n.level == t.level && n.title == t.title && n.body == t.body
    && |n.children| == |t.children|
    && forall i :: 0 <= i < |t.children| ==> Represents(n.children[i], t.children[i], s)
  }

  lemma {:induction false} RepresentsWider(n: HeadingNode, t: Tree, s: set<HeadingNode>, wider: set<HeadingNode>)
    requires Represents(n, t, s) && s <= wider
    ensures Represents(n, t, wider)
    decreases t
  {
    forall i | 0 <= i < |t.children|
      ensures Represents(n.children[i], t.children[i], wider)
    {
      RepresentsWider(n.children[i], t.children[i], s, wider);
    }
  }

  /** n is the open node f; its finished children lie in s, and next is its open child, if any. */
  ghost predicate OpenNode(n: HeadingNode, f: Frame, s: set<HeadingNode>, next: seq<HeadingNode>)
    reads n, s
  {
    && n.level == f.level && n.title == f.title && n.body == f.body
    && |n.children| == |f.done| + |next| && n.children[|f.done|..] == next
    && forall i :: 0 <= i < |f.done| ==> Represents(n.children[i], f.done[i], s)
  }

  /** The node above stack[i], if any. */
  function OpenChild(stack: seq<HeadingNode>, i: nat): seq<HeadingNode>
    requires i < |stack|
  {
    stack[i + 1..if i + 2 < |stack| then i + 2 else |stack|]
  }

  /** The stack of references holds the open nodes f, the finished nodes lie in s. */
  ghost predicate Holds(stack: seq<HeadingNode>, f: seq<Frame>, s: set<HeadingNode>)
    reads stack, s
  {
    && |stack| == |f| > 0
    && (forall i, k :: 0 <= i < k < |stack| ==> stack[i] != stack[k])
    && (forall i :: 0 <= i < |stack| ==> stack[i] !in s)
    && (forall i :: 0 <= i < |stack| ==> OpenNode(stack[i], f[i], s, OpenChild(stack, i)))
  }

  lemma {:induction false} OpenNodeWider(n: HeadingNode, f: Frame, s: set<HeadingNode>, wider: set<HeadingNode>,
      next: seq<HeadingNode>)
    requires OpenNode(n, f, s, next) && s <= wider
    ensures OpenNode(n, f, wider, next)
  {
    forall i | 0 <= i < |f.done|
      ensures Represents(n.children[i], f.done[i], wider)
    {
      RepresentsWider(n.children[i], f.done[i], s, wider);
    }
  }

  /** An open node without an open child is a finished tree. */
  lemma {:induction false} OpenNodeFinishes(n: HeadingNode, f: Frame, s: set<HeadingNode>)
    requires OpenNode(n, f, s, [])
    ensures Represents(n, f.Finish(), s + {n})
  {
    OpenNodeWider(n, f, s, s + {n}, []);
  }

  lemma {:induction false} PopHolds(stack: seq<HeadingNode>, f: seq<Frame>, s: set<HeadingNode>)
    requires |f| > 1 && Holds(stack, f, s)
    ensures Holds(stack[..|f| - 1], Shut(f), s + {stack[|f| - 1]})
  {
    hide Represents, OpenNode;
    var n := |f|;
    var top, parent, wider, g := stack[n - 1], stack[n - 2], s + {stack[n - 1]}, Shut(f);
    assert stack[n..n] == [] && stack[n - 1..n] == [top];
    OpenNodeFinishes(top, f[n - 1], s);
    OpenNodeWider(parent, f[n - 2], s, wider, [top]);
    ChildFinished(parent, f[n - 2], wider, top, f[n - 1].Finish());
    var rest := stack[..n - 1];
    forall i | 0 <= i < n - 2
      ensures OpenNode(rest[i], g[i], wider, OpenChild(rest, i))
    {
      OpenNodeWider(stack[i], f[i], s, wider, OpenChild(stack, i));
      assert OpenChild(rest, i) == OpenChild(stack, i) && g[i] == f[i];
    }
    assert rest[n - 1..n - 1] == [];
  }

  lemma {:induction false} ChildFinished(n: HeadingNode, f: Frame, s: set<HeadingNode>, child: HeadingNode, t: Tree)
    requires OpenNode(n, f, s, [child]) && Represents(child, t, s)
    ensures OpenNode(n, f.(done := f.done + [t]), s, [])
  {
    assert n.children[|f.done|] == n.children[|f.done|..][0] == child;
    assert n.children[|f.done| + 1..] == [];
  }

  lemma {:induction false} CloseHolds(stack: seq<HeadingNode>, f: seq<Frame>, s: set<HeadingNode>)
      returns (all: set<HeadingNode>)
    requires Holds(stack, f, s)
    ensures Represents(stack[0], Close(f), all)
    decreases |f|
  {
    hide Represents, OpenNode;
    if |f| == 1 {
      assert stack[1..1] == [];
      OpenNodeFinishes(stack[0], f[0], s);
      all := s + {stack[0]};
    } else {
      PopHolds(stack, f, s);
      all := CloseHolds(stack[..|f| - 1], Shut(f), s + {stack[|f| - 1]});
    }
  }

  method HeadingInfo(trimmed: string) returns (level: nat, title: string)
    ensures level == HeadingLevel(trimmed)
    ensures title == if level > 0 then HeadingTitle(trimmed) else ""
  {
    if !("#" <= trimmed) {
      return 0, "";
    }
    var i := 0;
    while i < |trimmed| && trimmed[i] == '#' && i < 6
      invariant i <= |trimmed| && i <= 6 && forall k :: 0 <= k < i ==> trimmed[k] == '#'
    {
      i := i + 1;
    }
    assert i == if RunLength(trimmed, '#') < 6 then RunLength(trimmed, '#') else 6 by {
      if i < 6 {
        RunLengthUnique(trimmed, '#', i);
      }
    }
    if i >= |trimmed| || trimmed[i] != ' ' {
      return 0, "";
    }
    return i, TrimSpace(trimmed[i + 1..]);
  }

  method AppendBody(stack: seq<HeadingNode>, line: string, ghost f: seq<Frame>, ghost s: set<HeadingNode>)
    requires Holds(stack, f, s)
    modifies stack[|stack| - 1]
    ensures Holds(stack, Step(f, Body(line)), s)
  {
    hide Represents;
    var top := stack[|stack| - 1];
    assert forall i :: 0 <= i < |stack| - 1 ==> stack[i] != top;
    top.body := top.body + [line];
  }

  method PopStack(stack: seq<HeadingNode>, level: nat, ghost f: seq<Frame>, ghost s: set<HeadingNode>)
    returns (rest: seq<HeadingNode>, ghost finished: set<HeadingNode>)
    requires Holds(stack, f, s)
    ensures Holds(rest, Pop(f, level), finished) && rest[0] == stack[0]
    ensures rest <= stack && finished <= s + set n | n in stack
  {
    hide Represents, OpenNode;
    rest, finished := stack, s;
    ghost var g := f;
    while |rest| > 1 && rest[|rest| - 1].level >= level
      invariant Holds(rest, g, finished) && Pop(g, level) == Pop(f, level)
      invariant rest <= stack && finished <= s + set n | n in stack
    {
      TopLevel(rest, g, finished);
      PopHolds(rest, g, finished);
      finished := finished + {rest[|rest| - 1]};
      g := Shut(g);
      rest := rest[..|rest| - 1];
    }
    TopLevel(rest, g, finished);
  }

  lemma {:induction false} TopLevel(stack: seq<HeadingNode>, f: seq<Frame>, s: set<HeadingNode>)
    requires Holds(stack, f, s)
    ensures stack[|stack| - 1].level == f[|f| - 1].level
  {
  }

  /** A new node below an open one that has no open child. */
  method AddChild(top: HeadingNode, level: nat, title: string, ghost frame: Frame, ghost s: set<HeadingNode>)
      returns (node: HeadingNode)
    requires OpenNode(top, frame, s, []) && top !in s
    modifies top
    ensures fresh(node) && OpenNode(top, frame, s, [node]) && OpenNode(node, Frame(level, title, [], []), s, [])
  {
    hide Represents;
    node := new HeadingNode(level, title);
    top.children := top.children + [node];
    assert top.children[|frame.done|..] == [node];
  }

  method PushHeading(stack: seq<HeadingNode>, level: nat, title: string, ghost f: seq<Frame>, ghost s: set<HeadingNode>)
    returns (pushed: seq<HeadingNode>)
    requires Holds(stack, f, s)
    modifies stack[|stack| - 1]
    ensures Holds(pushed, f + [Frame(level, title, [], [])], s)
    ensures |pushed| == |stack| + 1 && pushed[..|stack|] == stack && fresh(pushed[|stack|])
  {
    hide Represents, OpenNode;
    var n := |stack|;
    var top := stack[n - 1];
    assert OpenChild(stack, n - 1) == [];
    assert forall i :: 0 <= i < n - 1 ==> stack[i] != top && OpenNode(stack[i], f[i], s, OpenChild(stack, i));
    var node := AddChild(top, level, title, f[n - 1], s);
    pushed := stack + [node];
    assert OpenChild(pushed, n - 1) == [node] && OpenChild(pushed, n) == [];
    assert forall i :: 0 <= i < n - 1 ==> OpenChild(pushed, i) == OpenChild(stack, i);
  }

  /** The nodes built in place form exactly the parsed tree. */
  method BuildHeadingTree(markdown: string) returns (root: HeadingNode, ghost nodes: set<HeadingNode>)
    ensures Represents(root, Parse(markdown), nodes)
  {
    hide *;
    root := new HeadingNode(0, "");
    var stack := [root];
    ghost var f, s: set<HeadingNode> := ROOT, {};
    StartHolds(root);
    var inCode, fence := false, "";
    var lines := Lines(markdown);
    assert lines[0..] == lines;
    ParseIs(markdown);
    for i := 0 to |lines|
      invariant |stack| > 0 && |f| > 0 && stack[0] == root && Holds(stack, f, s)
      invariant (forall k :: 0 <= k < |stack| ==> fresh(stack[k])) && fresh(s)
      invariant inCode ==> fence != ""
      invariant Steps(f, Items(if inCode then Fence(fence) else Prose, lines[i..])) == Steps(ROOT, Items(Prose, lines))
    {
      var raw := lines[i];
      ghost var m := if inCode then Fence(fence) else Prose;
      StepLine(f, m, lines, i);
      ReadCases(m, raw);
      var trimmed := TrimSpace(raw);
      HoldsTop(stack, f, s);
      if inCode {
        if IsCodeFence(trimmed, fence) {
          inCode := false;
        }
        AppendBody(stack, raw, f, s);
        f := Step(f, Body(raw));
        continue;
      }
      if IsCodeFence(trimmed, "") {
        inCode, fence := true, FenceMarker(trimmed);
        AppendBody(stack, raw, f, s);
        f := Step(f, Body(raw));
        continue;
      }
      var level, title := HeadingInfo(trimmed);
      if level > 0 {
        stack, s := PopStack(stack, level, f, s);
        HoldsTop(stack, Pop(f, level), s);
        stack := PushHeading(stack, level, title, Pop(f, level), s);
        StepHeading(f, level, title);
        f := Step(f, Heading(level, title));
        continue;
      }
      AppendBody(stack, raw, f, s);
      f := Step(f, Body(raw));
    }
    assert lines[|lines|..] == [];
    NothingRead(f, if inCode then Fence(fence) else Prose);
    ParseIs(markdown);
    nodes := CloseHolds(stack, f, s);
  }

  lemma {:induction false} HoldsTop(stack: seq<HeadingNode>, f: seq<Frame>, s: set<HeadingNode>)
    requires Holds(stack, f, s)
    ensures |stack| == |f| > 0
  {
  }

  lemma {:induction false} StepHeading(f: seq<Frame>, level: nat, title: string)
    requires |f| > 0
    ensures Step(f, Heading(level, title)) == Pop(f, level) + [Frame(level, title, [], [])]
  {
  }

  lemma {:induction false} NothingRead(f: seq<Frame>, m: Mode)
    requires |f| > 0
    ensures Steps(f, Items(m, [])) == f
  {
  }

  lemma {:induction false} ParseIs(markdown: string)
    ensures Parse(markdown) == Close(Steps(ROOT, Items(Prose, Lines(markdown)))) && |ROOT| > 0
  {
  }

  lemma {:induction false} ReadCases(m: Mode, line: string)
    ensures var t := TrimSpace(line);
            match m
            case Fence(marker) => Read(m, line) == Body(line) && NextMode(m, line) == if IsCodeFence(t, marker)
                then Prose else m
            case Prose =>
              if IsCodeFence(t, "") then Read(m, line) == Body(line) && NextMode(m, line) == Fence(FenceMarker(t))
                  && FenceMarker(t) != ""
              else NextMode(m, line) == Prose
                   && Read(m, line) == if HeadingLevel(t) > 0 then Heading(HeadingLevel(t), HeadingTitle(t))
                       else Body(line)
  {
  }

  lemma {:induction false} StartHolds(root: HeadingNode)
    requires root.level == 0 && root.title == "" && root.body == [] && root.children == []
    ensures Holds([root], ROOT, {})
  {
    assert [root][1..1] == [];
  }

  lemma {:induction false} StepLine(f: seq<Frame>, m: Mode, lines: seq<string>, i: nat)
    requires |f| > 0 && i < |lines|
    ensures Steps(f, Items(m, lines[i..])) == Steps(Step(f, Read(m, lines[i])),
                                                    Items(NextMode(m, lines[i]), lines[i + 1..]))
  {
    assert lines[i..][1..] == lines[i + 1..];
    var items := Items(m, lines[i..]);
    assert items[1..] == Items(NextMode(m, lines[i]), lines[i + 1..]);
  }
}
