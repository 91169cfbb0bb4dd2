/** The string operations of Go's strings and unicode packages that the document
    pipeline relies on. A string is a sequence of Unicode scalar values. */
module Text {

  /** unicode.IsSpace */
  predicate IsSpace(c: char) {
    var n := c as int;
    9 <= n <= 13 || n == 0x20 || n == 0x85 || n == 0xA0 || n == 0x1680 || 0x2000 <= n <= 0x200A
    || n == 0x2028 || n == 0x2029 || n == 0x202F || n == 0x205F || n == 0x3000
  }

  /** The white space of Unicode, character by character. */
  lemma {:induction false} SpaceExactly(c: char)
    ensures IsSpace(c) <==>
            c in {'\t', '\n', '\U{B}', '\U{C}', '\r', ' ', '\U{85}', '\U{A0}', '\U{1680}', '\U{2000}', '\U{2001}',
                  '\U{2002}', '\U{2003}', '\U{2004}', '\U{2005}', '\U{2006}', '\U{2007}', '\U{2008}', '\U{2009}',
                  '\U{200A}', '\U{2028}', '\U{2029}', '\U{202F}', '\U{205F}', '\U{3000}'}
  {
    var n := c as int;
    assert 9 <= n <= 13 ==> n == 9 || n == 10 || n == 11 || n == 12 || n == 13;
    assert 0x2000 <= n <= 0x200A ==>
        n == 0x2000 || n == 0x2001 || n == 0x2002 || n == 0x2003 || n == 0x2004 || n == 0x2005
        || n == 0x2006 || n == 0x2007 || n == 0x2008 || n == 0x2009 || n == 0x200A;
  }

  /** unicode.IsControl */
  predicate IsControl(c: char) {
    var n := c as int;
    n < 0x20 || 0x7F <= n < 0xA0
  }

  function TrimLeftSpace(s: string): string {
    if s != "" && IsSpace(s[0]) then TrimLeftSpace(s[1..]) else s
  }

  function TrimRightSpace(s: string): string {
    if s != "" && IsSpace(s[|s| - 1]) then TrimRightSpace(s[..|s| - 1]) else s
  }

  /** strings.TrimSpace */
  function TrimSpace(s: string): string {
    TrimRightSpace(TrimLeftSpace(s))
  }

  /** strings.TrimRight(s, " \t") */
  function TrimBlanksRight(s: string): string {
    if s != "" && (s[|s| - 1] == ' ' || s[|s| - 1] == '\t') then TrimBlanksRight(s[..|s| - 1]) else s
  }

  predicate Blank(s: string) {
    TrimSpace(s) == ""
  }

  /** Length of the longest prefix of s made of c only. */
  function RunLength(s: string, c: char): (n: nat)
    ensures n <= |s|
    ensures forall i :: 0 <= i < n ==> s[i] == c
    ensures n < |s| ==> s[n] != c
  {
    if s == "" || s[0] != c then 0 else 1 + RunLength(s[1..], c)
  }

  lemma {:induction false} RunLengthUnique(s: string, c: char, n: nat)
    requires n <= |s| && (forall i :: 0 <= i < n ==> s[i] == c) && (n < |s| ==> s[n] != c)
    ensures RunLength(s, c) == n
  {
    if n > 0 {
      RunLengthUnique(s[1..], c, n - 1);
    }
  }

  lemma {:induction false} TrimLeftSnoc(t: string, c: char)
    requires IsSpace(c)
    ensures TrimLeftSpace(t + [c]) == if TrimLeftSpace(t) == "" then "" else TrimLeftSpace(t) + [c]
  {
    var s := t + [c];
    if t == "" {
      assert s[1..] == "";
    } else if IsSpace(t[0]) {
      assert s[1..] == t[1..] + [c];
      TrimLeftSnoc(t[1..], c);
    }
  }

  lemma {:induction false} TrimSpaceSnoc(t: string, c: char)
    requires IsSpace(c)
    ensures TrimSpace(t + [c]) == TrimSpace(t)
  {
    TrimLeftSnoc(t, c);
    var l := TrimLeftSpace(t);
    assert (l + [c])[..|l|] == l;
  }

  lemma {:induction false} TrimBlanksRightFacts(s: string)
    ensures TrimSpace(TrimBlanksRight(s)) == TrimSpace(s)
    ensures TrimBlanksRight(s) <= s
    ensures TrimBlanksRight(TrimBlanksRight(s)) == TrimBlanksRight(s)
  {
    if s != "" && (s[|s| - 1] == ' ' || s[|s| - 1] == '\t') {
      var t := s[..|s| - 1];
      assert s == t + [s[|s| - 1]];
      TrimSpaceSnoc(t, s[|s| - 1]);
      TrimBlanksRightFacts(t);
    }
  }

  lemma {:induction false} TrimLeftFacts(s: string)
    ensures TrimLeftSpace(s) != "" ==> !IsSpace(TrimLeftSpace(s)[0])
    ensures s != "" && !IsSpace(s[|s| - 1]) ==>
        TrimLeftSpace(s) != "" && TrimLeftSpace(s)[|TrimLeftSpace(s)| - 1] == s[|s| - 1]
    ensures |TrimLeftSpace(s)| <= |s| && TrimLeftSpace(s) == s[|s| - |TrimLeftSpace(s)|..]
  {
    if s != "" && IsSpace(s[0]) {
      TrimLeftFacts(s[1..]);
    }
  }

  lemma {:induction false} TrimRightFacts(s: string)
    ensures TrimRightSpace(s) != "" ==> !IsSpace(TrimRightSpace(s)[|TrimRightSpace(s)| - 1])
    ensures TrimRightSpace(s) <= s
    ensures s != "" && !IsSpace(s[0]) ==> TrimRightSpace(s) != ""
  {
    if s != "" && IsSpace(s[|s| - 1]) {
      TrimRightFacts(s[..|s| - 1]);
    }
  }

  /** A trimmed string starts and ends with a character that is not white space. */
  lemma {:induction false} TrimSpaceEnds(s: string)
    ensures var t := TrimSpace(s); t != "" ==> !IsSpace(t[0]) && !IsSpace(t[|t| - 1])
    ensures s != "" && !IsSpace(s[0]) && !IsSpace(s[|s| - 1]) ==> TrimSpace(s) == s
    ensures forall c :: c in TrimSpace(s) ==> c in s
    ensures s != "" && !IsSpace(s[|s| - 1]) ==> TrimSpace(s) != ""
  {
    TrimLeftFacts(s);
    TrimRightFacts(TrimLeftSpace(s));
  }

  predicate AllSpace(s: string) {
    forall c :: c in s ==> IsSpace(c)
  }

  lemma {:induction false} BlankExactly(s: string)
    ensures Blank(s) <==> AllSpace(s)
  {
    var _, _ := TrimSpaceCore(s);
  }

  lemma {:induction false} TrimLeftCore(s: string) returns (a: string)
    ensures AllSpace(a) && s == a + TrimLeftSpace(s)
    ensures TrimLeftSpace(s) != "" ==> !IsSpace(TrimLeftSpace(s)[0])
  {
    a := "";
    if s != "" && IsSpace(s[0]) {
      a := TrimLeftCore(s[1..]);
      a := [s[0]] + a;
    }
  }

  lemma {:induction false} TrimRightCore(s: string) returns (b: string)
    ensures AllSpace(b) && s == TrimRightSpace(s) + b
    ensures TrimRightSpace(s) != "" ==> !IsSpace(TrimRightSpace(s)[|TrimRightSpace(s)| - 1])
  {
    b := "";
    if s != "" && IsSpace(s[|s| - 1]) {
      b := TrimRightCore(s[..|s| - 1]);
      b := b + [s[|s| - 1]];
    }
  }

  /** strings.TrimSpace takes white space off both ends and nothing else. */
  lemma {:induction false} TrimSpaceCore(s: string) returns (a: string, b: string)
    ensures AllSpace(a) && AllSpace(b) && s == a + TrimSpace(s) + b
    ensures TrimSpace(s) != "" ==> !IsSpace(TrimSpace(s)[0]) && !IsSpace(TrimSpace(s)[|TrimSpace(s)| - 1])
    ensures TrimSpace(s) == "" <==> AllSpace(s)
  {
    var l, t := TrimLeftSpace(s), TrimSpace(s);
    a := TrimLeftCore(s);
    b := TrimRightCore(l);
    assert s == a + t + b;
    if t != "" {
      assert t[0] == l[0];
      assert s[|a|] == t[0] && s[|a|] in s;
    }
  }

  // Lines -----------------------------------------------------------------

  /** strings.Split(s, "\n") */
  function Lines(s: string): (ls: seq<string>)
    ensures |ls| > 0
  {
    if s == "" then [""]
    else
      var rest := Lines(s[1..]);
      if s[0] == '\n' then [""] + rest else [[s[0]] + rest[0]] + rest[1..]
  }

  lemma {:induction false} LinesFacts(s: string)
    ensures forall i :: 0 <= i < |Lines(s)| ==> '\n' !in Lines(s)[i]
    ensures forall i, c :: 0 <= i < |Lines(s)| && c in Lines(s)[i] ==> c in s
  {
    if s != "" {
      LinesFacts(s[1..]);
      var rest := Lines(s[1..]);
      assert forall c :: c in s[1..] ==> c in s;
      assert s[0] in s;
      if s[0] == '\n' {
        assert forall i :: 0 < i < |Lines(s)| ==> Lines(s)[i] == rest[i - 1];
      } else {
        assert Lines(s)[0] == [s[0]] + rest[0];
        assert forall i :: 0 < i < |Lines(s)| ==> Lines(s)[i] == rest[i];
      }
    }
  }

  /** strings.Join(ls, "\n") */
  function JoinLines(ls: seq<string>): (s: string)
    ensures forall c :: c in s ==> c == '\n' || exists i :: 0 <= i < |ls| && c in ls[i]
  {
    if |ls| == 0 then ""
    else if |ls| == 1 then ls[0]
    else
      assert forall i :: 0 <= i < |ls[1..]| ==> ls[1..][i] == ls[i + 1];
      ls[0] + "\n" + JoinLines(ls[1..])
  }

  lemma {:induction false} JoinOfLines(s: string)
    ensures JoinLines(Lines(s)) == s
  {
    if s != "" {
      JoinOfLines(s[1..]);
      var rest := Lines(s[1..]);
      if s[0] == '\n' {
        assert Lines(s)[1..] == rest;
        assert JoinLines(Lines(s)) == "" + "\n" + JoinLines(rest);
      } else {
        var ls := [[s[0]] + rest[0]] + rest[1..];
        assert ls[1..] == rest[1..];
        if |rest| > 1 {
          assert JoinLines(ls) == [s[0]] + (rest[0] + "\n" + JoinLines(rest[1..]));
        }
      }
    }
  }

  predicate NewlineFree(ls: seq<string>) {
    forall l :: l in ls ==> '\n' !in l
  }

  lemma {:induction false} LinesOfPlain(l: string)
    requires '\n' !in l
    ensures Lines(l) == [l]
  {
    if l != "" {
      assert l[0] in l;
      LinesOfPlain(l[1..]);
      assert [l[0]] + l[1..] == l;
    }
  }

  lemma {:induction false} LinesPrefix(l: string, s: string)
    requires '\n' !in l
    ensures Lines(l + "\n" + s) == [l] + Lines(s)
  {
    var t := l + "\n" + s;
    if l == "" {
      assert t[1..] == s;
    } else {
      assert t[1..] == l[1..] + "\n" + s && l[0] in l;
      LinesPrefix(l[1..], s);
      assert [l[0]] + l[1..] == l;
    }
  }

  lemma {:induction false} LinesOfJoin(ls: seq<string>)
    requires ls != [] && NewlineFree(ls)
    ensures Lines(JoinLines(ls)) == ls
  {
    if |ls| == 1 {
      LinesOfPlain(ls[0]);
    } else {
      LinesOfJoin(ls[1..]);
      LinesPrefix(ls[0], JoinLines(ls[1..]));
    }
  }

  /** Joining distributes over concatenation of non-empty line lists. */
  lemma {:induction false} JoinConcat(a: seq<string>, b: seq<string>)
    requires a != [] && b != []
    ensures JoinLines(a + b) == JoinLines(a) + "\n" + JoinLines(b)
  {
    if |a| == 1 {
      assert (a + b)[1..] == b;
    } else {
      assert (a + b)[1..] == a[1..] + b;
      JoinConcat(a[1..], b);
    }
  }
}
