/**
 * The text normalisation `bash_task` applies to a script before running it
 * with `/bin/bash -c` (edxpipelines/patterns/tasks.py:153-166): Python 2's
 * `textwrap.dedent`, then `re.sub(r"$\s+", " ", ..., flags=re.MULTILINE)`,
 * then `str.strip()`.
 */
module Shell {
  import opened Strings
  import opened Wrappers

  /** Python 2's `\s` and the characters `str.strip()` removes. */
  predicate IsSpace(c: char)
  {
    c == ' ' || c == '\t' || c == '\n' || c == '\r' || c == '\U{000B}' || c == '\U{000C}'
  }

  /** `[ \t]`: the characters `textwrap.dedent` treats as indentation. */
  predicate IsIndent(c: char)
  {
    c == ' ' || c == '\t'
  }

  predicate AllSpace(s: string)
  {
    forall i | 0 <= i < |s| :: IsSpace(s[i])
  }

  /** `s` with its leading run of whitespace removed. */
  function DropSpace(s: string): (r: string)
    ensures |r| <= |s|
    ensures r == [] || !IsSpace(r[0])
  {
    if |s| > 0 && IsSpace(s[0]) then DropSpace(s[1..]) else s
  }

  /** What `DropSpace` removes is a whitespace prefix. */
  lemma {:induction false} DropSpaceSuffix(s: string)
    ensures DropSpace(s) == s[|s| - |DropSpace(s)|..]
    ensures AllSpace(s[..|s| - |DropSpace(s)|])
  {
    if |s| > 0 && IsSpace(s[0]) {
      DropSpaceSuffix(s[1..]);
      var r := DropSpace(s[1..]);
      assert s[1..][..|s[1..]| - |r|] == s[1..|s| - |r|];
    }
  }

  /**
   * `re.sub(r"$\s+", " ", s, flags=re.MULTILINE)`: `$` matches just before a
   * newline, so every newline together with the whole run of whitespace
   * that starts at it (later newlines included) becomes one space.
   */
  function Collapse(s: string): string
    decreases |s|
  {
    if |s| == 0 then ""
    else if s[0] == '\n' then " " + Collapse(DropSpace(s))
    else [s[0]] + Collapse(s[1..])
  }

  /** `s` with its trailing run of whitespace removed. */
  function StripRight(s: string): (r: string)
    ensures |r| <= |s|
    ensures r == [] || !IsSpace(r[|r| - 1])
  {
    if |s| > 0 && IsSpace(s[|s| - 1]) then StripRight(s[..|s| - 1]) else s
  }

  lemma {:induction false} StripRightPrefix(s: string)
    ensures StripRight(s) == s[..|StripRight(s)|]
  {
    if |s| > 0 && IsSpace(s[|s| - 1]) {
      StripRightPrefix(s[..|s| - 1]);
    }
  }

  /** `str.strip()`. */
  function Strip(s: string): string
  {
    StripRight(DropSpace(s))
  }

  /** A line `textwrap.dedent` blanks out: nothing but spaces and tabs. */
  predicate Blank(line: string)
  {
    forall i | 0 <= i < |line| :: IsIndent(line[i])
  }

  /** The leading spaces and tabs of a line. */
  function Indentation(line: string): (r: string)
    ensures r <= line && Blank(r)
    ensures |r| < |line| ==> !IsIndent(line[|r|])
  {
    if |line| > 0 && IsIndent(line[0]) then [line[0]] + Indentation(line[1..]) else ""
  }

  /**
   * The margin Python 2's `dedent` finds: the first non-blank line's
   * indentation, kept while each later indentation extends it, replaced by
   * a later indentation that is a prefix of it, and emptied as soon as the
   * two diverge. It is a prefix of the indentation of every non-blank line.
   */
  function Margin(lines: seq<string>): (r: Option<string>)
    ensures r.Some? ==> Blank(r.value)
    ensures r.Some? ==> forall i | 0 <= i < |lines| && !Blank(lines[i]) :: r.value <= Indentation(lines[i])
    ensures r.None? ==> forall i | 0 <= i < |lines| :: Blank(lines[i])
  {
    if |lines| == 0 then None
    else
      var m := Margin(lines[..|lines| - 1]);
      var last := lines[|lines| - 1];
      assert forall i | 0 <= i < |lines| - 1 :: lines[..|lines| - 1][i] == lines[i];
      if Blank(last) then m
      else
        var indent := Indentation(last);
        if m.None? then Some(indent)
        else if m.value <= indent then m
        else if indent <= m.value then Some(indent)
        else Some("")
  }

  /** One line after `dedent`: blank lines become empty, the others lose the margin. */
  function DedentLine(line: string, margin: string): (r: string)
    requires !Blank(line) ==> margin <= Indentation(line)
    ensures CutLine(line, r)
  {
    if Blank(line) then
      assert line[..|line|] == line;
      ""
    else
      assert margin == line[..|margin|] && Blank(line[..|margin|]);
      line[|margin|..]
  }

  /** Python 2's `textwrap.dedent`. */
  function Dedent(s: string): string
  {
    var lines := Split(s, '\n');
    match Margin(lines)
    case None => Join(seq(|lines|, i requires 0 <= i < |lines| => DedentLine(lines[i], "")), "\n")
    case Some(margin) => Join(seq(|lines|, i requires 0 <= i < |lines| => DedentLine(lines[i], margin)), "\n")
  }

  /** The command `bash_task` hands to `/bin/bash -c` for an already formatted script. */
  function BashScript(script: string): string
  {
    Strip(Collapse(Dedent(script)))
  }

  lemma {:induction false} CollapseNoNewline(s: string)
    ensures '\n' !in Collapse(s)
    decreases |s|
  {
    if |s| > 0 {
      if s[0] == '\n' {
        CollapseNoNewline(DropSpace(s));
      } else {
        CollapseNoNewline(s[1..]);
      }
    }
  }

  /** Stripping one line gives one line with no whitespace at either end. */
  lemma StripShape(c: string)
    requires '\n' !in c
    ensures '\n' !in Strip(c)
    ensures Strip(c) == [] || (!IsSpace(Strip(c)[0]) && !IsSpace(Strip(c)[|Strip(c)| - 1]))
  {
    var d := DropSpace(c);
    DropSpaceSuffix(c);
    var r := StripRight(d);
    StripRightPrefix(d);
    assert forall i | 0 <= i < |r| :: r[i] == c[|c| - |d| + i];
  }

  /** The command is one line with no whitespace at either end. */
  lemma BashScriptShape(script: string)
    ensures '\n' !in BashScript(script)
    ensures BashScript(script) == [] || (!IsSpace(BashScript(script)[0]) && !IsSpace(BashScript(script)[|BashScript(script)| - 1]))
  {
    var c := Collapse(Dedent(script));
    CollapseNoNewline(Dedent(script));
    StripShape(c);
  }

  lemma AllSpaceAppend(u: string, v: string)
    requires AllSpace(u) && AllSpace(v)
    ensures AllSpace(u + v)
  {
    forall i | 0 <= i < |u + v| ensures IsSpace((u + v)[i]) {
      if i < |u| {
        assert (u + v)[i] == u[i];
      } else {
        assert (u + v)[i] == v[i - |u|];
      }
    }
  }

  lemma {:induction false} DropSpaceAppendSpaces(w: string, x: string)
    requires AllSpace(w)
    ensures DropSpace(w + x) == DropSpace(x)
    decreases |w|
  {
    if |w| > 0 {
      assert (w + x)[1..] == w[1..] + x;
      DropSpaceAppendSpaces(w[1..], x);
    } else {
      assert w + x == x;
    }
  }

  lemma {:induction false} DropSpaceAppend(a: string, x: string)
    requires !AllSpace(a)
    ensures DropSpace(a + x) == DropSpace(a) + x
    decreases |a|
  {
    if IsSpace(a[0]) {
      assert (a + x)[1..] == a[1..] + x;
      DropSpaceAppend(a[1..], x);
    }
  }

  /** Two whitespace runs that start with a newline collapse alike in front of the same text. */
  lemma CollapseSpaceRuns(s1: string, s2: string, b: string)
    requires |s1| > 0 && |s2| > 0 && s1[0] == '\n' && s2[0] == '\n'
    requires AllSpace(s1) && AllSpace(s2)
    ensures Collapse(s1 + b) == Collapse(s2 + b)
  {
    DropSpaceAppendSpaces(s1, b);
    DropSpaceAppendSpaces(s2, b);
  }

  lemma CollapseCons(a: string, x: string)
    requires |a| > 0 && a[0] != '\n'
    ensures Collapse(a + x) == [a[0]] + Collapse(a[1..] + x)
  {
    assert (a + x)[1..] == a[1..] + x;
  }

  lemma CollapseNewlineStart(a: string, x: string)
    requires |a| > 0 && a[0] == '\n' && !AllSpace(a)
    ensures Collapse(a + x) == " " + Collapse(DropSpace(a) + x)
  {
    DropSpaceAppend(a, x);
  }

  lemma AfterNewlineEmpty(a: string, w: string, b: string)
    requires AllSpace(w) && |a| == 0
    ensures Collapse(a + "\n" + w + b) == Collapse(a + "\n" + b)
  {
    AllSpaceAppend("\n", w);
    assert a + "\n" + w + b == ("\n" + w) + b;
    assert a + "\n" + b == "\n" + b;
    CollapseSpaceRuns("\n" + w, "\n", b);
  }

  lemma AfterNewlineCons(a: string, w: string, b: string)
    requires AllSpace(w) && |a| > 0 && a[0] != '\n'
    requires Collapse(a[1..] + "\n" + w + b) == Collapse(a[1..] + "\n" + b)
    ensures Collapse(a + "\n" + w + b) == Collapse(a + "\n" + b)
  {
    CollapseCons(a, "\n" + w + b);
    CollapseCons(a, "\n" + b);
    assert a + "\n" + w + b == a + ("\n" + w + b);
    assert a + "\n" + b == a + ("\n" + b);
    assert a[1..] + ("\n" + w + b) == a[1..] + "\n" + w + b;
    assert a[1..] + ("\n" + b) == a[1..] + "\n" + b;
  }

  lemma AfterNewlineSpaces(a: string, w: string, b: string)
    requires AllSpace(w) && |a| > 0 && a[0] == '\n' && AllSpace(a)
    ensures Collapse(a + "\n" + w + b) == Collapse(a + "\n" + b)
  {
    AllSpaceAppend(a, "\n");
    AllSpaceAppend(a + "\n", w);
    assert a + "\n" + w + b == (a + "\n" + w) + b;
    CollapseSpaceRuns(a + "\n" + w, a + "\n", b);
  }

  /** Two texts that collapse alike behind the rest of a run still do so behind the whole run. */
  lemma CollapseNewlineStartBoth(a: string, x: string, y: string)
    requires |a| > 0 && a[0] == '\n' && !AllSpace(a)
    requires Collapse(DropSpace(a) + x) == Collapse(DropSpace(a) + y)
    ensures Collapse(a + x) == Collapse(a + y)
  {
    CollapseNewlineStart(a, x);
    CollapseNewlineStart(a, y);
  }

  lemma Regroup(a: string, w: string, b: string)
    ensures a + "\n" + w + b == a + ("\n" + w + b)
    ensures a + "\n" + b == a + ("\n" + b)
  {
  }

  lemma AfterNewlineRun(a: string, w: string, b: string)
    requires AllSpace(w) && |a| > 0 && a[0] == '\n' && !AllSpace(a)
    requires Collapse(DropSpace(a) + "\n" + w + b) == Collapse(DropSpace(a) + "\n" + b)
    ensures Collapse(a + "\n" + w + b) == Collapse(a + "\n" + b)
  {
    Regroup(DropSpace(a), w, b);
    CollapseNewlineStartBoth(a, "\n" + w + b, "\n" + b);
    Regroup(a, w, b);
  }

  /** Whitespace removed right after a newline does not change the collapsed text. */
  lemma {:induction false} CollapseAfterNewline(a: string, w: string, b: string)
    requires AllSpace(w)
    ensures Collapse(a + "\n" + w + b) == Collapse(a + "\n" + b)
    decreases |a|
  {
    if |a| == 0 {
      AfterNewlineEmpty(a, w, b);
    } else if a[0] != '\n' {
      CollapseAfterNewline(a[1..], w, b);
      AfterNewlineCons(a, w, b);
    } else if AllSpace(a) {
      AfterNewlineSpaces(a, w, b);
    } else {
      assert IsSpace(a[0]);
      CollapseAfterNewline(DropSpace(a), w, b);
      AfterNewlineRun(a, w, b);
    }
  }

  /** Text without a newline passes through `Collapse` unchanged in front of the rest. */
  lemma {:induction false} CollapseLeading(w: string, x: string)
    requires '\n' !in w
    ensures Collapse(w + x) == w + Collapse(x)
    decreases |w|
  {
    if |w| > 0 {
      assert (w + x)[1..] == w[1..] + x;
      CollapseLeading(w[1..], x);
    } else {
      assert w + x == x;
    }
  }

  /** `cut` is `line` with some of its leading spaces and tabs removed. */
  predicate CutLine(line: string, cut: string)
  {
    exists k | 0 <= k <= |line| :: Blank(line[..k]) && cut == line[k..]
  }

  /** `cut` is `lines` with some leading spaces and tabs removed from each line. */
  predicate LinesCut(lines: seq<string>, cut: seq<string>)
  {
    |cut| == |lines| && forall i | 0 <= i < |lines| :: CutLine(lines[i], cut[i])
  }

  lemma BlankIsSpace(w: string)
    requires Blank(w)
    ensures AllSpace(w) && '\n' !in w
  {
  }

  /** A cut line is the line less some leading whitespace. */
  lemma CutLineSplit(line: string, cut: string) returns (w: string)
    requires CutLine(line, cut)
    ensures AllSpace(w) && '\n' !in w && line == w + cut
  {
    var k :| 0 <= k <= |line| && Blank(line[..k]) && cut == line[k..];
    w := line[..k];
    BlankIsSpace(w);
    assert line == w + cut;
  }

  /** The first line of a cut is the first cut line behind some whitespace. */
  lemma CutHead(lines: seq<string>, cut: seq<string>) returns (w: string)
    requires |lines| >= 1 && LinesCut(lines, cut)
    ensures AllSpace(w) && '\n' !in w && lines[0] == w + cut[0]
  {
    assert CutLine(lines[0], cut[0]);
    w := CutLineSplit(lines[0], cut[0]);
  }

  /** The lines after the first stay cut. */
  lemma LinesCutTail(lines: seq<string>, cut: seq<string>)
    requires |lines| > 1 && LinesCut(lines, cut)
    ensures LinesCut(lines[1..], cut[1..])
  {
    forall i | 0 <= i < |lines| - 1
      ensures CutLine(lines[1..][i], cut[1..][i])
    {
      assert lines[1..][i] == lines[i + 1] && cut[1..][i] == cut[i + 1];
    }
  }

  lemma JoinCons(parts: seq<string>, sep: string)
    requires |parts| > 1
    ensures Join(parts, sep) == parts[0] + sep + Join(parts[1..], sep)
  {
  }

  /** After a newline, removing indentation from every following line does not change the collapsed text. */
  lemma {:induction false} CollapseCutLines(a: string, lines: seq<string>, cut: seq<string>)
    requires |lines| >= 1 && LinesCut(lines, cut)
    ensures Collapse(a + "\n" + Join(cut, "\n")) == Collapse(a + "\n" + Join(lines, "\n"))
    decreases |lines|
  {
    var w := CutHead(lines, cut);
    if |lines| == 1 {
      assert a + "\n" + Join(lines, "\n") == a + "\n" + w + cut[0];
      CollapseAfterNewline(a, w, cut[0]);
    } else {
      var tl, tc := Join(lines[1..], "\n"), Join(cut[1..], "\n");
      JoinCons(lines, "\n");
      JoinCons(cut, "\n");
      var a' := a + "\n" + cut[0];
      assert a + "\n" + Join(lines, "\n") == a + "\n" + w + (cut[0] + "\n" + tl);
      CollapseAfterNewline(a, w, cut[0] + "\n" + tl);
      assert a + "\n" + (cut[0] + "\n" + tl) == a' + "\n" + tl;
      LinesCutTail(lines, cut);
      CollapseCutLines(a', lines[1..], cut[1..]);
      assert a + "\n" + Join(cut, "\n") == a' + "\n" + tc;
    }
  }

  /** Collapsing the cut lines gives the collapse of the original lines less some leading whitespace. */
  lemma CollapseCut(lines: seq<string>, cut: seq<string>) returns (w: string)
    requires |lines| >= 1 && LinesCut(lines, cut)
    ensures AllSpace(w) && Collapse(Join(lines, "\n")) == w + Collapse(Join(cut, "\n"))
  {
    w := CutHead(lines, cut);
    if |lines| == 1 {
      CollapseLeading(w, cut[0]);
    } else {
      var tl := Join(lines[1..], "\n");
      JoinCons(lines, "\n");
      JoinCons(cut, "\n");
      assert Join(lines, "\n") == w + (cut[0] + "\n" + tl);
      CollapseLeading(w, cut[0] + "\n" + tl);
      LinesCutTail(lines, cut);
      CollapseCutLines(cut[0], lines[1..], cut[1..]);
    }
  }

  /** Removing leading spaces and tabs from any lines does not change the normalised command. */
  lemma StripCollapseCutLines(lines: seq<string>, cut: seq<string>)
    requires |lines| >= 1 && LinesCut(lines, cut)
    ensures Strip(Collapse(Join(cut, "\n"))) == Strip(Collapse(Join(lines, "\n")))
  {
    var w := CollapseCut(lines, cut);
    DropSpaceAppendSpaces(w, Collapse(Join(cut, "\n")));
  }

  /**
   * Dedenting never changes the command: every character `dedent` removes
   * is whitespace at the start of a line, which the collapse or the strip
   * removes anyway. So the command does not depend on how the script's
   * source text is indented.
   */
  lemma DedentIrrelevant(script: string)
    ensures BashScript(script) == Strip(Collapse(script))
  {
    var lines := Split(script, '\n');
    JoinSplit(script, '\n');
    var margin := match Margin(lines) case None => "" case Some(m) => m;
    var cut := seq(|lines|, i requires 0 <= i < |lines| => DedentLine(lines[i], margin));
    assert Dedent(script) == Join(cut, "\n");
    assert LinesCut(lines, cut);
    StripCollapseCutLines(lines, cut);
  }

  /** Text without a newline is its own collapse. */
  lemma CollapsePlain(script: string)
    requires '\n' !in script
    ensures Collapse(script) == script
  {
    CollapseLeading(script, "");
    assert script + "" == script;
  }

  /** Text with no whitespace at either end is its own strip. */
  lemma StripPlain(script: string)
    requires script == [] || (!IsSpace(script[0]) && !IsSpace(script[|script| - 1]))
    ensures Strip(script) == script
  {
    assert DropSpace(script) == script;
  }

  /** A one-line script without surrounding whitespace is run exactly as written. */
  lemma PlainScript(script: string)
    requires '\n' !in script
    requires script == [] || (!IsSpace(script[0]) && !IsSpace(script[|script| - 1]))
    ensures BashScript(script) == script
  {
    DedentIrrelevant(script);
    CollapsePlain(script);
    StripPlain(script);
  }
}
