/** Text as Python sees it: white space, line breaks, splitlines and joining lines again. */
module TextLines {

  // ---- White space ---------------------------------------------------------------------------------------

  predicate IsSpace(c: char) {
    '\t' <= c <= '\r' || '\U{1c}' <= c <= ' ' || c == '\U{85}' || c == '\U{a0}' || c == '\U{1680}'
    || '\U{2000}' <= c <= '\U{200a}' || c == '\U{2028}' || c == '\U{2029}' || c == '\U{202f}' || c == '\U{205f}'
    || c == '\U{3000}'
  }

  function TrimLeft(s: string): string {
    if s != "" && IsSpace(s[0]) then TrimLeft(s[1..]) else s
  }

  function TrimRight(s: string): string {
    if s != "" && IsSpace(s[|s| - 1]) then TrimRight(s[..|s| - 1]) else s
  }

  function Strip(s: string): string {
    TrimRight(TrimLeft(s))
  }

  lemma StripKeeps(s: string)
    requires s != "" ==> !IsSpace(s[0]) && !IsSpace(s[|s| - 1])
    ensures Strip(s) == s
  {
  }

  lemma {:induction false} TrimRightKeepsHead(s: string)
    requires s != "" && !IsSpace(s[0])
    ensures TrimRight(s) != "" && TrimRight(s)[0] == s[0]
    decreases |s|
  {
    if IsSpace(s[|s| - 1]) {
      TrimRightKeepsHead(s[..|s| - 1]);
    }
  }

  // ---- Lines of a text -----------------------------------------------------------------------------------

  predicate IsBreak(c: char) {
    c == '\n' || c == '\r' || c == '\U{0b}' || c == '\U{0c}' || ('\U{1c}' <= c <= '\U{1e}') || c == '\U{85}'
    || c == '\U{2028}' || c == '\U{2029}'
  }

  predicate BreakFree(line: string) {
    forall i :: 0 <= i < |line| ==> !IsBreak(line[i])
  }

  function FirstBreak(s: string): (n: nat)
    ensures n <= |s| && BreakFree(s[..n]) && (n < |s| ==> IsBreak(s[n]))
  {
    if s == "" || IsBreak(s[0]) then 0
    else
      var n := FirstBreak(s[1..]);
      assert s[..n + 1] == [s[0]] + s[1..][..n];
      n + 1
  }

  /** A carriage return followed by a newline is one break of two characters. */
  function BreakWidth(s: string, n: nat): (width: nat)
    requires n < |s|
    ensures 1 <= width && n + width <= |s|
  {
    if s[n] == '\r' && n + 1 < |s| && s[n + 1] == '\n' then 2 else 1
  }

  /** str.splitlines: a final break ends the last line and starts no other. */
  function Lines(s: string): (lines: seq<string>)
    ensures forall i :: 0 <= i < |lines| ==> BreakFree(lines[i])
    decreases |s|
  {
    if s == "" then []
    else
      var n := FirstBreak(s);
      if n == |s| then [s[..n]] else [s[..n]] + Lines(s[n + BreakWidth(s, n)..])
  }

  function Join(lines: seq<string>): string {
    if lines == [] then "" else if |lines| == 1 then lines[0] else lines[0] + "\n" + Join(lines[1..])
  }

  predicate EndsWithNewline(s: string) {
    s != "" && s[|s| - 1] == '\n'
  }

  function Unlines(lines: seq<string>, newline: bool): string {
    Join(lines) + if newline then "\n" else ""
  }

  lemma LinesOfFirst(line: string, rest: string)
    requires BreakFree(line)
    ensures Lines(line + "\n" + rest) == [line] + Lines(rest)
  {
    var s := line + "\n" + rest;
    BreakAfter(line, rest);
    assert s[|line|] == '\n' && s[..|line|] == line && s[|line| + 1..] == rest;
  }

  lemma {:induction false} BreakAfter(line: string, rest: string)
    requires BreakFree(line)
    ensures FirstBreak(line + "\n" + rest) == |line|
  {
    var s := line + "\n" + rest;
    if line == "" {
      assert s[0] == '\n';
    } else {
      assert s[0] == line[0] && s[1..] == line[1..] + "\n" + rest;
      BreakAfter(line[1..], rest);
    }
  }

  lemma LinesOfLast(line: string)
    requires BreakFree(line) && line != ""
    ensures Lines(line) == [line]
  {
    assert FirstBreak(line) == |line| && line[..|line|] == line;
  }

  /** What reading a joined text shows of its lines. */
  function Visible(lines: seq<string>, newline: bool): seq<string> {
    if lines == [] then []
    else if |lines| == 1 then (if newline || lines[0] != "" then lines else [])
    else [lines[0]] + Visible(lines[1..], newline)
  }

  lemma {:induction false} ReadsVisible(lines: seq<string>, newline: bool)
    requires lines != [] && forall i :: 0 <= i < |lines| ==> BreakFree(lines[i])
    ensures Lines(Unlines(lines, newline)) == Visible(lines, newline)
  {
    if |lines| == 1 {
      LinesOfOne(lines[0], newline);
      assert lines == [lines[0]];
    } else {
      ReadsVisible(lines[1..], newline);
      UnlinesFirst(lines, newline);
      LinesOfFirst(lines[0], Unlines(lines[1..], newline));
    }
  }

  lemma {:induction false} VisibleLines(lines: seq<string>, newline: bool)
    requires lines != []
    ensures newline || lines[|lines| - 1] != "" ==> Visible(lines, newline) == lines
    ensures !newline && lines[|lines| - 1] == "" ==> lines == Visible(lines, newline) + [""]
  {
    assert lines == [lines[0]] + lines[1..];
    if |lines| > 1 {
      VisibleLines(lines[1..], newline);
    }
  }

  /** Reading a joined text gives its lines back, except for a blank last line with no newline after it. */
  lemma LinesOfUnlines(lines: seq<string>, newline: bool)
    requires lines != [] && forall i :: 0 <= i < |lines| ==> BreakFree(lines[i])
    ensures newline || lines[|lines| - 1] != "" ==> Lines(Unlines(lines, newline)) == lines
    ensures !newline && lines[|lines| - 1] == "" ==> lines == Lines(Unlines(lines, newline)) + [""]
  {
    ReadsVisible(lines, newline);
    VisibleLines(lines, newline);
  }

  lemma LinesOfOne(line: string, newline: bool)
    requires BreakFree(line)
    ensures Lines(Unlines([line], newline)) == if newline || line != "" then [line] else []
  {
    if newline {
      assert Unlines([line], newline) == line + "\n" + "";
      LinesOfFirst(line, "");
    } else {
      assert Unlines([line], newline) == line;
      if line != "" {
        LinesOfLast(line);
      }
    }
  }

  lemma UnlinesFirst(lines: seq<string>, newline: bool)
    requires |lines| > 1
    ensures Unlines(lines, newline) == lines[0] + "\n" + Unlines(lines[1..], newline)
  {
  }

  lemma {:induction false} EndOfUnlines(lines: seq<string>, newline: bool)
    requires lines != [] && forall i :: 0 <= i < |lines| ==> BreakFree(lines[i])
    ensures EndsWithNewline(Unlines(lines, newline)) <==> newline || (|lines| > 1 && lines[|lines| - 1] == "")
  {
    if |lines| > 1 {
      EndOfUnlines(lines[1..], newline);
      assert Unlines(lines, newline) == lines[0] + "\n" + Unlines(lines[1..], newline);
      assert |lines| == 2 && lines[1] == "" && !newline ==> Unlines(lines[1..], newline) == "";
      JoinEmpty(lines[1..], newline);
    } else {
      assert Unlines(lines, newline) == lines[0] + if newline then "\n" else "";
    }
  }

  lemma JoinEmpty(lines: seq<string>, newline: bool)
    requires lines != []
    ensures Unlines(lines, newline) == "" <==> lines == [""] && !newline
  {
  }

  lemma {:induction false} UnlinesBlankEnd(lines: seq<string>)
    requires lines != []
    ensures Unlines(lines + [""], false) == Unlines(lines, true)
  {
    if |lines| > 1 {
      UnlinesBlankEnd(lines[1..]);
      assert (lines + [""])[1..] == lines[1..] + [""];
      assert Unlines(lines, true) == lines[0] + "\n" + Unlines(lines[1..], true);
    } else {
      assert (lines + [""])[1..] == [""];
      assert Join(lines + [""]) == lines[0] + "\n" + "";
    }
  }
}
