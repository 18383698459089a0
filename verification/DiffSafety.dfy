/** What holds of every diff the parser accepts, whatever the text, and of every one it refuses. */
module DiffSafety {
  import opened Wrappers
  import opened StateMachine
  import opened TextLines
  import opened SafePath
  import opened DiffParse
  import DiffRoundTrip

  /** A path that names something below the root: components without "", "." or "..", joined by slashes. */
  ghost predicate Inside(path: string) {
    exists components: seq<string> :: Below(components) && path == JoinSlash(components)
  }

  predicate Below(components: seq<string>) {
    components != [] && forall i :: 0 <= i < |components| ==> Plain(components[i]) && components[i] != ".."
  }

  lemma AcceptedPath(raw: string)
    requires NormalizePath(raw).Ok?
    ensures Inside(NormalizePath(raw).value)
  {
    var components := NormalizedStaysInside(raw);
    assert Below(components);
  }

  /** One header path for each file so far, none twice and not too many of them, and every file inside. */
  ghost predicate StateSafe(s: State, maxFiles: nat) {
    && |s.files| == |s.seen| <= maxFiles
    && forall i :: 0 <= i < |s.files| ==> Inside(s.files[i].path)
  }

  lemma SetLastSafe(s: State, f: FileDiff, maxFiles: nat)
    requires StateSafe(s, maxFiles) && s.files != [] && Inside(f.path)
    ensures StateSafe(s.(files := SetLast(s.files, f)), maxFiles)
  {
  }

  lemma StartSafe(s: State, line: string, maxFiles: nat)
    requires StateSafe(s, maxFiles) && StartFile(line, s.seen, maxFiles).Ok?
    ensures var f := StartFile(line, s.seen, maxFiles).value;
            StateSafe(s.(files := s.files + [f], inHunk := false, seen := s.seen + {f.path}), maxFiles)
  {
    var f := StartFile(line, s.seen, maxFiles).value;
    AcceptedPath(if f.newPath != "" then f.newPath else f.oldPath);
    assert |s.seen + {f.path}| == |s.seen| + 1;
  }

  lemma NewPathSafe(f: FileDiff, value: string)
    requires Inside(f.path) && NewPathLine(f, value).Ok?
    ensures Inside(NewPathLine(f, value).value.path)
  {
    if CleanHeaderPath(value) != "" {
      AcceptedPath(CleanHeaderPath(value));
    }
  }

  lemma NewPathStepSafe(s: State, line: string, maxFiles: nat)
    requires StateSafe(s, maxFiles) && "+++ " <= line && s.files != [] && Step(s, line, maxFiles).Ok?
    ensures StateSafe(Step(s, line, maxFiles).value, maxFiles)
  {
    assert line[0] == '+';
    NewPathSafe(s.files[|s.files| - 1], line[4..]);
    SetLastSafe(s, NewPathLine(s.files[|s.files| - 1], line[4..]).value, maxFiles);
  }

  lemma BodySafe(s: State, line: string, maxFiles: nat)
    requires StateSafe(s, maxFiles) && CanTakeLine(s) && BodyLine(s, line).Ok?
    ensures StateSafe(BodyLine(s, line).value, maxFiles)
  {
    var next := BodyLine(s, line).value;
    assert |next.files| == |s.files| && next.seen == s.seen;
    forall i | 0 <= i < |next.files| ensures Inside(next.files[i].path) {
      assert next.files[i].path == s.files[i].path;
    }
  }

  lemma StepSafe(s: State, line: string, maxFiles: nat)
    requires StateSafe(s, maxFiles) && Step(s, line, maxFiles).Ok?
    ensures StateSafe(Step(s, line, maxFiles).value, maxFiles)
  {
    if "diff --git " <= line {
      StartSafe(s, line, maxFiles);
    } else if "+++ " <= line && s.files != [] {
      NewPathStepSafe(s, line, maxFiles);
    } else if !("--- " <= line && s.files != []) && !("@@" <= line) && CanTakeLine(s) {
      BodySafe(s, line, maxFiles);
    }
  }

  lemma StepRefusal(s: State, line: string, maxFiles: nat)
    requires Step(s, line, maxFiles).Err?
    ensures Step(s, line, maxFiles) == Err(InvalidInput)
  {
    if "diff --git " <= line {
      var parts := Words(line);
      var source := StripDiffPrefix(if |parts| > 2 then parts[2] else "");
      var target := StripDiffPrefix(if |parts| > 3 then parts[3] else "");
      NormalizeIff(if target != "" then target else source, []);
    } else if "+++ " <= line && s.files != [] {
      NormalizeIff(CleanHeaderPath(line[4..]), []);
    }
  }

  lemma {:induction false} LinesSafe(s: State, lines: seq<string>, maxFiles: nat)
    requires StateSafe(s, maxFiles)
    ensures match ParseLines(s, lines, maxFiles)
            case Ok(end) => StateSafe(end, maxFiles)
            case Err(code) => code == InvalidInput
    decreases |lines|
  {
    if lines != [] {
      if Step(s, lines[0], maxFiles).Ok? {
        StepSafe(s, lines[0], maxFiles);
        LinesSafe(Step(s, lines[0], maxFiles).value, lines[1..], maxFiles);
      } else {
        StepRefusal(s, lines[0], maxFiles);
      }
    }
  }

  /** For every text: what is accepted is within the limits, every path in it stays inside, every file has hunks or is
      deleted, and one is Python; what is refused is refused as invalid input and in no other way. */
  lemma AcceptedIsSafe(text: string, maxFiles: nat, maxBytes: nat)
    ensures match Parse(text, maxFiles, maxBytes)
            case Ok(d) =>
              && d.raw == text && Utf8Length(text) <= maxBytes && 0 < |d.files| <= maxFiles
              && (forall i :: 0 <= i < |d.files| ==> Inside(d.files[i].path) && (d.files[i].hunks != [] || d.files[i].isDeleted))
              && (exists i :: 0 <= i < |d.files| && EndsWith(d.files[i].path, ".py"))
            case Err(code) => code == InvalidInput
  {
    LinesSafe(START, Lines(text), maxFiles);
  }

  /** A new path that is left blank marks the file as deleted and keeps its name. */
  lemma BlankNewPathDeletes(s: State, line: string, maxFiles: nat)
    requires s.files != [] && "+++ " <= line && Strip(line[4..]) == ""
    ensures var f := s.files[|s.files| - 1];
            && Step(s, line, maxFiles).Ok?
            && Step(s, line, maxFiles).value.files == s.files[..|s.files| - 1] + [Step(s, line, maxFiles).value.files[|s.files| - 1]]
            && Step(s, line, maxFiles).value.files[|s.files| - 1].isDeleted
            && Step(s, line, maxFiles).value.files[|s.files| - 1].path == f.path
  {
    assert line[0] == '+';
  }

  // ---- One section for one file -----------------------------------------------------------------------------------

  /** The paths of the files so far differ, and all of them were in a header. */
  ghost predicate Distinct(s: State) {
    && (forall i :: 0 <= i < |s.files| ==> s.files[i].path in s.seen)
    && (forall i, j :: 0 <= i < j < |s.files| ==> s.files[i].path != s.files[j].path)
  }

  /** A line that does not give the current file another name than its header did. */
  predicate KeepsName(s: State, line: string) {
    "+++ " <= line && !("diff --git " <= line) && s.files != [] ==>
      var f := s.files[|s.files| - 1];
      NewPathLine(f, line[4..]).Ok? ==> NewPathLine(f, line[4..]).value.path == f.path
  }

  lemma SetLastDistinct(s: State, f: FileDiff)
    requires Distinct(s) && s.files != [] && f.path == s.files[|s.files| - 1].path
    ensures Distinct(s.(files := SetLast(s.files, f)))
  {
    var files := SetLast(s.files, f);
    assert forall i :: 0 <= i < |files| ==> files[i].path == s.files[i].path;
  }

  lemma SamePathsDistinct(s: State, next: State)
    requires Distinct(s) && next.seen == s.seen && |next.files| == |s.files|
    requires forall i :: 0 <= i < |s.files| ==> next.files[i].path == s.files[i].path
    ensures Distinct(next)
  {
  }

  lemma NewPathDistinct(s: State, line: string, maxFiles: nat)
    requires Distinct(s) && s.files != [] && "+++ " <= line && KeepsName(s, line) && Step(s, line, maxFiles).Ok?
    ensures Distinct(Step(s, line, maxFiles).value)
  {
    assert line[0] == '+';
    SetLastDistinct(s, NewPathLine(s.files[|s.files| - 1], line[4..]).value);
  }

  lemma HeaderDistinct(s: State, line: string, maxFiles: nat)
    requires Distinct(s) && s.files != [] && ("--- " <= line || "@@" <= line) && Step(s, line, maxFiles).Ok?
    ensures Distinct(Step(s, line, maxFiles).value)
  {
    assert line[0] == '-' || line[0] == '@';
    var next := Step(s, line, maxFiles).value;
    SetLastDistinct(s, next.files[|s.files| - 1]);
  }

  lemma BodyDistinct(s: State, line: string)
    requires Distinct(s) && CanTakeLine(s) && BodyLine(s, line).Ok?
    ensures Distinct(BodyLine(s, line).value)
  {
    SamePathsDistinct(s, BodyLine(s, line).value);
  }

  lemma StepDistinct(s: State, line: string, maxFiles: nat)
    requires Distinct(s) && KeepsName(s, line) && Step(s, line, maxFiles).Ok?
    ensures Distinct(Step(s, line, maxFiles).value)
  {
    if "diff --git " <= line {
    } else if "+++ " <= line && s.files != [] {
      NewPathDistinct(s, line, maxFiles);
    } else if ("--- " <= line || "@@" <= line) && s.files != [] {
      HeaderDistinct(s, line, maxFiles);
    } else if CanTakeLine(s) {
      BodyDistinct(s, line);
    }
  }

  /** No line of a text that is read renames the file it stands in. */
  predicate KeepsNames(s: State, lines: seq<string>, maxFiles: nat)
    decreases |lines|
  {
    lines != [] ==>
      && KeepsName(s, lines[0])
      && (Step(s, lines[0], maxFiles).Ok? ==> KeepsNames(Step(s, lines[0], maxFiles).value, lines[1..], maxFiles))
  }

  lemma {:induction false} LinesDistinct(s: State, lines: seq<string>, maxFiles: nat)
    requires Distinct(s) && KeepsNames(s, lines, maxFiles) && ParseLines(s, lines, maxFiles).Ok?
    ensures Distinct(ParseLines(s, lines, maxFiles).value)
    decreases |lines|
  {
    if lines != [] {
      StepDistinct(s, lines[0], maxFiles);
      LinesDistinct(Step(s, lines[0], maxFiles).value, lines[1..], maxFiles);
    }
  }

  /** As long as no "+++" line names another file than the header above it, an accepted diff has one section for a file. */
  lemma PathsAreDistinct(text: string, maxFiles: nat, maxBytes: nat)
    requires Parse(text, maxFiles, maxBytes).Ok? && KeepsNames(START, Lines(text), maxFiles)
    ensures var files := Parse(text, maxFiles, maxBytes).value.files;
            forall i, j :: 0 <= i < j < |files| ==> files[i].path != files[j].path
  {
    LinesDistinct(START, Lines(text), maxFiles);
  }

  lemma NewPathReadsBack(f: FileDiff, path: string)
    requires DiffRoundTrip.OneWord(path) && NormalizePath(path) == Ok(path) && IsAllowed(path)
    ensures var value := ("+++ " + ("b/" + path))[4..];
            NewPathLine(f, value).Ok? && NewPathLine(f, value).value.path == path
  {
    DiffRoundTrip.Prefix("+++ ", "b/" + path);
    DiffRoundTrip.PrefixedName("b/", path);
  }

  /** Such a line is not looked up among the paths already seen: it can take the name of any earlier file. */
  lemma RenamedOntoAnother(s: State, i: nat, maxFiles: nat)
    requires i < |s.files| - 1 && DiffRoundTrip.OneWord(s.files[i].path)
    requires NormalizePath(s.files[i].path) == Ok(s.files[i].path) && IsAllowed(s.files[i].path)
    ensures var next := Step(s, "+++ " + ("b/" + s.files[i].path), maxFiles);
            && next.Ok? && |next.value.files| == |s.files|
            && next.value.files[i] == s.files[i] && next.value.files[|s.files| - 1].path == s.files[i].path
  {
    var path, last := s.files[i].path, s.files[|s.files| - 1];
    var line := "+++ " + ("b/" + path);
    NewPathReadsBack(last, path);
    DiffRoundTrip.NewPathStep(s, line, NewPathLine(last, line[4..]).value, maxFiles);
  }
}
