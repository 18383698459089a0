/** The unified diff parser: file headers, hunk headers and numbered hunk lines. */
module DiffParse {
  import opened Wrappers
  import opened StateMachine
  import opened TextLines
  import opened SafePath
  import Decimal

  datatype Origin = Context | Added | Removed

  datatype HunkLine = HunkLine(origin: Origin, content: string, oldNo: Option<nat>, newNo: Option<nat>)

  datatype Hunk = Hunk(
    oldStart: nat, oldCount: nat, newStart: nat, newCount: nat, section: string, lines: seq<HunkLine>)

  datatype FileDiff = FileDiff(
    path: string, oldPath: string, newPath: string, hunks: seq<Hunk>, isNew: bool, isDeleted: bool)

  datatype ParsedDiff = ParsedDiff(files: seq<FileDiff>, raw: string)

  /** The file under construction is the last one, the hunk under construction its last hunk. */
  datatype State = State(files: seq<FileDiff>, inHunk: bool, oldLine: nat, newLine: nat, seen: set<string>)

  const START := State([], false, 0, 0, {})

  // ---- Headers ---------------------------------------------------------------------------------------------

  function DigitsLength(s: string): (n: nat)
    ensures n <= |s| && Decimal.AllDigits(s[..n]) && (n < |s| ==> !Decimal.IsDigit(s[n]))
  {
    if s == "" || !Decimal.IsDigit(s[0]) then 0
    else
      var n := DigitsLength(s[1..]);
      assert s[..n + 1] == [s[0]] + s[1..][..n];
      n + 1
  }

  /** A number and what follows it. */
  function ReadNumber(s: string): Option<(nat, string)> {
    var n := DigitsLength(s);
    if n == 0 then None else Some((Decimal.Value(s[..n]), s[n..]))
  }

  /** A start, and a count that is 1 when it is left out. */
  function ReadRange(s: string): Option<(nat, nat, string)> {
    match ReadNumber(s)
    case None => None
    case Some((start, rest)) =>
      if rest != "" && rest[0] == ',' then
        (match ReadNumber(rest[1..])
         case None => None
         case Some((count, tail)) => Some((start, count, tail)))
      else Some((start, 1, rest))
  }

  function ParseHunkHeader(line: string): Option<Hunk> {
    if !("@@ -" <= line) then None
    else
      match ReadRange(line[4..])
      case None => None
      case Some((start, count, rest)) => ParseNewRange(start, count, rest)
  }

  function ParseNewRange(oldStart: nat, oldCount: nat, rest: string): Option<Hunk> {
    if !(" +" <= rest) then None
    else
      match ReadRange(rest[2..])
      case None => None
      case Some((start, count, tail)) =>
        if !(" @@" <= tail) then None else Some(Hunk(oldStart, oldCount, start, count, Strip(tail[3..]), []))
  }

  /** str.split(): the words between stretches of white space. */
  function Words(s: string): seq<string>
    decreases |s|
  {
    if s == "" then []
    else if IsSpace(s[0]) then Words(s[1..])
    else [s[..WordLength(s)]] + Words(s[WordLength(s)..])
  }

  function WordLength(s: string): (n: nat)
    ensures n <= |s| && (s != "" && !IsSpace(s[0]) ==> n > 0)
  {
    if s == "" || IsSpace(s[0]) then 0 else 1 + WordLength(s[1..])
  }

  function StartFile(header: string, seen: set<string>, maxFiles: nat): Result<FileDiff, ErrorCode> {
    var parts := Words(header);
    var oldPath := StripDiffPrefix(if |parts| > 2 then parts[2] else "");
    var newPath := StripDiffPrefix(if |parts| > 3 then parts[3] else "");
    var candidate := if newPath != "" then newPath else oldPath;
    if candidate == "" then Err(InvalidInput)
    else
      match NormalizePath(candidate)
      case Err(code) => Err(code)
      case Ok(path) =>
        if path in seen || |seen| >= maxFiles then Err(InvalidInput)
        else Ok(FileDiff(path, oldPath, newPath, [], false, false))
  }

  function BeforeTab(s: string): string {
    if s == "" || s[0] == '\t' then "" else [s[0]] + BeforeTab(s[1..])
  }

  function CleanHeaderPath(value: string): string {
    var token := BeforeTab(Strip(value));
    if token == "/dev/null" || token == "" then token else StripDiffPrefix(token)
  }

  predicate IsNull(path: string) {
    path == "" || path == "/dev/null" || path == "dev/null"
  }

  // ---- One line ---------------------------------------------------------------------------------------------

  function SetLast<T>(s: seq<T>, x: T): (r: seq<T>)
    requires s != []
    ensures |r| == |s|
  {
    s[..|s| - 1] + [x]
  }

  function AddLine(f: FileDiff, line: HunkLine): FileDiff
    requires f.hunks != []
  {
    var h := f.hunks[|f.hunks| - 1];
    f.(hunks := SetLast(f.hunks, h.(lines := h.lines + [line])))
  }

  function NewPathLine(f: FileDiff, value: string): Result<FileDiff, ErrorCode> {
    var newPath := CleanHeaderPath(value);
    var isNew, isDeleted := IsNull(f.oldPath), IsNull(newPath);
    if newPath == "" then Ok(f.(newPath := newPath, isNew := isNew, isDeleted := isDeleted))
    else
      match EnsureAllowed(newPath)
      case Err(code) => Err(code)
      case Ok(path) => Ok(f.(path := path, newPath := newPath, isNew := isNew, isDeleted := isDeleted))
  }

  predicate IsMeta(line: string) {
    "index " <= line || "new file mode" <= line || "deleted file mode" <= line || "similarity index" <= line
    || "rename " <= line || Strip(line) == ""
  }

  predicate CanTakeLine(s: State) {
    s.files != [] && s.inHunk && s.files[|s.files| - 1].hunks != []
  }

  function BodyLine(s: State, line: string): Result<State, ErrorCode>
    requires CanTakeLine(s)
  {
    var f := s.files[|s.files| - 1];
    if "\\" <= line then Ok(s)
    else if "+" <= line then
      Ok(s.(files := SetLast(s.files, AddLine(f, HunkLine(Added, line[1..], None, Some(s.newLine)))),
            newLine := s.newLine + 1))
    else if "-" <= line then
      Ok(s.(files := SetLast(s.files, AddLine(f, HunkLine(Removed, line[1..], Some(s.oldLine), None))),
            oldLine := s.oldLine + 1))
    else if " " <= line || line == "" then
      Ok(s.(files := SetLast(s.files, AddLine(f, HunkLine(Context, if line == "" then "" else line[1..],
                                                          Some(s.oldLine), Some(s.newLine)))),
            oldLine := s.oldLine + 1, newLine := s.newLine + 1))
    else Err(InvalidInput)
  }

  /** The order of the tests is the parser's: file headers first, hunk lines last. */
  function Step(s: State, line: string, maxFiles: nat): Result<State, ErrorCode> {
    if "diff --git " <= line then
      (match StartFile(line, s.seen, maxFiles)
       case Err(code) => Err(code)
       case Ok(f) => Ok(s.(files := s.files + [f], inHunk := false, seen := s.seen + {f.path})))
    else if "--- " <= line && s.files != [] then
      var f := s.files[|s.files| - 1];
      Ok(s.(files := SetLast(s.files, f.(oldPath := CleanHeaderPath(line[4..])))))
    else if "+++ " <= line && s.files != [] then
      (match NewPathLine(s.files[|s.files| - 1], line[4..])
       case Err(code) => Err(code)
       case Ok(f) => Ok(s.(files := SetLast(s.files, f))))
    else if "@@" <= line then
      if s.files == [] then Err(InvalidInput)
      else
        (match ParseHunkHeader(line)
         case None => Err(InvalidInput)
         case Some(h) =>
           var f := s.files[|s.files| - 1];
           Ok(State(SetLast(s.files, f.(hunks := f.hunks + [h])), true, h.oldStart, h.newStart, s.seen)))
    else if !CanTakeLine(s) then (if IsMeta(line) then Ok(s) else Err(InvalidInput))
    else BodyLine(s, line)
  }

  // ---- The whole text -----------------------------------------------------------------------------------------

  function ParseLines(s: State, lines: seq<string>, maxFiles: nat): Result<State, ErrorCode>
    decreases |lines|
  {
    if lines == [] then Ok(s)
    else
      match Step(s, lines[0], maxFiles)
      case Err(code) => Err(code)
      case Ok(next) => ParseLines(next, lines[1..], maxFiles)
  }

  function Utf8Length(s: string): nat {
    if s == "" then 0
    else (if s[0] < '\U{80}' then 1 else if s[0] < '\U{800}' then 2 else if s[0] < '\U{10000}' then 3 else 4)
         + Utf8Length(s[1..])
  }

  predicate Acceptable(files: seq<FileDiff>) {
    && files != []
    && (forall i :: 0 <= i < |files| ==> files[i].hunks != [] || files[i].isDeleted)
    && (exists i :: 0 <= i < |files| && IsPython(files[i].path))
  }

  function Parse(text: string, maxFiles: nat, maxBytes: nat): Result<ParsedDiff, ErrorCode> {
    if Strip(text) == "" || Utf8Length(text) > maxBytes then Err(InvalidInput)
    else
      match ParseLines(START, Lines(text), maxFiles)
      case Err(code) => Err(code)
      case Ok(s) => if Acceptable(s.files) then Ok(ParsedDiff(s.files, text)) else Err(InvalidInput)
  }

  method ParseUnifiedDiff(text: string, maxFiles: nat, maxBytes: nat) returns (r: Result<ParsedDiff, ErrorCode>)
    ensures r == Parse(text, maxFiles, maxBytes)
  {
    if Strip(text) == "" || Utf8Length(text) > maxBytes {
      return Err(InvalidInput);
    }
    var lines := Lines(text);
    var state := START;
    for i := 0 to |lines|
      invariant ParseLines(START, lines, maxFiles) == ParseLines(state, lines[i..], maxFiles)
    {
      assert lines[i..][0] == lines[i] && lines[i..][1..] == lines[i + 1..];
      var next := Step(state, lines[i], maxFiles);
      if next.Err? {
        return Err(next.error);
      }
      state := next.value;
    }
    var accepted := Accept(state.files);
    r := if accepted then Ok(ParsedDiff(state.files, text)) else Err(InvalidInput);
  }

  method Accept(files: seq<FileDiff>) returns (ok: bool)
    ensures ok == Acceptable(files)
  {
    var python := false;
    for i := 0 to |files|
      invariant forall j :: 0 <= j < i ==> files[j].hunks != [] || files[j].isDeleted
      invariant python <==> exists j :: 0 <= j < i && IsPython(files[j].path)
    {
      if files[i].hunks == [] && !files[i].isDeleted {
        return false;
      }
      python := python || IsPython(files[i].path);
    }
    ok := files != [] && python;
  }

  // ---- Line numbers -------------------------------------------------------------------------------------------

  /** Lines of the old file among the first n lines of a hunk, and lines of the new one. */
  function OldBefore(lines: seq<HunkLine>, n: nat): nat
    requires n <= |lines|
  {
    if n == 0 then 0 else OldBefore(lines, n - 1) + if lines[n - 1].origin.Added? then 0 else 1
  }

  function NewBefore(lines: seq<HunkLine>, n: nat): nat
    requires n <= |lines|
  {
    if n == 0 then 0 else NewBefore(lines, n - 1) + if lines[n - 1].origin.Removed? then 0 else 1
  }

  /** A line's numbers are the hunk's starts plus the earlier lines of its side. */
  predicate NumberedAt(h: Hunk, i: nat)
    requires i < |h.lines|
  {
    var l := h.lines[i];
    && l.oldNo == (if l.origin.Added? then None else Some(h.oldStart + OldBefore(h.lines, i)))
    && l.newNo == (if l.origin.Removed? then None else Some(h.newStart + NewBefore(h.lines, i)))
  }

  ghost predicate Numbered(h: Hunk) {
    forall i :: 0 <= i < |h.lines| ==> NumberedAt(h, i)
  }

  ghost predicate AllNumbered(f: FileDiff) {
    forall i :: 0 <= i < |f.hunks| ==> Numbered(f.hunks[i])
  }

  ghost predicate StateNumbered(s: State) {
    && (forall i :: 0 <= i < |s.files| ==> AllNumbered(s.files[i]))
    && (CanTakeLine(s) ==>
          var f := s.files[|s.files| - 1];
          var h := f.hunks[|f.hunks| - 1];
          && s.oldLine == h.oldStart + OldBefore(h.lines, |h.lines|)
          && s.newLine == h.newStart + NewBefore(h.lines, |h.lines|))
  }

  lemma {:induction false} BeforePrefix(lines: seq<HunkLine>, more: seq<HunkLine>, n: nat)
    requires n <= |lines|
    ensures OldBefore(lines + more, n) == OldBefore(lines, n) && NewBefore(lines + more, n) == NewBefore(lines, n)
  {
    if n > 0 {
      BeforePrefix(lines, more, n - 1);
    }
  }

  lemma NumberedGrows(h: Hunk, line: HunkLine)
    requires Numbered(h)
    requires line.oldNo == if line.origin.Added? then None else Some(h.oldStart + OldBefore(h.lines, |h.lines|))
    requires line.newNo == if line.origin.Removed? then None else Some(h.newStart + NewBefore(h.lines, |h.lines|))
    ensures var h' := h.(lines := h.lines + [line]);
            && Numbered(h')
            && OldBefore(h'.lines, |h'.lines|) == OldBefore(h.lines, |h.lines|) + (if line.origin.Added? then 0 else 1)
            && NewBefore(h'.lines, |h'.lines|) == NewBefore(h.lines, |h.lines|) + (if line.origin.Removed? then 0 else 1)
  {
    var h' := h.(lines := h.lines + [line]);
    forall i | 0 <= i < |h'.lines| ensures NumberedAt(h', i) {
      BeforePrefix(h.lines, [line], i);
      if i < |h.lines| {
        assert NumberedAt(h, i);
      }
    }
    BeforePrefix(h.lines, [line], |h.lines|);
  }

  lemma LineKeepsNumbered(s: State, line: HunkLine)
    requires StateNumbered(s) && CanTakeLine(s)
    requires line.oldNo == if line.origin.Added? then None else Some(s.oldLine)
    requires line.newNo == if line.origin.Removed? then None else Some(s.newLine)
    ensures var f := s.files[|s.files| - 1];
            StateNumbered(s.(files := SetLast(s.files, AddLine(f, line)),
                             oldLine := s.oldLine + (if line.origin.Added? then 0 else 1),
                             newLine := s.newLine + if line.origin.Removed? then 0 else 1))
  {
    var f := s.files[|s.files| - 1];
    var h := f.hunks[|f.hunks| - 1];
    assert Numbered(h);
    NumberedGrows(h, line);
    assert AllNumbered(AddLine(f, line));
  }

  lemma BodyKeepsNumbered(s: State, line: string)
    requires StateNumbered(s) && CanTakeLine(s) && BodyLine(s, line).Ok?
    ensures StateNumbered(BodyLine(s, line).value)
  {
    if "\\" <= line {
    } else if "+" <= line {
      LineKeepsNumbered(s, HunkLine(Added, line[1..], None, Some(s.newLine)));
    } else if "-" <= line {
      LineKeepsNumbered(s, HunkLine(Removed, line[1..], Some(s.oldLine), None));
    } else {
      LineKeepsNumbered(s, HunkLine(Context, if line == "" then "" else line[1..], Some(s.oldLine), Some(s.newLine)));
    }
  }

  lemma HunkKeepsNumbered(s: State, h: Hunk)
    requires StateNumbered(s) && s.files != [] && h.lines == []
    ensures var f := s.files[|s.files| - 1];
            StateNumbered(State(SetLast(s.files, f.(hunks := f.hunks + [h])), true, h.oldStart, h.newStart, s.seen))
  {
    var f := s.files[|s.files| - 1];
    assert Numbered(h) && AllNumbered(f);
    assert AllNumbered(f.(hunks := f.hunks + [h]));
  }

  lemma NewFileKeepsNumbered(s: State, f: FileDiff)
    requires StateNumbered(s) && f.hunks == []
    ensures StateNumbered(s.(files := s.files + [f], inHunk := false, seen := s.seen + {f.path}))
  {
  }

  lemma StepKeepsNumbered(s: State, line: string, maxFiles: nat)
    requires StateNumbered(s) && Step(s, line, maxFiles).Ok?
    ensures StateNumbered(Step(s, line, maxFiles).value)
  {
    if "diff --git " <= line {
      NewFileKeepsNumbered(s, StartFile(line, s.seen, maxFiles).value);
    } else if "--- " <= line && s.files != [] {
      SameHunksKeepNumbered(s, s.files[|s.files| - 1].(oldPath := CleanHeaderPath(line[4..])));
    } else if "+++ " <= line && s.files != [] {
      SameHunksKeepNumbered(s, NewPathLine(s.files[|s.files| - 1], line[4..]).value);
    } else if "@@" <= line {
      HunkKeepsNumbered(s, ParseHunkHeader(line).value);
    } else if CanTakeLine(s) {
      BodyKeepsNumbered(s, line);
    }
  }

  lemma SameHunksKeepNumbered(s: State, f: FileDiff)
    requires StateNumbered(s) && s.files != [] && f.hunks == s.files[|s.files| - 1].hunks
    ensures StateNumbered(s.(files := SetLast(s.files, f)))
  {
    assert AllNumbered(s.files[|s.files| - 1]);
    assert AllNumbered(f);
  }

  lemma {:induction false} ParseLinesKeepsNumbered(s: State, lines: seq<string>, maxFiles: nat)
    requires StateNumbered(s) && ParseLines(s, lines, maxFiles).Ok?
    ensures StateNumbered(ParseLines(s, lines, maxFiles).value)
    decreases |lines|
  {
    if lines != [] {
      StepKeepsNumbered(s, lines[0], maxFiles);
      ParseLinesKeepsNumbered(Step(s, lines[0], maxFiles).value, lines[1..], maxFiles);
    }
  }

  /** In everything the parser accepts, every hunk line is numbered by the lines of its side before it. */
  lemma ParsedLinesAreNumbered(text: string, maxFiles: nat, maxBytes: nat)
    requires Parse(text, maxFiles, maxBytes).Ok?
    ensures forall i :: 0 <= i < |Parse(text, maxFiles, maxBytes).value.files| ==>
              AllNumbered(Parse(text, maxFiles, maxBytes).value.files[i])
  {
    ParseLinesKeepsNumbered(START, Lines(text), maxFiles);
  }

  lemma {:induction false} BeforeTabKeeps(s: string)
    requires '\t' !in s
    ensures BeforeTab(s) == s
  {
    if s != "" {
      BeforeTabKeeps(s[1..]);
    }
  }

  lemma NullDeviceIsNoPath(f: FileDiff, device: string)
    requires device == "/dev/null"
    ensures NewPathLine(f, device) == Err(InvalidInput)
  {
    StripKeeps(device);
    BeforeTabKeeps(device);
    assert CleanHeaderPath(device) == device;
    AbsoluteIsRefused(device);
  }

  /** A deletion announced by "+++ /dev/null" is refused wherever it stands. */
  lemma NullNewPathIsRefused(s: State, line: string, maxFiles: nat)
    requires s.files != [] && "+++ " <= line && line[4..] == "/dev/null"
    ensures Step(s, line, maxFiles) == Err(InvalidInput)
  {
    assert line[0] == '+';
    NullDeviceIsNoPath(s.files[|s.files| - 1], line[4..]);
  }
}
