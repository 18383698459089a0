/** Printing file diffs in unified format and parsing them back (POSIX.1-2017, diff, section "Diff -u or -U
    Output Format"). */
module DiffRoundTrip {
  import opened Wrappers
  import opened StateMachine
  import opened TextLines
  import opened SafePath
  import opened DiffParse
  import Decimal

  // ---- The printer -------------------------------------------------------------------------------------------

  /** A range: its start and its count, which is left out when it is 1. */
  function PrintRange(start: nat, count: nat): string {
    if count == 1 then Decimal.Print(start) else Decimal.Print(start) + "," + Decimal.Print(count)
  }

  function PrintSection(h: Hunk): string {
    " @@" + if h.section == "" then "" else " " + h.section
  }

  function PrintHeader(h: Hunk): string {
    "@@ -" + (PrintRange(h.oldStart, h.oldCount) + (" +" + (PrintRange(h.newStart, h.newCount) + PrintSection(h))))
  }

  function PrintLine(l: HunkLine): string {
    (match l.origin case Context => " " case Added => "+" case Removed => "-") + l.content
  }

  function PrintBody(lines: seq<HunkLine>): seq<string> {
    if lines == [] then [] else [PrintLine(lines[0])] + PrintBody(lines[1..])
  }

  function PrintHunks(hunks: seq<Hunk>): seq<string> {
    if hunks == [] then [] else [PrintHeader(hunks[0])] + PrintBody(hunks[0].lines) + PrintHunks(hunks[1..])
  }

  /** A new file has no old name of its own. */
  function OldName(f: FileDiff): string {
    if f.oldPath == "/dev/null" then f.path else f.oldPath
  }

  function PrintOldLine(f: FileDiff): string {
    "--- " + if f.oldPath == "/dev/null" then f.oldPath else "a/" + f.oldPath
  }

  function PrintGitLine(f: FileDiff): string {
    "diff --git " + (("a/" + OldName(f)) + " " + ("b/" + f.path))
  }

  function PrintFile(f: FileDiff): seq<string> {
    [PrintGitLine(f), PrintOldLine(f), "+++ " + ("b/" + f.path)] + PrintHunks(f.hunks)
  }

  function PrintFiles(files: seq<FileDiff>): seq<string> {
    if files == [] then [] else PrintFile(files[0]) + PrintFiles(files[1..])
  }

  function PrintDiff(files: seq<FileDiff>): string {
    Unlines(PrintFiles(files), true)
  }

  // ---- What can be printed -------------------------------------------------------------------------------------

  predicate OneWord(s: string) {
    s != "" && forall i :: 0 <= i < |s| ==> !IsSpace(s[i]) && !IsBreak(s[i])
  }

  predicate PrintableHunk(h: Hunk) {
    && Strip(h.section) == h.section && BreakFree(h.section)
    && forall i :: 0 <= i < |h.lines| ==> BreakFree(h.lines[i].content)
  }

  /** An allowed path in normal form, one word, not a deletion, with hunks; the old name may be the null device. */
  ghost predicate PrintableFile(f: FileDiff) {
    && OneWord(f.path) && NormalizePath(f.path) == Ok(f.path) && IsAllowed(f.path)
    && f.newPath == f.path && f.path != "/dev/null" && f.path != "dev/null" && !f.isDeleted
    && OneWord(f.oldPath) && f.isNew == (f.oldPath == "/dev/null" || f.oldPath == "dev/null")
    && f.hunks != [] && AllNumbered(f)
    && forall i :: 0 <= i < |f.hunks| ==> PrintableHunk(f.hunks[i])
  }

  ghost predicate Printable(files: seq<FileDiff>, maxFiles: nat) {
    && Acceptable(files) && |files| <= maxFiles
    && (forall i :: 0 <= i < |files| ==> PrintableFile(files[i]))
    && (forall i, j :: 0 <= i < j < |files| ==> files[i].path != files[j].path)
  }

  /** A removed line that starts with "-- ", or an added one that starts with "++ ", prints like a file header. */
  predicate ReadsAsHeader(l: HunkLine) {
    (l.origin.Removed? && "-- " <= l.content) || (l.origin.Added? && "++ " <= l.content)
  }

  predicate HunkClear(h: Hunk) {
    forall i :: 0 <= i < |h.lines| ==> !ReadsAsHeader(h.lines[i])
  }

  predicate FileClear(f: FileDiff) {
    forall i :: 0 <= i < |f.hunks| ==> HunkClear(f.hunks[i])
  }

  // ---- Headers ---------------------------------------------------------------------------------------------------

  lemma {:induction false} DigitsThenOther(digits: string, rest: string)
    requires Decimal.AllDigits(digits) && (rest == "" || !Decimal.IsDigit(rest[0]))
    ensures DigitsLength(digits + rest) == |digits|
  {
    if digits == "" {
      assert digits + rest == rest;
    } else {
      assert (digits + rest)[1..] == digits[1..] + rest;
      DigitsThenOther(digits[1..], rest);
    }
  }

  lemma NumberReadsBack(n: nat, rest: string)
    requires rest == "" || !Decimal.IsDigit(rest[0])
    ensures ReadNumber(Decimal.Print(n) + rest) == Some((n, rest))
  {
    var s := Decimal.Print(n) + rest;
    DigitsThenOther(Decimal.Print(n), rest);
    assert s[..|Decimal.Print(n)|] == Decimal.Print(n) && s[|Decimal.Print(n)|..] == rest;
    Decimal.PrintThenRead(n);
  }

  lemma CountReadsBack(start: nat, count: nat, rest: string)
    requires rest == "" || !Decimal.IsDigit(rest[0])
    ensures ReadRange(Decimal.Print(start) + ("," + (Decimal.Print(count) + rest))) == Some((start, count, rest))
  {
    var tail := "," + (Decimal.Print(count) + rest);
    NumberReadsBack(start, tail);
    assert tail[0] == ',' && tail[1..] == Decimal.Print(count) + rest;
    NumberReadsBack(count, rest);
  }

  lemma Regroup(a: string, b: string, rest: string)
    ensures (a + "," + b) + rest == a + ("," + (b + rest))
  {
  }

  lemma RangeReadsBack(start: nat, count: nat, rest: string)
    requires rest != "" && rest[0] == ' '
    ensures ReadRange(PrintRange(start, count) + rest) == Some((start, count, rest))
  {
    if count == 1 {
      NumberReadsBack(start, rest);
    } else {
      CountReadsBack(start, count, rest);
      Regroup(Decimal.Print(start), Decimal.Print(count), rest);
    }
  }

  lemma StripSkipsSpace(s: string)
    ensures Strip(" " + s) == Strip(s)
  {
    assert (" " + s)[1..] == s;
  }

  lemma Prefix(p: string, t: string)
    ensures p <= p + t && (p + t)[|p|..] == t
  {
  }

  lemma NewRangeReadsBack(h: Hunk)
    requires Strip(h.section) == h.section
    ensures ParseNewRange(h.oldStart, h.oldCount, " +" + (PrintRange(h.newStart, h.newCount) + PrintSection(h)))
            == Some(h.(lines := []))
  {
    var tail, section := PrintSection(h), if h.section == "" then "" else " " + h.section;
    Prefix(" +", PrintRange(h.newStart, h.newCount) + tail);
    RangeReadsBack(h.newStart, h.newCount, tail);
    Prefix(" @@", section);
    StripSkipsSpace(h.section);
  }

  /** A printed hunk header reads back, with its counts and its section. */
  lemma HeaderReadsBack(h: Hunk)
    requires Strip(h.section) == h.section
    ensures ParseHunkHeader(PrintHeader(h)) == Some(h.(lines := []))
  {
    var rest := " +" + (PrintRange(h.newStart, h.newCount) + PrintSection(h));
    Prefix("@@ -", PrintRange(h.oldStart, h.oldCount) + rest);
    RangeReadsBack(h.oldStart, h.oldCount, rest);
    NewRangeReadsBack(h);
  }

  lemma {:induction false} WordEnds(word: string, rest: string)
    requires (forall i :: 0 <= i < |word| ==> !IsSpace(word[i])) && (rest == "" || IsSpace(rest[0]))
    ensures WordLength(word + rest) == |word|
  {
    if word == "" {
      assert word + rest == rest;
    } else {
      assert (word + rest)[1..] == word[1..] + rest;
      WordEnds(word[1..], rest);
    }
  }

  lemma FirstWord(word: string, rest: string)
    requires OneWord(word)
    ensures Words(word + " " + rest) == [word] + Words(rest) && Words(word) == [word]
  {
    var s := word + " " + rest;
    assert s == word + (" " + rest);
    WordEnds(word, " " + rest);
    assert s[..|word|] == word && s[|word|..] == " " + rest && (" " + rest)[1..] == rest;
    assert word + "" == word;
    WordEnds(word, "");
    assert word[..|word|] == word && word[|word|..] == "";
  }

  lemma PrefixedName(prefix: string, name: string)
    requires OneWord(name) && (prefix == "a/" || prefix == "b/")
    ensures OneWord(prefix + name) && Strip(prefix + name) == prefix + name
    ensures StripDiffPrefix(prefix + name) == name && CleanHeaderPath(prefix + name) == name
  {
    var s := prefix + name;
    assert forall i :: 0 <= i < |s| ==> s[i] == if i < 2 then prefix[i] else name[i - 2];
    StripKeeps(s);
    assert s[2..] == name && s[1] == '/';
    assert '\t' !in s;
    BeforeTabKeeps(s);
  }

  lemma TwoWords(p: string, q: string, rest: string)
    requires OneWord(p) && OneWord(q)
    ensures Words(((p + " ") + (q + " ")) + rest) == [p, q] + Words(rest)
  {
    assert ((p + " ") + (q + " ")) + rest == p + " " + (q + " " + rest);
    FirstWord(p, q + " " + rest);
    FirstWord(q, rest);
  }

  lemma GitWords(rest: string)
    ensures Words("diff --git " + rest) == ["diff", "--git"] + Words(rest)
  {
    assert ("diff" + " ") + ("--git" + " ") == "diff --git ";
    TwoWords("diff", "--git", rest);
  }

  lemma GitParts(source: string, target: string)
    requires OneWord(source) && OneWord(target)
    ensures Words("diff --git " + (source + " " + target)) == ["diff", "--git"] + [source, target]
  {
    GitWords(source + " " + target);
    FirstWord(source, target);
    FirstWord(target, "");
  }

  lemma StartFromParts(header: string, source: string, target: string, f: FileDiff, seen: set<string>, maxFiles: nat)
    requires Words(header) == ["diff", "--git"] + [source, target]
    requires StripDiffPrefix(source) == OldName(f) && StripDiffPrefix(target) == f.path
    requires f.path != "" && NormalizePath(f.path) == Ok(f.path) && f.path !in seen && |seen| < maxFiles
    ensures StartFile(header, seen, maxFiles) == Ok(FileDiff(f.path, OldName(f), f.path, [], false, false))
  {
    var parts := Words(header);
    assert parts[2] == source && parts[3] == target;
  }

  lemma GitHeaderReadsBack(f: FileDiff, seen: set<string>, maxFiles: nat)
    requires PrintableFile(f) && f.path !in seen && |seen| < maxFiles
    ensures StartFile(PrintGitLine(f), seen, maxFiles) == Ok(FileDiff(f.path, OldName(f), f.path, [], false, false))
  {
    PrefixedName("a/", OldName(f));
    PrefixedName("b/", f.path);
    GitParts("a/" + OldName(f), "b/" + f.path);
    StartFromParts(PrintGitLine(f), "a/" + OldName(f), "b/" + f.path, f, seen, maxFiles);
  }

  // ---- One file ----------------------------------------------------------------------------------------------------

  lemma {:induction false} ParseSplits(s: State, first: seq<string>, second: seq<string>, maxFiles: nat)
    ensures ParseLines(s, first + second, maxFiles) ==
              match ParseLines(s, first, maxFiles)
              case Err(code) => Err(code)
              case Ok(next) => ParseLines(next, second, maxFiles)
    decreases |first|
  {
    if first == [] {
      assert first + second == second;
    } else {
      assert (first + second)[0] == first[0] && (first + second)[1..] == first[1..] + second;
      if Step(s, first[0], maxFiles).Ok? {
        ParseSplits(Step(s, first[0], maxFiles).value, first[1..], second, maxFiles);
      }
    }
  }

  lemma FirstStep(s: State, line: string, rest: seq<string>, maxFiles: nat)
    requires Step(s, line, maxFiles).Ok?
    ensures ParseLines(s, [line] + rest, maxFiles) == ParseLines(Step(s, line, maxFiles).value, rest, maxFiles)
  {
    assert ([line] + rest)[1..] == rest;
  }

  /** The state in the middle of a file: these hunks so far, and these line numbers next. */
  function Mid(files: seq<FileDiff>, f: FileDiff, hunks: seq<Hunk>, o: nat, n: nat, seen: set<string>): State {
    State(files + [f.(hunks := hunks)], hunks != [], o, n, seen)
  }

  lemma SetLastOf<T>(s: seq<T>, x: T, y: T)
    ensures SetLast(s + [x], y) == s + [y]
  {
  }

  lemma PrefixBehind(c: char, p: string, t: string)
    ensures [c] + p <= [c] + t <==> p <= t
  {
    if p <= t {
      assert t == p + t[|p|..];
    }
    if [c] + p <= [c] + t {
      assert ([c] + p)[1..] == p && ([c] + t)[1..] == t;
      assert forall i :: 0 <= i < |p| ==> p[i] == ([c] + p)[i + 1] == ([c] + t)[i + 1] == t[i];
    }
  }

  lemma HeaderLikeIff(l: HunkLine)
    ensures ReadsAsHeader(l) <==> "--- " <= PrintLine(l) || "+++ " <= PrintLine(l)
  {
    PrefixBehind('-', "-- ", l.content);
    PrefixBehind('+', "++ ", l.content);
    assert ['-'] + "-- " == "--- " && ['+'] + "++ " == "+++ ";
    assert PrintLine(l)[0] == match l.origin case Context => ' ' case Added => '+' case Removed => '-';
  }

  /** A hunk line that does not look like a header is taken as what it is. */
  lemma LineReadsBack(files: seq<FileDiff>, f: FileDiff, hunks: seq<Hunk>, h: Hunk, l: HunkLine, o: nat, n: nat,
                      seen: set<string>, maxFiles: nat)
    requires !ReadsAsHeader(l)
    requires l.oldNo == (if l.origin.Added? then None else Some(o)) && l.newNo == if l.origin.Removed? then None else Some(n)
    ensures Step(Mid(files, f, hunks + [h], o, n, seen), PrintLine(l), maxFiles)
            == Ok(Mid(files, f, hunks + [h.(lines := h.lines + [l])],
                      o + (if l.origin.Added? then 0 else 1), n + (if l.origin.Removed? then 0 else 1), seen))
  {
    var s, line := Mid(files, f, hunks + [h], o, n, seen), PrintLine(l);
    var now := f.(hunks := hunks + [h]);
    assert line[1..] == l.content && line[0] == match l.origin case Context => ' ' case Added => '+' case Removed => '-';
    HeaderLikeIff(l);
    SetLastOf(files, now, AddLine(now, l));
    SetLastOf(hunks, h, h.(lines := h.lines + [l]));
    assert CanTakeLine(s);
  }

  function Old(h: Hunk, i: nat): nat
    requires i <= |h.lines|
  {
    h.oldStart + OldBefore(h.lines, i)
  }

  function New(h: Hunk, i: nat): nat
    requires i <= |h.lines|
  {
    h.newStart + NewBefore(h.lines, i)
  }

  /** From line i on, the body of a hunk reads back. */
  lemma {:induction false} BodyReadsBack(files: seq<FileDiff>, f: FileDiff, hunks: seq<Hunk>, h: Hunk, i: nat,
                                         seen: set<string>, maxFiles: nat)
    requires Numbered(h) && HunkClear(h) && i <= |h.lines|
    ensures ParseLines(Mid(files, f, hunks + [h.(lines := h.lines[..i])], Old(h, i), New(h, i), seen),
                       PrintBody(h.lines[i..]), maxFiles)
            == Ok(Mid(files, f, hunks + [h], Old(h, |h.lines|), New(h, |h.lines|), seen))
    decreases |h.lines| - i
  {
    var s := Mid(files, f, hunks + [h.(lines := h.lines[..i])], Old(h, i), New(h, i), seen);
    if i == |h.lines| {
      assert h.lines[..i] == h.lines && h.lines[i..] == [];
      assert h.(lines := h.lines) == h;
    } else {
      var l, rest := h.lines[i], h.lines[i..];
      assert NumberedAt(h, i) && !ReadsAsHeader(l);
      assert rest[0] == l && rest[1..] == h.lines[i + 1..];
      LineReadsBack(files, f, hunks, h.(lines := h.lines[..i]), l, Old(h, i), New(h, i), seen, maxFiles);
      assert h.lines[..i] + [l] == h.lines[..i + 1];
      var next := Mid(files, f, hunks + [h.(lines := h.lines[..i + 1])], Old(h, i + 1), New(h, i + 1), seen);
      assert Step(s, PrintLine(l), maxFiles) == Ok(next);
      var printed := PrintBody(rest);
      assert printed[0] == PrintLine(l) && printed[1..] == PrintBody(h.lines[i + 1..]);
      BodyReadsBack(files, f, hunks, h, i + 1, seen, maxFiles);
    }
  }

  lemma HunkHeaderStep(s: State, line: string, h: Hunk, maxFiles: nat)
    requires s.files != [] && "@@" <= line && ParseHunkHeader(line) == Some(h)
    ensures var f := s.files[|s.files| - 1];
            Step(s, line, maxFiles)
            == Ok(State(SetLast(s.files, f.(hunks := f.hunks + [h])), true, h.oldStart, h.newStart, s.seen))
  {
    assert line[0] == '@';
  }

  lemma HeaderStep(files: seq<FileDiff>, f: FileDiff, hunks: seq<Hunk>, h: Hunk, o: nat, n: nat,
                   seen: set<string>, maxFiles: nat)
    requires Strip(h.section) == h.section
    ensures Step(Mid(files, f, hunks, o, n, seen), PrintHeader(h), maxFiles)
            == Ok(Mid(files, f, hunks + [h.(lines := [])], h.oldStart, h.newStart, seen))
  {
    var line, now, bare := PrintHeader(h), f.(hunks := hunks), h.(lines := []);
    HeaderReadsBack(h);
    assert "@@" <= line;
    HunkHeaderStep(Mid(files, f, hunks, o, n, seen), line, bare, maxFiles);
    SetLastOf(files, now, now.(hunks := hunks + [bare]));
  }

  lemma HunkReadsBack(files: seq<FileDiff>, f: FileDiff, hunks: seq<Hunk>, h: Hunk, o: nat, n: nat,
                      seen: set<string>, maxFiles: nat)
    requires PrintableHunk(h) && Numbered(h) && HunkClear(h)
    ensures ParseLines(Mid(files, f, hunks, o, n, seen), [PrintHeader(h)] + PrintBody(h.lines), maxFiles)
            == Ok(Mid(files, f, hunks + [h], Old(h, |h.lines|), New(h, |h.lines|), seen))
  {
    HeaderStep(files, f, hunks, h, o, n, seen, maxFiles);
    FirstStep(Mid(files, f, hunks, o, n, seen), PrintHeader(h), PrintBody(h.lines), maxFiles);
    assert h.lines[..0] == [] && h.lines[0..] == h.lines && Old(h, 0) == h.oldStart && New(h, 0) == h.newStart;
    BodyReadsBack(files, f, hunks, h, 0, seen, maxFiles);
  }

  /** All hunks of a file, after those already read. */
  lemma {:induction false} HunksReadBack(files: seq<FileDiff>, f: FileDiff, hunks: seq<Hunk>, more: seq<Hunk>, o: nat, n: nat,
                                         seen: set<string>, maxFiles: nat) returns (o': nat, n': nat)
    requires forall i :: 0 <= i < |more| ==> PrintableHunk(more[i]) && Numbered(more[i]) && HunkClear(more[i])
    ensures ParseLines(Mid(files, f, hunks, o, n, seen), PrintHunks(more), maxFiles)
            == Ok(Mid(files, f, hunks + more, o', n', seen))
    decreases |more|
  {
    if more == [] {
      assert hunks + more == hunks;
      o', n' := o, n;
    } else {
      var h, rest := more[0], more[1..];
      HunkReadsBack(files, f, hunks, h, o, n, seen, maxFiles);
      ParseSplits(Mid(files, f, hunks, o, n, seen), [PrintHeader(h)] + PrintBody(h.lines), PrintHunks(rest), maxFiles);
      o', n' := HunksReadBack(files, f, hunks + [h], rest, Old(h, |h.lines|), New(h, |h.lines|), seen, maxFiles);
      HunksJoin(hunks, more);
    }
  }

  lemma HunksJoin(hunks: seq<Hunk>, more: seq<Hunk>)
    requires more != []
    ensures (hunks + [more[0]]) + more[1..] == hunks + more
  {
  }

  lemma OldLineReadsBack(f: FileDiff)
    requires PrintableFile(f)
    ensures "--- " <= PrintOldLine(f) && CleanHeaderPath(PrintOldLine(f)[4..]) == f.oldPath
  {
    if f.oldPath == "/dev/null" {
      Prefix("--- ", f.oldPath);
      StripKeeps(f.oldPath);
      assert '\t' !in f.oldPath;
      BeforeTabKeeps(f.oldPath);
    } else {
      Prefix("--- ", "a/" + f.oldPath);
      PrefixedName("a/", f.oldPath);
    }
  }

  lemma NewLineReadsBack(f: FileDiff, started: FileDiff)
    requires PrintableFile(f) && started.oldPath == f.oldPath && started.hunks == []
    ensures NewPathLine(started, ("+++ " + ("b/" + f.path))[4..]) == Ok(f.(hunks := []))
  {
    Prefix("+++ ", "b/" + f.path);
    PrefixedName("b/", f.path);
  }

  lemma ThreeLines(s: State, a: string, b: string, c: string, maxFiles: nat)
    requires Step(s, a, maxFiles).Ok? && Step(Step(s, a, maxFiles).value, b, maxFiles).Ok?
    ensures ParseLines(s, [a, b, c], maxFiles) == Step(Step(Step(s, a, maxFiles).value, b, maxFiles).value, c, maxFiles)
  {
    var s2 := Step(Step(s, a, maxFiles).value, b, maxFiles).value;
    assert [a, b, c][1..] == [b, c] && [b, c][1..] == [c];
    assert ParseLines(s2, [c], maxFiles) == Step(s2, c, maxFiles) by {
      assert |[c][1..]| == 0;
    }
  }

  function Started(f: FileDiff): FileDiff {
    FileDiff(f.path, OldName(f), f.path, [], false, false)
  }

  lemma GitStep(s: State, f: FileDiff, maxFiles: nat)
    requires PrintableFile(f) && f.path !in s.seen && |s.seen| < maxFiles
    ensures Step(s, PrintGitLine(f), maxFiles)
            == Ok(s.(files := s.files + [Started(f)], inHunk := false, seen := s.seen + {f.path}))
  {
    GitHeaderReadsBack(f, s.seen, maxFiles);
    assert "diff --git " <= PrintGitLine(f);
  }

  lemma OldStep(s: State, files: seq<FileDiff>, f: FileDiff, maxFiles: nat)
    requires PrintableFile(f) && s.files == files + [Started(f)]
    ensures Step(s, PrintOldLine(f), maxFiles) == Ok(s.(files := files + [Started(f).(oldPath := f.oldPath)]))
  {
    OldLineReadsBack(f);
    assert PrintOldLine(f)[0] == '-';
    SetLastOf(files, Started(f), Started(f).(oldPath := f.oldPath));
  }

  lemma NewStep(s: State, files: seq<FileDiff>, f: FileDiff, maxFiles: nat)
    requires PrintableFile(f) && s.files == files + [Started(f).(oldPath := f.oldPath)]
    ensures Step(s, "+++ " + ("b/" + f.path), maxFiles) == Ok(s.(files := files + [f.(hunks := [])]))
  {
    var line := "+++ " + ("b/" + f.path);
    NewLineReadsBack(f, Started(f).(oldPath := f.oldPath));
    NewPathStep(s, line, f.(hunks := []), maxFiles);
    SetLastOf(files, Started(f).(oldPath := f.oldPath), f.(hunks := []));
  }

  lemma NewPathStep(s: State, line: string, f: FileDiff, maxFiles: nat)
    requires s.files != [] && "+++ " <= line && NewPathLine(s.files[|s.files| - 1], line[4..]) == Ok(f)
    ensures Step(s, line, maxFiles) == Ok(s.(files := SetLast(s.files, f)))
  {
    assert line[0] == '+';
  }

  /** The three header lines of a file. */
  lemma HeadersReadBack(files: seq<FileDiff>, f: FileDiff, o: nat, n: nat, inHunk: bool, seen: set<string>, maxFiles: nat)
    requires PrintableFile(f) && f.path !in seen && |seen| < maxFiles
    ensures ParseLines(State(files, inHunk, o, n, seen), [PrintGitLine(f), PrintOldLine(f), "+++ " + ("b/" + f.path)], maxFiles)
            == Ok(Mid(files, f, [], o, n, seen + {f.path}))
  {
    var s := State(files, inHunk, o, n, seen);
    GitStep(s, f, maxFiles);
    var s1 := s.(files := files + [Started(f)], inHunk := false, seen := seen + {f.path});
    OldStep(s1, files, f, maxFiles);
    var s2 := s1.(files := files + [Started(f).(oldPath := f.oldPath)]);
    NewStep(s2, files, f, maxFiles);
    ThreeLines(s, PrintGitLine(f), PrintOldLine(f), "+++ " + ("b/" + f.path), maxFiles);
  }

  lemma FileReadsBack(files: seq<FileDiff>, f: FileDiff, o: nat, n: nat, inHunk: bool, seen: set<string>, maxFiles: nat)
    returns (o': nat, n': nat)
    requires PrintableFile(f) && FileClear(f) && f.path !in seen && |seen| < maxFiles
    ensures ParseLines(State(files, inHunk, o, n, seen), PrintFile(f), maxFiles)
            == Ok(State(files + [f], true, o', n', seen + {f.path}))
  {
    HeadersReadBack(files, f, o, n, inHunk, seen, maxFiles);
    ParseSplits(State(files, inHunk, o, n, seen), [PrintGitLine(f), PrintOldLine(f), "+++ " + ("b/" + f.path)],
                PrintHunks(f.hunks), maxFiles);
    o', n' := HunksReadBack(files, f, [], f.hunks, o, n, seen + {f.path}, maxFiles);
    assert [] + f.hunks == f.hunks && f.(hunks := f.hunks) == f;
  }

  /** Files still to be printed and read, none of them seen before. */
  ghost predicate Queue(more: seq<FileDiff>, seen: set<string>, maxFiles: nat) {
    && |seen| + |more| <= maxFiles
    && (forall i :: 0 <= i < |more| ==> more[i].path !in seen)
    && (forall i :: 0 <= i < |more| ==> PrintableFile(more[i]))
    && (forall i :: 0 <= i < |more| ==> FileClear(more[i]))
    && (forall i, j :: 0 <= i < j < |more| ==> more[i].path != more[j].path)
  }

  lemma QueueTail(more: seq<FileDiff>, seen: set<string>, maxFiles: nat)
    requires Queue(more, seen, maxFiles) && more != []
    ensures Queue(more[1..], seen + {more[0].path}, maxFiles)
    ensures PrintableFile(more[0]) && FileClear(more[0]) && more[0].path !in seen && |seen| < maxFiles
  {
    assert forall i :: 0 <= i < |more[1..]| ==> more[1..][i] == more[i + 1];
  }

  lemma {:induction false} FilesReadBack(files: seq<FileDiff>, more: seq<FileDiff>, o: nat, n: nat, inHunk: bool,
                                         seen: set<string>, maxFiles: nat)
    requires Queue(more, seen, maxFiles)
    ensures var r := ParseLines(State(files, inHunk, o, n, seen), PrintFiles(more), maxFiles);
            r.Ok? && r.value.files == files + more
    decreases |more|
  {
    if more == [] {
      assert files + more == files;
    } else {
      var f, rest := more[0], more[1..];
      QueueTail(more, seen, maxFiles);
      var o', n' := FileReadsBack(files, f, o, n, inHunk, seen, maxFiles);
      ParseSplits(State(files, inHunk, o, n, seen), PrintFile(f), PrintFiles(rest), maxFiles);
      FilesReadBack(files + [f], rest, o', n', true, seen + {f.path}, maxFiles);
      FilesJoin(files, more);
    }
  }

  lemma FilesJoin(files: seq<FileDiff>, more: seq<FileDiff>)
    requires more != []
    ensures (files + [more[0]]) + more[1..] == files + more
  {
  }

  // ---- The text ----------------------------------------------------------------------------------------------------------

  lemma BreakFreeJoins(a: string, b: string)
    requires BreakFree(a) && BreakFree(b)
    ensures BreakFree(a + b)
  {
  }

  predicate AllBreakFree(lines: seq<string>) {
    forall i :: 0 <= i < |lines| ==> BreakFree(lines[i])
  }

  lemma {:induction false} PrintedDigits(n: nat)
    ensures BreakFree(Decimal.Print(n))
  {
  }

  lemma HeaderIsOneLine(h: Hunk)
    requires BreakFree(h.section)
    ensures BreakFree(PrintHeader(h))
  {
    forall s: nat, c: nat ensures BreakFree(PrintRange(s, c)) {
      PrintedDigits(s);
      PrintedDigits(c);
      BreakFreeJoins(Decimal.Print(s), ",");
      BreakFreeJoins(Decimal.Print(s) + ",", Decimal.Print(c));
    }
    BreakFreeJoins(" ", h.section);
    BreakFreeJoins(" @@", if h.section == "" then "" else " " + h.section);
    var range := PrintRange(h.newStart, h.newCount);
    BreakFreeJoins(range, PrintSection(h));
    BreakFreeJoins(" +", range + PrintSection(h));
    BreakFreeJoins(PrintRange(h.oldStart, h.oldCount), " +" + (range + PrintSection(h)));
    BreakFreeJoins("@@ -", PrintRange(h.oldStart, h.oldCount) + (" +" + (range + PrintSection(h))));
  }

  lemma {:induction false} BodyIsLines(lines: seq<HunkLine>)
    requires forall i :: 0 <= i < |lines| ==> BreakFree(lines[i].content)
    ensures AllBreakFree(PrintBody(lines))
  {
    if lines != [] {
      BodyIsLines(lines[1..]);
      BreakFreeJoins(match lines[0].origin case Context => " " case Added => "+" case Removed => "-", lines[0].content);
    }
  }

  lemma {:induction false} HunksAreLines(hunks: seq<Hunk>)
    requires forall i :: 0 <= i < |hunks| ==> PrintableHunk(hunks[i])
    ensures AllBreakFree(PrintHunks(hunks))
  {
    if hunks != [] {
      HunksAreLines(hunks[1..]);
      HeaderIsOneLine(hunks[0]);
      BodyIsLines(hunks[0].lines);
    }
  }

  lemma HeaderLinesAreLines(source: string, target: string)
    requires BreakFree(source) && BreakFree(target)
    ensures BreakFree("diff --git " + (source + " " + target))
    ensures BreakFree("--- " + source) && BreakFree("+++ " + target)
  {
    BreakFreeJoins(source, " ");
    BreakFreeJoins(source + " ", target);
    BreakFreeJoins("diff --git ", source + " " + target);
    BreakFreeJoins("--- ", source);
    BreakFreeJoins("+++ ", target);
  }

  lemma FileIsLines(f: FileDiff)
    requires PrintableFile(f)
    ensures AllBreakFree(PrintFile(f))
  {
    PrefixedName("a/", OldName(f));
    PrefixedName("b/", f.path);
    HeaderLinesAreLines("a/" + OldName(f), "b/" + f.path);
    if f.oldPath == "/dev/null" {
      HeaderLinesAreLines(f.oldPath, f.oldPath);
    }
    HunksAreLines(f.hunks);
    AppendLines(PrintGitLine(f), PrintOldLine(f), "+++ " + ("b/" + f.path), PrintHunks(f.hunks));
  }

  lemma AppendLines(a: string, b: string, c: string, rest: seq<string>)
    requires BreakFree(a) && BreakFree(b) && BreakFree(c) && AllBreakFree(rest)
    ensures AllBreakFree([a, b, c] + rest)
  {
  }

  lemma {:induction false} FilesAreLines(files: seq<FileDiff>)
    requires forall i :: 0 <= i < |files| ==> PrintableFile(files[i])
    ensures AllBreakFree(PrintFiles(files)) && (files != [] ==> PrintFiles(files) != [])
  {
    if files != [] {
      FilesAreLines(files[1..]);
      FileIsLines(files[0]);
    }
  }

  lemma LinesReadBack(lines: seq<string>)
    requires lines != [] && AllBreakFree(lines)
    ensures Lines(Unlines(lines, true)) == lines
  {
    LinesOfUnlines(lines, true);
  }

  lemma FirstLine(files: seq<FileDiff>)
    requires files != []
    ensures PrintFiles(files) != [] && PrintFiles(files)[0] == PrintGitLine(files[0])
  {
    assert PrintFile(files[0])[0] == PrintGitLine(files[0]);
  }

  lemma NotBlank(text: string)
    requires text != "" && text[0] == 'd'
    ensures Strip(text) != ""
  {
    assert TrimLeft(text) == text;
    TrimRightKeepsHead(text);
  }

  /** The printed text is not blank, and its lines are the printed lines. */
  lemma TextReadsBack(files: seq<FileDiff>, text: string)
    requires files != [] && text == PrintDiff(files) && forall i :: 0 <= i < |files| ==> PrintableFile(files[i])
    ensures Strip(text) != "" && Lines(text) == PrintFiles(files)
  {
    FilesAreLines(files);
    FirstLine(files);
    GitLineStarts(files[0]);
    HeadOfText(PrintFiles(files));
    LinesReadBack(PrintFiles(files));
    NotBlank(text);
  }

  lemma GitLineStarts(f: FileDiff)
    ensures PrintGitLine(f) != "" && PrintGitLine(f)[0] == 'd'
  {
  }

  lemma HeadOfText(lines: seq<string>)
    requires lines != [] && lines[0] != ""
    ensures Unlines(lines, true) != "" && Unlines(lines, true)[0] == lines[0][0]
  {
    assert Join(lines)[0] == lines[0][0];
  }

  // ---- Lines that vanish -----------------------------------------------------------------------------------------------------

  function HunkTotal(hunks: seq<Hunk>): nat {
    if hunks == [] then 0 else |hunks[0].lines| + HunkTotal(hunks[1..])
  }

  /** Hunk lines in a list of files. */
  function Total(files: seq<FileDiff>): nat {
    if files == [] then 0 else HunkTotal(files[0].hunks) + Total(files[1..])
  }

  lemma {:induction false} HunkTotalSplits(a: seq<Hunk>, b: seq<Hunk>)
    ensures HunkTotal(a + b) == HunkTotal(a) + HunkTotal(b)
  {
    if a == [] {
      assert a + b == b;
    } else {
      assert (a + b)[1..] == a[1..] + b;
      HunkTotalSplits(a[1..], b);
    }
  }

  lemma {:induction false} TotalSplits(a: seq<FileDiff>, b: seq<FileDiff>)
    ensures Total(a + b) == Total(a) + Total(b)
  {
    if a == [] {
      assert a + b == b;
    } else {
      assert (a + b)[1..] == a[1..] + b;
      TotalSplits(a[1..], b);
    }
  }

  lemma TotalOfOne(f: FileDiff)
    ensures Total([f]) == HunkTotal(f.hunks)
  {
    assert |[f][1..]| == 0;
  }

  lemma HunkTotalOfOne(h: Hunk)
    ensures HunkTotal([h]) == |h.lines|
  {
    assert |[h][1..]| == 0;
  }

  lemma TotalAppend(front: seq<FileDiff>, f: FileDiff)
    ensures Total(front + [f]) == Total(front) + HunkTotal(f.hunks)
  {
    TotalSplits(front, [f]);
    TotalOfOne(f);
  }

  lemma SetLastBehind(files: seq<FileDiff>, f: FileDiff)
    requires |files| > 1
    ensures SetLast(files, f)[0] == files[0] && SetLast(files, f)[1..] == SetLast(files[1..], f)
  {
  }

  lemma {:induction false} SetLastTotal(files: seq<FileDiff>, f: FileDiff)
    requires files != []
    ensures Total(SetLast(files, f)) == Total(files) - HunkTotal(files[|files| - 1].hunks) + HunkTotal(f.hunks)
  {
    if |files| == 1 {
      assert SetLast(files, f) == [f] && files == [files[0]];
      TotalOfOne(f);
      TotalOfOne(files[0]);
    } else {
      SetLastTotal(files[1..], f);
      SetLastBehind(files, f);
    }
  }

  lemma AddLineTotal(f: FileDiff, l: HunkLine)
    requires f.hunks != []
    ensures HunkTotal(AddLine(f, l).hunks) == HunkTotal(f.hunks) + 1
  {
    var front, h := f.hunks[..|f.hunks| - 1], f.hunks[|f.hunks| - 1];
    var h' := h.(lines := h.lines + [l]);
    assert f.hunks == front + [h];
    HunkTotalSplits(front, [h]);
    HunkTotalSplits(front, [h']);
    HunkTotalOfOne(h);
    HunkTotalOfOne(h');
  }

  predicate CouldBeBody(line: string) {
    !("diff --git " <= line) && !("--- " <= line) && !("+++ " <= line) && !("@@" <= line)
  }

  function Bodies(lines: seq<string>): nat {
    if lines == [] then 0 else (if CouldBeBody(lines[0]) then 1 else 0) + Bodies(lines[1..])
  }

  lemma {:induction false} BodiesSplit(a: seq<string>, b: seq<string>)
    ensures Bodies(a + b) == Bodies(a) + Bodies(b)
  {
    if a == [] {
      assert a + b == b;
    } else {
      assert (a + b)[1..] == a[1..] + b;
      BodiesSplit(a[1..], b);
    }
  }

  lemma BodyLineTotal(s: State, line: string)
    requires CanTakeLine(s) && BodyLine(s, line).Ok?
    ensures Total(BodyLine(s, line).value.files) <= Total(s.files) + 1
  {
    var f := s.files[|s.files| - 1];
    forall l: HunkLine ensures Total(SetLast(s.files, AddLine(f, l))) == Total(s.files) + 1 {
      AddLineTotal(f, l);
      SetLastTotal(s.files, AddLine(f, l));
    }
  }

  lemma NewHunkTotal(f: FileDiff, h: Hunk)
    requires h.lines == []
    ensures HunkTotal(f.hunks + [h]) == HunkTotal(f.hunks)
  {
    HunkTotalSplits(f.hunks, [h]);
    HunkTotalOfOne(h);
  }

  lemma HeaderTotal(s: State, line: string, maxFiles: nat)
    requires Step(s, line, maxFiles).Ok? && s.files != [] && !CouldBeBody(line) && !("diff --git " <= line)
    ensures Total(Step(s, line, maxFiles).value.files) == Total(s.files)
  {
    var f := s.files[|s.files| - 1];
    if "--- " <= line {
      SetLastTotal(s.files, f.(oldPath := CleanHeaderPath(line[4..])));
    } else if "+++ " <= line {
      SetLastTotal(s.files, NewPathLine(f, line[4..]).value);
    } else {
      var h := ParseHunkHeader(line).value;
      SetLastTotal(s.files, f.(hunks := f.hunks + [h]));
      NewHunkTotal(f, h);
    }
  }

  /** A line adds at most one hunk line, and a line that reads as a header adds none. */
  lemma StepTotal(s: State, line: string, maxFiles: nat)
    requires Step(s, line, maxFiles).Ok?
    ensures Total(Step(s, line, maxFiles).value.files) <= Total(s.files) + if CouldBeBody(line) then 1 else 0
  {
    if "diff --git " <= line {
      TotalAppend(s.files, StartFile(line, s.seen, maxFiles).value);
    } else if !CouldBeBody(line) && s.files != [] {
      HeaderTotal(s, line, maxFiles);
    } else if CanTakeLine(s) {
      BodyLineTotal(s, line);
    }
  }

  lemma {:induction false} ParseTotal(s: State, lines: seq<string>, maxFiles: nat)
    requires ParseLines(s, lines, maxFiles).Ok?
    ensures Total(ParseLines(s, lines, maxFiles).value.files) <= Total(s.files) + Bodies(lines)
    decreases |lines|
  {
    if lines != [] {
      StepTotal(s, lines[0], maxFiles);
      ParseTotal(Step(s, lines[0], maxFiles).value, lines[1..], maxFiles);
    }
  }

  lemma {:induction false} BodyBodies(lines: seq<HunkLine>)
    ensures Bodies(PrintBody(lines)) <= |lines|
    ensures (exists i :: 0 <= i < |lines| && ReadsAsHeader(lines[i])) ==> Bodies(PrintBody(lines)) < |lines|
  {
    if lines != [] {
      BodyBodies(lines[1..]);
      HeaderLikeIff(lines[0]);
      assert PrintBody(lines)[1..] == PrintBody(lines[1..]);
      if i :| 0 <= i < |lines| && ReadsAsHeader(lines[i]) {
        if i > 0 {
          assert lines[1..][i - 1] == lines[i];
        }
      }
    }
  }

  lemma {:induction false} HunkBodies(hunks: seq<Hunk>)
    ensures Bodies(PrintHunks(hunks)) <= HunkTotal(hunks)
    ensures (exists i :: 0 <= i < |hunks| && !HunkClear(hunks[i])) ==> Bodies(PrintHunks(hunks)) < HunkTotal(hunks)
  {
    if hunks != [] {
      var h, rest := hunks[0], hunks[1..];
      HunkBodies(rest);
      BodyBodies(h.lines);
      var header := PrintHeader(h);
      assert "@@" <= header;
      BodiesSplit([header] + PrintBody(h.lines), PrintHunks(rest));
      BodiesSplit([header], PrintBody(h.lines));
      assert Bodies([header]) == 0 + Bodies([header][1..]);
      if i :| 0 <= i < |hunks| && !HunkClear(hunks[i]) {
        if i > 0 {
          assert rest[i - 1] == hunks[i];
        }
      }
    }
  }

  lemma FileBodies(f: FileDiff)
    ensures Bodies(PrintFile(f)) == Bodies(PrintHunks(f.hunks))
  {
    var a, b, c := PrintGitLine(f), PrintOldLine(f), "+++ " + ("b/" + f.path);
    BodiesSplit([a, b, c], PrintHunks(f.hunks));
    assert "diff --git " <= a && "--- " <= b && "+++ " <= c;
    assert [a, b, c][1..] == [b, c] && [b, c][1..] == [c];
    assert Bodies([c]) == 0 + Bodies([c][1..]);
  }

  lemma {:induction false} FilesBodies(files: seq<FileDiff>)
    ensures Bodies(PrintFiles(files)) <= Total(files)
    ensures (exists i :: 0 <= i < |files| && !FileClear(files[i])) ==> Bodies(PrintFiles(files)) < Total(files)
  {
    if files != [] {
      var rest := files[1..];
      FilesBodies(rest);
      FileBodies(files[0]);
      HunkBodies(files[0].hunks);
      BodiesSplit(PrintFile(files[0]), PrintFiles(rest));
      if i :| 0 <= i < |files| && !FileClear(files[i]) {
        if i > 0 {
          assert rest[i - 1] == files[i];
        }
      }
    }
  }

  // ---- The round trip -------------------------------------------------------------------------------------------------------------

  lemma ClearReadsBack(files: seq<FileDiff>, maxFiles: nat)
    requires Printable(files, maxFiles) && forall i :: 0 <= i < |files| ==> FileClear(files[i])
    ensures var r := ParseLines(START, PrintFiles(files), maxFiles); r.Ok? && r.value.files == files
  {
    assert Queue(files, {}, maxFiles);
    FilesReadBack([], files, 0, 0, false, {}, maxFiles);
    assert [] + files == files;
  }

  lemma UnclearLosesLines(files: seq<FileDiff>, maxFiles: nat)
    requires exists i :: 0 <= i < |files| && !FileClear(files[i])
    ensures var r := ParseLines(START, PrintFiles(files), maxFiles); r.Err? || r.value.files != files
  {
    FilesBodies(files);
    if ParseLines(START, PrintFiles(files), maxFiles).Ok? {
      ParseTotal(START, PrintFiles(files), maxFiles);
    }
  }

  lemma ParseOfText(files: seq<FileDiff>, text: string, maxFiles: nat, maxBytes: nat)
    requires Printable(files, maxFiles) && text == PrintDiff(files) && Utf8Length(text) <= maxBytes
    ensures var r := ParseLines(START, PrintFiles(files), maxFiles);
            Parse(text, maxFiles, maxBytes) == Ok(ParsedDiff(files, text)) <==> r.Ok? && r.value.files == files
  {
    TextReadsBack(files, text);
  }

  /** Main result of the parser: any printable list of file diffs, printed and parsed, gives the same files, hunks,
      lines and numbers exactly when no hunk line reads as a file header. */
  lemma ParseOfPrintIff(files: seq<FileDiff>, maxFiles: nat, maxBytes: nat)
    requires Printable(files, maxFiles) && Utf8Length(PrintDiff(files)) <= maxBytes
    ensures Parse(PrintDiff(files), maxFiles, maxBytes) == Ok(ParsedDiff(files, PrintDiff(files)))
            <==> forall i :: 0 <= i < |files| ==> FileClear(files[i])
  {
    ParseOfText(files, PrintDiff(files), maxFiles, maxBytes);
    if forall i :: 0 <= i < |files| ==> FileClear(files[i]) {
      ClearReadsBack(files, maxFiles);
    } else {
      UnclearLosesLines(files, maxFiles);
    }
  }
}
