/** The lines of a diff that carry no change: metadata between a file's header and its hunks, and the notes about a missing
    newline inside them. Wherever they are allowed they make no difference. */
module DiffMeta {
  import opened Wrappers
  import opened StateMachine
  import opened TextLines
  import opened SafePath
  import opened DiffParse
  import opened DiffRoundTrip

  /** What git writes between the header of a file and its first hunk, blank lines included. */
  datatype Meta =
    | Index(rest: string)
    | NewFileMode(rest: string)
    | DeletedFileMode(rest: string)
    | SimilarityIndex(rest: string)
    | Rename(rest: string)
    | BlankLine(spaces: string)

  function MetaLine(m: Meta): string {
    match m
    case Index(rest) => "index " + rest
    case NewFileMode(rest) => "new file mode" + rest
    case DeletedFileMode(rest) => "deleted file mode" + rest
    case SimilarityIndex(rest) => "similarity index" + rest
    case Rename(rest) => "rename " + rest
    case BlankLine(spaces) => spaces
  }

  predicate MetaOk(m: Meta) {
    m.BlankLine? ==> forall i :: 0 <= i < |m.spaces| ==> IsSpace(m.spaces[i])
  }

  /** A line of a diff, or one of the lines that carry no change; a note is the line about a missing newline. */
  datatype Piece = Real(line: string) | Head(meta: Meta) | Note(rest: string)

  function LineOf(p: Piece): string {
    match p
    case Real(line) => line
    case Head(m) => MetaLine(m)
    case Note(rest) => "\\" + rest
  }

  function Shown(pieces: seq<Piece>): (lines: seq<string>)
    ensures |lines| == |pieces| && forall i :: 0 <= i < |pieces| ==> lines[i] == LineOf(pieces[i])
  {
    if pieces == [] then [] else [LineOf(pieces[0])] + Shown(pieces[1..])
  }

  /** The same lines without those that carry no change. */
  function Plain(pieces: seq<Piece>): seq<string> {
    if pieces == [] then [] else (if pieces[0].Real? then [pieces[0].line] else []) + Plain(pieces[1..])
  }

  /** Whether the lines after this one stand inside a hunk. */
  predicate InsideAfter(inside: bool, line: string) {
    if "diff --git " <= line then false else inside || "@@" <= line
  }

  /** Metadata stands outside the hunks and notes inside them. */
  predicate Placed(pieces: seq<Piece>, inside: bool)
    decreases |pieces|
  {
    pieces == [] ||
    match pieces[0]
    case Real(line) => Placed(pieces[1..], InsideAfter(inside, line))
    case Head(m) => !inside && MetaOk(m) && Placed(pieces[1..], inside)
    case Note(_) => inside && Placed(pieces[1..], inside)
  }

  // ---- They are invisible ------------------------------------------------------------------------------------------

  lemma {:induction false} SpacesAreBlank(s: string)
    requires forall i :: 0 <= i < |s| ==> IsSpace(s[i])
    ensures TrimLeft(s) == "" && Strip(s) == ""
  {
    if s != "" {
      SpacesAreBlank(s[1..]);
    }
  }

  lemma MetaStarts(m: Meta)
    requires MetaOk(m)
    ensures var line := MetaLine(m);
            line == "" || IsSpace(line[0]) || line[0] == 'i' || line[0] == 'n' || line[0] == 's' || line[0] == 'r'
            || (|line| > 1 && line[0] == 'd' && line[1] == 'e')
  {
  }

  /** Metadata outside a hunk leaves the parser as it is. */
  lemma MetaIsInvisible(s: State, m: Meta, maxFiles: nat)
    requires MetaOk(m) && !CanTakeLine(s)
    ensures Step(s, MetaLine(m), maxFiles) == Ok(s)
  {
    var line := MetaLine(m);
    MetaStarts(m);
    assert "diff --git "[1] == 'i' && "--- "[0] == '-' && "+++ "[0] == '+' && "@@"[0] == '@';
    match m
    case Index(rest) => Prefix("index ", rest);
    case NewFileMode(rest) => Prefix("new file mode", rest);
    case DeletedFileMode(rest) => Prefix("deleted file mode", rest);
    case SimilarityIndex(rest) => Prefix("similarity index", rest);
    case Rename(rest) => Prefix("rename ", rest);
    case BlankLine(spaces) => SpacesAreBlank(spaces);
  }

  /** So does the note about a missing newline inside one. */
  lemma NoteIsInvisible(s: State, rest: string, maxFiles: nat)
    requires CanTakeLine(s)
    ensures Step(s, "\\" + rest, maxFiles) == Ok(s)
  {
    var line := "\\" + rest;
    assert line[0] == '\\';
  }

  lemma InsideStep(s: State, line: string, maxFiles: nat)
    requires Step(s, line, maxFiles).Ok?
    ensures CanTakeLine(Step(s, line, maxFiles).value) <==> InsideAfter(CanTakeLine(s), line)
  {
    if "@@" <= line {
      assert line[0] == '@';
    }
    if "--- " <= line {
      assert line[0] == '-';
    }
    if "+++ " <= line {
      assert line[0] == '+';
    }
  }

  /** From every state of the parser, a text with metadata and notes where they belong parses like the text without. */
  lemma {:induction false} ExtrasAreInvisible(s: State, pieces: seq<Piece>, maxFiles: nat)
    requires Placed(pieces, CanTakeLine(s))
    ensures ParseLines(s, Shown(pieces), maxFiles) == ParseLines(s, Plain(pieces), maxFiles)
    decreases |pieces|
  {
    if pieces != [] {
      var shown, plain := Shown(pieces[1..]), Plain(pieces[1..]);
      var line := LineOf(pieces[0]);
      assert Shown(pieces) == [line] + shown && Plain(pieces) == if pieces[0].Real? then [line] + plain else plain;
      match pieces[0] {
        case Real(_) =>
          if Step(s, line, maxFiles).Ok? {
            InsideStep(s, line, maxFiles);
            FirstStep(s, line, shown, maxFiles);
            FirstStep(s, line, plain, maxFiles);
            ExtrasAreInvisible(Step(s, line, maxFiles).value, pieces[1..], maxFiles);
          }
        case Head(m) =>
          MetaIsInvisible(s, m, maxFiles);
          FirstStep(s, line, shown, maxFiles);
          ExtrasAreInvisible(s, pieces[1..], maxFiles);
        case Note(rest) =>
          NoteIsInvisible(s, rest, maxFiles);
          FirstStep(s, line, shown, maxFiles);
          ExtrasAreInvisible(s, pieces[1..], maxFiles);
      }
    }
  }

  // ---- And nothing else is let through ------------------------------------------------------------------------------

  /** A line that no header rule of the parser takes. */
  predicate NoHeader(s: State, line: string) {
    && !("diff --git " <= line) && !("@@" <= line)
    && (s.files != [] ==> !("--- " <= line) && !("+++ " <= line))
  }

  function Rest(prefix: string, line: string): (rest: string)
    requires prefix <= line
    ensures prefix + rest == line
  {
    line[|prefix|..]
  }

  lemma {:induction false} BlankIsSpaces(s: string)
    requires Strip(s) == ""
    ensures forall i :: 0 <= i < |s| ==> IsSpace(s[i])
  {
    if s != "" {
      if IsSpace(s[0]) {
        BlankIsSpaces(s[1..]);
        assert forall i :: 0 < i < |s| ==> s[i] == s[1..][i - 1];
      } else {
        TrimRightKeepsHead(s);
      }
    }
  }

  /** Outside the hunks only metadata is let through, and it is let through without effect; anything else is refused. */
  lemma OutsideOnlyMeta(s: State, line: string, maxFiles: nat)
    requires !CanTakeLine(s) && NoHeader(s, line)
    ensures Step(s, line, maxFiles) == Ok(s) <==> exists m :: MetaOk(m) && MetaLine(m) == line
    ensures Step(s, line, maxFiles) != Ok(s) ==> Step(s, line, maxFiles) == Err(InvalidInput)
  {
    if Step(s, line, maxFiles) == Ok(s) {
      if "index " <= line {
        assert MetaLine(Index(Rest("index ", line))) == line;
      } else if "new file mode" <= line {
        assert MetaLine(NewFileMode(Rest("new file mode", line))) == line;
      } else if "deleted file mode" <= line {
        assert MetaLine(DeletedFileMode(Rest("deleted file mode", line))) == line;
      } else if "similarity index" <= line {
        assert MetaLine(SimilarityIndex(Rest("similarity index", line))) == line;
      } else if "rename " <= line {
        assert MetaLine(Rename(Rest("rename ", line))) == line;
      } else {
        BlankIsSpaces(line);
        assert MetaLine(BlankLine(line)) == line;
      }
    }
    if m :| MetaOk(m) && MetaLine(m) == line {
      MetaIsInvisible(s, m, maxFiles);
    }
  }

  /** Inside a hunk a line is empty or starts with a space, a plus, a minus or a backslash; anything else is refused. */
  lemma InsideOnlyBody(s: State, line: string, maxFiles: nat)
    requires CanTakeLine(s) && NoHeader(s, line)
    ensures Step(s, line, maxFiles).Ok? <==> line == "" || line[0] == ' ' || line[0] == '+' || line[0] == '-' || line[0] == '\\'
    ensures Step(s, line, maxFiles).Err? ==> Step(s, line, maxFiles).error == InvalidInput
    ensures line == "" ==> Step(s, line, maxFiles) == Step(s, " ", maxFiles)
  {
    var space := " ";
    assert space[0] == ' ' && space[1..] == "";
  }

  // ---- The round trip with them ----------------------------------------------------------------------------------------

  lemma {:induction false} PlainLineShows(pieces: seq<Piece>, line: string)
    requires line in Plain(pieces)
    ensures line in Shown(pieces)
  {
    if pieces[0].Real? && pieces[0].line == line {
      assert Shown(pieces)[0] == line;
    } else {
      PlainLineShows(pieces[1..], line);
      assert Shown(pieces)[1..] == Shown(pieces[1..]);
    }
  }

  lemma {:induction false} JoinHolds(lines: seq<string>, line: string, c: char)
    requires line in lines && c in line
    ensures c in Join(lines)
  {
    if line != lines[0] {
      JoinHolds(lines[1..], line, c);
    }
  }

  lemma {:induction false} NotAllBlank(s: string, c: char)
    requires c in s && !IsSpace(c)
    ensures Strip(s) != ""
  {
    if IsSpace(s[0]) {
      NotAllBlank(s[1..], c);
    } else {
      TrimRightKeepsHead(s);
    }
  }

  lemma DecoratedText(files: seq<FileDiff>, pieces: seq<Piece>, text: string)
    requires files != [] && Plain(pieces) == PrintFiles(files) && AllBreakFree(Shown(pieces)) && text == Unlines(Shown(pieces), true)
    ensures Strip(text) != "" && Lines(text) == Shown(pieces)
  {
    var line := PrintGitLine(files[0]);
    FirstLine(files);
    GitLineStarts(files[0]);
    assert PrintFiles(files)[0] in Plain(pieces);
    PlainLineShows(pieces, line);
    assert line[0] in line;
    JoinHolds(Shown(pieces), line, 'd');
    NotAllBlank(text, 'd');
    LinesReadBack(Shown(pieces));
  }

  lemma DecoratedParse(files: seq<FileDiff>, pieces: seq<Piece>, text: string, maxFiles: nat, maxBytes: nat)
    requires Printable(files, maxFiles) && Plain(pieces) == PrintFiles(files) && Placed(pieces, false)
    requires AllBreakFree(Shown(pieces)) && text == Unlines(Shown(pieces), true) && Utf8Length(text) <= maxBytes
    ensures var r := ParseLines(START, PrintFiles(files), maxFiles);
            Parse(text, maxFiles, maxBytes) == Ok(ParsedDiff(files, text)) <==> r.Ok? && r.value.files == files
  {
    DecoratedText(files, pieces, text);
    ExtrasAreInvisible(START, pieces, maxFiles);
  }

  /** Any printable list of file diffs, printed with any metadata and any notes where they belong, parses to the same
      files, hunks, lines and numbers exactly when no hunk line reads as a file header. */
  lemma ParseOfDecoratedIff(files: seq<FileDiff>, pieces: seq<Piece>, maxFiles: nat, maxBytes: nat)
    requires Printable(files, maxFiles) && Plain(pieces) == PrintFiles(files) && Placed(pieces, false)
    requires AllBreakFree(Shown(pieces)) && Utf8Length(Unlines(Shown(pieces), true)) <= maxBytes
    ensures Parse(Unlines(Shown(pieces), true), maxFiles, maxBytes) == Ok(ParsedDiff(files, Unlines(Shown(pieces), true)))
            <==> forall i :: 0 <= i < |files| ==> FileClear(files[i])
  {
    DecoratedParse(files, pieces, Unlines(Shown(pieces), true), maxFiles, maxBytes);
    if forall i :: 0 <= i < |files| ==> FileClear(files[i]) {
      ClearReadsBack(files, maxFiles);
    } else {
      UnclearLosesLines(files, maxFiles);
    }
  }
}
