/** Several single-line fixes to one file: planned from the highest line to the lowest, each on the text the
    previous one left, and merged into one patch. */
module LineEdits {
  import opened Wrappers
  import opened TextLines

  // ---- One fix ---------------------------------------------------------------------------------------------

  datatype Finding = Finding(line: int, secret: bool, reference: string)

  /** A recipe on the one line a finding points at; None when it does not apply. */
  type Recipe = (Finding, string) -> Option<string>

  datatype Plan = Plan(original: string, patched: string, references: seq<string>)

  predicate IsWordChar(c: char) {
    'a' <= c <= 'z' || 'A' <= c <= 'Z' || '0' <= c <= '9' || c == '_'
  }

  predicate StartsWord(s: string, word: string) {
    word <= s && (|s| == |word| || !IsWordChar(s[|word|]))
  }

  predicate ImportsOs(line: string) {
    StartsWord(TrimLeft(line), "import os") || StartsWord(TrimLeft(line), "from os import")
  }

  predicate HasOsImport(lines: seq<string>) {
    exists i :: 0 <= i < |lines| && ImportsOs(lines[i])
  }

  datatype LineKind = Header | Blank | Code

  /** Imports, comments and docstring openings are header lines. */
  function KindOf(line: string): LineKind {
    var s := Strip(line);
    if "import " <= s || "from " <= s || "'''" <= s || "\"\"\"" <= s || "#" <= s then Header
    else if s == "" then Blank
    else Code
  }

  function Kinds(lines: seq<string>): seq<LineKind> {
    seq(|lines|, i requires 0 <= i < |lines| => KindOf(lines[i]))
  }

  /** The line after the last header line that precedes all code. */
  function ImportIndex(lines: seq<string>): (n: nat)
    ensures n <= |lines|
  {
    HeaderEnd(Kinds(lines), 0, 0)
  }

  function HeaderEnd(kinds: seq<LineKind>, position: nat, index: nat): (n: nat)
    requires index <= position <= |kinds|
    ensures n <= |kinds|
    decreases |kinds| - position
  {
    if position == |kinds| then index
    else
      match kinds[position]
      case Header => HeaderEnd(kinds, position + 1, position + 1)
      case Blank => HeaderEnd(kinds, position + 1, index)
      case Code => index
  }

  method FindImportIndex(lines: seq<string>) returns (index: nat)
    ensures index == ImportIndex(lines)
  {
    index := 0;
    for position := 0 to |lines|
      invariant index <= position && HeaderEnd(Kinds(lines), position, index) == ImportIndex(lines)
    {
      var kind := KindOf(lines[position]);
      if kind == Header {
        index := position + 1;
      } else if kind == Code {
        break;
      }
    }
  }

  /** Nothing but blank lines and header lines stands above the insertion, and no header line directly below it. */
  lemma {:induction false} HeaderEndIsAfterHeaders(kinds: seq<LineKind>, position: nat, index: nat)
    requires index <= position <= |kinds|
    requires forall i :: 0 <= i < position ==> kinds[i] != Code
    requires forall i :: index <= i < position ==> kinds[i] != Header
    requires index == 0 || kinds[index - 1] == Header
    ensures var n := HeaderEnd(kinds, position, index);
            && (n == 0 || kinds[n - 1] == Header)
            && (forall i :: 0 <= i < n ==> kinds[i] != Code)
            && (n < |kinds| ==> kinds[n] != Header)
    decreases |kinds| - position
  {
    if position < |kinds| {
      match kinds[position]
      case Header => HeaderEndIsAfterHeaders(kinds, position + 1, position + 1);
      case Blank => HeaderEndIsAfterHeaders(kinds, position + 1, index);
      case Code =>
    }
  }

  function InsertAt(lines: seq<string>, n: nat, line: string): seq<string>
    requires n <= |lines|
  {
    lines[..n] + [line] + lines[n..]
  }

  /** The lines after one fix that applies at index i. */
  function Patch(lines: seq<string>, f: Finding, i: nat, line: string): seq<string>
    requires i < |lines|
  {
    var patched := lines[i := line];
    if f.secret && !HasOsImport(patched) then InsertAt(patched, ImportIndex(patched), "import os") else patched
  }

  predicate InRange(lines: seq<string>, f: Finding) {
    0 <= f.line - 1 < |lines|
  }

  function PlanFix(f: Finding, content: string, recipe: Recipe): Option<Plan> {
    var lines := Lines(content);
    if !InRange(lines, f) then None
    else
      match recipe(f, lines[f.line - 1])
      case None => None
      case Some(line) =>
        Some(Plan(content, Unlines(Patch(lines, f, f.line - 1, line), EndsWithNewline(content)), [f.reference]))
  }

  // ---- All the fixes of a file -------------------------------------------------------------------------------

  /** Before the first finding of the same or a lower line: equal lines keep their order. */
  function InsertFinding(f: Finding, fs: seq<Finding>): seq<Finding> {
    if fs == [] || fs[0].line <= f.line then [f] + fs else [fs[0]] + InsertFinding(f, fs[1..])
  }

  /** A stable sort by line, highest first. */
  function Descending(fs: seq<Finding>): seq<Finding> {
    if fs == [] then [] else InsertFinding(fs[0], Descending(fs[1..]))
  }

  function MergePlan(merged: Option<Plan>, plan: Plan): Plan {
    if merged.None? then plan
    else Plan(merged.value.original, plan.patched, merged.value.references + plan.references)
  }

  function Content(content: string, merged: Option<Plan>): string {
    if merged.Some? then merged.value.patched else content
  }

  /** One turn of the planner: a fix that does not apply, or changes nothing, is skipped. */
  function Next(content: string, merged: Option<Plan>, f: Finding, recipe: Recipe): Option<Plan> {
    var plan := PlanFix(f, Content(content, merged), recipe);
    if plan.None? || plan.value.original == plan.value.patched then merged else Some(MergePlan(merged, plan.value))
  }

  function PlanAll(content: string, merged: Option<Plan>, fs: seq<Finding>, recipe: Recipe): Option<Plan>
    decreases |fs|
  {
    if fs == [] then merged else PlanAll(content, Next(content, merged, fs[0], recipe), fs[1..], recipe)
  }

  method PlanFile(content: string, findings: seq<Finding>, recipe: Recipe) returns (merged: Option<Plan>)
    ensures merged == PlanAll(content, None, Descending(findings), recipe)
  {
    var current := content;
    merged := None;
    var sorted := Descending(findings);
    for i := 0 to |sorted|
      invariant current == Content(content, merged)
      invariant PlanAll(content, None, sorted, recipe) == PlanAll(content, merged, sorted[i..], recipe)
    {
      assert sorted[i..][0] == sorted[i] && sorted[i..][1..] == sorted[i + 1..];
      var plan := PlanFix(sorted[i], current, recipe);
      if plan.None? || plan.value.original == plan.value.patched {
        continue;
      }
      merged := Some(MergePlan(merged, plan.value));
      current := plan.value.patched;
    }
  }

  // ---- Which fixes the merged plan names ---------------------------------------------------------------------------

  /** The text after the first i fixes: one that does not apply leaves it as it is. */
  function TextAfter(content: string, fs: seq<Finding>, i: nat, recipe: Recipe): string
    requires i <= |fs|
  {
    if i == 0 then content
    else
      var text := TextAfter(content, fs, i - 1, recipe);
      match PlanFix(fs[i - 1], text, recipe)
      case None => text
      case Some(plan) => plan.patched
  }

  /** The references of those among the first i fixes that changed the text, in order. */
  function Changing(content: string, fs: seq<Finding>, i: nat, recipe: Recipe): seq<string>
    requires i <= |fs|
  {
    if i == 0 then []
    else
      Changing(content, fs, i - 1, recipe)
      + if TextAfter(content, fs, i, recipe) != TextAfter(content, fs, i - 1, recipe) then [fs[i - 1].reference] else []
  }

  /** What is merged so far comes to this text, and names these fixes. */
  predicate ComesTo(content: string, merged: Option<Plan>, text: string, references: seq<string>) {
    && Content(content, merged) == text && (merged.None? <==> references == [])
    && (merged.Some? ==> merged.value.references == references && merged.value.original == content)
  }

  lemma NextComesTo(content: string, merged: Option<Plan>, f: Finding, recipe: Recipe, text: string, references: seq<string>)
    requires ComesTo(content, merged, text, references)
    ensures var after := match PlanFix(f, text, recipe) case None => text case Some(plan) => plan.patched;
            ComesTo(content, Next(content, merged, f, recipe), after, references + if after != text then [f.reference] else [])
  {
  }

  lemma {:induction false} PlanOfPrefix(content: string, fs: seq<Finding>, i: nat, recipe: Recipe)
    requires i <= |fs|
    ensures ComesTo(content, PlanAll(content, None, fs[..i], recipe), TextAfter(content, fs, i, recipe), Changing(content, fs, i, recipe))
  {
    if i > 0 {
      PlanOfPrefix(content, fs, i - 1, recipe);
      PrefixOneMore(content, fs, i, recipe);
      NextComesTo(content, PlanAll(content, None, fs[..i - 1], recipe), fs[i - 1], recipe,
                  TextAfter(content, fs, i - 1, recipe), Changing(content, fs, i - 1, recipe));
    } else {
      NothingPlanned(content, fs[..0], recipe);
    }
  }

  lemma NothingPlanned(content: string, none: seq<Finding>, recipe: Recipe)
    requires none == []
    ensures PlanAll(content, None, none, recipe) == None
  {
  }

  lemma PrefixOneMore(content: string, fs: seq<Finding>, i: nat, recipe: Recipe)
    requires 0 < i <= |fs|
    ensures PlanAll(content, None, fs[..i], recipe) == Next(content, PlanAll(content, None, fs[..i - 1], recipe), fs[i - 1], recipe)
  {
    assert fs[..i] == fs[..i - 1] + [fs[i - 1]];
    PlanOneMore(content, None, fs[..i - 1], fs[i - 1], recipe);
  }

  lemma {:induction false} PlanOneMore(content: string, merged: Option<Plan>, fs: seq<Finding>, f: Finding, recipe: Recipe)
    ensures PlanAll(content, merged, fs + [f], recipe) == Next(content, PlanAll(content, merged, fs, recipe), f, recipe)
    decreases |fs|
  {
    if fs == [] {
      assert [] + [f] == [f] && [f][1..] == [];
    } else {
      assert (fs + [f])[0] == fs[0] && (fs + [f])[1..] == fs[1..] + [f];
      PlanOneMore(content, Next(content, merged, fs[0], recipe), fs[1..], f, recipe);
    }
  }

  /** The merged plan starts from the original, ends in the text after the last fix, and lists the references of exactly
      the fixes that changed the text, in the order in which they were made. */
  lemma PlanNamesItsFixes(content: string, findings: seq<Finding>, recipe: Recipe)
    ensures var fs := Descending(findings);
            ComesTo(content, PlanAll(content, None, fs, recipe), TextAfter(content, fs, |fs|, recipe), Changing(content, fs, |fs|, recipe))
  {
    var fs := Descending(findings);
    PlanOfPrefix(content, fs, |fs|, recipe);
    assert fs[..|fs|] == fs;
  }

  // ---- The simultaneous edit ------------------------------------------------------------------------------------

  /** One line under every finding that points at it, in the order in which they are listed. */
  function EditLine(fs: seq<Finding>, i: int, line: string, recipe: Recipe): string {
    if fs == [] then line
    else
      var next := if fs[0].line - 1 == i && recipe(fs[0], line).Some? then recipe(fs[0], line).value else line;
      EditLine(fs[1..], i, next, recipe)
  }

  function EditAt(lines: seq<string>, f: Finding, recipe: Recipe): seq<string> {
    if InRange(lines, f) && recipe(f, lines[f.line - 1]).Some?
    then lines[f.line - 1 := recipe(f, lines[f.line - 1]).value] else lines
  }

  function EditAll(lines: seq<string>, fs: seq<Finding>, recipe: Recipe): (edited: seq<string>)
    ensures |edited| == |lines|
  {
    seq(|lines|, i requires 0 <= i < |lines| => EditLine(fs, i, lines[i], recipe))
  }

  /** What the recipes do on a single line: nothing to a blank one, and what they make of another is again one
      line, not blank, and still imports os if it did. */
  ghost predicate SingleLine(recipe: Recipe) {
    forall f, line :: (line == "" ==> recipe(f, line).None?)
                      && (recipe(f, line).Some? ==>
                            var made := recipe(f, line).value;
                            made != "" && BreakFree(made) && (ImportsOs(line) ==> ImportsOs(made)))
  }

  predicate NeedsNoImport(lines: seq<string>, fs: seq<Finding>) {
    HasOsImport(lines) || forall i :: 0 <= i < |fs| ==> !fs[i].secret
  }

  lemma {:induction false} SortKeepsLineOrder(fs: seq<Finding>, i: int, line: string, recipe: Recipe)
    ensures EditLine(Descending(fs), i, line, recipe) == EditLine(fs, i, line, recipe)
  {
    if fs != [] {
      InsertKeepsLineOrder(fs[0], Descending(fs[1..]), i, line, recipe);
      var next := if fs[0].line - 1 == i && recipe(fs[0], line).Some? then recipe(fs[0], line).value else line;
      assert ([fs[0]] + Descending(fs[1..]))[1..] == Descending(fs[1..]);
      SortKeepsLineOrder(fs[1..], i, next, recipe);
    }
  }

  lemma {:induction false} InsertKeepsLineOrder(f: Finding, fs: seq<Finding>, i: int, line: string, recipe: Recipe)
    ensures EditLine(InsertFinding(f, fs), i, line, recipe) == EditLine([f] + fs, i, line, recipe)
  {
    if fs != [] && fs[0].line > f.line {
      var next := if fs[0].line - 1 == i && recipe(fs[0], line).Some? then recipe(fs[0], line).value else line;
      assert InsertFinding(f, fs)[1..] == InsertFinding(f, fs[1..]);
      InsertKeepsLineOrder(f, fs[1..], i, next, recipe);
      assert ([f] + fs)[1..] == fs && ([f] + fs[1..])[1..] == fs[1..];
      if f.line - 1 == i {
        assert next == line;
      }
    }
  }

  predicate NonIncreasing(fs: seq<Finding>) {
    forall i :: 0 <= i < |fs| - 1 ==> fs[i].line >= fs[i + 1].line
  }

  lemma {:induction false} DescendingSorts(fs: seq<Finding>)
    ensures multiset(Descending(fs)) == multiset(fs) && NonIncreasing(Descending(fs))
  {
    if fs != [] {
      DescendingSorts(fs[1..]);
      InsertKeepsMembers(fs[0], Descending(fs[1..]));
      InsertKeepsOrder(fs[0], Descending(fs[1..]));
      assert fs == [fs[0]] + fs[1..];
    }
  }

  lemma {:induction false} InsertKeepsMembers(f: Finding, fs: seq<Finding>)
    ensures multiset(InsertFinding(f, fs)) == multiset(fs) + multiset{f}
  {
    if fs != [] && fs[0].line > f.line {
      InsertKeepsMembers(f, fs[1..]);
      assert fs == [fs[0]] + fs[1..];
    }
  }

  lemma {:induction false} InsertKeepsOrder(f: Finding, fs: seq<Finding>)
    requires NonIncreasing(fs)
    ensures NonIncreasing(InsertFinding(f, fs))
  {
    if fs != [] && fs[0].line > f.line {
      InsertKeepsOrder(f, fs[1..]);
      var rest := InsertFinding(f, fs[1..]);
      assert rest[0] == f || (|fs| > 1 && rest[0] == fs[1]);
      forall i | 0 <= i < |rest| ensures ([fs[0]] + rest)[i].line >= rest[i].line {
        if i > 0 {
          assert rest[i - 1].line >= rest[i].line;
        }
      }
    }
  }

  // ---- The text a list of lines stands for ----------------------------------------------------------------------

  predicate AllBreakFree(lines: seq<string>) {
    forall i :: 0 <= i < |lines| ==> BreakFree(lines[i])
  }

  /** The text of a file whose lines are meant to be these: a blank last line may hide in the final newline. */
  predicate Shows(content: string, lines: seq<string>, newline: bool) {
    (Lines(content) == lines && EndsWithNewline(content) == newline)
    || (lines == Lines(content) + [""] && !newline && EndsWithNewline(content))
  }

  lemma UnlinesShows(lines: seq<string>, newline: bool)
    requires forall i :: 0 <= i < |lines| ==> BreakFree(lines[i])
    requires exists i :: 0 <= i < |lines| && lines[i] != ""
    ensures Shows(Unlines(lines, newline), lines, newline)
  {
    LinesOfUnlines(lines, newline);
    EndOfUnlines(lines, newline);
  }

  lemma FixOnText(f: Finding, content: string, line: string, recipe: Recipe)
    requires InRange(Lines(content), f) && recipe(f, Lines(content)[f.line - 1]) == Some(line)
    requires f.secret ==> HasOsImport(Lines(content)[f.line - 1 := line])
    ensures PlanFix(f, content, recipe) ==
              Some(Plan(content, Unlines(Lines(content)[f.line - 1 := line], EndsWithNewline(content)), [f.reference]))
  {
  }

  /** One fix, seen on the lines. */
  lemma FixOneLine(f: Finding, content: string, lines: seq<string>, newline: bool, recipe: Recipe)
    requires SingleLine(recipe) && Shows(content, lines, newline) && AllBreakFree(lines)
    requires f.secret ==> HasOsImport(lines)
    ensures PlanFix(f, content, recipe).None? <==> !(InRange(lines, f) && recipe(f, lines[f.line - 1]).Some?)
    ensures PlanFix(f, content, recipe).Some? ==>
              var edited := lines[f.line - 1 := recipe(f, lines[f.line - 1]).value];
              && PlanFix(f, content, recipe).value == Plan(content, Unlines(edited, newline), [f.reference])
              && Shows(Unlines(edited, newline), edited, newline)
  {
    var read := Lines(content);
    if InRange(read, f) && recipe(f, read[f.line - 1]).Some? {
      var i, line := f.line - 1, recipe(f, read[f.line - 1]).value;
      var edited := lines[i := line];
      StillImports(lines, f, i, line, recipe);
      if read != lines {
        assert edited == read[i := line] + [""];
        UnlinesBlankEnd(read[i := line]);
        BlankImportsNothing(read[i := line]);
      }
      FixOnText(f, content, line, recipe);
      assert edited[i] != "";
      UnlinesShows(edited, newline);
    }
  }

  lemma StillImports(lines: seq<string>, f: Finding, i: nat, line: string, recipe: Recipe)
    requires SingleLine(recipe) && i < |lines| && recipe(f, lines[i]) == Some(line)
    ensures HasOsImport(lines) ==> HasOsImport(lines[i := line])
  {
    if HasOsImport(lines) {
      var k :| 0 <= k < |lines| && ImportsOs(lines[k]);
      assert ImportsOs(lines[i := line][k]);
    }
  }

  lemma BlankImportsNothing(lines: seq<string>)
    ensures HasOsImport(lines + [""]) ==> HasOsImport(lines)
  {
    var longer := lines + [""];
    if HasOsImport(longer) {
      var k :| 0 <= k < |longer| && ImportsOs(longer[k]);
      assert k < |lines| && lines[k] == longer[k];
    }
  }

  // ---- Bottom-up patching is simultaneous editing -----------------------------------------------------------------------

  lemma EditNone(lines: seq<string>, recipe: Recipe)
    ensures EditAll(lines, [], recipe) == lines
  {
  }

  /** Editing for one finding first. */
  lemma EditFirst(lines: seq<string>, fs: seq<Finding>, recipe: Recipe)
    requires fs != []
    ensures EditAll(lines, fs, recipe) == EditAll(EditAt(lines, fs[0], recipe), fs[1..], recipe)
  {
  }

  ghost predicate Outcome(content: string, merged: Option<Plan>, lines: seq<string>, newline: bool) {
    && (merged.Some? ==> merged.value.original == content && merged.value.patched == Unlines(lines, newline))
    && Shows(Content(content, merged), lines, newline)
  }

  lemma OutcomeAfter(content: string, merged: Option<Plan>, plan: Plan, lines: seq<string>, newline: bool)
    requires plan.original == Content(content, merged) && plan.patched == Unlines(lines, newline)
    requires merged.Some? ==> merged.value.original == content
    requires Shows(plan.patched, lines, newline)
    ensures Outcome(content, if plan.original == plan.patched then merged else Some(MergePlan(merged, plan)), lines, newline)
  {
  }

  lemma EditAtKeeps(f: Finding, lines: seq<string>, recipe: Recipe)
    requires SingleLine(recipe) && AllBreakFree(lines)
    ensures AllBreakFree(EditAt(lines, f, recipe)) && (HasOsImport(lines) ==> HasOsImport(EditAt(lines, f, recipe)))
  {
    if InRange(lines, f) && recipe(f, lines[f.line - 1]).Some? {
      StillImports(lines, f, f.line - 1, recipe(f, lines[f.line - 1]).value, recipe);
    }
  }

  lemma NextOutcome(content: string, merged: Option<Plan>, f: Finding, lines: seq<string>, newline: bool, recipe: Recipe)
    requires SingleLine(recipe) && Outcome(content, merged, lines, newline) && AllBreakFree(lines)
    requires f.secret ==> HasOsImport(lines)
    ensures Outcome(content, Next(content, merged, f, recipe), EditAt(lines, f, recipe), newline)
  {
    var now := Content(content, merged);
    FixOneLine(f, now, lines, newline, recipe);
    var plan := PlanFix(f, now, recipe);
    if plan.Some? {
      OutcomeAfter(content, merged, plan.value, EditAt(lines, f, recipe), newline);
    }
  }

  lemma {:induction false} PlanAllIsEditAll(
    content: string, merged: Option<Plan>, fs: seq<Finding>, lines: seq<string>, newline: bool, recipe: Recipe)
    requires SingleLine(recipe) && Outcome(content, merged, lines, newline)
    requires NeedsNoImport(lines, fs) && AllBreakFree(lines)
    ensures Outcome(content, PlanAll(content, merged, fs, recipe), EditAll(lines, fs, recipe), newline)
    decreases |fs|
  {
    if fs == [] {
      EditNone(lines, recipe);
    } else {
      NextOutcome(content, merged, fs[0], lines, newline, recipe);
      EditAtKeeps(fs[0], lines, recipe);
      EditFirst(lines, fs, recipe);
      PlanAllIsEditAll(content, Next(content, merged, fs[0], recipe), fs[1..], EditAt(lines, fs[0], recipe), newline, recipe);
    }
  }

  /** Main result of the planner: whatever order the findings come in, and however the text ends its lines, the
      merged patch starts from the true original and is the text in which every line is edited by its own findings
      alone and no other line is touched. */
  lemma BottomUpIsSimultaneous(content: string, findings: seq<Finding>, recipe: Recipe)
    requires SingleLine(recipe) && NeedsNoImport(Lines(content), findings)
    ensures var merged := PlanAll(content, None, Descending(findings), recipe);
            var edited := EditAll(Lines(content), findings, recipe);
            && (merged.Some? ==> merged.value.original == content
                                 && merged.value.patched == Unlines(edited, EndsWithNewline(content)))
            && (merged.None? ==> edited == Lines(content))
  {
    var lines, newline := Lines(content), EndsWithNewline(content);
    DescendingSorts(findings);
    forall i | 0 <= i < |Descending(findings)| ensures Descending(findings)[i] in findings {
      assert Descending(findings)[i] in multiset(findings);
    }
    PlanAllIsEditAll(content, None, Descending(findings), lines, newline, recipe);
    forall i | 0 <= i < |lines|
      ensures EditAll(lines, Descending(findings), recipe)[i] == EditAll(lines, findings, recipe)[i]
    {
      SortKeepsLineOrder(findings, i, lines[i], recipe);
    }
    assert EditAll(lines, Descending(findings), recipe) == EditAll(lines, findings, recipe);
  }

  // ---- Inserting an import shifts the later edits ---------------------------------------------------------------------------

  /** Once "import os" has been inserted at line n, a later edit of an existing line reaches the line it was meant
      for, under every recipe, exactly when that line lies above the insertion. */
  lemma LaterEditHitsItsLineIff(lines: seq<string>, n: nat, f: Finding)
    requires n <= |lines| && InRange(lines, f)
    ensures (forall recipe: Recipe :: EditAt(InsertAt(lines, n, "import os"), f, recipe)
                                      == InsertAt(EditAt(lines, f, recipe), n, "import os"))
            <==> f.line - 1 < n
  {
    var i, longer := f.line - 1, InsertAt(lines, n, "import os");
    if i < n {
      forall recipe: Recipe
        ensures EditAt(longer, f, recipe) == InsertAt(EditAt(lines, f, recipe), n, "import os")
      {
        assert longer[i] == lines[i];
      }
    } else {
      var recipe: Recipe := (f, line) => Some(line + "!");
      assert EditAt(longer, f, recipe)[i] == longer[i] + "!";
      assert InsertAt(EditAt(lines, f, recipe), n, "import os")[i] == longer[i];
    }
  }

  lemma {:induction false} NoneHere(fs: seq<Finding>, i: int, line: string, recipe: Recipe)
    requires forall f :: f in fs ==> f.line - 1 != i
    ensures EditLine(fs, i, line, recipe) == line
  {
    if fs != [] {
      NoneHere(fs[1..], i, line, recipe);
    }
  }

  /** An edit that only one finding makes changes its line. */
  lemma {:induction false} Grown(fs: seq<Finding>, f: Finding, line: string, recipe: Recipe)
    requires forall g, l :: recipe(g, l) == if g == f then Some(l + "!") else None
    ensures |EditLine(fs, f.line - 1, line, recipe)| >= |line| + if f in fs then 1 else 0
  {
    if fs != [] {
      Grown(fs[1..], f, if fs[0] == f then line + "!" else line, recipe);
      assert f in fs ==> fs[0] == f || f in fs[1..];
    }
  }

  /** The edits that are left after the insertion reach the lines they were meant for, under every recipe, exactly when all
      that point into the longer text point above the insertion. */
  lemma RestHitsItsLinesIff(lines: seq<string>, n: nat, rest: seq<Finding>)
    requires n <= |lines|
    ensures (forall recipe: Recipe :: EditAll(InsertAt(lines, n, "import os"), rest, recipe)
                                      == InsertAt(EditAll(lines, rest, recipe), n, "import os"))
            <==> forall f :: f in rest && InRange(InsertAt(lines, n, "import os"), f) ==> f.line - 1 < n
  {
    var longer := InsertAt(lines, n, "import os");
    if f :| f in rest && InRange(longer, f) && f.line - 1 >= n {
      MissedEdit(lines, n, rest, f);
    } else {
      forall recipe: Recipe ensures EditAll(longer, rest, recipe) == InsertAt(EditAll(lines, rest, recipe), n, "import os") {
        UnshiftedEdits(lines, n, rest, recipe);
      }
    }
  }

  lemma MissedEdit(lines: seq<string>, n: nat, rest: seq<Finding>, f: Finding)
    requires n <= |lines| && f in rest && InRange(InsertAt(lines, n, "import os"), f) && f.line - 1 >= n
    ensures exists recipe: Recipe :: EditAll(InsertAt(lines, n, "import os"), rest, recipe)
                                     != InsertAt(EditAll(lines, rest, recipe), n, "import os")
  {
    var longer, k := InsertAt(lines, n, "import os"), f.line - 1;
    var recipe: Recipe := (g, l) => if g == f then Some(l + "!") else None;
    Grown(rest, f, longer[k], recipe);
    if k > n {
      OthersOnly(rest, f, k - 1, lines[k - 1], recipe);
    }
    assert EditAll(longer, rest, recipe)[k] != InsertAt(EditAll(lines, rest, recipe), n, "import os")[k];
  }

  lemma {:induction false} OthersOnly(fs: seq<Finding>, f: Finding, i: int, line: string, recipe: Recipe)
    requires f.line - 1 != i && forall g, l :: g != f ==> recipe(g, l).None?
    ensures EditLine(fs, i, line, recipe) == line
  {
    if fs != [] {
      OthersOnly(fs[1..], f, i, line, recipe);
    }
  }

  lemma UnshiftedEdits(lines: seq<string>, n: nat, rest: seq<Finding>, recipe: Recipe)
    requires n <= |lines| && forall f :: f in rest && InRange(InsertAt(lines, n, "import os"), f) ==> f.line - 1 < n
    ensures EditAll(InsertAt(lines, n, "import os"), rest, recipe) == InsertAt(EditAll(lines, rest, recipe), n, "import os")
  {
    var longer := InsertAt(lines, n, "import os");
    forall j | 0 <= j < |longer|
      ensures EditAll(longer, rest, recipe)[j] == InsertAt(EditAll(lines, rest, recipe), n, "import os")[j]
    {
      if j >= n {
        NoneHere(rest, j, longer[j], recipe);
      }
      if j > n {
        NoneHere(rest, j - 1, lines[j - 1], recipe);
      }
    }
  }

  // ---- The plan of a file whose first secret brings the import -------------------------------------------------------------

  lemma {:induction false} BlankEndsNoHeader(kinds: seq<LineKind>, position: nat, index: nat)
    requires index <= position <= |kinds|
    ensures HeaderEnd(kinds + [Blank], position, index) == HeaderEnd(kinds, position, index)
    decreases |kinds| - position
  {
    var longer := kinds + [Blank];
    if position < |kinds| {
      assert longer[position] == kinds[position];
      match kinds[position]
      case Header => BlankEndsNoHeader(kinds, position + 1, position + 1);
      case Blank => BlankEndsNoHeader(kinds, position + 1, index);
      case Code =>
    } else {
      assert longer[position] == Blank && HeaderEnd(longer, position + 1, index) == index;
    }
  }

  lemma ImportIndexBlankEnd(lines: seq<string>)
    ensures ImportIndex(lines + [""]) == ImportIndex(lines)
  {
    assert KindOf("") == Blank;
    assert Kinds(lines + [""]) == Kinds(lines) + [Blank];
    BlankEndsNoHeader(Kinds(lines), 0, 0);
  }

  lemma ImportIsALine(lines: seq<string>, n: nat)
    requires n <= |lines| && AllBreakFree(lines)
    ensures var q := InsertAt(lines, n, "import os"); HasOsImport(q) && AllBreakFree(q) && q[n] != ""
  {
    var q := InsertAt(lines, n, "import os");
    assert TrimLeft("import os") == "import os" && ImportsOs(q[n]);
  }

  /** The lines with the import line in its place. */
  function WithImport(lines: seq<string>): seq<string> {
    InsertAt(lines, ImportIndex(lines), "import os")
  }

  lemma SecretPlan(g: Finding, content: string, recipe: Recipe, line: string)
    requires g.secret && InRange(Lines(content), g) && recipe(g, Lines(content)[g.line - 1]) == Some(line)
    requires !HasOsImport(Lines(content)[g.line - 1 := line])
    ensures PlanFix(g, content, recipe) ==
              Some(Plan(content, Unlines(WithImport(Lines(content)[g.line - 1 := line]), EndsWithNewline(content)), [g.reference]))
  {
  }

  lemma BlankEndKeepsImports(lines: seq<string>)
    ensures HasOsImport(lines) ==> HasOsImport(lines + [""])
  {
    if HasOsImport(lines) {
      var i :| 0 <= i < |lines| && ImportsOs(lines[i]);
      assert ImportsOs((lines + [""])[i]);
    }
  }

  lemma SameTextBlankEnd(lines: seq<string>)
    ensures Unlines(WithImport(lines), true) == Unlines(WithImport(lines + [""]), false)
  {
    ImportIndexBlankEnd(lines);
    UnlinesBlankEnd(WithImport(lines));
    assert WithImport(lines + [""]) == WithImport(lines) + [""];
  }

  /** A secret's fix with its import, seen on the lines. */
  lemma SecretOnText(g: Finding, content: string, lines: seq<string>, newline: bool, recipe: Recipe, line: string)
    requires SingleLine(recipe) && Shows(content, lines, newline)
    requires g.secret && InRange(lines, g) && recipe(g, lines[g.line - 1]) == Some(line) && !HasOsImport(lines[g.line - 1 := line])
    ensures PlanFix(g, content, recipe) ==
              Some(Plan(content, Unlines(WithImport(lines[g.line - 1 := line]), newline), [g.reference]))
  {
    var read := Lines(content);
    if read == lines && EndsWithNewline(content) == newline {
      SecretPlan(g, content, recipe, line);
    } else {
      var patched := read[g.line - 1 := line];
      assert lines[g.line - 1 := line] == patched + [""];
      BlankEndKeepsImports(patched);
      SameTextBlankEnd(patched);
      SecretPlan(g, content, recipe, line);
    }
  }

  lemma WithImportShows(lines: seq<string>, newline: bool)
    requires AllBreakFree(lines)
    ensures var q := WithImport(lines);
            Shows(Unlines(q, newline), q, newline) && HasOsImport(q) && AllBreakFree(q)
  {
    ImportIsALine(lines, ImportIndex(lines));
    UnlinesShows(WithImport(lines), newline);
  }

  lemma {:induction false} PlanAllSplits(content: string, merged: Option<Plan>, first: seq<Finding>, second: seq<Finding>, recipe: Recipe)
    ensures PlanAll(content, merged, first + second, recipe)
            == PlanAll(content, PlanAll(content, merged, first, recipe), second, recipe)
    decreases |first|
  {
    if first == [] {
      assert first + second == second;
    } else {
      assert (first + second)[0] == first[0] && (first + second)[1..] == first[1..] + second;
      PlanAllSplits(content, Next(content, merged, first[0], recipe), first[1..], second, recipe);
    }
  }

  /** One turn for a secret that brings the import. */
  lemma SecretOutcome(content: string, merged: Option<Plan>, g: Finding, lines: seq<string>, newline: bool, recipe: Recipe, line: string)
    requires SingleLine(recipe) && Outcome(content, merged, lines, newline) && AllBreakFree(lines)
    requires g.secret && InRange(lines, g) && recipe(g, lines[g.line - 1]) == Some(line) && !HasOsImport(lines[g.line - 1 := line])
    ensures var q := WithImport(lines[g.line - 1 := line]);
            Outcome(content, Next(content, merged, g, recipe), q, newline) && HasOsImport(q) && AllBreakFree(q)
  {
    var now := Content(content, merged);
    SecretOnText(g, now, lines, newline, recipe, line);
    WithImportShows(lines[g.line - 1 := line], newline);
    OutcomeAfter(content, merged, PlanFix(g, now, recipe).value, WithImport(lines[g.line - 1 := line]), newline);
  }

  lemma {:induction false} EditsAreLines(lines: seq<string>, fs: seq<Finding>, recipe: Recipe)
    requires SingleLine(recipe) && AllBreakFree(lines)
    ensures AllBreakFree(EditAll(lines, fs, recipe))
    decreases |fs|
  {
    if fs == [] {
      EditNone(lines, recipe);
    } else {
      EditAtKeeps(fs[0], lines, recipe);
      EditFirst(lines, fs, recipe);
      EditsAreLines(EditAt(lines, fs[0], recipe), fs[1..], recipe);
    }
  }

  /** What the planner makes of a file when the first secret it fixes brings "import os" in: the findings before that one
      edit the lines of the original; all the later ones edit, by their original numbers, the lines of the longer text. With
      RestHitsItsLinesIff this says exactly when the patch is the one that was meant. */
  lemma PlanWithImport(content: string, findings: seq<Finding>, before: seq<Finding>, g: Finding, rest: seq<Finding>,
                       recipe: Recipe, line: string)
    requires SingleLine(recipe) && Descending(findings) == before + [g] + rest && forall f :: f in before ==> !f.secret
    requires var now := EditAll(Lines(content), before, recipe);
             && g.secret && InRange(now, g) && recipe(g, now[g.line - 1]) == Some(line)
             && !HasOsImport(now[g.line - 1 := line])
    ensures Outcome(content, PlanAll(content, None, Descending(findings), recipe),
                    EditAll(WithImport(EditAll(Lines(content), before, recipe)[g.line - 1 := line]), rest, recipe),
                    EndsWithNewline(content))
  {
    var lines, newline := Lines(content), EndsWithNewline(content);
    var now := EditAll(lines, before, recipe);
    var longer := WithImport(now[g.line - 1 := line]);
    PlanAllIsEditAll(content, None, before, lines, newline, recipe);
    EditsAreLines(lines, before, recipe);
    var merged := PlanAll(content, None, before, recipe);
    SecretOutcome(content, merged, g, now, newline, recipe, line);
    PlanAllIsEditAll(content, Next(content, merged, g, recipe), rest, longer, newline, recipe);
    PlanInParts(content, before, g, rest, recipe);
  }

  lemma PlanInParts(content: string, before: seq<Finding>, g: Finding, rest: seq<Finding>, recipe: Recipe)
    ensures PlanAll(content, None, before + [g] + rest, recipe)
            == PlanAll(content, Next(content, PlanAll(content, None, before, recipe), g, recipe), rest, recipe)
  {
    PlanAllSplits(content, None, before, [g] + rest, recipe);
    assert before + [g] + rest == before + ([g] + rest) && ([g] + rest)[1..] == rest;
  }

  /** The planner's own insertion does it: fixing a secret on line 2 moves the fix meant for line 1 to the new
      import line, and line 1 keeps its defect. */
  lemma {:induction false} ImportShiftsLaterEdit(recipe: Recipe)
    requires recipe(Finding(2, true, "secret"), "b") == Some("c")
    requires recipe(Finding(1, false, "shell"), "a") == Some("d") && recipe(Finding(1, false, "shell"), "import os").None?
    ensures var content, findings := Unlines(["a", "b"], true), [Finding(1, false, "shell"), Finding(2, true, "secret")];
            && PlanAll(content, None, Descending(findings), recipe)
               == Some(Plan(content, Unlines(["import os", "a", "c"], true), ["secret"]))
            && EditAll(Lines(content), findings, recipe) == ["d", "c"]
  {
    var f, g := Finding(1, false, "shell"), Finding(2, true, "secret");
    var before, after := ["a", "b"], ["import os", "a", "c"];
    assert Descending([g]) == [g] && [f, g][1..] == [g];
    assert Descending([f, g]) == InsertFinding(f, [g]) == [g, f];
    LinesOfUnlines(before, true);
    LinesOfUnlines(after, true);
    EndOfUnlines(before, true);
    PatchOfTwo(g);
    OnlyTheFirstApplies(Unlines(before, true), Unlines(after, true), g, f, recipe);
    BothApply(f, g, "a", "b", "d", "c", recipe);
  }

  lemma OnlyTheFirstApplies(content: string, patched: string, g: Finding, f: Finding, recipe: Recipe)
    requires content != patched && PlanFix(g, content, recipe) == Some(Plan(content, patched, [g.reference]))
    requires PlanFix(f, patched, recipe).None?
    ensures PlanAll(content, None, [g, f], recipe) == Some(Plan(content, patched, [g.reference]))
  {
    var merged := Some(Plan(content, patched, [g.reference]));
    assert [g, f][1..] == [f] && [f][1..] == [];
    assert PlanAll(content, merged, [f], recipe) == PlanAll(content, merged, [], recipe) == merged;
  }

  lemma BothApply(f: Finding, g: Finding, a: string, b: string, d: string, c: string, recipe: Recipe)
    requires f.line == 1 && g.line == 2 && recipe(f, a) == Some(d) && recipe(g, b) == Some(c)
    ensures EditAll([a, b], [f, g], recipe) == [d, c]
  {
    EditFirst([a, b], [f, g], recipe);
    EditFirst([d, b], [g], recipe);
    EditNone([d, c], recipe);
    assert [f, g][1..] == [g] && [g][1..] == [];
    assert [a, b][0 := d] == [d, b] && [d, b][1 := c] == [d, c];
  }

  lemma PatchOfTwo(g: Finding)
    requires g.secret
    ensures Patch(["a", "b"], g, 1, "c") == ["import os", "a", "c"]
  {
    assert ["a", "b"][1 := "c"] == ["a", "c"];
    assert Strip("a") == TrimLeft("a") == "a" && Strip("c") == TrimLeft("c") == "c";
    assert !HasOsImport(["a", "c"]) && ImportIndex(["a", "c"]) == 0;
    assert InsertAt(["a", "c"], 0, "import os") == ["import os", "a", "c"];
  }
}
