/** The workspace of a diff: each file rebuilt from the lines its hunks leave in the new version. */
module Rebuild {
  import opened Wrappers
  import opened TextLines
  import opened DiffParse

  // ---- The lines of the new file --------------------------------------------------------------------------

  predicate Shown(l: HunkLine) {
    !l.origin.Removed? && l.newNo.Some?
  }

  /** The first n lines of a hunk written over what earlier hunks gave. */
  function MergeLines(m: map<nat, string>, lines: seq<HunkLine>, n: nat): map<nat, string>
    requires n <= |lines|
  {
    if n == 0 then m
    else
      var before := MergeLines(m, lines, n - 1);
      if Shown(lines[n - 1]) then before[lines[n - 1].newNo.value := lines[n - 1].content] else before
  }

  function MergeHunks(hunks: seq<Hunk>, n: nat): map<nat, string>
    requires n <= |hunks|
  {
    if n == 0 then map[] else MergeLines(MergeHunks(hunks, n - 1), hunks[n - 1].lines, |hunks[n - 1].lines|)
  }

  /** Line number to content, over all hunks of a file. */
  function PostImage(f: FileDiff): map<nat, string> {
    MergeHunks(f.hunks, |f.hunks|)
  }

  predicate IsAdded(f: FileDiff, i: nat, j: nat)
    requires i < |f.hunks| && j < |f.hunks[i].lines|
  {
    f.hunks[i].lines[j].origin.Added? && f.hunks[i].lines[j].newNo.Some?
  }

  function ChangedLines(f: FileDiff): set<nat> {
    set i, j | 0 <= i < |f.hunks| && 0 <= j < |f.hunks[i].lines| && IsAdded(f, i, j) :: f.hunks[i].lines[j].newNo.value
  }

  method PostImageLines(f: FileDiff) returns (merged: map<nat, string>)
    ensures merged == PostImage(f)
  {
    merged := map[];
    for i := 0 to |f.hunks|
      invariant merged == MergeHunks(f.hunks, i)
    {
      var lines := f.hunks[i].lines;
      for j := 0 to |lines|
        invariant merged == MergeLines(MergeHunks(f.hunks, i), lines, j)
      {
        if Shown(lines[j]) {
          merged := merged[lines[j].newNo.value := lines[j].content];
        }
      }
    }
  }

  // ---- The rebuilt text -------------------------------------------------------------------------------------

  predicate IsMax(post: map<nat, string>, m: nat) {
    m in post && forall k :: k in post ==> k <= m
  }

  /** Lines 1 to max; what the image does not give is blank. */
  function Buffer(post: map<nat, string>, max: nat): (lines: seq<string>)
    ensures |lines| == max
  {
    seq(max, i requires 0 <= i < max => if i + 1 in post then post[i + 1] else "")
  }

  function Terminated(text: string): string {
    if text != "" && !EndsWithNewline(text) then text + "\n" else text
  }

  method MaxLine(post: map<nat, string>) returns (m: nat)
    requires post != map[]
    ensures IsMax(post, m)
  {
    var todo := post.Keys;
    m :| m in todo;
    while todo != {}
      invariant todo <= post.Keys && m in post
      invariant forall k :: k in post && k !in todo ==> k <= m
      decreases todo
    {
      var k :| k in todo;
      todo := todo - {k};
      if k > m {
        m := k;
      }
    }
  }

  /** The text of a rebuilt file, filled in by line number. */
  method RebuildText(f: FileDiff) returns (text: string)
    ensures PostImage(f) == map[] ==> text == ""
    ensures PostImage(f) != map[] ==> exists max :: IsMax(PostImage(f), max) && text == Terminated(Join(Buffer(PostImage(f), max)))
  {
    var post := PostImageLines(f);
    if post == map[] {
      return "";
    }
    var max := MaxLine(post);
    var buffer := new string[max + 1](_ => "");
    var todo := post.Keys;
    while todo != {}
      invariant todo <= post.Keys
      invariant forall k :: 0 <= k <= max ==> buffer[k] == if k in post && k !in todo then post[k] else ""
      decreases todo
    {
      var k :| k in todo;
      buffer[k] := post[k];
      todo := todo - {k};
    }
    assert buffer[1..] == Buffer(post, max);
    text := Terminated(Join(buffer[1..]));
  }

  // ---- Which line is where -------------------------------------------------------------------------------------

  function Length(h: Hunk): nat {
    NewBefore(h.lines, |h.lines|)
  }

  /** The numbers of a hunk's new lines are its start and the numbers after it, without gap or repeat. */
  lemma {:induction false} LinesMerged(m: map<nat, string>, h: Hunk, n: nat)
    requires Numbered(h) && n <= |h.lines|
    ensures forall x :: x in MergeLines(m, h.lines, n) <==> x in m || h.newStart <= x < h.newStart + NewBefore(h.lines, n)
    ensures forall x :: x in m && !(h.newStart <= x < h.newStart + NewBefore(h.lines, n)) ==>
              MergeLines(m, h.lines, n)[x] == m[x]
    ensures forall j :: 0 <= j < n && Shown(h.lines[j]) ==>
              h.newStart <= h.lines[j].newNo.value < h.newStart + NewBefore(h.lines, n)
              && MergeLines(m, h.lines, n)[h.lines[j].newNo.value] == h.lines[j].content
  {
    if n > 0 {
      LinesMerged(m, h, n - 1);
      assert NumberedAt(h, n - 1);
    }
  }

  predicate Apart(a: Hunk, b: Hunk) {
    a.newStart + Length(a) <= b.newStart || b.newStart + Length(b) <= a.newStart
  }

  /** Numbered hunks that start at line 1 or later and do not overlap. */
  ghost predicate Disjoint(f: FileDiff) {
    && AllNumbered(f)
    && (forall i :: 0 <= i < |f.hunks| ==> f.hunks[i].newStart >= 1)
    && (forall i, j :: 0 <= i < j < |f.hunks| ==> Apart(f.hunks[i], f.hunks[j]))
  }

  predicate Covers(h: Hunk, x: nat) {
    h.newStart <= x < h.newStart + Length(h)
  }

  predicate LineAt(m: map<nat, string>, l: HunkLine) {
    Shown(l) ==> l.newNo.value in m && m[l.newNo.value] == l.content
  }

  lemma HunkMerged(m: map<nat, string>, h: Hunk)
    requires Numbered(h)
    ensures var r := MergeLines(m, h.lines, |h.lines|);
            && (forall x :: x in r <==> x in m || Covers(h, x))
            && (forall x :: x in m && !Covers(h, x) ==> r[x] == m[x])
            && (forall j :: 0 <= j < |h.lines| ==> LineAt(r, h.lines[j]))
            && (forall j :: 0 <= j < |h.lines| && Shown(h.lines[j]) ==> Covers(h, h.lines[j].newNo.value))
  {
    LinesMerged(m, h, |h.lines|);
  }

  lemma {:induction false} HunksMerged(f: FileDiff, n: nat)
    requires Disjoint(f) && n <= |f.hunks|
    ensures forall x :: x in MergeHunks(f.hunks, n) <==> exists i :: 0 <= i < n && Covers(f.hunks[i], x)
    ensures forall i, j :: 0 <= i < n && 0 <= j < |f.hunks[i].lines| ==>
              LineAt(MergeHunks(f.hunks, n), f.hunks[i].lines[j])
  {
    if n > 0 {
      var h, m := f.hunks[n - 1], MergeHunks(f.hunks, n - 1);
      HunksMerged(f, n - 1);
      HunkMerged(m, h);
      forall i, j | 0 <= i < n && 0 <= j < |f.hunks[i].lines|
        ensures LineAt(MergeHunks(f.hunks, n), f.hunks[i].lines[j])
      {
        if i < n - 1 {
          HunkMerged(map[], f.hunks[i]);
          assert Apart(f.hunks[i], h);
        }
      }
    }
  }

  /** Post-image numbers are distinct, and the image holds exactly the lines the hunks show. */
  lemma PostImageIsTheHunks(f: FileDiff)
    requires Disjoint(f)
    ensures forall x :: x in PostImage(f) <==> exists i :: 0 <= i < |f.hunks| && Covers(f.hunks[i], x)
    ensures forall i, j :: 0 <= i < |f.hunks| && 0 <= j < |f.hunks[i].lines| ==> LineAt(PostImage(f), f.hunks[i].lines[j])
  {
    HunksMerged(f, |f.hunks|);
  }

  // ---- The rebuilt file ---------------------------------------------------------------------------------------

  predicate OneLineEach(h: Hunk) {
    forall j :: 0 <= j < |h.lines| ==> BreakFree(h.lines[j].content)
  }

  predicate OneLineContents(f: FileDiff) {
    forall i :: 0 <= i < |f.hunks| ==> OneLineEach(f.hunks[i])
  }

  predicate ImageIsLines(m: map<nat, string>) {
    forall x :: x in m ==> BreakFree(m[x])
  }

  lemma {:induction false} MergedLinesAreLines(m: map<nat, string>, h: Hunk, n: nat)
    requires OneLineEach(h) && n <= |h.lines| && ImageIsLines(m)
    ensures ImageIsLines(MergeLines(m, h.lines, n))
  {
    if n > 0 {
      MergedLinesAreLines(m, h, n - 1);
    }
  }

  lemma {:induction false} MergedAreLines(f: FileDiff, n: nat)
    requires OneLineContents(f) && n <= |f.hunks|
    ensures ImageIsLines(MergeHunks(f.hunks, n))
  {
    if n > 0 {
      MergedAreLines(f, n - 1);
      MergedLinesAreLines(MergeHunks(f.hunks, n - 1), f.hunks[n - 1], |f.hunks[n - 1].lines|);
    }
  }

  /** A text joined from lines and terminated shows those lines again exactly when the last one is not blank; a
      blank last line is lost. */
  lemma TerminatedShowsIff(lines: seq<string>)
    requires lines != [] && forall i :: 0 <= i < |lines| ==> BreakFree(lines[i])
    ensures Lines(Terminated(Join(lines))) == lines <==> lines[|lines| - 1] != ""
    ensures lines[|lines| - 1] == "" ==> Lines(Terminated(Join(lines))) + [""] == lines
  {
    var text := Join(lines);
    assert text == Unlines(lines, false) && text + "\n" == Unlines(lines, true);
    EndOfUnlines(lines, false);
    JoinEmpty(lines, false);
    LinesOfUnlines(lines, false);
    LinesOfUnlines(lines, true);
  }

  predicate LineInPlace(lines: seq<string>, l: HunkLine) {
    Shown(l) ==> 1 <= l.newNo.value <= |lines| && lines[l.newNo.value - 1] == l.content
  }

  ghost predicate Uncovered(f: FileDiff, x: nat) {
    forall i :: 0 <= i < |f.hunks| ==> !Covers(f.hunks[i], x)
  }

  /** Every post-image line n is the n-th line, and lines no hunk covers are blank. */
  ghost predicate IsRebuilt(f: FileDiff, lines: seq<string>) {
    && (forall i, j :: 0 <= i < |f.hunks| && 0 <= j < |f.hunks[i].lines| ==> LineInPlace(lines, f.hunks[i].lines[j]))
    && (forall x :: 0 <= x < |lines| && Uncovered(f, x + 1) ==> lines[x] == "")
  }

  lemma MaxIsPositive(f: FileDiff, max: nat)
    requires Disjoint(f) && IsMax(PostImage(f), max)
    ensures max >= 1
  {
    PostImageIsTheHunks(f);
    var k :| 0 <= k < |f.hunks| && Covers(f.hunks[k], max);
  }

  lemma ShownLineInPlace(f: FileDiff, max: nat, i: nat, j: nat)
    requires Disjoint(f) && IsMax(PostImage(f), max) && i < |f.hunks| && j < |f.hunks[i].lines|
    ensures LineInPlace(Buffer(PostImage(f), max), f.hunks[i].lines[j])
  {
    var l := f.hunks[i].lines[j];
    if Shown(l) {
      PostImageIsTheHunks(f);
      assert LineAt(PostImage(f), l);
      HunkMerged(map[], f.hunks[i]);
      assert f.hunks[i].newStart <= l.newNo.value;
    }
  }

  lemma UncoveredIsBlank(f: FileDiff, max: nat, x: nat)
    requires Disjoint(f) && x < max && Uncovered(f, x + 1)
    ensures Buffer(PostImage(f), max)[x] == ""
  {
    PostImageIsTheHunks(f);
  }

  lemma BufferIsRebuilt(f: FileDiff, max: nat)
    requires Disjoint(f) && IsMax(PostImage(f), max)
    ensures max >= 1 && IsRebuilt(f, Buffer(PostImage(f), max))
  {
    MaxIsPositive(f, max);
    var lines := Buffer(PostImage(f), max);
    forall i, j | 0 <= i < |f.hunks| && 0 <= j < |f.hunks[i].lines| ensures LineInPlace(lines, f.hunks[i].lines[j]) {
      ShownLineInPlace(f, max, i, j);
    }
    forall x | 0 <= x < |lines| && Uncovered(f, x + 1) ensures lines[x] == "" {
      UncoveredIsBlank(f, max, x);
    }
  }

  lemma BufferIsLines(f: FileDiff, max: nat)
    requires OneLineContents(f)
    ensures forall i :: 0 <= i < max ==> BreakFree(Buffer(PostImage(f), max)[i])
  {
    MergedAreLines(f, |f.hunks|);
  }

  /** Main result of the rebuild, for numbered hunks that do not overlap: the rebuilt file has the post-image line n
      as its n-th line and blanks elsewhere, up to the highest line, exactly when that highest line is not blank. A
      blank one is lost. */
  lemma RebuiltIff(f: FileDiff, max: nat, text: string)
    requires Disjoint(f) && OneLineContents(f) && IsMax(PostImage(f), max)
    requires text == Terminated(Join(Buffer(PostImage(f), max)))
    ensures |Lines(text)| == max && IsRebuilt(f, Lines(text)) <==> PostImage(f)[max] != ""
    ensures PostImage(f)[max] == "" ==> |Lines(text)| == max - 1
  {
    var lines := Buffer(PostImage(f), max);
    BufferIsRebuilt(f, max);
    BufferIsLines(f, max);
    assert lines[max - 1] == PostImage(f)[max];
    TerminatedShowsIff(lines);
  }

  /** Every changed line is an added line, and the rebuilt file has it at that number. */
  lemma ChangedLinesAreAdded(f: FileDiff, max: nat, text: string, n: nat) returns (i: nat, j: nat)
    requires Disjoint(f) && OneLineContents(f) && IsMax(PostImage(f), max) && PostImage(f)[max] != ""
    requires text == Terminated(Join(Buffer(PostImage(f), max))) && n in ChangedLines(f)
    ensures i < |f.hunks| && j < |f.hunks[i].lines| && f.hunks[i].lines[j].origin.Added?
    ensures 1 <= n <= |Lines(text)| && Lines(text)[n - 1] == f.hunks[i].lines[j].content
  {
    RebuiltIff(f, max, text);
    i, j :| 0 <= i < |f.hunks| && 0 <= j < |f.hunks[i].lines| && IsAdded(f, i, j) && f.hunks[i].lines[j].newNo.value == n;
    assert LineInPlace(Lines(text), f.hunks[i].lines[j]);
  }
}
