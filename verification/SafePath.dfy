/** Repository paths: normalisation, the refusals that go with it, and the file kinds that may be changed. */
module SafePath {
  import opened Wrappers
  import opened StateMachine
  import opened TextLines

  // ---- posixpath.normpath --------------------------------------------------------------------------------

  function Split(s: string, sep: char): (parts: seq<string>)
    ensures parts != [] && forall i :: 0 <= i < |parts| ==> sep !in parts[i]
  {
    if s == "" then [""]
    else
      var rest := Split(s[1..], sep);
      if s[0] == sep then [""] + rest else [[s[0]] + rest[0]] + rest[1..]
  }

  function JoinSlash(parts: seq<string>): string {
    if parts == [] then "" else if |parts| == 1 then parts[0] else parts[0] + "/" + JoinSlash(parts[1..])
  }

  /** Empty and "." components vanish; ".." takes the component before it with it, if there is one to take. */
  function Push(components: seq<string>, part: string): seq<string> {
    if part == "" || part == "." then components
    else if part != ".." || components == [] || components[|components| - 1] == ".." then components + [part]
    else components[..|components| - 1]
  }

  function Resolve(components: seq<string>, parts: seq<string>): seq<string>
    decreases |parts|
  {
    if parts == [] then components else Resolve(Push(components, parts[0]), parts[1..])
  }

  function NormPath(path: string): string {
    var components := Resolve([], Split(path, '/'));
    if components == [] then "." else JoinSlash(components)
  }

  // ---- normalize_path -------------------------------------------------------------------------------------

  function StripQuotes(s: string): string
    decreases |s|
  {
    if s != "" && s[0] == '\"' then StripQuotes(s[1..])
    else if s != "" && s[|s| - 1] == '\"' then StripQuotes(s[..|s| - 1])
    else s
  }

  function Slashes(s: string): string {
    seq(|s|, i requires 0 <= i < |s| => if s[i] == '\\' then '/' else s[i])
  }

  function Candidate(raw: string): string {
    Slashes(StripQuotes(Strip(raw)))
  }

  predicate IsLetter(c: char) {
    'a' <= c <= 'z' || 'A' <= c <= 'Z'
  }

  predicate HasDrive(s: string) {
    |s| >= 2 && IsLetter(s[0]) && s[1] == ':'
  }

  predicate HasControl(s: string) {
    exists i :: 0 <= i < |s| && s[i] < ' '
  }

  predicate Climbs(s: string) {
    exists i :: 0 <= i <= |s| && "/../" <= s[i..]
  }

  function NormalizePath(raw: string): Result<string, ErrorCode> {
    var candidate := Candidate(raw);
    if candidate == "" || HasControl(candidate) then Err(InvalidInput)
    else if candidate[0] == '/' || HasDrive(candidate) then Err(InvalidInput)
    else
      var path := NormPath(candidate);
      if path == "." || path == "" then Err(InvalidInput)
      else if "../" <= path || path == ".." then Err(InvalidInput)
      else if Climbs("/" + path + "/") then Err(InvalidInput)
      else Ok(path)
  }

  // ---- Which files may change -------------------------------------------------------------------------------

  const ALWAYS_ALLOWED: seq<string> :=
    ["requirements.txt", "pyproject.toml", "README.md", "pytest.ini", "ruff.toml", "setup.cfg"]

  predicate EndsWith(s: string, suffix: string) {
    |s| >= |suffix| && s[|s| - |suffix|..] == suffix
  }

  predicate IsPython(path: string) {
    EndsWith(path, ".py")
  }

  predicate IsAllowed(path: string) {
    path in ALWAYS_ALLOWED || IsPython(path)
  }

  function EnsureAllowed(raw: string): Result<string, ErrorCode> {
    match NormalizePath(raw)
    case Err(code) => Err(code)
    case Ok(path) => if IsAllowed(path) then Ok(path) else Err(InvalidInput)
  }

  /** The a/ and b/ prefixes of diff headers; the null device is no path at all. */
  function StripDiffPrefix(path: string): string {
    var value := Strip(path);
    if value == "/dev/null" || value == "dev/null" then ""
    else if "a/" <= value || "b/" <= value then value[2..]
    else value
  }

  // ---- A normalised path stays inside -------------------------------------------------------------------------

  predicate Plain(component: string) {
    component != "" && component != "." && '/' !in component
  }

  /** Every component is plain, and nothing but ".." stands before a "..". */
  predicate Resolved(components: seq<string>) {
    && (forall i :: 0 <= i < |components| ==> Plain(components[i]))
    && (forall i :: 0 < i < |components| && components[i] == ".." ==> components[i - 1] == "..")
  }

  lemma {:induction false} ResolveIsResolved(components: seq<string>, parts: seq<string>)
    requires Resolved(components) && forall i :: 0 <= i < |parts| ==> '/' !in parts[i]
    ensures Resolved(Resolve(components, parts))
    decreases |parts|
  {
    if parts != [] {
      assert Resolved(Push(components, parts[0]));
      ResolveIsResolved(Push(components, parts[0]), parts[1..]);
    }
  }

  lemma {:induction false} ClimbingShowsAtFront(components: seq<string>, i: nat)
    requires Resolved(components) && i < |components| && components[i] == ".."
    ensures JoinSlash(components) == ".." || "../" <= JoinSlash(components)
    decreases i
  {
    if i > 0 {
      ClimbingShowsAtFront(components, i - 1);
    }
  }

  /** An accepted path is relative and has no empty, "." or ".." component: it names something below the root. */
  lemma NormalizedStaysInside(raw: string) returns (components: seq<string>)
    requires NormalizePath(raw).Ok?
    ensures components != [] && NormalizePath(raw).value == JoinSlash(components)
    ensures forall i :: 0 <= i < |components| ==> Plain(components[i]) && components[i] != ".."
  {
    var parts := Split(Candidate(raw), '/');
    components := Resolve([], parts);
    ResolveIsResolved([], parts);
    forall i | 0 <= i < |components| ensures components[i] != ".." {
      if components[i] == ".." {
        ClimbingShowsAtFront(components, i);
      }
    }
  }

  // ---- What normalising keeps ---------------------------------------------------------------------------------

  /** Where a path leads from a directory: "..", at the root, stays there. */
  function Walk(from: seq<string>, parts: seq<string>): seq<string>
    decreases |parts|
  {
    if parts == [] then from else Walk(Enter(from, parts[0]), parts[1..])
  }

  function Enter(from: seq<string>, part: string): seq<string> {
    if part == "" || part == "." then from
    else if part == ".." then (if from == [] then [] else from[..|from| - 1])
    else from + [part]
  }

  lemma {:induction false} WalkAppend(from: seq<string>, parts: seq<string>, last: string)
    ensures Walk(from, parts + [last]) == Enter(Walk(from, parts), last)
    decreases |parts|
  {
    if parts == [] {
      assert [] + [last] == [last] && [last][1..] == [];
    } else {
      assert (parts + [last])[1..] == parts[1..] + [last];
      WalkAppend(Enter(from, parts[0]), parts[1..], last);
    }
  }

  lemma PushWalks(from: seq<string>, components: seq<string>, part: string)
    requires Resolved(components)
    ensures Walk(from, Push(components, part)) == Enter(Walk(from, components), part)
  {
    WalkAppend(from, components, part);
    if part == ".." && components != [] && components[|components| - 1] != ".." {
      var front, last := components[..|components| - 1], components[|components| - 1];
      assert components == front + [last] && Plain(last);
      WalkAppend(from, front, last);
      assert (Walk(from, front) + [last])[..|Walk(from, front)|] == Walk(from, front);
    }
  }

  lemma {:induction false} ResolveWalks(from: seq<string>, components: seq<string>, parts: seq<string>)
    requires Resolved(components) && forall i :: 0 <= i < |parts| ==> '/' !in parts[i]
    ensures Walk(from, Resolve(components, parts)) == Walk(Walk(from, components), parts)
    decreases |parts|
  {
    if parts != [] {
      assert Resolved(Push(components, parts[0]));
      PushWalks(from, components, parts[0]);
      ResolveWalks(from, Push(components, parts[0]), parts[1..]);
    }
  }

  lemma {:induction false} SplitOfPlain(part: string, rest: string)
    requires '/' !in part
    ensures Split(part, '/') == [part] && Split(part + "/" + rest, '/') == [part] + Split(rest, '/')
  {
    if part == "" {
      assert ("/" + rest)[1..] == rest && "" + "/" + rest == "/" + rest;
    } else {
      SplitOfPlain(part[1..], rest);
      assert (part + "/" + rest)[1..] == part[1..] + "/" + rest;
      assert part == [part[0]] + part[1..];
    }
  }

  lemma {:induction false} SplitOfJoin(parts: seq<string>)
    requires parts != [] && forall i :: 0 <= i < |parts| ==> '/' !in parts[i]
    ensures Split(JoinSlash(parts), '/') == parts
  {
    SplitOfPlain(parts[0], if |parts| > 1 then JoinSlash(parts[1..]) else "");
    if |parts| > 1 {
      SplitOfJoin(parts[1..]);
    }
  }

  /** Normalising refuses what is blank, has control characters, is absolute, or leads out of the directory or nowhere, and
      nothing else; what it accepts leads to the same place as the path that was given. */
  lemma NormalizeIff(raw: string, from: seq<string>)
    ensures var candidate := Candidate(raw);
            var components := Resolve([], Split(candidate, '/'));
            && (NormalizePath(raw).Ok? <==>
                  && candidate != "" && !HasControl(candidate) && candidate[0] != '/' && !HasDrive(candidate)
                  && components != [] && components[0] != "..")
            && (NormalizePath(raw).Ok? ==> NormalizePath(raw).value == JoinSlash(components)
                                           && Walk(from, Split(NormalizePath(raw).value, '/')) == Walk(from, Split(candidate, '/')))
            && (NormalizePath(raw).Err? ==> NormalizePath(raw).error == InvalidInput)
  {
    var parts := Split(Candidate(raw), '/');
    var components := Resolve([], parts);
    ResolveIsResolved([], parts);
    ResolveWalks(from, [], parts);
    if components != [] {
      SplitOfJoin(components);
      if components[0] == ".." {
        ClimbingShowsAtFront(components, 0);
      } else {
        InsideDoesNotClimb(components);
      }
    }
  }

  lemma {:induction false} InsideDoesNotClimb(components: seq<string>)
    requires Resolved(components) && components != [] && components[0] != ".."
    ensures var path := JoinSlash(components);
            path != "." && path != "" && path != ".." && !("../" <= path) && !Climbs("/" + path + "/")
  {
    var path := JoinSlash(components);
    NoneClimbs(components);
    SplitOfJoin(components);
    if "../" <= path {
      UpShowsAtFront(path);
    }
    SplitOfPlain("..", "");
    SplitOfPlain(".", "");
    if i :| 0 <= i <= |path| + 2 && "/../" <= ("/" + path + "/")[i..] {
      var j := ClimbingSplits(path, i);
    }
  }

  lemma UpShowsAtFront(path: string)
    requires "../" <= path
    ensures Split(path, '/')[0] == ".."
  {
    SplitOfPlain("..", path[3..]);
    assert path == ".." + "/" + path[3..];
  }

  lemma {:induction false} NoneClimbs(components: seq<string>)
    requires Resolved(components) && components != [] && components[0] != ".."
    ensures forall i :: 0 <= i < |components| ==> components[i] != ".."
  {
    if |components| > 1 {
      var front := components[..|components| - 1];
      NoneClimbs(front);
      forall i | 0 <= i < |components| ensures components[i] != ".." {
        assert i < |front| ==> components[i] == front[i];
        assert i > 0 ==> components[i - 1] == front[i - 1];
      }
    }
  }

  /** A path with "/../" in it, between slashes, has ".." among its components, the first one only at the very start. */
  lemma {:induction false} ClimbingSplits(path: string, i: nat) returns (j: nat)
    requires i <= |path| + 2 && "/../" <= ("/" + path + "/")[i..]
    ensures j < |Split(path, '/')| && Split(path, '/')[j] == ".." && (i > 0 ==> j > 0)
    decreases i
  {
    if i == 0 {
      ClimbAtStart(path);
      j := 0;
    } else {
      ShiftedClimb(path, i);
      var k := ClimbingSplits(path[1..], i - 1);
      if path[0] == '/' {
        j := k + 1;
      } else {
        j := k;
      }
    }
  }

  lemma ClimbAtStart(path: string)
    requires "/../" <= "/" + path + "/"
    ensures Split(path, '/')[0] == ".."
  {
    var padded := "/" + path + "/";
    assert padded[1] == '.' && padded[2] == '.' && padded[3] == '/';
    assert |path| >= 2 && path[0] == '.' && path[1] == '.';
    SplitOfPlain("..", if |path| > 2 then path[3..] else "");
    if |path| > 2 {
      assert path[2] == '/' && path == ".." + "/" + path[3..];
    } else {
      assert path == "..";
    }
  }

  lemma ShiftedClimb(path: string, i: nat)
    requires 0 < i <= |path| + 2 && "/../" <= ("/" + path + "/")[i..]
    ensures path != "" && (i == 1 ==> path[0] == '/') && i - 1 <= |path[1..]| + 2 && "/../" <= ("/" + path[1..] + "/")[i - 1..]
  {
    var padded, shorter := "/" + path + "/", "/" + path[1..] + "/";
    assert |padded[i..]| >= 4 && padded[i] == padded[i..][0] == "/../"[0];
    assert forall k :: 0 <= k < 4 ==> padded[i..][k] == "/../"[k] == padded[i + k];
    forall k | 0 <= k < 4 ensures shorter[i - 1..][k] == "/../"[k] {
      assert i - 1 + k > 0 ==> shorter[i - 1 + k] == padded[i + k];
    }
  }

  lemma {:induction false} StripQuotesKeepsHead(s: string)
    requires s != "" && s[0] != '\"'
    ensures StripQuotes(s) != "" && StripQuotes(s)[0] == s[0]
    decreases |s|
  {
    if s[|s| - 1] == '\"' {
      StripQuotesKeepsHead(s[..|s| - 1]);
    }
  }

  /** Absolute paths are refused. */
  lemma AbsoluteIsRefused(path: string)
    requires path != "" && path[0] == '/'
    ensures EnsureAllowed(path) == Err(InvalidInput)
  {
    TrimRightKeepsHead(path);
    StripQuotesKeepsHead(Strip(path));
    assert Candidate(path)[0] == '/';
  }
}
