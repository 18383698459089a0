/** The SQL recipe: an expression that builds a query by concatenation, %-formatting, an f-string or
    str.format becomes a query text with placeholders and a tuple of parameters. */
module SqlRewrite {
  import opened Wrappers
  import opened Formatting
  import opened BraceFormatting
  import opened Occurrences

  // ---- Expressions ---------------------------------------------------------------------------------------

  datatype Piece = Constant(text: string) | Formatted(value: Operand, conversion: Conversion, spec: string)

  /** The right side of %: the elements of a tuple display, or one operand of any other kind. */
  datatype Right = Display(values: seq<Operand>) | Sole(value: Operand)

  function ValuesOf(right: Right): seq<Operand> {
    match right
    case Display(values) => values
    case Sole(value) => [value]
  }

  /** Value is any name, attribute, subscript, plain call, or binary operation other than + and %. */
  datatype Expr =
    | Str(text: string)
    | Add(left: Expr, right: Expr)
    | Mod(format: Expr, operands: Right)
    | FString(pieces: seq<Piece>)
    | Format(receiver: Expr, args: seq<Operand>, keywords: map<string, Operand>)
    | MethodCall
    | Value(op: Operand)
    | Other

  datatype Rewritten = Rewritten(sql: string, params: string)

  // ---- Text helpers of the recipe ----------------------------------------------------------------------

  function LowerChar(c: char): char {
    if 'A' <= c <= 'Z' then c + 32 as char else c
  }

  function Lower(s: string): string {
    seq(|s|, i requires 0 <= i < |s| => LowerChar(s[i]))
  }

  predicate Contains(s: string, word: string) {
    exists i :: 0 <= i <= |s| && word <= s[i..]
  }

  const SQL_KEYWORDS: seq<string> := ["select", "insert", "update", "delete", "replace", "with "]

  predicate MentionsSql(text: string) {
    exists k :: 0 <= k < |SQL_KEYWORDS| && Contains(Lower(text), SQL_KEYWORDS[k])
  }

  function Render(t: seq<Slot>, placeholder: string): string {
    if t == [] then ""
    else (if t[0].Hole? then placeholder else [t[0].c]) + Render(t[1..], placeholder)
  }

  function AsText(s: string): (t: seq<Slot>)
    ensures |t| == |s| && forall i :: 0 <= i < |s| ==> t[i] == Text(s[i])
  {
    seq(|s|, i requires 0 <= i < |s| => Text(s[i]))
  }

  function PieceTemplate(pieces: seq<Piece>): seq<Slot> {
    if pieces == [] then []
    else (if pieces[0].Constant? then AsText(pieces[0].text) else [Hole]) + PieceTemplate(pieces[1..])
  }

  function PieceParams(pieces: seq<Piece>): seq<Operand> {
    if pieces == [] then []
    else (if pieces[0].Constant? then [] else [pieces[0].value]) + PieceParams(pieces[1..])
  }

  // ---- What the recipe accepts, and what it makes of it ---------------------------------------------------

  predicate Accepts(e: Expr, placeholder: string) {
    match e
    case Str(_) => true
    case Add(l, r) => Accepts(l, placeholder) && Accepts(r, placeholder)
    case Mod(f, right) =>
      f.Str? && MentionsSql(f.text) && |ValuesOf(right)| == Holes(PercentTemplate(f.text)) && ValuesOf(right) != []
    case FString(pieces) => MentionsSql(Render(PieceTemplate(pieces), placeholder))
    case Format(receiver, args, _) =>
      receiver.Str? && MentionsSql(receiver.text) && |args| == Holes(BraceTemplate(receiver.text)) && args != []
    case MethodCall => false
    case Value(_) => true
    case Other => false
  }

  function Template(e: Expr): seq<Slot> {
    match e
    case Str(text) => AsText(text)
    case Add(l, r) => Template(l) + Template(r)
    case Mod(f, _) => if f.Str? then PercentTemplate(f.text) else []
    case FString(pieces) => PieceTemplate(pieces)
    case Format(receiver, _, _) => if receiver.Str? then BraceTemplate(receiver.text) else []
    case Value(_) => [Hole]
    case _ => []
  }

  function Params(e: Expr): seq<Operand> {
    match e
    case Add(l, r) => Params(l) + Params(r)
    case Mod(_, right) => ValuesOf(right)
    case FString(pieces) => PieceParams(pieces)
    case Format(_, args, _) => args
    case Value(op) => [op]
    case _ => []
  }

  function JoinComma(ops: seq<Operand>): string {
    if ops == [] then "" else if |ops| == 1 then ops[0] else ops[0] + ", " + JoinComma(ops[1..])
  }

  function TupleText(params: seq<Operand>): string {
    if |params| == 1 then "(" + params[0] + ",)" else "(" + JoinComma(params) + ")"
  }

  function Rewrite(e: Expr, placeholder: string): Option<Rewritten> {
    if !Accepts(e, placeholder) || Params(e) == [] then None
    else
      var sql := Render(Template(e), placeholder);
      if !MentionsSql(sql) then None else Some(Rewritten(JsonLiteral(sql), TupleText(Params(e))))
  }

  // ---- The recipe itself ----------------------------------------------------------------------------------

  function Concat(parts: seq<string>): string {
    if parts == [] then "" else parts[0] + Concat(parts[1..])
  }

  lemma {:induction false} ConcatAppend(parts: seq<string>, last: string)
    ensures Concat(parts + [last]) == Concat(parts) + last
  {
    if parts == [] {
      assert Concat([last]) == last + Concat([]);
    } else {
      assert (parts + [last])[1..] == parts[1..] + [last];
      ConcatAppend(parts[1..], last);
    }
  }

  lemma {:induction false} RenderSplits(s: seq<Slot>, t: seq<Slot>, placeholder: string)
    ensures Render(s + t, placeholder) == Render(s, placeholder) + Render(t, placeholder)
  {
    if s == [] {
      assert s + t == t;
    } else {
      assert (s + t)[1..] == s[1..] + t;
      RenderSplits(s[1..], t, placeholder);
    }
  }

  lemma {:induction false} RenderText(s: string, placeholder: string)
    ensures Render(AsText(s), placeholder) == s
  {
    if s != "" {
      assert AsText(s)[1..] == AsText(s[1..]);
      RenderText(s[1..], placeholder);
      assert s == [s[0]] + s[1..];
    }
  }

  lemma {:induction false} PiecesSplit(pieces: seq<Piece>, n: nat)
    requires n < |pieces|
    ensures PieceTemplate(pieces[..n + 1]) ==
              PieceTemplate(pieces[..n]) + if pieces[n].Constant? then AsText(pieces[n].text) else [Hole]
    ensures PieceParams(pieces[..n + 1]) ==
              PieceParams(pieces[..n]) + if pieces[n].Constant? then [] else [pieces[n].value]
  {
    if n > 0 {
      PiecesSplit(pieces[1..], n - 1);
      assert pieces[..n + 1][1..] == pieces[1..][..n] && pieces[..n][1..] == pieces[1..][..n - 1];
    } else {
      assert pieces[..1][1..] == [] && pieces[..0] == [];
    }
  }

  lemma Regroup<T>(a: seq<T>, b: seq<T>, c: seq<T>)
    ensures a + b + c == a + (b + c)
  {
  }

  class SqlRewriter {
    const placeholder: string
    var sqlParts: seq<string>
    var params: seq<Operand>

    constructor (placeholder: string)
      ensures this.placeholder == placeholder && sqlParts == [] && params == []
    {
      this.placeholder := placeholder;
      sqlParts, params := [], [];
    }

    /** Appends the text and the parameters of an expression, left to right; on refusal the fields are scrap. */
    method Walk(e: Expr) returns (ok: bool)
      modifies this
      ensures ok == Accepts(e, placeholder)
      ensures ok ==> Concat(sqlParts) == Concat(old(sqlParts)) + Render(Template(e), placeholder)
                     && params == old(params) + Params(e)
      decreases e
    {
      match e
      case Add(l, r) =>
        ok := Walk(l);
        if ok {
          RenderSplits(Template(l), Template(r), placeholder);
          Regroup(Concat(old(sqlParts)), Render(Template(l), placeholder), Render(Template(r), placeholder));
          Regroup(old(params), Params(l), Params(r));
          ok := Walk(r);
        }
      case Mod(f, right) =>
        ok := WalkMod(f, right);
      case FString(pieces) =>
        ok := WalkPieces(pieces);
      case Format(receiver, args, _) =>
        ok := WalkFormat(receiver, args);
      case Str(text) =>
        RenderText(text, placeholder);
        if text != "" {
          Append(text, []);
        }
        ok := true;
      case Value(op) =>
        assert Render([Hole], placeholder) == placeholder + Render([], placeholder);
        Append(placeholder, [op]);
        ok := true;
      case MethodCall => ok := false;
      case Other => ok := false;
    }

    method WalkMod(f: Expr, right: Right) returns (ok: bool)
      modifies this
      ensures ok == Accepts(Mod(f, right), placeholder)
      ensures ok ==> Concat(sqlParts) == Concat(old(sqlParts)) + Render(PercentTemplate(f.text), placeholder)
                     && params == old(params) + ValuesOf(right)
    {
      var values := ValuesOf(right);
      if !f.Str? || !MentionsSql(f.text) {
        return false;
      }
      if |values| != Holes(PercentTemplate(f.text)) || values == [] {
        return false;
      }
      Append(Render(PercentTemplate(f.text), placeholder), values);
      ok := true;
    }

    method WalkFormat(receiver: Expr, args: seq<Operand>) returns (ok: bool)
      modifies this
      ensures ok == Accepts(Format(receiver, args, map[]), placeholder)
      ensures ok ==> Concat(sqlParts) == Concat(old(sqlParts)) + Render(BraceTemplate(receiver.text), placeholder)
                     && params == old(params) + args
    {
      if !receiver.Str? || !MentionsSql(receiver.text) {
        return false;
      }
      var count := Count("{}", receiver.text) + NumberedMatches(receiver.text);
      CountIsHoles(receiver.text);
      if count == 0 || count != |args| {
        return false;
      }
      Append(Render(BraceTemplate(receiver.text), placeholder), args);
      ok := true;
    }

    method WalkPieces(pieces: seq<Piece>) returns (ok: bool)
      modifies this
      ensures ok == MentionsSql(Render(PieceTemplate(pieces), placeholder))
      ensures params == old(params) + PieceParams(pieces)
      ensures ok ==> Concat(sqlParts) == Concat(old(sqlParts)) + Render(PieceTemplate(pieces), placeholder)
    {
      var literalParts: string := "";
      for i := 0 to |pieces|
        invariant literalParts == Render(PieceTemplate(pieces[..i]), placeholder)
        invariant params == old(params) + PieceParams(pieces[..i])
        invariant sqlParts == old(sqlParts)
      {
        PiecesSplit(pieces, i);
        match pieces[i]
        case Constant(text) =>
          RenderSplits(PieceTemplate(pieces[..i]), AsText(text), placeholder);
          RenderText(text, placeholder);
          literalParts := literalParts + text;
        case Formatted(value, _, _) =>
          RenderSplits(PieceTemplate(pieces[..i]), [Hole], placeholder);
          assert Render([Hole], placeholder) == placeholder + Render([], placeholder);
          literalParts := literalParts + placeholder;
          params := params + [value];
      }
      assert pieces[..|pieces|] == pieces;
      ok := MentionsSql(literalParts);
      if ok {
        Append(literalParts, []);
      }
    }

    method Append(part: string, values: seq<Operand>)
      modifies this
      ensures sqlParts == old(sqlParts) + [part] && Concat(sqlParts) == Concat(old(sqlParts)) + part
      ensures params == old(params) + values
    {
      ConcatAppend(sqlParts, part);
      sqlParts := sqlParts + [part];
      params := params + values;
    }
  }

  /** What the class computes is what the function above says. */
  method RewriteExpression(e: Expr, placeholder: string) returns (r: Option<Rewritten>)
    ensures r == Rewrite(e, placeholder)
  {
    var rewriter := new SqlRewriter(placeholder);
    var ok := rewriter.Walk(e);
    assert ok ==> rewriter.params == Params(e) && Concat(rewriter.sqlParts) == Render(Template(e), placeholder);
    if !ok || rewriter.params == [] {
      return None;
    }
    var sql := Concat(rewriter.sqlParts);
    if !MentionsSql(sql) {
      return None;
    }
    r := Some(Rewritten(JsonLiteral(sql), TupleText(rewriter.params)));
  }

  // ---- The emitted literal --------------------------------------------------------------------------------

  function Escape(c: char): string {
    if c == '\\' then "\\\\" else if c == '\"' then "\\\"" else if c == '\n' then "\\n" else [c]
  }

  function EscapeAll(s: string): string {
    if s == "" then "" else Escape(s[0]) + EscapeAll(s[1..])
  }

  function Replace(s: string, c: char, image: string): string {
    if s == "" then "" else (if s[0] == c then image else [s[0]]) + Replace(s[1..], c, image)
  }

  function Escaped(s: string): string {
    Replace(Replace(Replace(s, '\\', "\\\\"), '\"', "\\\""), '\n', "\\n")
  }

  function JsonLiteral(s: string): string {
    "\"" + Escaped(s) + "\""
  }

  lemma {:induction false} ReplaceSplits(s: string, t: string, c: char, image: string)
    ensures Replace(s + t, c, image) == Replace(s, c, image) + Replace(t, c, image)
  {
    if s == "" {
      assert s + t == t;
    } else {
      assert (s + t)[1..] == s[1..] + t;
      ReplaceSplits(s[1..], t, c, image);
    }
  }

  lemma EscapeOne(c: char)
    ensures Escaped([c]) == Escape(c)
  {
    ReplaceIn([c]);
    if c == '\\' {
      ReplaceIn("\\\\");
      assert Replace([c], '\\', "\\\\") == "\\\\";
      assert Replace("\\\\", '\"', "\\\"") == "\\\\" && Replace("\\\\", '\n', "\\n") == "\\\\";
    } else if c == '\"' {
      ReplaceIn("\\\"");
      assert Replace([c], '\\', "\\\\") == [c] && Replace([c], '\"', "\\\"") == "\\\"";
      assert Replace("\\\"", '\n', "\\n") == "\\\"";
    } else {
      assert Replace([c], '\\', "\\\\") == [c] && Replace([c], '\"', "\\\"") == [c];
    }
  }

  lemma ReplaceIn(s: string)
    requires 0 < |s| <= 2
    ensures forall c, image :: Replace(s, c, image) ==
              (if s[0] == c then image else [s[0]]) + if |s| == 1 then "" else if s[1] == c then image else [s[1]]
  {
    assert |s| == 2 ==> s[1..] == [s[1]] && s[1..][1..] == "";
    assert |s| == 1 ==> s[1..] == "";
  }

  /** Backslashes are doubled first, so no escape is escaped again: the three passes escape each character once. */
  lemma {:induction false} ThreePassesEscape(s: string)
    ensures Escaped(s) == EscapeAll(s)
  {
    if s != "" {
      var a := Replace([s[0]], '\\', "\\\\");
      var b := Replace(a, '\"', "\\\"");
      ThreePassesEscape(s[1..]);
      assert s == [s[0]] + s[1..];
      ReplaceSplits([s[0]], s[1..], '\\', "\\\\");
      ReplaceSplits(a, Replace(s[1..], '\\', "\\\\"), '\"', "\\\"");
      ReplaceSplits(b, Replace(Replace(s[1..], '\\', "\\\\"), '\"', "\\\""), '\n', "\\n");
      EscapeOne(s[0]);
    }
  }

  /** Python reading the inside of a double-quoted literal up to its closing quote. */
  function ReadBody(s: string): Option<string>
    decreases |s|
  {
    if s == "" || s[0] == '\n' || s[0] == '\r' || s[0] == '\0' then None
    else if s[0] == '\"' then (if |s| == 1 then Some("") else None)
    else if s[0] == '\\' then
      if |s| == 1 then None
      else if s[1] == 'n' then PrependChar('\n', ReadBody(s[2..]))
      else if s[1] == '\\' || s[1] == '\"' then PrependChar(s[1], ReadBody(s[2..]))
      else None
    else PrependChar(s[0], ReadBody(s[1..]))
  }

  function PrependChar(c: char, rest: Option<string>): Option<string> {
    match rest
    case None => None
    case Some(s) => Some([c] + s)
  }

  function ReadLiteral(text: string): Option<string> {
    if text != "" && text[0] == '\"' then ReadBody(text[1..]) else None
  }

  /** The emitted literal reads back as the text exactly when the text has no carriage return and no NUL. */
  lemma LiteralReadsBackIff(s: string)
    ensures ReadLiteral(JsonLiteral(s)) == Some(s) <==> '\r' !in s && '\0' !in s
  {
    ThreePassesEscape(s);
    BodyReadsBackIff(s);
    assert JsonLiteral(s)[1..] == EscapeAll(s) + "\"";
  }

  lemma {:induction false} BodyReadsBackIff(s: string)
    ensures ReadBody(EscapeAll(s) + "\"") == Some(s) <==> '\r' !in s && '\0' !in s
  {
    if s == "" {
      assert EscapeAll(s) + "\"" == "\"";
    } else {
      var rest := EscapeAll(s[1..]) + "\"";
      var text := EscapeAll(s) + "\"";
      assert text == Escape(s[0]) + rest;
      BodyReadsBackIff(s[1..]);
      assert s == [s[0]] + s[1..];
      if s[0] == '\\' || s[0] == '\"' || s[0] == '\n' {
        assert text[2..] == rest;
      } else {
        assert text[1..] == rest;
      }
    }
  }

  // ---- Which expressions are rewritten -----------------------------------------------------------------------------

  /** A character is the lower-case letter, or its capital. */
  predicate Spells(c: char, letter: char) {
    if 'A' <= c <= 'Z' then c as int + 32 == letter as int else c == letter
  }

  ghost predicate SpelledAt(text: string, i: nat, word: string) {
    i + |word| <= |text| && forall j :: 0 <= j < |word| ==> Spells(text[i + j], word[j])
  }

  /** A keyword stands somewhere in the text, in capitals or not. */
  ghost predicate HasKeyword(text: string) {
    exists i: nat, k: nat :: k < |SQL_KEYWORDS| && SpelledAt(text, i, SQL_KEYWORDS[k])
  }

  lemma SpelledIff(text: string, i: nat, word: string)
    requires i <= |text|
    ensures word <= Lower(text)[i..] <==> SpelledAt(text, i, word)
  {
    var low := Lower(text);
    if i + |word| <= |text| {
      assert word <= low[i..] <==> low[i..i + |word|] == word;
      forall j | 0 <= j < |word| ensures low[i..i + |word|][j] == word[j] <==> Spells(text[i + j], word[j]) {
        assert low[i..i + |word|][j] == low[i + j];
      }
    }
  }

  lemma MentionsIff(text: string)
    ensures MentionsSql(text) <==> HasKeyword(text)
  {
    if MentionsSql(text) {
      var k: nat :| k < |SQL_KEYWORDS| && Contains(Lower(text), SQL_KEYWORDS[k]);
      var i: nat :| i <= |Lower(text)| && SQL_KEYWORDS[k] <= Lower(text)[i..];
      SpelledIff(text, i, SQL_KEYWORDS[k]);
    }
    if HasKeyword(text) {
      var i: nat, k: nat :| k < |SQL_KEYWORDS| && SpelledAt(text, i, SQL_KEYWORDS[k]);
      SpelledIff(text, i, SQL_KEYWORDS[k]);
      assert Contains(Lower(text), SQL_KEYWORDS[k]);
    }
  }

  /** The operands of a chain of concatenations. */
  function Leaves(e: Expr): (leaves: seq<Expr>)
    ensures leaves != []
  {
    match e
    case Add(l, r) => Leaves(l) + Leaves(r)
    case _ => [e]
  }

  /** A literal or a plain value; or a formatted string that mentions SQL by itself and has a value for each hole, at least
      one where a format is applied to a literal. */
  ghost predicate LeafOk(leaf: Expr, placeholder: string) {
    match leaf
    case Str(_) => true
    case Value(_) => true
    case Mod(Str(text), right) =>
      HasKeyword(text) && ValuesOf(right) != [] && |ValuesOf(right)| == Holes(PercentTemplate(text))
    case Format(Str(text), args, _) => HasKeyword(text) && args != [] && |args| == Holes(BraceTemplate(text))
    case FString(pieces) => HasKeyword(Render(PieceTemplate(pieces), placeholder))
    case _ => false
  }

  ghost predicate BringsValue(leaf: Expr) {
    match leaf
    case Str(_) => false
    case FString(pieces) => exists i :: 0 <= i < |pieces| && pieces[i].Formatted?
    case _ => true
  }

  ghost predicate AllLeavesOk(leaves: seq<Expr>, placeholder: string) {
    forall i :: 0 <= i < |leaves| ==> LeafOk(leaves[i], placeholder)
  }

  ghost predicate SomeBringsValue(leaves: seq<Expr>) {
    exists i :: 0 <= i < |leaves| && BringsValue(leaves[i])
  }

  lemma LeavesJoin(a: seq<Expr>, b: seq<Expr>, placeholder: string)
    ensures AllLeavesOk(a + b, placeholder) <==> AllLeavesOk(a, placeholder) && AllLeavesOk(b, placeholder)
    ensures SomeBringsValue(a + b) <==> SomeBringsValue(a) || SomeBringsValue(b)
  {
    assert forall i :: 0 <= i < |a| ==> (a + b)[i] == a[i];
    assert forall i :: 0 <= i < |b| ==> (a + b)[|a| + i] == b[i];
  }

  lemma {:induction false} PieceParamsEmptyIff(pieces: seq<Piece>)
    ensures PieceParams(pieces) != [] <==> exists i :: 0 <= i < |pieces| && pieces[i].Formatted?
    decreases |pieces|
  {
    if pieces != [] {
      PieceParamsEmptyIff(pieces[1..]);
      assert forall i :: 0 < i < |pieces| ==> pieces[i] == pieces[1..][i - 1];
      assert pieces[0].Formatted? ==> PieceParams(pieces) != [];
      if i :| 0 <= i < |pieces[1..]| && pieces[1..][i].Formatted? {
        assert pieces[i + 1].Formatted?;
      }
    }
  }

  lemma OneLeaf(e: Expr, placeholder: string)
    requires !e.Add?
    ensures Accepts(e, placeholder) <==> AllLeavesOk([e], placeholder)
    ensures Accepts(e, placeholder) ==> (Params(e) != [] <==> SomeBringsValue([e]))
  {
    assert [e][0] == e;
    match e
    case Mod(f, _) => if f.Str? { MentionsIff(f.text); }
    case Format(receiver, _, _) => if receiver.Str? { MentionsIff(receiver.text); }
    case FString(pieces) =>
      MentionsIff(Render(PieceTemplate(pieces), placeholder));
      PieceParamsEmptyIff(pieces);
    case _ =>
  }

  lemma {:induction false} AcceptsIff(e: Expr, placeholder: string)
    ensures Accepts(e, placeholder) <==> AllLeavesOk(Leaves(e), placeholder)
    ensures Accepts(e, placeholder) ==> (Params(e) != [] <==> SomeBringsValue(Leaves(e)))
    decreases e
  {
    if e.Add? {
      AcceptsIff(e.left, placeholder);
      AcceptsIff(e.right, placeholder);
      LeavesJoin(Leaves(e.left), Leaves(e.right), placeholder);
    } else {
      OneLeaf(e, placeholder);
    }
  }

  /** An expression is rewritten exactly when every operand of the concatenation is one the recipe knows, some operand brings
      a value, and the query text mentions SQL. */
  lemma RewritesIff(e: Expr, placeholder: string)
    ensures Rewrite(e, placeholder).Some? <==>
              AllLeavesOk(Leaves(e), placeholder) && SomeBringsValue(Leaves(e)) && HasKeyword(Render(Template(e), placeholder))
  {
    AcceptsIff(e, placeholder);
    MentionsIff(Render(Template(e), placeholder));
  }
}
