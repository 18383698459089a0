/** The two texts the SQL recipe emits, read the way Python and the database read them: a string literal, a tuple display,
    and a query whose placeholders are filled in from left to right. */
module SqlEmitted {
  import opened Wrappers
  import opened TextLines
  import opened Formatting
  import opened Occurrences
  import opened SqlRewrite
  import opened SqlMeaning
  import Scanners

  // ---- The tuple display -------------------------------------------------------------------------------------------

  /** The elements of a tuple display: what stands between its top-level commas, of which there is at least one. */
  function ReadTuple(text: string): Option<seq<string>> {
    if |text| < 2 || text[0] != '(' || text[|text| - 1] != ')' then None
    else
      var inner := text[1..|text| - 1];
      if |Scanners.RawPieces(inner)| < 2 then None else Some(Scanners.TopLevel(inner))
  }

  /** An operand that can stand in a list: no comma of its own at top level, every quote and bracket closed, no blank ends. */
  predicate Listable(op: Operand) {
    op != "" && Strip(op) == op && Scanners.Whole(op) && Scanners.StateAt(op, |op|) == Scanners.START
  }

  lemma {:induction false} BehindSpace(op: string, n: nat)
    requires n <= |op|
    ensures Scanners.StateAt(" " + op, n + 1) == Scanners.StateAt(op, n)
  {
    var spaced := " " + op;
    if n > 0 {
      BehindSpace(op, n - 1);
      assert spaced[n] == op[n - 1] && spaced[n - 1] == if n == 1 then ' ' else op[n - 2];
    } else {
      assert Scanners.StateAt(spaced, 0) == Scanners.START && spaced[0] == ' ';
    }
  }

  lemma SpacedStaysWhole(op: string)
    requires Listable(op)
    ensures Scanners.Whole(" " + op) && Scanners.StateAt(" " + op, |" " + op|) == Scanners.START && Strip(" " + op) == op
  {
    var spaced := " " + op;
    forall i | 0 <= i < |spaced| ensures !Scanners.TopComma(spaced, i) {
      if i > 0 {
        BehindSpace(op, i - 1);
        assert spaced[i] == op[i - 1] && !Scanners.TopComma(op, i - 1);
      }
    }
    BehindSpace(op, |op|);
    assert spaced[1..] == op;
  }

  /** Every element but the first stands behind a space. */
  function Spaced(ops: seq<Operand>): (pieces: seq<string>)
    ensures |pieces| == |ops| && forall i :: 0 <= i < |ops| ==> pieces[i] == " " + ops[i]
  {
    seq(|ops|, i requires 0 <= i < |ops| => " " + ops[i])
  }

  lemma {:induction false} SpacedJoins(op: Operand, ops: seq<Operand>)
    ensures JoinComma([op] + ops) == Scanners.JoinComma([op] + Spaced(ops))
    decreases |ops|
  {
    if ops != [] {
      SpacedJoins(ops[0], ops[1..]);
      assert ([op] + ops)[1..] == ops && ops == [ops[0]] + ops[1..];
      JoinBehindSpace(ops[0], Spaced(ops[1..]));
      assert ([op] + Spaced(ops))[1..] == Spaced(ops) == [" " + ops[0]] + Spaced(ops[1..]);
      assert op + ", " + JoinComma(ops) == op + "," + (" " + JoinComma(ops));
    }
  }

  lemma JoinBehindSpace(op: string, pieces: seq<string>)
    ensures Scanners.JoinComma([" " + op] + pieces) == " " + Scanners.JoinComma([op] + pieces)
  {
    if pieces != [] {
      assert ([" " + op] + pieces)[1..] == pieces && ([op] + pieces)[1..] == pieces;
      assert (" " + op) + "," + Scanners.JoinComma(pieces) == " " + (op + "," + Scanners.JoinComma(pieces));
    }
  }

  lemma ReadInner(inner: string, pieces: seq<string>)
    requires |pieces| >= 2 && Scanners.RawPieces(inner) == pieces
    ensures ReadTuple("(" + inner + ")") == Some(Scanners.StripAll(Scanners.DropTrailingEmpty(pieces)))
  {
    var text := "(" + inner + ")";
    assert text[0] == '(' && text[|text| - 1] == ')' && text[1..|text| - 1] == inner;
  }

  lemma OneReadsBack(op: Operand)
    requires Listable(op)
    ensures ReadTuple("(" + op + ",)") == Some([op])
  {
    var pieces := [op, ""];
    assert pieces[1..] == [""] && Scanners.JoinComma(pieces) == op + ",";
    Scanners.PiecesAreUnique(op + ",", pieces);
    ReadInner(op + ",", pieces);
    assert "(" + (op + ",") + ")" == "(" + op + ",)";
    assert Scanners.DropTrailingEmpty(pieces) == [op] && Scanners.StripAll([op]) == [op];
  }

  lemma SpacedPiece(op: Operand, ops: seq<Operand>, i: nat)
    requires Listable(op) && (forall k :: 0 <= k < |ops| ==> Listable(ops[k])) && i <= |ops|
    ensures var piece := ([op] + Spaced(ops))[i];
            && Scanners.Whole(piece) && Scanners.StateAt(piece, |piece|) == Scanners.START
            && Strip(piece) == ([op] + ops)[i] && piece != ""
  {
    if i > 0 {
      SpacedStaysWhole(ops[i - 1]);
    }
  }

  lemma SpacedAreThePieces(op: Operand, ops: seq<Operand>)
    requires Listable(op) && forall k :: 0 <= k < |ops| ==> Listable(ops[k])
    ensures Scanners.RawPieces(JoinComma([op] + ops)) == [op] + Spaced(ops)
  {
    var pieces := [op] + Spaced(ops);
    SpacedJoins(op, ops);
    forall i | 0 <= i < |pieces| ensures Scanners.Whole(pieces[i]) && Scanners.StateAt(pieces[i], |pieces[i]|) == Scanners.START {
      SpacedPiece(op, ops, i);
    }
    Scanners.PiecesAreUnique(JoinComma([op] + ops), pieces);
  }

  lemma SpacedStrip(op: Operand, ops: seq<Operand>)
    requires Listable(op) && forall k :: 0 <= k < |ops| ==> Listable(ops[k])
    ensures Scanners.StripAll(Scanners.DropTrailingEmpty([op] + Spaced(ops))) == [op] + ops
  {
    var pieces := [op] + Spaced(ops);
    SpacedPiece(op, ops, |ops|);
    forall i | 0 <= i < |pieces| ensures Strip(pieces[i]) == ([op] + ops)[i] {
      SpacedPiece(op, ops, i);
    }
  }

  lemma ManyReadBack(op: Operand, ops: seq<Operand>)
    requires ops != [] && Listable(op) && forall k :: 0 <= k < |ops| ==> Listable(ops[k])
    ensures ReadTuple("(" + JoinComma([op] + ops) + ")") == Some([op] + ops)
  {
    SpacedAreThePieces(op, ops);
    ReadInner(JoinComma([op] + ops), [op] + Spaced(ops));
    SpacedStrip(op, ops);
  }

  /** The parameters are emitted as a tuple display that reads back as those parameters, in their order. */
  lemma TupleReadsBack(ops: seq<Operand>)
    requires ops != [] && forall i :: 0 <= i < |ops| ==> Listable(ops[i])
    ensures ReadTuple(TupleText(ops)) == Some(ops)
  {
    if |ops| == 1 {
      OneReadsBack(ops[0]);
      assert ops == [ops[0]];
    } else {
      assert ops == [ops[0]] + ops[1..];
      ManyReadBack(ops[0], ops[1..]);
    }
  }

  // ---- Filling in the placeholders -----------------------------------------------------------------------------------

  /** What the database makes of a query: each placeholder, from left to right, is the next parameter; None when there are
      more or fewer of them. */
  function FillIn(text: string, placeholder: string, params: seq<Operand>): Option<seq<Item>>
    requires placeholder != ""
    decreases |text|
  {
    if |text| < |placeholder| then (if params == [] then Some(TextItems(text)) else None)
    else if text[..|placeholder|] == placeholder then
      (if params == [] then None else Prepend(Val(params[0], Shown), FillIn(text[|placeholder|..], placeholder, params[1..])))
    else Prepend(Ch(text[0]), FillIn(text[1..], placeholder, params))
  }

  lemma {:induction false} FillInCounts(text: string, placeholder: string, params: seq<Operand>)
    requires placeholder != ""
    ensures FillIn(text, placeholder, params).Some? <==> Count(placeholder, text) == |params|
    decreases |text|
  {
    if |text| >= |placeholder| {
      if text[..|placeholder|] == placeholder {
        if params != [] {
          FillInCounts(text[|placeholder|..], placeholder, params[1..]);
        }
      } else {
        FillInCounts(text[1..], placeholder, params);
      }
    }
  }

  function Behind(items: seq<Item>, rest: Option<seq<Item>>): Option<seq<Item>> {
    if rest.Some? then Some(items + rest.value) else None
  }

  lemma NotYet(placeholder: string, run: string, rest: string)
    requires placeholder != "" && !Bordered(placeholder) && run != "" && Count(placeholder, run) == 0
    ensures (run + placeholder + rest)[..|placeholder|] != placeholder && Count(placeholder, run[1..]) == 0
  {
    var s := run + placeholder + rest;
    if |run| < |placeholder| {
      if s[..|placeholder|] == placeholder {
        Overlap(placeholder, run, rest);
      }
    } else {
      assert s[..|placeholder|] == run[..|placeholder|];
    }
  }

  lemma {:induction false} FillRun(placeholder: string, run: string, rest: string, params: seq<Operand>)
    requires placeholder != "" && !Bordered(placeholder) && Count(placeholder, run) == 0 && params != []
    ensures FillIn(run + placeholder + rest, placeholder, params)
            == Behind(TextItems(run) + [Val(params[0], Shown)], FillIn(rest, placeholder, params[1..]))
    decreases |run|
  {
    var s := run + placeholder + rest;
    if run == "" {
      assert s[..|placeholder|] == placeholder && s[|placeholder|..] == rest;
      assert TextItems(run) + [Val(params[0], Shown)] == [Val(params[0], Shown)];
    } else {
      NotYet(placeholder, run, rest);
      assert s[0] == run[0] && s[1..] == run[1..] + placeholder + rest;
      FillRun(placeholder, run[1..], rest, params);
      RunBehind(run, Val(params[0], Shown), FillIn(rest, placeholder, params[1..]));
    }
  }

  lemma RunBehind(run: string, x: Item, rest: Option<seq<Item>>)
    requires run != ""
    ensures Prepend(Ch(run[0]), Behind(TextItems(run[1..]) + [x], rest)) == Behind(TextItems(run) + [x], rest)
  {
    assert [Ch(run[0])] + TextItems(run[1..]) == TextItems(run);
    if rest.Some? {
      assert [Ch(run[0])] + (TextItems(run[1..]) + [x] + rest.value) == TextItems(run) + [x] + rest.value;
    }
  }

  lemma {:induction false} FillLastRun(placeholder: string, run: string)
    requires placeholder != "" && Count(placeholder, run) == 0
    ensures FillIn(run, placeholder, []) == Some(TextItems(run))
    decreases |run|
  {
    if |run| >= |placeholder| {
      FillLastRun(placeholder, run[1..]);
      assert [Ch(run[0])] + TextItems(run[1..]) == TextItems(run);
    }
  }

  lemma BindRun(t: seq<Slot>, params: seq<Operand>, run: string)
    requires |params| == Holes(t) && run == FirstRun(t) && |run| < |t|
    ensures var rest := t[|run| + 1..];
            && params != [] && |params[1..]| == Holes(rest)
            && Bind(t, params) == TextItems(run) + [Val(params[0], Shown)] + Bind(rest, params[1..])
  {
    var rest := t[|run| + 1..];
    RunThenHole(t, "?");
    assert t == AsText(run) + ([Hole] + rest) && ([Hole] + rest)[1..] == rest;
    TextHasNoHoles(run);
    BindSplits(AsText(run), [Hole] + rest, [], params);
    assert [] + params == params;
  }

  /** Filled in from left to right, the rendered template is the template with its holes bound, when no literal run holds
      a placeholder of its own. */
  lemma {:induction false} FillRendered(t: seq<Slot>, placeholder: string, params: seq<Operand>)
    requires placeholder != "" && !Bordered(placeholder) && |params| == Holes(t) && Accidental(t, placeholder) == 0
    ensures FillIn(Render(t, placeholder), placeholder, params) == Some(Bind(t, params))
    decreases |t|
  {
    var run := FirstRun(t);
    if |run| == |t| {
      assert t == AsText(run);
      RenderText(run, placeholder);
      TextHasNoHoles(run);
      FillLastRun(placeholder, run);
    } else {
      var rest := t[|run| + 1..];
      RunThenHole(t, placeholder);
      BindRun(t, params, run);
      FillRun(placeholder, run, Render(rest, placeholder), params);
      FillRendered(rest, placeholder, params[1..]);
    }
  }

  // ---- What the emitted code comes to -------------------------------------------------------------------------------------

  /** The emitted query with the emitted parameters. */
  function Executed(r: Rewritten, placeholder: string): Option<seq<Item>>
    requires placeholder != ""
  {
    match (ReadLiteral(r.sql), ReadTuple(r.params))
    case (Some(text), Some(params)) => FillIn(text, placeholder, params)
    case _ => None
  }

  /** Both emitted texts can be read back: the query has no carriage return and no NUL, the operands can stand in a list. */
  predicate Readable(e: Expr, placeholder: string) {
    && '\r' !in Render(Template(e), placeholder) && '\0' !in Render(Template(e), placeholder)
    && forall i :: 0 <= i < |Params(e)| ==> Listable(Params(e)[i])
  }

  lemma EmittedReadsBack(e: Expr, placeholder: string, r: Rewritten)
    requires Rewrite(e, placeholder) == Some(r) && Readable(e, placeholder)
    ensures ReadLiteral(r.sql) == Some(Render(Template(e), placeholder)) && ReadTuple(r.params) == Some(Params(e))
  {
    LiteralReadsBackIff(Render(Template(e), placeholder));
    TupleReadsBack(Params(e));
  }

  /** For everything the recipe emits: read back and filled in, the two texts are the rewritten query with its parameters
      exactly when no literal run holds a placeholder by accident; otherwise the database refuses it. */
  lemma EmittedFillsIff(e: Expr, placeholder: string, r: Rewritten)
    requires Rewrite(e, placeholder) == Some(r) && Readable(e, placeholder) && placeholder != "" && !Bordered(placeholder)
    ensures Accidental(Template(e), placeholder) == 0 ==> Executed(r, placeholder) == Some(RewrittenPattern(e, placeholder))
    ensures Accidental(Template(e), placeholder) > 0 ==> Executed(r, placeholder) == None
  {
    EmittedReadsBack(e, placeholder, r);
    HolesAreParams(e, placeholder);
    FillInCounts(Render(Template(e), placeholder), placeholder, Params(e));
    PlaceholdersMatchParametersIff(e, placeholder);
    if Accidental(Template(e), placeholder) == 0 {
      FillRendered(Template(e), placeholder, Params(e));
    }
  }

  ghost predicate EmittedKeepsMeaning(e: Expr, placeholder: string, r: Rewritten)
    requires placeholder != ""
  {
    forall env: Env :: Sane(env) && Scalars(env) && Meaning(e, env).Some? ==>
      Executed(r, placeholder).Some? && Instantiate(Executed(r, placeholder).value, env) == Meaning(e, env)
  }

  /** Main result about what is emitted: with operands told apart, executing the emitted query with the emitted parameters
      gives the string the original expression evaluates to, in every environment, exactly when the expression is clean and
      no literal run holds a placeholder by accident, or the original always raises. */
  lemma EmittedKeepsMeaningIff(e: Expr, placeholder: string, r: Rewritten)
    requires Rewrite(e, placeholder) == Some(r) && Readable(e, placeholder) && placeholder != "" && !Bordered(placeholder)
    requires Separate(e)
    ensures EmittedKeepsMeaning(e, placeholder, r)
            <==> Pattern(e).None? || (Clean(e) && Accidental(Template(e), placeholder) == 0)
  {
    EmittedFillsIff(e, placeholder, r);
    KeepsMeaningIffClean(e, placeholder);
    if Pattern(e).None? {
      forall env: Env | Sane(env) && Scalars(env) ensures Meaning(e, env).None? {
        if Meaning(e, env).Some? {
          MeaningIsPattern(e, env);
        }
      }
    } else if Accidental(Template(e), placeholder) > 0 {
      var letter: (Operand, How) -> char := (op, how) => 'x';
      MeaningOfLetters(e, letter);
      assert Sane(Letters(letter, Scalar)) && Scalars(Letters(letter, Scalar));
    }
  }
}
