/** The rewrite keeps the meaning of a query: when filling the holes of the emitted text with the parameters gives
    the string the original expression evaluates to, and when the text holds as many placeholders as parameters. */
module SqlMeaning {
  import opened Wrappers
  import opened Formatting
  import opened BraceFormatting
  import opened Occurrences
  import opened SqlRewrite
  import Decimal

  // ---- Evaluation ----------------------------------------------------------------------------------------

  /** What the sole right operand of % is when it is evaluated: a tuple, anything else that can be indexed but is no string
      (a mapping to %), or neither. */
  datatype Shape = Scalar | Mapping | Tuple(size: nat)

  /** Values of the operands: which of them are strings, how each one prints (None: printing it so raises), and what each
      one is to %. */
  datatype Env = Env(isText: Operand -> bool, show: (Operand, How) -> Option<string>, shape: Operand -> Shape)

  ghost predicate Sane(env: Env) {
    forall op :: env.show(op, Shown).Some?
  }

  /** Sole right operands of % are neither tuples nor mappings. */
  ghost predicate Scalars(env: Env) {
    forall op :: env.shape(op).Scalar?
  }

  function Print(x: Item, env: Env): Option<string> {
    match x
    case Ch(c) => Some([c])
    case Val(op, how) => env.show(op, how)
  }

  function Joined(a: Option<string>, b: Option<string>): Option<string> {
    if a.Some? && b.Some? then Some(a.value + b.value) else None
  }

  function Instantiate(p: seq<Item>, env: Env): Option<string> {
    if p == [] then Some("") else Joined(Print(p[0], env), Instantiate(p[1..], env))
  }

  function PieceItems(pieces: seq<Piece>): seq<Item> {
    if pieces == [] then []
    else
      (match pieces[0]
       case Constant(text) => TextItems(text)
       case Formatted(value, conversion, spec) => [Val(value, HowOf(conversion, spec))])
      + PieceItems(pieces[1..])
  }

  /** An element of a tuple. */
  function Element(tuple: Operand, i: nat): Operand {
    Entry(tuple, Decimal.Print(i))
  }

  /** The operands % takes: a tuple gives its elements, anything else itself. */
  function Given(right: Right, shape: Shape): seq<Operand> {
    if right.Sole? && shape.Tuple? then Elements(right.value, shape.size) else ValuesOf(right)
  }

  function Elements(tuple: Operand, n: nat): seq<Operand> {
    seq(n, i requires 0 <= i < n => Element(tuple, i))
  }

  function MappingOf(right: Right, shape: Shape): Option<Operand> {
    if right.Sole? && shape.Mapping? then Some(right.value) else None
  }

  /** Python's reading of a % literal, for a sole operand of this kind. */
  function PercentPattern(f: Expr, right: Right, shape: Shape): Option<seq<Item>> {
    if f.Str? then PercentItems(f.text, Given(right, shape), MappingOf(right, shape)) else None
  }

  /** The string an expression evaluates to, with its operands left symbolic and the sole ones of % scalars; None when it
      always raises. */
  function Pattern(e: Expr): Option<seq<Item>> {
    match e
    case Str(text) => Some(TextItems(text))
    case Add(l, r) =>
      if Pattern(l).Some? && Pattern(r).Some? then Some(Pattern(l).value + Pattern(r).value) else None
    case Mod(f, right) => PercentPattern(f, right, Scalar)
    case FString(pieces) => Some(PieceItems(pieces))
    case Format(receiver, args, keywords) => if receiver.Str? then FormatItems(receiver.text, args, keywords) else None
    case Value(op) => Some([Val(op, Shown)])
    case _ => None
  }

  /** Evaluation in Python: + joins strings and raises on anything else. */
  function Meaning(e: Expr, env: Env): Option<string> {
    match e
    case Add(l, r) => Joined(Meaning(l, env), Meaning(r, env))
    case Value(op) => if env.isText(op) then env.show(op, Shown) else None
    case Mod(f, right) =>
      var p := PercentPattern(f, right, if right.Sole? then env.shape(right.value) else Scalar);
      if p.Some? then Instantiate(p.value, env) else None
    case _ => if Pattern(e).Some? then Instantiate(Pattern(e).value, env) else None
  }

  /** The rewritten query with every hole filled, in order, by the text of its parameter. */
  function RewrittenPattern(e: Expr, placeholder: string): (p: seq<Item>)
    requires Accepts(e, placeholder)
  {
    HolesAreParams(e, placeholder);
    Bind(Template(e), Params(e))
  }

  function Filled(e: Expr, placeholder: string, env: Env): Option<string>
    requires Accepts(e, placeholder)
  {
    Instantiate(RewrittenPattern(e, placeholder), env)
  }

  ghost predicate KeepsMeaning(e: Expr, placeholder: string)
    requires Accepts(e, placeholder)
  {
    forall env: Env :: Sane(env) && Scalars(env) && Meaning(e, env).Some? ==> Meaning(e, env) == Filled(e, placeholder, env)
  }

  /** The same whatever the sole right operands of % are. */
  ghost predicate KeepsMeaningOfAny(e: Expr, placeholder: string)
    requires Accepts(e, placeholder)
  {
    forall env: Env :: Sane(env) && Meaning(e, env).Some? ==> Meaning(e, env) == Filled(e, placeholder, env)
  }

  // ---- Sequences of items ---------------------------------------------------------------------------------

  lemma {:induction false} HolesSplit(s: seq<Slot>, t: seq<Slot>)
    ensures Holes(s + t) == Holes(s) + Holes(t)
    ensures forall k :: InSlots(k, s + t) == InSlots(k, s) + InSlots(k, t)
  {
    if s == [] {
      assert s + t == t;
    } else {
      assert (s + t)[1..] == s[1..] + t;
      HolesSplit(s[1..], t);
    }
  }

  lemma {:induction false} BindSplits(s: seq<Slot>, t: seq<Slot>, a: seq<Operand>, b: seq<Operand>)
    requires |a| == Holes(s) && |b| == Holes(t)
    ensures Holes(s + t) == |a + b| && Bind(s + t, a + b) == Bind(s, a) + Bind(t, b)
  {
    HolesSplit(s, t);
    if s == [] {
      assert s + t == t && a + b == b;
    } else {
      assert (s + t)[1..] == s[1..] + t;
      if s[0].Hole? {
        assert (a + b)[1..] == a[1..] + b;
        BindSplits(s[1..], t, a[1..], b);
      } else {
        BindSplits(s[1..], t, a, b);
      }
    }
  }

  lemma {:induction false} ValsSplit(p: seq<Item>, q: seq<Item>)
    ensures Vals(p + q) == Vals(p) + Vals(q)
    ensures forall k :: InItems(k, p + q) == InItems(k, p) + InItems(k, q)
  {
    if p == [] {
      assert p + q == q;
    } else {
      var whole := p + q;
      assert whole[0] == p[0] && whole[1..] == p[1..] + q;
      ValsSplit(p[1..], q);
      var head := if p[0].Val? then [p[0]] else [];
      assert Vals(whole) == head + Vals(whole[1..]);
      assert head + (Vals(p[1..]) + Vals(q)) == (head + Vals(p[1..])) + Vals(q);
    }
  }

  lemma JoinedAssociates(a: Option<string>, b: Option<string>, c: Option<string>)
    ensures Joined(Joined(a, b), c) == Joined(a, Joined(b, c))
  {
    if a.Some? && b.Some? && c.Some? {
      assert (a.value + b.value) + c.value == a.value + (b.value + c.value);
    }
  }

  lemma {:induction false} InstantiateSplits(p: seq<Item>, q: seq<Item>, env: Env)
    ensures Instantiate(p + q, env) == Joined(Instantiate(p, env), Instantiate(q, env))
  {
    if p == [] {
      assert p + q == q;
      assert Instantiate(q, env).Some? ==> "" + Instantiate(q, env).value == Instantiate(q, env).value;
    } else {
      assert (p + q)[1..] == p[1..] + q;
      InstantiateSplits(p[1..], q, env);
      JoinedAssociates(Print(p[0], env), Instantiate(p[1..], env), Instantiate(q, env));
    }
  }

  lemma {:induction false} TextHasNoHoles(s: string)
    ensures Holes(AsText(s)) == 0 && Bind(AsText(s), []) == TextItems(s) && Vals(TextItems(s)) == []
    ensures forall k :: InItems(k, TextItems(s)) == InSlots(k, AsText(s))
  {
    if s != "" {
      assert AsText(s)[1..] == AsText(s[1..]) && TextItems(s)[1..] == TextItems(s[1..]);
      TextHasNoHoles(s[1..]);
    }
  }

  lemma {:induction false} HolesOfPieces(pieces: seq<Piece>)
    ensures Holes(PieceTemplate(pieces)) == |PieceParams(pieces)|
  {
    if pieces != [] {
      HolesOfPieces(pieces[1..]);
      HolesSplit(if pieces[0].Constant? then AsText(pieces[0].text) else [Hole], PieceTemplate(pieces[1..]));
      if pieces[0].Constant? {
        TextHasNoHoles(pieces[0].text);
      } else {
        assert Holes([Hole]) == 1 + Holes([]);
      }
    }
  }

  /** The emitted text has one hole per parameter. */
  lemma {:induction false} HolesAreParams(e: Expr, placeholder: string)
    requires Accepts(e, placeholder)
    ensures Holes(Template(e)) == |Params(e)|
  {
    match e
    case Str(text) => TextHasNoHoles(text);
    case Add(l, r) =>
      HolesAreParams(l, placeholder);
      HolesAreParams(r, placeholder);
      HolesSplit(Template(l), Template(r));
    case FString(pieces) => HolesOfPieces(pieces);
    case Value(_) => assert Holes([Hole]) == 1 + Holes([]);
    case Mod(_, _) =>
    case Format(_, _, _) =>
  }

  // ---- Meaning is decided by the patterns -------------------------------------------------------------------

  lemma {:induction false} MeaningIsPattern(e: Expr, env: Env)
    requires Meaning(e, env).Some? && Scalars(env)
    ensures Pattern(e).Some? && Meaning(e, env) == Instantiate(Pattern(e).value, env)
  {
    match e
    case Add(l, r) =>
      MeaningIsPattern(l, env);
      MeaningIsPattern(r, env);
      InstantiateSplits(Pattern(l).value, Pattern(r).value, env);
    case Value(op) =>
      var p := [Val(op, Shown)];
      assert p[1..] == [] && Instantiate(p, env) == Joined(env.show(op, Shown), Some(""));
      assert env.show(op, Shown).value + "" == env.show(op, Shown).value;
    case Str(_) =>
    case Mod(_, _) =>
    case FString(_) =>
    case Format(_, _, _) =>
  }

  /** Environments in which every operand prints as one character. */
  function Letters(letter: (Operand, How) -> char, shape: Shape): Env {
    Env(_ => true, (op, how) => Some([letter(op, how)]), _ => shape)
  }

  function Letter(x: Item, letter: (Operand, How) -> char): char {
    match x
    case Ch(c) => c
    case Val(op, how) => letter(op, how)
  }

  lemma {:induction false} InstantiateLetters(p: seq<Item>, letter: (Operand, How) -> char, shape: Shape)
    ensures Instantiate(p, Letters(letter, shape)).Some?
    ensures var s := Instantiate(p, Letters(letter, shape)).value;
            |s| == |p| && forall i :: 0 <= i < |p| ==> s[i] == Letter(p[i], letter)
  {
    if p != [] {
      InstantiateLetters(p[1..], letter, shape);
    }
  }

  lemma {:induction false} MeaningOfLetters(e: Expr, letter: (Operand, How) -> char)
    requires Pattern(e).Some?
    ensures Meaning(e, Letters(letter, Scalar)).Some?
  {
    match e
    case Add(l, r) =>
      MeaningOfLetters(l, letter);
      MeaningOfLetters(r, letter);
    case Value(op) =>
    case Str(_) => InstantiateLetters(Pattern(e).value, letter, Scalar);
    case Mod(_, _) => InstantiateLetters(Pattern(e).value, letter, Scalar);
    case FString(_) => InstantiateLetters(Pattern(e).value, letter, Scalar);
    case Format(_, _, _) => InstantiateLetters(Pattern(e).value, letter, Scalar);
  }

  /** Different patterns are told apart by some assignment of letters. */
  lemma TellApart(p: seq<Item>, q: seq<Item>, shape: Shape) returns (letter: (Operand, How) -> char)
    requires p != q
    ensures Instantiate(p, Letters(letter, shape)) != Instantiate(q, Letters(letter, shape))
  {
    if |p| != |q| {
      letter := (op, how) => 'x';
    } else {
      var k :| 0 <= k < |p| && p[k] != q[k];
      if p[k].Val? && q[k].Val? {
        var op, how := p[k].op, p[k].how;
        letter := (o, h) => if o == op && h == how then 'x' else 'y';
      } else {
        var c := if p[k].Ch? then p[k].c else if q[k].Ch? then q[k].c else 'x';
        letter := (op, how) => if c == 'x' then 'y' else 'x';
      }
      assert Letter(p[k], letter) != Letter(q[k], letter);
    }
    InstantiateLetters(p, letter, shape);
    InstantiateLetters(q, letter, shape);
  }

  /** For every accepted expression: the rewrite keeps its meaning in every environment in which sole operands of % are
      scalars exactly when the two patterns, which need no environment, are the same, or the original can only raise. */
  lemma KeepsMeaningIffPatternsAgree(e: Expr, placeholder: string)
    requires Accepts(e, placeholder)
    ensures KeepsMeaning(e, placeholder)
            <==> Pattern(e).None? || Pattern(e).value == RewrittenPattern(e, placeholder)
  {
    if Pattern(e).None? || Pattern(e).value == RewrittenPattern(e, placeholder) {
      forall env: Env | Sane(env) && Scalars(env) && Meaning(e, env).Some?
        ensures Meaning(e, env) == Filled(e, placeholder, env)
      {
        MeaningIsPattern(e, env);
      }
    } else {
      var letter := TellApart(Pattern(e).value, RewrittenPattern(e, placeholder), Scalar);
      MeaningOfLetters(e, letter);
      MeaningIsPattern(e, Letters(letter, Scalar));
      assert Sane(Letters(letter, Scalar)) && Scalars(Letters(letter, Scalar));
      assert Meaning(e, Letters(letter, Scalar)) != Filled(e, placeholder, Letters(letter, Scalar));
    }
  }

  // ---- Clean expressions --------------------------------------------------------------------------------------

  predicate PlainPieces(pieces: seq<Piece>) {
    forall i :: 0 <= i < |pieces| && pieces[i].Formatted? ==> HowOf(pieces[i].conversion, pieces[i].spec) == Shown
  }

  /** What a caller can read off the expression: % literals use %s alone and no other percent sign; format
      literals have no stray brace and take their arguments in order; f-strings have no conversion and no spec. */
  predicate Clean(e: Expr) {
    match e
    case Add(l, r) => Clean(l) && Clean(r)
    case Mod(f, _) => f.Str? && PercentClean(f.text)
    case FString(pieces) => PlainPieces(pieces)
    case Format(receiver, _, _) => receiver.Str? && BraceClean(receiver.text)
    case _ => true
  }

  lemma {:induction false} PlainPiecesAgree(pieces: seq<Piece>)
    requires PlainPieces(pieces)
    ensures Holes(PieceTemplate(pieces)) == |PieceParams(pieces)|
    ensures PieceItems(pieces) == Bind(PieceTemplate(pieces), PieceParams(pieces))
  {
    HolesOfPieces(pieces);
    if pieces != [] {
      PlainPiecesAgree(pieces[1..]);
      if pieces[0].Constant? {
        TextHasNoHoles(pieces[0].text);
        BindSplits(AsText(pieces[0].text), PieceTemplate(pieces[1..]), [], PieceParams(pieces[1..]));
      } else {
        var op := pieces[0].value;
        assert Bind([Hole], [op]) == [Val(op, Shown)] + Bind([], []);
        BindSplits([Hole], PieceTemplate(pieces[1..]), [op], PieceParams(pieces[1..]));
      }
    }
  }

  /** A clean accepted expression never raises by itself, and keeps its meaning in every environment. */
  lemma {:induction false} CleanPatternsAgree(e: Expr, placeholder: string)
    requires Accepts(e, placeholder) && Clean(e)
    ensures Pattern(e) == Some(RewrittenPattern(e, placeholder))
  {
    match e
    case Str(text) => TextHasNoHoles(text);
    case Add(l, r) =>
      CleanPatternsAgree(l, placeholder);
      CleanPatternsAgree(r, placeholder);
      RewrittenSum(l, r, placeholder);
    case Mod(f, right) => CleanPercentAgrees(f.text, ValuesOf(right), None);
    case FString(pieces) => PlainPiecesAgree(pieces);
    case Format(receiver, args, keywords) => CleanBraceAgrees(receiver.text, args, keywords);
    case Value(op) =>
      assert Holes([Hole]) == 1 + Holes([Hole][1..]);
      assert Bind([Hole], [op]) == [Val(op, Shown)] + Bind([Hole][1..], [op][1..]) == [Val(op, Shown)];
  }

  lemma CleanKeepsMeaning(e: Expr, placeholder: string)
    requires Accepts(e, placeholder) && Clean(e)
    ensures Pattern(e).Some? && KeepsMeaning(e, placeholder)
  {
    CleanPatternsAgree(e, placeholder);
    KeepsMeaningIffPatternsAgree(e, placeholder);
  }

  // ---- Only clean expressions ---------------------------------------------------------------------------------

  /** Every operand text an expression mentions. */
  function Operands(e: Expr): set<Operand> {
    match e
    case Add(l, r) => Operands(l) + Operands(r)
    case Mod(_, right) => set op | op in ValuesOf(right)
    case FString(pieces) => set i | 0 <= i < |pieces| && pieces[i].Formatted? :: pieces[i].value
    case Format(_, args, keywords) => (set op | op in args) + keywords.Values
    case Value(op) => {op}
    case _ => {}
  }

  /** No operand text occurs twice. */
  predicate Separate(e: Expr) {
    match e
    case Add(l, r) => Separate(l) && Separate(r) && Operands(l) !! Operands(r)
    case Mod(_, right) => Distinct(ValuesOf(right))
    case Format(_, args, keywords) => Distinct(args) && forall op :: op in args ==> op !in keywords.Values
    case _ => true
  }

  predicate OwnedBy(p: seq<Item>, owners: set<Operand>) {
    forall i :: 0 <= i < |p| ==> p[i].Val? && p[i].op in owners
  }

  function Owning(p: seq<Item>, owners: set<Operand>): seq<Item> {
    if p == [] then [] else (if p[0].Val? && p[0].op in owners then [p[0]] else []) + Owning(p[1..], owners)
  }

  lemma {:induction false} OwningSplits(x: seq<Item>, y: seq<Item>, a: set<Operand>, b: set<Operand>)
    requires OwnedBy(x, a) && OwnedBy(y, b) && a !! b
    ensures Owning(x + y, a) == x
  {
    if x != [] {
      assert (x + y)[1..] == x[1..] + y;
      OwningSplits(x[1..], y, a, b);
    } else if y != [] {
      assert x + y == y && y[1..] == [] + y[1..];
      OwningSplits([], y[1..], a, b);
    }
  }

  lemma SplitByOwner(x: seq<Item>, y: seq<Item>, u: seq<Item>, v: seq<Item>, a: set<Operand>, b: set<Operand>)
    requires x + y == u + v && a !! b
    requires OwnedBy(x, a) && OwnedBy(u, a) && OwnedBy(y, b) && OwnedBy(v, b)
    ensures x == u && y == v
  {
    OwningSplits(x, y, a, b);
    OwningSplits(u, v, a, b);
    assert (x + y)[|x|..] == y && (u + v)[|u|..] == v;
  }

  lemma {:induction false} PiecesOwned(pieces: seq<Piece>)
    ensures OwnedBy(Vals(PieceItems(pieces)), Operands(FString(pieces)))
    ensures forall op :: op in PieceParams(pieces) ==> op in Operands(FString(pieces))
  {
    if pieces != [] {
      PiecesOwned(pieces[1..]);
      assert forall op :: op in Operands(FString(pieces[1..])) ==> op in Operands(FString(pieces)) by {
        assert forall i :: 0 <= i < |pieces[1..]| ==> pieces[1..][i] == pieces[i + 1];
      }
      match pieces[0]
      case Constant(text) =>
        TextHasNoHoles(text);
        assert PieceItems(pieces) == TextItems(text) + PieceItems(pieces[1..]);
        ValsSplit(TextItems(text), PieceItems(pieces[1..]));
      case Formatted(value, conversion, spec) =>
        var first := [Val(value, HowOf(conversion, spec))];
        assert Vals(first) == first + Vals([]);
        ValsSplit(first, PieceItems(pieces[1..]));
        assert pieces[0].value in Operands(FString(pieces));
    }
  }

  lemma {:induction false} ResolveOwned(toks: seq<Token>, next: nat, args: seq<Operand>, keywords: map<string, Operand>)
    requires Resolve(toks, next, args, keywords).Some?
    ensures OwnedBy(Vals(Resolve(toks, next, args, keywords).value), (set op | op in args) + keywords.Values)
  {
    if toks != [] {
      var next' := next + UnnamedsIn(toks[0]);
      var p := Resolve(toks, next, args, keywords).value;
      ResolveOwned(toks[1..], next', args, keywords);
      assert p[1..] == Resolve(toks[1..], next', args, keywords).value;
    }
  }

  lemma ShownOwned(ops: seq<Operand>, owners: set<Operand>)
    requires forall op :: op in ops ==> op in owners
    ensures OwnedBy(ShownVals(ops), owners)
  {
  }

  lemma {:induction false} Owned(e: Expr, placeholder: string)
    requires Accepts(e, placeholder) && Pattern(e).Some?
    ensures OwnedBy(Vals(Pattern(e).value), Operands(e))
    ensures forall op :: op in Params(e) ==> op in Operands(e)
  {
    match e
    case Str(text) => TextHasNoHoles(text);
    case Add(l, r) =>
      Owned(l, placeholder);
      Owned(r, placeholder);
      ValsSplit(Pattern(l).value, Pattern(r).value);
    case Mod(f, right) => PercentOwned(f.text, ValuesOf(right), Operands(e));
    case FString(pieces) => PiecesOwned(pieces);
    case Format(receiver, args, keywords) =>
      ResolveOwned(PyTokens(receiver.text, 1).value, 0, args, keywords);
    case Value(op) => assert Vals([Val(op, Shown)]) == [Val(op, Shown)] + Vals([]);
  }

  function Special(p: seq<Item>): nat {
    InItems(Brace, p) + InItems(Percent, p)
  }

  lemma ConstantPiece(pieces: seq<Piece>)
    requires pieces != [] && pieces[0].Constant?
    ensures Vals(PieceItems(pieces)) == Vals(PieceItems(pieces[1..])) && PieceParams(pieces) == PieceParams(pieces[1..])
    ensures forall k :: InItems(k, PieceItems(pieces)) - InSlots(k, PieceTemplate(pieces))
                        == InItems(k, PieceItems(pieces[1..])) - InSlots(k, PieceTemplate(pieces[1..]))
  {
    var text, rest := pieces[0].text, pieces[1..];
    TextHasNoHoles(text);
    assert PieceItems(pieces) == TextItems(text) + PieceItems(rest);
    ValsSplit(TextItems(text), PieceItems(rest));
    HolesSplit(AsText(text), PieceTemplate(rest));
  }

  lemma FormattedPiece(pieces: seq<Piece>)
    requires pieces != [] && pieces[0].Formatted?
    ensures Vals(PieceItems(pieces)) ==
              [Val(pieces[0].value, HowOf(pieces[0].conversion, pieces[0].spec))] + Vals(PieceItems(pieces[1..]))
    ensures PieceParams(pieces) == [pieces[0].value] + PieceParams(pieces[1..])
    ensures forall k :: InItems(k, PieceItems(pieces)) - InSlots(k, PieceTemplate(pieces))
                        == InItems(k, PieceItems(pieces[1..])) - InSlots(k, PieceTemplate(pieces[1..]))
  {
    assert PieceItems(pieces)[1..] == PieceItems(pieces[1..]);
    assert PieceTemplate(pieces)[1..] == PieceTemplate(pieces[1..]);
  }

  lemma PlainFirst(pieces: seq<Piece>)
    requires pieces != [] && PlainPieces(pieces[1..])
    requires pieces[0].Formatted? ==> HowOf(pieces[0].conversion, pieces[0].spec) == Shown
    ensures PlainPieces(pieces)
  {
    forall i | 0 < i < |pieces| && pieces[i].Formatted?
      ensures HowOf(pieces[i].conversion, pieces[i].spec) == Shown
    {
      assert pieces[i] == pieces[1..][i - 1];
    }
  }

  lemma {:induction false} PiecesExcess(pieces: seq<Piece>)
    requires Vals(PieceItems(pieces)) == ShownVals(PieceParams(pieces))
    ensures PlainPieces(pieces)
    ensures forall k :: InItems(k, PieceItems(pieces)) == InSlots(k, PieceTemplate(pieces))
  {
    if pieces != [] {
      var rest := pieces[1..];
      if pieces[0].Constant? {
        ConstantPiece(pieces);
      } else {
        FormattedPiece(pieces);
      }
      if pieces[0].Formatted? {
        assert Vals(PieceItems(pieces))[0] == ShownVals(PieceParams(pieces))[0];
        assert Vals(PieceItems(pieces))[1..] == Vals(PieceItems(rest));
        assert ShownVals(PieceParams(pieces))[1..] == ShownVals(PieceParams(rest));
      }
      PiecesExcess(rest);
      PlainFirst(pieces);
    }
  }

  /** Where the operands come out the same, the rewritten query never has fewer braces and percent signs than the
      original, and has as many exactly when the expression is clean. */
  lemma {:induction false} Excess(e: Expr, placeholder: string)
    requires Accepts(e, placeholder) && Separate(e) && Pattern(e).Some?
    requires Vals(Pattern(e).value) == ShownVals(Params(e))
    ensures Special(RewrittenPattern(e, placeholder)) >= Special(Pattern(e).value)
    ensures Special(RewrittenPattern(e, placeholder)) == Special(Pattern(e).value) ==> Clean(e)
    decreases e, 1
  {
    HolesAreParams(e, placeholder);
    BindVals(Template(e), Params(e));
    match e
    case Str(text) => TextHasNoHoles(text);
    case Add(l, r) => ExcessOfSum(l, r, placeholder);
    case Mod(f, right) => PercentExcess(f.text, ValuesOf(right), None);
    case FString(pieces) => PiecesExcess(pieces);
    case Format(receiver, args, keywords) => BraceExcess(receiver.text, args, keywords);
    case Value(op) => CleanPatternsAgree(e, placeholder);
  }

  lemma OwnedVals(e: Expr, placeholder: string, p: seq<Item>, ops: seq<Operand>)
    requires Accepts(e, placeholder) && Pattern(e) == Some(p) && Params(e) == ops
    ensures OwnedBy(Vals(p), Operands(e)) && OwnedBy(ShownVals(ops), Operands(e))
  {
    Owned(e, placeholder);
    ShownOwned(ops, Operands(e));
  }

  lemma ShownSplit(a: seq<Operand>, b: seq<Operand>)
    ensures ShownVals(a + b) == ShownVals(a) + ShownVals(b)
  {
  }

  lemma SidesAgree(p: seq<Item>, q: seq<Item>, a: seq<Operand>, b: seq<Operand>, left: set<Operand>, right: set<Operand>)
    requires Vals(p + q) == ShownVals(a + b) && left !! right
    requires OwnedBy(Vals(p), left) && OwnedBy(ShownVals(a), left) && OwnedBy(Vals(q), right) && OwnedBy(ShownVals(b), right)
    ensures Vals(p) == ShownVals(a) && Vals(q) == ShownVals(b)
  {
    ValsSplit(p, q);
    ShownSplit(a, b);
    SplitByOwner(Vals(p), Vals(q), ShownVals(a), ShownVals(b), left, right);
  }

  /** Operands that are told apart stay on their side of a sum. */
  lemma SumSplits(l: Expr, r: Expr, placeholder: string)
    requires Accepts(Add(l, r), placeholder) && Separate(Add(l, r)) && Pattern(l).Some? && Pattern(r).Some?
    requires Vals(Pattern(l).value + Pattern(r).value) == ShownVals(Params(l) + Params(r))
    ensures Vals(Pattern(l).value) == ShownVals(Params(l)) && Vals(Pattern(r).value) == ShownVals(Params(r))
  {
    OwnedVals(l, placeholder, Pattern(l).value, Params(l));
    OwnedVals(r, placeholder, Pattern(r).value, Params(r));
    SidesAgree(Pattern(l).value, Pattern(r).value, Params(l), Params(r), Operands(l), Operands(r));
  }

  lemma RewrittenSum(l: Expr, r: Expr, placeholder: string)
    requires Accepts(Add(l, r), placeholder)
    ensures RewrittenPattern(Add(l, r), placeholder) == RewrittenPattern(l, placeholder) + RewrittenPattern(r, placeholder)
  {
    HolesAreParams(l, placeholder);
    HolesAreParams(r, placeholder);
    BindSplits(Template(l), Template(r), Params(l), Params(r));
  }

  lemma {:induction false} ExcessOfSum(l: Expr, r: Expr, placeholder: string)
    requires Accepts(Add(l, r), placeholder) && Separate(Add(l, r)) && Pattern(Add(l, r)).Some?
    requires Vals(Pattern(Add(l, r)).value) == ShownVals(Params(Add(l, r)))
    ensures Special(RewrittenPattern(Add(l, r), placeholder)) >= Special(Pattern(Add(l, r)).value)
    ensures Special(RewrittenPattern(Add(l, r), placeholder)) == Special(Pattern(Add(l, r)).value) ==> Clean(Add(l, r))
    decreases Add(l, r), 0
  {
    SumSplits(l, r, placeholder);
    Excess(l, placeholder);
    Excess(r, placeholder);
    RewrittenSum(l, r, placeholder);
    ValsSplit(Pattern(l).value, Pattern(r).value);
    ValsSplit(RewrittenPattern(l, placeholder), RewrittenPattern(r, placeholder));
  }

  /** Main result of the recipe, for every accepted expression whose operands are told apart: the rewrite keeps
      the meaning in every environment exactly when the expression is clean, or can only raise. */
  lemma KeepsMeaningIffClean(e: Expr, placeholder: string)
    requires Accepts(e, placeholder) && Separate(e)
    ensures KeepsMeaning(e, placeholder) <==> Pattern(e).None? || Clean(e)
  {
    KeepsMeaningIffPatternsAgree(e, placeholder);
    if Pattern(e).Some? && Pattern(e).value == RewrittenPattern(e, placeholder) {
      HolesAreParams(e, placeholder);
      BindVals(Template(e), Params(e));
      Excess(e, placeholder);
    }
    if Clean(e) {
      CleanPatternsAgree(e, placeholder);
    }
  }

  /** An accepted f-string keeps its meaning exactly when none of its fields has a format spec or a conversion that
      changes how its value prints. */
  lemma FStringKeepsMeaningIff(pieces: seq<Piece>, placeholder: string)
    requires Accepts(FString(pieces), placeholder)
    ensures KeepsMeaning(FString(pieces), placeholder) <==>
            forall i :: 0 <= i < |pieces| && pieces[i].Formatted? ==> HowOf(pieces[i].conversion, pieces[i].spec) == Shown
  {
    KeepsMeaningIffClean(FString(pieces), placeholder);
  }

  /** One that does not: f"with {x:.2f}" is accepted. */
  lemma FormatSpecIsDropped(placeholder: string)
    ensures var e := FString([Constant("with "), Formatted("x", NoConversion, ".2f")]);
            Accepts(e, placeholder) && !KeepsMeaning(e, placeholder)
  {
    var pieces := [Constant("with "), Formatted("x", NoConversion, ".2f")];
    assert PieceTemplate(pieces) == AsText("with ") + PieceTemplate(pieces[1..]);
    RenderSplits(AsText("with "), PieceTemplate(pieces[1..]), placeholder);
    RenderText("with ", placeholder);
    var text := Render(PieceTemplate(pieces), placeholder);
    assert text[..5] == "with ";
    assert Lower(text)[0..][..5] == "with ";
    assert SQL_KEYWORDS[5] == "with " && Contains(Lower(text), SQL_KEYWORDS[5]);
    assert pieces[1].Formatted? && !PlainPieces(pieces);
    KeepsMeaningIffClean(FString(pieces), placeholder);
  }

  // ---- The sole operand of % -------------------------------------------------------------------------------------

  /** A sole operand of this kind is told apart from the parameter the rewrite makes of it. */
  lemma ShapeTells(lit: string, x: Operand, placeholder: string, shape: Shape, p: seq<Item>)
    requires Accepts(Mod(Str(lit), Sole(x)), placeholder)
    requires PercentPattern(Str(lit), Sole(x), shape) == Some(p) && p != RewrittenPattern(Mod(Str(lit), Sole(x)), placeholder)
    ensures !KeepsMeaningOfAny(Mod(Str(lit), Sole(x)), placeholder)
  {
    var e := Mod(Str(lit), Sole(x));
    var letter := TellApart(p, RewrittenPattern(e, placeholder), shape);
    var env := Letters(letter, shape);
    InstantiateLetters(p, letter, shape);
    InstantiateLetters(RewrittenPattern(e, placeholder), letter, shape);
    assert env.shape(x) == shape;
    assert Sane(env) && Meaning(e, env) == Instantiate(p, env);
  }

  /** The elements of a tuple are not the tuple. */
  lemma ElementsAreOthers(lit: string, x: Operand, n: nat)
    requires PercentItems(lit, Elements(x, n), None).Some?
    ensures Vals(PercentItems(lit, Elements(x, n), None).value) != ShownVals([x])
  {
    var vals := Vals(PercentItems(lit, Elements(x, n), None).value);
    PercentOwned(lit, Elements(x, n), set op | op in Elements(x, n));
    forall v | v in vals ensures v.Val? && v.op != x {
      var i :| 0 <= i < n && Elements(x, n)[i] == v.op;
      assert |Element(x, i)| > |x|;
    }
    assert ShownVals([x])[0].op == x && ShownVals([x])[0] in ShownVals([x]);
  }

  /** A reading that is the rewritten query takes one operand for a lone %s. */
  lemma SameReadingIsClean(lit: string, x: Operand, placeholder: string, shape: Shape)
    requires Accepts(Mod(Str(lit), Sole(x)), placeholder)
    requires PercentPattern(Str(lit), Sole(x), shape) == Some(RewrittenPattern(Mod(Str(lit), Sole(x)), placeholder))
    ensures PercentClean(lit)
  {
    BindVals(PercentTemplate(lit), [x]);
    if shape.Tuple? {
      ElementsAreOthers(lit, x, shape.size);
    } else {
      PercentReadingsAgreeIff(lit, [x], MappingOf(Sole(x), shape));
    }
  }

  /** A query formatted by % with one operand that is no tuple display keeps its meaning, whatever the operand is, only if
      it raises whatever the operand is: a tuple is taken apart by %, and handed on whole by the rewrite. */
  lemma SoleOperandKeepsIff(lit: string, x: Operand, placeholder: string)
    requires Accepts(Mod(Str(lit), Sole(x)), placeholder)
    ensures KeepsMeaningOfAny(Mod(Str(lit), Sole(x)), placeholder)
            <==> forall shape: Shape :: PercentPattern(Str(lit), Sole(x), shape).None?
  {
    var e := Mod(Str(lit), Sole(x));
    if shape: Shape :| PercentPattern(Str(lit), Sole(x), shape).Some? {
      var p := PercentPattern(Str(lit), Sole(x), shape).value;
      if p == RewrittenPattern(e, placeholder) {
        SameReadingIsClean(lit, x, placeholder, shape);
        CleanPercentAgrees(lit, [Element(x, 0)], None);
        BindVals(PercentTemplate(lit), [Element(x, 0)]);
        BindVals(PercentTemplate(lit), [x]);
        assert Elements(x, 1) == [Element(x, 0)];
        ElementsAreOthers(lit, x, 1);
        ShapeTells(lit, x, placeholder, Tuple(1), Bind(PercentTemplate(lit), [Element(x, 0)]));
      } else {
        ShapeTells(lit, x, placeholder, shape, p);
      }
    } else {
      forall env: Env ensures Meaning(e, env).None? {
        assert PercentPattern(Str(lit), Sole(x), env.shape(x)).None?;
      }
    }
  }

  // ---- Placeholders ----------------------------------------------------------------------------------------------

  /** The literal text up to the first hole. */
  function FirstRun(t: seq<Slot>): (run: string)
    ensures |run| <= |t| && (|run| < |t| ==> t[|run|] == Hole)
    ensures forall i :: 0 <= i < |run| ==> t[i] == Text(run[i])
  {
    if t == [] || t[0].Hole? then "" else [t[0].c] + FirstRun(t[1..])
  }

  /** Occurrences of the placeholder that the literal runs of a template hold by themselves. */
  function Accidental(t: seq<Slot>, placeholder: string): nat
    requires placeholder != ""
    decreases |t|
  {
    var run := FirstRun(t);
    Count(placeholder, run) + if |run| == |t| then 0 else Accidental(t[|run| + 1..], placeholder)
  }

  lemma RunThenHole(t: seq<Slot>, placeholder: string)
    requires |FirstRun(t)| < |t|
    ensures var run := FirstRun(t);
            && Render(t, placeholder) == run + placeholder + Render(t[|run| + 1..], placeholder)
            && Holes(t) == 1 + Holes(t[|run| + 1..])
  {
    var run := FirstRun(t);
    var rest := t[|run| + 1..];
    assert t == AsText(run) + ([Hole] + rest);
    RenderSplits(AsText(run), [Hole] + rest, placeholder);
    RenderText(run, placeholder);
    HolesSplit(AsText(run), [Hole] + rest);
    TextHasNoHoles(run);
    assert ([Hole] + rest)[1..] == rest;
  }

  lemma {:induction false} PlaceholdersCounted(t: seq<Slot>, placeholder: string)
    requires placeholder != "" && !Bordered(placeholder)
    ensures Count(placeholder, Render(t, placeholder)) == Holes(t) + Accidental(t, placeholder)
    decreases |t|
  {
    var run := FirstRun(t);
    if |run| == |t| {
      assert t == AsText(run);
      RenderText(run, placeholder);
      TextHasNoHoles(run);
    } else {
      var rest := t[|run| + 1..];
      RunThenHole(t, placeholder);
      CountAround(placeholder, run, Render(rest, placeholder));
      PlaceholdersCounted(rest, placeholder);
    }
  }

  /** The emitted text holds as many placeholders as there are parameters exactly when no literal run of it
      holds one by accident; runs join the neighbouring literals of the original. */
  lemma PlaceholdersMatchParametersIff(e: Expr, placeholder: string)
    requires Accepts(e, placeholder) && placeholder != "" && !Bordered(placeholder)
    ensures Count(placeholder, Render(Template(e), placeholder)) == |Params(e)|
            <==> Accidental(Template(e), placeholder) == 0
  {
    HolesAreParams(e, placeholder);
    PlaceholdersCounted(Template(e), placeholder);
  }
}
