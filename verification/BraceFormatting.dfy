/** str.format literals: Python's grammar of escapes, fields and nested fields ("Format String Syntax" of its Library
    Reference), the recipe's regular expression, and exactly when they agree. */
module BraceFormatting {
  import opened Wrappers
  import opened Formatting
  import opened Occurrences
  import Decimal

  /** A field: what names its value, the way from there to what is shown, its conversion and its format spec. */
  datatype Token = Plain(c: char) | Field(name: string, path: string, conversion: Option<char>, spec: seq<Token>)

  // ---- Python's reading ------------------------------------------------------------------------------

  function PrependToken(x: Token, rest: Option<seq<Token>>): Option<seq<Token>> {
    match rest
    case None => None
    case Some(toks) => Some([x] + toks)
  }

  function PlainTokens(text: string): (toks: seq<Token>)
    ensures |toks| == |text|
  {
    seq(|text|, i requires 0 <= i < |text| => Plain(text[i]))
  }

  /** Up to the end of a bracketed index. */
  function BracketEnd(s: string): (n: nat)
    ensures n <= |s|
  {
    if s == "" || s[0] == ']' then 0 else 1 + BracketEnd(s[1..])
  }

  /** The length of a field's name: up to a conversion, a spec or the end of the field; brackets hide these. None for an
      opening brace, or when the text is over. */
  function NameEnd(s: string): (n: Option<nat>)
    ensures n.Some? ==> n.value < |s| && s[n.value] in "}:!"
    decreases |s|
  {
    if s == "" || s[0] == '{' then None
    else if s[0] in "}:!" then Some(0)
    else
      var skip := if s[0] == '[' then 1 + BracketEnd(s[1..]) else 1;
      match NameEnd(s[skip..])
      case None => None
      case Some(n) => Some(skip + n)
  }

  /** The length of a format spec: up to the brace that closes the given number of open ones. */
  function SpecEnd(s: string, open: nat): (n: Option<nat>)
    ensures n.Some? ==> n.value < |s| && s[n.value] == '}'
  {
    if s == "" then None
    else if s[0] == '}' && open <= 1 then Some(0)
    else
      match SpecEnd(s[1..], if s[0] == '{' then open + 1 else if s[0] == '}' then open - 1 else open)
      case None => None
      case Some(n) => Some(n + 1)
  }

  /** The parts of a field as they are written, and the length up to and with its closing brace. */
  datatype RawField = RawField(name: string, conversion: Option<char>, spec: string, length: nat)

  /** A field behind its opening brace. */
  function ReadField(s: string): (r: Option<RawField>)
    ensures r.Some? ==> 1 <= r.value.length <= |s| && s[r.value.length - 1] == '}' && |r.value.spec| < r.value.length
  {
    match NameEnd(s)
    case None => None
    case Some(n) =>
      if s[n] == '}' then Some(RawField(s[..n], None, "", n + 1))
      else if s[n] == ':' then ReadSpec(s, n, None, n + 1)
      else if n + 2 >= |s| then None
      else if s[n + 2] == '}' then Some(RawField(s[..n], Some(s[n + 1]), "", n + 3))
      else if s[n + 2] == ':' then ReadSpec(s, n, Some(s[n + 1]), n + 3)
      else None
  }

  function ReadSpec(s: string, name: nat, conversion: Option<char>, start: nat): (r: Option<RawField>)
    requires name < start <= |s|
    ensures r.Some? ==> start < r.value.length <= |s| && s[r.value.length - 1] == '}' && |r.value.spec| < r.value.length
  {
    match SpecEnd(s[start..], 1)
    case None => None
    case Some(n) => Some(RawField(s[..name], conversion, s[start..start + n], start + n + 1))
  }

  /** The name of the value, before any attribute or index. */
  function FirstName(text: string): (n: nat)
    ensures n <= |text|
  {
    if text == "" || text[0] == '.' || text[0] == '[' then 0 else 1 + FirstName(text[1..])
  }

  /** Attributes and indices, none of them empty. */
  predicate ValidPath(path: string)
    decreases |path|
  {
    if path == "" then true
    else if path[0] == '.' then
      var n := FirstName(path[1..]);
      n > 0 && ValidPath(path[1 + n..])
    else
      var n := BracketEnd(path[1..]);
      path[0] == '[' && 0 < n && n + 1 < |path| && ValidPath(path[n + 2..])
  }

  /** Doubled braces stand for one; a lone one opens a field, whose spec may hold fields as deep as is still allowed. */
  function PyTokens(lit: string, depth: nat): Option<seq<Token>>
    decreases |lit|, 0
  {
    if lit == "" then Some([])
    else if !IsKind(Brace, lit[0]) then PrependToken(Plain(lit[0]), PyTokens(lit[1..], depth))
    else if |lit| >= 2 && lit[1] == lit[0] then PrependToken(Plain(lit[0]), PyTokens(lit[2..], depth))
    else if lit[0] == '}' then None
    else
      match ReadField(lit[1..])
      case None => None
      case Some(f) =>
        match SpecTokens(f.spec, depth)
        case None => None
        case Some(spec) =>
          PrependToken(Field(f.name[..FirstName(f.name)], f.name[FirstName(f.name)..], f.conversion, spec),
                       PyTokens(lit[1 + f.length..], depth))
  }

  function SpecTokens(spec: string, depth: nat): Option<seq<Token>>
    decreases |spec|, 1
  {
    if '{' !in spec then Some(PlainTokens(spec)) else if depth == 0 then None else PyTokens(spec, depth - 1)
  }

  function HowOf(conversion: Conversion, spec: string): How {
    HowOfField("", conversion, TextItems(spec))
  }

  function HowOfField(path: string, conversion: Conversion, spec: seq<Item>): How {
    if path == "" && spec == [] && (conversion.NoConversion? || conversion.AsStr?) then Shown else Spec(path, conversion, spec)
  }

  function ConversionOf(c: Option<char>): Option<Conversion> {
    match c
    case None => Some(NoConversion)
    case Some('s') => Some(AsStr)
    case Some('r') => Some(AsRepr)
    case Some('a') => Some(AsAscii)
    case _ => None
  }

  function OperandOf(name: string, next: nat, args: seq<Operand>, keywords: map<string, Operand>): Option<Operand> {
    if Decimal.AllDigits(name) then
      var index := if name == "" then next else Decimal.Value(name);
      if index < |args| then Some(args[index]) else None
    else if name in keywords then Some(keywords[name])
    else None
  }

  /** How many fields take the next argument. */
  function Unnameds(toks: seq<Token>): nat {
    if toks == [] then 0 else UnnamedsIn(toks[0]) + Unnameds(toks[1..])
  }

  function UnnamedsIn(tok: Token): nat {
    match tok
    case Plain(_) => 0
    case Field(name, _, _, spec) => (if name == "" then 1 else 0) + Unnameds(spec)
  }

  /** A field without a name takes the next argument, and the fields of its spec come after it. */
  function ItemOf(tok: Token, next: nat, args: seq<Operand>, keywords: map<string, Operand>): Option<Item>
    decreases tok
  {
    match tok
    case Plain(c) => Some(Ch(c))
    case Field(name, path, conversion, spec) =>
      var op := OperandOf(name, next, args, keywords);
      var shape := Resolve(spec, if name == "" then next + 1 else next, args, keywords);
      if op.None? || !ValidPath(path) || ConversionOf(conversion).None? || shape.None? then None
      else Some(Val(op.value, HowOfField(path, ConversionOf(conversion).value, shape.value)))
  }

  function Resolve(toks: seq<Token>, next: nat, args: seq<Operand>, keywords: map<string, Operand>): Option<seq<Item>>
    decreases toks
  {
    if toks == [] then Some([])
    else
      var item := ItemOf(toks[0], next, args, keywords);
      if item.None? then None
      else Prepend(item.value, Resolve(toks[1..], next + UnnamedsIn(toks[0]), args, keywords))
  }

  predicate Numbered(tok: Token) {
    tok.Field? && ((tok.name != "" && Decimal.AllDigits(tok.name)) || SomeNumbered(tok.spec))
  }

  predicate SomeNumbered(toks: seq<Token>) {
    exists i :: 0 <= i < |toks| && Numbered(toks[i])
  }

  /** Automatic and manual numbering may not be mixed. */
  predicate Mixed(toks: seq<Token>) {
    Unnameds(toks) > 0 && SomeNumbered(toks)
  }

  /** What literal.format(args, keywords) evaluates to; None when it raises. Specs may hold fields, theirs may not. */
  function FormatItems(lit: string, args: seq<Operand>, keywords: map<string, Operand>): Option<seq<Item>> {
    match PyTokens(lit, 1)
    case None => None
    case Some(toks) => if Mixed(toks) then None else Resolve(toks, 0, args, keywords)
  }

  // ---- The recipe's reading --------------------------------------------------------------------------

  /** The length of a match of \{\d*\} at the front; 0 without one. */
  function MatchLength(lit: string): (n: nat)
    ensures n <= |lit| && n != 1
  {
    if lit == "" || lit[0] != '{' then 0
    else
      var d := Digits(lit[1..]);
      if d + 1 < |lit| && lit[d + 1] == '}' then d + 2 else 0
  }

  function BraceTemplate(lit: string): seq<Slot>
    decreases |lit|
  {
    if lit == "" then []
    else
      var n := MatchLength(lit);
      if n > 0 then [Hole] + BraceTemplate(lit[n..]) else [Text(lit[0])] + BraceTemplate(lit[1..])
  }

  /** The digits of each match, in order. */
  function Names(lit: string): (names: seq<string>)
    ensures |names| == Holes(BraceTemplate(lit))
    ensures forall i :: 0 <= i < |names| ==> Decimal.AllDigits(names[i])
    decreases |lit|
  {
    if lit == "" then []
    else
      var n := MatchLength(lit);
      assert n > 0 ==> BraceTemplate(lit)[1..] == BraceTemplate(lit[n..]);
      assert n == 0 ==> BraceTemplate(lit)[1..] == BraceTemplate(lit[1..]);
      if n > 0 then
        assert lit[1..][..n - 2] == lit[1..n - 1];
        [lit[1..n - 1]] + Names(lit[n..])
      else Names(lit[1..])
  }

  /** Matches of \{\d+\}. */
  function NumberedMatches(lit: string): nat
    decreases |lit|
  {
    if lit == "" then 0
    else if MatchLength(lit) > 2 then 1 + NumberedMatches(lit[MatchLength(lit)..])
    else NumberedMatches(lit[1..])
  }

  lemma MatchShape(lit: string)
    requires MatchLength(lit) > 0
    ensures lit[0] == '{' && lit[MatchLength(lit) - 1] == '}'
    ensures forall i :: 1 <= i < MatchLength(lit) - 1 ==> Decimal.IsDigit(lit[i])
  {
    var n := MatchLength(lit);
    assert forall i :: 1 <= i < n - 1 ==> lit[i] == lit[1..][..n - 2][i - 1];
  }

  lemma EmptyFieldCounted(lit: string)
    requires MatchLength(lit) == 2
    ensures Count("{}", lit) == 1 + Count("{}", lit[2..]) && NumberedMatches(lit) == NumberedMatches(lit[2..])
  {
    MatchShape(lit);
    assert lit[..2] == "{}";
    assert lit[1..][1..] == lit[2..] && MatchLength(lit[1..]) == 0;
  }

  lemma NumberedFieldCounted(lit: string)
    requires MatchLength(lit) > 2
    ensures Count("{}", lit) == Count("{}", lit[MatchLength(lit)..])
  {
    var n := MatchLength(lit);
    MatchShape(lit);
    assert lit[..2][1] == lit[1];
    assert forall i :: 0 <= i < n - 1 ==> lit[1..][i] == lit[i + 1] != '{';
    CountSkips("{}", lit[1..], n - 1);
    assert lit[1..][n - 1..] == lit[n..];
  }

  lemma NoFieldCounted(lit: string)
    requires lit != "" && MatchLength(lit) == 0
    ensures Count("{}", lit) == Count("{}", lit[1..])
  {
    if |lit| >= 2 && lit[0] == '{' {
      assert lit[1..][0] == lit[1] != '}';
      assert lit[..2][1] == lit[1];
    } else if |lit| >= 2 {
      assert lit[..2][0] == lit[0];
    }
  }

  /** literal.count("{}") plus the matches of \{\d+\} is the number of holes the substitution makes. */
  lemma {:induction false} CountIsHoles(lit: string)
    ensures Count("{}", lit) + NumberedMatches(lit) == Holes(BraceTemplate(lit))
    decreases |lit|
  {
    if lit != "" {
      var n := MatchLength(lit);
      var k := if n > 0 then n else 1;
      CountIsHoles(lit[k..]);
      assert BraceTemplate(lit)[1..] == BraceTemplate(lit[k..]);
      if n > 2 {
        NumberedFieldCounted(lit);
      } else if n == 2 {
        EmptyFieldCounted(lit);
      } else {
        NoFieldCounted(lit);
      }
    }
  }

  // ---- Counting special characters -----------------------------------------------------------------------

  function InTokens(k: Kind, toks: seq<Token>): nat {
    if toks == [] then 0 else (if toks[0].Plain? && IsKind(k, toks[0].c) then 1 else 0) + InTokens(k, toks[1..])
  }

  function Fields(toks: seq<Token>): nat {
    if toks == [] then 0 else (if toks[0].Field? then 1 else 0) + Fields(toks[1..])
  }

  lemma InTextPair(k: Kind, s: string)
    requires |s| >= 2
    ensures InText(k, s) == (if IsKind(k, s[0]) then 1 else 0) + (if IsKind(k, s[1]) then 1 else 0) + InText(k, s[2..])
  {
    assert s[1..][1..] == s[2..];
  }

  /** A braced stretch { ... } of n characters. */
  lemma InTextField(lit: string, n: nat)
    requires 2 <= n <= |lit| && lit[0] == '{' && lit[n - 1] == '}'
    ensures InText(Brace, lit) >= 2 + InText(Brace, lit[n..])
    ensures InText(Brace, lit[1..n - 1]) == 0 ==> InText(Brace, lit) == 2 + InText(Brace, lit[n..])
    ensures InText(Percent, lit) == InText(Percent, lit[1..n - 1]) + InText(Percent, lit[n..])
  {
    forall k: Kind ensures InText(k, lit) == (if k.Brace? then 2 else 0) + InText(k, lit[1..n - 1]) + InText(k, lit[n..]) {
      InTextSplits(k, lit[1..], n - 2);
      assert lit[1..][..n - 2] == lit[1..n - 1] && lit[1..][n - 2..] == lit[n - 1..];
      assert lit[n - 1..][1..] == lit[n..];
    }
  }

  /** Every brace in the text took two, and so did every field. */
  lemma {:induction false} TokenCounts(lit: string, depth: nat)
    requires PyTokens(lit, depth).Some?
    ensures var toks := PyTokens(lit, depth).value;
            && InText(Brace, lit) >= 2 * InTokens(Brace, toks) + 2 * Fields(toks)
            && InText(Percent, lit) >= InTokens(Percent, toks)
    decreases |lit|
  {
    if lit != "" {
      var toks := PyTokens(lit, depth).value;
      if !IsKind(Brace, lit[0]) {
        TokenCounts(lit[1..], depth);
        assert toks[1..] == PyTokens(lit[1..], depth).value;
      } else if |lit| >= 2 && lit[1] == lit[0] {
        TokenCounts(lit[2..], depth);
        assert toks[1..] == PyTokens(lit[2..], depth).value;
        InTextPair(Brace, lit);
        InTextPair(Percent, lit);
      } else {
        var n := 1 + ReadField(lit[1..]).value.length;
        TokenCounts(lit[n..], depth);
        assert toks[1..] == PyTokens(lit[n..], depth).value;
        assert lit[1..][n - 2] == lit[n - 1];
        InTextField(lit, n);
      }
    }
  }

  lemma {:induction false} DigitsHaveNoBrace(s: string)
    requires Decimal.AllDigits(s)
    ensures InText(Brace, s) == 0 && InText(Percent, s) == 0
  {
    if s != "" {
      DigitsHaveNoBrace(s[1..]);
    }
  }

  lemma {:induction false} BraceTemplateCounts(lit: string)
    ensures var t := BraceTemplate(lit);
            && InText(Brace, lit) == InSlots(Brace, t) + 2 * Holes(t)
            && InText(Percent, lit) == InSlots(Percent, t)
    decreases |lit|
  {
    if lit != "" {
      var t, n := BraceTemplate(lit), MatchLength(lit);
      if n > 0 {
        BraceTemplateCounts(lit[n..]);
        assert t[1..] == BraceTemplate(lit[n..]);
        assert lit[1..][..n - 2] == lit[1..n - 1];
        DigitsHaveNoBrace(lit[1..n - 1]);
        InTextField(lit, n);
      } else {
        BraceTemplateCounts(lit[1..]);
        assert t[1..] == BraceTemplate(lit[1..]);
      }
    }
  }

  lemma {:induction false} ResolveCounts(toks: seq<Token>, next: nat, args: seq<Operand>, keywords: map<string, Operand>)
    requires Resolve(toks, next, args, keywords).Some?
    ensures var p := Resolve(toks, next, args, keywords).value;
            |Vals(p)| == Fields(toks) && forall k :: InItems(k, p) == InTokens(k, toks)
  {
    if toks != [] {
      var next' := next + UnnamedsIn(toks[0]);
      var p := Resolve(toks, next, args, keywords).value;
      ResolveCounts(toks[1..], next', args, keywords);
      assert p[1..] == Resolve(toks[1..], next', args, keywords).value;
    }
  }

  // ---- When the readings agree ---------------------------------------------------------------------------

  predicate InOrder(names: seq<string>)
    requires forall i :: 0 <= i < |names| ==> Decimal.AllDigits(names[i])
  {
    (forall i :: 0 <= i < |names| ==> names[i] == "")
    || (forall i :: 0 <= i < |names| ==> names[i] != "" && Decimal.Value(names[i]) == i)
  }

  /** No brace outside the fields, and the fields number the arguments in order, all by hand or all by default. */
  predicate BraceClean(lit: string) {
    InSlots(Brace, BraceTemplate(lit)) == 0 && InOrder(Names(lit))
  }

  function Tokens(t: seq<Slot>, names: seq<string>): seq<Token>
    requires |names| == Holes(t)
  {
    if t == [] then []
    else if t[0].Hole? then [Field(names[0], "", None, [])] + Tokens(t[1..], names[1..])
    else [Plain(t[0].c)] + Tokens(t[1..], names)
  }

  lemma {:induction false} NameEndOfDigits(s: string)
    requires Digits(s) < |s| && s[Digits(s)] == '}'
    ensures NameEnd(s) == Some(Digits(s))
  {
    if Digits(s) > 0 {
      NameEndOfDigits(s[1..]);
    }
  }

  lemma {:induction false} DigitNames(name: string)
    requires Decimal.AllDigits(name)
    ensures FirstName(name) == |name|
  {
    if name != "" {
      DigitNames(name[1..]);
    }
  }

  /** Where the recipe sees a match, Python sees a field with a number or without a name. */
  lemma MatchedField(lit: string)
    requires MatchLength(lit) > 0
    ensures var n := MatchLength(lit);
            && ReadField(lit[1..]) == Some(RawField(lit[1..n - 1], None, "", n - 1))
            && Decimal.AllDigits(lit[1..n - 1]) && lit[1] != '{'
  {
    var n, s := MatchLength(lit), lit[1..];
    NameEndOfDigits(s);
    assert s[..n - 2] == lit[1..n - 1];
    if n > 2 {
      assert lit[1] == s[..n - 2][0];
    }
  }

  lemma MatchedToken(lit: string)
    requires MatchLength(lit) > 0
    ensures var n := MatchLength(lit);
            PyTokens(lit, 1) == PrependToken(Field(lit[1..n - 1], "", None, []), PyTokens(lit[n..], 1))
  {
    var n := MatchLength(lit);
    var name := lit[1..n - 1];
    MatchedField(lit);
    DigitNames(name);
    assert name[..|name|] == name && name[|name|..] == "" && PlainTokens("") == [];
    assert SpecTokens("", 1) == Some([]);
  }

  /** Without stray braces Python sees exactly the recipe's fields. */
  lemma {:induction false} CleanTokens(lit: string)
    requires InSlots(Brace, BraceTemplate(lit)) == 0
    ensures PyTokens(lit, 1) == Some(Tokens(BraceTemplate(lit), Names(lit)))
    decreases |lit|
  {
    if lit != "" {
      var t, n := BraceTemplate(lit), MatchLength(lit);
      if n > 0 {
        assert t[1..] == BraceTemplate(lit[n..]);
        CleanTokens(lit[n..]);
        MatchedToken(lit);
        assert Names(lit)[0] == lit[1..n - 1] && Names(lit)[1..] == Names(lit[n..]);
      } else {
        assert t[1..] == BraceTemplate(lit[1..]);
        CleanTokens(lit[1..]);
      }
    }
  }

  predicate AllNamed(names: seq<string>) {
    forall i :: 0 <= i < |names| ==> Decimal.AllDigits(names[i])
  }

  lemma PlainField(name: string, next: nat, args: seq<Operand>, keywords: map<string, Operand>)
    ensures var tok, op := Field(name, "", None, []), OperandOf(name, next, args, keywords);
            && ItemOf(tok, next, args, keywords) == (if op.None? then None else Some(Val(op.value, Shown)))
            && UnnamedsIn(tok) == (if name == "" then 1 else 0) && (Numbered(tok) <==> name != "" && Decimal.AllDigits(name))
  {
  }

  /** In-order fields resolve to the arguments in order. */
  lemma {:induction false} ResolveInOrder(
    t: seq<Slot>, names: seq<string>, base: nat, next: nat, args: seq<Operand>, keywords: map<string, Operand>)
    requires |names| == Holes(t) && AllNamed(names) && base + |names| == |args|
    requires (next == base && forall i :: 0 <= i < |names| ==> names[i] == "")
             || forall i :: 0 <= i < |names| ==> names[i] != "" && Decimal.Value(names[i]) == base + i
    ensures Resolve(Tokens(t, names), next, args, keywords) == Some(Bind(t, args[base..]))
  {
    if t != [] {
      var toks := Tokens(t, names);
      if t[0].Hole? {
        PlainField(names[0], next, args, keywords);
        assert ItemOf(toks[0], next, args, keywords) == Some(Val(args[base], Shown));
        ResolveInOrder(t[1..], names[1..], base + 1, if names[0] == "" then next + 1 else next, args, keywords);
        assert args[base..][1..] == args[base + 1..];
        assert toks[1..] == Tokens(t[1..], names[1..]);
      } else {
        ResolveInOrder(t[1..], names, base, next, args, keywords);
        assert toks[1..] == Tokens(t[1..], names);
      }
    }
  }

  predicate Distinct(ops: seq<Operand>) {
    forall i, j :: 0 <= i < j < |ops| ==> ops[i] != ops[j]
  }

  lemma ResolvePlainField(toks: seq<Token>, name: string, next: nat, args: seq<Operand>, keywords: map<string, Operand>)
    requires toks != [] && toks[0] == Field(name, "", None, []) && Resolve(toks, next, args, keywords).Some?
    ensures var op, rest := OperandOf(name, next, args, keywords), Resolve(toks[1..], if name == "" then next + 1 else next, args, keywords);
            && op.Some? && rest.Some? && Resolve(toks, next, args, keywords).value == [Val(op.value, Shown)] + rest.value
            && Vals(Resolve(toks, next, args, keywords).value) == [Val(op.value, Shown)] + Vals(rest.value)
  {
    PlainField(name, next, args, keywords);
    var p := Resolve(toks, next, args, keywords).value;
    assert p[1..] == Resolve(toks[1..], if name == "" then next + 1 else next, args, keywords).value;
  }

  /** Fields that resolve to distinct arguments in order are in order. */
  lemma {:induction false} ResolvedNumbers(
    t: seq<Slot>, names: seq<string>, base: nat, next: nat, args: seq<Operand>, keywords: map<string, Operand>)
    requires |names| == Holes(t) && AllNamed(names) && base + |names| == |args| && Distinct(args)
    requires var r := Resolve(Tokens(t, names), next, args, keywords); r.Some? && Vals(r.value) == ShownVals(args[base..])
    ensures forall i :: 0 <= i < |names| && names[i] != "" ==> Decimal.Value(names[i]) == base + i
  {
    if t != [] {
      var toks := Tokens(t, names);
      var p := Resolve(toks, next, args, keywords).value;
      if t[0].Hole? {
        var next' := if names[0] == "" then next + 1 else next;
        ResolvePlainField(toks, names[0], next, args, keywords);
        assert toks[1..] == Tokens(t[1..], names[1..]);
        assert ShownVals(args[base..])[1..] == ShownVals(args[base + 1..]);
        assert Vals(p)[1..] == Vals(Resolve(toks[1..], next', args, keywords).value);
        ResolvedNumbers(t[1..], names[1..], base + 1, next', args, keywords);
        assert p[0] == ShownVals(args[base..])[0] == Val(args[base], Shown);
        forall i | 0 <= i < |names| && names[i] != "" ensures Decimal.Value(names[i]) == base + i {
          if i > 0 {
            assert names[i] == names[1..][i - 1];
          }
        }
      } else {
        assert toks[1..] == Tokens(t[1..], names);
        assert p[1..] == Resolve(toks[1..], next, args, keywords).value;
        ResolvedNumbers(t[1..], names, base, next, args, keywords);
      }
    }
  }

  /** The tokens number themselves as the names do. */
  lemma {:induction false} TokensAreNamed(t: seq<Slot>, names: seq<string>)
    requires |names| == Holes(t) && AllNamed(names)
    ensures Unnameds(Tokens(t, names)) > 0 <==> exists i :: 0 <= i < |names| && names[i] == ""
    ensures SomeNumbered(Tokens(t, names)) <==> exists i :: 0 <= i < |names| && names[i] != ""
  {
    if t != [] {
      var toks := Tokens(t, names);
      var rest := if t[0].Hole? then names[1..] else names;
      assert toks[1..] == Tokens(t[1..], rest);
      TokensAreNamed(t[1..], rest);
      assert SomeNumbered(toks) <==> Numbered(toks[0]) || SomeNumbered(toks[1..]) by {
        FirstOrLater(toks);
      }
      if t[0].Hole? {
        FirstOrLaterName(names);
        PlainField(names[0], 0, [], map[]);
      }
    }
  }

  lemma FirstOrLaterName(names: seq<string>)
    requires names != []
    ensures (exists i :: 0 <= i < |names| && names[i] == "") <==>
            names[0] == "" || exists i :: 0 <= i < |names[1..]| && names[1..][i] == ""
    ensures (exists i :: 0 <= i < |names| && names[i] != "") <==>
            names[0] != "" || exists i :: 0 <= i < |names[1..]| && names[1..][i] != ""
  {
    assert forall i :: 0 < i < |names| ==> names[i] == names[1..][i - 1];
    forall i | 0 <= i < |names[1..]| ensures names[1..][i] == names[i + 1] {
    }
  }

  lemma FirstOrLater(toks: seq<Token>)
    requires toks != []
    ensures SomeNumbered(toks) <==> Numbered(toks[0]) || SomeNumbered(toks[1..])
  {
    assert forall i :: 0 < i < |toks| ==> toks[i] == toks[1..][i - 1];
    if SomeNumbered(toks[1..]) {
      var i :| 0 <= i < |toks[1..]| && Numbered(toks[1..][i]);
      assert Numbered(toks[i + 1]);
    }
  }

  lemma InOrderIsNotMixed(t: seq<Slot>, names: seq<string>)
    requires |names| == Holes(t) && AllNamed(names) && InOrder(names)
    ensures !Mixed(Tokens(t, names))
  {
    TokensAreNamed(t, names);
  }

  lemma NotMixedIsInOrder(t: seq<Slot>, names: seq<string>)
    requires |names| == Holes(t) && AllNamed(names) && !Mixed(Tokens(t, names))
    requires forall i :: 0 <= i < |names| && names[i] != "" ==> Decimal.Value(names[i]) == i
    ensures InOrder(names)
  {
    TokensAreNamed(t, names);
  }

  lemma CleanBraceAgrees(lit: string, args: seq<Operand>, keywords: map<string, Operand>)
    requires |args| == Holes(BraceTemplate(lit)) && BraceClean(lit)
    ensures FormatItems(lit, args, keywords) == Some(Bind(BraceTemplate(lit), args))
  {
    var t, names := BraceTemplate(lit), Names(lit);
    CleanTokens(lit);
    InOrderIsNotMixed(t, names);
    assert args[0..] == args;
    ResolveInOrder(t, names, 0, 0, args, keywords);
  }

  /** Where the operands come out the same, the template never has fewer special characters than the text,
      and has as many exactly when the literal is clean. */
  lemma BraceExcess(lit: string, args: seq<Operand>, keywords: map<string, Operand>)
    requires |args| == Holes(BraceTemplate(lit)) && Distinct(args)
    requires var r := FormatItems(lit, args, keywords); r.Some? && Vals(r.value) == ShownVals(args)
    ensures var p, t := FormatItems(lit, args, keywords).value, BraceTemplate(lit);
            && InSlots(Brace, t) >= InItems(Brace, p) && InSlots(Percent, t) >= InItems(Percent, p)
            && (InSlots(Brace, t) == InItems(Brace, p) ==> BraceClean(lit))
  {
    var t, names, toks := BraceTemplate(lit), Names(lit), PyTokens(lit, 1).value;
    TokenCounts(lit, 1);
    ResolveCounts(toks, 0, args, keywords);
    BraceTemplateCounts(lit);
    assert |Vals(FormatItems(lit, args, keywords).value)| == |args|;
    if InSlots(Brace, t) == InItems(Brace, FormatItems(lit, args, keywords).value) {
      CleanTokens(lit);
      assert args[0..] == args;
      ResolvedNumbers(t, names, 0, 0, args, keywords);
      NotMixedIsInOrder(t, names);
    }
  }

  /** Exactly when the two readings of a str.format literal agree, for arguments that are told apart. */
  lemma BraceReadingsAgreeIff(lit: string, args: seq<Operand>, keywords: map<string, Operand>)
    requires |args| == Holes(BraceTemplate(lit)) && Distinct(args) && FormatItems(lit, args, keywords).Some?
    ensures FormatItems(lit, args, keywords).value == Bind(BraceTemplate(lit), args) <==> BraceClean(lit)
  {
    BindVals(BraceTemplate(lit), args);
    if FormatItems(lit, args, keywords).value == Bind(BraceTemplate(lit), args) {
      BraceExcess(lit, args, keywords);
    }
    if BraceClean(lit) {
      CleanBraceAgrees(lit, args, keywords);
    }
  }
}
