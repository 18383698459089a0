/** How Python reads a %-format literal, next to how the fix recipe replaces the conversions %s and %d by holes, and exactly
    when the two readings agree. Python's side is "printf-style String Formatting" of its Library Reference: mapping keys,
    flags, widths and precisions, also taken from operands, length modifiers and conversion types. */
module Formatting {
  import opened Wrappers
  import Decimal

  /** An operand of a formatting expression, by its source text. */
  type Operand = string

  datatype Conversion = NoConversion | AsStr | AsRepr | AsAscii

  /** How an operand's value becomes text: str(v), '%d' % v, any other % conversion with the operands that give its width
      and precision, or what is reached from v by attributes and indices, converted and formatted by a spec that may hold
      the text of other operands. */
  datatype How =
    | Shown
    | Whole
    | Printf(text: string, sizes: seq<Operand>)
    | Spec(path: string, conversion: Conversion, spec: seq<Item>)

  /** A string with symbolic parts: what an expression evaluates to, before the operands have values. */
  datatype Item = Ch(c: char) | Val(op: Operand, how: How)

  function TextItems(text: string): seq<Item> {
    seq(|text|, i requires 0 <= i < |text| => Ch(text[i]))
  }

  /** The emitted SQL: text, and the places where a placeholder was put. */
  datatype Slot = Text(c: char) | Hole

  datatype Kind = Brace | Percent

  predicate IsKind(k: Kind, c: char) {
    match k
    case Brace => c == '{' || c == '}'
    case Percent => c == '%'
  }

  // ---- Measures ------------------------------------------------------------------------------------

  function InText(k: Kind, s: string): nat {
    if s == "" then 0 else (if IsKind(k, s[0]) then 1 else 0) + InText(k, s[1..])
  }

  function InItems(k: Kind, p: seq<Item>): nat {
    if p == [] then 0 else (if p[0].Ch? && IsKind(k, p[0].c) then 1 else 0) + InItems(k, p[1..])
  }

  function InSlots(k: Kind, t: seq<Slot>): nat {
    if t == [] then 0 else (if t[0].Text? && IsKind(k, t[0].c) then 1 else 0) + InSlots(k, t[1..])
  }

  function Holes(t: seq<Slot>): nat {
    if t == [] then 0 else (if t[0].Hole? then 1 else 0) + Holes(t[1..])
  }

  /** The symbolic parts, in order. */
  function Vals(p: seq<Item>): seq<Item> {
    if p == [] then [] else (if p[0].Val? then [p[0]] else []) + Vals(p[1..])
  }

  /** The template with its holes bound, in order, to the parameters. */
  function Bind(t: seq<Slot>, params: seq<Operand>): (p: seq<Item>)
    requires |params| == Holes(t)
    ensures |p| == |t|
  {
    if t == [] then []
    else if t[0].Hole? then [Val(params[0], Shown)] + Bind(t[1..], params[1..])
    else [Ch(t[0].c)] + Bind(t[1..], params)
  }

  function ShownVals(ops: seq<Operand>): (p: seq<Item>)
    ensures |p| == |ops| && forall i :: 0 <= i < |ops| ==> p[i] == Val(ops[i], Shown)
  {
    seq(|ops|, i requires 0 <= i < |ops| => Val(ops[i], Shown))
  }

  lemma {:induction false} BindVals(t: seq<Slot>, params: seq<Operand>)
    requires |params| == Holes(t)
    ensures Vals(Bind(t, params)) == ShownVals(params)
    ensures forall k :: InItems(k, Bind(t, params)) == InSlots(k, t)
  {
    if t != [] {
      BindVals(t[1..], if t[0].Hole? then params[1..] else params);
      assert Bind(t, params)[1..] == Bind(t[1..], if t[0].Hole? then params[1..] else params);
      if t[0].Hole? {
        assert ShownVals(params) == [Val(params[0], Shown)] + ShownVals(params[1..]);
      }
    }
  }

  function Prepend(x: Item, rest: Option<seq<Item>>): Option<seq<Item>> {
    match rest
    case None => None
    case Some(items) => Some([x] + items)
  }

  lemma {:induction false} InTextSplits(k: Kind, s: string, n: nat)
    requires n <= |s|
    ensures InText(k, s) == InText(k, s[..n]) + InText(k, s[n..])
    decreases n
  {
    if n == 0 {
      assert s[0..] == s;
    } else {
      InTextSplits(k, s[1..], n - 1);
      assert s[..n][1..] == s[1..][..n - 1] && s[1..][n - 1..] == s[n..];
    }
  }

  /** Two special characters at the ends of a text. */
  lemma TwoEnds(k: Kind, s: string)
    requires |s| >= 2 && IsKind(k, s[0]) && IsKind(k, s[|s| - 1])
    ensures InText(k, s) >= 2
  {
    InTextSplits(k, s, |s| - 1);
    assert s[..|s| - 1][0] == s[0] && s[|s| - 1..] == [s[|s| - 1]];
    assert InText(k, [s[|s| - 1]]) == 1 + InText(k, [s[|s| - 1]][1..]);
  }

  // ---- The directives of a % literal -----------------------------------------------------------------

  function Digits(s: string): (n: nat)
    ensures n <= |s| && Decimal.AllDigits(s[..n])
  {
    if s == "" || !Decimal.IsDigit(s[0]) then 0 else 1 + Digits(s[1..])
  }

  predicate IsFlag(c: char) {
    c == '-' || c == '+' || c == ' ' || c == '#' || c == '0'
  }

  function Flags(s: string): (n: nat)
    ensures n <= |s|
  {
    if s == "" || !IsFlag(s[0]) then 0 else 1 + Flags(s[1..])
  }

  /** A width, or a precision after its dot: digits, or a star for an operand. */
  function Size(s: string): (n: nat)
    ensures n <= |s|
  {
    if Starred(s) then 1 else Digits(s)
  }

  predicate Starred(s: string) {
    s != "" && s[0] == '*'
  }

  function Precision(s: string): (n: nat)
    ensures n <= |s|
  {
    if s != "" && s[0] == '.' then 1 + Size(s[1..]) else 0
  }

  function Modifier(s: string): (n: nat)
    ensures n <= |s|
  {
    if s != "" && (s[0] == 'h' || s[0] == 'l' || s[0] == 'L') then 1 else 0
  }

  /** The characters up to and with the parenthesis that closes the given number of open ones. */
  function KeyEnd(s: string, open: nat): (n: Option<nat>)
    ensures n.Some? ==> n.value <= |s| && (open > 0 ==> n.value > 0)
  {
    if open == 0 then Some(0)
    else if s == "" then None
    else
      match KeyEnd(s[1..], if s[0] == '(' then open + 1 else if s[0] == ')' then open - 1 else open)
      case None => None
      case Some(n) => Some(n + 1)
  }

  /** What follows a percent sign: a mapping key, the text up to the conversion type, how many operands give its sizes,
      whether it has flags and sizes at all, the type, and how many characters that is. */
  datatype Directive = Directive(key: Option<string>, text: string, stars: nat, flagged: bool, sized: bool, kind: char, length: nat)

  /** The part without a key. */
  function ReadBody(s: string): (d: Option<Directive>)
    ensures d.Some? ==> 1 <= d.value.length <= |s| && s[d.value.length - 1] == d.value.kind
  {
    var f := Flags(s);
    var w := f + Size(s[f..]);
    var p := w + Precision(s[w..]);
    var m := p + Modifier(s[p..]);
    if m == |s| then None
    else
      var stars := (if Starred(s[f..]) then 1 else 0) + if p > w && Starred(s[w + 1..]) then 1 else 0;
      Some(Directive(None, s[..m], stars, f > 0, p > f, s[m], m + 1))
  }

  function ReadDirective(s: string): (d: Option<Directive>)
    ensures d.Some? ==> 1 <= d.value.length <= |s| && s[d.value.length - 1] == d.value.kind
  {
    if s == "" || s[0] != '(' then ReadBody(s)
    else
      match KeyEnd(s[1..], 1)
      case None => None
      case Some(n) =>
        match ReadBody(s[n + 1..])
        case None => None
        case Some(d) => Some(d.(key := Some(s[1..n]), length := n + 1 + d.length))
  }

  predicate IsConversion(c: char) {
    || c == 'd' || c == 'i' || c == 'o' || c == 'u' || c == 'x' || c == 'X' || c == 'e' || c == 'E'
    || c == 'f' || c == 'F' || c == 'g' || c == 'G' || c == 'c' || c == 'r' || c == 's' || c == 'a'
  }

  /** Flags and length modifiers mean nothing to a bare %s, and length modifiers nothing to %d. */
  function HowOfDirective(d: Directive, sizes: seq<Operand>): How {
    if d.kind == 's' && !d.sized then Shown
    else if (d.kind == 'd' || d.kind == 'i' || d.kind == 'u') && !d.sized && !d.flagged then Whole
    else Printf(d.text + [d.kind], sizes)
  }

  // ---- '...' % (...) -------------------------------------------------------------------------------

  /** The entry of a mapping. */
  function Entry(mapping: Operand, key: string): Operand {
    mapping + "[" + key + "]"
  }

  /** Python's reading: each conversion takes its sizes and its value from the operands, and none may be left over, except
      when the right operand is a mapping; a key looks its value up there. %% is a percent sign. None when it raises. */
  function PercentItems(lit: string, ops: seq<Operand>, mapping: Option<Operand>): Option<seq<Item>>
    decreases |lit|
  {
    if lit == "" then (if ops == [] || mapping.Some? then Some([]) else None)
    else if lit[0] != '%' then Prepend(Ch(lit[0]), PercentItems(lit[1..], ops, mapping))
    else
      match ReadDirective(lit[1..])
      case None => None
      case Some(d) =>
        if d.key.Some? && mapping.None? then None
        else
          var given := if d.key.Some? then [Entry(mapping.value, d.key.value)] else ops;
          match TakeItem(d, given)
          case None => None
          case Some(taken) => Prepend(taken.0, PercentItems(lit[1 + d.length..], given[taken.1..], mapping))
  }

  /** What a directive makes of the operands given to it, and how many it takes. */
  function TakeItem(d: Directive, given: seq<Operand>): (r: Option<(Item, nat)>)
    ensures r.Some? ==> r.value.1 <= |given|
  {
    if |given| < d.stars then None
    else if d.kind == '%' then
      Some((if d.stars == 0 then Ch('%') else Val(given[0], Printf(d.text + "%", given[..d.stars])), d.stars))
    else if |given| == d.stars || !IsConversion(d.kind) then None
    else Some((Val(given[d.stars], HowOfDirective(d, given[..d.stars])), d.stars + 1))
  }

  predicate PercentMatch(lit: string) {
    |lit| >= 2 && lit[0] == '%' && (lit[1] == 's' || lit[1] == 'd')
  }

  /** The recipe's reading: every match of %[sd], left to right, is a hole. */
  function PercentTemplate(lit: string): seq<Slot>
    decreases |lit|
  {
    if lit == "" then []
    else if PercentMatch(lit) then [Hole] + PercentTemplate(lit[2..])
    else [Text(lit[0])] + PercentTemplate(lit[1..])
  }

  predicate HasWhole(lit: string)
    decreases |lit|
  {
    if lit == "" then false
    else if PercentMatch(lit) then lit[1] == 'd' || HasWhole(lit[2..])
    else HasWhole(lit[1..])
  }

  /** Only %s conversions, and no other percent sign. */
  predicate PercentClean(lit: string) {
    InSlots(Percent, PercentTemplate(lit)) == 0 && !HasWhole(lit)
  }

  lemma MatchedDirective(lit: string)
    requires PercentMatch(lit)
    ensures ReadDirective(lit[1..]) == Some(Directive(None, "", 0, false, false, lit[1], 1))
  {
    var s := lit[1..];
    assert s[0] == lit[1] && Flags(s) == 0 && s[0..] == s && s[..0] == "";
  }

  /** Where the recipe sees a match, Python takes one operand for it. */
  lemma MatchTakesOne(lit: string, ops: seq<Operand>, mapping: Option<Operand>)
    requires PercentMatch(lit)
    ensures PercentItems(lit, ops, mapping) ==
              if ops == [] then None
              else Prepend(Val(ops[0], if lit[1] == 's' then Shown else Whole), PercentItems(lit[2..], ops[1..], mapping))
  {
    MatchedDirective(lit);
    if ops != [] {
      assert ops[..0] == [] && lit[1 + 1..] == lit[2..];
    }
  }

  lemma {:induction false} DigitsOf(width: string, after: string)
    requires Decimal.AllDigits(width) && (after == "" || !Decimal.IsDigit(after[0]))
    ensures Digits(width + after) == |width|
  {
    if width == "" {
      assert width + after == after;
    } else {
      assert (width + after)[1..] == width[1..] + after;
      DigitsOf(width[1..], after);
    }
  }

  lemma NoMoreSizes(s: string)
    requires s != "" && s[0] == 's'
    ensures Precision(s) == 0 && Modifier(s) == 0
  {
  }

  lemma SizedBody(s: string, width: string)
    requires width != "" && width[0] != '0' && Decimal.AllDigits(width) && Digits(s) == |width|
    requires |s| > |width| && s[..|width|] == width && s[|width|] == 's'
    ensures ReadBody(s) == Some(Directive(None, width, 0, false, true, 's', |width| + 1))
  {
    var n := |width|;
    assert s[0] == width[0] && s[0..] == s && Flags(s) == 0 && Size(s) == n;
    NoMoreSizes(s[n..]);
  }

  lemma SizedDirective(width: string, after: string)
    requires width != "" && Decimal.AllDigits(width) && width[0] != '0'
    ensures ReadDirective(width + ("s" + after)) == Some(Directive(None, width, 0, false, true, 's', |width| + 1))
  {
    var s := width + ("s" + after);
    assert s[0] == width[0] && ("s" + after)[0] == 's';
    DigitsOf(width, "s" + after);
    SizedBody(s, width);
  }

  lemma SizedTakes(width: string, ops: seq<Operand>)
    requires ops != []
    ensures TakeItem(Directive(None, width, 0, false, true, 's', |width| + 1), ops) == Some((Val(ops[0], Printf(width + "s", [])), 1))
  {
    assert ops[..0] == [];
  }

  lemma DirectiveTakes(lit: string, after: string, ops: seq<Operand>, mapping: Option<Operand>, d: Directive, x: Item, rest: seq<Operand>)
    requires lit != "" && lit[0] == '%' && ReadDirective(lit[1..]) == Some(d) && d.key.None? && lit[1 + d.length..] == after
    requires TakeItem(d, ops).Some? && TakeItem(d, ops).value.0 == x && ops[TakeItem(d, ops).value.1..] == rest
    requires PercentItems(after, rest, mapping).Some?
    ensures PercentItems(lit, ops, mapping) == Some([x] + PercentItems(after, rest, mapping).value)
  {
  }

  /** A conversion with a width takes one operand like any other, and shows it in its own way: it is no reason to raise. */
  lemma SizedTakesOne(width: string, after: string, ops: seq<Operand>, mapping: Option<Operand>)
    requires width != "" && Decimal.AllDigits(width) && width[0] != '0' && ops != []
    requires PercentItems(after, ops[1..], mapping).Some?
    ensures PercentItems("%" + (width + ("s" + after)), ops, mapping)
            == Some([Val(ops[0], Printf(width + "s", []))] + PercentItems(after, ops[1..], mapping).value)
  {
    var body := width + ("s" + after);
    var lit := "%" + body;
    SizedDirective(width, after);
    SizedTakes(width, ops);
    assert lit[0] == '%' && lit[1..] == body && lit[1 + (|width| + 1)..] == after;
    DirectiveTakes(lit, after, ops, mapping, Directive(None, width, 0, false, true, 's', |width| + 1),
                   Val(ops[0], Printf(width + "s", [])), ops[1..]);
  }

  lemma {:induction false} CleanPercentAgrees(lit: string, ops: seq<Operand>, mapping: Option<Operand>)
    requires |ops| == Holes(PercentTemplate(lit)) && PercentClean(lit)
    ensures PercentItems(lit, ops, mapping) == Some(Bind(PercentTemplate(lit), ops))
    decreases |lit|
  {
    if lit != "" {
      if PercentMatch(lit) {
        assert PercentTemplate(lit)[1..] == PercentTemplate(lit[2..]);
        MatchTakesOne(lit, ops, mapping);
        CleanPercentAgrees(lit[2..], ops[1..], mapping);
      } else {
        assert PercentTemplate(lit)[1..] == PercentTemplate(lit[1..]);
        CleanPercentAgrees(lit[1..], ops, mapping);
      }
    }
  }

  lemma TakenFrom(d: Directive, given: seq<Operand>)
    requires TakeItem(d, given).Some?
    ensures var taken := TakeItem(d, given).value;
            && (taken.0.Ch? ==> taken.0.c == '%' && d.kind == '%') && (taken.0.Val? ==> taken.0.op in given)
            && forall op :: op in given[taken.1..] ==> op in given
  {
  }

  lemma DirectiveRead(lit: string, ops: seq<Operand>, mapping: Option<Operand>, d: Directive, given: seq<Operand>)
    requires lit != "" && lit[0] == '%' && PercentItems(lit, ops, mapping).Some?
    requires ReadDirective(lit[1..]) == Some(d)
    requires mapping.Some? || d.key.None?
    requires given == if d.key.Some? then [Entry(mapping.value, d.key.value)] else ops
    ensures TakeItem(d, given).Some?
    ensures var taken := TakeItem(d, given).value;
            && PercentItems(lit[1 + d.length..], given[taken.1..], mapping).Some?
            && PercentItems(lit, ops, mapping).value == [taken.0] + PercentItems(lit[1 + d.length..], given[taken.1..], mapping).value
  {
  }

  lemma CharStep(lit: string, ops: seq<Operand>, mapping: Option<Operand>)
    requires lit != "" && lit[0] != '%' && PercentItems(lit, ops, mapping).Some?
    ensures PercentItems(lit[1..], ops, mapping).Some?
    ensures PercentItems(lit, ops, mapping).value == [Ch(lit[0])] + PercentItems(lit[1..], ops, mapping).value
  {
  }

  lemma DirectiveStep(lit: string, ops: seq<Operand>, mapping: Option<Operand>) returns (d: Directive, given: seq<Operand>)
    requires lit != "" && lit[0] == '%' && PercentItems(lit, ops, mapping).Some?
    ensures ReadDirective(lit[1..]) == Some(d) && TakeItem(d, given).Some? && (mapping.None? ==> given == ops)
    ensures var taken := TakeItem(d, given).value;
            && PercentItems(lit[1 + d.length..], given[taken.1..], mapping).Some?
            && PercentItems(lit, ops, mapping).value == [taken.0] + PercentItems(lit[1 + d.length..], given[taken.1..], mapping).value
  {
    d := ReadDirective(lit[1..]).value;
    given := if d.key.Some? then [Entry(mapping.value, d.key.value)] else ops;
    DirectiveRead(lit, ops, mapping, d, given);
  }

  /** What reading one character or one directive makes, and what it leaves to be read. */
  lemma PercentStep(lit: string, ops: seq<Operand>, mapping: Option<Operand>)
    returns (n: nat, x: Item, rest: seq<Operand>)
    requires lit != "" && PercentItems(lit, ops, mapping).Some?
    ensures 1 <= n <= |lit| && PercentItems(lit[n..], rest, mapping).Some?
    ensures PercentItems(lit, ops, mapping).value == [x] + PercentItems(lit[n..], rest, mapping).value
    ensures if lit[0] != '%' then n == 1 && x == Ch(lit[0]) else n >= 2 && (x.Ch? ==> x.c == '%' && lit[n - 1] == '%')
    ensures mapping.None? ==> (x.Val? ==> x.op in ops) && forall op :: op in rest ==> op in ops
  {
    if lit[0] != '%' {
      n, x, rest := 1, Ch(lit[0]), ops;
      CharStep(lit, ops, mapping);
    } else {
      var d, given := DirectiveStep(lit, ops, mapping);
      TakenFrom(d, given);
      n, x, rest := 1 + d.length, TakeItem(d, given).value.0, given[TakeItem(d, given).value.1..];
      assert lit[1..][d.length - 1] == lit[n - 1];
    }
  }

  lemma FirstItem(p: seq<Item>, x: Item, rest: seq<Item>)
    requires p == [x] + rest
    ensures Vals(p) == (if x.Val? then [x] else []) + Vals(rest)
    ensures forall k :: InItems(k, p) == (if x.Ch? && IsKind(k, x.c) then 1 else 0) + InItems(k, rest)
  {
    assert p[1..] == rest;
  }

  /** Counting signs: every percent sign in the result took two, and every conversion took one. */
  lemma {:induction false} PercentCounts(lit: string, ops: seq<Operand>, mapping: Option<Operand>)
    requires PercentItems(lit, ops, mapping).Some?
    ensures var p := PercentItems(lit, ops, mapping).value;
            && InText(Percent, lit) >= 2 * InItems(Percent, p) + |Vals(p)|
            && InText(Brace, lit) >= InItems(Brace, p)
    decreases |lit|
  {
    if lit != "" {
      var n, x, rest := PercentStep(lit, ops, mapping);
      PercentCounts(lit[n..], rest, mapping);
      FirstItem(PercentItems(lit, ops, mapping).value, x, PercentItems(lit[n..], rest, mapping).value);
      InTextSplits(Percent, lit, n);
      InTextSplits(Brace, lit, n);
      assert lit[..n][0] == lit[0] && lit[..n][n - 1] == lit[n - 1];
      if x.Ch? && x.c == '%' {
        TwoEnds(Percent, lit[..n]);
      }
    }
  }

  /** Without keys each conversion takes its value from the operands. */
  lemma {:induction false} PercentOwned(lit: string, ops: seq<Operand>, owners: set<Operand>)
    requires PercentItems(lit, ops, None).Some? && forall op :: op in ops ==> op in owners
    ensures forall x :: x in Vals(PercentItems(lit, ops, None).value) ==> x.Val? && x.op in owners
    decreases |lit|
  {
    if lit != "" {
      var n, x, rest := PercentStep(lit, ops, None);
      PercentOwned(lit[n..], rest, owners);
      FirstItem(PercentItems(lit, ops, None).value, x, PercentItems(lit[n..], rest, None).value);
    }
  }

  lemma {:induction false} PercentTemplateCounts(lit: string)
    ensures var t := PercentTemplate(lit);
            && InText(Percent, lit) == InSlots(Percent, t) + Holes(t)
            && InText(Brace, lit) == InSlots(Brace, t)
    decreases |lit|
  {
    if lit != "" {
      var t := PercentTemplate(lit);
      if PercentMatch(lit) {
        assert lit[1..][1..] == lit[2..] && t[1..] == PercentTemplate(lit[2..]);
        assert InText(Percent, lit) == 1 + InText(Percent, lit[1..]);
        PercentTemplateCounts(lit[2..]);
      } else {
        assert t[1..] == PercentTemplate(lit[1..]);
        PercentTemplateCounts(lit[1..]);
      }
    }
  }

  /** A literal that Python reads with every conversion a plain %s, and without percent signs of its own,
      has no %d and no percent sign in the template either. */
  lemma {:induction false} NoWholeWithoutSign(lit: string, ops: seq<Operand>, mapping: Option<Operand>)
    requires PercentItems(lit, ops, mapping).Some? && InSlots(Percent, PercentTemplate(lit)) == 0
    requires |ops| == Holes(PercentTemplate(lit)) && HasWhole(lit)
    ensures Vals(PercentItems(lit, ops, mapping).value) != ShownVals(ops)
    decreases |lit|
  {
    var p := PercentItems(lit, ops, mapping).value;
    if PercentMatch(lit) {
      assert PercentTemplate(lit)[1..] == PercentTemplate(lit[2..]);
      MatchTakesOne(lit, ops, mapping);
      assert p[1..] == PercentItems(lit[2..], ops[1..], mapping).value;
      assert Vals(p) == [p[0]] + Vals(p[1..]);
      if lit[1] == 's' {
        NoWholeWithoutSign(lit[2..], ops[1..], mapping);
        assert ShownVals(ops)[1..] == ShownVals(ops[1..]);
        assert Vals(p)[1..] == Vals(p[1..]);
      } else {
        assert Vals(p)[0] != ShownVals(ops)[0];
      }
    } else {
      assert PercentTemplate(lit)[1..] == PercentTemplate(lit[1..]);
      assert p[1..] == PercentItems(lit[1..], ops, mapping).value;
      NoWholeWithoutSign(lit[1..], ops, mapping);
    }
  }

  /** Where the operands come out the same, the template never has fewer special characters than the text,
      and has as many exactly when the literal is clean. */
  lemma PercentExcess(lit: string, ops: seq<Operand>, mapping: Option<Operand>)
    requires |ops| == Holes(PercentTemplate(lit))
    requires PercentItems(lit, ops, mapping).Some? && Vals(PercentItems(lit, ops, mapping).value) == ShownVals(ops)
    ensures var p, t := PercentItems(lit, ops, mapping).value, PercentTemplate(lit);
            && InSlots(Brace, t) >= InItems(Brace, p) && InSlots(Percent, t) >= InItems(Percent, p)
            && (InSlots(Percent, t) == InItems(Percent, p) ==> PercentClean(lit))
  {
    PercentCounts(lit, ops, mapping);
    PercentTemplateCounts(lit);
    if InSlots(Percent, PercentTemplate(lit)) == 0 && HasWhole(lit) {
      NoWholeWithoutSign(lit, ops, mapping);
    }
  }

  /** Exactly when the two readings of a %-format literal agree, for every literal that Python does not refuse. */
  lemma PercentReadingsAgreeIff(lit: string, ops: seq<Operand>, mapping: Option<Operand>)
    requires |ops| == Holes(PercentTemplate(lit)) && PercentItems(lit, ops, mapping).Some?
    ensures PercentItems(lit, ops, mapping).value == Bind(PercentTemplate(lit), ops) <==> PercentClean(lit)
  {
    BindVals(PercentTemplate(lit), ops);
    if PercentItems(lit, ops, mapping).value == Bind(PercentTemplate(lit), ops) {
      PercentExcess(lit, ops, mapping);
    }
    if PercentClean(lit) {
      CleanPercentAgrees(lit, ops, mapping);
    }
  }
}
