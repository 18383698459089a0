/** Python argument lists as the scanners see them: names, string literals with escapes, brackets inside brackets. What is
    printed from such a list is cut back into it, unless a literal ends in a backslash. */
module ArgumentLists {
  import opened Wrappers
  import opened TextLines
  import opened Scanners
  import SqlEmitted
  import SqlRewrite

  // ---- Argument texts ------------------------------------------------------------------------------------------------

  /** A character of a string literal: one that stands for itself, or a backslash and the character it escapes. */
  datatype LitChar = Bare(c: char) | Escaped(c: char)

  datatype Bracket = Round | Square | Curly

  datatype Text =
    | End
    | Plain(c: char, rest: Text)
    | Quoted(quote: char, body: seq<LitChar>, rest: Text)
    | Bracketed(bracket: Bracket, inside: Text, rest: Text)
    | Comma(rest: Text)

  function ShowBody(body: seq<LitChar>): string {
    if body == [] then ""
    else (match body[0] case Bare(c) => [c] case Escaped(c) => ['\\', c]) + ShowBody(body[1..])
  }

  function ShowLiteral(quote: char, body: seq<LitChar>): string {
    [quote] + ShowBody(body) + [quote]
  }

  function Left(b: Bracket): char {
    match b case Round => '(' case Square => '[' case Curly => '{'
  }

  function Right(b: Bracket): char {
    match b case Round => ')' case Square => ']' case Curly => '}'
  }

  function Show(t: Text): string {
    match t
    case End => ""
    case Plain(c, rest) => [c] + Show(rest)
    case Quoted(quote, body, rest) => ShowLiteral(quote, body) + Show(rest)
    case Bracketed(b, inside, rest) => [Left(b)] + Show(inside) + [Right(b)] + Show(rest)
    case Comma(rest) => [','] + Show(rest)
  }

  predicate PlainChar(c: char) {
    c != '\'' && c != '\"' && c != ',' && c != '(' && c != ')' && c != '[' && c != ']' && c != '{' && c != '}'
  }

  predicate LiteralOk(quote: char, body: seq<LitChar>) {
    && (quote == '\'' || quote == '\"')
    && forall i :: 0 <= i < |body| && body[i].Bare? ==> body[i].c != quote && body[i].c != '\\'
  }

  predicate WellFormed(t: Text) {
    match t
    case End => true
    case Plain(c, rest) => PlainChar(c) && WellFormed(rest)
    case Quoted(quote, body, rest) => LiteralOk(quote, body) && WellFormed(rest)
    case Bracketed(_, inside, rest) => WellFormed(inside) && WellFormed(rest)
    case Comma(rest) => WellFormed(rest)
  }

  /** The value of the literal ends in a backslash, which is written as two. */
  predicate EndsInBackslash(body: seq<LitChar>) {
    body != [] && body[|body| - 1] == Escaped('\\')
  }

  predicate NoneEndsInBackslash(t: Text) {
    match t
    case End => true
    case Plain(_, rest) => NoneEndsInBackslash(rest)
    case Quoted(_, body, rest) => !EndsInBackslash(body) && NoneEndsInBackslash(rest)
    case Bracketed(_, inside, rest) => NoneEndsInBackslash(inside) && NoneEndsInBackslash(rest)
    case Comma(rest) => NoneEndsInBackslash(rest)
  }

  /** No comma outside brackets and literals. */
  predicate OneArgument(t: Text) {
    match t
    case End => true
    case Plain(_, rest) => OneArgument(rest)
    case Quoted(_, _, rest) => OneArgument(rest)
    case Bracketed(_, _, rest) => OneArgument(rest)
    case Comma(_) => false
  }

  /** An argument: not blank at either end. */
  predicate Argument(t: Text) {
    && WellFormed(t) && OneArgument(t) && NoneEndsInBackslash(t)
    && Show(t) != "" && Strip(Show(t)) == Show(t)
  }

  // ---- Scanning on from any state ---------------------------------------------------------------------------------------

  function Scan(s: State, previous: char, text: string): State
    decreases |text|
  {
    if text == "" then s else Scan(After(s, previous, text[0]), text[0], text[1..])
  }

  function Last(previous: char, text: string): char {
    if text == "" then previous else text[|text| - 1]
  }

  /** No comma is met at top level. */
  predicate Uncut(s: State, previous: char, text: string)
    decreases |text|
  {
    text != "" ==> !(text[0] == ',' && s == START) && Uncut(After(s, previous, text[0]), text[0], text[1..])
  }

  lemma {:induction false} ScanJoins(s: State, previous: char, a: string, b: string)
    ensures Scan(s, previous, a + b) == Scan(Scan(s, previous, a), Last(previous, a), b)
    ensures Uncut(s, previous, a + b) <==> Uncut(s, previous, a) && Uncut(Scan(s, previous, a), Last(previous, a), b)
    decreases |a|
  {
    if a == "" {
      assert a + b == b;
    } else {
      assert (a + b)[0] == a[0] && (a + b)[1..] == a[1..] + b;
      ScanJoins(After(s, previous, a[0]), a[0], a[1..], b);
    }
  }

  lemma OneChar(s: State, previous: char, c: char)
    ensures Scan(s, previous, [c]) == After(s, previous, c) && (Uncut(s, previous, [c]) <==> !(c == ',' && s == START))
  {
    assert [c][1..] == "";
  }

  lemma {:induction false} ScanIsStateAt(text: string, n: nat)
    requires n <= |text|
    ensures Scan(START, ' ', text[..n]) == StateAt(text, n)
  {
    if n > 0 {
      ScanIsStateAt(text, n - 1);
      assert text[..n] == text[..n - 1] + [text[n - 1]];
      ScanJoins(START, ' ', text[..n - 1], [text[n - 1]]);
      OneChar(Scan(START, ' ', text[..n - 1]), Last(' ', text[..n - 1]), text[n - 1]);
    }
  }

  lemma UncutIsWhole(text: string)
    requires Uncut(START, ' ', text)
    ensures Whole(text)
  {
    forall i | 0 <= i < |text| ensures !TopComma(text, i) {
      ScanIsStateAt(text, i);
      assert text == text[..i] + text[i..] && text[i..][0] == text[i];
      ScanJoins(START, ' ', text[..i], text[i..]);
    }
  }

  // ---- Literals -----------------------------------------------------------------------------------------------------------

  lemma BodyBehind(body: seq<LitChar>, head: LitChar)
    ensures EndsInBackslash([head] + body) <==> if body == [] then head == Escaped('\\') else EndsInBackslash(body)
    ensures ([head] + body)[1..] == body
  {
  }

  lemma LitCharScan(depth: int, quote: char, previous: char, l: LitChar)
    requires LiteralOk(quote, [l])
    ensures var shown := match l case Bare(c) => [c] case Escaped(c) => ['\\', c];
            var s := State(depth, Some(quote));
            && Scan(s, previous, shown) == s && Uncut(s, previous, shown)
            && (Last(previous, shown) == '\\' <==> l == Escaped('\\'))
  {
    var s := State(depth, Some(quote));
    assert [l][0] == l;
    match l
    case Bare(c) => OneChar(s, previous, c);
    case Escaped(c) =>
      assert ['\\', c] == ['\\'] + [c];
      ScanJoins(s, previous, ['\\'], [c]);
      OneChar(s, previous, '\\');
      OneChar(s, '\\', c);
  }

  lemma {:induction false} BodyScan(depth: int, quote: char, previous: char, body: seq<LitChar>)
    requires LiteralOk(quote, body)
    ensures var s := State(depth, Some(quote));
            && Scan(s, previous, ShowBody(body)) == s && Uncut(s, previous, ShowBody(body))
            && (Last(previous, ShowBody(body)) == '\\' <==> if body == [] then previous == '\\' else EndsInBackslash(body))
    decreases |body|
  {
    if body != [] {
      var l, rest := body[0], body[1..];
      var shown := match l case Bare(c) => [c] case Escaped(c) => ['\\', c];
      var s := State(depth, Some(quote));
      assert body == [l] + rest;
      BodyBehind(rest, l);
      LitCharScan(depth, quote, previous, l);
      ScanJoins(s, previous, shown, ShowBody(rest));
      BodyScan(depth, quote, Last(previous, shown), rest);
    }
  }

  /** A literal is closed at its last character exactly when it does not end in a backslash. */
  lemma LiteralScan(depth: int, previous: char, quote: char, body: seq<LitChar>)
    requires LiteralOk(quote, body)
    ensures var s := State(depth, None);
            && Scan(s, previous, ShowLiteral(quote, body)) == (if EndsInBackslash(body) then State(depth, Some(quote)) else s)
            && Uncut(s, previous, ShowLiteral(quote, body))
  {
    var s, inside := State(depth, None), State(depth, Some(quote));
    OneChar(s, previous, quote);
    BodyScan(depth, quote, quote, body);
    ScanJoins(s, previous, [quote], ShowBody(body));
    ScanJoins(s, previous, [quote] + ShowBody(body), [quote]);
    OneChar(inside, Last(quote, ShowBody(body)), quote);
  }

  lemma LiteralClosesIff(quote: char, body: seq<LitChar>)
    requires LiteralOk(quote, body)
    ensures var text := ShowLiteral(quote, body); StateAt(text, |text|) == START <==> !EndsInBackslash(body)
  {
    var text := ShowLiteral(quote, body);
    LiteralScan(0, ' ', quote, body);
    ScanIsStateAt(text, |text|);
    assert text[..|text|] == text;
  }

  // ---- Arguments -------------------------------------------------------------------------------------------------------------

  lemma BracketScan(depth: nat, previous: char, b: Bracket)
    ensures Scan(State(depth, None), previous, [Left(b)]) == State(depth + 1, None)
    ensures Scan(State(depth + 1, None), previous, [Right(b)]) == State(depth, None)
    ensures Uncut(State(depth, None), previous, [Left(b)]) && Uncut(State(depth + 1, None), previous, [Right(b)])
  {
    OneChar(State(depth, None), previous, Left(b));
    OneChar(State(depth + 1, None), previous, Right(b));
  }

  /** A text leaves the scanner as it found it, and is not cut at top level. */
  lemma {:induction false} TextScan(depth: nat, previous: char, t: Text)
    requires WellFormed(t) && NoneEndsInBackslash(t) && (depth > 0 || OneArgument(t))
    ensures Scan(State(depth, None), previous, Show(t)) == State(depth, None) && Uncut(State(depth, None), previous, Show(t))
    decreases t
  {
    var s := State(depth, None);
    match t
    case End =>
    case Plain(c, rest) =>
      OneChar(s, previous, c);
      ScanJoins(s, previous, [c], Show(rest));
      TextScan(depth, c, rest);
    case Quoted(quote, body, rest) =>
      LiteralScan(depth, previous, quote, body);
      ScanJoins(s, previous, ShowLiteral(quote, body), Show(rest));
      TextScan(depth, Last(previous, ShowLiteral(quote, body)), rest);
    case Bracketed(b, inside, rest) =>
      BracketScan(depth, previous, b);
      ScanJoins(s, previous, [Left(b)], Show(inside));
      TextScan(depth + 1, Left(b), inside);
      var open := [Left(b)] + Show(inside);
      BracketScan(depth, Last(previous, open), b);
      ScanJoins(s, previous, open, [Right(b)]);
      ScanJoins(s, previous, open + [Right(b)], Show(rest));
      TextScan(depth, Right(b), rest);
    case Comma(rest) =>
      OneChar(s, previous, ',');
      ScanJoins(s, previous, [','], Show(rest));
      TextScan(depth, ',', rest);
  }

  lemma ArgumentIsListable(t: Text)
    requires Argument(t)
    ensures SqlEmitted.Listable(Show(t))
  {
    var text := Show(t);
    TextScan(0, ' ', t);
    UncutIsWhole(text);
    ScanIsStateAt(text, |text|);
    assert text[..|text|] == text;
  }

  function ShowAll(args: seq<Text>): (texts: seq<string>)
    ensures |texts| == |args| && forall i :: 0 <= i < |args| ==> texts[i] == Show(args[i])
  {
    seq(|args|, i requires 0 <= i < |args| => Show(args[i]))
  }

  predicate AllListable(texts: seq<string>) {
    forall i :: 0 <= i < |texts| ==> SqlEmitted.Listable(texts[i])
  }

  lemma ListSplits(texts: seq<string>)
    requires texts != [] && AllListable(texts)
    ensures TopLevel(SqlRewrite.JoinComma(texts)) == texts && |RawPieces(SqlRewrite.JoinComma(texts))| == |texts|
  {
    var first, rest := texts[0], texts[1..];
    assert texts == [first] + rest;
    SqlEmitted.SpacedAreThePieces(first, rest);
    SqlEmitted.SpacedStrip(first, rest);
  }

  /** Printed with commas in between, a list of arguments is cut back into exactly those arguments, whatever literals and
      brackets they hold, as long as no literal ends in a backslash. */
  lemma ArgumentListSplits(args: seq<Text>)
    requires args != [] && forall i :: 0 <= i < |args| ==> Argument(args[i])
    ensures TopLevel(SqlRewrite.JoinComma(ShowAll(args))) == ShowAll(args)
  {
    forall i | 0 <= i < |args| ensures SqlEmitted.Listable(ShowAll(args)[i]) {
      ArgumentIsListable(args[i]);
    }
    ListSplits(ShowAll(args));
  }

  // ---- A whole call ----------------------------------------------------------------------------------------------------------

  datatype NamedArgument = Named(key: string, value: Text)

  function ItemText(n: NamedArgument): string {
    n.key + "=" + Show(n.value)
  }

  predicate NamedOk(n: NamedArgument) {
    && Argument(n.value)
    && n.key != "" && forall i :: 0 <= i < |n.key| ==> PlainChar(n.key[i]) && n.key[i] != '=' && !IsSpace(n.key[i])
  }

  /** The whole item as one argument text. */
  function Item(key: string, value: Text): Text {
    if key == "" then Plain('=', value) else Plain(key[0], Item(key[1..], value))
  }

  lemma {:induction false} ItemIsText(key: string, value: Text)
    requires WellFormed(value) && OneArgument(value) && NoneEndsInBackslash(value)
    requires forall i :: 0 <= i < |key| ==> PlainChar(key[i])
    ensures Show(Item(key, value)) == key + "=" + Show(value)
    ensures WellFormed(Item(key, value)) && OneArgument(Item(key, value)) && NoneEndsInBackslash(Item(key, value))
  {
    if key == "" {
      assert "" + "=" + Show(value) == ['='] + Show(value);
    } else {
      ItemIsText(key[1..], value);
      assert key + "=" + Show(value) == [key[0]] + (key[1..] + "=" + Show(value));
    }
  }

  lemma {:induction false} TrimmedIsShorter(s: string)
    ensures TrimLeft(s) == s || |TrimLeft(s)| < |s|
    ensures |TrimRight(s)| <= |s| && (s != "" && IsSpace(s[|s| - 1]) ==> |TrimRight(s)| < |s|)
    decreases |s|
  {
    if s != "" {
      TrimmedIsShorter(s[1..]);
      TrimmedIsShorter(s[..|s| - 1]);
    }
  }

  lemma NoBlankEnd(s: string)
    requires s != "" && Strip(s) == s
    ensures !IsSpace(s[|s| - 1])
  {
    TrimmedIsShorter(s);
    TrimmedIsShorter(TrimLeft(s));
  }

  lemma NamedIsListable(n: NamedArgument)
    requires NamedOk(n)
    ensures SqlEmitted.Listable(ItemText(n)) && Printable(Keyword(n.key, Show(n.value)))
  {
    var text := ItemText(n);
    ItemIsText(n.key, n.value);
    NoBlankEnd(Show(n.value));
    assert text[0] == n.key[0] && text[|text| - 1] == Show(n.value)[|Show(n.value)| - 1];
    StripKeeps(text);
    StripKeeps(n.key);
    ArgumentIsListable(Item(n.key, n.value));
  }

  function KeywordsOf(named: seq<NamedArgument>): (keywords: seq<Keyword>)
    ensures |keywords| == |named| && forall i :: 0 <= i < |named| ==> keywords[i] == Keyword(named[i].key, Show(named[i].value))
  {
    seq(|named|, i requires 0 <= i < |named| => Keyword(named[i].key, Show(named[i].value)))
  }

  lemma ItemsAreListable(named: seq<NamedArgument>)
    requires forall i :: 0 <= i < |named| ==> NamedOk(named[i])
    ensures forall i :: 0 <= i < |named| ==>
              SqlEmitted.Listable(PrintKeywords(KeywordsOf(named))[i]) && Printable(KeywordsOf(named)[i])
  {
    forall i | 0 <= i < |named|
      ensures SqlEmitted.Listable(PrintKeywords(KeywordsOf(named))[i]) && Printable(KeywordsOf(named)[i])
    {
      NamedIsListable(named[i]);
    }
  }

  lemma CommandIsListable(command: Text, named: seq<NamedArgument>)
    requires Argument(command) && forall i :: 0 <= i < |named| ==> NamedOk(named[i])
    ensures AllListable([Show(command)] + PrintKeywords(KeywordsOf(named)))
  {
    ArgumentIsListable(command);
    ItemsAreListable(named);
  }

  lemma Parts(command: string, keywords: seq<Keyword>, text: string)
    requires keywords != [] && TopLevel(text) == [command] + PrintKeywords(keywords) && |RawPieces(text)| == |keywords| + 1
    requires forall i :: 0 <= i < |keywords| ==> Printable(keywords[i])
    ensures ArgumentsOf(text) == Some(Arguments(command, keywords))
  {
    KeywordsReadBack(keywords);
    var parts := TopLevel(text);
    assert parts[1..] == PrintKeywords(keywords) && parts[0] == command;
    forall i | 1 <= i < |parts| ensures KeywordOrEmpty(parts[i]) {
      assert parts[i] == PrintKeywords(keywords)[i - 1];
    }
  }

  /** A printed call is taken apart into its first argument and its keyword arguments, in their order. */
  lemma CallReadsBack(command: Text, named: seq<NamedArgument>)
    requires Argument(command) && named != [] && forall i :: 0 <= i < |named| ==> NamedOk(named[i])
    ensures ArgumentsOf(SqlRewrite.JoinComma([Show(command)] + PrintKeywords(KeywordsOf(named))))
            == Some(Arguments(Show(command), KeywordsOf(named)))
  {
    var texts := [Show(command)] + PrintKeywords(KeywordsOf(named));
    CommandIsListable(command, named);
    ListSplits(texts);
    ItemsAreListable(named);
    Parts(Show(command), KeywordsOf(named), SqlRewrite.JoinComma(texts));
  }

  /** A second positional argument is refused. */
  lemma SecondPositionalIsRefused(command: Text, second: Text)
    requires Argument(command) && Argument(second) && '=' !in Show(second)
    ensures ArgumentsOf(SqlRewrite.JoinComma(ShowAll([command, second]))) == None
  {
    var args := [command, second];
    ArgumentListSplits(args);
    assert TopLevel(SqlRewrite.JoinComma(ShowAll(args)))[1] == Show(second);
  }

  // ---- A literal that ends in a backslash --------------------------------------------------------------------------------

  lemma {:induction false} OpenQuoteStays(depth: int, quote: char, previous: char, text: string)
    requires quote !in text
    ensures Scan(State(depth, Some(quote)), previous, text) == State(depth, Some(quote))
    ensures Uncut(State(depth, Some(quote)), previous, text)
    decreases |text|
  {
    if text != "" {
      OpenQuoteStays(depth, quote, text[0], text[1..]);
    }
  }

  /** The scanner takes its closing quote for an escaped one, so everything up to the next such quote belongs to it: the
      arguments behind it are not cut off, and the call is not taken apart. */
  lemma BackslashSwallowsTheRest(quote: char, body: seq<LitChar>, rest: string)
    requires LiteralOk(quote, body) && EndsInBackslash(body) && quote !in rest
    ensures var text := ShowLiteral(quote, body) + rest;
            RawPieces(text) == [text] && ArgumentsOf(text) == None
  {
    var literal := ShowLiteral(quote, body);
    var text := literal + rest;
    LiteralScan(0, ' ', quote, body);
    OpenQuoteStays(0, quote, Last(' ', literal), rest);
    ScanJoins(START, ' ', literal, rest);
    UncutIsWhole(text);
    NoCommaOnePiece(text, |text|);
    assert text[..|text|] == text;
  }
}
