/** The hand-written scanners that take a call's argument text apart at its top-level commas. */
module Scanners {
  import opened Wrappers
  import opened TextLines

  // ---- Where the commas are ----------------------------------------------------------------------------

  /** Bracket depth (it may go below zero) and the quote the scanner is inside of, if any. */
  datatype State = State(depth: int, quote: Option<char>)

  const START := State(0, None)

  predicate IsQuote(c: char) { c == '\"' || c == '\'' }

  predicate Opens(c: char) { c == '(' || c == '[' || c == '{' }

  predicate Closes(c: char) { c == ')' || c == ']' || c == '}' }

  function After(s: State, previous: char, c: char): State {
    if s.quote.Some? then
      if c == s.quote.value && previous != '\\' then s.(quote := None) else s
    else if IsQuote(c) then s.(quote := Some(c))
    else if Opens(c) then s.(depth := s.depth + 1)
    else if Closes(c) then s.(depth := s.depth - 1)
    else s
  }

  /** The state after the first n characters. A quote is never open at the first one, so what precedes the
      text does not matter. */
  function StateAt(text: string, n: nat): (s: State)
    requires n <= |text|
    ensures n == 0 ==> s == START
  {
    if n == 0 then START
    else After(StateAt(text, n - 1), if n == 1 then ' ' else text[n - 2], text[n - 1])
  }

  predicate TopComma(text: string, i: nat)
    requires i < |text|
  {
    text[i] == ',' && StateAt(text, i) == START
  }

  /** One more character: a comma that cuts opens a new piece, any other character joins the last one. */
  function Extend(pieces: seq<string>, cut: bool, c: char): (longer: seq<string>)
    requires pieces != []
    ensures longer != []
  {
    if cut then pieces + [""] else pieces[..|pieces| - 1] + [pieces[|pieces| - 1] + [c]]
  }

  /** The pieces of the first n characters, cut at the top-level commas. */
  function Cuts(text: string, n: nat): (pieces: seq<string>)
    requires n <= |text|
    ensures pieces != []
  {
    if n == 0 then [""] else Extend(Cuts(text, n - 1), TopComma(text, n - 1), text[n - 1])
  }

  function RawPieces(text: string): (pieces: seq<string>)
    ensures pieces != []
  {
    Cuts(text, |text|)
  }

  function JoinComma(pieces: seq<string>): string
    requires pieces != []
  {
    if |pieces| == 1 then pieces[0] else pieces[0] + "," + JoinComma(pieces[1..])
  }

  // ---- What the scanners return ---------------------------------------------------------------------------

  function StripAll(pieces: seq<string>): (parts: seq<string>)
    ensures |parts| == |pieces| && forall i :: 0 <= i < |parts| ==> parts[i] == Strip(pieces[i])
  {
    seq(|pieces|, i requires 0 <= i < |pieces| => Strip(pieces[i]))
  }

  function DropTrailingEmpty(pieces: seq<string>): seq<string>
    requires pieces != []
  {
    if pieces[|pieces| - 1] == "" then pieces[..|pieces| - 1] else pieces
  }

  /** The trimmed pieces; a last piece with nothing in it at all is not reported. */
  function TopLevel(text: string): seq<string> {
    StripAll(DropTrailingEmpty(RawPieces(text)))
  }

  datatype Keyword = Keyword(key: string, value: string)

  datatype Arguments = Arguments(command: string, keywords: seq<Keyword>)

  /** The position of the first '='; the length of the text without one. */
  function EqualsAt(item: string): (n: nat)
    ensures n <= |item| && (n < |item| ==> item[n] == '=') && '=' !in item[..n]
  {
    if item == "" || item[0] == '=' then 0
    else
      var n := EqualsAt(item[1..]);
      assert item[..n + 1] == [item[0]] + item[1..][..n];
      n + 1
  }

  function KeywordOf(item: string): Keyword
    requires '=' in item
  {
    Keyword(Strip(item[..EqualsAt(item)]), Strip(if EqualsAt(item) < |item| then item[EqualsAt(item) + 1..] else ""))
  }

  predicate KeywordOrEmpty(item: string) {
    item == "" || '=' in item
  }

  function Keywords(items: seq<string>): seq<Keyword>
    requires forall i :: 0 <= i < |items| ==> KeywordOrEmpty(items[i])
  {
    if items == [] then []
    else
      var last := items[|items| - 1];
      assert KeywordOrEmpty(last);
      Keywords(items[..|items| - 1]) + if last == "" then [] else [KeywordOf(last)]
  }

  /** Stated on the other scanner's list: there is a top-level comma, the first element is the command, and every
      other element is empty or a keyword argument. */
  function ArgumentsOf(text: string): Option<Arguments> {
    if |RawPieces(text)| < 2 then None
    else
      var parts := TopLevel(text);
      if forall i :: 1 <= i < |parts| ==> KeywordOrEmpty(parts[i])
      then Some(Arguments(parts[0], Keywords(parts[1..]))) else None
  }

  // ---- The scanners -----------------------------------------------------------------------------------------

  lemma CutStep(text: string, i: nat, raw: seq<string>, current: string)
    requires i < |text| && Cuts(text, i) == raw + [current]
    ensures Cuts(text, i + 1) == if TopComma(text, i) then raw + [current] + [""] else raw + [current + [text[i]]]
  {
  }

  lemma StripStep(raw: seq<string>, current: string)
    ensures StripAll(raw + [current]) == StripAll(raw) + [Strip(current)]
  {
  }

  method SplitTopLevel(text: string) returns (parts: seq<string>)
    ensures parts == TopLevel(text)
  {
    parts := [];
    var depth: int, quote: Option<char>, current: string := 0, None, "";
    ghost var raw: seq<string> := [];
    for i := 0 to |text|
      invariant StateAt(text, i) == State(depth, quote)
      invariant Cuts(text, i) == raw + [current]
      invariant parts == StripAll(raw)
    {
      var c := text[i];
      assert quote.Some? ==> i > 0;
      CutStep(text, i, raw, current);
      if quote.Some? {
        current := current + [c];
        if c == quote.value && text[i - 1] != '\\' {
          quote := None;
        }
      } else if IsQuote(c) {
        quote := Some(c);
        current := current + [c];
      } else if Opens(c) {
        depth := depth + 1;
        current := current + [c];
      } else if Closes(c) {
        depth := depth - 1;
        current := current + [c];
      } else if c == ',' && depth == 0 {
        StripStep(raw, current);
        parts := parts + [Strip(current)];
        raw := raw + [current];
        current := "";
      } else {
        current := current + [c];
      }
    }
    assert RawPieces(text) == raw + [current];
    StripStep(raw, current);
    if current != "" {
      parts := parts + [Strip(current)];
    }
    assert DropTrailingEmpty(raw + [current]) == if current == "" then raw else raw + [current];
  }

  method SplitArguments(text: string) returns (r: Option<Arguments>)
    ensures r == ArgumentsOf(text)
  {
    var firstEnd := FirstTopComma(text);
    if firstEnd.None? {
      NoCommaOnePiece(text, |text|);
      return None;
    }
    var k := firstEnd.value;
    AgreesWithTopLevel(text, k);
    var items := SplitTopLevel(text[k + 1..]);
    assert TopLevel(text)[1..] == items;
    var keywords := ReadKeywords(items);
    if keywords.None? {
      var i :| 0 <= i < |items| && !KeywordOrEmpty(items[i]);
      assert TopLevel(text)[i + 1] == items[i];
      return None;
    }
    r := Some(Arguments(Strip(text[..k]), keywords.value));
  }

  method ReadKeywords(items: seq<string>) returns (r: Option<seq<Keyword>>)
    ensures if forall i :: 0 <= i < |items| ==> KeywordOrEmpty(items[i])
            then r == Some(Keywords(items)) else r == None
  {
    var keywords: seq<Keyword> := [];
    for i := 0 to |items|
      invariant forall j :: 0 <= j < i ==> KeywordOrEmpty(items[j])
      invariant keywords == Keywords(items[..i])
    {
      var item := items[i];
      assert items[..i + 1][..i] == items[..i];
      if item == "" {
        continue;
      }
      if '=' !in item {
        return None;
      }
      keywords := keywords + [KeywordOf(item)];
    }
    assert items[..|items|] == items;
    r := Some(keywords);
  }

  method FirstTopComma(text: string) returns (r: Option<nat>)
    ensures r.None? ==> forall i :: 0 <= i < |text| ==> !TopComma(text, i)
    ensures r.Some? ==> r.value < |text| && TopComma(text, r.value) && forall i :: 0 <= i < r.value ==> !TopComma(text, i)
  {
    var depth: int, quote: Option<char> := 0, None;
    for i := 0 to |text|
      invariant StateAt(text, i) == State(depth, quote)
      invariant forall j :: 0 <= j < i ==> !TopComma(text, j)
    {
      var c := text[i];
      assert quote.Some? ==> i > 0;
      if quote.Some? {
        if c == quote.value && text[i - 1] != '\\' {
          quote := None;
        }
        continue;
      }
      if IsQuote(c) {
        quote := Some(c);
      } else if Opens(c) {
        depth := depth + 1;
      } else if Closes(c) {
        depth := depth - 1;
      } else if c == ',' && depth == 0 {
        return Some(i);
      }
    }
    r := None;
  }

  // ---- Why the two agree --------------------------------------------------------------------------------------

  lemma {:induction false} NoCommaOnePiece(text: string, n: nat)
    requires n <= |text| && forall i :: 0 <= i < n ==> !TopComma(text, i)
    ensures Cuts(text, n) == [text[..n]]
  {
    if n > 0 {
      NoCommaOnePiece(text, n - 1);
      assert text[..n] == text[..n - 1] + [text[n - 1]];
    }
  }

  /** After a top-level comma the scan goes on as if the text began there. */
  lemma {:induction false} ScanRestarts(text: string, k: nat, n: nat)
    requires k < n <= |text| && TopComma(text, k)
    ensures StateAt(text, n) == StateAt(text[k + 1..], n - k - 1)
    decreases n
  {
    if n > k + 1 {
      ScanRestarts(text, k, n - 1);
      var rest := text[k + 1..];
      assert rest[n - k - 2] == text[n - 1];
      if n > k + 2 {
        assert rest[n - k - 3] == text[n - 2];
      }
    }
  }

  lemma ExtendBehind(head: string, pieces: seq<string>, cut: bool, c: char)
    requires pieces != []
    ensures Extend([head] + pieces, cut, c) == [head] + Extend(pieces, cut, c)
  {
    assert ([head] + pieces)[..|pieces|] == [head] + pieces[..|pieces| - 1];
  }

  lemma {:induction false} CutsRestart(text: string, k: nat, n: nat)
    requires k < n <= |text| && TopComma(text, k) && forall i :: 0 <= i < k ==> !TopComma(text, i)
    ensures Cuts(text, n) == [text[..k]] + Cuts(text[k + 1..], n - k - 1)
    decreases n
  {
    if n == k + 1 {
      NoCommaOnePiece(text, k);
    } else {
      var rest, m := text[k + 1..], n - k - 1;
      CutsRestart(text, k, n - 1);
      ScanRestarts(text, k, n - 1);
      assert rest[m - 1] == text[n - 1] && TopComma(rest, m - 1) == TopComma(text, n - 1);
      ExtendBehind(text[..k], Cuts(rest, m - 1), TopComma(rest, m - 1), rest[m - 1]);
    }
  }

  lemma DropBehind(head: string, rest: seq<string>)
    requires rest != []
    ensures DropTrailingEmpty([head] + rest) == [head] + DropTrailingEmpty(rest)
  {
    assert ([head] + rest)[..|rest|] == [head] + rest[..|rest| - 1];
  }

  lemma StripBehind(head: string, rest: seq<string>)
    ensures StripAll([head] + rest) == [Strip(head)] + StripAll(rest)
  {
  }

  /** Scanning the rest of a text after its first top-level comma gives the rest of the whole text's list. */
  lemma AgreesWithTopLevel(text: string, k: nat)
    requires k < |text| && TopComma(text, k) && forall i :: 0 <= i < k ==> !TopComma(text, i)
    ensures |RawPieces(text)| >= 2 && TopLevel(text) == [Strip(text[..k])] + TopLevel(text[k + 1..])
  {
    CutsRestart(text, k, |text|);
    var rest := RawPieces(text[k + 1..]);
    DropBehind(text[..k], rest);
    StripBehind(text[..k], DropTrailingEmpty(rest));
  }

  // ---- Keyword arguments --------------------------------------------------------------------------------------

  lemma {:induction false} EqualsIsFirst(key: string, value: string)
    requires '=' !in key
    ensures EqualsAt(key + "=" + value) == |key|
  {
    var item := key + "=" + value;
    if key != "" {
      EqualsIsFirst(key[1..], value);
      assert item[1..] == key[1..] + "=" + value;
    }
  }

  /** A keyword argument is what stands before and behind its first equals sign, without the blanks around. */
  lemma KeywordReadsBack(key: string, value: string)
    requires '=' !in key
    ensures KeywordOf(key + "=" + value) == Keyword(Strip(key), Strip(value))
  {
    var item := key + "=" + value;
    EqualsIsFirst(key, value);
    assert item[|key|] == '=' && item[..|key|] == key && item[|key| + 1..] == value;
  }

  /** The items of a list of keyword arguments, printed one by one. */
  function PrintKeywords(keywords: seq<Keyword>): (items: seq<string>)
    ensures |items| == |keywords| && forall i :: 0 <= i < |items| ==> items[i] == keywords[i].key + "=" + keywords[i].value
  {
    seq(|keywords|, i requires 0 <= i < |keywords| => keywords[i].key + "=" + keywords[i].value)
  }

  /** No equals sign in the key, and no blanks around key or value. */
  predicate Printable(k: Keyword) {
    '=' !in k.key && Strip(k.key) == k.key && Strip(k.value) == k.value
  }

  lemma PrintedKeyword(k: Keyword)
    requires Printable(k)
    ensures KeywordOrEmpty(k.key + "=" + k.value) && k.key + "=" + k.value != "" && KeywordOf(k.key + "=" + k.value) == k
  {
    KeywordReadsBack(k.key, k.value);
    assert (k.key + "=" + k.value)[|k.key|] == '=';
  }

  lemma OneKeywordMore(items: seq<string>, item: string)
    requires (forall i :: 0 <= i < |items| ==> KeywordOrEmpty(items[i])) && KeywordOrEmpty(item) && item != ""
    ensures forall i :: 0 <= i < |items + [item]| ==> KeywordOrEmpty((items + [item])[i])
    ensures Keywords(items + [item]) == Keywords(items) + [KeywordOf(item)]
  {
    assert (items + [item])[..|items|] == items;
  }

  predicate AllPrintable(keywords: seq<Keyword>) {
    forall i :: 0 <= i < |keywords| ==> Printable(keywords[i])
  }

  predicate AllItems(items: seq<string>) {
    forall i :: 0 <= i < |items| ==> KeywordOrEmpty(items[i])
  }

  lemma PrintedItems(keywords: seq<Keyword>)
    requires AllPrintable(keywords)
    ensures AllItems(PrintKeywords(keywords))
  {
    forall i | 0 <= i < |keywords| ensures KeywordOrEmpty(PrintKeywords(keywords)[i]) {
      PrintedKeyword(keywords[i]);
    }
  }

  lemma OneKeywordRead(front: seq<Keyword>, last: Keyword)
    requires Printable(last) && AllItems(PrintKeywords(front)) && Keywords(PrintKeywords(front)) == front
    ensures AllItems(PrintKeywords(front + [last])) && Keywords(PrintKeywords(front + [last])) == front + [last]
  {
    PrintedKeyword(last);
    PrintedInParts(front + [last], front, last);
    OneKeywordMore(PrintKeywords(front), last.key + "=" + last.value);
  }

  /** Printed keyword arguments are read back, in their order. */
  lemma {:induction false} KeywordsReadBack(keywords: seq<Keyword>)
    requires AllPrintable(keywords)
    ensures AllItems(PrintKeywords(keywords)) && Keywords(PrintKeywords(keywords)) == keywords
  {
    if keywords == [] {
      PrintedItems(keywords);
    } else {
      var front, last := keywords[..|keywords| - 1], keywords[|keywords| - 1];
      assert keywords == front + [last];
      KeywordsReadBack(front);
      OneKeywordRead(front, last);
    }
  }

  lemma PrintedInParts(keywords: seq<Keyword>, front: seq<Keyword>, last: Keyword)
    requires keywords == front + [last]
    ensures PrintKeywords(keywords) == PrintKeywords(front) + [last.key + "=" + last.value]
  {
  }

  // ---- What the pieces are --------------------------------------------------------------------------------------

  lemma {:induction false} JoinGrows(pieces: seq<string>, cut: bool, c: char)
    requires pieces != [] && (cut ==> c == ',')
    ensures JoinComma(Extend(pieces, cut, c)) == JoinComma(pieces) + [c]
  {
    if |pieces| == 1 {
      assert cut ==> (pieces + [""])[1..] == [""];
    } else {
      var rest := pieces[1..];
      JoinGrows(rest, cut, c);
      assert pieces == [pieces[0]] + rest;
      ExtendBehind(pieces[0], rest, cut, c);
      assert ([pieces[0]] + Extend(rest, cut, c))[1..] == Extend(rest, cut, c);
      assert JoinComma(pieces) + [c] == pieces[0] + "," + (JoinComma(rest) + [c]);
    }
  }

  lemma {:induction false} CutsJoin(text: string, n: nat)
    requires n <= |text|
    ensures JoinComma(Cuts(text, n)) == text[..n]
  {
    if n > 0 {
      CutsJoin(text, n - 1);
      JoinGrows(Cuts(text, n - 1), TopComma(text, n - 1), text[n - 1]);
      assert text[..n] == text[..n - 1] + [text[n - 1]];
    }
  }

  predicate Whole(piece: string) {
    forall i :: 0 <= i < |piece| ==> !TopComma(piece, i)
  }

  /** Nothing is lost and nothing is left to cut: joined with commas the pieces are the text, none of them has a
      top-level comma of its own, and every piece but the last ends outside quotes and brackets. */
  lemma {:induction false} PiecesAreTheText(text: string)
    ensures JoinComma(RawPieces(text)) == text
    ensures forall i :: 0 <= i < |RawPieces(text)| ==> Whole(RawPieces(text)[i])
    ensures forall i :: 0 <= i < |RawPieces(text)| - 1 ==> StateAt(RawPieces(text)[i], |RawPieces(text)[i]|) == START
    decreases |text|
  {
    CutsJoin(text, |text|);
    assert text[..|text|] == text;
    if any :| 0 <= any < |text| && TopComma(text, any) {
      var k := FirstComma(text, any);
      CutsRestart(text, k, |text|);
      PiecesAreTheText(text[k + 1..]);
      var head := text[..k];
      assert RawPieces(text) == [head] + RawPieces(text[k + 1..]);
      StatesOfPrefix(text, k);
    } else {
      NoCommaOnePiece(text, |text|);
    }
  }

  lemma {:induction false} FirstComma(text: string, k: nat) returns (first: nat)
    requires k < |text| && TopComma(text, k)
    ensures first <= k && TopComma(text, first) && forall i :: 0 <= i < first ==> !TopComma(text, i)
    decreases k
  {
    first := k;
    if i :| 0 <= i < k && TopComma(text, i) {
      first := FirstComma(text, i);
    }
  }

  lemma {:induction false} StateOfPrefix(text: string, k: nat, n: nat)
    requires n <= k <= |text|
    ensures StateAt(text[..k], n) == StateAt(text, n)
  {
    if n > 0 {
      StateOfPrefix(text, k, n - 1);
    }
  }

  lemma StatesOfPrefix(text: string, k: nat)
    requires k <= |text|
    ensures StateAt(text[..k], k) == StateAt(text, k)
    ensures forall i :: 0 <= i < k ==> (TopComma(text[..k], i) <==> TopComma(text, i))
  {
    StateOfPrefix(text, k, k);
    forall i | 0 <= i < k ensures TopComma(text[..k], i) <==> TopComma(text, i) {
      StateOfPrefix(text, k, i);
    }
  }

  /** The only such list: a list of pieces that join to the text, none with a top-level comma of its own and all but
      the last closed, is the list the scanner cuts. */
  lemma {:induction false} PiecesAreUnique(text: string, pieces: seq<string>)
    requires pieces != [] && JoinComma(pieces) == text
    requires forall i :: 0 <= i < |pieces| ==> Whole(pieces[i])
    requires forall i :: 0 <= i < |pieces| - 1 ==> StateAt(pieces[i], |pieces[i]|) == START
    ensures pieces == RawPieces(text)
    decreases |pieces|
  {
    var head := pieces[0];
    var k := |head|;
    assert text[..k] == head;
    StatesOfPrefix(text, k);
    if |pieces| == 1 {
      NoCommaOnePiece(text, k);
    } else {
      assert text[k] == ',' && text[k + 1..] == JoinComma(pieces[1..]);
      assert TopComma(text, k);
      CutsRestart(text, k, |text|);
      PiecesAreUnique(text[k + 1..], pieces[1..]);
    }
  }
}
