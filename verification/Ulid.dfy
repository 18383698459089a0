/** Fixed-width base-32 numerals and the identifiers made of two of them. */
module Ulid {

  const CROCKFORD: string := "0123456789ABCDEFGHJKMNPQRSTVWXYZ"

  function Power(n: nat): (p: nat)
    ensures p > 0
  {
    if n == 0 then 1 else 32 * Power(n - 1)
  }

  predicate IsDigit(c: char) {
    '0' <= c <= '9' || ('A' <= c <= 'Z' && c != 'I' && c != 'L' && c != 'O' && c != 'U')
  }

  /** The digit of a value, by its place in the alphabet. */
  function Digit(d: nat): (c: char)
    requires d < 32
  {
    CROCKFORD[d]
  }

  /** A digit's value, by the gaps the alphabet leaves out. */
  function DigitValue(c: char): int {
    if c <= '9' then c as int - '0' as int
    else c as int - 'A' as int + 10
         - (if c > 'I' then 1 else 0) - (if c > 'L' then 1 else 0) - (if c > 'O' then 1 else 0) - (if c > 'U' then 1 else 0)
  }

  /** The alphabet is in the order of its values, so text order is number order. */
  lemma DigitReadsBack(d: nat)
    requires d < 32
    ensures IsDigit(Digit(d)) && DigitValue(Digit(d)) == d
  {
    assert |CROCKFORD| == 32;
    assert Digit(d) == CROCKFORD[d];
  }

  lemma DigitsAreOrdered(d: nat, e: nat)
    requires d < 32 && e < 32
    ensures Digit(d) < Digit(e) <==> d < e
  {
    DigitReadsBack(d);
    DigitReadsBack(e);
  }

  /** The number a numeral stands for. */
  function Decode(s: string): int {
    if s == "" then 0 else 32 * Decode(s[..|s| - 1]) + DigitValue(s[|s| - 1])
  }

  function Encoded(value: nat, length: nat): (s: string)
    ensures |s| == length
  {
    if length == 0 then "" else Encoded(value / 32, length - 1) + [Digit(value % 32)]
  }

  function Reversed(s: string): (r: string)
    ensures |r| == |s|
  {
    if s == "" then "" else Reversed(s[1..]) + [s[0]]
  }

  /** The digits come out lowest first and are turned round at the end. */
  method Encode(value: nat, length: nat) returns (s: string)
    ensures s == Encoded(value, length)
  {
    var chars: string, rest := "", value;
    for i := 0 to length
      invariant |chars| == i
      invariant Encoded(value, length) == Encoded(rest, length - i) + Reversed(chars)
    {
      var quotient, remainder := rest / 32, rest % 32;
      ReversedAppend(chars, Digit(remainder));
      assert Encoded(rest, length - i) == Encoded(quotient, length - i - 1) + [Digit(remainder)];
      assert Encoded(quotient, length - i - 1) + [Digit(remainder)] + Reversed(chars)
          == Encoded(quotient, length - i - 1) + ([Digit(remainder)] + Reversed(chars));
      rest := quotient;
      chars := chars + [Digit(remainder)];
    }
    s := Reversed(chars);
  }

  lemma {:induction false} ReversedAppend(s: string, c: char)
    ensures Reversed(s + [c]) == [c] + Reversed(s)
  {
    if s == "" {
      assert s + [c] == [c];
    } else {
      assert (s + [c])[1..] == s[1..] + [c];
      ReversedAppend(s[1..], c);
    }
  }

  /** Decoding gives the value modulo 32^length: the high digits that do not fit are lost. */
  lemma {:induction false} DecodeEncoded(value: nat, length: nat)
    ensures Decode(Encoded(value, length)) == value % Power(length)
  {
    if length > 0 {
      var s := Encoded(value, length);
      DecodeEncoded(value / 32, length - 1);
      DigitReadsBack(value % 32);
      assert s[..length - 1] == Encoded(value / 32, length - 1);
      ModuloSplits(value, Power(length - 1));
    }
  }

  lemma ModuloSplits(value: nat, p: nat)
    requires p > 0
    ensures 32 * (value / 32 % p) + value % 32 == value % (32 * p)
  {
    var q, r := value / 32, value % 32;
    var k, m := q / p, q % p;
    assert q == p * k + m;
    assert value == 32 * (p * k + m) + r == (32 * p) * k + (32 * m + r);
    assert m <= p - 1;
    assert 0 <= 32 * m + r < 32 * p;
    RemainderIs(value, 32 * p, k, 32 * m + r);
  }

  lemma AtLeastOnce(d: nat, j: int)
    requires j >= 1
    ensures d * j >= d
  {
    assert d * j == d + d * (j - 1);
  }

  lemma MultiplesApart(d: nat, k: int, k': int)
    requires k > k'
    ensures d * k - d * k' >= d
  {
    AtLeastOnce(d, k - k');
    assert d * (k - k') == d * k - d * k';
  }

  lemma RemainderIs(value: nat, d: nat, k: nat, r: nat)
    requires d > 0 && r < d && value == d * k + r
    ensures value % d == r
  {
    var k', r' := value / d, value % d;
    assert value == d * k' + r';
    if k > k' {
      MultiplesApart(d, k, k');
    } else if k < k' {
      MultiplesApart(d, k', k);
    }
  }

  lemma Fits(value: nat, length: nat)
    requires value < Power(length)
    ensures Decode(Encoded(value, length)) == value
  {
    DecodeEncoded(value, length);
    RemainderIs(value, Power(length), 0, value);
  }

  /** Values that fit are told apart by their numerals, and values that agree modulo 32^length are not. */
  lemma EncodedIsInjectiveIff(a: nat, b: nat, length: nat)
    ensures Encoded(a, length) == Encoded(b, length) <==> a % Power(length) == b % Power(length)
  {
    DecodeEncoded(a, length);
    DecodeEncoded(b, length);
    if a % Power(length) == b % Power(length) {
      SameDigits(a, b, length);
    }
  }

  lemma {:induction false} SameDigits(a: nat, b: nat, length: nat)
    requires a % Power(length) == b % Power(length)
    ensures Encoded(a, length) == Encoded(b, length)
  {
    if length > 0 {
      var p := Power(length - 1);
      ModuloSplits(a, p);
      ModuloSplits(b, p);
      SameParts(a / 32 % p, a % 32, b / 32 % p, b % 32);
      SameDigits(a / 32, b / 32, length - 1);
    }
  }

  lemma SameParts(m: nat, r: nat, n: nat, s: nat)
    requires r < 32 && s < 32 && 32 * m + r == 32 * n + s
    ensures m == n && r == s
  {
  }

  // ---- Text order ----------------------------------------------------------------------------------------------

  /** Lexicographic order, as strings are sorted. */
  predicate Before(s: string, t: string)
    decreases |s|
  {
    if s == "" || t == "" then s == "" && t != ""
    else s[0] < t[0] || (s[0] == t[0] && Before(s[1..], t[1..]))
  }

  lemma {:induction false} BeforeAppend(s: string, t: string, c: char, d: char)
    requires |s| == |t|
    ensures Before(s + [c], t + [d]) <==> Before(s, t) || (s == t && c < d)
    decreases |s|
  {
    if s == "" {
      assert s + [c] == [c] && t + [d] == [d] && [c][1..] == "" && [d][1..] == "";
    } else {
      assert (s + [c])[1..] == s[1..] + [c] && (t + [d])[1..] == t[1..] + [d];
      BeforeAppend(s[1..], t[1..], c, d);
      assert s == [s[0]] + s[1..] && t == [t[0]] + t[1..];
    }
  }

  lemma LessByParts(a: nat, b: nat)
    ensures a < b <==> a / 32 < b / 32 || (a / 32 == b / 32 && a % 32 < b % 32)
  {
  }

  lemma SameNumeralIff(a: nat, b: nat, length: nat)
    requires a < Power(length) && b < Power(length)
    ensures Encoded(a, length) == Encoded(b, length) <==> a == b
  {
    Fits(a, length);
    Fits(b, length);
  }

  /** Numerals of the same width sort as their values do, as long as those fit. */
  lemma {:induction false} EncodedKeepsOrder(a: nat, b: nat, length: nat)
    requires a < Power(length) && b < Power(length)
    ensures Before(Encoded(a, length), Encoded(b, length)) <==> a < b
    decreases length
  {
    if length > 0 {
      var q, r := a / 32, b / 32;
      EncodedKeepsOrder(q, r, length - 1);
      SameNumeralIff(q, r, length - 1);
      DigitsAreOrdered(a % 32, b % 32);
      BeforeAppend(Encoded(q, length - 1), Encoded(r, length - 1), Digit(a % 32), Digit(b % 32));
      LessByParts(a, b);
    }
  }

  lemma {:induction false} BeforeConcat(s: string, t: string, u: string, v: string)
    requires |s| == |t|
    ensures Before(s + u, t + v) <==> Before(s, t) || (s == t && Before(u, v))
    decreases |s|
  {
    if s == "" {
      assert s + u == u && t + v == v;
    } else {
      assert (s + u)[1..] == s[1..] + u && (t + v)[1..] == t[1..] + v;
      assert s == [s[0]] + s[1..] && t == [t[0]] + t[1..];
      BeforeConcat(s[1..], t[1..], u, v);
    }
  }

  const TIME_WIDTH: nat := 10
  const RANDOM_WIDTH: nat := 16

  /** An identifier: a prefix, the time in milliseconds and 80 random bits. */
  function NewId(prefix: string, millis: nat, randomness: nat): string {
    prefix + "-" + (Encoded(millis, TIME_WIDTH) + Encoded(randomness, RANDOM_WIDTH))
  }

  /** Identifiers with the same prefix sort by time, then by randomness, while the time fits its ten digits. */
  lemma IdsSortByTime(prefix: string, t: nat, r: nat, t': nat, r': nat)
    requires t < Power(TIME_WIDTH) && t' < Power(TIME_WIDTH) && r < Power(RANDOM_WIDTH) && r' < Power(RANDOM_WIDTH)
    ensures Before(NewId(prefix, t, r), NewId(prefix, t', r')) <==> t < t' || (t == t' && r < r')
  {
    var head := prefix + "-";
    BeforeConcat(head, head, Encoded(t, TIME_WIDTH) + Encoded(r, RANDOM_WIDTH), Encoded(t', TIME_WIDTH) + Encoded(r', RANDOM_WIDTH));
    NeverBeforeItself(head);
    BeforeConcat(Encoded(t, TIME_WIDTH), Encoded(t', TIME_WIDTH), Encoded(r, RANDOM_WIDTH), Encoded(r', RANDOM_WIDTH));
    EncodedKeepsOrder(t, t', TIME_WIDTH);
    EncodedKeepsOrder(r, r', RANDOM_WIDTH);
    Fits(t, TIME_WIDTH);
    Fits(t', TIME_WIDTH);
  }

  lemma {:induction false} NeverBeforeItself(s: string)
    ensures !Before(s, s)
  {
    if s != "" {
      NeverBeforeItself(s[1..]);
    }
  }
}
