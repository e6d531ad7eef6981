/** Decimal rendering of integers, as JavaScript prints integral Numbers,
    and of money amounts held as integer cents, as `toFixed(2)` prints them. */
module Text {
  import opened Wrappers

  predicate IsDigit(c: char) {
    '0' <= c <= '9'
  }

  predicate AllDigits(s: string) {
    forall i :: 0 <= i < |s| ==> IsDigit(s[i])
  }

  function DigitChar(d: nat): (c: char)
    requires d < 10
    ensures IsDigit(c) && c as int - '0' as int == d
  {
    ('0' as int + d) as char
  }

  function DigitValue(c: char): (d: nat)
    requires IsDigit(c)
    ensures d < 10 && DigitChar(d) == c
  {
    c as int - '0' as int
  }

  /** The shortest decimal numeral of `n`, most significant digit first. */
  function NatDigits(n: nat): (s: string)
    ensures 1 <= |s| && AllDigits(s)
    ensures s[0] == '0' ==> n == 0
  {
    if n < 10 then [DigitChar(n)] else NatDigits(n / 10) + [DigitChar(n % 10)]
  }

  /** The value of a string of decimal digits. */
  function DigitsValue(s: string): nat
    requires AllDigits(s)
  {
    if s == [] then 0 else DigitsValue(s[..|s| - 1]) * 10 + DigitValue(s[|s| - 1])
  }

  lemma {:induction false} DigitsRoundTrip(n: nat)
    ensures DigitsValue(NatDigits(n)) == n
  {
    if n >= 10 {
      DigitsRoundTrip(n / 10);
      var s := NatDigits(n);
      assert s[..|s| - 1] == NatDigits(n / 10);
    }
  }

  /** `String(n)` for an integral Number `n` of magnitude below 1e21;
      from 1e21 up JavaScript switches to exponent notation, which is not
      modelled. */
  function Decimal(n: int): (s: string)
  {
    if n < 0 then "-" + NatDigits(-n) else NatDigits(n)
  }

  /** Reads back what `Decimal` prints; `None` for anything else. */
  function ParseDecimal(s: string): (r: Option<int>)
  {
    if |s| > 0 && s[0] == '-' then
      if |s| > 1 && AllDigits(s[1..]) && s[1] != '0' then Some(-(DigitsValue(s[1..]) as int)) else None
    else if |s| > 0 && AllDigits(s) && (s[0] != '0' || |s| == 1) then Some(DigitsValue(s))
    else None
  }

  lemma DecimalRoundTrip(n: int)
    ensures ParseDecimal(Decimal(n)) == Some(n)
  {
    if n < 0 {
      DigitsRoundTrip(-n);
      assert Decimal(n)[1..] == NatDigits(-n);
    } else {
      DigitsRoundTrip(n);
    }
  }

  /** The two-digit rendering of a number of cents below one unit. */
  function TwoDigits(n: nat): (s: string)
    requires n < 100
    ensures |s| == 2 && AllDigits(s)
  {
    [DigitChar(n / 10), DigitChar(n % 10)]
  }

  function Abs(n: int): nat {
    if n < 0 then -n else n
  }

  /** `(cents / 100).toFixed(2)` for amounts below 1e21 units: an optional
      minus sign, the whole units, a dot and exactly two digits of cents.
      Larger amounts are printed in exponent notation, which is not
      modelled. */
  function Money(cents: int): (s: string)
  {
    (if cents < 0 then "-" else "") + Unsigned(Abs(cents))
  }

  /** The amount without its sign: units, a dot, two digits of cents. */
  function Unsigned(a: nat): (s: string)
    ensures 4 <= |s| && IsDigit(s[0]) && s[|s| - 3] == '.'
  {
    NatDigits(a / 100) + "." + TwoDigits(a % 100)
  }

  /** Reads back what `Unsigned` prints: the units without a leading zero
      unless they are the single digit `0`. */
  function ParseUnsigned(body: string): (r: Option<nat>)
  {
    if && |body| >= 4 && body[|body| - 3] == '.'
       && AllDigits(body[..|body| - 3]) && AllDigits(body[|body| - 2..])
       && (body[0] != '0' || |body| == 4)
    then
      Some(DigitsValue(body[..|body| - 3]) * 100 + DigitsValue(body[|body| - 2..]))
    else None
  }

  /** Reads back an amount printed by `Money`, as cents; a minus sign on
      zero is refused, since `Money` never prints one. */
  function ParseMoney(s: string): (r: Option<int>)
  {
    if |s| > 0 && s[0] == '-' then
      match ParseUnsigned(s[1..])
      case Some(v) => if v == 0 then None else Some(-(v as int))
      case None => None
    else ParseUnsigned(s)
  }

  lemma UnsignedRoundTrip(a: nat)
    ensures ParseUnsigned(Unsigned(a)) == Some(a)
  {
    var units := NatDigits(a / 100);
    var frac := TwoDigits(a % 100);
    var body := Unsigned(a);
    assert body[..|body| - 3] == units;
    assert body[|body| - 2..] == frac;
    DigitsRoundTrip(a / 100);
    assert DigitsValue(frac) == a % 100 by {
      assert frac[..1] == [DigitChar(a % 100 / 10)];
      assert DigitsValue(frac[..1]) == DigitsValue([]) * 10 + a % 100 / 10;
    }
  }

  lemma MoneyRoundTrip(cents: int)
    ensures ParseMoney(Money(cents)) == Some(cents)
  {
    UnsignedRoundTrip(Abs(cents));
    if cents < 0 {
      assert Money(cents)[1..] == Unsigned(Abs(cents));
    } else {
      assert Money(cents) == Unsigned(Abs(cents));
    }
  }

  /** `lines.join(sep)`. */
  function Join(lines: seq<string>, sep: char): string {
    if lines == [] then []
    else if |lines| == 1 then lines[0]
    else lines[0] + [sep] + Join(lines[1..], sep)
  }

  /** `s.split(sep)`: the pieces between separators, in order. */
  function Split(s: string, sep: char): (pieces: seq<string>)
    ensures |pieces| >= 1
  {
    if s == [] then [[]]
    else if s[0] == sep then [[]] + Split(s[1..], sep)
    else
      var rest := Split(s[1..], sep);
      [[s[0]] + rest[0]] + rest[1..]
  }

  lemma {:induction false} SplitPiece(a: string, sep: char, tail: seq<string>, b: string)
    requires sep !in a
    requires Split(b, sep) == tail
    ensures Split(a + b, sep) == [a + tail[0]] + tail[1..]
  {
    if a == [] {
      assert a + b == b && a + tail[0] == tail[0];
      assert [tail[0]] + tail[1..] == tail;
    } else {
      assert (a + b)[0] == a[0] && (a + b)[1..] == a[1..] + b;
      SplitPiece(a[1..], sep, tail, b);
      assert [a[0]] + (a[1..] + tail[0]) == a + tail[0];
    }
  }

  /** Splitting the joined lines gives the lines back when none of them
      holds the separator. */
  lemma {:induction false} SplitJoin(lines: seq<string>, sep: char)
    requires |lines| >= 1
    requires forall k :: 0 <= k < |lines| ==> sep !in lines[k]
    ensures Split(Join(lines, sep), sep) == lines
  {
    if |lines| == 1 {
      SplitPiece(lines[0], sep, [[]], []);
      assert lines[0] + [] == lines[0];
      assert [lines[0]] + [[]][1..] == lines;
    } else {
      var tail := lines[1..];
      SplitJoin(tail, sep);
      var rest := Join(tail, sep);
      assert ([sep] + rest)[0] == sep && ([sep] + rest)[1..] == rest;
      assert Split([sep] + rest, sep) == [[]] + tail;
      SplitPiece(lines[0], sep, [[]] + tail, [sep] + rest);
      assert lines[0] + [sep] + rest == lines[0] + ([sep] + rest);
      assert ([[]] + tail)[0] == [] && ([[]] + tail)[1..] == tail;
      assert lines[0] + [] == lines[0];
      assert [lines[0]] + tail == lines;
    }
  }
}
