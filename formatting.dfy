/** The text renderings the backend relies on: `Long.toString`, ISO dates
    (`LocalDate.toString`), the `yyyy-MM` month keys of the reports,
    `Double.toString` of an amount divided by 100, and CSV quoting
    (`replace("\"", "\"\"")`). Each rendering comes with the parser that
    reads it back. */
module Formatting {
  import opened Common
  import opened Calendar

  function DigitChar(d: int): (c: char)
    requires 0 <= d <= 9
    ensures IsDigit(c) && DigitValue(c) == d
  {
    ('0' as int + d) as char
  }

  function DigitValue(c: char): int {
    c as int - '0' as int
  }

  predicate AllDigits(s: string) {
    forall i :: 0 <= i < |s| ==> IsDigit(s[i])
  }

  /** The decimal digits of `n`, most significant first, without leading
      zeros (`Long.toString` of a non-negative value). */
  function NatText(n: nat): (s: string)
    ensures |s| >= 1 && AllDigits(s)
    ensures n > 0 ==> s[0] != '0'
    ensures n >= 10 ==> |s| >= 2
    ensures n >= 100 ==> |s| >= 3
    ensures n >= 1000 ==> |s| >= 4
    decreases n
  {
    if n < 10 then [DigitChar(n)] else NatText(n / 10) + [DigitChar(n % 10)]
  }

  /** The value of a string of decimal digits. */
  function ParseDigits(s: string): int {
    if s == [] then 0 else ParseDigits(s[..|s| - 1]) * 10 + DigitValue(s[|s| - 1])
  }

  lemma {:induction false} ParseNatText(n: nat)
    ensures ParseDigits(NatText(n)) == n
    decreases n
  {
    if n >= 10 {
      ParseNatText(n / 10);
      var s := NatText(n);
      assert s[..|s| - 1] == NatText(n / 10);
    }
  }

  /** The digits of `a` followed by those of `b` stand for `a` shifted left
      by `|b|` places plus `b`. */
  lemma {:induction false} ParseDigitsAppend(a: string, b: string)
    ensures ParseDigits(a + b) == ParseDigits(a) * Pow10(|b|) + ParseDigits(b)
    decreases |b|
  {
    if b == [] {
      assert a + b == a;
    } else {
      var b' := b[..|b| - 1];
      ParseDigitsAppend(a, b');
      assert (a + b)[..|a + b| - 1] == a + b';
      calc {
        ParseDigits(a + b);
        ParseDigits(a + b') * 10 + DigitValue(b[|b| - 1]);
        (ParseDigits(a) * Pow10(|b'|) + ParseDigits(b')) * 10 + DigitValue(b[|b| - 1]);
        ParseDigits(a) * (Pow10(|b'|) * 10) + (ParseDigits(b') * 10 + DigitValue(b[|b| - 1]));
        ParseDigits(a) * Pow10(|b|) + ParseDigits(b);
      }
    }
  }

  /** A number below `10^k` takes at most `k` digits. */
  lemma {:induction false} NatTextLength(n: nat, k: nat, bound: nat)
    requires k >= 1 && bound == Pow10(k) && n < bound
    ensures |NatText(n)| <= k
    decreases k
  {
    if n >= 10 {
      assert Pow10(1) == 10;
      NatTextLength(n / 10, k - 1, Pow10(k - 1));
    }
  }

  function Pow10(k: nat): (p: nat)
    ensures p >= 1
  {
    if k == 0 then 1 else 10 * Pow10(k - 1)
  }

  function Zeros(k: nat): (s: string)
    ensures |s| == k && AllDigits(s)
  {
    if k == 0 then [] else "0" + Zeros(k - 1)
  }

  /** Left-pads a digit string with zeros to `width` characters. */
  function ZeroPad(s: string, width: nat): (r: string)
    ensures |r| == Max(|s|, width)
    ensures AllDigits(s) ==> AllDigits(r)
  {
    if |s| >= width then s else Zeros(width - |s|) + s
  }

  lemma {:induction false} ParseZeros(k: nat)
    ensures ParseDigits(Zeros(k)) == 0
  {
    if k > 0 {
      ParseZeros(k - 1);
      assert Zeros(k)[..k - 1] == Zeros(k - 1) by {
        if k > 1 {
          ParseZeros(k - 2);
          assert Zeros(k) == "0" + Zeros(k - 1);
          assert Zeros(k - 1) == "0" + Zeros(k - 2);
          ZerosSnoc(k - 1);
        }
      }
    }
  }

  lemma {:induction false} ZerosSnoc(k: nat)
    ensures Zeros(k + 1) == Zeros(k) + "0"
  {
    if k > 0 {
      ZerosSnoc(k - 1);
    }
  }

  /** Leading zeros do not change the value. */
  lemma {:induction false} ParseLeadingZeros(k: nat, s: string)
    ensures ParseDigits(Zeros(k) + s) == ParseDigits(s)
    decreases |s|
  {
    if s == [] {
      assert Zeros(k) + s == Zeros(k);
      ParseZeros(k);
    } else {
      ParseLeadingZeros(k, s[..|s| - 1]);
      assert (Zeros(k) + s)[..|Zeros(k) + s| - 1] == Zeros(k) + s[..|s| - 1];
    }
  }

  lemma ParseZeroPad(n: nat, width: nat)
    ensures ParseDigits(ZeroPad(NatText(n), width)) == n
  {
    ParseNatText(n);
    if |NatText(n)| < width {
      ParseLeadingZeros(width - |NatText(n)|, NatText(n));
    }
  }

  function Abs(x: int): nat { if x < 0 then -x else x }

  /** `LocalDate.toString()`: `uuuu-MM-dd`, a year of fewer than four digits
      zero-padded (after a `-` when negative), a year above 9999 prefixed by
      `+`. */
  function DateText(d: Date): (t: string)
    requires 1 <= d.month <= 12 && 1 <= d.day <= 31
    ensures |t| >= 10 && t[|t| - 6] == '-' && t[|t| - 3] == '-'
    ensures ParseDigits(t[|t| - 5..|t| - 3]) == d.month && ParseDigits(t[|t| - 2..]) == d.day
  {
    NatTextLength(d.month, 2, Pow10(2));
    NatTextLength(d.day, 2, Pow10(2));
    ParseZeroPad(d.month, 2);
    ParseZeroPad(d.day, 2);
    var y := d.year;
    var yearText :=
      if Abs(y) < 1000 then (if y < 0 then "-" else "") + ZeroPad(NatText(Abs(y)), 4)
      else (if y > 9999 then "+" else if y < 0 then "-" else "") + NatText(Abs(y));
    yearText + "-" + ZeroPad(NatText(d.month), 2) + "-" + ZeroPad(NatText(d.day), 2)
  }

  /** For years 0 to 9999 the date text is ten characters and its three
      fields read back as the year, month and day. */
  lemma DateTextRoundTrip(d: Date)
    requires ValidDate(d) && 0 <= d.year <= 9999
    ensures var t := DateText(d);
      |t| == 10 && t[4] == '-' && t[7] == '-'
      && ParseDigits(t[..4]) == d.year
      && ParseDigits(t[5..7]) == d.month
      && ParseDigits(t[8..]) == d.day
  {
    var t := DateText(d);
    var yt := ZeroPad(NatText(d.year), 4);
    var mt := ZeroPad(NatText(d.month), 2);
    var dt := ZeroPad(NatText(d.day), 2);
    NatTextLength(d.year, 4, Pow10(4));
    NatTextLength(d.month, 2, Pow10(2));
    NatTextLength(d.day, 2, Pow10(2));
    if d.year < 1000 {
      assert t == "" + yt + "-" + mt + "-" + dt;
    } else {
      assert yt == NatText(d.year);
      assert t == "" + yt + "-" + mt + "-" + dt;
    }
    assert t[..4] == yt && t[5..7] == mt && t[8..] == dt;
    ParseZeroPad(d.year, 4);
    ParseZeroPad(d.month, 2);
    ParseZeroPad(d.day, 2);
  }

  /** A digit string of length `k` has a value below `10^k`. */
  lemma {:induction false} DigitsBound(s: string)
    requires AllDigits(s)
    ensures 0 <= ParseDigits(s) < Pow10(|s|)
    decreases |s|
  {
    if s != [] {
      DigitsBound(s[..|s| - 1]);
    }
  }

  /** The month key of an instant: its UTC date formatted with the pattern
      `yyyy-MM`. `yyyy` is the year of era (year 0 is 1 BC), padded to four
      digits and prefixed by `+` beyond 9999. */
  function MonthKey(t: Instant): string {
    var m := UtcMonthOf(t);
    var yoe := if m.0 >= 1 then m.0 else 1 - m.0;
    (if yoe > 9999 then "+" else "") + ZeroPad(NatText(yoe), 4) + "-" + ZeroPad(NatText(m.1), 2)
  }

  /** The two decimals of an amount with a trailing zero dropped, keeping at
      least one digit (`Double.toString` prints `12.0`, `12.3`, `12.34`). */
  function FractionText(f: int): (s: string)
    requires 0 <= f < 100
    ensures 1 <= |s| <= 2 && AllDigits(s)
  {
    if f % 10 == 0 then [DigitChar(f / 10)] else [DigitChar(f / 10), DigitChar(f % 10)]
  }

  /** `Double.toString(minor / 100.0)`: plain decimal notation below ten
      million, computerized scientific notation (`1.2345E7`) from there on,
      each with the shortest digits that identify the value. */
  function AmountText(minor: int): string {
    (if minor < 0 then "-" else "") + MagnitudeText(Abs(minor))
  }

  /** The unsigned part of `AmountText`, for `a` minor units. */
  function MagnitudeText(a: nat): string {
    if a < 1_000_000_000 then
      NatText(a / 100) + "." + FractionText(a % 100)
    else
      var digits := StripTrailingZeros(NatText(a));
      [digits[0]] + "." + (if |digits| == 1 then "0" else digits[1..]) + "E" + NatText(|NatText(a)| - 3)
  }

  function StripTrailingZeros(s: string): (r: string)
    requires |s| >= 1 && s[0] != '0'
    ensures 1 <= |r| <= |s| && r == s[..|r|]
  {
    if |s| > 1 && s[|s| - 1] == '0' then StripTrailingZeros(s[..|s| - 1]) else s
  }

  /** The first index of `c` in `s`, or `|s|` when it does not occur. */
  function IndexOf(s: string, c: char): (k: nat)
    ensures k <= |s|
    ensures forall i :: 0 <= i < k ==> s[i] != c
    ensures k < |s| ==> s[k] == c
  {
    if s == [] then 0 else if s[0] == c then 0 else 1 + IndexOf(s[1..], c)
  }

  /** The minor units a one- or two-digit decimal fraction stands for. */
  function Cents(fraction: string): int {
    if |fraction| == 1 then ParseDigits(fraction) * 10 else ParseDigits(fraction)
  }

  /** Reads an unsigned plain-notation amount (`12.34`) to minor units. */
  function ParseUnsigned(body: string): int {
    var k := IndexOf(body, '.');
    ParseDigits(body[..k]) * 100 + Cents(if k + 1 < |body| then body[k + 1..] else "")
  }

  /** Reads a plain-notation amount text back to minor units. */
  function ParseAmount(s: string): int {
    if s != [] && s[0] == '-' then -ParseUnsigned(s[1..]) else ParseUnsigned(s)
  }

  lemma ParseUnsignedBody(w: string, f: string)
    requires AllDigits(w) && |f| >= 1
    ensures ParseUnsigned(w + "." + f) == ParseDigits(w) * 100 + Cents(f)
  {
    var body := w + "." + f;
    assert body[|w|] == '.';
    assert forall i :: 0 <= i < |w| ==> body[i] == w[i];
    assert IndexOf(body, '.') == |w|;
    assert body[..|w|] == w;
    assert body[|w| + 1..] == f;
  }

  lemma FractionCents(f: int)
    requires 0 <= f < 100
    ensures Cents(FractionText(f)) == f
  {
    var t := FractionText(f);
    var hi := DigitChar(f / 10);
    assert f == (f / 10) * 10 + f % 10;
    if f % 10 == 0 {
      assert t == [hi] && t[..0] == [];
      assert ParseDigits(t) == f / 10;
    } else {
      var lo := DigitChar(f % 10);
      assert t == [hi, lo] && t[..1] == [hi] && [hi][..0] == [];
      assert ParseDigits([hi]) == f / 10;
      assert ParseDigits(t) == (f / 10) * 10 + f % 10;
    }
  }

  /** The plain text of a non-negative amount reads back as the amount. */
  lemma PlainAmountRoundTrip(a: nat)
    ensures ParseUnsigned(NatText(a / 100) + "." + FractionText(a % 100)) == a
  {
    ParseUnsignedBody(NatText(a / 100), FractionText(a % 100));
    ParseNatText(a / 100);
    FractionCents(a % 100);
    assert a == (a / 100) * 100 + a % 100;
  }

  /** Below ten million the CSV amount column reads back as the amount in
      minor units. */
  lemma AmountTextRoundTrip(minor: int)
    requires Abs(minor) < 1_000_000_000
    ensures ParseAmount(AmountText(minor)) == minor
  {
    var a := Abs(minor);
    var body := MagnitudeText(a);
    PlainAmountRoundTrip(a);
    assert IsDigit(body[0]);
    if minor < 0 {
      assert ("-" + body)[1..] == body;
    } else {
      assert AmountText(minor) == body;
    }
  }

  /** `s.replace("\"", "\"\"")`: every double quote doubled. */
  function EscapeQuotes(s: string): (r: string)
    ensures |r| >= |s|
  {
    if s == [] then []
    else if s[0] == '"' then "\"\"" + EscapeQuotes(s[1..])
    else [s[0]] + EscapeQuotes(s[1..])
  }

  /** A CSV field in double quotes. */
  function QuoteField(s: string): string {
    "\"" + EscapeQuotes(s) + "\""
  }

  /** Reads the inside of a quoted CSV field: `""` stands for one quote and a
      lone quote is malformed. */
  function Unescape(t: string): Option<string> {
    if t == [] then Some([])
    else if t[0] == '"' then
      if |t| >= 2 && t[1] == '"' then
        match Unescape(t[2..])
        case Some(rest) => Some("\"" + rest)
        case None => None
      else None
    else
      match Unescape(t[1..])
      case Some(rest) => Some([t[0]] + rest)
      case None => None
  }

  /** Reads a quoted CSV field (RFC 4180, section 2). */
  function UnquoteField(f: string): Option<string> {
    if |f| >= 2 && f[0] == '"' && f[|f| - 1] == '"' then Unescape(f[1..|f| - 1]) else None
  }

  lemma {:induction false} UnescapeEscape(s: string)
    ensures Unescape(EscapeQuotes(s)) == Some(s)
  {
    if s != [] {
      UnescapeEscape(s[1..]);
      var e := EscapeQuotes(s);
      if s[0] == '"' {
        assert e[2..] == EscapeQuotes(s[1..]);
      } else {
        assert e[1..] == EscapeQuotes(s[1..]);
      }
      assert s == [s[0]] + s[1..];
    }
  }

  /** Quoting a field and reading it back gives the text that was quoted,
      whatever quotes or commas it holds. */
  lemma QuoteFieldRoundTrip(s: string)
    ensures UnquoteField(QuoteField(s)) == Some(s)
  {
    var f := QuoteField(s);
    assert f[1..|f| - 1] == EscapeQuotes(s);
    UnescapeEscape(s);
  }

  /** How many times `c` occurs in `s`. */
  function CountChar(s: string, c: char): nat {
    if s == [] then 0 else (if s[0] == c then 1 else 0) + CountChar(s[1..], c)
  }

  lemma {:induction false} CountCharAppend(a: string, b: string, c: char)
    ensures CountChar(a + b, c) == CountChar(a, c) + CountChar(b, c)
  {
    if a == [] {
      assert a + b == b;
    } else {
      CountCharAppend(a[1..], b, c);
      assert (a + b)[1..] == a[1..] + b;
    }
  }

  lemma {:induction false} CountCharAbsent(s: string, c: char)
    requires c !in s
    ensures CountChar(s, c) == 0
  {
    if s != [] {
      CountCharAbsent(s[1..], c);
    }
  }

  /** The texts `f` gives the items, one after another. */
  function ConcatMap<T>(xs: seq<T>, f: T -> string): string {
    if xs == [] then "" else ConcatMap(xs[..|xs| - 1], f) + f(xs[|xs| - 1])
  }

  /** A `StringBuilder` appended to once per item, in order. */
  method AppendAll<T>(xs: seq<T>, f: T -> string) returns (s: string)
    ensures s == ConcatMap(xs, f)
  {
    s := "";
    var i := 0;
    while i < |xs|
      invariant 0 <= i <= |xs|
      invariant s == ConcatMap(xs[..i], f)
    {
      assert xs[..i + 1][..i] == xs[..i];
      s := s + f(xs[i]);
      i := i + 1;
    }
    assert xs[..i] == xs;
  }

  /** When every item's text holds `c` exactly once, the whole text holds
      it once per item. */
  lemma {:induction false} ConcatMapCount<T>(xs: seq<T>, f: T -> string, c: char)
    requires forall i :: 0 <= i < |xs| ==> CountChar(f(xs[i]), c) == 1
    ensures CountChar(ConcatMap(xs, f), c) == |xs|
  {
    if xs != [] {
      var before := xs[..|xs| - 1];
      var last := f(xs[|xs| - 1]);
      ConcatMapCount(before, f, c);
      CountCharAppend(ConcatMap(before, f), last, c);
    }
  }
}
