/**
 * Decimal text of the numbers the adapter puts into stack commands
 * (`DTMULT 10.1`, `SEED 4444`), the way Python's str() writes them, together
 * with parsers that read them back. The round-trip lemmas are what lets the
 * rest of the model recover a value from the command text that carried it.
 */
module Text {
  import opened Wrappers

  function Pow10(n: nat): (r: nat)
    ensures r > 0
  {
    if n == 0 then 1 else 10 * Pow10(n - 1)
  }

  predicate IsDigit(c: char) { '0' <= c <= '9' }

  predicate AllDigits(s: string) { forall i :: 0 <= i < |s| ==> IsDigit(s[i]) }

  function DigitChar(d: nat): (c: char)
    requires d < 10
    ensures IsDigit(c) && c as int - '0' as int == d
  {
    ('0' as int + d) as char
  }

  /** Value of a string of decimal digits, most significant first; leading zeros are allowed. */
  function DigitsValue(s: string): nat
    requires AllDigits(s)
    decreases |s|
  {
    if s == [] then 0 else 10 * DigitsValue(s[..|s| - 1]) + (s[|s| - 1] as int - '0' as int)
  }

  /** Python's str() of a non-negative integer: its digits, no leading zero. */
  function NatToString(n: nat): string
    decreases n
  {
    if n < 10 then [DigitChar(n)] else NatToString(n / 10) + [DigitChar(n % 10)]
  }

  /** Python's str() of an integer: a minus sign exactly when negative, then the digits of its magnitude. */
  function IntToString(i: int): (r: string)
    ensures |r| > 0 && (r[0] == '-' <==> i < 0)
    ensures var digits := if i < 0 then r[1..] else r;
      digits != [] && AllDigits(digits) && DigitsValue(digits) == Abs(i)
  {
    NatToStringDigits(Abs(i));
    if i < 0 then
      var r := "-" + NatToString(-i);
      assert r[1..] == NatToString(-i);
      r
    else
      assert IsDigit(NatToString(i)[0]);
      NatToString(i)
  }

  /** `k` zero digits. */
  function Zeros(k: nat): (z: string)
    ensures |z| == k
  {
    if k == 0 then [] else Zeros(k - 1) + "0"
  }

  /** The digits of `n`, left-padded with zeros to at least `width` characters. */
  function Padded(n: nat, width: nat): (r: string)
    ensures |r| >= width
  {
    var s := NatToString(n);
    if |s| < width then Zeros(width - |s|) + s else s
  }

  /**
   * A decimal number written with a fixed count of fractional digits:
   * the value `mantissa / 10^places`. With `places == 0` it is a Python `int`
   * (`4`); otherwise it is a number Python prints with exactly `places`
   * fractional digits (`10.1` is Decimal(101, 1)).
   */
  datatype Decimal = Decimal(mantissa: int, places: nat) {
    function Value(): real
    {
      mantissa as real / Pow10(places) as real
    }
  }

  function Abs(i: int): nat { if i < 0 then -i else i }

  /** Inserts a decimal point before the last `places` characters of `s`. */
  function WithPoint(s: string, places: nat): string
    requires places < |s|
  {
    if places == 0 then s else s[..|s| - places] + "." + s[|s| - places..]
  }

  /** The unsigned text of `n / 10^places`: integer digits, then `places` fractional digits. */
  function UnsignedDecimalText(n: nat, places: nat): (t: string)
    ensures |t| > places && IsDigit(t[0])
    ensures places > 0 ==> t[|t| - places - 1] == '.'
  {
    PaddedDigits(n, places + 1);
    WithPoint(Padded(n, places + 1), places)
  }

  /**
   * The text Python prints for `d`: a minus sign exactly when negative, and
   * with `places > 0` a point followed by exactly `places` characters (digits,
   * as the round trip below shows).
   */
  function DecimalText(d: Decimal): (r: string)
    ensures |r| > d.places && (r[0] == '-' <==> d.mantissa < 0)
    ensures d.places > 0 ==> r[|r| - d.places - 1] == '.'
  {
    var t := UnsignedDecimalText(Abs(d.mantissa), d.places);
    if d.mantissa < 0 then
      "-" + t
    else
      assert t[0] != '-';
      t
  }

  /** Index of the first occurrence of `c` in `s`. */
  function IndexOf(s: string, c: char): (r: Option<nat>)
    ensures r.Some? ==> r.value < |s| && s[r.value] == c
  {
    if s == [] then None
    else if s[0] == c then Some(0)
    else match IndexOf(s[1..], c)
      case None => None
      case Some(k) => Some(k + 1)
  }

  /** Reads a non-empty string of digits as a natural number. */
  function ParseNat(s: string): (r: Option<nat>)
    ensures r.Some? ==> s != [] && AllDigits(s) && r.value == DigitsValue(s)
  {
    if s != [] && AllDigits(s) then Some(DigitsValue(s)) else None
  }

  /** Reads an optionally negative decimal integer. */
  function ParseInt(s: string): Option<int>
  {
    if |s| > 0 && s[0] == '-' then
      match ParseNat(s[1..])
      case None => None
      case Some(n) => Some(0 - n as int)
    else
      match ParseNat(s)
      case None => None
      case Some(n) => Some(n as int)
  }

  /** Reads digits with at most one decimal point; the count of digits after the point is kept. */
  function ParseUnsignedDecimal(s: string): Option<Decimal>
  {
    match IndexOf(s, '.')
    case None =>
      (match ParseNat(s)
       case None => None
       case Some(n) => Some(Decimal(n, 0)))
    case Some(k) =>
      var whole, fraction := s[..k], s[k + 1..];
      if whole != [] && fraction != [] && AllDigits(whole) && AllDigits(fraction) then
        Some(Decimal(DigitsValue(whole + fraction), |fraction|))
      else None
  }

  /** Reads an optionally negative decimal number. */
  function ParseDecimal(s: string): Option<Decimal>
  {
    if |s| > 0 && s[0] == '-' then
      match ParseUnsignedDecimal(s[1..])
      case None => None
      case Some(d) => Some(Decimal(-d.mantissa, d.places))
    else ParseUnsignedDecimal(s)
  }

  // ---------------------------------------------------------------------------
  // Lemmas

  lemma {:induction false} NatToStringDigits(n: nat)
    ensures |NatToString(n)| > 0 && AllDigits(NatToString(n))
    ensures DigitsValue(NatToString(n)) == n
    decreases n
  {
    if n >= 10 {
      NatToStringDigits(n / 10);
      var s := NatToString(n / 10);
      var t := s + [DigitChar(n % 10)];
      assert t[..|t| - 1] == s;
    }
  }

  lemma {:induction false} ZerosDigits(k: nat)
    ensures |Zeros(k)| == k && AllDigits(Zeros(k)) && DigitsValue(Zeros(k)) == 0
  {
    if k > 0 {
      ZerosDigits(k - 1);
      assert Zeros(k)[..k - 1] == Zeros(k - 1);
    }
  }

  /** The value of a concatenation of digit strings. */
  lemma {:induction false} DigitsValueAppend(a: string, b: string)
    requires AllDigits(a) && AllDigits(b)
    ensures AllDigits(a + b)
    ensures DigitsValue(a + b) == DigitsValue(a) * Pow10(|b|) + DigitsValue(b)
    decreases |b|
  {
    if b == [] {
      assert a + b == a;
    } else {
      var b' := b[..|b| - 1];
      var c := b[|b| - 1];
      DigitsValueAppend(a, b');
      assert (a + b)[..|a + b| - 1] == a + b';
      assert b[..|b| - 1] == b';
      var va, vb', p := DigitsValue(a), DigitsValue(b'), Pow10(|b'|);
      var cv := c as int - '0' as int;
      assert DigitsValue(a + b) == 10 * DigitsValue(a + b') + cv;
      assert DigitsValue(b) == 10 * vb' + cv;
      assert Pow10(|b|) == 10 * p;
      MulTen(va, p);
    }
  }

  lemma MulTen(x: int, y: int)
    ensures 10 * (x * y) == x * (10 * y)
  {
  }

  /** Padding with zeros keeps the digits' value. */
  lemma PaddedDigits(n: nat, width: nat)
    ensures |Padded(n, width)| > 0 && AllDigits(Padded(n, width))
    ensures DigitsValue(Padded(n, width)) == n
  {
    var s := NatToString(n);
    NatToStringDigits(n);
    if |s| < width {
      var z := Zeros(width - |s|);
      assert Padded(n, width) == z + s;
      ZerosDigits(width - |s|);
      DigitsValueAppend(z, s);
      assert DigitsValue(z + s) == 0 * Pow10(|s|) + n;
    } else {
      assert Padded(n, width) == s;
    }
  }

  lemma {:induction false} IndexOfAbsent(s: string, c: char)
    requires c !in s
    ensures IndexOf(s, c) == None
  {
    if s != [] {
      IndexOfAbsent(s[1..], c);
    }
  }

  lemma {:induction false} IndexOfFirst(a: string, c: char, b: string)
    requires c !in a
    ensures IndexOf(a + [c] + b, c) == Some(|a|)
  {
    if a != [] {
      IndexOfFirst(a[1..], c, b);
      assert (a + [c] + b)[1..] == a[1..] + [c] + b;
    }
  }

  /** str() of an integer reads back as that integer. */
  lemma IntToStringRoundTrip(i: int)
    ensures ParseInt(IntToString(i)) == Some(i)
  {
    if i < 0 {
      NatToStringDigits(-i);
      assert IntToString(i)[1..] == NatToString(-i);
    } else {
      NatToStringDigits(i);
      assert IsDigit(NatToString(i)[0]);
    }
  }

  lemma UnsignedDecimalRoundTrip(n: nat, places: nat)
    ensures ParseUnsignedDecimal(WithPoint(Padded(n, places + 1), places)) == Some(Decimal(n, places))
  {
    var s := Padded(n, places + 1);
    PaddedDigits(n, places + 1);
    if places == 0 {
      NoPointInDigits(s);
      IndexOfAbsent(s, '.');
    } else {
      SplitRoundTrip(s, places);
    }
  }

  /** Digits with a point inserted before the last `places` of them read back as their value. */
  lemma SplitRoundTrip(s: string, places: nat)
    requires 0 < places < |s| && AllDigits(s)
    ensures ParseUnsignedDecimal(WithPoint(s, places)) == Some(Decimal(DigitsValue(s), places))
  {
    var k := |s| - places;
    DigitsSlices(s, k);
    SliceJoin(s, k);
    PointedRoundTrip(s[..k], s[k..]);
  }

  lemma SliceJoin(s: string, k: nat)
    requires k <= |s|
    ensures s[..k] + s[k..] == s
  {
  }

  /** Digits, a point and digits read back as the digits' value with the fraction's length as places. */
  lemma PointedRoundTrip(whole: string, fraction: string)
    requires whole != [] && fraction != []
    requires AllDigits(whole) && AllDigits(fraction)
    ensures ParseUnsignedDecimal(whole + ['.'] + fraction)
      == Some(Decimal(DigitsValue(whole + fraction), |fraction|))
  {
    var t := whole + ['.'] + fraction;
    NoPointInDigits(whole);
    IndexOfFirst(whole, '.', fraction);
    assert t[..|whole|] == whole;
    assert t[|whole| + 1..] == fraction;
  }

  lemma DigitsSlices(s: string, k: nat)
    requires k <= |s| && AllDigits(s)
    ensures AllDigits(s[..k]) && AllDigits(s[k..])
  {
    forall i | 0 <= i < k
      ensures IsDigit(s[..k][i])
    {
      assert s[..k][i] == s[i];
    }
    forall i | 0 <= i < |s| - k
      ensures IsDigit(s[k..][i])
    {
      assert s[k..][i] == s[k + i];
    }
  }

  lemma NoPointInDigits(s: string)
    requires AllDigits(s)
    ensures '.' !in s
  {
    forall i | 0 <= i < |s|
      ensures s[i] != '.'
    {
      assert IsDigit(s[i]);
    }
  }

  /** The text of a decimal reads back as the same decimal: mantissa and places. */
  lemma DecimalRoundTrip(d: Decimal)
    ensures ParseDecimal(DecimalText(d)) == Some(d)
  {
    var a := Abs(d.mantissa);
    var body := UnsignedDecimalText(a, d.places);
    assert ParseUnsignedDecimal(body) == Some(Decimal(a, d.places)) by {
      UnsignedDecimalRoundTrip(a, d.places);
    }
    if d.mantissa < 0 {
      var s := DecimalText(d);
      assert s == "-" + body;
      assert s[1..] == body;
    } else {
      assert DecimalText(d) == body && body[0] != '-';
    }
  }

  /** Distinct decimals are written differently, so a command names exactly one value. */
  lemma DecimalTextInjective(d: Decimal, e: Decimal)
    requires DecimalText(d) == DecimalText(e)
    ensures d == e
  {
    DecimalRoundTrip(d);
    DecimalRoundTrip(e);
  }
}
