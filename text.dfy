/**
 * The text conversions the store relies on: Python's int() and float() on
 * the decimal strings that appear in the CSV files and at the prompts,
 * str() of a count, zero-padded fields for strftime, and str.split.
 * Only ASCII digits are modelled.
 */
module Text {
  import opened Wrappers

  predicate IsDigit(c: char) { '0' <= c <= '9' }

  predicate AllDigits(s: string) { forall i :: 0 <= i < |s| ==> IsDigit(s[i]) }

  function DigitValue(c: char): (n: nat)
    requires IsDigit(c)
    ensures n < 10
  {
    c as int - '0' as int
  }

  function DigitChar(n: nat): (c: char)
    requires n < 10
    ensures IsDigit(c) && DigitValue(c) == n
  {
    ('0' as int + n) as char
  }

  /** The value of a string of decimal digits, most significant first. */
  function DigitsValue(s: string): nat
    requires AllDigits(s)
    decreases |s|
  {
    if |s| == 0 then 0 else DigitsValue(s[..|s| - 1]) * 10 + DigitValue(s[|s| - 1])
  }

  /** Python's str() of a non-negative int. */
  function NatToString(n: nat): (s: string)
    ensures |s| > 0 && AllDigits(s)
    ensures n > 0 ==> s[0] != '0'
    decreases n
  {
    if n < 10 then [DigitChar(n)] else NatToString(n / 10) + [DigitChar(n % 10)]
  }

  /** Python's str() of an int. */
  function IntToString(i: int): string
  {
    if i < 0 then "-" + NatToString(-i) else NatToString(i)
  }

  lemma {:induction false} NatToStringValue(n: nat)
    ensures DigitsValue(NatToString(n)) == n
    decreases n
  {
    if n >= 10 {
      NatToStringValue(n / 10);
      var s := NatToString(n);
      assert s[..|s| - 1] == NatToString(n / 10);
    }
  }

  /** Two different numbers never print the same (so ids made by str() are distinct). */
  lemma NatToStringInjective(m: nat, n: nat)
    ensures NatToString(m) == NatToString(n) <==> m == n
  {
    NatToStringValue(m);
    NatToStringValue(n);
  }

  /**
   * Python's int() on a string: an optional sign followed by decimal digits.
   * (Surrounding whitespace and '_' separators, which int() also accepts, are not modelled.)
   */
  function ParseInt(s: string): Option<int>
  {
    if |s| > 0 && (s[0] == '+' || s[0] == '-') then
      if |s| > 1 && AllDigits(s[1..]) then
        var magnitude: int := DigitsValue(s[1..]);
        Some(if s[0] == '-' then -magnitude else magnitude)
      else None
    else if |s| > 0 && AllDigits(s) then Some(DigitsValue(s))
    else None
  }

  /** int(str(i)) == i. */
  lemma ParseIntToString(i: int)
    ensures ParseInt(IntToString(i)) == Some(i)
  {
    if i < 0 {
      var digits := NatToString(-i);
      NatToStringValue(-i);
      assert IntToString(i) == "-" + digits;
      assert ("-" + digits)[1..] == digits;
    } else {
      var digits := NatToString(i);
      NatToStringValue(i);
      assert IntToString(i) == digits;
      assert IsDigit(digits[0]);
    }
  }

  /** Python's str.split(sep): the pieces between separators, in order. */
  function Split(s: string, sep: char): (r: seq<string>)
    ensures |r| > 0
    ensures forall i :: 0 <= i < |r| ==> sep !in r[i]
    decreases |s|
  {
    if |s| == 0 then [""]
    else
      var rest := Split(s[1..], sep);
      if s[0] == sep then [""] + rest else [[s[0]] + rest[0]] + rest[1..]
  }

  /** A piece free of the separator splits as itself. */
  lemma {:induction false} SplitNoSeparator(a: string, sep: char)
    requires sep !in a
    ensures Split(a, sep) == [a]
    decreases |a|
  {
    if |a| > 0 {
      SplitNoSeparator(a[1..], sep);
      assert [a[0]] + a[1..] == a;
    }
  }

  /** Splitting undoes joining: a piece free of the separator comes off the front intact. */
  lemma {:induction false} SplitJoin(a: string, sep: char, b: string)
    requires sep !in a
    ensures Split(a + [sep] + b, sep) == [a] + Split(b, sep)
    decreases |a|
  {
    var s := a + [sep] + b;
    if |a| == 0 {
      assert s[1..] == b;
    } else {
      assert s[1..] == a[1..] + [sep] + b;
      SplitJoin(a[1..], sep, b);
      assert [a[0]] + a[1..] == a;
    }
  }

  /** The value of a fractional part of at most two digits, in hundredths. */
  function FractionCents(f: string): (c: nat)
    requires AllDigits(f) && |f| <= 2
    ensures c < 100
  {
    if |f| == 0 then 0
    else if |f| == 1 then DigitValue(f[0]) * 10
    else DigitValue(f[0]) * 10 + DigitValue(f[1])
  }

  /**
   * Python's float() on an unsigned decimal string, in integer cents: digits
   * with at most one '.', at least one digit, and at most two digits after
   * the point.
   */
  function ParseUnsignedCents(body: string): (r: Option<nat>)
  {
    var parts := Split(body, '.');
    if |parts| == 1 && |parts[0]| > 0 && AllDigits(parts[0]) then
      Some(DigitsValue(parts[0]) * 100)
    else if |parts| == 2 && AllDigits(parts[0]) && AllDigits(parts[1])
            && |parts[0]| + |parts[1]| > 0 && |parts[1]| <= 2 then
      Some(DigitsValue(parts[0]) * 100 + FractionCents(parts[1]))
    else None
  }

  /** Python's float() on a decimal string with an optional sign, in integer cents. */
  function ParseCents(s: string): Option<int>
  {
    if |s| > 0 && (s[0] == '+' || s[0] == '-') then
      match ParseUnsignedCents(s[1..])
      case None => None
      case Some(m) => Some(if s[0] == '-' then -(m as int) else m)
    else
      match ParseUnsignedCents(s)
      case None => None
      case Some(m) => Some(m as int)
  }

  /** Two zero-padded digits, as strftime writes %d, %m, %y, %H, %M, %S. */
  function Pad2(n: nat): (s: string)
    requires n < 100
    ensures |s| == 2 && AllDigits(s)
  {
    [DigitChar(n / 10), DigitChar(n % 10)]
  }

  /** Four zero-padded digits, as %Y writes a year. */
  function Pad4(n: nat): (s: string)
    requires n < 10000
    ensures |s| == 4 && AllDigits(s)
  {
    [DigitChar(n / 1000), DigitChar(n / 100 % 10), DigitChar(n / 10 % 10), DigitChar(n % 10)]
  }

  /** The value of a digit string with one more digit appended. */
  lemma DigitsValueSnoc(s: string, c: char)
    requires AllDigits(s) && IsDigit(c)
    ensures AllDigits(s + [c]) && DigitsValue(s + [c]) == DigitsValue(s) * 10 + DigitValue(c)
  {
    assert (s + [c])[..|s|] == s;
  }

  lemma Pad2Value(n: nat)
    requires n < 100
    ensures DigitsValue(Pad2(n)) == n
  {
    var a, b := DigitChar(n / 10), DigitChar(n % 10);
    DigitsValueSnoc([], a);
    DigitsValueSnoc([a], b);
    assert Pad2(n) == [a] + [b];
  }

  lemma Pad4Value(n: nat)
    requires n < 10000
    ensures DigitsValue(Pad4(n)) == n
  {
    var a, b, c, d := DigitChar(n / 1000), DigitChar(n / 100 % 10), DigitChar(n / 10 % 10), DigitChar(n % 10);
    assert n / 10 / 10 == n / 100 && n / 100 / 10 == n / 1000;
    assert n / 100 == n / 1000 * 10 + n / 100 % 10;
    assert n / 10 == n / 100 * 10 + n / 10 % 10;
    DigitsValueSnoc([], a);
    DigitsValueSnoc([a], b);
    DigitsValueSnoc([a, b], c);
    DigitsValueSnoc([a, b, c], d);
    assert [a] + [b] == [a, b] && [a, b] + [c] == [a, b, c] && [a, b, c] + [d] == Pad4(n);
  }

  /**
   * Python's str() of a float that holds a whole number of cents (repr
   * without an exponent): the integer part, a point, then one digit when
   * the hundredths digit is zero and two otherwise ("7.5", "6.0", "7.25").
   */
  function FormatCents(c: int): string
  {
    if c < 0 then "-" + FormatUnsignedCents(-c) else FormatUnsignedCents(c)
  }

  /** The unsigned part of FormatCents. */
  function FormatUnsignedCents(m: nat): string
  {
    var f := m % 100;
    NatToString(m / 100) + "." + (if f % 10 == 0 then [DigitChar(f / 10)] else Pad2(f))
  }

  lemma ParseFormatUnsignedCents(m: nat)
    ensures ParseUnsignedCents(FormatUnsignedCents(m)) == Some(m)
  {
    var f := m % 100;
    var whole := NatToString(m / 100);
    var frac := if f % 10 == 0 then [DigitChar(f / 10)] else Pad2(f);
    assert FormatUnsignedCents(m) == whole + ['.'] + frac;
    SplitJoin(whole, '.', frac);
    SplitNoSeparator(frac, '.');
    NatToStringValue(m / 100);
    if f % 10 != 0 { Pad2Value(f); }
  }

  /** float(str(x)) == x for a cent amount. */
  lemma ParseFormatCents(c: int)
    ensures ParseCents(FormatCents(c)) == Some(c)
  {
    var m := if c < 0 then -c else c;
    ParseFormatUnsignedCents(m);
    var s := FormatCents(c);
    if c < 0 {
      assert s == "-" + FormatUnsignedCents(m);
      assert s[1..] == FormatUnsignedCents(m);
    } else {
      assert s == FormatUnsignedCents(m);
      assert s[0] == NatToString(m / 100)[0];
    }
  }

  /** s.replace(c, '', 1): s without its first occurrence of c. */
  function RemoveFirst(s: string, c: char): (r: string)
    ensures |r| == |s| || (|r| == |s| - 1 && c in s)
    ensures c !in s ==> r == s
    decreases |s|
  {
    if |s| == 0 then s
    else if s[0] == c then s[1..]
    else [s[0]] + RemoveFirst(s[1..], c)
  }

  /** When `c` first occurs at `i`, exactly that one character is removed. */
  lemma {:induction false} RemoveFirstAt(s: string, c: char, i: nat)
    requires i < |s| && s[i] == c && c !in s[..i]
    ensures RemoveFirst(s, c) == s[..i] + s[i + 1..]
    decreases i
  {
    if i == 0 {
      assert s[..0] + s[1..] == s[1..];
    } else {
      assert s[0] in s[..i];
      assert s[1..][i - 1] == c;
      assert s[1..][..i - 1] == s[1..i];
      assert s[1..][..i - 1] == s[..i][1..];
      RemoveFirstAt(s[1..], c, i - 1);
      assert s[1..][i - 1 + 1..] == s[i + 1..];
      assert [s[0]] + s[1..i] == s[..i];
    }
  }

  /** str(payment).replace('.', '', 1).isdigit(): digits with at most one '.', and at least one digit. */
  predicate IsPlainDecimal(s: string)
  {
    var r := RemoveFirst(s, '.');
    |r| > 0 && AllDigits(r)
  }
}
