/**
  Money in the payroll run: the "Requested Amount" text of an invoice row read as a
  number, and the take-home formula with its round-down to whole cents. Amounts are
  exact rationals; a take-home is a whole number of cents.
*/
module Amounts {
  import opened Values
  import opened Text

  predicate IsDigit(c: char) { '0' <= c <= '9' }

  predicate AllDigits(s: string) {
    forall k {:trigger IsDigit(s[k])} :: 0 <= k < |s| ==> IsDigit(s[k])
  }

  /** The number a run of decimal digits denotes. */
  function DigitsValue(ds: string): nat
    requires AllDigits(ds)
  {
    if ds == [] then 0
    else
      assert IsDigit(ds[|ds| - 1]);
      DigitsValue(ds[..|ds| - 1]) * 10 + (ds[|ds| - 1] as int - '0' as int)
  }

  /** `x` divided by ten `n` times, that is `x / 10^n`. */
  function Shift(x: real, n: nat): (r: real)
    ensures x >= 0.0 ==> r >= 0.0
  {
    if n == 0 then x else Shift(x, n - 1) / 10.0
  }

  /** The position of the first decimal point, or |s| when there is none. */
  function IndexOfPoint(s: string): (i: nat)
    ensures i <= |s|
    ensures i < |s| ==> s[i] == '.'
    ensures forall k :: 0 <= k < i ==> s[k] != '.'
  {
    if s == [] || s[0] == '.' then 0 else 1 + IndexOfPoint(s[1..])
  }

  /** An unsigned decimal numeral `ddd`, `ddd.`, `.ddd` or `ddd.ddd` with at least one digit, read exactly. */
  function ParseUnsigned(b: string): (v: Option<real>)
    ensures v.Some? ==> v.value >= 0.0
  {
    var i := IndexOfPoint(b);
    var whole := b[..i];
    var frac := if i < |b| then b[i + 1..] else [];
    if AllDigits(whole) && AllDigits(frac) && |whole| + |frac| > 0 then Some(DecimalValue(whole, frac)) else None
  }

  /** The value of the numeral `whole.frac`. */
  function DecimalValue(whole: string, frac: string): (v: real)
    requires AllDigits(whole) && AllDigits(frac)
    ensures v >= 0.0
  {
    DigitsValue(whole) as real + Shift(DigitsValue(frac) as real, |frac|)
  }

  /** A numeral with at most one sign in front: `-` negates, `+` changes nothing. */
  function ParseSigned(t: string): Option<real> {
    if |t| > 0 && (t[0] == '-' || t[0] == '+') then
      match ParseUnsigned(t[1..])
      case None => None
      case Some(v) => Some(if t[0] == '-' then -v else v)
    else ParseUnsigned(t)
  }

  /** A signed numeral with any whitespace around it, which `float` ignores. */
  function ParseTrimmed(t: string): Option<real> {
    if t != [] && IsNumeralSpace(t[0]) then ParseTrimmed(t[1..])
    else if t != [] && IsNumeralSpace(t[|t| - 1]) then ParseTrimmed(t[..|t| - 1])
    else ParseSigned(t)
  }

  /**
    Python's `float(text)` on decimal numerals: whitespace around the numeral and one sign
    are accepted; anything else raises ValueError carrying the text.
  */
  function ParseFloat(text: string): (r: Result<real>)
    ensures r.Err? ==> r.error == ValueError(text)
  {
    match ParseTrimmed(text)
    case None => Err(ValueError(text))
    case Some(v) => Ok(v)
  }

  /** Ignoring the surrounding whitespace is reading what `strip()` leaves. */
  lemma {:induction false} ParseTrimmedStrips(t: string)
    ensures ParseTrimmed(t) == ParseSigned(Strip(t, NumeralSpace))
  {
    if t != [] && IsNumeralSpace(t[0]) {
      ParseTrimmedStrips(t[1..]);
    } else if t != [] && IsNumeralSpace(t[|t| - 1]) {
      var u := t[..|t| - 1];
      ParseTrimmedStrips(u);
      assert StripLeading(t, NumeralSpace) == t;
      assert u == [] || u[0] == t[0];
      assert StripLeading(u, NumeralSpace) == u;
    }
  }

  /** A file separator before a numeral is whitespace to `strip()` but makes `float` raise. */
  lemma SeparatorIsNotNumeralSpace()
    ensures Strip(['\U{1C}', '5'], Whitespace) == "5"
    ensures ParseFloat(['\U{1C}', '5']) == Err(ValueError(['\U{1C}', '5']))
  {
    var t := ['\U{1C}', '5'];
    assert StripLeading(t, Whitespace) == "5";
    assert StripLeading(t, NumeralSpace) == t;
    assert StripTrailing(t, NumeralSpace) == t;
    ParseTrimmedStrips(t);
    assert t[0] != '-' && t[0] != '+';
    assert ParseUnsigned(t) == None;
  }

  /** The argument of `strip("$")`. */
  const Dollar := Chars({'$'})

  /** `float(requested_amount.strip("$"))`: the value of an invoice row's "Requested Amount". */
  function ParseAmount(raw: string): (r: Result<real>)
    ensures r.Err? ==> r.error == ValueError(Strip(raw, Dollar))
  {
    ParseFloat(Strip(raw, Dollar))
  }

  /**
    `Decimal(x).quantize(Decimal('0.00'), rounding=ROUND_DOWN)` counted in cents:
    the whole number of cents nearest to x on the side of zero.
  */
  function TruncateCents(x: real): (c: int)
    ensures 0.0 <= x ==> 0 <= c && c as real <= 100.0 * x < c as real + 1.0
    ensures x < 0.0 ==> c <= 0 && c as real - 1.0 < 100.0 * x <= c as real
  {
    if x >= 0.0 then (100.0 * x).Floor else -((-100.0 * x).Floor)
  }

  /**
    The largest take-home, in dollars, that `quantize(Decimal('0.00'))` can return in
    Python's default decimal context: the context keeps 28 digits, and a result in cents
    needs more than that from 10^26 dollars on.
  */
  const QuantizeLimit: real := 100_000_000_000_000_000_000_000_000.0

  /** The dollar amount of a number of cents. */
  function Dollars(cents: int): real {
    cents as real / 100.0
  }

  /**
    A tutor's take-home in cents: `revenue / (1 + fee) * cut` rounded down to the cent.
    `1 + fee` and `* cut` raise TypeError on a string operand, a fee of -1 divides by zero,
    and a take-home of `QuantizeLimit` dollars or more raises InvalidOperation in `quantize`.
  */
  function TakeHome(revenue: real, fee: Value, cut: Value): (r: Result<int>)
    ensures r.Ok? <==>
      (fee.Num? && fee.x != -1.0 && cut.Num? && -QuantizeLimit < revenue / (1.0 + fee.x) * cut.x < QuantizeLimit)
    ensures r.Err? ==>
      (r.error == if fee.Str? || (fee.x != -1.0 && cut.Str?) then TypeError
                  else if fee.x == -1.0 then ZeroDivisionError
                  else InvalidOperation)
  {
    if fee.Str? then Err(TypeError)
    else if 1.0 + fee.x == 0.0 then Err(ZeroDivisionError)
    else if cut.Str? then Err(TypeError)
    else
      var cents := TruncateCents(revenue / (1.0 + fee.x) * cut.x);
      if cents <= -100_000_000_000_000_000_000_000_000_00 || 100_000_000_000_000_000_000_000_000_00 <= cents
      then Err(InvalidOperation)
      else Ok(cents)
  }

  /**
    The take-home is the exact amount `revenue / (1 + fee) * cut` cut to whole cents toward
    zero: never larger in magnitude, on the same side of zero, and less than a cent away.
  */
  lemma TakeHomeRounding(revenue: real, fee: Value, cut: Value)
    requires TakeHome(revenue, fee, cut).Ok?
    ensures var exact := revenue / (1.0 + fee.x) * cut.x;
      var paid := Dollars(TakeHome(revenue, fee, cut).value);
      && (0.0 <= exact ==> 0.0 <= paid <= exact < paid + 0.01)
      && (exact < 0.0 ==> paid - 0.01 < exact <= paid <= 0.0)
  {
    var exact := revenue / (1.0 + fee.x) * cut.x;
    var c := TruncateCents(exact);
    assert Dollars(c) * 100.0 == c as real;
  }

  /** The decimal digit character for 0..9. */
  function DigitChar(d: nat): (c: char)
    requires d < 10
    ensures IsDigit(c) && c as int - '0' as int == d
  {
    (d + '0' as int) as char
  }

  /** The decimal numeral of n, without leading zeros. */
  function NatText(n: nat): (s: string)
    ensures |s| >= 1 && AllDigits(s)
  {
    if n < 10 then [DigitChar(n)] else NatText(n / 10) + [DigitChar(n % 10)]
  }

  /** How an invoice export shows a number of cents: dollars, a point, two digits. */
  function CentsText(c: nat): (s: string)
    ensures |s| >= 4
  {
    NatText(c / 100) + "." + [DigitChar(c / 10 % 10), DigitChar(c % 10)]
  }

  lemma {:induction false} NatTextValue(n: nat)
    ensures DigitsValue(NatText(n)) == n
  {
    if n >= 10 {
      var s := NatText(n);
      assert s[..|s| - 1] == NatText(n / 10);
      NatTextValue(n / 10);
    }
  }

  /** Text that starts and ends with a digit loses only a leading dollar sign to `strip("$")`. */
  lemma StripAroundDigits(t: string)
    requires |t| >= 1 && IsDigit(t[0]) && IsDigit(t[|t| - 1])
    ensures Strip("$" + t, Dollar) == t
  {
    var s := "$" + t;
    assert s[1..] == t;
    StripUnique(s, Dollar, 1, |s|);
  }

  /** The first decimal point is the one every earlier character differs from. */
  lemma IndexOfPointIs(s: string, i: nat)
    requires i < |s| && s[i] == '.'
    requires forall k :: 0 <= k < i ==> s[k] != '.'
    ensures IndexOfPoint(s) == i
  {
  }

  /** A numeral with a whole part, a point and a fractional part, all digits. */
  lemma ParseUnsignedPointed(whole: string, frac: string)
    requires |whole| >= 1 && AllDigits(whole) && AllDigits(frac)
    ensures ParseUnsigned(whole + "." + frac) == Some(DecimalValue(whole, frac))
  {
    var b := whole + "." + frac;
    var i := |whole|;
    assert IndexOfPoint(b) == i by {
      forall k | 0 <= k < i ensures b[k] != '.' {
        assert b[k] == whole[k];
        assert IsDigit(whole[k]);
      }
      IndexOfPointIs(b, i);
    }
    assert b[..i] == whole && b[i + 1..] == frac;
  }

  /** Text that starts and ends with a digit has no whitespace or sign to drop before it is read. */
  lemma ParseTrimmedDigitEnds(t: string)
    requires t != [] && IsDigit(t[0]) && IsDigit(t[|t| - 1])
    ensures ParseTrimmed(t) == ParseUnsigned(t)
  {
    assert ParseTrimmed(t) == ParseSigned(t);
  }

  /** A dollar sign followed by digits, a point and digits reads as the numeral's value. */
  lemma ParseAmountOfNumeral(whole: string, frac: string)
    requires |whole| >= 1 && |frac| >= 1 && AllDigits(whole) && AllDigits(frac)
    ensures ParseAmount("$" + (whole + "." + frac)) == Ok(DecimalValue(whole, frac))
  {
    var t := whole + "." + frac;
    assert t[0] == whole[0] && t[|t| - 1] == frac[|frac| - 1];
    assert IsDigit(t[0]) && IsDigit(t[|t| - 1]);
    StripAroundDigits(t);
    ParseUnsignedPointed(whole, frac);
    ParseTrimmedDigitEnds(t);
  }

  /** Two digits read as their two-digit number. */
  lemma TwoDigitsValue(hi: nat, lo: nat)
    requires hi < 10 && lo < 10
    ensures DigitsValue([DigitChar(hi), DigitChar(lo)]) == 10 * hi + lo
  {
    var ds := [DigitChar(hi), DigitChar(lo)];
    var one := [DigitChar(hi)];
    assert ds[..1] == one && ds[1] == DigitChar(lo);
    assert one[..0] == [];
    assert DigitsValue(one) == hi;
    assert DigitsValue(ds) == DigitsValue(one) * 10 + lo;
  }

  /** Whole dollars plus a fraction of hundredths are the same number of cents. */
  lemma DollarsSplit(c: nat)
    ensures (c / 100) as real + (c % 100) as real / 100.0 == Dollars(c)
  {
    assert c == (c / 100) * 100 + c % 100;
  }

  /** The numeral a number of cents is shown as denotes that many hundredths. */
  lemma CentsValue(c: nat)
    ensures DecimalValue(NatText(c / 100), [DigitChar(c / 10 % 10), DigitChar(c % 10)]) == Dollars(c)
  {
    var whole := NatText(c / 100);
    var frac := [DigitChar(c / 10 % 10), DigitChar(c % 10)];
    var f := c % 100;
    assert DigitsValue(whole) == c / 100 by { NatTextValue(c / 100); }
    assert DigitsValue(frac) == f by {
      TwoDigitsValue(c / 10 % 10, c % 10);
      LastTwoDigits(c);
    }
    assert Shift(f as real, |frac|) == f as real / 100.0 by {
      var x := f as real;
      assert |frac| == 2;
      assert Shift(x, 1) == x / 10.0;
      assert Shift(x, 2) == x / 10.0 / 10.0;
    }
    DollarsSplit(c);
  }

  /** The tens and units digits of c make up c modulo 100. */
  lemma LastTwoDigits(c: nat)
    ensures c / 10 % 10 * 10 + c % 10 == c % 100
  {
    var q, r := c / 10, c % 10;
    var h, d := q / 10, q % 10;
    assert c == 10 * q + r && 0 <= r < 10;
    assert q == 10 * h + d && 0 <= d < 10;
    assert c == 100 * h + (10 * d + r);
    ModOfSplit(c, h, 10 * d + r);
  }

  /** Division by 100 is unique: a split c = 100h + b with 0 <= b < 100 leaves b as remainder. */
  lemma ModOfSplit(c: int, h: int, b: int)
    requires c == 100 * h + b && 0 <= b < 100
    ensures c % 100 == b
  {
  }

  /** Reading back a shown amount of cents, with its dollar sign, gives that amount exactly. */
  lemma ParseAmountOfCentsText(c: nat)
    ensures ParseAmount("$" + CentsText(c)) == Ok(Dollars(c))
  {
    var whole := NatText(c / 100);
    var frac := [DigitChar(c / 10 % 10), DigitChar(c % 10)];
    assert CentsText(c) == whole + "." + frac;
    assert ParseAmount("$" + (whole + "." + frac)) == Ok(DecimalValue(whole, frac)) by {
      ParseAmountOfNumeral(whole, frac);
    }
    CentsValue(c);
  }

  /**
    A thousands separator is not part of a float literal: a comma ahead of the decimal point
    makes the amount raise ValueError carrying the text without its dollar sign.
  */
  lemma ParseAmountRejectsSeparator(a: string, b: string)
    requires a != [] && b != [] && IsDigit(a[0]) && IsDigit(b[|b| - 1])
    requires forall k :: 0 <= k < |a| ==> a[k] != '.'
    ensures ParseAmount("$" + (a + "," + b)) == Err(ValueError(a + "," + b))
  {
    var t := a + "," + b;
    assert t[0] == a[0] && t[|t| - 1] == b[|b| - 1];
    StripAroundDigits(t);
    ParseTrimmedDigitEnds(t);
    var i := IndexOfPoint(t);
    assert forall k :: 0 <= k <= |a| ==> t[k] != '.' by {
      assert t[|a|] == ',';
      assert forall k :: 0 <= k < |a| ==> t[k] == a[k];
    }
    assert i > |a|;
    assert !AllDigits(t[..i]) by { assert !IsDigit(t[..i][|a|]); }
    assert ParseUnsigned(t) == None;
  }

  /** "$1,000.00" raises ValueError. */
  lemma ParseAmountRejectsThousands()
    ensures ParseAmount("$1,000.00") == Err(ValueError("1,000.00"))
  {
    var t := "1" + "," + "000.00";
    assert t == "1,000.00";
    assert "$" + t == "$1,000.00";
    ParseAmountRejectsSeparator("1", "000.00");
  }
}
