/** Fixed-point numbers: `mantissa` divided by ten to the `precision`, printed with exactly
    `precision` decimals (the library class `Decimal`, assumed), and an independent reader. */
module FixedPoint {
  import opened Wrappers

  datatype Decimal = Decimal(mantissa: int, precision: nat)

  // ---- printing

  function Digit(d: nat): char
    requires d < 10
  {
    ('0' as nat + d) as char
  }

  /** The last `k` digits, with leading zeros. */
  function Pad(n: nat, k: nat): (s: string)
    ensures |s| == k
    decreases k
  {
    if k == 0 then "" else Pad(n / 10, k - 1) + [Digit(n % 10)]
  }

  function Digits(n: nat): (s: string)
    ensures |s| > 0
  {
    if n < 10 then [Digit(n)] else Digits(n / 10) + [Digit(n % 10)]
  }

  /** The number without its last `k` digits. */
  function Shift(n: nat, k: nat): nat
    decreases k
  {
    if k == 0 then n else Shift(n / 10, k - 1)
  }

  function PrintMagnitude(n: nat, precision: nat): string {
    Digits(Shift(n, precision)) + if precision == 0 then "" else "." + Pad(n, precision)
  }

  function PrintDecimal(d: Decimal): string {
    if d.mantissa < 0 then "-" + PrintMagnitude(-d.mantissa, d.precision) else PrintMagnitude(d.mantissa, d.precision)
  }

  // ---- reading

  predicate IsDigit(c: char) { '0' <= c <= '9' }

  predicate AllDigits(s: string) { forall i | 0 <= i < |s| :: IsDigit(s[i]) }

  /** The number a sequence of digits stands for. */
  function Value(s: string): nat
    requires AllDigits(s)
    decreases |s|
  {
    if s == [] then 0 else 10 * Value(s[..|s| - 1]) + (s[|s| - 1] as nat - '0' as nat)
  }

  /** The position of the first dot, or the length. */
  function Dot(s: string): (i: nat)
    ensures i <= |s|
  {
    if s == [] || s[0] == '.' then 0 else 1 + Dot(s[1..])
  }

  function ReadMagnitude(s: string): Option<(nat, nat)> {
    var i := Dot(s);
    var whole, decimals := s[..i], if i < |s| then s[i + 1..] else "";
    if whole == "" || (i < |s| && decimals == "") || !AllDigits(whole + decimals) then None
    else Some((Value(whole + decimals), |decimals|))
  }

  /** An optional sign, at least one digit, and optionally a dot and at least one decimal. */
  function ReadDecimal(s: string): Option<Decimal> {
    var negative := s != [] && s[0] == '-';
    var r := ReadMagnitude(if negative then s[1..] else s);
    if r == None then None
    else
      var mantissa: int := r.value.0;
      Some(Decimal(if negative then -mantissa else mantissa, r.value.1))
  }

  // ---- reading undoes printing

  lemma {:induction false} PadDigits(n: nat, k: nat)
    ensures AllDigits(Pad(n, k))
    decreases k
  {
    if k > 0 {
      PadDigits(n / 10, k - 1);
    }
  }

  lemma ValueSnoc(s: string, d: nat)
    requires AllDigits(s) && d < 10
    ensures AllDigits(s + [Digit(d)]) && Value(s + [Digit(d)]) == 10 * Value(s) + d
  {
  }

  lemma {:induction false} DigitsValue(n: nat)
    ensures AllDigits(Digits(n)) && Value(Digits(n)) == n
  {
    if n < 10 {
      assert AllDigits([]) && Value([]) == 0;
      ValueSnoc([], n);
      assert [] + [Digit(n)] == [Digit(n)];
    } else {
      DigitsValue(n / 10);
      ValueSnoc(Digits(n / 10), n % 10);
    }
  }

  lemma {:induction false} DotAfter(whole: string, decimals: string)
    requires AllDigits(whole)
    ensures Dot(whole) == |whole| && Dot(whole + "." + decimals) == |whole|
  {
    if whole != [] {
      DotAfter(whole[1..], decimals);
      assert (whole + "." + decimals)[1..] == whole[1..] + "." + decimals;
    }
  }

  /** What is cut off and what is left make up the number. */
  lemma {:induction false} ValueSplits(n: nat, k: nat)
    ensures AllDigits(Digits(Shift(n, k)) + Pad(n, k)) && Value(Digits(Shift(n, k)) + Pad(n, k)) == n
    decreases k
  {
    var whole := Digits(Shift(n, k));
    if k == 0 {
      DigitsValue(n);
      assert whole + [] == whole;
    } else {
      ValueSplits(n / 10, k - 1);
      var s := whole + Pad(n / 10, k - 1);
      assert whole + Pad(n, k) == s + [Digit(n % 10)];
      ValueSnoc(s, n % 10);
    }
  }

  lemma ReadWhole(whole: string)
    requires whole != [] && AllDigits(whole)
    ensures ReadMagnitude(whole) == Some((Value(whole), 0))
  {
    DotAfter(whole, "");
    assert whole[..|whole|] == whole && whole + "" == whole;
  }

  lemma ReadParts(whole: string, decimals: string)
    requires whole != [] && decimals != [] && AllDigits(whole) && AllDigits(decimals) && AllDigits(whole + decimals)
    ensures ReadMagnitude(whole + "." + decimals) == Some((Value(whole + decimals), |decimals|))
  {
    DotAfter(whole, decimals);
    var s := whole + "." + decimals;
    assert s[..|whole|] == whole && s[|whole| + 1..] == decimals;
  }

  lemma ReadMagnitudePrinted(n: nat, precision: nat)
    ensures ReadMagnitude(PrintMagnitude(n, precision)) == Some((n, precision))
  {
    var whole, decimals := Digits(Shift(n, precision)), Pad(n, precision);
    DigitsValue(Shift(n, precision));
    PadDigits(n, precision);
    ValueSplits(n, precision);
    if precision == 0 {
      assert whole + "" == whole && whole + decimals == whole;
      ReadWhole(whole);
    } else {
      assert PrintMagnitude(n, precision) == whole + "." + decimals;
      ReadParts(whole, decimals);
    }
  }

  /** A printed magnitude starts with a digit and holds nothing but digits and a dot. */
  lemma MagnitudeChars(n: nat, precision: nat)
    ensures PrintMagnitude(n, precision) != "" && IsDigit(PrintMagnitude(n, precision)[0])
    ensures forall c | c in PrintMagnitude(n, precision) :: IsDigit(c) || c == '.'
  {
    DigitsValue(Shift(n, precision));
    PadDigits(n, precision);
    var whole := Digits(Shift(n, precision));
    assert IsDigit(whole[0]);
  }

  lemma ReadSigned(s: string, n: int, precision: nat)
    requires n >= 0 && ReadMagnitude(s) == Some((n, precision)) && s != "" && s[0] != '-'
    ensures ReadDecimal(s) == Some(Decimal(n, precision)) && ReadDecimal("-" + s) == Some(Decimal(-n, precision))
  {
  }

  function Magnitude(d: Decimal): nat { if d.mantissa < 0 then -d.mantissa else d.mantissa }

  /** Every fixed-point number reads back exactly, precision included. */
  lemma ReadDecimalPrinted(d: Decimal)
    ensures ReadDecimal(PrintDecimal(d)) == Some(d)
  {
    var n, s := Magnitude(d), PrintMagnitude(Magnitude(d), d.precision);
    assert PrintDecimal(d) == if d.mantissa < 0 then "-" + s else s;
    ReadMagnitudePrinted(n, d.precision);
    MagnitudeChars(n, d.precision);
    ReadSigned(s, n, d.precision);
  }

  /** A printed number holds nothing but digits, a sign and a dot. */
  lemma DecimalChars(d: Decimal)
    ensures forall c | c in PrintDecimal(d) :: IsDigit(c) || c == '-' || c == '.'
  {
    MagnitudeChars(Magnitude(d), d.precision);
  }
}
