/** Decimal texts and their conversions: digit strings with an exponent, texts with a decimal comma, and the
  integer and fraction fields shown on the display. */
module Decimal {

  // ------------------------------------------------------------ digit strings

  predicate IsDigit(c: char) {
    '0' <= c <= '9'
  }

  predicate Digits(s: string) {
    forall i :: 0 <= i < |s| ==> IsDigit(s[i])
  }

  function Value(s: string): nat
    requires Digits(s)
  {
    if s == "" then 0 else 10 * Value(s[..|s| - 1]) + (s[|s| - 1] as int - '0' as int)
  }

  function Pow10(n: nat): nat
    ensures Pow10(n) > 0
  {
    if n == 0 then 1 else 10 * Pow10(n - 1)
  }

  function Zeros(n: nat): (s: string)
    ensures |s| == n && Digits(s)
  {
    if n == 0 then "" else "0" + Zeros(n - 1)
  }

  lemma {:induction false} Pow10Sum(a: nat, b: nat)
    ensures Pow10(a + b) == Pow10(a) * Pow10(b)
  {
    if a > 0 {
      Pow10Sum(a - 1, b);
      assert Pow10(a + b) == 10 * Pow10(a - 1 + b);
    }
  }

  lemma {:induction false} ValueConcat(a: string, b: string)
    requires Digits(a) && Digits(b)
    ensures Digits(a + b) && Value(a + b) == Value(a) * Pow10(|b|) + Value(b)
  {
    if b == "" {
      assert a + b == a;
    } else {
      var c := b[..|b| - 1];
      ValueConcat(a, c);
      assert (a + b)[..|a + b| - 1] == a + c && (a + b)[|a + b| - 1] == b[|b| - 1];
      TenTimes(Value(a), Pow10(|c|));
    }
  }

  lemma TenTimes(x: nat, y: nat)
    ensures x * (10 * y) == 10 * (x * y)
  {
  }

  lemma {:induction false} ValueBound(s: string)
    requires Digits(s)
    ensures Value(s) < Pow10(|s|)
  {
    if s != "" {
      ValueBound(s[..|s| - 1]);
    }
  }

  lemma {:induction false} ValueOfZeros(n: nat)
    ensures Value(Zeros(n)) == 0
  {
    if n > 0 {
      ValueConcat("0", Zeros(n - 1));
      ValueOfZeros(n - 1);
      assert Value("0") == 0 by { assert "0"[..0] == ""; }
    }
  }

  function DigitOf(n: nat): char
    requires n < 10
  {
    ['0', '1', '2', '3', '4', '5', '6', '7', '8', '9'][n]
  }

  /** The usual text of a natural number. */
  function ToString(n: nat): string {
    if n < 10 then [DigitOf(n)] else ToString(n / 10) + [DigitOf(n % 10)]
  }

  lemma {:induction false} ToStringIsCanonical(n: nat)
    ensures var s := ToString(n);
            && s != "" && Digits(s) && Value(s) == n
            && (s == "0" || s[0] != '0') && (n == 0 <==> s == "0")
  {
    var s := ToString(n);
    if n < 10 {
      assert s[..0] == "";
    } else {
      ToStringIsCanonical(n / 10);
      assert s[..|s| - 1] == ToString(n / 10);
    }
  }

  // --------------------------------------------------- the library's parsers

  predicate IsSpace(c: char) {
    c == ' ' || 9 <= c as int <= 13
  }

  function DigitPrefix(s: string): (t: string)
    ensures Digits(t) && t <= s
    ensures Digits(s) ==> t == s
  {
    if s == "" || !IsDigit(s[0]) then "" else [s[0]] + DigitPrefix(s[1..])
  }

  datatype Parsed = Failed | Parsed(value: int)

  /** `std::stol` on a 64-bit `long`: white space, a sign, then the longest run of digits. */
  function ParseLong(s: string): Parsed {
    if s != "" && IsSpace(s[0]) then ParseLong(s[1..])
    else
      var signed := s != "" && (s[0] == '-' || s[0] == '+');
      var digits := DigitPrefix(if signed then s[1..] else s);
      if digits == "" then Failed
      else
        var v: int := if signed && s[0] == '-' then 0 - Value(digits) else Value(digits);
        if -0x8000_0000_0000_0000 <= v < 0x8000_0000_0000_0000 then Parsed(v) else Failed
  }

  /** The conversion of a `long` to a 32-bit `int`. */
  function NarrowToInt(v: int): int {
    (v + 0x8000_0000) % 0x1_0000_0000 - 0x8000_0000
  }

  lemma ParseDigits(s: string)
    requires s != "" && Digits(s)
    ensures ParseLong(s) == if Value(s) < 0x8000_0000_0000_0000 then Parsed(Value(s)) else Failed
  {
    assert IsDigit(s[0]);
  }

  // ------------------------------------------------------------- conversions

  /** The position of the first `c`, or the length of the text. */
  function IndexOf(s: string, c: char): (i: nat)
    ensures i <= |s| && (i < |s| ==> s[i] == c)
    ensures forall j :: 0 <= j < i ==> s[j] != c
  {
    if s == "" || s[0] == c then 0 else 1 + IndexOf(s[1..], c)
  }

  function WithoutComma(s: string): string {
    var p := IndexOf(s, ',');
    if p < |s| then s[..p] + s[p + 1..] else s
  }

  /** A text with a decimal comma as (value, exponent); an unreadable value counts as 0. */
  function FormatFloatStringToInt(s: string): (int, int) {
    var p := IndexOf(s, ',');
    var exponent := if p < |s| then |s| - p - 1 else 0;
    var parsed := ParseLong(WithoutComma(s));
    (if parsed.Failed? then 0 else NarrowToInt(parsed.value), exponent)
  }

  /** A digit string and exponent as a text with a decimal comma. */
  function GetFormattedString(v: string, exponent: int): string {
    if v == "" || v == "0" then "0,00"
    else if exponent <= 0 then v
    else
      var t := PadLeft(v, exponent + 1);
      Insert(t, |t| - exponent, ',')
  }

  function Insert(s: string, pos: nat, mark: char): string
    requires pos <= |s|
  {
    s[..pos] + [mark] + s[pos..]
  }

  function PadLeft(v: string, n: nat): (t: string)
    ensures |t| >= n && |t| >= |v|
    ensures Digits(v) ==> Digits(t)
  {
    if |v| < n then Zeros(n - |v|) + v else v
  }

  /** The text of a 32-bit value with a decimal point, padded one zero at a time. */
  method FormatDecimalValue(value: nat, decimal: nat) returns (s: string)
    ensures s == DecimalText(value, decimal)
  {
    if decimal == 0 {
      return ToString(value);
    }
    s := ToString(value);
    ghost var text := s;
    while |s| <= decimal
      invariant |text| <= |s| && s == Zeros(|s| - |text|) + text
      invariant |s| <= decimal + 1 || s == text
      decreases decimal - |s|
    {
      assert "0" + (Zeros(|s| - |text|) + text) == Zeros(|s| - |text| + 1) + text;
      s := "0" + s;
    }
    assert s == PadLeft(text, decimal + 1);
    var pos := |s| - decimal;
    s := s[..pos] + "." + s[pos..];
  }

  function DecimalText(value: nat, decimal: nat): string {
    PointText(ToString(value), decimal)
  }

  function PointText(v: string, decimal: nat): string {
    if decimal == 0 then v
    else
      var t := PadLeft(v, decimal + 1);
      Insert(t, |t| - decimal, '.')
  }

  /** The integer part and exactly `width` fraction digits of a text. */
  function SplitFloatString(s: string, width: nat): (string, string) {
    if s == "" then ("0", Zeros(width))
    else
      var comma := IndexOf(s, ',');
      var dot := if comma < |s| then comma else IndexOf(s, '.');
      var whole := s[..dot];
      var fraction := if dot < |s| then s[dot + 1..] else "";
      (if whole == "" then "0" else if whole == "-" then "-0" else whole,
       Field(fraction, width))
  }

  /** Fraction digits cut or padded to the width of their field. */
  function Field(fraction: string, width: nat): (f: string)
    ensures |f| == width
  {
    if |fraction| > width then fraction[..width] else fraction + Zeros(width - |fraction|)
  }

  // ------------------------------------------------------------ shape lemmas

  lemma PadLeftKeepsValue(v: string, n: nat)
    requires Digits(v)
    ensures Digits(PadLeft(v, n)) && Value(PadLeft(v, n)) == Value(v)
  {
    if |v| < n {
      ValueConcat(Zeros(n - |v|), v);
      ValueOfZeros(n - |v|);
    }
  }

  lemma CommaAt(a: string, b: string)
    requires Digits(a)
    ensures var s := a + "," + b;
            IndexOf(s, ',') == |a| && s[..|a|] == a && s[|a| + 1..] == b && WithoutComma(s) == a + b
  {
    var s := a + "," + b;
    assert s[|a|] == ',' && forall j :: 0 <= j < |a| ==> s[j] == a[j];
    assert s[..|a|] == a && s[|a| + 1..] == b;
  }

  lemma NoMark(s: string, c: char)
    requires Digits(s) && !IsDigit(c)
    ensures IndexOf(s, c) == |s|
  {
  }

  lemma {:induction false} MultipleAtLeast(k: int, d: nat)
    ensures k >= 1 ==> k * d >= d
    ensures k <= -1 ==> k * d <= 0 - d
    decreases if k < 0 then 0 - k else k
  {
    if k > 1 {
      MultipleAtLeast(k - 1, d);
      assert k * d == (k - 1) * d + d;
    } else if k < -1 {
      MultipleAtLeast(k + 1, d);
      assert k * d == (k + 1) * d - d;
    }
  }

  lemma DivideExactly(x: nat, q: nat, d: nat, r: nat)
    requires r < d && x == q * d + r
    ensures x / d == q
  {
    assert x == d * (x / d) + x % d;
    assert (x / d - q) * d == r - x % d;
    MultipleAtLeast(x / d - q, d);
  }

  lemma SplitAtComma(a: string, b: string, width: nat)
    requires a != "" && Digits(a)
    ensures SplitFloatString(a + "," + b, width) == (a, Field(b, width))
  {
    CommaAt(a, b);
    assert IsDigit(a[0]);
    assert a != "-";
  }

  // ---------------------------------------------------------------- theorems

  lemma CutField(a: string, f: string, c: string)
    requires Digits(a) && Digits(f) && Digits(c)
    ensures Digits(a + (f + c))
    ensures Value(a) * Pow10(|f|) + Value(f) == Value(a + (f + c)) * Pow10(|f|) / Pow10(|f + c|)
  {
    ValueConcat(f, c);
    ValueConcat(a, f + c);
    ValueBound(c);
    Pow10Sum(|f|, |c|);
    CutFraction(Value(a), Value(f), Value(c), Pow10(|f|), Pow10(|c|));
  }

  lemma PadField(a: string, b: string, n: nat)
    requires Digits(a) && Digits(b)
    ensures Digits(a + b) && Digits(b + Zeros(n))
    ensures Value(a) * Pow10(|b| + n) + Value(b + Zeros(n)) == Value(a + b) * Pow10(|b| + n) / Pow10(|b|)
  {
    ValueConcat(a, b);
    ValueConcat(b, Zeros(n));
    ValueOfZeros(n);
    Pow10Sum(|b|, n);
    PadFraction(Value(a), Value(b), Pow10(|b|), Pow10(n));
  }

  /** The digits A followed by B, with |B| of them behind the mark, shown in a field of `width`
      fraction digits, are floor(AB * 10^width / 10^|B|). */
  lemma FieldsOf(a: string, b: string, width: nat)
    requires Digits(a) && Digits(b)
    ensures Digits(a + b) && Digits(Field(b, width))
    ensures Value(a) * Pow10(width) + Value(Field(b, width)) == Value(a + b) * Pow10(width) / Pow10(|b|)
  {
    if |b| > width {
      assert b == b[..width] + b[width..];
      CutField(a, b[..width], b[width..]);
    } else {
      PadField(a, b, width - |b|);
    }
  }

  lemma CutFraction(A: nat, F: nat, C: nat, W: nat, X: nat)
    requires C < X && W > 0
    ensures (A * (W * X) + (F * X + C)) * W / (W * X) == A * W + F
  {
    var D := W * X;
    calc {
      (A * D + (F * X + C)) * W;
      A * D * W + (F * X + C) * W;
      { assert A * D * W == A * W * D; assert (F * X + C) * W == F * D + C * W; }
      A * W * D + (F * D + C * W);
      { assert (A * W + F) * D == A * W * D + F * D; }
      (A * W + F) * D + C * W;
    }
    assert C * W < X * W;
    DivideExactly((A * D + (F * X + C)) * W, A * W + F, D, C * W);
  }

  lemma PadFraction(A: nat, B: nat, E: nat, X: nat)
    requires E > 0
    ensures A * (E * X) + B * X == (A * E + B) * (E * X) / E
  {
    var q := A * (E * X) + B * X;
    assert q * E == (A * E + B) * (E * X) by {
      assert A * (E * X) * E == A * E * (E * X);
      assert B * X * E == B * (E * X);
    }
    DivideExactly((A * E + B) * (E * X), q, E, 0);
  }

  /** A formatted value is a digit string, or two of them around a comma. */
  lemma FormattedShape(v: string, exponent: nat) returns (a: string, b: string)
    requires Digits(v)
    ensures a != "" && Digits(a) && Digits(b) && Digits(a + b) && Value(a + b) == Value(v)
    ensures if v == "" || v == "0" then a == "0" && b == "00" && Value(v) == 0 else |b| == exponent
    ensures GetFormattedString(v, exponent) == if b == "" then a else a + "," + b
  {
    if v == "" || v == "0" {
      a, b := "0", "00";
      assert a + b == Zeros(3);
      ValueOfZeros(3);
      assert v == Zeros(|v|);
      ValueOfZeros(|v|);
    } else {
      var t := PadLeft(v, exponent + 1);
      PadLeftKeepsValue(v, exponent + 1);
      a, b := t[..|t| - exponent], t[|t| - exponent..];
      assert a + b == t;
      assert exponent == 0 ==> t == v && a == v;
    }
  }

  /** Formatting a value and splitting the text loses nothing but the digits beyond the field:
      integer and fraction fields together are floor(v * 10^width / 10^exponent). */
  lemma SplitOfFormatted(v: string, exponent: nat, width: nat)
    requires Digits(v)
    ensures var parts := SplitFloatString(GetFormattedString(v, exponent), width);
            && parts.0 != "" && Digits(parts.0) && Digits(parts.1) && |parts.1| == width
            && Value(parts.0) * Pow10(width) + Value(parts.1) == Value(v) * Pow10(width) / Pow10(exponent)
  {
    var a, b := FormattedShape(v, exponent);
    FieldsOf(a, b, width);
    if b == "" {
      NoMark(a, ',');
      NoMark(a, '.');
      assert a[..|a|] == a && IsDigit(a[0]);
      assert a + b == a;
    } else {
      SplitAtComma(a, b, width);
      if Value(v) == 0 {
        assert 0 * Pow10(width) == 0;
        DivideExactly(0, 0, Pow10(|b|), 0);
        DivideExactly(0, 0, Pow10(exponent), 0);
      }
    }
  }

  lemma ReadText(a: string, b: string)
    requires a != "" && Digits(a) && Digits(b)
    ensures Digits(a + b)
    ensures FormatFloatStringToInt(if b == "" then a else a + "," + b) ==
            (if Value(a + b) < 0x8000_0000_0000_0000 then NarrowToInt(Value(a + b)) else 0, |b|)
  {
    ValueConcat(a, b);
    if b == "" {
      NoMark(a, ',');
      assert a + b == a;
    } else {
      CommaAt(a, b);
    }
    ParseDigits(a + b);
  }

  lemma NarrowsToItselfIff(v: nat)
    ensures (if v < 0x8000_0000_0000_0000 then NarrowToInt(v) else 0) == v <==> v < 0x8000_0000
  {
  }

  // -------------------------------------------------- texts with a sign

  predicate IsSign(sign: string) {
    sign == "" || sign == "+" || sign == "-"
  }

  /** The number a sign and digits stand for, if a 64-bit `long` holds it. */
  function SignedValue(sign: string, digits: string): Parsed
    requires Digits(digits)
  {
    var v: int := if sign == "-" then 0 - Value(digits) else Value(digits);
    if -0x8000_0000_0000_0000 <= v <= 0x7FFF_FFFF_FFFF_FFFF then Parsed(v) else Failed
  }

  lemma {:induction false} DigitsFirst(digits: string, tail: string)
    requires Digits(digits) && (tail != "" ==> !IsDigit(tail[0]))
    ensures DigitPrefix(digits + tail) == digits
  {
    if digits == "" {
      assert digits + tail == tail;
    } else {
      assert (digits + tail)[1..] == digits[1..] + tail;
      DigitsFirst(digits[1..], tail);
      assert [digits[0]] + digits[1..] == digits;
    }
  }

  lemma PlainFront(text: string, digits: string)
    requires text != "" && IsDigit(text[0]) && digits != "" && DigitPrefix(text) == digits
    ensures ParseLong(text) == SignedValue("", digits)
  {
    hide Value, DigitPrefix;
  }

  lemma SignedFront(sign: char, text: string, digits: string)
    requires (sign == '-' || sign == '+') && digits != "" && DigitPrefix(text) == digits
    ensures ParseLong([sign] + text) == SignedValue([sign], digits)
  {
    hide Value, DigitPrefix;
    assert ([sign] + text)[1..] == text;
    assert [sign] == "-" <==> sign == '-';
  }

  lemma BlankSkipped(blank: char, text: string)
    requires IsSpace(blank)
    ensures ParseLong([blank] + text) == ParseLong(text)
  {
    assert ([blank] + text)[1..] == text;
    hide Value, DigitPrefix;
  }

  lemma NumberInFront(sign: string, digits: string, tail: string)
    requires IsSign(sign) && digits != "" && Digits(digits) && (tail != "" ==> !IsDigit(tail[0]))
    ensures ParseLong(sign + (digits + tail)) == SignedValue(sign, digits)
  {
    hide ParseLong, SignedValue, DigitPrefix;
    DigitsFirst(digits, tail);
    assert IsDigit(digits[0]) && (digits + tail)[0] == digits[0];
    if sign == "" {
      PlainFront(digits + tail, digits);
      assert "" + (digits + tail) == digits + tail;
    } else {
      SignedFront(sign[0], digits + tail, digits);
      assert [sign[0]] == sign;
    }
  }

  /** A text is read as the number in front: blanks, a sign or none, and digits; what follows does not matter. */
  lemma {:induction false} ReadsNumberInFront(blanks: string, sign: string, digits: string, tail: string)
    requires forall i :: 0 <= i < |blanks| ==> IsSpace(blanks[i])
    requires IsSign(sign) && digits != "" && Digits(digits) && (tail != "" ==> !IsDigit(tail[0]))
    ensures ParseLong(blanks + (sign + (digits + tail))) == SignedValue(sign, digits)
  {
    hide ParseLong, SignedValue;
    var rest := sign + (digits + tail);
    if blanks == "" {
      assert blanks + rest == rest;
      NumberInFront(sign, digits, tail);
    } else {
      assert blanks + rest == [blanks[0]] + (blanks[1..] + rest);
      BlankSkipped(blanks[0], blanks[1..] + rest);
      assert forall i :: 0 <= i < |blanks[1..]| ==> blanks[1..][i] == blanks[i + 1];
      ReadsNumberInFront(blanks[1..], sign, digits, tail);
    }
  }

  /** A text that does not begin so has no number. */
  lemma ReadsNoNumber(text: string)
    requires text != "" ==> !IsSpace(text[0]) && !IsDigit(text[0]) && text[0] != '-' && text[0] != '+'
    ensures ParseLong(text) == Failed
  {
  }

  /** A `long` becomes the 32-bit `int` that differs from it by a multiple of 2^32. */
  lemma NarrowWraps(v: int)
    ensures -0x8000_0000 <= NarrowToInt(v) <= 0x7FFF_FFFF && (v - NarrowToInt(v)) % 0x1_0000_0000 == 0
  {
  }

  predicate CommaFree(s: string) {
    forall j :: 0 <= j < |s| ==> s[j] != ','
  }

  lemma SignedIsCommaFree(sign: string, a: string)
    requires IsSign(sign) && Digits(a)
    ensures CommaFree(sign + a)
  {
    forall j | 0 <= j < |sign + a| ensures (sign + a)[j] != ',' {
      if j >= |sign| {
        assert (sign + a)[j] == a[j - |sign|] && IsDigit(a[j - |sign|]);
      }
    }
  }

  lemma FirstComma(whole: string, b: string)
    requires CommaFree(whole)
    ensures var s := whole + "," + b;
            IndexOf(s, ',') == |whole| && WithoutComma(s) == whole + b
  {
    var s := whole + "," + b;
    assert s[|whole|] == ',' && s[..|whole|] == whole && s[|whole| + 1..] == b;
    assert forall j :: 0 <= j < |whole| ==> s[j] == whole[j];
  }

  lemma SignedComma(sign: string, a: string, b: string)
    requires IsSign(sign) && Digits(a)
    ensures var s := sign + a + "," + b;
            IndexOf(s, ',') == |sign + a| && WithoutComma(s) == sign + (a + b)
  {
    hide IndexOf, WithoutComma, CommaFree, Digits, IsSign;
    SignedIsCommaFree(sign, a);
    FirstComma(sign + a, b);
    assert sign + a + b == sign + (a + b);
  }

  /** A signed text with a decimal comma is read as its digits without the comma and the number of decimals. */
  lemma ReadsSignedText(sign: string, a: string, b: string)
    requires IsSign(sign) && Digits(a) && Digits(b) && a + b != ""
    ensures Digits(a + b)
    ensures FormatFloatStringToInt(sign + a + "," + b) ==
            (match SignedValue(sign, a + b) case Failed => 0 case Parsed(v) => NarrowToInt(v), |b|)
  {
    hide NarrowToInt, SignedValue, ParseLong, Value, WithoutComma, IndexOf;
    ValueConcat(a, b);
    SignedComma(sign, a, b);
    assert (a + b) + "" == a + b;
    NumberInFront(sign, a + b, "");
  }

  /** Reading back a formatted value gives the value and exponent in exactly these cases: the value fits a
      32-bit int, and it is not the text "0", which is always shown with two decimals. */
  lemma FormattedReadsBackIff(v: string, exponent: nat)
    requires v != "" && Digits(v)
    ensures FormatFloatStringToInt(GetFormattedString(v, exponent)) == (Value(v), exponent) <==>
            Value(v) < 0x8000_0000 && (v == "0" ==> exponent == 2)
  {
    var a, b := FormattedShape(v, exponent);
    assert v == "0" ==> |b| == 2;
    ReadText(a, b);
    NarrowsToItselfIff(Value(v));
  }

  function CommaToDot(s: string): string {
    seq(|s|, i requires 0 <= i < |s| => if s[i] == ',' then '.' else s[i])
  }

  lemma CommaToDotInsert(t: string, pos: nat)
    requires Digits(t) && pos <= |t|
    ensures CommaToDot(Insert(t, pos, ',')) == Insert(t, pos, '.') && CommaToDot(t) == t
  {
    assert forall i :: 0 <= i < |t| ==> IsDigit(t[i]);
  }

  lemma DigitsSplit(t: string, n: nat)
    requires Digits(t) && n <= |t|
    ensures Digits(t[..n]) && Digits(t[n..]) && t[..n] + t[n..] == t
  {
    assert forall i :: 0 <= i < |t| ==> IsDigit(t[i]);
  }

  lemma PaddedFront(v: string, n: nat)
    requires v != "" && |v| < n
    ensures PadLeft(v, n)[0] == '0' && |PadLeft(v, n)| == n
  {
  }

  lemma PointParts(v: string, decimal: nat) returns (a: string, b: string)
    requires v != "" && Digits(v) && (|v| > 1 ==> v[0] != '0')
    ensures PointText(v, decimal) == if decimal == 0 then a else a + "." + b
    ensures a != "" && |b| == decimal && Digits(a) && Digits(b) && Digits(a + b) && Value(a + b) == Value(v)
    ensures |a| > 1 ==> a[0] != '0'
  {
    hide Value, Digits, PadLeft;
    var t := PadLeft(v, decimal + 1);
    PadLeftKeepsValue(v, decimal + 1);
    DigitsSplit(t, |t| - decimal);
    a, b := t[..|t| - decimal], t[|t| - decimal..];
    if |v| >= decimal + 1 {
      NotPadded(v, decimal + 1);
    } else {
      PaddedFront(v, decimal + 1);
    }
    assert a + "." + b == a + ['.'] + b;
  }

  lemma NotPadded(v: string, n: nat)
    requires |v| >= n
    ensures PadLeft(v, n) == v
  {
  }

  /** The text with a point denotes value / 10^decimal: a whole part without superfluous zeros and just so many
      decimals, whose digits together are the value. */
  lemma DecimalTextDenotes(value: nat, decimal: nat) returns (a: string, b: string)
    ensures DecimalText(value, decimal) == if decimal == 0 then a else a + "." + b
    ensures a != "" && |b| == decimal && Digits(a) && Digits(b) && Digits(a + b) && Value(a + b) == value
    ensures |a| > 1 ==> a[0] != '0'
  {
    hide Value, ToString, PointText;
    ToStringIsCanonical(value);
    a, b := PointParts(ToString(value), decimal);
  }

  lemma ZeroText(exponent: nat)
    ensures DecimalText(0, exponent) == "0.00" <==> exponent == 2
  {
    var t := DecimalText(0, exponent);
    assert ToString(0) == "0";
    if exponent == 2 {
      assert PadLeft("0", 3) == "000";
      assert t == Insert("000", 1, '.') == "0.00";
    } else {
      assert |t| == if exponent == 0 then 1 else exponent + 2;
    }
  }

  lemma NonZeroTextsAgree(v: string, exponent: nat)
    requires Digits(v) && v != "" && v != "0"
    ensures CommaToDot(GetFormattedString(v, exponent)) == PointText(v, exponent)
  {
    if exponent == 0 {
      CommaToDotInsert(v, 0);
    } else {
      var t := PadLeft(v, exponent + 1);
      CommaToDotInsert(t, |t| - exponent);
    }
  }

  /** The two formatters agree, up to the decimal mark, for every value but zero,
      and for zero exactly with two decimals. */
  lemma FormattersAgreeIff(value: nat, exponent: nat)
    ensures CommaToDot(GetFormattedString(ToString(value), exponent)) == DecimalText(value, exponent) <==>
            value != 0 || exponent == 2
  {
    if value == 0 {
      CommaToDotInsert("000", 1);
      assert Insert("000", 1, ',') == "0,00" && Insert("000", 1, '.') == "0.00";
      ZeroText(exponent);
    } else {
      ToStringIsCanonical(value);
      NonZeroTextsAgree(ToString(value), exponent);
    }
  }
}
