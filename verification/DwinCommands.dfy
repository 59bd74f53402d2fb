/** Payload builders for display fields, and what a value sent to the display shows there. */
module DwinCommands {
  import opened Basics
  import opened Decimal
  import opened DwinParser

  const PAD: Byte := 0x01

  type Vp = v: int | 0 <= v < 0x1_0000

  /** Texts of the display's single-byte code page that are the same in ASCII. */
  predicate Ascii(s: string) {
    forall i :: 0 <= i < |s| ==> 32 <= s[i] as int < 128
  }

  function TextBytes(s: string): seq<Byte>
    requires Ascii(s)
  {
    seq(|s|, i requires 0 <= i < |s| => s[i] as int)
  }

  function VpBytes(vp: Vp): seq<Byte> {
    [vp / 256, vp % 256]
  }

  function Padding(n: nat): seq<Byte> {
    if n == 0 then [] else Padding(n - 1) + [PAD]
  }

  /** The payload of a right-aligned field.  When the text is longer than the field the pad count wraps
      around and no payload is ever completed. */
  function RightAligned(vp: Vp, text: string, len: nat): Option<seq<Byte>>
    requires Ascii(text)
  {
    if |text| > len then None else Some(VpBytes(vp) + Padding(len - |text|) + TextBytes(text))
  }

  method BuildRightAligned(vp: Vp, text: string, len: nat) returns (payload: Option<seq<Byte>>)
    requires Ascii(text)
    ensures payload == RightAligned(vp, text, len)
  {
    var bytes: seq<Byte> := [];
    bytes := bytes + [vp / 256];
    bytes := bytes + [vp % 256];
    if |text| > len {
      return None;
    }
    var padCount := len - |text|;
    for i := 0 to padCount
      invariant bytes == VpBytes(vp) + Padding(i)
    {
      bytes := bytes + [PAD];
    }
    for i := 0 to |text|
      invariant bytes == VpBytes(vp) + Padding(padCount) + TextBytes(text)[..i]
    {
      bytes := bytes + [text[i] as int];
    }
    assert TextBytes(text)[..|text|] == TextBytes(text);
    return Some(bytes);
  }

  /** Left-aligned text in a field of even length, filled up with zero bytes. */
  function LeftAligned(vp: Vp, text: string, maxLen: nat): seq<Byte>
    requires Ascii(text)
  {
    var n := if maxLen % 2 != 0 then maxLen + 1 else maxLen;
    VpBytes(vp) + seq(n, i requires 0 <= i < n => if i < |text| then text[i] as int as Byte else 0)
  }

  method BuildLeftAligned(vp: Vp, text: string, maxLen: nat) returns (payload: seq<Byte>)
    requires Ascii(text)
    ensures payload == LeftAligned(vp, text, maxLen)
  {
    payload := [vp / 256] + [vp % 256];
    var sendLen := maxLen;
    if sendLen % 2 != 0 {
      sendLen := sendLen + 1;
    }
    for i := 0 to sendLen
      invariant |payload| == i + 2 && payload[..2] == VpBytes(vp)
      invariant forall k :: 0 <= k < i ==> payload[k + 2] == if k < |text| then text[k] as int else 0
    {
      if i < |text| {
        payload := payload + [text[i] as int];
      } else {
        payload := payload + [0x00];
      }
    }
  }

  // ------------------------------------------------------ what a field shows

  /** The characters of a field once its leading padding is taken off. */
  function Shown(field: seq<Byte>): seq<Byte> {
    if field != [] && field[0] == 0x01 then Shown(field[1..]) else field
  }

  lemma {:induction false} PaddingFront(n: nat)
    ensures n > 0 ==> Padding(n) == [PAD] + Padding(n - 1)
    ensures |Padding(n)| == n
  {
    if n > 0 {
      PaddingFront(n - 1);
    }
  }

  lemma {:induction false} ShownText(n: nat, text: string)
    requires Ascii(text)
    ensures Shown(Padding(n) + TextBytes(text)) == TextBytes(text)
  {
    PaddingFront(n);
    if n > 0 {
      var field := Padding(n) + TextBytes(text);
      assert field[1..] == Padding(n - 1) + TextBytes(text);
      ShownText(n - 1, text);
    } else {
      assert Padding(0) + TextBytes(text) == TextBytes(text);
    }
  }

  /** The VP address in front of a payload, its high byte first. */
  function Address(payload: seq<Byte>): int
    requires |payload| >= 2
  {
    (payload[0] as int) * 256 + payload[1] as int
  }

  /** A field frame, decoded from the wire, addresses `vp` and shows `text`. */
  ghost predicate Shows(m: Message, vp: Vp, text: string)
    requires Ascii(text)
  {
    m.kind == WriteAck && |m.payload| >= 2 && Address(m.payload) == vp &&
    Shown(m.payload[2..]) == TextBytes(text)
  }

  lemma PayloadParts(vp: Vp, text: string, len: nat)
    requires Ascii(text) && |text| <= len
    ensures RightAligned(vp, text, len).Some?
    ensures var p := RightAligned(vp, text, len).value;
            |p| == len + 2 && p[..2] == VpBytes(vp) && p[2..] == Padding(len - |text|) + TextBytes(text)
  {
    PaddingFront(len - |text|);
  }

  lemma FieldShows(source: string, vp: Vp, text: string, len: nat)
    requires Ascii(text) && |text| <= len && 1 <= len <= 252
    ensures RightAligned(vp, text, len).Some?
    ensures var c := ChangeNumber(RightAligned(vp, text, len).value);
            Sendable(c) && Shows(AckFor(source, c), vp, text)
  {
    hide RightAligned, Padding, TextBytes, Shown, VpBytes, AckFor, Wire, Sendable;
    PayloadParts(vp, text, len);
    AddressOf(vp, RightAligned(vp, text, len).value);
    ShownText(len - |text|, text);
    NumberIsSent(source, RightAligned(vp, text, len).value);
  }

  lemma NumberIsSent(source: string, payload: seq<Byte>)
    requires 3 <= |payload| <= 254
    ensures Sendable(ChangeNumber(payload))
    ensures AckFor(source, ChangeNumber(payload)) == Message(source, WriteAck, payload)
  {
  }

  lemma AddressOf(vp: Vp, payload: seq<Byte>)
    requires |payload| >= 2 && payload[..2] == VpBytes(vp)
    ensures Address(payload) == vp
  {
    assert payload[0] == payload[..2][0] && payload[1] == payload[..2][1];
  }

  /** The characters of a field up to its first zero byte. */
  function UpToZero(field: seq<Byte>): seq<Byte> {
    if field == [] || field[0] == 0 then [] else [field[0]] + UpToZero(field[1..])
  }

  lemma {:induction false} TextUpToZero(text: string, n: nat)
    requires Ascii(text)
    ensures UpToZero(TextBytes(text) + Zeroes(n)) == TextBytes(text)
  {
    if text != "" {
      var field := TextBytes(text) + Zeroes(n);
      assert text[1..] + "" == text[1..];
      assert forall i :: 0 <= i < |text[1..]| ==> text[1..][i] == text[i + 1];
      TextUpToZero(text[1..], n);
      assert field[1..] == TextBytes(text[1..]) + Zeroes(n);
      assert [field[0]] + TextBytes(text[1..]) == TextBytes(text);
    } else {
      assert TextBytes(text) + Zeroes(n) == Zeroes(n);
    }
  }

  function Zeroes(n: nat): seq<Byte> {
    seq(n, i requires 0 <= i < n => 0)
  }

  /** The part of a text that a left-aligned field of this length has room for: an odd length is rounded up. */
  function Room(text: string, maxLen: nat): string {
    var n := maxLen + maxLen % 2;
    if |text| <= n then text else text[..n]
  }

  lemma LeftAlignedParts(vp: Vp, text: string, maxLen: nat)
    requires Ascii(text)
    ensures var p, shown, n := LeftAligned(vp, text, maxLen), Room(text, maxLen), maxLen + maxLen % 2;
            && Ascii(shown) && |p| == n + 2 && p[..2] == VpBytes(vp)
            && p[2..] == TextBytes(shown) + Zeroes(n - |shown|)
  {
    var p, shown, n := LeftAligned(vp, text, maxLen), Room(text, maxLen), maxLen + maxLen % 2;
    assert |TextBytes(shown) + Zeroes(n - |shown|)| == n;
    forall i | 0 <= i < n ensures p[2..][i] == (TextBytes(shown) + Zeroes(n - |shown|))[i] {
    }
  }

  /** A text field, decoded from the wire, addresses `vp` and shows the text, or as much of it as the field, rounded up
      to an even length, has room for. */
  lemma TextFieldShows(source: string, vp: Vp, text: string, maxLen: nat)
    requires Ascii(text) && 1 <= maxLen <= 252
    ensures var c := ChangeNumber(LeftAligned(vp, text, maxLen));
            var m := AckFor(source, c);
            && Sendable(c) && m.kind == WriteAck && |m.payload| >= 2 && Address(m.payload) == vp
            && UpToZero(m.payload[2..]) == TextBytes(Room(text, maxLen))
  {
    hide LeftAligned, TextBytes, UpToZero, VpBytes, AckFor, Wire, Sendable, Zeroes;
    LeftAlignedParts(vp, text, maxLen);
    var payload := LeftAligned(vp, text, maxLen);
    AddressOf(vp, payload);
    var shown := Room(text, maxLen);
    TextUpToZero(shown, maxLen + maxLen % 2 - |shown|);
    NumberIsSent(source, payload);
  }

  /** A right-aligned field is built exactly when the text is no longer than the field. */
  lemma FieldIsBuiltIff(vp: Vp, text: string, len: nat)
    requires Ascii(text)
    ensures RightAligned(vp, text, len).Some? <==> |text| <= len
  {
  }

  lemma DigitsAreAscii(s: string)
    requires Digits(s)
    ensures Ascii(s)
  {
    forall i | 0 <= i < |s| ensures 32 <= s[i] as int < 128 {
      assert IsDigit(s[i]);
    }
  }

  /** From a value of the server to the glass: a value `v / 10^exponent` formatted, split over an integer and
      a fraction field and sent, decodes to two field messages whose digits together are
      floor(v * 10^width / 10^exponent), whenever the integer part fits its field. */
  lemma ValueOnDisplay(source: string, v: string, exponent: nat, vpInt: Vp, vpDec: Vp, intLen: nat, width: nat,
                       stray: Byte)
    requires Digits(v) && 1 <= intLen <= 252 && 1 <= width <= 252
    requires |SplitFloatString(GetFormattedString(v, exponent), width).0| <= intLen
    ensures var (i, f) := SplitFloatString(GetFormattedString(v, exponent), width);
            && Digits(i) && Digits(f) && Ascii(i) && Ascii(f)
            && RightAligned(vpInt, i, intLen).Some? && RightAligned(vpDec, f, width).Some?
            && var d := Decode(source, Wire(ChangeNumber(RightAligned(vpInt, i, intLen).value)) +
                                       Wire(ChangeNumber(RightAligned(vpDec, f, width).value)), stray);
               && |d.messages| == 2 && d.rest == []
               && Shows(d.messages[0], vpInt, i) && Shows(d.messages[1], vpDec, f)
               && Value(i) * Pow10(width) + Value(f) == Value(v) * Pow10(width) / Pow10(exponent)
  {
    var (i, f) := SplitFloatString(GetFormattedString(v, exponent), width);
    SplitOfFormatted(v, exponent, width);
    DigitsAreAscii(i);
    DigitsAreAscii(f);
    FieldShows(source, vpInt, i, intLen);
    FieldShows(source, vpDec, f, width);
    var c, d := ChangeNumber(RightAligned(vpInt, i, intLen).value), ChangeNumber(RightAligned(vpDec, f, width).value);
    DecodeFrame(source, c, Wire(d), stray);
    assert Wire(d) == Wire(d) + [];
    DecodeFrame(source, d, [], stray);
  }

  // ------------------------------------------------------------ three fields

  datatype ThreeParts = ThreeParts(thousands: string, units: string, kopecks: string)

  function TriPart(value: string, kopecksLength: nat): ThreeParts {
    var (whole, kopecks) := SplitFloatString(value, kopecksLength);
    var (thousands, units) := SplitWhole(whole);
    ThreeParts(thousands, units, kopecks)
  }

  function SplitWhole(whole: string): (string, string) {
    var negative := whole != "" && whole[0] == '-';
    var (thousands, units) := CutThousands(if negative then whole[1..] else whole);
    if !negative then (thousands, units)
    else if thousands != "" then ("-" + thousands, units)
    else (thousands, "-" + units)
  }

  function CutThousands(digits: string): (string, string) {
    if |digits| > 3 then (digits[..|digits| - 3], digits[|digits| - 3..]) else ("", digits)
  }

  lemma ThousandsRecombine(digits: string)
    requires digits != "" && Digits(digits)
    ensures var (th, un) := CutThousands(digits);
            Digits(th) && Digits(un) && 1 <= |un| <= 3 && Value(th) * 1000 + Value(un) == Value(digits)
  {
    var (th, un) := CutThousands(digits);
    assert th + un == digits;
    ValueConcat(th, un);
    assert Pow10(3) == 1000;
    assert th == "" ==> Value(th) == 0;
  }

  function Unsigned(s: string): string {
    if s != "" && s[0] == '-' then s[1..] else s
  }

  function Sign(negative: bool): string {
    if negative then "-" else ""
  }

  /** A value as text: a sign or none, digits, and a fraction behind a comma or a dot, if there is a mark at all. */
  function ValueText(negative: bool, a: string, mark: string, b: string): string {
    Sign(negative) + a + mark + b
  }

  predicate IsMark(mark: string, b: string) {
    mark == "," || mark == "." || (mark == "" && b == "")
  }

  lemma MarkAt(s: string, whole: string, mark: string, b: string)
    requires s == whole + mark + b && IsMark(mark, b)
    requires Digits(b) && forall j :: 0 <= j < |whole| ==> whole[j] != ',' && whole[j] != '.'
    ensures IndexOf(s, ',') == (if mark == "," then |whole| else |s|)
    ensures mark != "," ==> IndexOf(s, '.') == |whole|
    ensures s[..|whole|] == whole && (mark != "" ==> s[|whole| + 1..] == b)
  {
    assert forall j :: 0 <= j < |whole| ==> s[j] == whole[j];
    if mark != "" {
      assert s[|whole|] == mark[0] && s[|whole| + 1..] == b;
      assert forall j :: |whole| < j < |s| ==> s[j] == b[j - |whole| - 1];
    }
    assert s[..|whole|] == whole;
  }

  lemma SplitSigned(negative: bool, a: string, mark: string, b: string, width: nat)
    requires Digits(a) && Digits(b) && IsMark(mark, b)
    ensures SplitFloatString(ValueText(negative, a, mark, b), width) ==
            (Sign(negative) + if a == "" then "0" else a, Field(b, width))
  {
    var whole := Sign(negative) + a;
    var s := whole + mark + b;
    SignedDigits(negative, a);
    MarkAt(s, whole, mark, b);
    assert s == "" ==> "" + Zeros(width) == Zeros(width);
    assert a != "" ==> whole != "-";
    assert Sign(negative) + "" == Sign(negative) && "-" + "0" == "-0" && "" + "0" == "0";
  }

  lemma SignedDigits(negative: bool, a: string)
    requires Digits(a)
    ensures var whole := Sign(negative) + a;
            && (forall j :: 0 <= j < |whole| ==> whole[j] != ',' && whole[j] != '.')
            && (a != "" ==> whole != "-" && whole != "")
  {
    var sign := Sign(negative);
    var whole := sign + a;
    forall j | 0 <= j < |whole| ensures whole[j] != ',' && whole[j] != '.' {
      if j >= |sign| {
        assert whole[j] == a[j - |sign|] && IsDigit(a[j - |sign|]);
      }
    }
    assert a != "" ==> whole[|sign|] == a[0] && IsDigit(a[0]);
  }

  lemma SignKept(negative: bool, digits: string)
    requires Digits(digits) && digits != ""
    ensures Unsigned(Sign(negative) + digits) == digits
    ensures (Sign(negative) + digits)[0] == '-' <==> negative
  {
    assert IsDigit(digits[0]);
    assert Sign(negative) + digits == if negative then "-" + digits else digits;
    assert negative ==> ("-" + digits)[1..] == digits;
  }

  lemma SplitWholeSigned(negative: bool, digits: string)
    requires Digits(digits) && digits != ""
    ensures var (th, un) := CutThousands(digits);
            SplitWhole(Sign(negative) + digits) ==
            (Sign(negative && th != "") + th, Sign(negative && th == "") + un)
  {
    SignKept(negative, digits);
    var (th, un) := CutThousands(digits);
    assert "" + th == th && "" + un == un;
  }

  /** The thousands and units fields recombine to the integer part, at most three digits stand in the units
      field, the kopecks are the fraction cut or padded to its field, and a negative value has its sign once,
      in front of the leading field. */
  lemma ThreeFieldsRecombine(negative: bool, a: string, mark: string, b: string, width: nat)
    requires Digits(a) && Digits(b) && IsMark(mark, b)
    ensures var t := TriPart(ValueText(negative, a, mark, b), width);
            var (th, un) := (Unsigned(t.thousands), Unsigned(t.units));
            && Digits(th) && Digits(un) && 1 <= |un| <= 3
            && Value(th) * 1000 + Value(un) == Value(a)
            && t == ThreeParts(Sign(negative && th != "") + th, Sign(negative && th == "") + un, Field(b, width))
  {
    hide SplitFloatString;
    SplitSigned(negative, a, mark, b, width);
    var digits := if a == "" then "0" else a;
    ZeroDigit();
    ThousandsRecombine(digits);
    SplitWholeSigned(negative, digits);
    var (th, un) := CutThousands(digits);
    SignKept(negative && th == "", un);
    if th == "" {
      assert Sign(false) + th == "";
    } else {
      SignKept(negative, th);
    }
  }

  lemma ZeroDigit()
    ensures Digits("0") && Value("0") == 0
  {
    assert "0"[..0] == "";
  }
}
