/** The pin pad: from single key presses on the display to the volume of an order request. */
module PinPad {
  import opened Basics
  import opened Decimal
  import DwinParser

  datatype Field = Volume | Price | ServiceCode | PinCode | DocumentNumber

  /** A touch on one of the pads, or the button that leaves the service code page. */
  datatype Event = Key(field: Field, value: nat) | LeaveServiceCode

  /** What the Enter key hands to the order logic. */
  datatype Entry = Entry(field: Field, text: string)

  const COMMA_KEY := 10
  const DECLINE_KEY := 11
  const BACKSPACE_KEY := 12
  const ENTER_KEY := 13

  function DigitKey(value: nat): string
    requires value <= 9
  {
    [('0' as int + value) as char]
  }

  function Press(buffer: string, value: nat): string {
    var comma := IndexOf(buffer, ',');
    if value <= 9 then
      if comma < |buffer| && |buffer| - comma > 2 then buffer
      else if |buffer| >= 6 then buffer
      else if buffer == "0" then DigitKey(value)
      else buffer + DigitKey(value)
    else if value == COMMA_KEY then
      if comma < |buffer| then buffer else if buffer == "" then "0," else buffer + ","
    else if value == DECLINE_KEY || value == ENTER_KEY then ""
    else if value == BACKSPACE_KEY then
      if buffer == "" then "" else buffer[..|buffer| - 1]
    else buffer
  }

  function Step(buffer: string, e: Event): string {
    match e
    case Key(_, value) => Press(buffer, value)
    case LeaveServiceCode => ""
  }

  function EntryOf(buffer: string, e: Event): Option<Entry> {
    if e.Key? && e.value == ENTER_KEY && buffer != "" then Some(Entry(e.field, buffer)) else None
  }

  function After(events: seq<Event>): string {
    if events == [] then "" else Step(After(events[..|events| - 1]), events[|events| - 1])
  }

  class Pad {
    var buffer: string

    constructor ()
      ensures buffer == ""
    {
      buffer := "";
    }

    method HandleTouchPinPad(field: Field, number: nat) returns (entry: Option<Entry>)
      modifies this
      ensures buffer == Step(old(buffer), Key(field, number))
      ensures entry == EntryOf(old(buffer), Key(field, number))
    {
      entry := None;
      if number <= 9 {
        var dotPosition := IndexOf(buffer, ',');
        if dotPosition < |buffer| {
          if |buffer| - dotPosition > 2 {
            return;
          }
        }
        if |buffer| < 6 {
          if buffer == "0" {
            buffer := DigitKey(number);
          } else {
            buffer := buffer + DigitKey(number);
          }
        }
      } else if number == COMMA_KEY {
        if IndexOf(buffer, ',') == |buffer| {
          if buffer == "" {
            buffer := "0,";
          } else {
            buffer := buffer + ",";
          }
        }
      } else if number == DECLINE_KEY {
        buffer := "";
      } else if number == BACKSPACE_KEY {
        if buffer != "" {
          buffer := buffer[..|buffer| - 1];
        }
      } else if number == ENTER_KEY {
        if buffer != "" {
          entry := Some(Entry(field, buffer));
          buffer := "";
        }
      }
    }

    method DeclineServiceCode()
      modifies this
      ensures buffer == Step(old(buffer), LeaveServiceCode)
    {
      buffer := "";
    }
  }

  // -------------------------------------------------- what can be typed at all

  /** Empty, or a number without superfluous leading zeros, with at most one comma and two digits behind it,
      in at most six characters (seven when the last is the comma). */
  predicate Canonical(b: string) {
    var p := IndexOf(b, ',');
    b == "" ||
    (&& p >= 1 && (p > 1 ==> b[0] != '0') && |b| - p <= 3
     && (forall i :: 0 <= i < |b| && i != p ==> IsDigit(b[i]))
     && (|b| <= 6 || (|b| == 7 && p == 6)))
  }

  lemma {:induction false} CommaOfAppended(b: string, k: char)
    ensures var p := IndexOf(b, ',');
            IndexOf(b + [k], ',') == if p < |b| then p else if k == ',' then |b| else |b| + 1
  {
    if b != "" {
      assert (b + [k])[0] == b[0] && (b + [k])[1..] == b[1..] + [k];
      CommaOfAppended(b[1..], k);
    } else {
      assert b + [k] == [k];
    }
  }

  lemma AppendKeepsCanonical(b: string, k: char)
    requires Canonical(b) && b != "" && b != "0"
    requires if k == ',' then IndexOf(b, ',') == |b| && |b| <= 6
             else IsDigit(k) && |b| < 6 && |b| - IndexOf(b, ',') <= 2
    ensures Canonical(b + [k])
  {
    CommaOfAppended(b, k);
  }

  lemma CanonicalPrefix(b: string)
    requires Canonical(b) && b != ""
    ensures Canonical(b[..|b| - 1])
  {
    var c, k := b[..|b| - 1], b[|b| - 1];
    assert b == c + [k];
    CommaOfAppended(c, k);
  }

  lemma ShortTexts(k: char)
    requires IsDigit(k)
    ensures Canonical([k]) && Canonical("0,")
  {
    assert [k] == "" + [k];
    CommaOfAppended("", k);
    CommaOfAppended("", '0');
    CommaOfAppended("0", ',');
    assert "" + ['0'] == "0" && "0" + [','] == "0,";
  }

  lemma PressKeepsCanonical(b: string, value: nat)
    requires Canonical(b)
    ensures Canonical(Press(b, value))
  {
    if value <= 9 {
      var k := DigitKey(value)[0];
      ShortTexts(k);
      if Press(b, value) == b + [k] && b != "" {
        AppendKeepsCanonical(b, k);
      }
    } else if value == COMMA_KEY {
      ShortTexts('0');
      if b == "0" {
        assert b + "," == "0,";
      } else if b != "" && IndexOf(b, ',') == |b| {
        AppendKeepsCanonical(b, ',');
      }
    } else if value == BACKSPACE_KEY && b != "" {
      CanonicalPrefix(b);
    }
  }

  function KeyFor(c: char): nat {
    if IsDigit(c) then c as int - '0' as int else 10
  }

  function Typing(field: Field, text: string): seq<Event> {
    seq(|text|, i requires 0 <= i < |text| => Key(field, KeyFor(text[i])))
  }

  /** Pressing the key of the last character of a canonical text appends that character. */
  lemma LastKey(b: string)
    requires Canonical(b) && b != ""
    ensures Press(b[..|b| - 1], KeyFor(b[|b| - 1])) == b
  {
    var c, k := b[..|b| - 1], b[|b| - 1];
    assert b == c + [k];
    CommaOfAppended(c, k);
    assert c == "0" ==> b[0] == '0';
  }

  lemma {:induction false} TypingYields(field: Field, text: string)
    requires Canonical(text)
    ensures After(Typing(field, text)) == text
  {
    if text != "" {
      var c := text[..|text| - 1];
      CanonicalPrefix(text);
      TypingYields(field, c);
      LastKey(text);
      assert Typing(field, text)[..|text| - 1] == Typing(field, c);
    }
  }

  lemma AfterOneMore(events: seq<Event>, e: Event)
    ensures After(events + [e]) == Step(After(events), e)
  {
    assert (events + [e])[..|events|] == events;
  }

  function DigitChar(k: nat): char
    requires k <= 9
  {
    ['0', '1', '2', '3', '4', '5', '6', '7', '8', '9'][k]
  }

  lemma TooLong(q: string)
    requires q != ""
    requires |q| - IndexOf(q, ',') > 3 || |q| > 7 || (|q| == 7 && IndexOf(q, ',') != 6)
    ensures !Canonical(q)
  {
    hide IndexOf;
  }

  lemma TakenDigit(b: string, k: nat)
    requires Canonical(b) && b != "0" && k <= 9
    ensures Canonical(b + [DigitChar(k)]) <==> (IndexOf(b, ',') == |b| || |b| - IndexOf(b, ',') <= 2) && |b| < 6
  {
    hide Canonical;
    var c, p := DigitChar(k), IndexOf(b, ',');
    CommaOfAppended(b, c);
    if (p == |b| || |b| - p <= 2) && |b| < 6 {
      if b == "" {
        ShortTexts(c);
        assert b + [c] == [c];
      } else {
        AppendKeepsCanonical(b, c);
      }
    } else {
      TooLong(b + [c]);
    }
  }

  lemma TakenComma(b: string)
    requires Canonical(b) && b != ""
    ensures Canonical(b + ",") <==> IndexOf(b, ',') == |b|
  {
    var p := IndexOf(b, ',');
    CommaOfAppended(b, ',');
    var q := b + ",";
    if p < |b| {
      assert q[|b|] == ',';
    } else {
      assert forall i :: 0 <= i < |q| && i != |b| ==> q[i] == b[i];
      assert |b| <= 6 by { assert IndexOf(b, ',') == |b|; }
    }
  }

  /** What each key does to a canonical text.  A digit or comma is taken exactly when the text stays canonical; a digit
      replaces a lone zero, and a comma first of all becomes "0,"; 11 and 13 clear, 12 takes the last character back,
      and other keys do nothing. */
  lemma KeyEffects(b: string, k: nat)
    requires Canonical(b)
    ensures Press(b, k) ==
            if k <= 9 then
              if b == "0" then [DigitChar(k)] else if Canonical(b + [DigitChar(k)]) then b + [DigitChar(k)] else b
            else if k == 10 then
              if b == "" then "0," else if Canonical(b + ",") then b + "," else b
            else if k == 11 || k == 13 then ""
            else if k == 12 then if b == "" then "" else b[..|b| - 1]
            else b
  {
    if k <= 9 {
      assert DigitKey(k) == [DigitChar(k)];
      if b != "0" {
        TakenDigit(b, k);
      }
    } else if k == 10 && b != "" {
      TakenComma(b);
    }
  }

  /** The key 13, and only it, hands the text on the pad over, unless the pad is empty; the pad is empty afterwards. */
  lemma HandsOverIff(events: seq<Event>, e: Event)
    ensures var text := After(events);
            EntryOf(text, e) == if e.Key? && e.value == 13 && text != "" then Some(Entry(e.field, text)) else None
    ensures EntryOf(After(events), e).Some? ==> After(events + [e]) == ""
  {
    AfterOneMore(events, e);
  }

  /** What was typed is what is handed over. */
  lemma TypedIsHandedOver(field: Field, text: string)
    requires Canonical(text) && text != ""
    ensures EntryOf(After(Typing(field, text)), Key(field, 13)) == Some(Entry(field, text))
    ensures After(Typing(field, text) + [Key(field, 13)]) == ""
  {
    TypingYields(field, text);
    HandsOverIff(Typing(field, text), Key(field, 13));
  }

  /** A declined text is never handed over, and backspace takes back just the last key. */
  lemma DeclinedIsGone(events: seq<Event>, field: Field)
    ensures EntryOf(After(events), Key(field, 11)) == None && After(events + [Key(field, 11)]) == ""
  {
    AfterOneMore(events, Key(field, 11));
  }

  lemma BackspaceTakesBack(b: string, c: char)
    requires Canonical(b + [c])
    ensures Press(b + [c], 12) == b
  {
    KeyEffects(b + [c], 12);
    assert (b + [c])[..|b|] == b;
  }

  lemma {:induction false} AlwaysCanonical(events: seq<Event>)
    ensures Canonical(After(events))
  {
    if events != [] {
      var b := After(events[..|events| - 1]);
      AlwaysCanonical(events[..|events| - 1]);
      match events[|events| - 1]
      case Key(_, value) => PressKeepsCanonical(b, value);
      case LeaveServiceCode =>
    }
  }

  ghost predicate Reachable(b: string) {
    exists events :: After(events) == b
  }

  /** The texts some key sequence produces are exactly the canonical ones. */
  lemma ReachableIffCanonical(b: string)
    ensures Reachable(b) <==> Canonical(b)
  {
    if Canonical(b) {
      TypingYields(Volume, b);
    }
    if Reachable(b) {
      var events :| After(events) == b;
      AlwaysCanonical(events);
    }
  }

  // --------------------------------------------------------- the order request

  /** The entered text as an order: the value passes through a 16-bit parameter. */
  function OrderRequest(text: string): (int, int) {
    var (value, exponent) := FormatFloatStringToInt(text);
    (value % 0x1_0000, exponent)
  }

  /** The number a text denotes. */
  function Number(text: string): real
    requires Canonical(text) && text != ""
  {
    var p := IndexOf(text, ',');
    if p == |text| then Value(text[..p]) as real
    else Value(text[..p]) as real + Value(text[p + 1..]) as real / Pow10(|text| - p - 1) as real
  }

  lemma EntryShape(text: string) returns (a: string, b: string)
    requires Canonical(text) && text != ""
    ensures a != "" && Digits(a) && Digits(b) && |a + b| <= 6 && WithoutComma(text) == a + b
    ensures Number(text) == Value(a) as real + Value(b) as real / Pow10(|b|) as real
    ensures FormatFloatStringToInt(text).1 == |b|
  {
    var p := IndexOf(text, ',');
    if p < |text| {
      a, b := text[..p], text[p + 1..];
    } else {
      a, b := text, "";
      assert text[..p] == text && a + b == a;
    }
  }

  lemma SmallPower(n: nat)
    requires n <= 6
    ensures Pow10(n) <= 1000000
  {
    assert Pow10(1) == 10 && Pow10(2) == 100 && Pow10(3) == 1000;
    assert Pow10(4) == 10000 && Pow10(5) == 100000 && Pow10(6) == 1000000;
  }

  lemma Quotient(a: nat, b: nat, d: nat)
    requires d > 0
    ensures a as real + b as real / d as real == (a * d + b) as real / d as real
  {
    assert (a * d + b) as real == a as real * d as real + b as real;
  }

  lemma SameQuotientIff(a: int, b: int, d: nat)
    requires d > 0
    ensures a as real / d as real == b as real / d as real <==> a == b
  {
    var x, y := a as real / d as real, b as real / d as real;
    assert x * d as real == a as real && y * d as real == b as real;
  }

  /** The digits of an entered text, read as one number below a million, and its exponent denote the text. */
  lemma EntryIsRead(text: string) returns (digits: nat)
    requires Canonical(text) && text != ""
    ensures ParseLong(WithoutComma(text)) == Parsed(digits) && digits < 1000000
    ensures FormatFloatStringToInt(text).0 == digits && FormatFloatStringToInt(text).1 >= 0
    ensures Number(text) == digits as real / Pow10(FormatFloatStringToInt(text).1) as real
  {
    var a, b := EntryShape(text);
    ValueConcat(a, b);
    ValueBound(a + b);
    SmallPower(|a + b|);
    ParseDigits(a + b);
    digits := Value(a + b);
    NarrowsToItselfIff(digits);
    Quotient(Value(a), Value(b), Pow10(|b|));
  }

  /** For every key sequence: a text handed over by Enter can always be read, and the order request denotes
      the number on the pad in exactly the cases where its digits are below 65536. */
  lemma RequestDenotesEntryIff(events: seq<Event>, e: Event)
    requires EntryOf(After(events), e).Some?
    ensures var text := EntryOf(After(events), e).value.text;
            && text != "" && Canonical(text) && ParseLong(WithoutComma(text)).Parsed?
            && var r := OrderRequest(text);
               r.1 >= 0 && (r.0 as real / Pow10(r.1) as real == Number(text) <==>
                            ParseLong(WithoutComma(text)).value < 0x1_0000)
  {
    hide Canonical, Number, FormatFloatStringToInt, ParseLong, WithoutComma, Pow10, After;
    AlwaysCanonical(events);
    var text := After(events);
    var digits := EntryIsRead(text);
    var r := OrderRequest(text);
    SameQuotientIff(r.0, digits, Pow10(r.1));
  }

  // --------------------------------------------------------- touches as bytes

  /** The pad and the key of a touch: the VP address, one byte, and the key. */
  function TouchOf(payload: seq<Byte>): (nat, nat)
    requires |payload| >= 5
  {
    (payload[0] as nat * 256 + payload[1] as nat, payload[3] as nat * 256 + payload[4] as nat)
  }

  /** A touch packet of the display, as its bytes, arrives as one message with this VP address and key. */
  lemma TouchArrives(source: string, vpHigh: Byte, vpLow: Byte, keyHigh: Byte, keyLow: Byte, more: seq<Byte>,
                     stray: Byte)
    ensures var payload: seq<Byte> := [vpHigh, vpLow, 0x01, keyHigh, keyLow];
            && DwinParser.Decode(source, [0x5A, 0xA5, 0x06, 0x83] + payload + more, stray) ==
               DwinParser.Prepend([DwinParser.Message(source, DwinParser.VpData, payload)],
                                  DwinParser.Decode(source, more, stray))
            && TouchOf(payload) == (vpHigh as nat * 256 + vpLow as nat, keyHigh as nat * 256 + keyLow as nat)
  {
    DwinParser.DecodePacket(source, 0x83, [vpHigh, vpLow, 0x01, keyHigh, keyLow], more, stray);
    hide DwinParser.Decode;
  }
}
