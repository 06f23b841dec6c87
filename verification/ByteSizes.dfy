/** Sizes as they travel from the server to its workers: printed with one decimal and a unit, then parsed again.
    The arithmetic is exact; text is ASCII. */
module ByteSizes {
  import opened Options
  import opened Text
  import opened Arithmetic

  const KILOBYTE: nat := 0x400
  const MEGABYTE: nat := 0x10_0000
  const GIGABYTE: nat := 0x4000_0000
  const TERABYTE: nat := 0x100_0000_0000
  const PETABYTE: nat := 0x4_0000_0000_0000
  const EXABYTE: nat := 0x1000_0000_0000_0000

  type UnitIndex = i: nat | i < 7

  function UnitSize(i: UnitIndex): nat {
    match i
    case 0 => 1
    case 1 => KILOBYTE
    case 2 => MEGABYTE
    case 3 => GIGABYTE
    case 4 => TERABYTE
    case 5 => PETABYTE
    case 6 => EXABYTE
  }

  function UnitLetter(i: UnitIndex): char {
    "BKMGTPE"[i]
  }

  // ----- Printing

  /** The largest unit not above the size. */
  function ChosenUnit(bytes: nat): UnitIndex {
    if bytes >= EXABYTE then 6
    else if bytes >= PETABYTE then 5
    else if bytes >= TERABYTE then 4
    else if bytes >= GIGABYTE then 3
    else if bytes >= MEGABYTE then 2
    else if bytes >= KILOBYTE then 1
    else 0
  }

  /** The nearest integer to a / b, the even one of two equally near. */
  function RoundHalfEven(a: nat, b: nat): nat
    requires b > 0
  {
    var q, r := a / b, a % b;
    if 2 * r < b then q else if 2 * r > b then q + 1 else q + q % 2
  }

  /** The size in tenths of its unit. */
  function Tenths(bytes: nat): nat {
    RoundHalfEven(10 * bytes, UnitSize(ChosenUnit(bytes)))
  }

  /** What a number of tenths is printed as with exactly one decimal. */
  function OneDecimal(tenths: nat): string {
    Decimal(tenths / 10) + "." + [Digit(tenths % 10)]
  }

  function TrimSuffix(s: string, suffix: string): string {
    if |suffix| <= |s| && s[|s| - |suffix|..] == suffix then s[..|s| - |suffix|] else s
  }

  function ByteSize(bytes: nat): string {
    if bytes == 0 then "0B"
    else TrimSuffix(OneDecimal(Tenths(bytes)), ".0") + [UnitLetter(ChosenUnit(bytes))]
  }

  // ----- Parsing

  predicate IsSpace(c: char) {
    c == ' ' || '\t' <= c <= '\r'
  }

  predicate IsLower(c: char) {
    'a' <= c <= 'z'
  }

  predicate IsLetter(c: char) {
    IsLower(c) || 'A' <= c <= 'Z'
  }

  function TrimLeft(s: string): string {
    if s != [] && IsSpace(s[0]) then TrimLeft(s[1..]) else s
  }

  function TrimRight(s: string): string {
    if s != [] && IsSpace(s[|s| - 1]) then TrimRight(s[..|s| - 1]) else s
  }

  function TrimSpace(s: string): string {
    TrimRight(TrimLeft(s))
  }

  function UpperChar(c: char): char {
    if IsLower(c) then c - 'a' + 'A' else c
  }

  function ToUpper(s: string): (upper: string)
    ensures |upper| == |s|
  {
    seq(|s|, i requires 0 <= i < |s| => UpperChar(s[i]))
  }

  /** The position of the first letter, or the length. */
  function FirstLetter(s: string): (i: nat)
    ensures i <= |s|
  {
    if s == [] || IsLetter(s[0]) then 0 else 1 + FirstLetter(s[1..])
  }

  function FirstDot(s: string): (i: nat)
    ensures i <= |s|
  {
    if s == [] || s[0] == '.' then 0 else 1 + FirstDot(s[1..])
  }

  function Pow10(n: nat): (p: nat)
    ensures p > 0
  {
    if n == 0 then 1 else 10 * Pow10(n - 1)
  }

  /** A decimal number: whole / scale, possibly with a minus sign before it. */
  datatype Number = Number(negative: bool, whole: nat, scale: nat)

  /** The text without what it has at place `k`. */
  function Without(s: string, k: nat): string
    requires k < |s|
  {
    s[..k] + s[k + 1..]
  }

  function ParseUnsigned(s: string, negative: bool): (n: Option<Number>)
    ensures n.Some? ==> n.value.scale > 0
  {
    var dot := FirstDot(s);
    var digits := if dot < |s| then Without(s, dot) else s;
    if digits != [] && AllDigits(digits)
    then Some(Number(negative, Value(digits), Pow10(|digits| - dot)))
    else None
  }

  /** Without letters a floating-point number is an optional sign and digits with at most one point among them. */
  function ParseFloat(s: string): (n: Option<Number>)
    ensures n.Some? ==> n.value.scale > 0
  {
    if s != [] && (s[0] == '-' || s[0] == '+') then ParseUnsigned(s[1..], s[0] == '-') else ParseUnsigned(s, false)
  }

  function UnitNamed(name: string): Option<UnitIndex> {
    if name in {"E", "EB", "EIB"} then Some(6)
    else if name in {"P", "PB", "PIB"} then Some(5)
    else if name in {"T", "TB", "TIB"} then Some(4)
    else if name in {"G", "GB", "GIB"} then Some(3)
    else if name in {"M", "MB", "MIB"} then Some(2)
    else if name in {"K", "KB", "KIB"} then Some(1)
    else if name == "B" then Some(0)
    else None
  }

  /** The number of bytes, or None for an invalid quantity. */
  function ToBytes(text: string): Option<nat> {
    var s := ToUpper(TrimSpace(text));
    var i := FirstLetter(s);
    if i == |s| then None
    else
      var number, unit := ParseFloat(TrimSpace(s[..i])), UnitNamed(s[i..]);
      if number.None? || (number.value.negative && number.value.whole > 0) || unit.None? then None
      else Some(Quotient(number.value.whole * UnitSize(unit.value), number.value.scale))
  }

  function Quotient(a: nat, b: nat): nat
    requires b > 0
  {
    a / b
  }

  // ----- What is printed is read again

  /** The size the far end decodes. */
  function Carried(bytes: nat): nat {
    Tenths(bytes) * UnitSize(ChosenUnit(bytes)) / 10
  }

  /** The printed form of a number of tenths. */
  function Printed(tenths: nat): string {
    TrimSuffix(OneDecimal(tenths), ".0")
  }

  predicate NumberText(s: string) {
    forall i :: 0 <= i < |s| ==> IsDigit(s[i]) || s[i] == '.'
  }

  lemma {:induction false} FirstLetterAfter(s: string, rest: string)
    requires NumberText(s) && rest != [] && IsLetter(rest[0])
    ensures FirstLetter(s + rest) == |s|
  {
    if s == [] {
      assert s + rest == rest;
    } else {
      assert (s + rest)[0] == s[0] && (s + rest)[1..] == s[1..] + rest;
      FirstLetterAfter(s[1..], rest);
    }
  }

  lemma {:induction false} FirstDotAfter(s: string, rest: string)
    requires AllDigits(s) && (rest == [] || rest[0] == '.')
    ensures FirstDot(s + rest) == |s|
  {
    if s == [] {
      assert s + rest == rest;
    } else {
      assert (s + rest)[0] == s[0] && (s + rest)[1..] == s[1..] + rest;
      FirstDotAfter(s[1..], rest);
    }
  }

  lemma UpperOfNumber(s: string, rest: string)
    requires NumberText(s)
    ensures ToUpper(s + rest) == s + ToUpper(rest)
  {
  }

  lemma EndOfOneDecimal(tenths: nat)
    ensures var whole, s := Decimal(tenths / 10), OneDecimal(tenths);
      |s| == |whole| + 2 && s[|s| - 2] == '.' && s[|s| - 1] == Digit(tenths % 10) && s[..|s| - 2] == whole
  {
  }

  lemma TrimsWhole(tenths: nat)
    requires tenths % 10 == 0
    ensures Printed(tenths) == Decimal(tenths / 10)
  {
    var s := OneDecimal(tenths);
    EndOfOneDecimal(tenths);
    assert s[|s| - 2..] == ".0";
  }

  lemma KeepsTenth(tenths: nat)
    requires tenths % 10 != 0
    ensures Printed(tenths) == OneDecimal(tenths)
  {
    var s := OneDecimal(tenths);
    EndOfOneDecimal(tenths);
    assert s[|s| - 2..][1] != '0';
  }

  lemma NumberWithTenth(whole: string, tenth: char)
    requires whole != [] && AllDigits(whole) && IsDigit(tenth)
    ensures NumberText(whole) && NumberText(whole + "." + [tenth]) && IsDigit((whole + "." + [tenth])[0])
  {
  }

  /** A number as it is printed: the point only when there is a tenth to show. */
  lemma PrintedForm(tenths: nat)
    ensures Printed(tenths) == if tenths % 10 == 0 then Decimal(tenths / 10) else OneDecimal(tenths)
    ensures NumberText(Printed(tenths)) && Printed(tenths) != [] && IsDigit(Printed(tenths)[0])
  {
    NumberWithTenth(Decimal(tenths / 10), Digit(tenths % 10));
    if tenths % 10 == 0 {
      TrimsWhole(tenths);
    } else {
      KeepsTenth(tenths);
    }
  }

  lemma ParsesWhole(n: nat)
    ensures ParseUnsigned(Decimal(n), false) == Some(Number(false, n, 1))
  {
    ValueOfDecimal(n);
    assert Decimal(n) + [] == Decimal(n);
    FirstDotAfter(Decimal(n), []);
  }

  lemma ValueWithTenth(tenths: nat)
    ensures AllDigits(Decimal(tenths / 10) + [Digit(tenths % 10)])
    ensures Value(Decimal(tenths / 10) + [Digit(tenths % 10)]) == tenths
  {
    var digits := Decimal(tenths / 10) + [Digit(tenths % 10)];
    ValueOfDecimal(tenths / 10);
    assert digits[..|digits| - 1] == Decimal(tenths / 10);
  }

  lemma ParsesTenths(tenths: nat)
    ensures ParseUnsigned(OneDecimal(tenths), false) == Some(Number(false, tenths, 10))
  {
    var s, whole, last := OneDecimal(tenths), Decimal(tenths / 10), [Digit(tenths % 10)];
    assert s == whole + ("." + last);
    FirstDotAfter(whole, "." + last);
    assert s[..|whole|] + s[|whole| + 1..] == whole + last;
    ValueWithTenth(tenths);
    assert Pow10(1) == 10 * Pow10(0);
  }

  lemma ValueOfPrinted(tenths: nat)
    ensures ParseFloat(Printed(tenths))
         == if tenths % 10 == 0 then Some(Number(false, tenths / 10, 1)) else Some(Number(false, tenths, 10))
  {
    PrintedForm(tenths);
    if tenths % 10 == 0 {
      ParsesWhole(tenths / 10);
    } else {
      ParsesTenths(tenths);
    }
  }

  /** A unit as it may be spelled: "K", "KB", "KiB", in any case. */
  predicate Spells(name: string, unit: UnitIndex) {
    name != [] && IsLetter(name[0]) && !IsSpace(name[|name| - 1]) && UnitNamed(ToUpper(name)) == Some(unit)
  }

  lemma NothingToTrim(s: string)
    requires s != [] && !IsSpace(s[0]) && !IsSpace(s[|s| - 1])
    ensures TrimSpace(s) == s
  {
  }

  lemma PrintedEnds(tenths: nat)
    ensures Printed(tenths) != [] && IsDigit(Printed(tenths)[|Printed(tenths)| - 1])
  {
    PrintedForm(tenths);
    assert AllDigits(Decimal(tenths / 10));
  }

  /** Every printed number followed by every spelling of a unit is read as the number of bytes it stands for,
      rounded down. */
  lemma PrintedIsRead(tenths: nat, name: string, unit: UnitIndex)
    requires Spells(name, unit)
    ensures ToBytes(Printed(tenths) + name) == Some(tenths * UnitSize(unit) / 10)
  {
    var number := Printed(tenths);
    PrintedForm(tenths);
    var text := number + name;
    assert text[0] == number[0] && text[|text| - 1] == name[|name| - 1];
    NothingToTrim(text);
    UpperOfNumber(number, name);
    var upper := ToUpper(name);
    assert IsLetter(upper[0]);
    FirstLetterAfter(number, upper);
    assert (number + upper)[..|number|] == number && (number + upper)[|number|..] == upper;
    PrintedEnds(tenths);
    NothingToTrim(number);
    ValueOfPrinted(tenths);
    TenthsOfUnit(tenths, UnitSize(unit));
  }

  /** A unit text that says kilobytes, megabytes and so on: its letter alone, or followed by "B" or "iB", in any case. */
  predicate SpelledOut(name: string, unit: UnitIndex) {
    var letter := [UnitLetter(unit)];
    ToUpper(name) == letter || (unit > 0 && (ToUpper(name) == letter + "B" || ToUpper(name) == letter + "IB"))
  }

  lemma Spellings(unit: UnitIndex, upper: string)
    ensures var letter := [UnitLetter(unit)];
      UnitNamed(upper) == Some(unit) <==> upper == letter || (unit > 0 && (upper == letter + "B" || upper == letter + "IB"))
  {
    match unit {
      case 0 => assert [UnitLetter(0)] == "B";
      case 1 => assert [UnitLetter(1)] == "K" && "K" + "B" == "KB" && "K" + "IB" == "KIB";
      case 2 => assert [UnitLetter(2)] == "M" && "M" + "B" == "MB" && "M" + "IB" == "MIB";
      case 3 => assert [UnitLetter(3)] == "G" && "G" + "B" == "GB" && "G" + "IB" == "GIB";
      case 4 => assert [UnitLetter(4)] == "T" && "T" + "B" == "TB" && "T" + "IB" == "TIB";
      case 5 => assert [UnitLetter(5)] == "P" && "P" + "B" == "PB" && "P" + "IB" == "PIB";
      case 6 => assert [UnitLetter(6)] == "E" && "E" + "B" == "EB" && "E" + "IB" == "EIB";
    }
  }

  lemma SpelledOutIff(name: string, unit: UnitIndex)
    ensures UnitNamed(ToUpper(name)) == Some(unit) <==> SpelledOut(name, unit)
  {
    Spellings(unit, ToUpper(name));
  }

  lemma UpperIsLetter(c: char)
    ensures IsLetter(UpperChar(c)) <==> IsLetter(c)
    ensures IsSpace(c) ==> UpperChar(c) == c
  {
  }

  lemma SpelledOutSpells(name: string, unit: UnitIndex)
    requires SpelledOut(name, unit)
    ensures Spells(name, unit)
  {
    var upper := ToUpper(name);
    SpelledOutIff(name, unit);
    assert upper[0] == UpperChar(name[0]) && upper[|name| - 1] == UpperChar(name[|name| - 1]);
    UpperIsLetter(name[0]);
    UpperIsLetter(name[|name| - 1]);
  }

  /** Units are powers of 1024, whether spelled "K", "KB" or "KiB"; bytes are "B" only. */
  lemma SpelledOutIsRead(tenths: nat, name: string, unit: UnitIndex)
    requires SpelledOut(name, unit)
    ensures ToBytes(Printed(tenths) + name) == Some(tenths * Power1024(unit) / 10)
  {
    SpelledOutSpells(name, unit);
    PrintedIsRead(tenths, name, unit);
    UnitIsPower(unit);
  }

  lemma FiveOf(name: string, unit: UnitIndex)
    requires SpelledOut(name, unit)
    ensures ToBytes("5" + name) == Some(5 * Power1024(unit))
  {
    PrintedForm(50);
    assert Printed(50) == "5";
    SpelledOutIsRead(50, name, unit);
  }

  lemma SmallTexts()
    ensures ToBytes("5" + "b") == Some(5) && ToBytes("5" + "K") == Some(5 * 1024)
  {
    assert ToUpper("b") == "B" && ToUpper("K") == "K";
    SomePowers();
    FiveOf("b", 0);
    FiveOf("K", 1);
  }

  lemma MiddleTexts()
    ensures ToBytes("5" + "MB") == Some(5 * 1024 * 1024) && ToBytes("5" + "GiB") == Some(5 * 1024 * 1024 * 1024)
  {
    assert ToUpper("MB") == "MB" && ToUpper("GiB") == "GIB";
    SomePowers();
    FiveOf("MB", 2);
    FiveOf("GiB", 3);
  }

  lemma LargeTexts()
    ensures ToBytes("5" + "tB") == Some(5 * 1024 * 1024 * 1024 * 1024)
    ensures ToBytes("5" + "pib") == Some(5 * 1024 * 1024 * 1024 * 1024 * 1024)
    ensures ToBytes("5" + "e") == Some(5 * 1024 * 1024 * 1024 * 1024 * 1024 * 1024)
  {
    assert ToUpper("tB") == "TB" && ToUpper("pib") == "PIB" && ToUpper("e") == "E";
    SomePowers();
    FiveOf("tB", 4);
    FiveOf("pib", 5);
    FiveOf("e", 6);
  }

  /** For instance. */
  lemma SomeTexts()
    ensures ToBytes("5" + "b") == Some(5) && ToBytes("5" + "K") == Some(5 * 1024)
    ensures ToBytes("5" + "MB") == Some(5 * 1024 * 1024) && ToBytes("5" + "GiB") == Some(5 * 1024 * 1024 * 1024)
    ensures ToBytes("5" + "tB") == Some(5 * 1024 * 1024 * 1024 * 1024)
    ensures ToBytes("5" + "pib") == Some(5 * 1024 * 1024 * 1024 * 1024 * 1024)
    ensures ToBytes("5" + "e") == Some(5 * 1024 * 1024 * 1024 * 1024 * 1024 * 1024)
  {
    SmallTexts();
    MiddleTexts();
    LargeTexts();
  }

  lemma SomePowers()
    ensures Power1024(0) == 1 && Power1024(1) == 1024 && Power1024(2) == 1024 * 1024 && Power1024(3) == 1024 * 1024 * 1024
    ensures Power1024(4) == 1024 * 1024 * 1024 * 1024 && Power1024(5) == 1024 * 1024 * 1024 * 1024 * 1024
    ensures Power1024(6) == 1024 * 1024 * 1024 * 1024 * 1024 * 1024
  {
    assert Power1024(2) == 1024 * Power1024(1) && Power1024(3) == 1024 * Power1024(2) && Power1024(4) == 1024 * Power1024(3);
    assert Power1024(5) == 1024 * Power1024(4) && Power1024(6) == 1024 * Power1024(5);
  }

  function Power1024(n: nat): nat {
    if n == 0 then 1 else 1024 * Power1024(n - 1)
  }

  lemma {:induction false} UnitIsPower(unit: UnitIndex)
    ensures UnitSize(unit) == Power1024(unit)
  {
    if unit > 0 {
      UnitIsPower(unit - 1);
      NextUnit(unit - 1);
    }
  }

  /** Any other text after a number is refused ... */
  lemma OtherUnitsAreRefused(tenths: nat, name: string)
    requires name != [] && IsLetter(name[0]) && !IsSpace(name[|name| - 1])
    requires forall unit: UnitIndex :: !SpelledOut(name, unit)
    ensures ToBytes(Printed(tenths) + name) == None
  {
    var number := Printed(tenths);
    ReadsUnit(number, name, tenths);
    if UnitNamed(ToUpper(name)).Some? {
      var unit := UnitNamed(ToUpper(name)).value;
      SpelledOutIff(name, unit);
    }
  }

  /** What is read after a printed number is the unit. */
  lemma ReadsUnit(number: string, name: string, tenths: nat)
    requires number == Printed(tenths) && name != [] && IsLetter(name[0]) && !IsSpace(name[|name| - 1])
    ensures TrimSpace(number + name) == number + name && ToUpper(number + name) == number + ToUpper(name)
    ensures FirstLetter(number + ToUpper(name)) == |number| < |number + ToUpper(name)|
    ensures (number + ToUpper(name))[|number|..] == ToUpper(name)
  {
    PrintedForm(tenths);
    var text := number + name;
    assert text[0] == number[0] && text[|text| - 1] == name[|name| - 1];
    NothingToTrim(text);
    UpperOfNumber(number, name);
    UpperIsLetter(name[0]);
    FirstLetterAfter(number, ToUpper(name));
  }

  lemma {:induction false} NoLetter(s: string)
    requires forall i :: 0 <= i < |s| ==> !IsLetter(s[i])
    ensures FirstLetter(s) == |s|
  {
    if s != [] {
      NoLetter(s[1..]);
    }
  }

  /** ... and so is a number without a unit ... */
  lemma BareNumbersAreRefused(tenths: nat)
    ensures ToBytes(Printed(tenths)) == None
  {
    var number := Printed(tenths);
    PrintedForm(tenths);
    PrintedEnds(tenths);
    NothingToTrim(number);
    UpperOfNumber(number, []);
    assert number + [] == number && ToUpper([]) == [];
    NoLetter(number);
  }

  /** Anything read is read from a number that is not negative and a unit spelled as above, spaces around and between aside. */
  lemma ReadOnlyIfSpelled(text: string)
    requires ToBytes(text).Some?
    ensures var s := ToUpper(TrimSpace(text));
      var i := FirstLetter(s);
      var number := ParseFloat(TrimSpace(s[..i]));
      && i < |s| && number.Some? && !(number.value.negative && number.value.whole > 0)
      && exists unit: UnitIndex :: SpelledOut(s[i..], unit)
           && ToBytes(text) == Some(number.value.whole * Power1024(unit) / number.value.scale)
  {
    var s := ToUpper(TrimSpace(text));
    var unit := UnitNamed(s[FirstLetter(s)..]).value;
    UpperTwice(TrimSpace(text), FirstLetter(s));
    SpelledOutIff(s[FirstLetter(s)..], unit);
    UnitIsPower(unit);
  }

  lemma UpperTwice(s: string, i: nat)
    requires i <= |s|
    ensures ToUpper(ToUpper(s)[i..]) == ToUpper(s)[i..]
  {
  }

  /** ... or below zero. */
  lemma NegativesAreRefused(tenths: nat, name: string, unit: UnitIndex)
    requires tenths > 0 && SpelledOut(name, unit)
    ensures ToBytes("-" + Printed(tenths) + name) == None
  {
    var number := Printed(tenths);
    var text := "-" + number + name;
    SpelledOutSpells(name, unit);
    ReadsUnit(number, name, tenths);
    PrintedEnds(tenths);
    assert text == "-" + (number + name);
    assert text[0] == '-' && text[|text| - 1] == name[|name| - 1];
    NothingToTrim(text);
    var upper := ToUpper(text);
    assert upper == "-" + (number + ToUpper(name));
    assert upper[0] == '-' && upper[1..] == number + ToUpper(name);
    assert FirstLetter(upper) == 1 + |number|;
    var signed := upper[..1 + |number|];
    assert signed == "-" + number;
    assert signed[|signed| - 1] == number[|number| - 1];
    NothingToTrim(signed);
    assert signed[1..] == number;
    SignedValue(tenths);
  }

  lemma SignedValue(tenths: nat)
    requires tenths > 0
    ensures var n := ParseUnsigned(Printed(tenths), true); n.None? || (n.value.negative && n.value.whole > 0)
  {
    PrintedForm(tenths);
    ValueOfPrinted(tenths);
  }

  lemma {:induction false} TrimLeftAppend(s: string, c: char)
    requires IsSpace(c)
    ensures TrimLeft(s + [c]) == if TrimLeft(s) == "" then "" else TrimLeft(s) + [c]
  {
    if s == "" {
      assert s + [c] == [c];
      assert [c][1..] == "";
      assert TrimLeft([c]) == TrimLeft([c][1..]);
    } else if IsSpace(s[0]) {
      assert (s + [c])[1..] == s[1..] + [c];
      TrimLeftAppend(s[1..], c);
    }
  }

  /** White space around a size does not matter. */
  lemma SpacesDoNotMatter(text: string, c: char)
    requires IsSpace(c)
    ensures ToBytes([c] + text) == ToBytes(text) == ToBytes(text + [c])
  {
    assert ([c] + text)[1..] == text;
    TrimLeftAppend(text, c);
    var left := TrimLeft(text);
    assert (left + [c])[..|left|] == left;
    assert TrimSpace([c] + text) == TrimSpace(text) == TrimSpace(text + [c]);
  }

  lemma {:induction false} FirstDotBefore(s: string, rest: string)
    requires FirstDot(s) < |s|
    ensures FirstDot(s + rest) == FirstDot(s)
  {
    if s[0] != '.' {
      assert (s + rest)[1..] == s[1..] + rest;
      FirstDotBefore(s[1..], rest);
    }
  }

  lemma ValueAppend(digits: string, d: char)
    requires AllDigits(digits) && IsDigit(d)
    ensures AllDigits(digits + [d]) && Value(digits + [d]) == 10 * Value(digits) + DigitValue(d)
  {
    assert (digits + [d])[..|digits|] == digits;
  }

  lemma WithoutAppend(s: string, k: nat, d: char)
    requires k < |s|
    ensures Without(s + [d], k) == Without(s, k) + [d]
  {
    assert (s + [d])[..k] == s[..k] && (s + [d])[k + 1..] == s[k + 1..] + [d];
  }

  /** What a number with a point in it is read as. */
  predicate IsRead(digits: string, dot: nat, negative: bool, n: Option<Number>)
    requires dot <= |digits|
  {
    n == if digits != [] && AllDigits(digits) then Some(Number(negative, Value(digits), Pow10(|digits| - dot))) else None
  }

  lemma ParsedWithDot(s: string, negative: bool, dot: nat)
    requires dot == FirstDot(s) < |s|
    ensures IsRead(Without(s, dot), dot, negative, ParseUnsigned(s, negative))
  {
  }

  lemma NextPower(n: nat, m: nat)
    requires m == n + 1
    ensures Pow10(m) == 10 * Pow10(n)
  {
  }

  lemma ReadWithOneMore(digits: string, dot: nat, negative: bool, d: char, n: Number, n': Option<Number>)
    requires dot <= |digits| && IsDigit(d)
    requires IsRead(digits, dot, negative, Some(n)) && IsRead(digits + [d], dot, negative, n')
    ensures n' == Some(Number(negative, 10 * n.whole + DigitValue(d), 10 * n.scale))
  {
    ValueAppend(digits, d);
    NextPower(|digits| - dot, |digits + [d]| - dot);
  }

  /** A digit more after the point counts a tenth of the one before it. */
  lemma OneMoreDecimal(s: string, negative: bool, d: char, n: Number)
    requires FirstDot(s) < |s| && ParseUnsigned(s, negative) == Some(n) && IsDigit(d)
    ensures ParseUnsigned(s + [d], negative) == Some(Number(negative, 10 * n.whole + DigitValue(d), 10 * n.scale))
  {
    var dot := FirstDot(s);
    FirstDotBefore(s, [d]);
    ParsedWithDot(s, negative, dot);
    ParsedWithDot(s + [d], negative, dot);
    WithoutAppend(s, dot, d);
    ReadWithOneMore(Without(s, dot), dot, negative, d, n, ParseUnsigned(s + [d], negative));
  }

  /** A printed size has at most one decimal, and of two equally near ones the even one. */
  lemma TiesGoToEven(a: nat, b: nat)
    requires b > 0 && 2 * (a % b) == b
    ensures RoundHalfEven(a, b) % 2 == 0
  {
  }

  lemma TenthsOfUnit(tenths: nat, u: nat)
    ensures tenths % 10 == 0 ==> tenths / 10 * u / 1 == tenths * u / 10
  {
    if tenths % 10 == 0 {
      assert tenths * u == 10 * (tenths / 10 * u);
    }
  }

  lemma LetterSpells(unit: UnitIndex)
    ensures Spells([UnitLetter(unit)], unit)
  {
    var name := [UnitLetter(unit)];
    assert ToUpper(name) == name;
  }

  lemma ZeroIsPrinted()
    ensures Printed(0) + [UnitLetter(ChosenUnit(0))] == "0B"
  {
    PrintedForm(0);
  }

  /** The string that carries a size decodes, and to what. */
  lemma SizeIsCarried(bytes: nat)
    ensures ToBytes(ByteSize(bytes)) == Some(Carried(bytes))
  {
    var unit := ChosenUnit(bytes);
    LetterSpells(unit);
    PrintedIsRead(Tenths(bytes), [UnitLetter(unit)], unit);
    if bytes == 0 {
      ZeroIsPrinted();
    }
  }

  lemma OneByte()
    ensures ByteSize(1) == "1B"
  {
    assert Tenths(1) == 10;
    PrintedForm(10);
    assert Decimal(1) == "1" && [UnitLetter(0)] == "B";
  }

  lemma OneAndAHalf()
    ensures ByteSize(1536) == "1.5K"
  {
    assert Tenths(1536) == 15;
    PrintedForm(15);
    assert Decimal(1) == "1" && OneDecimal(15) == "1.5" && [UnitLetter(1)] == "K";
  }

  /** The largest size of a unit may be printed as 1024 of it. */
  lemma NearlyAMegabyte()
    ensures ByteSize(1048575) == "1024K"
  {
    assert Tenths(1048575) == 10240;
    PrintedForm(10240);
    assert Decimal(102) == "102" && Decimal(1024) == "1024" && [UnitLetter(1)] == "K";
  }

  /** Some sizes as they are printed. */
  lemma SomeSizes()
    ensures ByteSize(1) == "1B" && ByteSize(1536) == "1.5K" && ByteSize(1048575) == "1024K"
  {
    OneByte();
    OneAndAHalf();
    NearlyAMegabyte();
  }

  // ----- What becomes of a size on its way

  lemma Nearest(a: nat, b: nat)
    requires b > 0
    ensures 2 * a - b <= 2 * (RoundHalfEven(a, b) * b) <= 2 * a + b
  {
    var q := a / b;
    assert a == q * b + a % b;
    assert (q + 1) * b == q * b + b;
  }

  lemma OnlyNearest(a: nat, b: nat, q: nat)
    requires b > 0 && 2 * a - b < 2 * (q * b) < 2 * a + b
    ensures RoundHalfEven(a, b) == q
  {
    var p := RoundHalfEven(a, b);
    Nearest(a, b);
    if p > q {
      ProductMonotone(p, q, b);
    } else if p < q {
      ProductMonotone(q, p, b);
    }
  }

  lemma RoundingIsMonotone(a: nat, a': nat, b: nat)
    requires b > 0 && a <= a'
    ensures RoundHalfEven(a, b) <= RoundHalfEven(a', b)
  {
    Nearest(a, b);
    Nearest(a', b);
    var p, p' := RoundHalfEven(a, b), RoundHalfEven(a', b);
    if p > p' {
      ProductMonotone(p, p', b);
    }
  }

  /** The unit chosen for a size is the one that leaves a number in [1, 1024); beyond exabytes there is none. */
  lemma UnitFits(bytes: nat)
    requires bytes > 0
    ensures var u := UnitSize(ChosenUnit(bytes)); u <= bytes && (bytes < 1024 * EXABYTE ==> bytes < 1024 * u)
  {
  }

  /** ... and no other unit does. */
  lemma UnitIs(bytes: nat, unit: UnitIndex)
    requires UnitSize(unit) <= bytes && (unit < 6 ==> bytes < 1024 * UnitSize(unit))
    ensures ChosenUnit(bytes) == unit
  {
  }

  lemma NextUnit(unit: UnitIndex)
    requires unit < 6
    ensures UnitSize(unit + 1) == 1024 * UnitSize(unit)
  {
  }

  lemma {:induction false} LargerUnit(i: UnitIndex, j: UnitIndex)
    requires i < j
    ensures 1024 * UnitSize(i) <= UnitSize(j)
  {
    NextUnit(j - 1);
    if i + 1 < j {
      LargerUnit(i, j - 1);
    }
  }

  /** The number of tenths is at least ten, and at most 1024 whole ones, which is one of the next unit. */
  lemma TenthsBounds(bytes: nat)
    requires bytes > 0
    ensures 10 <= Tenths(bytes)
    ensures ChosenUnit(bytes) < 6 ==> Tenths(bytes) <= 10240
  {
    var u := UnitSize(ChosenUnit(bytes));
    UnitFits(bytes);
    OnlyNearest(10 * u, u, 10);
    OnlyNearest(10240 * u, u, 10240);
    RoundingIsMonotone(10 * u, 10 * bytes, u);
    if ChosenUnit(bytes) < 6 {
      RoundingIsMonotone(10 * bytes, 10240 * u, u);
    }
  }

  /** What a size is carried as lies between its own unit and the next. */
  lemma CarriedBounds(bytes: nat)
    requires bytes > 0
    ensures var unit := ChosenUnit(bytes);
      UnitSize(unit) <= Carried(bytes) && (unit < 6 ==> Carried(bytes) <= 1024 * UnitSize(unit))
  {
    var unit := ChosenUnit(bytes);
    TenthsBounds(bytes);
    ProductMonotone(Tenths(bytes), 10, UnitSize(unit));
    if unit < 6 {
      ProductMonotone(10240, Tenths(bytes), UnitSize(unit));
    }
  }

  lemma UnitIsLarge(unit: UnitIndex)
    ensures unit == 0 || UnitSize(unit) >= 1024
  {
  }

  /** Whole bytes are carried as they are. */
  lemma BytesAreCarried(bytes: nat)
    requires ChosenUnit(bytes) == 0
    ensures Carried(bytes) == bytes
  {
    OnlyNearest(10 * bytes, 1, 10 * bytes);
  }

  /** One of a unit is carried as it is. */
  lemma OneIsCarried(unit: UnitIndex)
    ensures Carried(UnitSize(unit)) == UnitSize(unit)
  {
    var u := UnitSize(unit);
    if unit < 6 {
      NextUnit(unit);
    }
    UnitIs(u, unit);
    OnlyNearest(10 * u, u, 10);
  }

  /** Within a unit above bytes, the number of tenths does not change. */
  lemma TenthsStay(bytes: nat)
    requires ChosenUnit(bytes) > 0 && ChosenUnit(Carried(bytes)) == ChosenUnit(bytes)
    ensures Carried(Carried(bytes)) == Carried(bytes)
  {
    UnitIsLarge(ChosenUnit(bytes));
    OnlyNearest(10 * Carried(bytes), UnitSize(ChosenUnit(bytes)), Tenths(bytes));
  }

  lemma CarriedAgain(bytes: nat)
    ensures Carried(Carried(bytes)) == Carried(bytes)
  {
    var unit := ChosenUnit(bytes);
    if unit == 0 {
      BytesAreCarried(bytes);
    } else {
      CarriedBounds(bytes);
      if unit < 6 && Carried(bytes) == 1024 * UnitSize(unit) {
        NextUnit(unit);
        OneIsCarried(unit + 1);
      } else {
        UnitIs(Carried(bytes), unit);
        TenthsStay(bytes);
      }
    }
  }

  /** A size that has travelled once is not changed by travelling again, carries into the next unit included. */
  lemma CarriedTwice(bytes: nat)
    ensures Carried(Carried(bytes)) == Carried(bytes)
    ensures ToBytes(ByteSize(Carried(bytes))) == Some(Carried(bytes))
  {
    CarriedAgain(bytes);
    SizeIsCarried(Carried(bytes));
  }

  /** A larger size is never carried as a smaller one. */
  lemma CarriedIsMonotone(bytes: nat, bytes': nat)
    requires bytes <= bytes'
    ensures Carried(bytes) <= Carried(bytes')
  {
    var unit, unit' := ChosenUnit(bytes), ChosenUnit(bytes');
    if bytes > 0 {
      if unit == unit' {
        RoundingIsMonotone(10 * bytes, 10 * bytes', UnitSize(unit));
        ProductMonotone(Tenths(bytes'), Tenths(bytes), UnitSize(unit));
      } else {
        LargerUnit(unit, unit');
        CarriedBounds(bytes);
        CarriedBounds(bytes');
      }
    }
  }

  /** Nothing but nothing is carried as nothing. */
  lemma CarriedZero(bytes: nat)
    ensures Carried(bytes) == 0 <==> bytes == 0
  {
    if bytes > 0 {
      CarriedBounds(bytes);
      UnitIsLarge(ChosenUnit(bytes));
    }
  }

  /** The error is at most a twentieth of the unit, and one byte for rounding down. */
  lemma CarriedError(bytes: nat)
    ensures var u := UnitSize(ChosenUnit(bytes));
      && 20 * (Carried(bytes) - bytes) <= u
      && 20 * (bytes - Carried(bytes)) < u + 20
  {
    Nearest(10 * bytes, UnitSize(ChosenUnit(bytes)));
  }

  /** A size arrives unchanged exactly when rounding it down from some number of tenths of its unit gives it;
      whole and half multiples of the unit are such sizes. */
  lemma CarriedExactly(bytes: nat)
    ensures var u := UnitSize(ChosenUnit(bytes));
      && (Carried(bytes) == bytes <==> (10 * bytes) % u == 0 || u - (10 * bytes) % u < 10)
      && ((2 * bytes) % u == 0 ==> Carried(bytes) == bytes)
  {
    var u, t := UnitSize(ChosenUnit(bytes)), Tenths(bytes);
    UnitIsLarge(ChosenUnit(bytes));
    ExactlyWhen(10 * bytes, u);
    if (2 * bytes) % u == 0 {
      HalfMultiple(bytes, u);
    }
  }

  lemma HalfMultiple(bytes: nat, u: nat)
    requires u > 0 && (2 * bytes) % u == 0
    ensures (10 * bytes) % u == 0
  {
    var h := 2 * bytes / u;
    assert 10 * bytes == 5 * h * u;
    MultipleOf(5 * h, u);
  }

  lemma MultipleOf(q: nat, b: nat)
    requires b > 0
    ensures (q * b) % b == 0
  {
    if (q * b) % b > 0 {
      assert q * b == (q * b / b) * b + (q * b) % b;
      if q * b / b < q {
        ProductMonotone(q, q * b / b, b);
      } else {
        ProductMonotone(q * b / b, q, b);
      }
    }
  }

  /** `a` lies at most nine below the nearest multiple of `u`, and not above it. */
  lemma ExactlyWhen(a: nat, u: nat)
    requires (u == 1 || u >= 1024) && a % 10 == 0
    ensures RoundHalfEven(a, u) * u / 10 == a / 10 <==> a % u == 0 || u - a % u < 10
  {
    var q, r := a / u, a % u;
    assert a == q * u + r && (q + 1) * u == q * u + u;
    var t := RoundHalfEven(a, u);
    assert t * u == q * u || t * u == q * u + u;
  }

  // ----- Floating point

  lemma FiveBelow(x: nat)
    ensures x * 512 % 5 == 0 ==> x % 5 == 0
    ensures x * 1024 % 5 == 0 ==> x % 5 == 0
  {
    assert x * 512 == 5 * (102 * x) + 2 * x;
    assert x * 1024 == 5 * (205 * x) - x;
  }

  /** Half a unit has no factor five. */
  lemma {:induction false} UnitIsEven(tenths: nat, unit: UnitIndex) returns (half: nat)
    requires unit > 0
    ensures UnitSize(unit) == 2 * half && (tenths * half % 5 == 0 ==> tenths % 5 == 0)
    decreases unit
  {
    if unit == 1 {
      half := 512;
      FiveBelow(tenths);
    } else {
      NextUnit(unit - 1);
      FiveBelow(tenths);
      var smaller := UnitIsEven(tenths * 1024, unit - 1);
      half := 1024 * smaller;
      Associates(tenths, 1024, smaller);
    }
  }

  lemma Associates(a: nat, b: nat, c: nat)
    ensures a * (b * c) == (a * b) * c
  {
  }

  lemma FloorNear(half: nat, product: real)
    requires half % 5 == 0 ==> 5.0 * product == half as real
    requires -1.0 < 5.0 * product - half as real < 1.0
    ensures product.Floor == half / 5
  {
    assert half == 5 * (half / 5) + half % 5;
  }

  /** Half the distance between two floating-point numbers of 53 bits just below 1024. */
  const HALF_ULP: real := 1.0 / 17592186044416.0

  lemma ErrorScales(tenths: nat, unit: UnitIndex, x: real)
    requires unit <= 4 && -HALF_ULP <= x - tenths as real / 10.0 <= HALF_ULP
    ensures -2.0 < 10.0 * (x * UnitSize(unit) as real) - (tenths * UnitSize(unit)) as real < 2.0
    ensures 10.0 * x == tenths as real ==> 10.0 * (x * UnitSize(unit) as real) == (tenths * UnitSize(unit)) as real
  {
  }

  lemma Twice(t: nat, u: nat, half: nat)
    requires u == 2 * half
    ensures t * u == 2 * (t * half) && t * u / 10 == t * half / 5
  {
    assert t * u == 2 * (t * half);
    TwiceTenth(t * half);
  }

  lemma TwiceTenth(n: nat)
    ensures 2 * n / 10 == n / 5
  {
  }

  lemma ScaledIsNear(tenths: nat, u: nat, half: nat, product: real)
    requires u == 2 * half && (tenths * half % 5 == 0 ==> tenths % 5 == 0)
    requires -2.0 < 10.0 * product - (tenths * u) as real < 2.0
    requires tenths % 5 == 0 ==> 10.0 * product == (tenths * u) as real
    ensures product.Floor == tenths * u / 10
  {
    Twice(tenths, u, half);
    FloorNear(tenths * half, product);
  }

  /** Up to terabytes the parser multiplies the floating-point number `x` nearest to the printed one by the unit, and
      drops the fraction.  This is the same as in exact arithmetic: multiples of a half are floating-point numbers,
      and for the others the error is too small to matter. */
  lemma TruncationAbsorbsRounding(tenths: nat, unit: UnitIndex, x: real)
    requires unit <= 4 && (unit == 0 ==> tenths % 10 == 0)
    requires -HALF_ULP <= x - tenths as real / 10.0 <= HALF_ULP
    requires tenths % 5 == 0 ==> 10.0 * x == tenths as real
    ensures (x * UnitSize(unit) as real).Floor == tenths * UnitSize(unit) / 10
  {
    ErrorScales(tenths, unit, x);
    if unit == 0 {
      FloorNear(tenths / 2, x);
    } else {
      var half := UnitIsEven(tenths, unit);
      ScaledIsNear(tenths, UnitSize(unit), half, x * UnitSize(unit) as real);
    }
  }
}
