/**
 * The regular expressions of the form sections, each written as a predicate
 * over the whole string (every pattern is anchored with `^...$`). `\d` is
 * `[0-9]` and `\s` is the ECMAScript white-space set, as in JavaScript
 * regular expressions without the `u` flag.
 */
module Patterns {
  import opened Wrappers
  import opened Strings

  /** A bracketed character class: `a-zA-Z`, `0-9`, `\s` and a list of literal characters. */
  datatype CharClass = CharClass(letters: bool, digits: bool, space: bool, extra: string)

  predicate InClass(c: char, k: CharClass) {
    (k.letters && IsLetter(c)) || (k.digits && IsDigit(c)) || (k.space && IsSpace(c)) || c in k.extra
  }

  predicate AllIn(s: string, k: CharClass) {
    forall i :: 0 <= i < |s| ==> InClass(s[i], k)
  }

  /** The recognisers behind each `.regex(...)` check. */
  datatype Pattern =
    | Star(k: CharClass)   // ^[...]*$
    | Plus(k: CharClass)   // ^[...]+$
    | DayMonthYear         // ^\d{2}-\d{2}-\d{4}$
    | HourMinute           // ^([01]\d|2[0-3]):([0-5]\d)$
    | ThreeUpper           // ^[A-Z]{3}$
    | Dimensions           // ^\d+x\d+x\d+$
    | Decimal2             // ^\d+(\.\d{1,2})?$
    | FlatOrPercentage     // ^(Flat|Percentage)?$
    | Temperature          // ^-?\d+(\.\d+)?\s?[°CFK]?$
    | GroupedAmount        // ^\d{1,3}(,\d{3})*(\.\d{1,2})?$
    | DigitsOnly           // ^\d*$

  /** A non-empty run of decimal digits: `\d+`. */
  predicate Digits1(s: string)
    ensures Digits1(s) <==> s != [] && forall i :: 0 <= i < |s| ==> '0' <= s[i] <= '9'
  {
    |s| > 0 && AllDigits(s)
  }

  /** Position of the first c in s. */
  function Find(s: string, c: char): (r: Option<nat>)
    ensures r.Some? ==> r.value < |s| && s[r.value] == c && c !in s[..r.value]
    ensures r.None? ==> c !in s
  {
    if s == [] then None
    else if s[0] == c then Some(0)
    else
      var t := Find(s[1..], c);
      assert s == [s[0]] + s[1..];
      if t.Some? then
        assert s[..t.value + 1] == [s[0]] + s[1..][..t.value];
        Some(t.value + 1)
      else None
  }

  predicate DayMonthYearMatch(s: string) {
    |s| == 10 && s[2] == '-' && s[5] == '-'
    && IsDigit(s[0]) && IsDigit(s[1]) && IsDigit(s[3]) && IsDigit(s[4])
    && IsDigit(s[6]) && IsDigit(s[7]) && IsDigit(s[8]) && IsDigit(s[9])
  }

  predicate HourMinuteMatch(s: string) {
    |s| == 5 && s[2] == ':'
    && ((('0' <= s[0] <= '1') && IsDigit(s[1])) || (s[0] == '2' && '0' <= s[1] <= '3'))
    && '0' <= s[3] <= '5' && IsDigit(s[4])
  }

  predicate ThreeUpperMatch(s: string) {
    |s| == 3 && IsUpper(s[0]) && IsUpper(s[1]) && IsUpper(s[2])
  }

  /** `\d+x\d+x\d+`: digits contain no 'x', so the two first 'x' are the separators. */
  predicate DimensionsMatch(s: string) {
    match Find(s, 'x')
    case None => false
    case Some(i) =>
      var rest := s[i + 1..];
      match Find(rest, 'x')
      case None => false
      case Some(j) => Digits1(s[..i]) && Digits1(rest[..j]) && Digits1(rest[j + 1..])
  }

  /** `\d+(\.\d{1,2})?`. */
  predicate Decimal2Match(s: string) {
    match Find(s, '.')
    case None => Digits1(s)
    case Some(i) => Digits1(s[..i]) && 1 <= |s| - i - 1 <= 2 && AllDigits(s[i + 1..])
  }

  /** `\d+(\.\d+)?`. */
  predicate DecimalMatch(s: string) {
    match Find(s, '.')
    case None => Digits1(s)
    case Some(i) => Digits1(s[..i]) && Digits1(s[i + 1..])
  }

  predicate IsUnit(c: char) { c == '°' || c == 'C' || c == 'F' || c == 'K' }

  /** `-?\d+(\.\d+)?` after at most one trailing unit and then at most one white-space character are dropped. */
  predicate TemperatureMatch(s: string) {
    var a := if |s| > 0 && IsUnit(s[|s| - 1]) then s[..|s| - 1] else s;
    var b := if |a| > 0 && IsSpace(a[|a| - 1]) then a[..|a| - 1] else a;
    var c := if |b| > 0 && b[0] == '-' then b[1..] else b;
    DecimalMatch(c)
  }

  /** `\d{1,3}(,\d{3})*`, read from the right one group at a time. */
  predicate Grouped(s: string)
    decreases |s|
  {
    (1 <= |s| <= 3 && AllDigits(s))
    || (|s| >= 5 && s[|s| - 4] == ',' && AllDigits(s[|s| - 3..]) && Grouped(s[..|s| - 4]))
  }

  /** `\d{1,3}(,\d{3})*(\.\d{1,2})?`: digits and commas contain no '.', so the first '.' ends the integer part. */
  predicate GroupedAmountMatch(s: string) {
    match Find(s, '.')
    case None => Grouped(s)
    case Some(i) => Grouped(s[..i]) && 1 <= |s| - i - 1 <= 2 && AllDigits(s[i + 1..])
  }

  predicate Matches(p: Pattern, s: string) {
    match p
    case Star(k) => AllIn(s, k)
    case Plus(k) => |s| > 0 && AllIn(s, k)
    case DayMonthYear => DayMonthYearMatch(s)
    case HourMinute => HourMinuteMatch(s)
    case ThreeUpper => ThreeUpperMatch(s)
    case Dimensions => DimensionsMatch(s)
    case Decimal2 => Decimal2Match(s)
    case FlatOrPercentage => s == "" || s == "Flat" || s == "Percentage"
    case Temperature => TemperatureMatch(s)
    case GroupedAmount => GroupedAmountMatch(s)
    case DigitsOnly => AllDigits(s)
  }

  // The character classes that recur across the sections.

  /** `[a-zA-Z0-9\s.,'"-]`: names, references, notes. */
  const General := CharClass(true, true, true, ".,'\"-")
  /** `[a-zA-Z0-9\s.,'-]` (also written `[a-zA-Z0-9\s,.'-]`). */
  const Street := CharClass(true, true, true, ".,'-")
  /** `[a-zA-Z\s.'-]`: city, state, country. */
  const Place := CharClass(true, false, true, ".'-")
  /** `[a-zA-Z\s.,'-]`: charge and discount types. */
  const Wording := CharClass(true, false, true, ".,'-")
  /** `[a-zA-Z0-9\s-]`: postal codes, equipment, pickup PO. */
  const Postal := CharClass(true, true, true, "-")
  /** `[0-9+\-()\s]`: phone, fax. */
  const Phone := CharClass(false, true, true, "+-()")
  /** `[a-zA-Z0-9-]`: extensions and currency codes. */
  const Code := CharClass(true, true, false, "-")
  /** `[a-zA-Z0-9-_\/]`: customer PO numbers. */
  const PoNumber := CharClass(true, true, false, "-_/")
  /** `[a-zA-Z0-9_/.-]`: tax ids. */
  const TaxId := CharClass(true, true, false, "_/.-")
  /** `[a-zA-Z0-9#/\s-]`: unit numbers. */
  const UnitNo := CharClass(true, true, true, "#/-")

  // Meaning of the fixed-format patterns.

  function DigitValue(c: char): nat
    requires IsDigit(c)
  {
    (c - '0') as nat
  }

  /** A time that matches reads as a valid hour of the day and minute of the hour. */
  lemma HourMinuteMeaning(s: string)
    requires Matches(HourMinute, s)
    ensures 10 * DigitValue(s[0]) + DigitValue(s[1]) < 24
    ensures 10 * DigitValue(s[3]) + DigitValue(s[4]) < 60
  {
  }

  /** The two-digit rendering of a number below 100. */
  function TwoDigits(n: nat): (r: string)
    requires n < 100
    ensures |r| == 2 && IsDigit(r[0]) && IsDigit(r[1])
    ensures 10 * DigitValue(r[0]) + DigitValue(r[1]) == n
  {
    [DigitChar(n / 10), DigitChar(n % 10)]
  }

  /** Every hour and minute of the day, written HH:MM, is accepted, and the fields read back. */
  lemma HourMinuteComplete(h: nat, m: nat)
    requires h < 24 && m < 60
    ensures Matches(HourMinute, TwoDigits(h) + ":" + TwoDigits(m))
  {
    var s := TwoDigits(h) + ":" + TwoDigits(m);
    assert s[0] == DigitChar(h / 10) && s[1] == DigitChar(h % 10);
    assert s[3] == DigitChar(m / 10);
  }

  /** The prefix before the first occurrence, and the part after it. */
  lemma FindSplit(a: string, c: char, b: string)
    requires c !in a
    ensures Find(a + [c] + b, c) == Some(|a|)
    decreases |a|
  {
    var s := a + [c] + b;
    if a != [] {
      assert s[1..] == a[1..] + [c] + b;
      FindSplit(a[1..], c, b);
    }
  }

  lemma DigitsHaveNo(s: string, c: char)
    requires AllDigits(s) && !IsDigit(c)
    ensures c !in s
  {
  }

  /** `\d+(\.\d{1,2})?` accepts exactly a digit run, optionally followed by '.' and one or two digits. */
  lemma Decimal2Complete(a: string, b: string)
    requires Digits1(a) && AllDigits(b) && 1 <= |b| <= 2
    ensures Matches(Decimal2, a)
    ensures Matches(Decimal2, a + "." + b)
  {
    DigitsHaveNo(a, '.');
    FindSplit(a, '.', b);
    var s := a + "." + b;
    assert s[..|a|] == a && s[|a| + 1..] == b;
  }

  lemma Decimal2Sound(s: string)
    requires Matches(Decimal2, s)
    ensures Digits1(s) || exists i :: 0 < i < |s| && s[i] == '.' && Digits1(s[..i]) && AllDigits(s[i + 1..]) && 1 <= |s| - i - 1 <= 2
  {
  }

  // Digit grouping with commas, as base prices are expected to be written.

  /** n written with a comma between every group of three digits. */
  function GroupDigits(n: nat): (r: string)
    ensures |r| > 0
    decreases n
  {
    if n < 1000 then NatToString(n)
    else GroupDigits(n / 1000) + "," + [DigitChar(n % 1000 / 100), DigitChar(n % 100 / 10), DigitChar(n % 10)]
  }

  lemma {:induction false} GroupDigitsGrouped(n: nat)
    ensures Grouped(GroupDigits(n))
    ensures '.' !in GroupDigits(n)
    decreases n
  {
    if n < 1000 {
      var s := NatToString(n);
      assert |s| <= 3 by { SmallNatLength(n); }
      DigitsHaveNo(s, '.');
    } else {
      GroupDigitsGrouped(n / 1000);
      var p := GroupDigits(n / 1000);
      var s := GroupDigits(n);
      var g := [DigitChar(n % 1000 / 100), DigitChar(n % 100 / 10), DigitChar(n % 10)];
      assert s == p + "," + g;
      assert s[..|s| - 4] == p;
      assert s[|s| - 3..] == g;
      assert s[|s| - 4] == ',';
    }
  }

  lemma SmallNatLength(n: nat)
    requires n < 1000
    ensures |NatToString(n)| <= 3
  {
    if n >= 10 {
      SmallNatLength(n / 10);
    }
  }

  /** Every amount written with grouping commas, with or without cents, passes the base-price pattern. */
  lemma GroupedAmountComplete(n: nat, cents: string)
    requires AllDigits(cents) && 1 <= |cents| <= 2
    ensures Matches(GroupedAmount, GroupDigits(n))
    ensures Matches(GroupedAmount, GroupDigits(n) + "." + cents)
  {
    GroupDigitsGrouped(n);
    var g := GroupDigits(n);
    assert Find(g, '.') == None;
    FindSplit(g, '.', cents);
    var s := g + "." + cents;
    assert Find(s, '.') == Some(|g|);
    assert s[..|g|] == g && s[|g| + 1..] == cents;
  }

  /** A plain number of four or more digits such as "1000" is rejected by the base-price pattern. */
  lemma UngroupedThousandRejected(s: string)
    requires |s| >= 4 && AllDigits(s)
    ensures !Matches(GroupedAmount, s)
  {
    DigitsHaveNo(s, '.');
    assert !IsDigit(',');
  }

  lemma GroupedAmountExamples()
    ensures !Matches(GroupedAmount, "1000")
    ensures Matches(GroupedAmount, "1,000.50")
  {
    UngroupedThousandRejected("1000");
    ThousandGrouped();
    GroupedAmountComplete(1000, "50");
    assert GroupDigits(1000) + "." + "50" == "1,000.50";
  }

  lemma ThousandGrouped()
    ensures GroupDigits(1000) == "1,000"
  {
    assert GroupDigits(1) == "1" by { assert NatToString(1) == "1"; }
    assert [DigitChar(0), DigitChar(0), DigitChar(0)] == "000";
  }

  // Temperatures.

  /** A number, signed or not, bare or followed by a unit letter with at most one white-space character before it, is a temperature. */
  lemma TemperatureComplete(d: string, unit: char)
    requires Digits1(d) && IsUnit(unit)
    ensures Matches(Temperature, d)
    ensures Matches(Temperature, d + [unit])
    ensures Matches(Temperature, "-" + d + [unit])
    ensures Matches(Temperature, d + " " + [unit])
  {
    DigitsTemperature(d);
    UnitTemperature(d, unit);
    NegativeTemperature(d, unit);
    SpacedTemperature(d, unit);
  }

  lemma DigitsDecimal(d: string)
    requires Digits1(d)
    ensures DecimalMatch(d) && !IsUnit(d[|d| - 1]) && !IsSpace(d[|d| - 1]) && d[0] != '-'
  {
    DigitsHaveNo(d, '.');
    assert IsDigit(d[|d| - 1]) && IsDigit(d[0]);
  }

  lemma DigitsTemperature(d: string)
    requires Digits1(d)
    ensures Matches(Temperature, d)
  {
    DigitsDecimal(d);
  }

  lemma UnitTemperature(d: string, unit: char)
    requires Digits1(d) && IsUnit(unit)
    ensures Matches(Temperature, d + [unit])
  {
    DigitsDecimal(d);
    var t := d + [unit];
    assert t[..|t| - 1] == d;
  }

  lemma NegativeTemperature(d: string, unit: char)
    requires Digits1(d) && IsUnit(unit)
    ensures Matches(Temperature, "-" + d + [unit])
  {
    DigitsDecimal(d);
    var t := "-" + d + [unit];
    var a := "-" + d;
    assert t[..|t| - 1] == a && a[|a| - 1] == d[|d| - 1];
    assert a[0] == '-' && a[1..] == d;
  }

  lemma SpacedTemperature(d: string, unit: char)
    requires Digits1(d) && IsUnit(unit)
    ensures Matches(Temperature, d + " " + [unit])
  {
    DigitsDecimal(d);
    var u := d + " " + [unit];
    var b := d + " ";
    assert u[..|u| - 1] == b && IsSpace(b[|b| - 1]);
    assert b[..|b| - 1] == d;
  }

  /** A degree sign followed by a unit letter is more than the pattern allows: "5°C" is rejected. */
  lemma DegreeAndLetterRejected()
    ensures !Matches(Temperature, "5°C")
  {
    var a := "5°C"[..2];
    assert a == "5°";
    assert !IsSpace('°');
    assert Find(a, '.') == None;
  }

  lemma TemperatureExamples()
    ensures Matches(Temperature, "5°")
    ensures Matches(Temperature, "-10F")
  {
    UnitTemperature("5", '°');
    assert "5" + ['°'] == "5°";
    NegativeTemperature("10", 'F');
    assert "-" + "10" + ['F'] == "-10F";
  }

  lemma DayMonthYearExamples()
    ensures Matches(DayMonthYear, "24-12-2024")
    ensures !Matches(DayMonthYear, "2024-12-24")
  {
  }

  lemma DimensionsExamples()
    ensures Matches(Dimensions, "10x20x30")
    ensures !Matches(Dimensions, "10x20")
  {
    assert Find("10x20x30", 'x') == Some(2);
    assert "10x20x30"[3..] == "20x30";
    assert Find("20x30", 'x') == Some(2);
    assert "10x20"[3..] == "20";
    assert Find("20", 'x') == None;
  }
}
