/**
 * The four input validators of the conversation. Each one strips the text
 * and then matches one regular expression against the whole of it:
 *   text      ^[A-Za-zА-Яа-я\s-]+$
 *   number    ^\d+(\.\d+)?$
 *   currency  ^[A-Za-z]{3,5}$
 *   phone     ^\+?\d{7,15}$
 */
module Validators {
  import opened PyText

  /** One character of the class `[A-Za-zА-Яа-я\s-]`. */
  predicate IsTextChar(c: char) {
    IsAsciiLetter(c) || IsCyrillicRange(c) || IsSpace(c) || c == '-'
  }

  predicate IsValidText(text: string) {
    var s := Strip(text);
    |s| > 0 && forall i :: 0 <= i < |s| ==> IsTextChar(s[i])
  }

  /** The number of digits `s` starts with. */
  function LeadingDigits(s: string): (k: nat)
    ensures k <= |s| && AllDigits(s[..k])
    ensures k < |s| ==> !IsDigit(s[k])
  {
    if |s| > 0 && IsDigit(s[0]) then
      var k := 1 + LeadingDigits(s[1..]);
      assert s[..k] == [s[0]] + s[1..][..k - 1];
      k
    else 0
  }

  predicate IsValidNumber(text: string) {
    var s := Strip(text);
    var k := LeadingDigits(s);
    k > 0 && (k == |s| || (s[k] == '.' && k + 1 < |s| && AllDigits(s[k + 1..])))
  }

  predicate IsValidCurrency(text: string) {
    var s := Strip(text);
    3 <= |s| <= 5 && forall i :: 0 <= i < |s| ==> IsAsciiLetter(s[i])
  }

  /** The digits that follow the optional leading `+`. */
  function PhoneDigits(s: string): string {
    if |s| > 0 && s[0] == '+' then s[1..] else s
  }

  predicate IsValidPhone(text: string) {
    var d := PhoneDigits(Strip(text));
    7 <= |d| <= 15 && AllDigits(d)
  }

  /** Python `float(text)` on text the number validator accepted. */
  function ParseNumber(text: string): (r: real)
    requires IsValidNumber(text)
    ensures r >= 0.0
  {
    var s := Strip(text);
    var k := LeadingDigits(s);
    if k == |s| then DecimalValue(s, "") else DecimalValue(s[..k], s[k + 1..])
  }

  // ---------------------------------------------------------------------
  // Properties
  // ---------------------------------------------------------------------

  /** Every validator strips first, so re-stripping the text changes no verdict. */
  lemma ValidatorsIgnoreStrip(text: string)
    ensures IsValidText(Strip(text)) == IsValidText(text)
    ensures IsValidNumber(Strip(text)) == IsValidNumber(text)
    ensures IsValidCurrency(Strip(text)) == IsValidCurrency(text)
    ensures IsValidPhone(Strip(text)) == IsValidPhone(text)
  {
    StripIdempotent(text);
  }

  /** A digit anywhere in the input makes the text validator reject it (the
      country and name fields allow no digits). */
  lemma TextRejectsDigits(text: string, i: nat)
    requires i < |text| && IsDigit(text[i])
    ensures !IsValidText(text)
  {
    var a, b := StripIsTrimmedSlice(text);
    assert a <= i < b;
    assert Strip(text)[i - a] == text[i];
  }

  /** Blank input (empty or only whitespace) is rejected as text. */
  lemma TextRejectsBlank(text: string)
    requires forall i :: 0 <= i < |text| ==> IsSpace(text[i])
    ensures !IsValidText(text)
  {
    var a, b := StripIsTrimmedSlice(text);
  }

  /** `Ё` and `ё` lie outside the ranges `А-Я` and `а-я`: either letter
      anywhere in the input makes the text validator reject it. */
  lemma TextRejectsYo(text: string, i: nat)
    requires i < |text| && (text[i] == 'Ё' || text[i] == 'ё')
    ensures !IsValidText(text)
  {
    var a, b := StripIsTrimmedSlice(text);
    assert a <= i < b;
    assert Strip(text)[i - a] == text[i];
  }

  /** Any non-empty run of ASCII letters, Cyrillic letters, whitespace and
      hyphens with no whitespace at either end passes the text validator. */
  lemma TextAcceptsWords(s: string)
    requires |s| > 0 && (forall i :: 0 <= i < |s| ==> IsTextChar(s[i]))
    requires !IsSpace(s[0]) && !IsSpace(s[|s| - 1])
    ensures IsValidText(s) && Strip(s) == s
  {
    StripLeftOfStripped(s);
  }

  /** The number validator accepts exactly `digits` and `digits.digits`:
      every accepted input has one of those two shapes... */
  lemma NumberShape(text: string)
    requires IsValidNumber(text)
    ensures var s := Strip(text);
      (|s| > 0 && AllDigits(s)) ||
      (exists k :: 0 < k < |s| - 1 && s[k] == '.' && AllDigits(s[..k]) && AllDigits(s[k + 1..]))
  {
    var s := Strip(text);
    var k := LeadingDigits(s);
    if k == |s| {
      assert s[..k] == s;
    } else {
      assert 0 < k < |s| - 1 && s[k] == '.' && AllDigits(s[..k]) && AllDigits(s[k + 1..]);
    }
  }

  lemma {:induction false} LeadingDigitsOfDigits(a: string, rest: string)
    requires AllDigits(a)
    requires rest == [] || !IsDigit(rest[0])
    ensures LeadingDigits(a + rest) == |a|
    decreases |a|
  {
    if |a| > 0 {
      assert (a + rest)[1..] == a[1..] + rest;
      LeadingDigitsOfDigits(a[1..], rest);
    } else {
      assert a + rest == rest;
    }
  }

  /** A string that neither starts nor ends with whitespace strips to itself. */
  lemma StripOfTrimmed(s: string)
    requires |s| > 0 && !IsSpace(s[0]) && !IsSpace(s[|s| - 1])
    ensures Strip(s) == s
  {
    StripLeftOfStripped(s);
  }

  /** ...and accepts both shapes, reading them as their decimal value. */
  lemma NumberAcceptsInteger(a: string)
    requires |a| > 0 && AllDigits(a)
    ensures IsValidNumber(a) && ParseNumber(a) == DigitsValue(a) as real
  {
    StripOfTrimmed(a);
    assert a + [] == a;
    LeadingDigitsOfDigits(a, []);
    assert LeadingDigits(Strip(a)) == |a|;
    assert DigitsValue([]) == 0 && Pow10(0) == 1;
  }

  lemma FractionParts(a: string, b: string)
    requires |a| > 0 && |b| > 0 && AllDigits(a) && AllDigits(b)
    ensures var s := a + "." + b;
      Strip(s) == s && LeadingDigits(s) == |a| && s[|a|] == '.' && s[..|a|] == a && s[|a| + 1..] == b
  {
    var s := a + "." + b;
    assert s[0] == a[0] && s[|s| - 1] == b[|b| - 1];
    StripOfTrimmed(s);
    assert s == a + ("." + b);
    LeadingDigitsOfDigits(a, "." + b);
  }

  lemma NumberAcceptsFraction(a: string, b: string)
    requires |a| > 0 && |b| > 0 && AllDigits(a) && AllDigits(b)
    ensures IsValidNumber(a + "." + b)
    ensures ParseNumber(a + "." + b) == DigitsValue(a) as real + DigitsValue(b) as real / Pow10(|b|) as real
  {
    FractionParts(a, b);
  }

  /** `float(str(n)) == n` for the amounts the bot stores as text. */
  lemma NumberOfNatString(n: nat)
    ensures IsValidNumber(NatToString(n)) && ParseNumber(NatToString(n)) == n as real
  {
    NumberAcceptsInteger(NatToString(n));
    NatToStringValue(n);
  }

  /** The currency validator accepts a string iff, once stripped, it is three
      to five ASCII letters; such a string is also valid text. */
  lemma CurrencyIsText(text: string)
    requires IsValidCurrency(text)
    ensures IsValidText(text)
  {
  }

  /** The phone validator accepts exactly: an optional '+', then 7 to 15 digits. */
  lemma PhoneShape(text: string)
    ensures IsValidPhone(text) <==>
      var s := Strip(text);
      (7 <= |s| <= 15 && AllDigits(s)) ||
      (8 <= |s| <= 16 && s[0] == '+' && AllDigits(s[1..]))
  {
    var s := Strip(text);
    if |s| > 0 && s[0] == '+' {
      assert !IsDigit(s[0]);
    }
  }

  /** A number, and a phone number without '+', can never pass as text;
      a digits-only phone number is also a valid amount. */
  lemma ValidatorsDisjoint(text: string)
    ensures !(IsValidText(text) && IsValidNumber(text))
    ensures !(IsValidText(text) && IsValidPhone(text))
  {
    var s := Strip(text);
    if IsValidNumber(text) {
      assert IsDigit(s[0]);
    }
    if IsValidPhone(text) {
      var d := PhoneDigits(s);
      assert IsDigit(d[0]);
      assert d[0] == s[0] || d[0] == s[1];
    }
  }

  lemma PhoneWithoutPlusIsNumber(text: string)
    requires IsValidPhone(text) && Strip(text)[0] != '+'
    ensures IsValidNumber(text)
  {
    var s := Strip(text);
    StripIdempotent(text);
    NumberAcceptsInteger(s);
  }
}
