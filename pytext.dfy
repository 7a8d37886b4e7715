/**
 * The Python string built-ins the bot's handlers rely on: `str.strip`,
 * `str.lower`, `str.upper`, the substring test `w in s`, `str.replace`,
 * `int(str)`, `float(str)` on a plain decimal, and `str(n)`.
 *
 * Whitespace is exactly the set of characters for which Python's
 * `str.isspace()` holds (the same set `re`'s `\s` matches in a `str`
 * pattern). Letter case mapping covers ASCII and the basic Cyrillic block,
 * which is all the bot's keywords and buttons use.
 */
module PyText {
  import opened Wrappers

  // ---------------------------------------------------------------------
  // Character classes
  // ---------------------------------------------------------------------

  /** Python `str.isspace()` for one character. */
  predicate IsSpace(c: char) {
    ('\U{0009}' <= c <= '\U{000D}') || ('\U{001C}' <= c <= '\U{001F}') || c == ' ' ||
    c == '\U{0085}' || c == '\U{00A0}' || c == '\U{1680}' || ('\U{2000}' <= c <= '\U{200A}') ||
    c == '\U{2028}' || c == '\U{2029}' || c == '\U{202F}' || c == '\U{205F}' || c == '\U{3000}'
  }

  predicate IsDigit(c: char) { '0' <= c <= '9' }

  predicate IsAsciiLetter(c: char) { ('A' <= c <= 'Z') || ('a' <= c <= 'z') }

  /** The regex ranges `А-Я` and `а-я`: U+0410..U+044F, which leaves out Ё and ё. */
  predicate IsCyrillicRange(c: char) { ('А' <= c <= 'Я') || ('а' <= c <= 'я') }

  predicate AllDigits(s: string) { forall i :: 0 <= i < |s| ==> IsDigit(s[i]) }

  function DigitValue(c: char): (d: nat)
    requires IsDigit(c)
    ensures d < 10
  {
    (c as int - '0' as int) as nat
  }

  function DigitChar(d: nat): (c: char)
    requires d < 10
    ensures IsDigit(c) && DigitValue(c) == d
  {
    ('0' as int + d) as char
  }

  // ---------------------------------------------------------------------
  // strip
  // ---------------------------------------------------------------------

  function StripLeft(s: string): string {
    if |s| > 0 && IsSpace(s[0]) then StripLeft(s[1..]) else s
  }

  function StripRight(s: string): string {
    if |s| > 0 && IsSpace(s[|s| - 1]) then StripRight(s[..|s| - 1]) else s
  }

  /** `lstrip` returns a suffix, cut only whitespace, and leaves no leading
      whitespace. (Kept as a lemma rather than on the function, so that the
      handlers unfolding `Strip` do not pay for it.) */
  lemma {:induction false} StripLeftShape(s: string)
    ensures var r := StripLeft(s);
      |r| <= |s| && r == s[|s| - |r|..] &&
      (r != [] ==> !IsSpace(r[0])) &&
      (forall i :: 0 <= i < |s| - |r| ==> IsSpace(s[i]))
  {
    if |s| > 0 && IsSpace(s[0]) {
      StripLeftShape(s[1..]);
    }
  }

  /** `rstrip` returns a prefix, cut only whitespace, and leaves no trailing
      whitespace. */
  lemma {:induction false} StripRightShape(s: string)
    ensures var r := StripRight(s);
      |r| <= |s| && r == s[..|r|] &&
      (r != [] ==> !IsSpace(r[|r| - 1])) &&
      (forall i :: |r| <= i < |s| ==> IsSpace(s[i]))
  {
    if |s| > 0 && IsSpace(s[|s| - 1]) {
      StripRightShape(s[..|s| - 1]);
    }
  }

  /** Python `s.strip()`: drops leading and trailing whitespace. */
  function Strip(s: string): string {
    StripRight(StripLeft(s))
  }

  /** What `strip` promises: the result is the slice `s[i..j]`, only
      whitespace was cut away on either side, and the result neither starts
      nor ends with whitespace. */
  lemma StripIsTrimmedSlice(s: string) returns (i: nat, j: nat)
    ensures i <= j <= |s| && Strip(s) == s[i..j]
    ensures forall k :: 0 <= k < i ==> IsSpace(s[k])
    ensures forall k :: j <= k < |s| ==> IsSpace(s[k])
    ensures Strip(s) != [] ==> !IsSpace(Strip(s)[0]) && !IsSpace(Strip(s)[|Strip(s)| - 1])
  {
    var l := StripLeft(s);
    StripLeftShape(s);
    i := |s| - |l|;
    var r := StripRight(l);
    StripRightShape(l);
    j := i + |r|;
    assert r == s[i..j];
    forall k | j <= k < |s| ensures IsSpace(s[k]) {
      assert s[k] == l[k - i];
    }
  }

  lemma {:induction false} StripLeftOfStripped(s: string)
    requires s == [] || !IsSpace(s[0])
    ensures StripLeft(s) == s
  {
  }

  /** Stripping twice is stripping once: the handlers strip the text and the
      validators strip it again, and the second strip changes nothing. */
  lemma StripIdempotent(s: string)
    ensures Strip(Strip(s)) == Strip(s)
  {
    var t := Strip(s);
    var _, _ := StripIsTrimmedSlice(s);
    StripLeftOfStripped(t);
    if t != [] {
      assert !IsSpace(t[|t| - 1]);
    }
  }

  // ---------------------------------------------------------------------
  // lower / upper
  // ---------------------------------------------------------------------

  function LowerChar(c: char): char {
    if 'A' <= c <= 'Z' then (c as int + 32) as char
    else if 'А' <= c <= 'Я' then (c as int + 32) as char
    else if 'Ѐ' <= c <= 'Џ' then (c as int + 80) as char
    else c
  }

  function UpperChar(c: char): char {
    if 'a' <= c <= 'z' then (c as int - 32) as char
    else if 'а' <= c <= 'я' then (c as int - 32) as char
    else if 'ѐ' <= c <= 'џ' then (c as int - 80) as char
    else c
  }

  /** Python `s.lower()`, character by character. */
  function Lower(s: string): (r: string)
    ensures |r| == |s|
  {
    seq(|s|, i requires 0 <= i < |s| => LowerChar(s[i]))
  }

  /** Python `s.upper()`, character by character. */
  function Upper(s: string): (r: string)
    ensures |r| == |s|
  {
    seq(|s|, i requires 0 <= i < |s| => UpperChar(s[i]))
  }

  /** Case mapping never turns whitespace into something else or back. */
  lemma CaseKeepsSpaces(c: char)
    ensures IsSpace(LowerChar(c)) <==> IsSpace(c)
    ensures IsSpace(UpperChar(c)) <==> IsSpace(c)
  {
  }

  lemma {:induction false} StripLeftLower(s: string)
    ensures StripLeft(Lower(s)) == Lower(StripLeft(s))
    decreases |s|
  {
    if |s| > 0 {
      CaseKeepsSpaces(s[0]);
      if IsSpace(s[0]) {
        assert Lower(s)[1..] == Lower(s[1..]);
        StripLeftLower(s[1..]);
      }
    }
  }

  lemma {:induction false} StripRightLower(s: string)
    ensures StripRight(Lower(s)) == Lower(StripRight(s))
    decreases |s|
  {
    if |s| > 0 {
      CaseKeepsSpaces(s[|s| - 1]);
      if IsSpace(s[|s| - 1]) {
        assert Lower(s)[..|s| - 1] == Lower(s[..|s| - 1]);
        StripRightLower(s[..|s| - 1]);
      }
    }
  }

  lemma {:induction false} StripLeftUpper(s: string)
    ensures StripLeft(Upper(s)) == Upper(StripLeft(s))
    decreases |s|
  {
    if |s| > 0 {
      CaseKeepsSpaces(s[0]);
      if IsSpace(s[0]) {
        assert Upper(s)[1..] == Upper(s[1..]);
        StripLeftUpper(s[1..]);
      }
    }
  }

  lemma {:induction false} StripRightUpper(s: string)
    ensures StripRight(Upper(s)) == Upper(StripRight(s))
    decreases |s|
  {
    if |s| > 0 {
      CaseKeepsSpaces(s[|s| - 1]);
      if IsSpace(s[|s| - 1]) {
        assert Upper(s)[..|s| - 1] == Upper(s[..|s| - 1]);
        StripRightUpper(s[..|s| - 1]);
      }
    }
  }

  /** `text.lower().strip()` and `text.strip().lower()` agree, and so do the
      two orders with `upper`: the handlers' different orders of stripping
      and case mapping give the same string. */
  lemma StripCommutesWithCase(s: string)
    ensures Strip(Lower(s)) == Lower(Strip(s))
    ensures Strip(Upper(s)) == Upper(Strip(s))
  {
    StripLeftLower(s);
    StripRightLower(StripLeft(s));
    StripLeftUpper(s);
    StripRightUpper(StripLeft(s));
  }

  // ---------------------------------------------------------------------
  // substring test and replace
  // ---------------------------------------------------------------------

  predicate IsPrefix(w: string, s: string) {
    |w| <= |s| && s[..|w|] == w
  }

  /** Python `w in s` for strings. */
  predicate Contains(s: string, w: string)
    decreases |s|
  {
    IsPrefix(w, s) || (|s| > 0 && Contains(s[1..], w))
  }

  /** `Contains` means an occurrence at some position. */
  lemma {:induction false} ContainsAt(s: string, w: string)
    ensures Contains(s, w) <==> exists i {:trigger s[i..]} :: 0 <= i <= |s| - |w| && s[i..][..|w|] == w
  {
    if IsPrefix(w, s) {
      assert s[0..] == s;
    } else if |s| > 0 {
      ContainsAt(s[1..], w);
      if Contains(s[1..], w) {
        var i :| 0 <= i <= |s[1..]| - |w| && s[1..][i..][..|w|] == w;
        assert s[i + 1..] == s[1..][i..];
      }
      if exists i {:trigger s[i..]} :: 0 <= i <= |s| - |w| && s[i..][..|w|] == w {
        var i :| 0 <= i <= |s| - |w| && s[i..][..|w|] == w;
        assert i != 0;
        assert s[1..][i - 1..] == s[i..];
      }
    }
  }

  /** A word holding a character the text lacks cannot occur in the text. */
  lemma {:induction false} NotContainsMissingChar(s: string, w: string, c: char)
    requires c in w && c !in s
    ensures !Contains(s, w)
    decreases |s|
  {
    if |s| > 0 {
      NotContainsMissingChar(s[1..], w, c);
    }
  }

  /** An occurrence at a known position is an occurrence. */
  lemma {:induction false} ContainsFromSlice(s: string, w: string, i: nat)
    requires i + |w| <= |s| && s[i..i + |w|] == w
    ensures Contains(s, w)
    decreases i
  {
    if i == 0 {
      assert s[..|w|] == w;
    } else {
      assert s[1..][i - 1..i - 1 + |w|] == s[i..i + |w|];
      ContainsFromSlice(s[1..], w, i - 1);
    }
  }

  /** Python `s.replace(pat, "")` for a non-empty `pat`: every occurrence,
      scanning left to right without overlaps, is removed. */
  function RemoveAll(s: string, pat: string): (r: string)
    requires pat != []
    ensures |r| <= |s|
    decreases |s|
  {
    if |s| == 0 then []
    else if IsPrefix(pat, s) then RemoveAll(s[|pat|..], pat)
    else [s[0]] + RemoveAll(s[1..], pat)
  }

  /** A string free of `pat` is left alone, and a suffix `pat` after such a
      string is cut off exactly. */
  lemma {:induction false} RemoveAllAbsent(s: string, pat: string)
    requires pat != [] && !Contains(s, pat)
    ensures RemoveAll(s, pat) == s
    decreases |s|
  {
    if |s| > 0 {
      RemoveAllAbsent(s[1..], pat);
    }
  }

  // ---------------------------------------------------------------------
  // numbers: str(n), int(s), float(s)
  // ---------------------------------------------------------------------

  /** The value of a run of decimal digits, read left to right. */
  function DigitsValue(s: string): nat
    requires AllDigits(s)
  {
    if s == [] then 0 else DigitsValue(s[..|s| - 1]) * 10 + DigitValue(s[|s| - 1])
  }

  function Pow10(n: nat): (p: nat)
    ensures p >= 1
  {
    if n == 0 then 1 else 10 * Pow10(n - 1)
  }

  /** Python `str(n)` for a non-negative integer. */
  function NatToString(n: nat): (s: string)
    ensures |s| >= 1 && AllDigits(s)
  {
    if n < 10 then [DigitChar(n)] else NatToString(n / 10) + [DigitChar(n % 10)]
  }

  lemma {:induction false} NatToStringValue(n: nat)
    ensures DigitsValue(NatToString(n)) == n
  {
    var s := NatToString(n);
    if n >= 10 {
      NatToStringValue(n / 10);
      assert s[..|s| - 1] == NatToString(n / 10);
    }
  }

  /** Digits optionally separated by single underscores, as `int()` accepts
      them after the first digit; `acc` is the value read so far. */
  function ParseGroupedFrom(s: string, acc: nat): Option<nat>
    decreases |s|
  {
    if |s| == 0 then Some(acc)
    else if IsDigit(s[0]) then ParseGroupedFrom(s[1..], acc * 10 + DigitValue(s[0]))
    else if s[0] == '_' && |s| > 1 && IsDigit(s[1]) then ParseGroupedFrom(s[2..], acc * 10 + DigitValue(s[1]))
    else None
  }

  function ParseGrouped(s: string): Option<nat> {
    if |s| == 0 || !IsDigit(s[0]) then None else ParseGroupedFrom(s[1..], DigitValue(s[0]))
  }

  /** Python `int(s)` in base 10: surrounding whitespace, an optional sign,
      then digits with optional single underscores between them. `None`
      stands for the `ValueError` it raises on anything else. */
  function ParseInt(text: string): Option<int> {
    var s := Strip(text);
    if |s| > 0 && (s[0] == '+' || s[0] == '-') then
      match ParseGrouped(s[1..])
      case Some(n) => Some(if s[0] == '-' then 0 - n else n)
      case None => None
    else
      match ParseGrouped(s)
      case Some(n) => Some(n)
      case None => None
  }

  lemma ShiftDigit(d: nat, p: nat, x: nat, last: nat)
    ensures (d * p + x) * 10 + last == d * (10 * p) + (x * 10 + last)
  {
    assert (d * p) * 10 == d * (10 * p);
  }

  lemma {:induction false} DigitsValueFront(s: string)
    requires |s| >= 1 && AllDigits(s)
    ensures DigitsValue(s) == DigitValue(s[0]) * Pow10(|s| - 1) + DigitsValue(s[1..])
    decreases |s|
  {
    if |s| > 1 {
      var t, u := s[..|s| - 1], s[1..];
      var last := DigitValue(s[|s| - 1]);
      assert t[0] == s[0] && u[|u| - 1] == s[|s| - 1];
      assert t[1..] == u[..|u| - 1];
      DigitsValueFront(t);
      assert DigitsValue(s) == DigitsValue(t) * 10 + last;
      assert DigitsValue(u) == DigitsValue(t[1..]) * 10 + last;
      ShiftDigit(DigitValue(s[0]), Pow10(|t| - 1), DigitsValue(t[1..]), last);
    } else {
      assert s[..0] == [];
    }
  }

  lemma {:induction false} ParseGroupedDigits(s: string, acc: nat)
    requires AllDigits(s)
    ensures ParseGroupedFrom(s, acc) == Some(acc * Pow10(|s|) + DigitsValue(s))
    decreases |s|
  {
    if |s| > 0 {
      ParseGroupedDigits(s[1..], acc * 10 + DigitValue(s[0]));
      DigitsValueFront(s);
    }
  }

  /** `int(str(n)) == n`: the number printed in front of a list entry reads
      back as that number. */
  lemma ParseIntNatToString(n: nat)
    ensures ParseInt(NatToString(n)) == Some(n)
  {
    var s := NatToString(n);
    assert Strip(s) == s by {
      StripLeftOfStripped(s);
      assert !IsSpace(s[|s| - 1]);
    }
    assert s[0] != '+' && s[0] != '-';
    assert ParseGrouped(s) == Some(n) by {
      ParseGroupedDigits(s[1..], DigitValue(s[0]));
      DigitsValueFront(s);
      NatToStringValue(n);
    }
  }

  /** Python `float(s)` for a string of the form `\d+(\.\d+)?`, as an exact
      real number (binary rounding is not modelled). */
  function DecimalValue(intPart: string, fracPart: string): (r: real)
    requires AllDigits(intPart) && AllDigits(fracPart)
    ensures r >= 0.0
  {
    DigitsValue(intPart) as real + DigitsValue(fracPart) as real / Pow10(|fracPart|) as real
  }
}
