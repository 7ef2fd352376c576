/**
  Python's `int(text)` and `str(n)` on decimal text, as the controller uses them to read the
  CC entry fields, the channel selector and the numeric prefix of a device label, and to write a
  CC number back into its entry field.

  `int(text)` strips surrounding white space, accepts one optional sign and then a numeral:
  decimal digits, possibly with leading zeros, with single underscores allowed between digits.
  Anything else raises `ValueError`, modelled as `None`.
 */
module PyInt {
  import opened Wrappers

  /**
    The white space `int()` strips from both ends: the ASCII space and `\t` .. `\r`, and every
    character above U+007F that `str.isspace()` accepts. The separators U+001C .. U+001F count as
    white space for `str.isspace()` but not for `int()`.
   */
  predicate IsSpace(c: char) {
    c == ' ' || ('\t' <= c <= '\r') || c == '\U{85}' || c == '\U{A0}' ||
    c == '\U{1680}' || ('\U{2000}' <= c <= '\U{200A}') || c == '\U{2028}' || c == '\U{2029}' ||
    c == '\U{202F}' || c == '\U{205F}' || c == '\U{3000}'
  }

  predicate IsDigit(c: char) {
    '0' <= c <= '9'
  }

  function DigitValue(c: char): (d: nat)
    requires IsDigit(c)
    ensures d < 10
  {
    c as int - '0' as int
  }

  function DigitChar(d: nat): (c: char)
    requires d < 10
    ensures IsDigit(c) && DigitValue(c) == d
  {
    ('0' as int + d) as char
  }

  /** Drops the leading white space `int()` skips. */
  function StripLeading(s: string): string {
    if |s| > 0 && IsSpace(s[0]) then StripLeading(s[1..]) else s
  }

  /** Drops the trailing white space `int()` skips. */
  function StripTrailing(s: string): string {
    if |s| > 0 && IsSpace(s[|s| - 1]) then StripTrailing(s[..|s| - 1]) else s
  }

  /** The leading strip keeps a suffix, removes only white space, and leaves no white space in front. */
  lemma {:induction false} StripLeadingShape(s: string)
    ensures |StripLeading(s)| <= |s| && StripLeading(s) == s[|s| - |StripLeading(s)|..]
    ensures StripLeading(s) == [] || !IsSpace(StripLeading(s)[0])
    ensures forall i :: 0 <= i < |s| - |StripLeading(s)| ==> IsSpace(s[i])
  {
    if |s| > 0 && IsSpace(s[0]) {
      var rest := s[1..];
      StripLeadingShape(rest);
      var t := StripLeading(rest);
      assert StripLeading(s) == t;
      assert rest[|rest| - |t|..] == s[|s| - |t|..];
      forall i | 1 <= i < |s| - |t|
        ensures IsSpace(s[i])
      {
        assert s[i] == rest[i - 1];
      }
    }
  }

  /** The trailing strip keeps a prefix, removes only white space, and leaves no white space at the end. */
  lemma {:induction false} StripTrailingShape(s: string)
    ensures |StripTrailing(s)| <= |s| && StripTrailing(s) == s[..|StripTrailing(s)|]
    ensures StripTrailing(s) == [] || !IsSpace(StripTrailing(s)[|StripTrailing(s)| - 1])
    ensures forall i :: |StripTrailing(s)| <= i < |s| ==> IsSpace(s[i])
  {
    if |s| > 0 && IsSpace(s[|s| - 1]) {
      var rest := s[..|s| - 1];
      StripTrailingShape(rest);
      var t := StripTrailing(rest);
      assert StripTrailing(s) == t;
      assert rest[..|t|] == s[..|t|];
      forall i | |t| <= i < |s| - 1
        ensures IsSpace(s[i])
      {
        assert s[i] == rest[i];
      }
    }
  }

  /** The text `int()` reads: `s` without the white space at either end. */
  function Strip(s: string): string {
    StripTrailing(StripLeading(s))
  }

  /** Digits and underscores only: the alphabet of a numeral. */
  predicate DigitsOrUnderscores(s: string) {
    forall i :: 0 <= i < |s| ==> IsDigit(s[i]) || s[i] == '_'
  }

  /** A numeral `int()` accepts after the sign: starts and ends with a digit, no doubled underscore. */
  predicate IsNumeral(s: string) {
    |s| > 0 && IsDigit(s[0]) && IsDigit(s[|s| - 1]) && DigitsOrUnderscores(s) &&
    (forall i :: 0 < i < |s| && s[i] == '_' ==> s[i - 1] != '_')
  }

  /** The value of a numeral read left to right, skipping underscores. */
  function NumeralValue(s: string): nat
    requires DigitsOrUnderscores(s)
  {
    if s == [] then 0
    else if s[|s| - 1] == '_' then NumeralValue(s[..|s| - 1])
    else NumeralValue(s[..|s| - 1]) * 10 + DigitValue(s[|s| - 1])
  }

  /** The text `int()` reads once white space is stripped: an optional sign and a numeral. */
  predicate SignedNumeral(t: string) {
    if |t| > 0 && (t[0] == '+' || t[0] == '-') then IsNumeral(t[1..]) else IsNumeral(t)
  }

  /**
    `int(text)`; `None` where Python raises `ValueError`. Text is read exactly when, stripped of
    white space, it is a signed numeral, and the sign written is the sign of the number read.
   */
  function ParseInt(s: string): (r: Option<int>)
    ensures r.Some? <==> SignedNumeral(Strip(s))
    ensures r.Some? && Strip(s)[0] == '-' ==> r.value <= 0
    ensures r.Some? && Strip(s)[0] != '-' ==> r.value >= 0
  {
    var t := Strip(s);
    if !SignedNumeral(t) then None
    else if t[0] == '-' then Some(-(NumeralValue(t[1..]) as int))
    else if t[0] == '+' then Some(NumeralValue(t[1..]))
    else Some(NumeralValue(t))
  }

  /** `str(n)` for a non-negative integer: its decimal digits without leading zeros. */
  function NatToString(n: nat): (s: string)
    ensures |s| > 0 && forall i :: 0 <= i < |s| ==> IsDigit(s[i])
    ensures s[0] == '0' ==> n == 0
  {
    if n < 10 then [DigitChar(n)] else NatToString(n / 10) + [DigitChar(n % 10)]
  }

  /** `str(i)` for any integer: a minus sign exactly for negative numbers. */
  function IntToString(i: int): (s: string)
    ensures |s| > 0 && (s[0] == '-' <==> i < 0)
  {
    if i < 0 then "-" + NatToString(-i) else NatToString(i)
  }

  /** The digits `str` writes read back as the number they were written from. */
  lemma {:induction false} NatToStringValue(n: nat)
    ensures NumeralValue(NatToString(n)) == n
  {
    var s := NatToString(n);
    if n >= 10 {
      var prefix := NatToString(n / 10);
      assert s[..|s| - 1] == prefix;
      NatToStringValue(n / 10);
    } else {
      assert s[..|s| - 1] == [];
    }
  }

  /** Text that neither begins nor ends with white space is left alone by `Strip`. */
  lemma StripUnpadded(s: string)
    requires |s| > 0 && !IsSpace(s[0]) && !IsSpace(s[|s| - 1])
    ensures Strip(s) == s
  {
    assert StripLeading(s) == s;
    assert StripTrailing(s) == s;
  }

  /** A non-empty run of digits is a numeral. */
  lemma DigitsAreNumeral(s: string)
    requires |s| > 0 && forall i :: 0 <= i < |s| ==> IsDigit(s[i])
    ensures IsNumeral(s)
  {
  }

  /** `int(str(n)) == n` for every natural number. */
  lemma ParseNatToString(n: nat)
    ensures ParseInt(NatToString(n)) == Some(n)
  {
    var s := NatToString(n);
    StripUnpadded(s);
    DigitsAreNumeral(s);
    NatToStringValue(n);
  }

  /** `int("-" + str(n)) == -n`. */
  lemma ParseNegated(n: nat)
    ensures ParseInt("-" + NatToString(n)) == Some(-(n as int))
  {
    var digits := NatToString(n);
    var s := "-" + digits;
    assert s[0] == '-' && s[|s| - 1] == digits[|digits| - 1];
    assert s[1..] == digits;
    StripUnpadded(s);
    DigitsAreNumeral(digits);
    NatToStringValue(n);
  }

  /** `int(str(i)) == i` for every integer, negative ones included. */
  lemma ParseIntToString(i: int)
    ensures ParseInt(IntToString(i)) == Some(i)
  {
    if i < 0 {
      ParseNegated(-i);
    } else {
      ParseNatToString(i);
    }
  }

  /** `int()` of an empty or all-blank text raises `ValueError`. */
  lemma BlankIsNotANumber(s: string)
    requires forall i :: 0 <= i < |s| ==> IsSpace(s[i])
    ensures ParseInt(s) == None
  {
    StripLeadingShape(s);
    assert StripLeading(s) == [];
  }

  /** An information separator such as U+001C is not white space to `int()`: the text is rejected. */
  lemma SeparatorIsNotANumber()
    ensures ParseInt("\U{1C}5") == None
  {
    var s := "\U{1C}5";
    assert StripLeading(s) == s;
    assert StripTrailing(s) == s;
  }

  lemma SignedNumeralAlphabet(t: string, j: nat)
    requires SignedNumeral(t) && j < |t|
    ensures IsDigit(t[j]) || t[j] == '_' || t[j] == '+' || t[j] == '-'
  {
    if j > 0 && (t[0] == '+' || t[0] == '-') {
      assert t[j] == t[1..][j - 1];
    }
  }

  /**
    Whatever `int()` accepts is made only of white space, one sign, digits and underscores:
    text holding any other character is rejected.
   */
  lemma ParsedTextAlphabet(s: string, k: nat)
    requires ParseInt(s).Some? && k < |s|
    ensures IsSpace(s[k]) || IsDigit(s[k]) || s[k] == '_' || s[k] == '+' || s[k] == '-'
  {
    var lead := StripLeading(s);
    var t := StripTrailing(lead);
    StripLeadingShape(s);
    StripTrailingShape(lead);
    assert SignedNumeral(t);
    var start := |s| - |lead|;
    if start <= k < start + |t| {
      assert s[k] == t[k - start];
      SignedNumeralAlphabet(t, k - start);
    } else if start + |t| <= k {
      assert s[k] == lead[k - start];
    }
  }
}
