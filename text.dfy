/**
 * The parts of the Java library that the quiz core relies on, over ASCII:
 * String.equalsIgnoreCase, Boolean.parseBoolean, String.trim,
 * Integer.parseInt and Integer.toString (for non-negative values).
 */
module JavaText {
  import opened Wrappers

  // ---------------------------------------------------------------------
  // Case-insensitive comparison
  // ---------------------------------------------------------------------

  /** Character.toUpperCase restricted to ASCII letters. */
  function UpperChar(c: char): char
  {
    if 'a' <= c <= 'z' then (c as int - 32) as char else c
  }

  function Upper(s: string): (r: string)
    ensures |r| == |s|
    ensures forall i :: 0 <= i < |s| ==> r[i] == UpperChar(s[i])
  {
    seq(|s|, i requires 0 <= i < |s| => UpperChar(s[i]))
  }

  /** One step of String.regionMatches(ignoreCase = true): equal, or equal after upper-casing. */
  predicate SameIgnoringCase(a: char, b: char)
  {
    a == b || UpperChar(a) == UpperChar(b)
  }

  /**
   * String.equalsIgnoreCase on a non-null argument: same length, and the
   * characters agree pairwise ignoring case, compared left to right.
   */
  function EqualsIgnoreCase(a: string, b: string): (r: bool)
    ensures r ==> |a| == |b|
    ensures a == b ==> r
    decreases |a|
  {
    |a| == |b| && (|a| == 0 || (SameIgnoringCase(a[0], b[0]) && EqualsIgnoreCase(a[1..], b[1..])))
  }

  /** The character-by-character comparison is exactly equality of the upper-cased strings. */
  lemma {:induction false} EqualsIgnoreCaseIffUpper(a: string, b: string)
    ensures EqualsIgnoreCase(a, b) <==> Upper(a) == Upper(b)
    decreases |a|
  {
    if |a| == |b| && |a| > 0 {
      EqualsIgnoreCaseIffUpper(a[1..], b[1..]);
      assert Upper(a)[1..] == Upper(a[1..]);
      assert Upper(b)[1..] == Upper(b[1..]);
      if Upper(a) != Upper(b) && Upper(a)[0] == Upper(b)[0] {
        assert Upper(a) == [Upper(a)[0]] + Upper(a)[1..];
        assert Upper(b) == [Upper(b)[0]] + Upper(b)[1..];
      }
    }
  }

  /** equalsIgnoreCase is an equivalence relation. */
  lemma EqualsIgnoreCaseIsEquivalence(a: string, b: string, c: string)
    ensures EqualsIgnoreCase(a, a)
    ensures EqualsIgnoreCase(a, b) ==> EqualsIgnoreCase(b, a)
    ensures EqualsIgnoreCase(a, b) && EqualsIgnoreCase(b, c) ==> EqualsIgnoreCase(a, c)
  {
    EqualsIgnoreCaseIffUpper(a, a);
    EqualsIgnoreCaseIffUpper(a, b);
    EqualsIgnoreCaseIffUpper(b, a);
    EqualsIgnoreCaseIffUpper(b, c);
    EqualsIgnoreCaseIffUpper(a, c);
  }

  /**
   * Boolean.parseBoolean: true exactly for a non-null string that equals
   * "true" ignoring case; null and every other string parse as false.
   */
  function ParseBoolean(s: Option<string>): (r: bool)
    ensures r <==> s.Some? && Upper(s.value) == "TRUE"
  {
    if s.Some? then
      EqualsIgnoreCaseIffUpper(s.value, "true");
      assert Upper("true") == "TRUE";
      EqualsIgnoreCase(s.value, "true")
    else
      false
  }

  // ---------------------------------------------------------------------
  // String.trim
  // ---------------------------------------------------------------------

  /** String.trim removes every leading and trailing character up to U+0020. */
  predicate IsTrimSpace(c: char)
  {
    c <= ' '
  }

  function TrimStart(s: string): (r: string)
    ensures |r| <= |s| && r == s[|s| - |r|..]
    ensures r != [] ==> !IsTrimSpace(r[0])
    ensures forall i :: 0 <= i < |s| - |r| ==> IsTrimSpace(s[i])
  {
    if s != [] && IsTrimSpace(s[0]) then TrimStart(s[1..]) else s
  }

  function TrimEnd(s: string): (r: string)
    ensures |r| <= |s| && r == s[..|r|]
    ensures r != [] ==> !IsTrimSpace(r[|r| - 1])
    ensures forall i :: |r| <= i < |s| ==> IsTrimSpace(s[i])
  {
    if s != [] && IsTrimSpace(s[|s| - 1]) then TrimEnd(s[..|s| - 1]) else s
  }

  function Trim(s: string): (r: string)
    ensures |r| <= |s|
    ensures r != [] ==> !IsTrimSpace(r[0]) && !IsTrimSpace(r[|r| - 1])
    ensures (forall i :: 0 <= i < |s| ==> IsTrimSpace(s[i])) ==> r == []
  {
    TrimEnd(TrimStart(s))
  }

  /** A string that neither starts nor ends with a trimmed character is left as it is. */
  lemma TrimKeeps(s: string)
    requires s != [] && !IsTrimSpace(s[0]) && !IsTrimSpace(s[|s| - 1])
    ensures Trim(s) == s
  {
  }

  // ---------------------------------------------------------------------
  // Decimal integers: Integer.toString and Integer.parseInt
  // ---------------------------------------------------------------------

  const IntMin: int := -0x8000_0000
  const IntMax: int := 0x7fff_ffff

  predicate IsDigit(c: char)
  {
    '0' <= c <= '9'
  }

  predicate AllDigits(s: string)
  {
    forall i :: 0 <= i < |s| ==> IsDigit(s[i])
  }

  /** The value of a string of decimal digits, most significant first. */
  function DigitsValue(s: string): (v: nat)
    requires AllDigits(s)
  {
    if s == [] then 0 else DigitsValue(s[..|s| - 1]) * 10 + (s[|s| - 1] as int - '0' as int)
  }

  /** Integer.toString for a non-negative value: no sign, no leading zeros. */
  function DecimalString(n: nat): (s: string)
    ensures s != [] && AllDigits(s)
    ensures |s| > 1 ==> s[0] != '0'
  {
    if n < 10 then [('0' as int + n) as char]
    else DecimalString(n / 10) + [('0' as int + n % 10) as char]
  }

  /**
   * Integer.parseInt(s, 10) on ASCII: an optional '+' or '-', then at least
   * one digit, and a value inside the 32-bit range; anything else is a
   * NumberFormatException, here None.
   */
  function ParseInt(s: string): (r: Option<int>)
    ensures r.Some? ==> IntMin <= r.value <= IntMax
    ensures r.Some? ==> s != [] && (AllDigits(s) || (|s| > 1 && (s[0] == '-' || s[0] == '+') && AllDigits(s[1..])))
    ensures s != [] && AllDigits(s) && DigitsValue(s) <= IntMax ==> r == Some(DigitsValue(s))
  {
    if s == [] then None
    else if s[0] == '-' || s[0] == '+' then
      if |s| == 1 || !AllDigits(s[1..]) then None
      else
        var v: int := if s[0] == '-' then 0 - DigitsValue(s[1..]) else DigitsValue(s[1..]);
        if IntMin <= v <= IntMax then Some(v) else None
    else if AllDigits(s) && DigitsValue(s) <= IntMax then Some(DigitsValue(s))
    else None
  }

  lemma {:induction false} DigitsValueOfDecimalString(n: nat)
    ensures DigitsValue(DecimalString(n)) == n
  {
    if n >= 10 {
      DigitsValueOfDecimalString(n / 10);
      var s := DecimalString(n);
      assert s[..|s| - 1] == DecimalString(n / 10);
    }
  }

  /** Integer.parseInt(Integer.toString(n).trim()) == n for every non-negative int. */
  lemma {:induction false} ParseDecimalString(n: nat)
    requires n <= IntMax
    ensures ParseInt(Trim(DecimalString(n))) == Some(n)
  {
    var s := DecimalString(n);
    TrimKeeps(s);
    DigitsValueOfDecimalString(n);
  }
}
