/**
  The Python string operations the core relies on: `str.split` on one
  character, `sep.join`, `str(int)`, `int(str)` in base 10 and
  `str.replace(pattern, "")`. Strings are sequences of characters.
*/
module Text {
  import opened Wrappers

  // ---------------------------------------------------------------------
  // split and join
  // ---------------------------------------------------------------------

  /** `sep.join(parts)`, with a one-character separator. */
  function Join(parts: seq<string>, sep: char): string
    decreases |parts|
  {
    if |parts| == 0 then ""
    else if |parts| == 1 then parts[0]
    else parts[0] + [sep] + Join(parts[1..], sep)
  }

  /**
    `s.split(sep)` for a one-character separator: always at least one part,
    the parts joined back with `sep` give `s`, and no part holds `sep`
    (so empty parts appear between adjacent separators and at the ends).
  */
  function Split(s: string, sep: char): (parts: seq<string>)
    ensures |parts| >= 1
    ensures Join(parts, sep) == s
    ensures forall i :: 0 <= i < |parts| ==> sep !in parts[i]
    decreases |s|
  {
    if |s| == 0 then [""]
    else
      var rest := Split(s[1..], sep);
      if s[0] == sep then
        assert [sep] + Join(rest, sep) == s;
        [""] + rest
      else
        var parts := [[s[0]] + rest[0]] + rest[1..];
        assert parts[1..] == rest[1..];
        assert |rest| > 1 ==> Join(rest, sep) == rest[0] + [sep] + Join(rest[1..], sep);
        assert [s[0]] + s[1..] == s;
        parts
  }

  /** A string without the separator splits into itself alone. */
  lemma {:induction false} SplitNoSeparator(s: string, sep: char)
    requires sep !in s
    ensures Split(s, sep) == [s]
    decreases |s|
  {
    if |s| > 0 {
      SplitNoSeparator(s[1..], sep);
      assert [s[0]] + s[1..] == s;
    }
  }

  /** Splitting around one separator splits each side independently. */
  lemma {:induction false} SplitConcat(a: string, sep: char, b: string)
    ensures Split(a + [sep] + b, sep) == Split(a, sep) + Split(b, sep)
    decreases |a|
  {
    var s := a + [sep] + b;
    if |a| == 0 {
      assert s == [sep] + b;
      assert s[1..] == b;
    } else {
      var a' := a[1..];
      assert s[0] == a[0];
      assert s[1..] == a' + [sep] + b;
      SplitConcat(a', sep, b);
      var r := Split(a', sep);
      var rs := Split(s[1..], sep);
      assert rs == r + Split(b, sep);
      if a[0] == sep {
        assert Split(s, sep) == [""] + rs;
        assert Split(a, sep) == [""] + r;
      } else {
        assert rs[0] == r[0];
        assert rs[1..] == r[1..] + Split(b, sep);
        assert Split(s, sep) == [[a[0]] + rs[0]] + rs[1..];
        assert Split(a, sep) == [[a[0]] + r[0]] + r[1..];
      }
    }
  }

  /** Split undoes Join whenever no part holds the separator. */
  lemma {:induction false} SplitJoin(parts: seq<string>, sep: char)
    requires |parts| >= 1
    requires forall i :: 0 <= i < |parts| ==> sep !in parts[i]
    ensures Split(Join(parts, sep), sep) == parts
    decreases |parts|
  {
    SplitNoSeparator(parts[0], sep);
    if |parts| > 1 {
      SplitJoin(parts[1..], sep);
      SplitConcat(parts[0], sep, Join(parts[1..], sep));
      assert [parts[0]] + parts[1..] == parts;
    }
  }

  // ---------------------------------------------------------------------
  // decimal digits, str(int) and int(str)
  // ---------------------------------------------------------------------

  predicate IsDigit(c: char) {
    '0' <= c <= '9'
  }

  predicate AllDigits(s: string) {
    forall i :: 0 <= i < |s| ==> IsDigit(s[i])
  }

  function DigitValue(c: char): nat
    requires IsDigit(c)
  {
    (c as int) - ('0' as int)
  }

  /** The digit character for 0..9; its value is the number it was made from. */
  function DigitChar(d: nat): (c: char)
    requires d < 10
    ensures IsDigit(c) && DigitValue(c) == d
  {
    (('0' as int) + d) as char
  }

  /** `str(n)` for a natural number: decimal, most significant digit first, no leading zero. */
  function NatToString(n: nat): (s: string)
    ensures |s| >= 1 && AllDigits(s)
    decreases n
  {
    if n < 10 then [DigitChar(n)]
    else NatToString(n / 10) + [DigitChar(n % 10)]
  }

  /** `str(i)` for an integer: a minus sign in front of a negative number's digits. */
  function IntToString(i: int): (s: string)
    ensures |s| >= 1
    ensures forall k :: 0 <= k < |s| ==> IsDigit(s[k]) || (k == 0 && s[k] == '-')
  {
    if i < 0 then "-" + NatToString(-i) else NatToString(i)
  }

  /** The number a string of decimal digits denotes; leading zeros are allowed, as `int` allows them. */
  function DigitsValue(s: string): nat
    requires AllDigits(s)
    decreases |s|
  {
    if |s| == 0 then 0
    else 10 * DigitsValue(s[..|s| - 1]) + DigitValue(s[|s| - 1])
  }

  /** Python's `str.isspace()` for one character. */
  predicate IsSpace(c: char) {
    var n := c as int;
    n == 0x20 || 0x09 <= n <= 0x0d || 0x1c <= n <= 0x1f || n == 0x85 || n == 0xa0
    || n == 0x1680 || 0x2000 <= n <= 0x200a || n == 0x2028 || n == 0x2029
    || n == 0x202f || n == 0x205f || n == 0x3000
  }

  function StripLeft(s: string): string
    decreases |s|
  {
    if |s| > 0 && IsSpace(s[0]) then StripLeft(s[1..]) else s
  }

  function StripRight(s: string): string
    decreases |s|
  {
    if |s| > 0 && IsSpace(s[|s| - 1]) then StripRight(s[..|s| - 1]) else s
  }

  /** `s.strip()`. */
  function Strip(s: string): string {
    StripRight(StripLeft(s))
  }

  /**
    Python's default limit on the digits of a decimal conversion
    (`sys.int_info.default_max_str_digits`): `int(s)` and `str(i)` raise
    ValueError beyond it.
  */
  const MaxStrDigits := 4300

  /** Whether `str(i)` succeeds: the magnitude has at most MaxStrDigits digits. */
  predicate StrFits(i: int) {
    |NatToString(if i < 0 then -i else i)| <= MaxStrDigits
  }

  /**
    `int(s)` in base 10: surrounding whitespace is ignored, then an optional
    sign and between one and MaxStrDigits decimal digits. None where Python
    raises ValueError.
  */
  function ParseInt(s: string): Option<int> {
    var t := Strip(s);
    if |t| > 0 && (t[0] == '+' || t[0] == '-') then
      var digits := t[1..];
      if 0 < |digits| <= MaxStrDigits && AllDigits(digits) then
        var v: int := DigitsValue(digits);
        Some(if t[0] == '-' then -v else v)
      else None
    else if 0 < |t| <= MaxStrDigits && AllDigits(t) then Some(DigitsValue(t))
    else None
  }

  /** More than MaxStrDigits digits are refused, whatever else the string holds. */
  lemma ParseIntDigitLimit(s: string)
    requires |Strip(s)| > MaxStrDigits + 1
    ensures ParseInt(s) == None
  {
  }

  lemma {:induction false} DigitsValueOfNatToString(n: nat)
    ensures DigitsValue(NatToString(n)) == n
    decreases n
  {
    if n >= 10 {
      var s := NatToString(n);
      DigitsValueOfNatToString(n / 10);
      assert s[..|s| - 1] == NatToString(n / 10);
    }
  }

  /** `int(str(i)) == i` for every integer that `str` can render. */
  lemma ParseIntToString(i: int)
    requires StrFits(i)
    ensures ParseInt(IntToString(i)) == Some(i)
  {
    var s := IntToString(i);
    assert Strip(s) == s;
    if i < 0 {
      assert s[1..] == NatToString(-i);
      DigitsValueOfNatToString(-i);
    } else {
      DigitsValueOfNatToString(i);
    }
  }

  /** `str(i)` never holds an underscore, so it survives a split on `_` whole. */
  lemma IntToStringHasNo(i: int, c: char)
    requires c != '-' && !IsDigit(c)
    ensures c !in IntToString(i)
  {
  }

  // ---------------------------------------------------------------------
  // replace
  // ---------------------------------------------------------------------

  /**
    `s.replace(pattern, "")`: scanning left to right, every non-overlapping
    occurrence of `pattern` is dropped; text produced by a removal is not
    scanned again.
  */
  function RemoveAll(s: string, pattern: string): string
    requires |pattern| > 0
    decreases |s|
  {
    if |s| < |pattern| then s
    else if s[..|pattern|] == pattern then RemoveAll(s[|pattern|..], pattern)
    else [s[0]] + RemoveAll(s[1..], pattern)
  }

  /** A string lacking some character of the pattern holds no occurrence, so nothing is removed. */
  lemma {:induction false} RemoveAllAbsent(s: string, pattern: string, c: char)
    requires |pattern| > 0 && c in pattern && c !in s
    ensures RemoveAll(s, pattern) == s
    decreases |s|
  {
    if |s| >= |pattern| {
      assert s[..|pattern|] != pattern by {
        var k :| 0 <= k < |pattern| && pattern[k] == c;
        assert s[..|pattern|][k] == s[k];
      }
      RemoveAllAbsent(s[1..], pattern, c);
      assert [s[0]] + s[1..] == s;
    }
  }

  /** A leading occurrence is removed and scanning continues after it. */
  lemma RemoveAllLeading(pattern: string, s: string)
    requires |pattern| > 0
    ensures RemoveAll(pattern + s, pattern) == RemoveAll(s, pattern)
  {
    var t := pattern + s;
    assert t[..|pattern|] == pattern;
    assert t[|pattern|..] == s;
  }
}
